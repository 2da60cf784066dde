/**
 Electing one launcher per trader. Wait and Finished run in many goroutines at once; each step below is one
 critical section, one send over an unbuffered channel, or one loop test of the code, so runs are
 the interleavings of any number of threads.
 */
module LaunchCache {
  import opened Types

  /** One launch entry: the channels of the waiters. The trader's uid is the model's, for stating who owns the entry. */
  datatype LaunchingMon = LaunchingMon(uid: string, waiting: seq<nat>)

  /** `launching` maps a uid to an index of `mons`, which stands for the pointers; entries and channels are never reused. */
  datatype Cache = Cache(launching: map<string, nat>, mons: seq<LaunchingMon>, nextCh: nat)
  {
    /** The entry a uid has, or a new one. */
    function Lookup(uid: string): Cache {
      if uid in launching then this
      else Cache(launching[uid := |mons|], mons + [LaunchingMon(uid, [])], nextCh)
    }

    function Append(lm: nat): Cache
      requires lm < |mons|
    {
      Cache(launching, mons[lm := LaunchingMon(mons[lm].uid, mons[lm].waiting + [nextCh])], nextCh + 1)
    }

    function Clear(lm: nat): Cache
      requires lm < |mons|
    {
      this.(mons := mons[lm := LaunchingMon(mons[lm].uid, [])])
    }

    function Delete(uid: string): Cache { this.(launching := launching - {uid}) }
  }

  /** The critical sections of the cache, as they change its fields. */
  class LaunchingMonitorsCache {
    var launching: map<string, nat>
    var mons: seq<LaunchingMon>
    var nextCh: nat

    function View(): Cache
      reads this
    {
      Cache(launching, mons, nextCh)
    }

    constructor ()
      ensures View() == Cache(map[], [], 0)
    {
      launching, mons, nextCh := map[], [], 0;
    }

    /** Wait up to the release of the uid lock. */
    method Lookup(uid: string) returns (found: bool, lm: nat)
      modifies this
      ensures View() == old(View()).Lookup(uid)
      ensures found == (uid in old(launching)) && uid in launching && lm == launching[uid]
    {
      found := uid in launching;
      if !found {
        mons := mons + [LaunchingMon(uid, [])];
        launching := launching[uid := |mons| - 1];
      }
      lm := launching[uid];
    }

    /** Wait from there up to the receive. */
    method Append(lm: nat) returns (myPos: nat, ch: nat)
      requires lm < |mons|
      modifies this
      ensures View() == old(View()).Append(lm)
      ensures myPos == |old(mons)[lm].waiting| && mons[lm].waiting == old(mons)[lm].waiting + [ch]
    {
      myPos, ch := |mons[lm].waiting|, nextCh;
      mons := mons[lm := LaunchingMon(mons[lm].uid, mons[lm].waiting + [ch])];
      nextCh := nextCh + 1;
    }

    /** The first waiter takes over. */
    method Clear(lm: nat)
      requires lm < |mons|
      modifies this
      ensures View() == old(View()).Clear(lm)
    {
      mons := mons[lm := LaunchingMon(mons[lm].uid, [])];
    }

    /** The end of Finished. */
    method Finish(uid: string, isSuccess: bool)
      modifies this
      ensures View() == if isSuccess then old(View()).Delete(uid) else old(View())
    {
      if isSuccess {
        launching := launching - {uid};
      }
    }
  }

  /** Where a thread is: in Wait, between a Wait that returned false and its Finished (Launching), after a Wait
      that returned true (Joined), or in the send loop of Finished. */
  datatype Pc =
    | Idle
    | Looked(lm: nat)
    | Blocked(lm: nat, pos: nat, ch: nat)
    | Elected(lm: nat)
    | Retrying
    | Launching
    | Joined
    | Finishing(ok: bool, lm: nat, i: nat)

  datatype Thread = Thread(uid: string, pc: Pc)

  datatype System = System(cache: Cache, threads: seq<Thread>)

  datatype Event =
    | Lookup(t: nat, uid: string)
    | Append(t: nat)
    | FinishStart(t: nat, uid: string, ok: bool)
    | Send(t: nat, to: nat)
    | FinishEnd(t: nat)
    | Clear(t: nat)
    | Leave(t: nat)

  /** Finished holds the uid lock while it sends. */
  predicate UidsFree(s: System) {
    forall t :: 0 <= t < |s.threads| ==> !s.threads[t].pc.Finishing?
  }

  /** And the lock of its entry. */
  predicate LmFree(s: System, lm: nat) {
    forall t :: 0 <= t < |s.threads| && s.threads[t].pc.Finishing? ==> s.threads[t].pc.lm != lm
  }

  function Waiting(s: System, lm: nat): seq<nat> {
    if lm < |s.cache.mons| then s.cache.mons[lm].waiting else []
  }

  /** Finished may be called by the thread that is launching, or out of place by one that is not. */
  predicate Enabled(s: System, e: Event) {
    && e.t < |s.threads|
    && var th := s.threads[e.t];
       match e
       case Lookup(_, uid) => UidsFree(s) && (th.pc == Idle || (th.pc == Retrying && th.uid == uid))
       case Append(_) => th.pc.Looked? && th.pc.lm < |s.cache.mons| && LmFree(s, th.pc.lm)
       case FinishStart(_, uid, _) => UidsFree(s) && (th.pc == Idle || (th.pc == Launching && th.uid == uid))
       case Send(t, to) =>
         && to < |s.threads| && th.pc.Finishing? && th.pc.i < |Waiting(s, th.pc.lm)|
         && s.threads[to].pc.Blocked? && s.threads[to].pc.ch == Waiting(s, th.pc.lm)[th.pc.i]
       case FinishEnd(_) => th.pc.Finishing? && th.pc.i >= |Waiting(s, th.pc.lm)|
       case Clear(_) => th.pc.Elected? && th.pc.lm < |s.cache.mons| && LmFree(s, th.pc.lm)
       case Leave(_) => th.pc == Joined
  }

  /** What a waiter does with what it received. */
  function Received(pc: Pc, ok: bool): Pc
    requires pc.Blocked?
  {
    if ok then Joined else if pc.pos == 0 then Elected(pc.lm) else Retrying
  }

  function Step(s: System, t: nat, cache: Cache, th: Thread): System
    requires t < |s.threads|
  {
    System(cache, s.threads[t := th])
  }

  function Effect(s: System, e: Event): System
    requires Enabled(s, e)
  {
    var th := s.threads[e.t];
    match e
    case Lookup(t, uid) =>
      Step(s, t, s.cache.Lookup(uid), Thread(uid, if uid in s.cache.launching then Looked(s.cache.launching[uid]) else Launching))
    case Append(t) =>
      Step(s, t, s.cache.Append(th.pc.lm), Thread(th.uid, Blocked(th.pc.lm, |Waiting(s, th.pc.lm)|, s.cache.nextCh)))
    case FinishStart(t, uid, ok) =>
      Step(s, t, s.cache, if uid in s.cache.launching then Thread(uid, Finishing(ok, s.cache.launching[uid], 0)) else Thread(uid, Idle))
    case Send(t, to) =>
      Step(Step(s, t, s.cache, Thread(th.uid, th.pc.(i := th.pc.i + 1))), to, s.cache,
           Thread(s.threads[to].uid, Received(s.threads[to].pc, th.pc.ok)))
    case FinishEnd(t) =>
      Step(s, t, if th.pc.ok then s.cache.Delete(th.uid) else s.cache, Thread(th.uid, Idle))
    case Clear(t) =>
      Step(s, t, s.cache.Clear(th.pc.lm), Thread(th.uid, Launching))
    case Leave(t) => Step(s, t, s.cache, Thread(th.uid, Idle))
  }

  // ------------------------------------------------------------------
  // Why one launcher at a time
  // ------------------------------------------------------------------

  /** Holds, or is about to pass on, the right to launch. */
  ghost predicate Token(s: System, th: Thread) {
    match th.pc
    case Launching => true
    case Elected(_) => true
    case Finishing(ok, lm, i) => ok || (i == 0 && Waiting(s, lm) != [])
    case _ => false
  }

  ghost predicate Holds(s: System, t: nat, uid: string) {
    t < |s.threads| && s.threads[t].uid == uid && Token(s, s.threads[t])
  }

  ghost predicate OneToken(s: System) {
    forall t, u :: 0 <= t < |s.threads| && 0 <= u < |s.threads| ==>
      s.threads[t].uid == s.threads[u].uid && Token(s, s.threads[t]) && Token(s, s.threads[u]) ==> t == u
  }

  ghost predicate Current(c: Cache, uid: string, lm: nat) { uid in c.launching && c.launching[uid] == lm }

  /** A channel can only be where its waiter recorded it. */
  ghost predicate FiledAt(c: Cache, ch: nat, lm: nat, pos: nat) {
    forall m, i :: 0 <= m < |c.mons| && 0 <= i < |c.mons[m].waiting| && c.mons[m].waiting[i] == ch ==> m == lm && i == pos
  }

  ghost predicate Sound(c: Cache, th: Thread) {
    match th.pc
    case Looked(lm) => lm < |c.mons| && c.mons[lm].uid == th.uid
    case Blocked(lm, pos, ch) => lm < |c.mons| && c.mons[lm].uid == th.uid && ch < c.nextCh && FiledAt(c, ch, lm, pos)
    case Elected(lm) => Current(c, th.uid, lm)
    case Launching => th.uid in c.launching
    case Finishing(_, lm, i) => Current(c, th.uid, lm) && lm < |c.mons| && i <= |c.mons[lm].waiting|
    case _ => true
  }

  ghost predicate CacheSound(c: Cache) {
    && (forall uid :: uid in c.launching ==> c.launching[uid] < |c.mons| && c.mons[c.launching[uid]].uid == uid)
    && forall m, i :: 0 <= m < |c.mons| && 0 <= i < |c.mons[m].waiting| ==> c.mons[m].waiting[i] < c.nextCh
  }

  ghost predicate AllSound(s: System) { forall t :: 0 <= t < |s.threads| ==> Sound(s.cache, s.threads[t]) }

  ghost predicate OneFinishing(s: System) {
    forall t, u :: 0 <= t < |s.threads| && 0 <= u < |s.threads| && s.threads[t].pc.Finishing? && s.threads[u].pc.Finishing? ==> t == u
  }

  ghost predicate IsElected(s: System, t: nat, uid: string) { t < |s.threads| && s.threads[t].uid == uid && s.threads[t].pc.Elected? }

  /** Once a failure has been sent to the first waiter, that waiter is elected. */
  ghost predicate HandedOver(s: System) {
    forall t :: 0 <= t < |s.threads| && s.threads[t].pc.Finishing? && !s.threads[t].pc.ok && s.threads[t].pc.i > 0 ==>
      exists e: nat :: IsElected(s, e, s.threads[t].uid)
  }

  ghost predicate Inv(s: System) {
    CacheSound(s.cache) && AllSound(s) && OneFinishing(s) && HandedOver(s) && OneToken(s)
  }

  ghost predicate Held(s: System, uid: string) { exists t: nat :: Holds(s, t, uid) }

  /** A Finished out of place does no harm when nobody holds the launch, or when it fails and nobody waits. */
  ghost predicate Harmless(s: System, uid: string, ok: bool) {
    !Held(s, uid) || (!ok && uid in s.cache.launching && Waiting(s, s.cache.launching[uid]) == [])
  }

  ghost predicate Safe(s: System, e: Event)
    requires Enabled(s, e)
  {
    e.FinishStart? && s.threads[e.t].pc == Idle ==> Harmless(s, e.uid, e.ok)
  }

  // What one thread knows survives what another does to the cache.

  lemma LookupKeeps(c: Cache, uid: string, th: Thread)
    requires CacheSound(c) && Sound(c, th)
    ensures Sound(c.Lookup(uid), th)
  {
  }

  lemma AppendKeeps(c: Cache, lm: nat, th: Thread)
    requires CacheSound(c) && lm < |c.mons| && Sound(c, th)
    ensures Sound(c.Append(lm), th)
  {
  }

  lemma ClearKeeps(c: Cache, lm: nat, th: Thread)
    requires CacheSound(c) && lm < |c.mons| && Sound(c, th)
    requires th.pc.Finishing? ==> th.pc.lm != lm
    ensures Sound(c.Clear(lm), th)
  {
  }

  lemma DeleteKeeps(c: Cache, uid: string, th: Thread)
    requires CacheSound(c) && Sound(c, th)
    requires th.pc.Elected? || th.pc.Launching? || th.pc.Finishing? ==> th.uid != uid
    ensures Sound(c.Delete(uid), th)
  {
  }

  /** The elected waiter stays elected while the thread that elected it is still sending. */
  lemma StillHandedOver(s: System, next: System, f: nat)
    requires AllSound(s) && HandedOver(s) && |next.threads| == |s.threads|
    requires f < |s.threads| && s.threads[f].pc.Finishing? && !s.threads[f].pc.ok && s.threads[f].pc.i > 0
    requires forall t :: 0 <= t < |s.threads| && s.threads[t].pc == Elected(s.threads[f].pc.lm) ==> next.threads[t] == s.threads[t]
    ensures exists e: nat :: IsElected(next, e, s.threads[f].uid)
  {
    var e: nat :| IsElected(s, e, s.threads[f].uid);
    assert Sound(s.cache, s.threads[e]) && Sound(s.cache, s.threads[f]);
    assert IsElected(next, e, s.threads[f].uid);
  }

  lemma LookupStep(s: System, t: nat, uid: string)
    requires Inv(s) && Enabled(s, Event.Lookup(t, uid))
    ensures Inv(Effect(s, Event.Lookup(t, uid)))
  {
    var next := Effect(s, Event.Lookup(t, uid));
    assert CacheSound(next.cache) && Sound(next.cache, next.threads[t]);
    assert OneToken(next) by { hide CacheSound, FiledAt; }
    hide CacheSound, Sound, OneToken;
    forall k | 0 <= k < |s.threads| && k != t ensures Sound(next.cache, next.threads[k]) {
      LookupKeeps(s.cache, uid, s.threads[k]);
    }
  }

  lemma AppendStep(s: System, t: nat)
    requires Inv(s) && Enabled(s, Event.Append(t))
    ensures Inv(Effect(s, Event.Append(t)))
  {
    var next := Effect(s, Event.Append(t));
    assert CacheSound(next.cache) && Sound(next.cache, next.threads[t]);
    hide CacheSound, Sound;
    assert OneToken(next);
    hide OneToken;
    forall k | 0 <= k < |s.threads| && k != t ensures Sound(next.cache, next.threads[k]) {
      AppendKeeps(s.cache, s.threads[t].pc.lm, s.threads[k]);
    }
    forall f | 0 <= f < |s.threads| && next.threads[f].pc.Finishing? && !next.threads[f].pc.ok && next.threads[f].pc.i > 0
      ensures exists e: nat :: IsElected(next, e, next.threads[f].uid)
    {
      StillHandedOver(s, next, f);
    }
  }

  lemma FinishEndStep(s: System, t: nat)
    requires Inv(s) && Enabled(s, FinishEnd(t))
    ensures Inv(Effect(s, FinishEnd(t)))
  {
    var next := Effect(s, FinishEnd(t));
    assert CacheSound(next.cache);
    hide CacheSound, Sound, FiledAt;
    forall k | 0 <= k < |s.threads| && k != t ensures Sound(next.cache, next.threads[k]) {
      if s.threads[t].pc.ok {
        DeleteKeeps(s.cache, s.threads[t].uid, s.threads[k]);
      }
    }
  }

  lemma SendStep(s: System, t: nat, to: nat)
    requires Inv(s) && Enabled(s, Send(t, to))
    ensures Inv(Effect(s, Send(t, to)))
  {
    var next := Effect(s, Send(t, to));
    assert Sound(s.cache, s.threads[to]) && Sound(s.cache, s.threads[t]);
    assert Sound(next.cache, next.threads[to]) && Sound(next.cache, next.threads[t]);
    hide CacheSound, Sound, FiledAt;
    if !s.threads[t].pc.ok {
      if s.threads[t].pc.i == 0 {
        assert IsElected(next, to, s.threads[t].uid);
      } else {
        StillHandedOver(s, next, t);
      }
    }
  }

  lemma ClearStep(s: System, t: nat)
    requires Inv(s) && Enabled(s, Event.Clear(t))
    ensures Inv(Effect(s, Event.Clear(t)))
  {
    var next := Effect(s, Event.Clear(t));
    assert CacheSound(next.cache) && Sound(next.cache, next.threads[t]);
    hide CacheSound, Sound;
    assert OneToken(next);
    hide OneToken;
    forall k | 0 <= k < |s.threads| && k != t ensures Sound(next.cache, next.threads[k]) {
      ClearKeeps(s.cache, s.threads[t].pc.lm, s.threads[k]);
    }
    forall f | 0 <= f < |s.threads| && next.threads[f].pc.Finishing? && !next.threads[f].pc.ok && next.threads[f].pc.i > 0
      ensures exists e: nat :: IsElected(next, e, next.threads[f].uid)
    {
      StillHandedOver(s, next, f);
    }
  }

  lemma LeaveStep(s: System, t: nat)
    requires Inv(s) && Enabled(s, Leave(t))
    ensures Inv(Effect(s, Leave(t)))
  {
    var next := Effect(s, Leave(t));
    assert Sound(next.cache, next.threads[t]);
    hide CacheSound, Sound, FiledAt;
    forall f | 0 <= f < |s.threads| && next.threads[f].pc.Finishing? && !next.threads[f].pc.ok && next.threads[f].pc.i > 0
      ensures exists e: nat :: IsElected(next, e, next.threads[f].uid)
    {
      StillHandedOver(s, next, f);
    }
  }

  lemma HarmlessKeeps(s: System, t: nat, uid: string, ok: bool)
    requires Inv(s) && Enabled(s, FinishStart(t, uid, ok)) && Safe(s, FinishStart(t, uid, ok))
    ensures Inv(Effect(s, FinishStart(t, uid, ok)))
  {
    var next := Effect(s, FinishStart(t, uid, ok));
    assert Sound(next.cache, next.threads[t]);
    hide CacheSound, Sound;
    assert forall h :: 0 <= h < |s.threads| && s.threads[h].uid == uid && Token(s, s.threads[h]) ==> Holds(s, h, uid);
  }

  lemma HarmfulBreaks(s: System, t: nat, uid: string, ok: bool)
    requires Inv(s) && Enabled(s, FinishStart(t, uid, ok)) && !Safe(s, FinishStart(t, uid, ok))
    ensures !OneToken(Effect(s, FinishStart(t, uid, ok)))
  {
    var next := Effect(s, FinishStart(t, uid, ok));
    var h: nat :| Holds(s, h, uid);
    assert Sound(s.cache, s.threads[h]);
    hide CacheSound, FiledAt, Sound;
    assert Token(next, next.threads[h]) && Token(next, next.threads[t]);
  }

  /** Exactly the calls of Finished that keep one launcher per trader: those of the thread that is launching,
      and those out of place that find no holder, or that fail and find no waiter. */
  lemma FinishStartStep(s: System, t: nat, uid: string, ok: bool)
    requires Inv(s) && Enabled(s, FinishStart(t, uid, ok))
    ensures Inv(Effect(s, FinishStart(t, uid, ok))) <==> Safe(s, FinishStart(t, uid, ok))
  {
    hide Effect, Enabled, Safe;
    if Safe(s, FinishStart(t, uid, ok)) {
      HarmlessKeeps(s, t, uid, ok);
    } else {
      HarmfulBreaks(s, t, uid, ok);
    }
  }

  lemma StepKeepsIffSafe(s: System, e: Event)
    requires Inv(s) && Enabled(s, e)
    ensures Inv(Effect(s, e)) <==> Safe(s, e)
  {
    hide Effect, Inv, Enabled;
    match e
    case Lookup(t, uid) => LookupStep(s, t, uid);
    case Append(t) => AppendStep(s, t);
    case FinishStart(t, uid, ok) => FinishStartStep(s, t, uid, ok);
    case Send(t, to) => SendStep(s, t, to);
    case FinishEnd(t) => FinishEndStep(s, t);
    case Clear(t) => ClearStep(s, t);
    case Leave(t) => LeaveStep(s, t);
  }

  // ------------------------------------------------------------------
  // Whole runs
  // ------------------------------------------------------------------

  ghost predicate Runs(s: System, events: seq<Event>)
    decreases events
  {
    events == [] || (Enabled(s, events[0]) && Runs(Effect(s, events[0]), events[1..]))
  }

  ghost function Final(s: System, events: seq<Event>): System
    requires Runs(s, events)
    decreases events
  {
    if events == [] then s else Final(Effect(s, events[0]), events[1..])
  }

  ghost predicate AllSafe(s: System, events: seq<Event>)
    requires Runs(s, events)
    decreases events
  {
    events == [] || (Safe(s, events[0]) && AllSafe(Effect(s, events[0]), events[1..]))
  }

  predicate Starts(s: System) {
    s.cache == Cache(map[], [], 0) && forall t :: 0 <= t < |s.threads| ==> s.threads[t].pc == Idle
  }

  lemma {:induction false} RunKeepsInv(s: System, events: seq<Event>)
    requires Inv(s) && Runs(s, events) && AllSafe(s, events)
    ensures Inv(Final(s, events))
    decreases events
  {
    hide Inv, Effect, Enabled, Safe;
    if events != [] {
      StepKeepsIffSafe(s, events[0]);
      RunKeepsInv(Effect(s, events[0]), events[1..]);
    }
  }

  /** In every interleaving, no two threads launch the same trader's monitor at once. */
  lemma MutualExclusion(s: System, events: seq<Event>, t: nat, u: nat)
    requires Starts(s) && Runs(s, events) && AllSafe(s, events)
    requires t < |Final(s, events).threads| && Final(s, events).threads[t].pc == Launching
    requires u < |Final(s, events).threads| && Final(s, events).threads[u] == Final(s, events).threads[t]
    ensures t == u
  {
    assert Inv(s);
    hide Effect, Enabled, Safe, Runs, AllSafe, Final;
    RunKeepsInv(s, events);
  }

  /** The receiver of the i-th channel of an entry recorded position i in that entry. */
  lemma WaiterKnowsItsPosition(s: System, events: seq<Event>, t: nat, lm: nat, i: nat)
    requires Starts(s) && Runs(s, events) && AllSafe(s, events)
    requires var end := Final(s, events);
      && t < |end.threads| && end.threads[t].pc.Blocked?
      && i < |Waiting(end, lm)| && Waiting(end, lm)[i] == end.threads[t].pc.ch
    ensures Final(s, events).threads[t].pc.lm == lm && Final(s, events).threads[t].pc.pos == i
  {
    assert Inv(s);
    hide Effect, Enabled, Safe, Runs, AllSafe, Final;
    RunKeepsInv(s, events);
    assert Sound(Final(s, events).cache, Final(s, events).threads[t]);
  }

  /** Wait returns true only on a success sent for the same trader. */
  lemma WaitTrueMeansLaunched(s: System, e: Event, k: nat)
    requires Inv(s) && Enabled(s, e) && k < |s.threads|
    requires s.threads[k].pc != Joined && Effect(s, e).threads[k].pc == Joined
    ensures e.Send? && e.to == k && s.threads[e.t].pc.Finishing? && s.threads[e.t].pc.ok
    ensures s.threads[e.t].uid == s.threads[k].uid
  {
    assert e.Send? && e.to == k;
    assert Sound(s.cache, s.threads[k]) && Sound(s.cache, s.threads[e.t]);
  }

  // ------------------------------------------------------------------
  // One call of Finished, however it is interleaved
  // ------------------------------------------------------------------

  lemma FinishStarts(s: System, t: nat, uid: string, ok: bool)
    requires Inv(s) && Enabled(s, FinishStart(t, uid, ok)) && s.threads[t].pc == Launching
    ensures uid in s.cache.launching
    ensures var next := Effect(s, FinishStart(t, uid, ok));
      var lm := s.cache.launching[uid];
      && next.cache == s.cache && next.threads[t] == Thread(uid, Finishing(ok, lm, 0)) && Inv(next)
      && (Held(next, uid) <==> ok || Waiting(s, lm) != [])
  {
    HarmlessKeeps(s, t, uid, ok);
    assert Sound(s.cache, s.threads[t]);
    hide CacheSound, Sound, FiledAt;
    var next := Effect(s, FinishStart(t, uid, ok));
    if Held(next, uid) {
      var h: nat :| Holds(next, h, uid);
      assert Holds(s, h, uid);
    }
    if ok || Waiting(s, s.cache.launching[uid]) != [] {
      assert Holds(next, t, uid);
    }
  }

  /** A right to launch that is there after a step was there before it, unless a new entry was made or Finished
      was called out of place. */
  lemma HeldBefore(s: System, e: Event, uid: string, h: nat)
    requires Inv(s) && Enabled(s, e) && Holds(Effect(s, e), h, uid)
    ensures Held(s, uid)
      || (e.Lookup? && uid !in s.cache.launching)
      || (e.FinishStart? && s.threads[e.t].pc == Idle && uid in s.cache.launching)
  {
    assert Sound(s.cache, s.threads[e.t]);
    assert e.Send? ==> Sound(s.cache, s.threads[e.to]);
    hide CacheSound, Sound, FiledAt;
    if e.Send? && h == e.to {
      assert Holds(s, e.t, uid);
    } else if Token(s, s.threads[h]) && s.threads[h].uid == uid {
      assert Holds(s, h, uid);
    }
  }

  /** The send loop moves the right to launch, and does not end it. */
  lemma HeldAfter(s: System, e: Event, t: nat, h: nat)
    requires Inv(s) && Enabled(s, e) && t < |s.threads| && s.threads[t].pc.Finishing? && e != FinishEnd(t)
    requires Holds(s, h, s.threads[t].uid)
    ensures Held(Effect(s, e), s.threads[t].uid)
  {
    assert Sound(s.cache, s.threads[h]) && Sound(s.cache, s.threads[t]);
    assert e.Send? ==> e.t == t && Sound(s.cache, s.threads[e.to]);
    hide CacheSound, Sound, FiledAt;
    var to := if e.Send? && h == t && !s.threads[t].pc.ok then e.to else h;
    assert Holds(Effect(s, e), to, s.threads[t].uid);
  }

  /** The send loop leaves its list alone. */
  lemma ListKept(s: System, e: Event, t: nat)
    requires Inv(s) && Enabled(s, e) && t < |s.threads| && s.threads[t].pc.Finishing? && e != FinishEnd(t)
    ensures !e.FinishStart? && !e.Lookup?
    ensures var th, next := s.threads[t], Effect(s, e);
      && |next.threads| == |s.threads| && next.threads[t].pc.Finishing? && next.threads[t].uid == th.uid
      && next.threads[t].pc.ok == th.pc.ok && next.threads[t].pc.lm == th.pc.lm
      && Waiting(next, th.pc.lm) == Waiting(s, th.pc.lm)
      && next.cache.launching == s.cache.launching
  {
    hide CacheSound, Sound, FiledAt, Token;
  }

  lemma WhileFinishing(s: System, e: Event, t: nat)
    requires Inv(s) && Enabled(s, e) && t < |s.threads| && s.threads[t].pc.Finishing? && e != FinishEnd(t)
    ensures Safe(s, e)
    ensures Held(Effect(s, e), s.threads[t].uid) <==> Held(s, s.threads[t].uid)
  {
    ListKept(s, e, t);
    hide Inv, Enabled, Effect, Holds, Waiting;
    if Held(s, s.threads[t].uid) {
      var h: nat :| Holds(s, h, s.threads[t].uid);
      HeldAfter(s, e, t, h);
    }
    if Held(Effect(s, e), s.threads[t].uid) {
      var h: nat :| Holds(Effect(s, e), h, s.threads[t].uid);
      HeldBefore(s, e, s.threads[t].uid, h);
    }
  }

  lemma {:induction false} MiddleOfFinished(s: System, middle: seq<Event>, t: nat)
    requires Inv(s) && t < |s.threads| && s.threads[t].pc.Finishing?
    requires Runs(s, middle) && FinishEnd(t) !in middle
    ensures var th, next := s.threads[t], Final(s, middle);
      && Inv(next) && |next.threads| == |s.threads| && next.threads[t].pc.Finishing? && next.threads[t].uid == th.uid
      && next.threads[t].pc.ok == th.pc.ok && next.threads[t].pc.lm == th.pc.lm
      && Waiting(next, th.pc.lm) == Waiting(s, th.pc.lm)
      && next.cache.launching == s.cache.launching
      && (Held(next, th.uid) <==> Held(s, th.uid))
    decreases middle
  {
    hide Inv, Effect, Enabled, Safe, Held, Waiting;
    if middle != [] {
      ListKept(s, middle[0], t);
      WhileFinishing(s, middle[0], t);
      StepKeepsIffSafe(s, middle[0]);
      MiddleOfFinished(Effect(s, middle[0]), middle[1..], t);
    }
  }

  /** Thread r waits at the head of entry lm. */
  predicate Heads(s: System, r: nat, uid: string, lm: nat) {
    && r < |s.threads| && s.threads[r].uid == uid && Waiting(s, lm) != []
    && s.threads[r].pc == Blocked(lm, 0, Waiting(s, lm)[0])
  }

  /** Whoever waits at the head while the list is being sent to waited there before. */
  lemma HeadedBefore(s: System, e: Event, t: nat, r: nat)
    requires Inv(s) && Enabled(s, e) && t < |s.threads| && s.threads[t].pc.Finishing? && e != FinishEnd(t)
    requires Heads(Effect(s, e), r, s.threads[t].uid, s.threads[t].pc.lm)
    ensures Heads(s, r, s.threads[t].uid, s.threads[t].pc.lm)
  {
    ListKept(s, e, t);
    assert Sound(s.cache, s.threads[t]);
    hide Sound, FiledAt, Token;
    assert e.Append? ==> s.cache.mons[s.threads[t].pc.lm].waiting[0] < s.cache.nextCh;
    hide CacheSound;
  }

  /** The elected waiter cannot take over before the send loop ends. */
  lemma {:induction false} ElectedWaits(s: System, middle: seq<Event>, t: nat, r: nat)
    requires Inv(s) && t < |s.threads| && s.threads[t].pc.Finishing? && Runs(s, middle) && FinishEnd(t) !in middle
    requires r < |s.threads| && s.threads[r].pc == Elected(s.threads[t].pc.lm)
    ensures |Final(s, middle).threads| == |s.threads| && Final(s, middle).threads[r] == s.threads[r]
    decreases middle
  {
    hide Inv, Safe;
    if middle != [] {
      ListKept(s, middle[0], t);
      WhileFinishing(s, middle[0], t);
      StepKeepsIffSafe(s, middle[0]);
      assert Effect(s, middle[0]).threads[r] == s.threads[r];
      hide Effect, Enabled;
      ElectedWaits(Effect(s, middle[0]), middle[1..], t, r);
    }
  }

  /** The first send of a failure elects the thread at the head. */
  lemma FirstSend(s: System, t: nat, to: nat)
    requires Inv(s) && Enabled(s, Send(t, to)) && !s.threads[t].pc.ok && s.threads[t].pc.i == 0
    ensures Heads(s, to, s.threads[t].uid, s.threads[t].pc.lm)
    ensures Effect(s, Send(t, to)).threads[to] == Thread(s.threads[t].uid, Elected(s.threads[t].pc.lm))
  {
    assert Sound(s.cache, s.threads[t]) && Sound(s.cache, s.threads[to]);
  }

  lemma NotFirstSend(s: System, e: Event, t: nat)
    requires Inv(s) && Enabled(s, e) && t < |s.threads| && s.threads[t].pc.Finishing? && e != FinishEnd(t)
    requires !(e.Send? && e.t == t)
    ensures Effect(s, e).threads[t] == s.threads[t]
  {
    hide CacheSound, Sound, FiledAt, Token;
  }

  lemma {:induction false} HeadIsElected(s: System, middle: seq<Event>, t: nat) returns (r: nat)
    requires Inv(s) && t < |s.threads| && Runs(s, middle) && FinishEnd(t) !in middle
    requires s.threads[t].pc.Finishing? && !s.threads[t].pc.ok && s.threads[t].pc.i == 0
    requires t < |Final(s, middle).threads| && Final(s, middle).threads[t].pc.Finishing? && Final(s, middle).threads[t].pc.i > 0
    ensures Heads(s, r, s.threads[t].uid, s.threads[t].pc.lm)
    ensures r < |Final(s, middle).threads| && Final(s, middle).threads[r] == Thread(s.threads[t].uid, Elected(s.threads[t].pc.lm))
    decreases middle
  {
    hide Inv, Safe, Heads, Effect;
    var e := middle[0];
    ListKept(s, e, t);
    WhileFinishing(s, e, t);
    StepKeepsIffSafe(s, e);
    if e.Send? && e.t == t {
      FirstSend(s, t, e.to);
      r := e.to;
      SenderStays(s, t, r);
      ElectedWaits(Effect(s, e), middle[1..], t, r);
    } else {
      NotFirstSend(s, e, t);
      r := HeadIsElected(Effect(s, e), middle[1..], t);
      HeadedBefore(s, e, t, r);
    }
  }

  lemma SenderStays(s: System, t: nat, to: nat)
    requires Enabled(s, Send(t, to))
    ensures to < |Effect(s, Send(t, to)).threads| == |s.threads|
  {
  }

  lemma FinishEnds(s: System, t: nat)
    requires Inv(s) && Enabled(s, FinishEnd(t))
    ensures var th, next := s.threads[t], Effect(s, FinishEnd(t));
      && Inv(next)
      && (Held(next, th.uid) <==> !th.pc.ok && Held(s, th.uid))
      && (th.uid in next.cache.launching <==> !th.pc.ok)
      && (!th.pc.ok && Waiting(s, th.pc.lm) != [] ==> exists e: nat :: IsElected(next, e, th.uid))
  {
    FinishEndStep(s, t);
    var th, next := s.threads[t], Effect(s, FinishEnd(t));
    assert Sound(s.cache, th);
    hide CacheSound, Sound, FiledAt;
    if !th.pc.ok && Held(s, th.uid) {
      var h: nat :| Holds(s, h, th.uid);
      assert Holds(next, h, th.uid);
    }
    if Held(next, th.uid) {
      var h: nat :| Holds(next, h, th.uid);
      assert Holds(s, h, th.uid);
      assert th.pc.ok ==> Holds(s, t, th.uid);
    }
    if !th.pc.ok && Waiting(s, th.pc.lm) != [] {
      StillHandedOver(s, next, t);
    }
  }

  /** A failed launch passes to the waiter that was first in the queue when Finished began, if there was one, and to
      nobody otherwise, however late arrivals interleave; it is the only holder. A successful one leaves nobody launching. */
  lemma FinishedHandsOver(s: System, t: nat, uid: string, ok: bool, middle: seq<Event>)
    requires Inv(s) && Enabled(s, FinishStart(t, uid, ok)) && s.threads[t].pc == Launching
    requires Runs(Effect(s, FinishStart(t, uid, ok)), middle) && FinishEnd(t) !in middle
    requires Enabled(Final(Effect(s, FinishStart(t, uid, ok)), middle), FinishEnd(t))
    ensures uid in s.cache.launching
    ensures var end := Effect(Final(Effect(s, FinishStart(t, uid, ok)), middle), FinishEnd(t));
      var lm := s.cache.launching[uid];
      && Inv(end)
      && (uid in end.cache.launching <==> !ok)
      && (Held(end, uid) <==> !ok && Waiting(s, lm) != [])
      && (Held(end, uid) ==> exists r: nat :: Heads(s, r, uid, lm) && IsElected(end, r, uid) && OnlyHolder(end, r, uid))
  {
    FinishStarts(s, t, uid, ok);
    var began := Effect(s, FinishStart(t, uid, ok));
    assert began.cache == s.cache && |began.threads| == |s.threads|;
    MiddleOfFinished(began, middle, t);
    var last := Final(began, middle);
    var end := Effect(last, FinishEnd(t));
    FinishEnds(last, t);
    if Held(end, uid) {
      var r := HeadIsElected(began, middle, t);
      assert Heads(s, r, uid, s.cache.launching[uid]);
      assert IsElected(end, r, uid) && Holds(end, r, uid);
      hide Effect, Runs, Final, CacheSound, AllSound, OneFinishing, HandedOver;
      assert OnlyHolder(end, r, uid);
    }
  }

  ghost predicate OnlyHolder(s: System, r: nat, uid: string) { Holds(s, r, uid) && forall h: nat :: Holds(s, h, uid) ==> h == r }

  // ------------------------------------------------------------------
  // What the pairing is for, and what a failure leaves
  // ------------------------------------------------------------------

  /** Listed as launching, with nobody launching it. */
  ghost predicate Stranded(s: System, uid: string) { uid in s.cache.launching && !Held(s, uid) }

  ghost predicate AllPaired(s: System, events: seq<Event>)
    requires Runs(s, events)
    decreases events
  {
    events == []
    || ((events[0].FinishStart? ==> s.threads[events[0].t].pc == Launching) && AllPaired(Effect(s, events[0]), events[1..]))
  }

  lemma StrandedStays(s: System, e: Event, uid: string)
    requires Inv(s) && Enabled(s, e) && Stranded(s, uid)
    requires e.FinishStart? ==> s.threads[e.t].pc == Launching
    ensures Stranded(Effect(s, e), uid)
  {
    if Held(Effect(s, e), uid) {
      var h: nat :| Holds(Effect(s, e), h, uid);
      HeldBefore(s, e, uid, h);
    }
    if e.FinishEnd? && s.threads[e.t].pc.ok {
      assert s.threads[e.t].uid == uid ==> Holds(s, e.t, uid);
    }
  }

  lemma {:induction false} StrandedForever(s: System, uid: string, events: seq<Event>)
    requires Inv(s) && Stranded(s, uid) && Runs(s, events) && AllPaired(s, events)
    ensures Stranded(Final(s, events), uid)
    decreases events
  {
    hide Inv, Effect, Enabled, Stranded;
    if events != [] {
      StrandedStays(s, events[0], uid);
      StepKeepsIffSafe(s, events[0]);
      StrandedForever(Effect(s, events[0]), uid, events[1..]);
    }
  }

  /** After a failed launch that nobody waited for, no thread ever launches that trader's monitor again. */
  lemma UnwaitedFailureStrands(s: System, t: nat, uid: string, events: seq<Event>, u: nat)
    requires Inv(s) && Enabled(s, FinishStart(t, uid, false)) && s.threads[t].pc == Launching
    requires uid in s.cache.launching && Waiting(s, s.cache.launching[uid]) == []
    requires Runs(Effect(s, FinishStart(t, uid, false)), events) && AllPaired(Effect(s, FinishStart(t, uid, false)), events)
    ensures var end := Final(Effect(s, FinishStart(t, uid, false)), events);
      u < |end.threads| ==> end.threads[u] != Thread(uid, Launching)
  {
    FinishStarts(s, t, uid, false);
    var began := Effect(s, FinishStart(t, uid, false));
    hide Effect, Inv, Enabled, Runs, AllPaired, Final;
    StrandedForever(began, uid, events);
    assert !Holds(Final(began, events), u, uid);
  }

  lemma {:induction false} PairedIsSafe(s: System, events: seq<Event>)
    requires Runs(s, events) && AllPaired(s, events)
    ensures AllSafe(s, events)
    decreases events
  {
    hide Effect, Enabled, Harmless;
    if events != [] {
      PairedIsSafe(Effect(s, events[0]), events[1..]);
    }
  }

  /** One launcher at a time, where every Finished is called by a thread whose Wait returned false, once. */
  lemma PairedExclusion(s: System, events: seq<Event>, t: nat, u: nat)
    requires Starts(s) && Runs(s, events) && AllPaired(s, events)
    requires t < |Final(s, events).threads| && Final(s, events).threads[t].pc == Launching
    requires u < |Final(s, events).threads| && Final(s, events).threads[u] == Final(s, events).threads[t]
    ensures t == u
  {
    hide Runs, AllSafe, AllPaired, Final;
    PairedIsSafe(s, events);
    MutualExclusion(s, events, t, u);
  }

  lemma First(s: System, e: Event, rest: seq<Event>)
    requires Enabled(s, e) && Runs(Effect(s, e), rest)
    ensures Runs(s, [e] + rest) && Final(s, [e] + rest) == Final(Effect(s, e), rest)
  {
    assert ([e] + rest)[1..] == rest;
    hide Enabled, Effect;
  }

  const LM := LaunchingMon("u", [])
  const IDLE := Thread("", Idle)
  const NEW := System(Cache(map[], [], 0), [IDLE, IDLE, IDLE])
  const DONE := System(Cache(map[], [LM], 0), [Thread("u", Idle), IDLE, IDLE])
  const AGAIN := System(Cache(map["u" := 1], [LM, LM], 0), [Thread("u", Idle), Thread("u", Launching), IDLE])
  const AWAITED := System(Cache(map["u" := 1], [LM, LaunchingMon("u", [0])], 1),
                          [Thread("u", Idle), Thread("u", Launching), Thread("u", Blocked(1, 0, 0))])
  const TAKEN := System(AWAITED.cache, [Thread("u", Idle), Thread("u", Launching), Thread("u", Elected(1))])
  const TWO := System(AGAIN.cache.(nextCh := 1), [Thread("u", Idle), Thread("u", Launching), Thread("u", Launching)])

  lemma Launched(rest: seq<Event>)
    requires Runs(DONE, rest)
    ensures Runs(NEW, [Event.Lookup(0, "u")] + ([FinishStart(0, "u", true)] + ([FinishEnd(0)] + rest)))
    ensures Final(NEW, [Event.Lookup(0, "u")] + ([FinishStart(0, "u", true)] + ([FinishEnd(0)] + rest))) == Final(DONE, rest)
  {
    var launching := Effect(NEW, Event.Lookup(0, "u"));
    assert launching == System(Cache(map["u" := 0], [LM], 0), [Thread("u", Launching), IDLE, IDLE]);
    var sending := Effect(launching, FinishStart(0, "u", true));
    assert sending == System(launching.cache, [Thread("u", Finishing(true, 0, 0)), IDLE, IDLE]);
    assert Effect(sending, FinishEnd(0)) == DONE;
    hide Effect, Enabled, Runs, Final;
    First(sending, FinishEnd(0), rest);
    First(launching, FinishStart(0, "u", true), [FinishEnd(0)] + rest);
    First(NEW, Event.Lookup(0, "u"), [FinishStart(0, "u", true)] + ([FinishEnd(0)] + rest));
  }

  lemma WaitedFor(rest: seq<Event>)
    requires Runs(AWAITED, rest)
    ensures Runs(DONE, [Event.Lookup(1, "u")] + ([Event.Lookup(2, "u")] + ([Event.Append(2)] + rest)))
    ensures Final(DONE, [Event.Lookup(1, "u")] + ([Event.Lookup(2, "u")] + ([Event.Append(2)] + rest))) == Final(AWAITED, rest)
  {
    assert Effect(DONE, Event.Lookup(1, "u")) == AGAIN;
    var looked := Effect(AGAIN, Event.Lookup(2, "u"));
    assert looked == System(AGAIN.cache, [Thread("u", Idle), Thread("u", Launching), Thread("u", Looked(1))]);
    var none: seq<nat> := [];
    assert none + [0] == [0];
    assert AGAIN.cache.Append(1).mons[1].waiting == none + [0];
    assert AGAIN.cache.Append(1) == AWAITED.cache;
    assert Effect(looked, Event.Append(2)) == AWAITED;
    hide Effect, Enabled, Runs, Final;
    First(looked, Event.Append(2), rest);
    First(AGAIN, Event.Lookup(2, "u"), [Event.Append(2)] + rest);
    First(DONE, Event.Lookup(1, "u"), [Event.Lookup(2, "u")] + ([Event.Append(2)] + rest));
  }

  lemma FailedToo(rest: seq<Event>)
    requires Runs(TAKEN, rest)
    ensures Runs(AWAITED, [FinishStart(0, "u", false)] + ([Send(0, 2)] + ([FinishEnd(0)] + rest)))
    ensures Final(AWAITED, [FinishStart(0, "u", false)] + ([Send(0, 2)] + ([FinishEnd(0)] + rest))) == Final(TAKEN, rest)
  {
    var sending := Effect(AWAITED, FinishStart(0, "u", false));
    assert sending == System(AWAITED.cache, [Thread("u", Finishing(false, 1, 0)), AWAITED.threads[1], AWAITED.threads[2]]);
    var sent := Effect(sending, Send(0, 2));
    assert sent == System(AWAITED.cache, [Thread("u", Finishing(false, 1, 1)), TAKEN.threads[1], TAKEN.threads[2]]);
    assert Effect(sent, FinishEnd(0)) == TAKEN;
    hide Effect, Enabled, Runs, Final;
    First(sent, FinishEnd(0), rest);
    First(sending, Send(0, 2), [FinishEnd(0)] + rest);
    First(AWAITED, FinishStart(0, "u", false), [Send(0, 2)] + ([FinishEnd(0)] + rest));
  }

  /** startBot reports success and then, deferred, failure: if meanwhile another thread launches the same trader's
      monitor again and a third waits for it, the second report makes the third launch it too. */
  lemma TwoReportsTwoLaunchers() returns (events: seq<Event>)
    ensures Starts(NEW) && Runs(NEW, events) && !AllSafe(NEW, events)
    ensures Final(NEW, events).threads == [Thread("u", Idle), Thread("u", Launching), Thread("u", Launching)]
  {
    assert Effect(TAKEN, Event.Clear(2)) == TWO;
    assert Runs(TWO, []) && Final(TWO, []) == TWO;
    hide Effect, Enabled, AllSafe, Runs, Final;
    First(TAKEN, Event.Clear(2), []);
    FailedToo([Event.Clear(2)] + []);
    var late := [FinishStart(0, "u", false)] + ([Send(0, 2)] + ([FinishEnd(0)] + ([Event.Clear(2)] + [])));
    WaitedFor(late);
    var second := [Event.Lookup(1, "u")] + ([Event.Lookup(2, "u")] + ([Event.Append(2)] + late));
    Launched(second);
    events := [Event.Lookup(0, "u")] + ([FinishStart(0, "u", true)] + ([FinishEnd(0)] + second));
    assert Final(NEW, events) == TWO;
    if AllSafe(NEW, events) {
      MutualExclusion(NEW, events, 1, 2);
    }
  }
}
