/**
 Whom a launcher's call of Finished sends to. A channel is unbuffered, so a send ends only when its waiter receives; the
 list a launcher sends along must hold no channel whose waiter has left.
 */
module LaunchProgress {
  import opened Types
  import opened LaunchCache

  /** Thread w waits in entry lm at position i, on the channel that is there. */
  predicate BlockedAt(s: System, w: nat, lm: nat, i: nat) {
    w < |s.threads| && i < |Waiting(s, lm)| && s.threads[w].pc == Blocked(lm, i, Waiting(s, lm)[i])
  }

  ghost predicate HasWaiter(s: System, lm: nat, i: nat) { exists w: nat :: BlockedAt(s, w, lm, i) }

  /** Every channel of the entry from position `from` on has a waiter. */
  ghost predicate WaitersFrom(s: System, lm: nat, from: nat) {
    forall i: nat :: from <= i < |Waiting(s, lm)| ==> HasWaiter(s, lm, i)
  }

  predicate LaunchingOn(s: System, u: nat, lm: nat) {
    u < |s.threads| && s.threads[u].pc == Launching && s.threads[u].uid in s.cache.launching && s.cache.launching[s.threads[u].uid] == lm
  }

  /** While a thread launches, every channel queued on its entry has a waiter. */
  ghost predicate AllWaiting(s: System) {
    forall u: nat, lm: nat :: LaunchingOn(s, u, lm) ==> WaitersFrom(s, lm, 0)
  }

  // ------------------------------------------------------------------
  // While a thread launches
  // ------------------------------------------------------------------

  /** A list that a step leaves as it is keeps its waiters, but for the one that receives. */
  lemma WaitersKept(s: System, next: System, lm: nat, from: nat)
    requires WaitersFrom(s, lm, from) && Waiting(next, lm) == Waiting(s, lm) && |next.threads| == |s.threads|
    requires forall w: nat, i: nat :: from <= i && BlockedAt(s, w, lm, i) ==> next.threads[w] == s.threads[w]
    ensures WaitersFrom(next, lm, from)
  {
    forall i: nat | from <= i < |Waiting(next, lm)| ensures HasWaiter(next, lm, i) {
      assert HasWaiter(s, lm, i);
      var w: nat :| BlockedAt(s, w, lm, i);
      assert BlockedAt(next, w, lm, i);
    }
  }

  /** Two launches under way are of different traders, and so on different entries. */
  lemma EntriesApart(s: System, t: nat, u: nat, lm: nat)
    requires Inv(s) && t < |s.threads| && u < |s.threads| && t != u
    requires LaunchingOn(s, u, lm) && Token(s, s.threads[t])
    ensures s.threads[t].uid != s.threads[u].uid
    ensures (s.threads[t].pc.Elected? || s.threads[t].pc.Finishing?) ==> s.threads[t].pc.lm != lm
  {
    assert Sound(s.cache, s.threads[t]) && Sound(s.cache, s.threads[u]);
    hide FiledAt, HandedOver, OneFinishing;
  }

  /** The entry whose failure or success is being sent is not one that somebody launches on. */
  lemma SentElsewhere(s: System, t: nat, to: nat, u: nat, lm: nat)
    requires Inv(s) && Enabled(s, Send(t, to)) && LaunchingOn(s, u, lm)
    ensures s.threads[t].pc.lm != lm
  {
    assert Sound(s.cache, s.threads[t]) && Sound(s.cache, s.threads[u]);
    hide FiledAt, OneFinishing, Sound;
    if Token(s, s.threads[t]) {
      EntriesApart(s, t, u, lm);
    } else {
      var e: nat :| IsElected(s, e, s.threads[t].uid);
      SameOwner(s, t, u, lm);
      assert Token(s, s.threads[e]) && Token(s, s.threads[u]);
    }
  }

  lemma SameOwner(s: System, t: nat, u: nat, lm: nat)
    requires Inv(s) && t < |s.threads| && s.threads[t].pc.Finishing? && LaunchingOn(s, u, lm)
    ensures s.threads[t].pc.lm == lm ==> s.threads[t].uid == s.threads[u].uid
  {
    assert Sound(s.cache, s.threads[t]) && Sound(s.cache, s.threads[u]);
  }

  /** The receiver of a send recorded the entry and the position it is sent from. */
  lemma ReceiverFiled(s: System, t: nat, to: nat)
    requires Inv(s) && Enabled(s, Send(t, to))
    ensures s.threads[to].pc == Blocked(s.threads[t].pc.lm, s.threads[t].pc.i, Waiting(s, s.threads[t].pc.lm)[s.threads[t].pc.i])
  {
    assert Sound(s.cache, s.threads[to]) && Sound(s.cache, s.threads[t]);
  }

  lemma LookupWaits(s: System, t: nat, uid: string, u: nat, lm: nat)
    requires Inv(s) && AllWaiting(s) && Enabled(s, Event.Lookup(t, uid))
    requires LaunchingOn(Effect(s, Event.Lookup(t, uid)), u, lm)
    ensures WaitersFrom(Effect(s, Event.Lookup(t, uid)), lm, 0)
  {
    var next := Effect(s, Event.Lookup(t, uid));
    if u == t {
      assert Waiting(next, lm) == [];
    } else {
      assert Sound(s.cache, s.threads[u]);
      assert LaunchingOn(s, u, lm);
      WaitersKept(s, next, lm, 0);
    }
  }

  lemma AppendWaits(s: System, t: nat, u: nat, lm: nat)
    requires Inv(s) && AllWaiting(s) && Enabled(s, Event.Append(t))
    requires LaunchingOn(Effect(s, Event.Append(t)), u, lm)
    ensures WaitersFrom(Effect(s, Event.Append(t)), lm, 0)
  {
    var next := Effect(s, Event.Append(t));
    hide Inv;
    assert LaunchingOn(s, u, lm);
    var before := Waiting(s, lm);
    if lm == s.threads[t].pc.lm {
      assert Waiting(next, lm) == before + [s.cache.nextCh];
      forall i: nat | i < |Waiting(next, lm)| ensures HasWaiter(next, lm, i) {
        if i < |before| {
          assert HasWaiter(s, lm, i);
          var w: nat :| BlockedAt(s, w, lm, i);
          assert BlockedAt(next, w, lm, i);
        } else {
          assert BlockedAt(next, t, lm, i);
        }
      }
    } else {
      WaitersKept(s, next, lm, 0);
    }
  }

  /** The elected waiter empties the list, so that nobody it will send to has left; other lists stay as they are. */
  lemma ClearWaits(s: System, t: nat, u: nat, lm: nat)
    requires Inv(s) && AllWaiting(s) && Enabled(s, Event.Clear(t))
    requires LaunchingOn(Effect(s, Event.Clear(t)), u, lm)
    ensures WaitersFrom(Effect(s, Event.Clear(t)), lm, 0)
  {
    var next := Effect(s, Event.Clear(t));
    if u == t {
      assert Sound(s.cache, s.threads[t]);
      hide Inv;
      assert Waiting(next, lm) == [];
    } else {
      hide Inv;
      assert LaunchingOn(s, u, lm);
      EntriesApart(s, t, u, lm);
      WaitersKept(s, next, lm, 0);
    }
  }

  lemma SendWaits(s: System, t: nat, to: nat, u: nat, lm: nat)
    requires Inv(s) && AllWaiting(s) && Enabled(s, Send(t, to))
    requires LaunchingOn(Effect(s, Send(t, to)), u, lm)
    ensures WaitersFrom(Effect(s, Send(t, to)), lm, 0)
  {
    hide Inv;
    var next := Effect(s, Send(t, to));
    assert LaunchingOn(s, u, lm);
    SentElsewhere(s, t, to, u, lm);
    ReceiverFiled(s, t, to);
    WaitersKept(s, next, lm, 0);
  }

  /** The other steps change no list and unblock nobody. */
  lemma QuietWaits(s: System, e: Event, u: nat, lm: nat)
    requires AllWaiting(s) && Enabled(s, e) && (e.FinishStart? || e.FinishEnd? || e.Leave?)
    requires LaunchingOn(Effect(s, e), u, lm)
    ensures WaitersFrom(Effect(s, e), lm, 0)
  {
    assert LaunchingOn(s, u, lm);
    WaitersKept(s, Effect(s, e), lm, 0);
  }

  lemma StepKeepsWaiting(s: System, e: Event)
    requires Inv(s) && AllWaiting(s) && Enabled(s, e)
    ensures AllWaiting(Effect(s, e))
  {
    hide Inv, Effect, Enabled, LaunchingOn, WaitersFrom;
    forall u: nat, lm: nat | LaunchingOn(Effect(s, e), u, lm) ensures WaitersFrom(Effect(s, e), lm, 0) {
      match e
      case Lookup(t, uid) => LookupWaits(s, t, uid, u, lm);
      case Append(t) => AppendWaits(s, t, u, lm);
      case Send(t, to) => SendWaits(s, t, to, u, lm);
      case Clear(t) => ClearWaits(s, t, u, lm);
      case _ => QuietWaits(s, e, u, lm);
    }
  }

  lemma {:induction false} RunKeepsWaiting(s: System, events: seq<Event>)
    requires Inv(s) && AllWaiting(s) && Runs(s, events) && AllSafe(s, events)
    ensures Inv(Final(s, events)) && AllWaiting(Final(s, events))
    decreases events
  {
    hide Inv, AllWaiting, Effect, Enabled, Safe;
    if events != [] {
      StepKeepsIffSafe(s, events[0]);
      StepKeepsWaiting(s, events[0]);
      RunKeepsWaiting(Effect(s, events[0]), events[1..]);
    }
  }

  /** In every interleaving, while a thread launches a trader's monitor each channel queued on that trader's entry has a
      thread waiting on it, at its position. */
  lemma LaunchersAreWaitedFor(s: System, events: seq<Event>, t: nat, i: nat) returns (w: nat)
    requires Starts(s) && Runs(s, events) && AllSafe(s, events)
    requires t < |Final(s, events).threads| && Final(s, events).threads[t].pc == Launching
    requires var end := Final(s, events);
      end.threads[t].uid in end.cache.launching && i < |Waiting(end, end.cache.launching[end.threads[t].uid])|
    ensures var end := Final(s, events);
      var lm := end.cache.launching[end.threads[t].uid];
      w < |end.threads| && end.threads[w] == Thread(end.threads[w].uid, Blocked(lm, i, Waiting(end, lm)[i]))
  {
    assert Inv(s) && AllWaiting(s);
    hide Runs, AllSafe, Final, Inv, Effect, Enabled, CacheSound, AllSound, OneFinishing, HandedOver, OneToken;
    RunKeepsWaiting(s, events);
    var end := Final(s, events);
    var lm := end.cache.launching[end.threads[t].uid];
    assert LaunchingOn(end, t, lm);
    assert HasWaiter(end, lm, i);
    w :| BlockedAt(end, w, lm, i);
  }

  // ------------------------------------------------------------------
  // A launcher's Finished
  // ------------------------------------------------------------------

  /** Everybody it has yet to send to waits. */
  ghost predicate RestWaits(s: System, t: nat) {
    t < |s.threads| && s.threads[t].pc.Finishing? && WaitersFrom(s, s.threads[t].pc.lm, s.threads[t].pc.i)
  }

  lemma BeginsWaited(s: System, t: nat, uid: string, ok: bool)
    requires Inv(s) && AllWaiting(s) && Enabled(s, FinishStart(t, uid, ok)) && s.threads[t].pc == Launching
    ensures RestWaits(Effect(s, FinishStart(t, uid, ok)), t)
  {
    assert Sound(s.cache, s.threads[t]);
    hide Inv;
    var lm := s.cache.launching[uid];
    assert LaunchingOn(s, t, lm);
    WaitersKept(s, Effect(s, FinishStart(t, uid, ok)), lm, 0);
  }

  /** A waiter at a later position is not the receiver of a send to an earlier one. */
  lemma NotTheReceiver(s: System, t: nat, to: nat, w: nat, i: nat)
    requires Inv(s) && Enabled(s, Send(t, to)) && s.threads[t].pc.i < i && BlockedAt(s, w, s.threads[t].pc.lm, i)
    ensures w != to && w != t
  {
    ReceiverFiled(s, t, to);
  }

  lemma RestKept(s: System, e: Event, t: nat)
    requires Inv(s) && RestWaits(s, t) && Enabled(s, e) && e != FinishEnd(t)
    ensures RestWaits(Effect(s, e), t)
  {
    hide Inv;
    ListKept(s, e, t);
    var next, lm := Effect(s, e), s.threads[t].pc.lm;
    if e.Send? {
      SoleSender(s, e, t);
      forall i: nat | s.threads[t].pc.i + 1 <= i < |Waiting(next, lm)| ensures HasWaiter(next, lm, i) {
        assert HasWaiter(s, lm, i);
        var w: nat :| BlockedAt(s, w, lm, i);
        NotTheReceiver(s, t, e.to, w, i);
        assert BlockedAt(next, w, lm, i);
      }
    } else {
      NotFirstSend(s, e, t);
      WaitersKept(s, next, lm, s.threads[t].pc.i);
    }
  }

  lemma SoleSender(s: System, e: Event, t: nat)
    requires Inv(s) && t < |s.threads| && s.threads[t].pc.Finishing? && Enabled(s, e) && e.Send?
    ensures e.t == t && Effect(s, e).threads[t].pc.i == s.threads[t].pc.i + 1
  {
  }

  lemma {:induction false} RestOverRun(s: System, middle: seq<Event>, t: nat)
    requires Inv(s) && RestWaits(s, t) && Runs(s, middle) && FinishEnd(t) !in middle
    ensures Inv(Final(s, middle)) && RestWaits(Final(s, middle), t)
    decreases middle
  {
    assert t < |s.threads| && s.threads[t].pc.Finishing?;
    hide Inv, Effect, Enabled, Safe, RestWaits;
    if middle != [] {
      WhileFinishing(s, middle[0], t);
      StepKeepsIffSafe(s, middle[0]);
      RestKept(s, middle[0], t);
      RestOverRun(Effect(s, middle[0]), middle[1..], t);
    }
  }

  lemma DuringFinished(s: System, before: seq<Event>, t: nat, uid: string, ok: bool, middle: seq<Event>)
    requires Starts(s) && Runs(s, before) && AllSafe(s, before)
    requires Enabled(Final(s, before), FinishStart(t, uid, ok)) && Final(s, before).threads[t].pc == Launching
    requires Runs(Effect(Final(s, before), FinishStart(t, uid, ok)), middle) && FinishEnd(t) !in middle
    ensures var now := Final(Effect(Final(s, before), FinishStart(t, uid, ok)), middle); Inv(now) && RestWaits(now, t)
  {
    assert Inv(s) && AllWaiting(s);
    hide Runs, AllSafe, Final, Inv, AllWaiting, Effect;
    RunKeepsWaiting(s, before);
    var launched := Final(s, before);
    BeginsWaited(launched, t, uid, ok);
    BeginsSound(launched, t, uid, ok);
    RestOverRun(Effect(launched, FinishStart(t, uid, ok)), middle, t);
  }

  lemma BeginsSound(s: System, t: nat, uid: string, ok: bool)
    requires Inv(s) && Enabled(s, FinishStart(t, uid, ok)) && s.threads[t].pc == Launching
    ensures Inv(Effect(s, FinishStart(t, uid, ok)))
  {
    hide Inv, Enabled, Effect;
    FinishStarts(s, t, uid, ok);
  }

  lemma CanGoOn(s: System, t: nat)
    requires RestWaits(s, t)
    ensures if s.threads[t].pc.i < |Waiting(s, s.threads[t].pc.lm)|
            then exists to: nat :: Enabled(s, Send(t, to)) && s.threads[to].pc.pos == s.threads[t].pc.i
            else Enabled(s, FinishEnd(t))
  {
    if s.threads[t].pc.i < |Waiting(s, s.threads[t].pc.lm)| {
      assert HasWaiter(s, s.threads[t].pc.lm, s.threads[t].pc.i);
      var to: nat :| BlockedAt(s, to, s.threads[t].pc.lm, s.threads[t].pc.i);
      assert Enabled(s, Send(t, to));
    }
  }

  /** No send of a launcher's Finished lacks its receiver: at any point of the call, whatever interleaves, either its next
      send can take place or it has sent to everybody and can end. */
  lemma FinishedNeverStuck(s: System, before: seq<Event>, t: nat, uid: string, ok: bool, middle: seq<Event>)
    requires Starts(s) && Runs(s, before) && AllSafe(s, before)
    requires Enabled(Final(s, before), FinishStart(t, uid, ok)) && Final(s, before).threads[t].pc == Launching
    requires Runs(Effect(Final(s, before), FinishStart(t, uid, ok)), middle) && FinishEnd(t) !in middle
    ensures var now := Final(Effect(Final(s, before), FinishStart(t, uid, ok)), middle);
      && t < |now.threads| && now.threads[t].pc.Finishing?
      && if now.threads[t].pc.i < |Waiting(now, now.threads[t].pc.lm)|
         then exists to: nat :: Enabled(now, Send(t, to)) && now.threads[to].pc.pos == now.threads[t].pc.i
         else Enabled(now, FinishEnd(t))
  {
    hide Starts, Runs, AllSafe, Final, Inv, Effect, Enabled;
    DuringFinished(s, before, t, uid, ok, middle);
    CanGoOn(Final(Effect(Final(s, before), FinishStart(t, uid, ok)), middle), t);
  }

  lemma PositionInList(s: System, t: nat)
    requires Inv(s) && RestWaits(s, t)
    ensures s.threads[t].pc.i <= |Waiting(s, s.threads[t].pc.lm)|
  {
    assert Sound(s.cache, s.threads[t]);
  }

  lemma {:induction false} CanEnd(s: System, t: nat) returns (sends: seq<Event>)
    requires Inv(s) && RestWaits(s, t)
    ensures Runs(s, sends) && FinishEnd(t) !in sends && Enabled(Final(s, sends), FinishEnd(t))
    ensures |sends| == |Waiting(s, s.threads[t].pc.lm)| - s.threads[t].pc.i
    decreases |Waiting(s, s.threads[t].pc.lm)| - s.threads[t].pc.i
  {
    PositionInList(s, t);
    CanGoOn(s, t);
    assert t < |s.threads| && s.threads[t].pc.Finishing?;
    hide RestWaits, Inv;
    if s.threads[t].pc.i < |Waiting(s, s.threads[t].pc.lm)| {
      var to: nat :| Enabled(s, Send(t, to));
      var e := Send(t, to);
      ListKept(s, e, t);
      SoleSender(s, e, t);
      RestKept(s, e, t);
      WhileFinishing(s, e, t);
      StepKeepsIffSafe(s, e);
      hide Effect, Enabled, Safe;
      var rest := CanEnd(Effect(s, e), t);
      First(s, e, rest);
      sends := [e] + rest;
    } else {
      sends := [];
    }
  }

  /** Left alone, such a call ends after one send to each waiter it has not sent to yet. */
  lemma FinishedCanEnd(s: System, before: seq<Event>, t: nat, uid: string, ok: bool, middle: seq<Event>) returns (sends: seq<Event>)
    requires Starts(s) && Runs(s, before) && AllSafe(s, before)
    requires Enabled(Final(s, before), FinishStart(t, uid, ok)) && Final(s, before).threads[t].pc == Launching
    requires Runs(Effect(Final(s, before), FinishStart(t, uid, ok)), middle) && FinishEnd(t) !in middle
    ensures var now := Final(Effect(Final(s, before), FinishStart(t, uid, ok)), middle);
      && t < |now.threads| && now.threads[t].pc.Finishing?
      && Runs(now, sends) && FinishEnd(t) !in sends && Enabled(Final(now, sends), FinishEnd(t))
      && |sends| == |Waiting(now, now.threads[t].pc.lm)| - now.threads[t].pc.i
  {
    hide Starts, Runs, AllSafe, Final, Inv, Effect, Enabled;
    DuringFinished(s, before, t, uid, ok, middle);
    sends := CanEnd(Final(Effect(Final(s, before), FinishStart(t, uid, ok)), middle), t);
  }

  /** What a waiter makes of what it is sent: a success ends its wait with true; the first failure elects it, and any other
      sends it back to look again. */
  lemma ReceiverGoesOn(s: System, t: nat, to: nat)
    requires Inv(s) && Enabled(s, Send(t, to))
    ensures var sender, next := s.threads[t].pc, Effect(s, Send(t, to)).threads[to];
      && next.uid == s.threads[to].uid
      && next.pc == if sender.ok then Joined else if sender.i == 0 then Elected(sender.lm) else Retrying
  {
    ReceiverFiled(s, t, to);
    hide Inv;
  }

  /** In a call of Wait, whichever part of it. */
  predicate InWait(pc: Pc) { pc.Looked? || pc.Blocked? || pc.Elected? || pc.Retrying? }

  /** A call of Wait ends in one of two ways: false, the caller is to launch, which happens to who is elected or finds no
      entry; or true, after a success was sent to it. */
  lemma WaitEnds(s: System, e: Event, t: nat)
    requires Enabled(s, e) && t < |s.threads| && InWait(s.threads[t].pc) && !InWait(Effect(s, e).threads[t].pc)
    ensures var was, now := s.threads[t], Effect(s, e).threads[t];
      && now.uid == was.uid
      && ((now.pc == Launching && e.t == t && was.pc.Elected? && e.Clear?)
          || (now.pc == Launching && e.t == t && was.pc == Retrying && was.uid !in s.cache.launching)
          || (now.pc == Joined && e.Send? && e.to == t && s.threads[e.t].pc.ok))
  {
  }
}
