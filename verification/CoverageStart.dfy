/**
 A bot that starts while its trader's monitor is already running. startBot reads the trader's positions, waits for
 the exchange to report the user's, and only then adds the bot; meanwhile the monitor polls, and dispatches to the
 bots it has. What is dispatched in between the new bot never hears of.
 */
module CoverageStart {
  import opened Types
  import opened TraderDiff
  import opened BotRuntime
  import opened BotStartup
  import opened Coverage

  /** A monitor without the new bot: its snapshot, the updates still to go, and the book those dispatched describe. */
  datatype Watch = Watch(snapshot: seq<TraderPosition>, queue: seq<Update>, view: map<Key, real>)

  datatype WatchEvent = NewPoll(answer: Option<seq<TraderPosition>>) | ToOthers

  predicate WatchEnabled(w: Watch, e: WatchEvent) {
    match e
    case NewPoll(answer) => w.queue == [] && (answer.Some? ==> OnePerSymbol(answer.value))
    case ToOthers => w.queue != []
  }

  function WatchEffect(w: Watch, e: WatchEvent): Watch
    requires WatchEnabled(w, e)
  {
    match e
    case NewPoll(None) => w
    case NewPoll(Some(nPs)) => Watch(nPs, Compare(w.snapshot, nPs), w.view)
    case ToOthers => Watch(w.snapshot, w.queue[1..], Apply(w.view, w.queue[0]))
  }

  predicate WatchRuns(w: Watch, events: seq<WatchEvent>)
    decreases events
  {
    events == [] || (WatchEnabled(w, events[0]) && WatchRuns(WatchEffect(w, events[0]), events[1..]))
  }

  function Watched(w: Watch, events: seq<WatchEvent>): Watch
    requires WatchRuns(w, events)
    decreases events
  {
    if events == [] then w else Watched(WatchEffect(w, events[0]), events[1..])
  }

  predicate WatchInStep(w: Watch) { InStep(w.snapshot, w.queue, w.view) }

  predicate WatchStarts(w: Watch) { OnePerSymbol(w.snapshot) && w.queue == [] && w.view == Book(w.snapshot) }

  lemma WatchStep(w: Watch, e: WatchEvent)
    requires WatchInStep(w) && WatchEnabled(w, e)
    ensures WatchInStep(WatchEffect(w, e))
  {
    hide InStep;
    match e {
      case NewPoll(answer) => if answer.Some? { PollStep(w.snapshot, w.view, answer.value); }
      case ToOthers => ViewStep(w.snapshot, w.queue, w.view);
    }
  }

  lemma {:induction false} WatchRun(w: Watch, events: seq<WatchEvent>)
    requires WatchInStep(w) && WatchRuns(w, events)
    ensures WatchInStep(Watched(w, events))
    decreases events
  {
    hide WatchInStep, WatchEffect, WatchEnabled;
    if events != [] {
      WatchStep(w, events[0]);
      WatchRun(WatchEffect(w, events[0]), events[1..]);
    }
  }

  /** addBot. */
  function WithBot(w: Watch, bot: BotState): System { System(w.snapshot, w.queue, w.view, bot) }

  function LeavingKeys(queue: seq<Update>): set<Key> {
    set i | 0 <= i < |queue| && queue[i].kind == CloseLS :: KeyOfUpdate(queue[i])
  }

  // ------------------------------------------------------------------
  // What a start covers
  // ------------------------------------------------------------------

  /** The positions read had the key, or one of the two parties alone had the symbol open. */
  predicate SeenAtStart(read: seq<TraderPosition>, inverse: bool, user: map<string, BotPosition>, k: Key) {
    HasKey(read, k) || Unjoined(read, inverse, user, k.0) || UserOnly(read, user, user.Keys, k.0)
  }

  /** Every position the trader holds, and is not about to close, was seen. */
  predicate AllSeen(w: Watch, read: seq<TraderPosition>, inverse: bool, user: map<string, BotPosition>) {
    forall k :: k in w.view && !Leaving(w.queue, k) ==> SeenAtStart(read, inverse, user, k)
  }

  lemma JoinedHash(read: seq<TraderPosition>, inverse: bool, k: Key)
    requires OnePerSymbol(read) && IsTradeSide(k.1)
    ensures TraderHolds(read, inverse, PosHash(k.0, EffectiveSide(k.1, inverse))) <==> HasKey(read, k)
  {
    var hash := PosHash(k.0, EffectiveSide(k.1, inverse));
    if TraderHolds(read, inverse, hash) {
      var i :| 0 <= i < |read| && OurHash(read[i], inverse) == hash;
      assert read[i] in read;
      KeysDiffer(KeyOf(read[i]), k, inverse);
    }
    if HasKey(read, k) {
      var i :| 0 <= i < |read| && KeyOf(read[i]) == k;
      assert OurHash(read[i], inverse) == hash;
    }
  }

  /** A bot just started covers exactly what it saw, and nothing outstanding can take that away. */
  lemma CoveredAtStart(read: seq<TraderPosition>, inverse: bool, user: map<string, BotPosition>, bot: BotState, k: Key)
    requires OnePerSymbol(read) && KeyedByHash(user) && Started(read, inverse, user, bot) && IsTradeSide(k.1)
    ensures Covered(bot, inverse, k) <==> SeenAtStart(read, inverse, user, k)
    ensures Secure(bot, inverse, k) <==> SeenAtStart(read, inverse, user, k)
  {
    var hash := PosHash(k.0, EffectiveSide(k.1, inverse));
    JoinedHash(read, inverse, k);
    if hash in user {
      EffectiveSideInjective(k.1, k.1, inverse);
      PosHashInjective(user[hash].symbol, user[hash].side, k.0, EffectiveSide(k.1, inverse));
    } else if HasKey(read, k) {
      var i :| 0 <= i < |read| && KeyOf(read[i]) == k;
      assert OurHash(read[i], inverse) == hash;
    }
    hide PosHash, OurHash, EffectiveSide, OnePerSymbol, HasKey, TraderHolds, UserOnly;
  }

  lemma StartedWellKept(read: seq<TraderPosition>, inverse: bool, user: map<string, BotPosition>, bot: BotState)
    requires KeyedByHash(user) && Started(read, inverse, user, bot)
    ensures WellKept(bot.positions)
  {
    hide PosHash, OurHash;
  }

  /** Adding the bot starts the invariant exactly when it saw every position the trader holds and is not about to close. */
  lemma AddKeepsIffSeen(w: Watch, read: seq<TraderPosition>, inverse: bool, user: map<string, BotPosition>, bot: BotState)
    requires WatchInStep(w) && OnePerSymbol(read) && KeyedByHash(user) && Started(read, inverse, user, bot)
    ensures Inv(WithBot(w, bot), inverse, LeavingKeys(w.queue)) <==> AllSeen(w, read, inverse, user)
  {
    StartedWellKept(read, inverse, user, bot);
    TradeSides(WithBot(w, bot));
    hide WellKept, InStep, Started, Secure, SeenAtStart, OnePerSymbol, KeyedByHash;
    forall k | k in w.view
      ensures Kept(WithBot(w, bot), inverse, LeavingKeys(w.queue), k) <==> Leaving(w.queue, k) || SeenAtStart(read, inverse, user, k)
    {
      CoveredAtStart(read, inverse, user, bot, k);
      assert Leaving(w.queue, k) ==> k in LeavingKeys(w.queue);
    }
  }

  // ------------------------------------------------------------------
  // Whole runs, from before the read
  // ------------------------------------------------------------------

  /** The monitor runs, the start reads its snapshot, the monitor runs on, the bot is added, and the run goes on with it.
      If what was opened in between was seen, every position is tracked or ignored whenever a poll is dispatched, and
      before that every position the trader is not about to close. */
  lemma RunCoveredFromRead(w: Watch, before: seq<WatchEvent>, between: seq<WatchEvent>, inverse: bool,
                           user: map<string, BotPosition>, bot: BotState, after: seq<Event>)
    requires WatchStarts(w) && KeyedByHash(user)
    requires WatchRuns(w, before) && WatchRuns(Watched(w, before), between)
    requires Started(Watched(w, before).snapshot, inverse, user, bot)
    requires AllSeen(Watched(Watched(w, before), between), Watched(w, before).snapshot, inverse, user)
    requires var s := WithBot(Watched(Watched(w, before), between), bot); Runs(s, inverse, after) && AllClean(s, inverse, after)
    ensures var end := Final(WithBot(Watched(Watched(w, before), between), bot), inverse, after);
      && (forall k :: k in end.view ==> Covered(end.bot, inverse, k) || Leaving(end.queue, k))
      && (end.queue == [] ==> forall p :: p in end.snapshot ==> Covered(end.bot, inverse, KeyOf(p)))
  {
    OnePerSymbolBook(w.snapshot);
    assert WatchInStep(w);
    WatchRun(w, before);
    var atRead := Watched(w, before);
    assert OnePerSymbol(atRead.snapshot);
    WatchRun(atRead, between);
    var added := Watched(atRead, between);
    hide WatchInStep, InStep, AllSeen, Started, KeyedByHash, Runs, AllClean, Final, OnePerSymbol, WatchRuns, Watched;
    AddKeepsIffSeen(added, atRead.snapshot, inverse, user, bot);
    RunKeepsInv(WithBot(added, bot), inverse, LeavingKeys(added.queue), after);
    InvCovers(Final(WithBot(added, bot), inverse, after), inverse, LeavingKeys(added.queue));
  }

  lemma InvCovers(s: System, inverse: bool, late: set<Key>)
    requires Inv(s, inverse, late)
    ensures forall k :: k in s.view ==> Covered(s.bot, inverse, k) || Leaving(s.queue, k)
    ensures s.queue == [] ==> forall p :: p in s.snapshot ==> Covered(s.bot, inverse, KeyOf(p))
  {
    OnePerSymbolBook(s.snapshot);
    hide PosHash;
  }

  /** None of the updates dispatched opens a position. */
  predicate OpensNothing(w: Watch, events: seq<WatchEvent>)
    requires WatchRuns(w, events)
    decreases events
  {
    events == []
    || ((events[0].ToOthers? ==> w.queue[0].kind != OpenLS) && OpensNothing(WatchEffect(w, events[0]), events[1..]))
  }

  predicate NothingNew(w: Watch, read: seq<TraderPosition>) {
    forall k :: k in w.view ==> HasKey(read, k) || Leaving(w.queue, k)
  }

  /** At the moment of the read, a position that is not in it is about to be closed. */
  lemma NothingNewAtRead(w: Watch)
    requires WatchInStep(w)
    ensures NothingNew(w, w.snapshot)
  {
    OnePerSymbolBook(w.snapshot);
    BookEntries(w.snapshot);
    assert Replay(w.view, w.queue) == Book(w.snapshot);
    hide InStep, OnePerSymbol;
    forall k | k in w.view && k !in Replay(w.view, w.queue) ensures Leaving(w.queue, k) {
      GoneWasClosed(w.view, w.queue, k);
    }
  }

  lemma {:induction false} GoneWasClosed(view: map<Key, real>, queue: seq<Update>, k: Key)
    requires k in view && k !in Replay(view, queue)
    ensures Leaving(queue, k)
    decreases queue
  {
    if queue != [] && !(queue[0].kind == CloseLS && KeyOfUpdate(queue[0]) == k) {
      GoneWasClosed(Apply(view, queue[0]), queue[1..], k);
      StillLeaving(queue, k);
    }
  }

  lemma {:induction false} NothingNewStays(w: Watch, events: seq<WatchEvent>, read: seq<TraderPosition>)
    requires WatchInStep(w) && WatchRuns(w, events) && OpensNothing(w, events) && NothingNew(w, read)
    ensures NothingNew(Watched(w, events), read)
    decreases events
  {
    if events != [] {
      WatchStep(w, events[0]);
      if events[0].ToOthers? {
        forall k | k in w.view && KeyOfUpdate(w.queue[0]) != k ensures Leaving(w.queue[1..], k) <==> Leaving(w.queue, k) {
          StillLeaving(w.queue, k);
        }
      }
      NothingNewStays(WatchEffect(w, events[0]), events[1..], read);
    }
  }

  /** If no OPEN was dispatched between the read and the add, everything was seen. */
  lemma NoOpenAllSeen(w: Watch, between: seq<WatchEvent>, inverse: bool, user: map<string, BotPosition>)
    requires WatchInStep(w) && WatchRuns(w, between) && OpensNothing(w, between)
    ensures AllSeen(Watched(w, between), w.snapshot, inverse, user)
  {
    NothingNewAtRead(w);
    NothingNewStays(w, between, w.snapshot);
    hide WatchInStep, WatchRuns, OpensNothing, Watched, HasKey, Leaving;
  }

  const HELD := TraderPosition("S", Buy, 1.0, 0.0, 1.0, 0.0, 1.0)

  /** The trader opens between the read and the add: the bot, which was not there, neither tracks nor ignores the position. */
  lemma StartCanMiss() returns (w: Watch, between: seq<WatchEvent>, bot: BotState)
    ensures WatchStarts(w) && WatchRuns(w, between) && Started(w.snapshot, false, map[], bot)
    ensures var s := WithBot(Watched(w, between), bot);
      && Runs(s, false, []) && AllClean(s, false, [])
      && s.queue == [] && s.snapshot == [HELD] && !Covered(s.bot, false, KeyOf(HELD))
  {
    w := Watch([], [], map[]);
    bot := BotState(map[], [], multiset{}, multiset{}, 1.0);
    between := [NewPoll(Some([HELD])), ToOthers];
    assert Compare([], [HELD]) == [OpenUpdate(HELD)];
    var polled := WatchEffect(w, between[0]);
    assert polled == Watch([HELD], [OpenUpdate(HELD)], map[]);
    var sent := WatchEffect(polled, ToOthers);
    assert sent.queue == [];
    assert between[1..] == [ToOthers] && between[1..][1..] == [];
    assert Watched(polled, [ToOthers]) == sent;
    assert Joined([], false, map[]) == map[];
    assert forall s :: !Unjoined([], false, map[], s) && !UserOnly([], map[], {}, s);
  }
}
