/**
 A run in which a late goroutine does uncover a position, so the condition on opens in Coverage is needed:
 the trader closes; before the removal runs, a manual check drops the position and its ignore is applied;
 the trader reopens, the bot refuses; the trader closes, which un-ignores; the trader reopens, the bot opens;
 and only now the first removal runs.
 */
module CoverageGap {
  import opened Types
  import opened Decimals
  import opened Orders
  import opened TraderDiff
  import opened Decisions
  import opened BotRuntime
  import opened BotStartup
  import opened Coverage

  const HELD := TraderPosition("S", Buy, 1.0, 0.0, 1.0, 0.0, 1.0)
  const TRACKED := BotPosition("S", Buy, 1.0, 1.0, 1.0, 0.0, 0.0)
  const HASH := PosHash("S", Buy)
  const KEY: Key := ("S", Buy)
  const SYM := SymbolInfo(1.0, 1.0, 1.0, 1.0, 1.0)
  const CONFIG := BotConfig(1.0, 100.0, -1.0, -1.0, -1.0, -1.0, -1.0, -1.0, -1.0, -1.0, -1, [], [], false, false, false, false, false)
  const OPENS := OpenAnswer(Some(CONFIG), true, 1.0, 0.0, false, 1.0, 1.0, SYM, true, [Status200], Some(TRACKED))
  const REFUSES := OPENS.(config := None)
  const CLOSES := CloseAnswer(Some(CONFIG), SYM)

  function BotWith(positions: map<string, BotPosition>, ignored: seq<string>, deletes: multiset<string>, ignores: multiset<string>): BotState {
    BotState(positions, ignored, deletes, ignores, 1.0)
  }

  /** With the trader holding its one position, and every update dispatched. */
  function Holding(bot: BotState): System { System([HELD], [], map[KEY := 1.0], bot) }

  function Flat(bot: BotState): System { System([], [], map[], bot) }

  const REFUSED := BotWith(map[], ["S"], multiset{HASH}, multiset{})
  const REOPENED := BotWith(map[HASH := TRACKED], [], multiset{HASH}, multiset{})
  const UNCOVERED := Holding(BotWith(map[], [], multiset{}, multiset{}))

  lemma SymLegal()
    ensures SYM.Legal() && BulkQtyList(1.0, SYM) == [1.0]
  {
    IsMultiple(1, 1.0);
    DivExact(1, 1.0);
    TimesAlgebra(1, 0, 1.0);
    hide Times, Div, FloorDiv;
  }

  lemma Diffs()
    ensures OnePerSymbol([HELD]) && OnePerSymbol([])
    ensures Compare([HELD], []) == [CloseUpdate(HELD)] && Compare([], [HELD]) == [OpenUpdate(HELD)]
  {
    assert [HELD][1..] == [];
    assert Compare([], []) == [];
    assert HeadUpdates(HELD, []) == [CloseUpdate(HELD)];
    assert Opens([HELD]) == [OpenUpdate(HELD)];
  }

  lemma Cons(s: System, e: Event, rest: seq<Event>)
    requires Enabled(s, false, e) && Runs(Effect(s, false, e), false, rest)
    ensures Runs(s, false, [e] + rest)
    ensures Final(s, false, [e] + rest) == Final(Effect(s, false, e), false, rest)
  {
    assert ([e] + rest)[1..] == rest;
    hide Enabled, Effect;
  }

  /** The trader closes and the bot handles it; then the trader reopens and the bot handles that. */
  lemma CloseThen(bot: BotState, rest: seq<Event>)
    requires Runs(Flat(DispatchClose(bot, CloseUpdate(HELD), CLOSES)), false, rest)
    ensures Runs(Holding(bot), false, [Poll(Some([])), DoClose(CLOSES)] + rest)
    ensures Final(Holding(bot), false, [Poll(Some([])), DoClose(CLOSES)] + rest)
      == Final(Flat(DispatchClose(bot, CloseUpdate(HELD), CLOSES)), false, rest)
  {
    Diffs();
    var polled := System([], [CloseUpdate(HELD)], map[KEY := 1.0], bot);
    assert Effect(Holding(bot), false, Poll(Some([]))) == polled;
    assert Apply(map[KEY := 1.0], CloseUpdate(HELD)) == map[];
    assert polled.queue[1..] == [];
    assert Effect(polled, false, DoClose(CLOSES)) == Flat(DispatchClose(bot, CloseUpdate(HELD), CLOSES));
    hide DispatchClose, Effect;
    Cons(polled, DoClose(CLOSES), rest);
    Cons(Holding(bot), Poll(Some([])), [DoClose(CLOSES)] + rest);
    assert [Poll(Some([]))] + ([DoClose(CLOSES)] + rest) == [Poll(Some([])), DoClose(CLOSES)] + rest;
  }

  lemma OpenThen(bot: BotState, a: OpenAnswer, rest: seq<Event>)
    requires a.Sane("S") && SameMode(a.config, false)
    requires Runs(Holding(DispatchOpen(bot, OpenUpdate(HELD), Some(a))), false, rest)
    ensures Runs(Flat(bot), false, [Poll(Some([HELD])), DoOpen(Some(a))] + rest)
    ensures Final(Flat(bot), false, [Poll(Some([HELD])), DoOpen(Some(a))] + rest)
      == Final(Holding(DispatchOpen(bot, OpenUpdate(HELD), Some(a))), false, rest)
  {
    Diffs();
    var polled := System([HELD], [OpenUpdate(HELD)], map[], bot);
    hide Multiple;
    assert Effect(Flat(bot), false, Poll(Some([HELD]))) == polled;
    assert Apply(map[], OpenUpdate(HELD)) == map[KEY := 1.0];
    assert polled.queue[1..] == [];
    assert Enabled(polled, false, DoOpen(Some(a)));
    hide DispatchOpen;
    assert Effect(polled, false, DoOpen(Some(a))) == Holding(DispatchOpen(bot, OpenUpdate(HELD), Some(a)));
    hide Effect;
    Cons(polled, DoOpen(Some(a)), rest);
    Cons(Flat(bot), Poll(Some([HELD])), [DoOpen(Some(a))] + rest);
    assert [Poll(Some([HELD]))] + ([DoOpen(Some(a))] + rest) == [Poll(Some([HELD])), DoOpen(Some(a))] + rest;
  }

  lemma OpensAndCloses()
    ensures OPENS.Sane("S") && REFUSES.Sane("S")
    ensures DispatchClose(BotWith(map[HASH := TRACKED], [], multiset{}, multiset{}), CloseUpdate(HELD), CLOSES)
      == BotWith(map[HASH := TRACKED], [], multiset{HASH}, multiset{})
    ensures DispatchOpen(BotWith(map[], ["S"], multiset{HASH}, multiset{}), OpenUpdate(HELD), Some(REFUSES))
      == BotWith(map[], ["S"], multiset{HASH}, multiset{})
    ensures DispatchClose(BotWith(map[], ["S"], multiset{HASH}, multiset{}), CloseUpdate(HELD), CLOSES)
      == BotWith(map[], [], multiset{HASH}, multiset{})
  {
    SymLegal();
    hide Multiple, BulkQtyList;
    assert ["S"][1..] == [];
  }

  lemma Quotients()
    ensures Div(100.0, 100.0) == 1.0 && Div(1.0, 1.0) == 1.0
  {
    DivExact(1, 100.0);
    DivExact(1, 1.0);
    assert Times(1, 100.0) == 100.0 && Times(1, 1.0) == 1.0;
    hide Div, Times;
  }

  lemma QtyIsOne()
    ensures OPENS.market > 0.0 && SymbolQty(CONFIG, 1.0, 1.0, SYM) == 1.0
  {
    Quotients();
    hide Div;
    assert Div(CONFIG.initialOpenPercent, 100.0) == 1.0;
    assert OpenMargin(CONFIG, 1.0) == 1.0;
    assert SizingLeverage(CONFIG, SYM) == 1.0;
  }

  lemma NotRefused()
    ensures OPENS.market > 0.0 && OpenRefusal("S", false, 0, 1.0, CONFIG, OPENS) == None
  {
    QtyIsOne();
    Quotients();
    hide SymbolQty, Div;
  }

  lemma OpenSucceeds()
    ensures OPENS.Sane("S")
    ensures DispatchOpen(BotWith(map[], [], multiset{HASH}, multiset{}), OpenUpdate(HELD), Some(OPENS))
      == BotWith(map[HASH := TRACKED], [], multiset{HASH}, multiset{})
  {
    hide Multiple, BulkQtyList, SymbolQty, Div, GetTPSL, OpenRefusal;
    SymLegal();
    QtyIsOne();
    NotRefused();
    var bot := BotWith(map[], [], multiset{HASH}, multiset{});
    var orders := OpenOrders(bot, "S", Buy, CONFIG, OPENS);
    assert OPENS.statuses[0] == Status200;
    assert |orders| == 1;
    assert AnyFilled(orders, OPENS.statuses);
    hide OpenOrders, AnyFilled;
    assert OpenPosition(bot, OpenUpdate(HELD), OPENS).submitted;
  }

  const DROPPED := BotWith(map[], [], multiset{HASH}, multiset{"S"})

  /** A manual check that no longer finds the position at the exchange, while its removal is still to run. */
  lemma CheckDrops()
    ensures Effect(Flat(REOPENED), false, Manual(Some(map[]))) == Flat(DROPPED)
  {
    assert Missing(REOPENED, map[]) == {HASH};
    SymbolsAtAny(REOPENED.positions, {HASH}, HASH);
    assert {HASH} - {HASH} == {};
  }

  lemma CheckAndIgnore(rest: seq<Event>)
    requires Runs(Flat(REFUSED), false, rest)
    ensures Runs(Flat(REOPENED), false, [Manual(Some(map[])), IgnoreDone("S")] + rest)
    ensures Final(Flat(REOPENED), false, [Manual(Some(map[])), IgnoreDone("S")] + rest) == Final(Flat(REFUSED), false, rest)
  {
    CheckDrops();
    assert [] + ["S"] == ["S"];
    assert Effect(Flat(DROPPED), false, IgnoreDone("S")) == Flat(REFUSED);
    hide Effect, Runs, Final;
    Cons(Flat(DROPPED), IgnoreDone("S"), rest);
    Cons(Flat(REOPENED), Manual(Some(map[])), [IgnoreDone("S")] + rest);
    assert [Manual(Some(map[]))] + ([IgnoreDone("S")] + rest) == [Manual(Some(map[])), IgnoreDone("S")] + rest;
  }

  lemma StartState()
    ensures StartsRun(Holding(BotWith(map[HASH := TRACKED], [], multiset{}, multiset{})), false, map[HASH := TRACKED])
  {
    var user := map[HASH := TRACKED];
    assert [HELD][1..] == [];
    assert Book([]) == map[];
    assert OurHash([HELD][0], false) == HASH;
    assert TraderHolds([HELD], false, HASH) by { assert OurHash([HELD][0], false) == HASH; }
    assert forall h :: h in user ==> h == HASH;
    assert Joined([HELD], false, user) == user;
    assert forall s :: !Unjoined([HELD], false, user, s);
    assert TraderHasSymbol([HELD], "S") by { assert [HELD][0].symbol == "S"; }
    assert forall s :: !UserOnly([HELD], user, user.Keys, s);
  }

  lemma RemovalUncovers()
    ensures Enabled(Holding(REOPENED), false, DeleteDone(HASH))
    ensures Effect(Holding(REOPENED), false, DeleteDone(HASH)) == UNCOVERED
  {
    assert map[HASH := TRACKED] - {HASH} == map[];
  }

  /** The bot opens again, and then the removal of the first close runs. */
  lemma LateRemoval() returns (events: seq<Event>)
    ensures Runs(Flat(BotWith(map[], [], multiset{HASH}, multiset{})), false, events)
    ensures Final(Flat(BotWith(map[], [], multiset{HASH}, multiset{})), false, events) == UNCOVERED
  {
    assert Runs(UNCOVERED, false, []) && Final(UNCOVERED, false, []) == UNCOVERED;
    hide DispatchOpen, Effect, Enabled, Runs, Final, OpenAnswer.Sane;
    OpenSucceeds();
    RemovalUncovers();
    Cons(Holding(REOPENED), DeleteDone(HASH), []);
    var late := [DeleteDone(HASH)] + [];
    OpenThen(BotWith(map[], [], multiset{HASH}, multiset{}), OPENS, late);
    events := [Poll(Some([HELD])), DoOpen(Some(OPENS))] + late;
  }

  /** The trader reopens and the bot refuses, the trader closes and the bot un-ignores, then LateRemoval. */
  lemma RefuseThenReopen() returns (events: seq<Event>)
    ensures Runs(Flat(REFUSED), false, events) && Final(Flat(REFUSED), false, events) == UNCOVERED
  {
    OpensAndCloses();
    hide DispatchOpen, DispatchClose, Runs, Final, OpenAnswer.Sane;
    var last := LateRemoval();
    CloseThen(REFUSED, last);
    var closed := [Poll(Some([])), DoClose(CLOSES)] + last;
    OpenThen(REFUSED, REFUSES, closed);
    events := [Poll(Some([HELD])), DoOpen(Some(REFUSES))] + closed;
  }

  lemma NotCovered()
    ensures HELD in UNCOVERED.snapshot && UNCOVERED.queue == []
    ensures !Covered(UNCOVERED.bot, false, KeyOf(HELD))
  {
  }

  /** There is a run from a regular start after which the trader holds a position the bot neither tracks nor ignores. */
  lemma CoverageCanFail() returns (s: System, user: map<string, BotPosition>, events: seq<Event>)
    ensures StartsRun(s, false, user) && Runs(s, false, events)
    ensures Final(s, false, events).queue == [] && HELD in Final(s, false, events).snapshot
    ensures !Covered(Final(s, false, events).bot, false, KeyOf(HELD))
    ensures !AllClean(s, false, events)
  {
    s, user := Holding(BotWith(map[HASH := TRACKED], [], multiset{}, multiset{})), map[HASH := TRACKED];
    StartState();
    OpensAndCloses();
    NotCovered();
    hide DispatchOpen, DispatchClose, Runs, Final, AllClean, StartsRun, Covered, OpenAnswer.Sane;
    var second := RefuseThenReopen();
    CheckAndIgnore(second);
    var first := [Manual(Some(map[])), IgnoreDone("S")] + second;
    CloseThen(BotWith(map[HASH := TRACKED], [], multiset{}, multiset{}), first);
    events := [Poll(Some([])), DoClose(CLOSES)] + first;
    if AllClean(s, false, events) {
      RunCovered(s, false, user, events);
    }
  }
}
