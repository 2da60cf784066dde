/**
 A bot over a whole run: polls of the trader, the dispatch of their updates one by one, manual checks,
 and the goroutines of earlier steps finishing at any later moment. Every answer of the exchange and of
 the settings table is part of the event.
 */
module Coverage {
  import opened Decimals
  import opened Types
  import opened TraderDiff
  import opened Orders
  import opened Decisions
  import opened BotRuntime
  import opened BotStartup

  /** `view` is the trader's book as the updates dispatched so far describe it; `queue` the updates still to go. */
  datatype System = System(snapshot: seq<TraderPosition>, queue: seq<Update>, view: map<Key, real>, bot: BotState)

  datatype Event =
    | Poll(answer: Option<seq<TraderPosition>>)
    | DoOpen(open: Option<OpenAnswer>)
    | DoClose(close: CloseAnswer)
    | DoChange(change: Option<ChangeAnswer>)
    | Panics
    | DeleteDone(key: string)
    | IgnoreDone(symbol: string)
    | Manual(api: Option<map<string, BotPosition>>)

  predicate Head(s: System, kind: UpdateKind) { s.queue != [] && s.queue[0].kind == kind }

  predicate SameMode(config: Option<BotConfig>, inverse: bool) { config.Some? ==> config.value.modeInverse == inverse }

  /** A poll waits until the updates of the last one are dispatched; a goroutine must have been started. */
  predicate Enabled(s: System, inverse: bool, e: Event) {
    match e
    case Poll(answer) => s.queue == [] && (answer.Some? ==> OnePerSymbol(answer.value))
    case DoOpen(a) => Head(s, OpenLS) && (a.Some? ==> a.value.Sane(s.queue[0].symbol) && SameMode(a.value.config, inverse))
    case DoClose(a) => Head(s, CloseLS) && SameMode(a.config, inverse)
    case DoChange(a) => Head(s, ChangeLS) && (a.Some? ==> a.value.Sane() && SameMode(a.value.config, inverse))
    case Panics => s.queue != []
    case DeleteDone(key) => key in s.bot.pendingDeletes
    case IgnoreDone(symbol) => symbol in s.bot.pendingIgnores
    case Manual(_) => true
  }

  function Dispatched(s: System, bot: BotState): System
    requires s.queue != []
  {
    s.(queue := s.queue[1..], view := Apply(s.view, s.queue[0]), bot := bot)
  }

  ghost function Effect(s: System, inverse: bool, e: Event): System
    requires Enabled(s, inverse, e)
  {
    match e
    case Poll(None) => s
    case Poll(Some(nPs)) => s.(snapshot := nPs, queue := Compare(s.snapshot, nPs))
    case DoOpen(a) => Dispatched(s, DispatchOpen(s.bot, s.queue[0], a))
    case DoClose(a) => Dispatched(s, DispatchClose(s.bot, s.queue[0], a))
    case DoChange(None) => Dispatched(s, s.bot)
    case DoChange(Some(a)) => Dispatched(s, DispatchChange(s.bot, s.queue[0], a))
    case Panics => Dispatched(s, s.bot)
    case DeleteDone(key) => s.(bot := DeleteFires(s.bot, key))
    case IgnoreDone(symbol) => s.(bot := IgnoreFires(s.bot, symbol))
    case Manual(api) => s.(bot := ManualCheck(s.bot, api))
  }

  // ------------------------------------------------------------------
  // The property
  // ------------------------------------------------------------------

  predicate Ignored(bot: BotState, symbol: string) { symbol in bot.ignoreList || symbol in bot.pendingIgnores }

  predicate Covered(bot: BotState, inverse: bool, k: Key) {
    PosHash(k.0, EffectiveSide(k.1, inverse)) in bot.positions || Ignored(bot, k.0)
  }

  predicate AllCovered(s: System, inverse: bool) {
    forall k :: k in s.view ==> Covered(s.bot, inverse, k)
  }

  // ------------------------------------------------------------------
  // Why it holds
  // ------------------------------------------------------------------

  /** Covered now, and by nothing a goroutine still running could take away. */
  predicate Secure(bot: BotState, inverse: bool, k: Key) {
    var hash := PosHash(k.0, EffectiveSide(k.1, inverse));
    Ignored(bot, k.0)
    || (hash in bot.positions && hash !in bot.pendingDeletes && bot.positions[hash].symbol == k.0)
  }

  /** Tracked positions carry the symbol of their key, except the zero positions a late write leaves. */
  predicate WellKept(positions: map<string, BotPosition>) {
    forall h :: h in positions ==> KeptAt(h, positions[h])
  }

  predicate KeptAt(hash: string, pos: BotPosition) {
    (pos.symbol == "" && pos.side == Unset)
    || (pos.side != Unset && (hash == PosHash(pos.symbol, Buy) || hash == PosHash(pos.symbol, Sell)))
  }

  predicate OneSymbol(book: map<Key, real>) {
    && (forall k, l :: k in book && l in book && k.0 == l.0 ==> k == l)
    && forall k :: k in book ==> IsTradeSide(k.1)
  }

  /** The updates that bring the book in view to the snapshot are still to go. */
  predicate InStep(snapshot: seq<TraderPosition>, queue: seq<Update>, view: map<Key, real>) {
    && OnePerSymbol(snapshot)
    && OneSymbol(view) && OpensLast(queue)
    && AllApply(view, queue) && Replay(view, queue) == Book(snapshot)
  }

  /** The CLOSE of the key is still to go. */
  predicate Leaving(queue: seq<Update>, k: Key) {
    exists i :: 0 <= i < |queue| && queue[i].kind == CloseLS && KeyOfUpdate(queue[i]) == k
  }

  /** `late` are keys the trader was about to close when the bot was added: those the bot need never have known. */
  predicate Kept(s: System, inverse: bool, late: set<Key>, k: Key) {
    Secure(s.bot, inverse, k) || (k in late && Leaving(s.queue, k))
  }

  predicate Inv(s: System, inverse: bool, late: set<Key>) {
    && InStep(s.snapshot, s.queue, s.view)
    && WellKept(s.bot.positions)
    && forall k :: k in s.view ==> Kept(s, inverse, late, k)
  }

  /** An OPEN goes through only where no close of the same key is still to remove it, unless the symbol is ignored
      anyway; and its handler panics only where the symbol is ignored, or the key tracked with no close to remove it. */
  predicate CleanOpen(s: System, inverse: bool, e: Event)
    requires Enabled(s, inverse, e)
  {
    && ((e.DoOpen? && e.open.Some? && OpenPosition(s.bot, s.queue[0], e.open.value).submitted) ==>
          PosHash(s.queue[0].symbol, EffectiveSide(s.queue[0].side, inverse)) !in s.bot.pendingDeletes
          || Ignored(s.bot, s.queue[0].symbol))
    && (e.Panics? && s.queue[0].kind == OpenLS ==> Secure(s.bot, inverse, KeyOfUpdate(s.queue[0])))
  }

  lemma OnePerSymbolBook(ps: seq<TraderPosition>)
    requires OnePerSymbol(ps)
    ensures UniqueKeys(ps) && OneSymbol(Book(ps))
    ensures forall p :: p in ps ==> KeyOf(p) in Book(ps)
  {
    BookEntries(ps);
    forall k | k in Book(ps) ensures exists i :: 0 <= i < |ps| && KeyOf(ps[i]) == k {
      assert HasKey(ps, k);
    }
    forall k, l | k in Book(ps) && l in Book(ps) && k.0 == l.0 ensures k == l {
      var i :| 0 <= i < |ps| && KeyOf(ps[i]) == k;
      var j :| 0 <= j < |ps| && KeyOf(ps[j]) == l;
      assert !(i < j) && !(j < i);
    }
    forall k | k in Book(ps) ensures IsTradeSide(k.1) {
      var i :| 0 <= i < |ps| && KeyOf(ps[i]) == k;
      assert ps[i] in ps;
    }
  }

  /** Once only OPENs are left, every key in view stays to the end. */
  lemma {:induction false} OpensKeep(view: map<Key, real>, queue: seq<Update>)
    requires forall u :: u in queue ==> u.kind == OpenLS
    ensures view.Keys <= Replay(view, queue).Keys
    ensures queue != [] ==> KeyOfUpdate(queue[0]) in Replay(view, queue)
    decreases queue
  {
    if queue != [] {
      OpensKeep(Apply(view, queue[0]), queue[1..]);
    }
  }

  /** The trader's side of the invariant survives a dispatch, and a poll. */
  lemma ViewStep(snapshot: seq<TraderPosition>, queue: seq<Update>, view: map<Key, real>)
    requires InStep(snapshot, queue, view) && queue != []
    ensures InStep(snapshot, queue[1..], Apply(view, queue[0]))
    ensures IsTradeSide(queue[0].side)
    ensures queue[0].kind == OpenLS ==> KeyOfUpdate(queue[0]) !in view && !Leaving(queue, KeyOfUpdate(queue[0]))
    ensures queue[0].kind != OpenLS ==> KeyOfUpdate(queue[0]) in view
  {
    var u := queue[0];
    assert forall j :: 0 <= j < |queue[1..]| ==> queue[1..][j] == queue[j + 1];
    if u.kind == OpenLS {
      OnePerSymbolBook(snapshot);
      assert forall v :: v in queue ==> v.kind == OpenLS;
      OpensKeep(view, queue);
    } else {
      assert KeyOfUpdate(u) in view;
    }
  }

  lemma PollStep(snapshot: seq<TraderPosition>, view: map<Key, real>, nPs: seq<TraderPosition>)
    requires InStep(snapshot, [], view) && OnePerSymbol(nPs)
    ensures InStep(nPs, Compare(snapshot, nPs), view)
  {
    OnePerSymbolBook(snapshot);
    OnePerSymbolBook(nPs);
    DiffIsPatch(snapshot, nPs);
    CompareShape(snapshot, nPs);
  }

  /** A key that is leaving stays so until its CLOSE is dispatched. */
  lemma StillLeaving(queue: seq<Update>, k: Key)
    requires queue != [] && (queue[0].kind == CloseLS ==> KeyOfUpdate(queue[0]) != k)
    ensures Leaving(queue[1..], k) <==> Leaving(queue, k)
  {
    if Leaving(queue, k) {
      var i :| 0 <= i < |queue| && queue[i].kind == CloseLS && KeyOfUpdate(queue[i]) == k;
      assert queue[1..][i - 1] == queue[i];
    }
    if Leaving(queue[1..], k) {
      var i :| 0 <= i < |queue[1..]| && queue[1..][i].kind == CloseLS && KeyOfUpdate(queue[1..][i]) == k;
      assert queue[i + 1] == queue[1..][i];
    }
  }

  lemma KeysDiffer(k: Key, l: Key, inverse: bool)
    requires IsTradeSide(k.1) && IsTradeSide(l.1)
    ensures PosHash(k.0, EffectiveSide(k.1, inverse)) == PosHash(l.0, EffectiveSide(l.1, inverse)) <==> k == l
  {
    EffectiveSideInjective(k.1, l.1, inverse);
    PosHashInjective(k.0, EffectiveSide(k.1, inverse), l.0, EffectiveSide(l.1, inverse));
  }

  /** The hash a close will remove belongs to no other held symbol. */
  lemma ClosedHash(hash: string, pos: BotPosition, k: Key, l: Key, inverse: bool)
    requires IsTradeSide(k.1) && IsTradeSide(l.1) && k.0 != l.0
    requires hash == PosHash(k.0, EffectiveSide(k.1, inverse)) && KeptAt(hash, pos)
    ensures PosHash(pos.symbol, pos.side) != PosHash(l.0, EffectiveSide(l.1, inverse))
  {
    EffectiveSideInjective(k.1, l.1, inverse);
    var lHash := PosHash(l.0, EffectiveSide(l.1, inverse));
    if pos.side == Unset {
      assert |lHash| > 0;
    } else {
      PosHashInjective(pos.symbol, Buy, k.0, EffectiveSide(k.1, inverse));
      PosHashInjective(pos.symbol, Sell, k.0, EffectiveSide(k.1, inverse));
      PosHashInjective(pos.symbol, pos.side, l.0, EffectiveSide(l.1, inverse));
    }
  }

  lemma CloseKeepsOthers(bot: BotState, u: Update, inverse: bool, a: CloseAnswer, k: Key)
    requires WellKept(bot.positions) && SameMode(a.config, inverse) && Secure(bot, inverse, k)
    requires IsTradeSide(u.side) && IsTradeSide(k.1) && k.0 != u.symbol
    ensures Secure(DispatchClose(bot, u, a), inverse, k)
  {
    if u.symbol in bot.ignoreList {
      DropIgnoredMembers(bot.ignoreList, u.symbol);
    } else if DecideClose(bot, u, a).Submitted? {
      hide DecideClose;
      var hash := PosHash(u.symbol, EffectiveSide(u.side, inverse));
      CloseHasPosition(bot, u, a);
      ClosedHash(hash, bot.positions[hash], KeyOfUpdate(u), k, inverse);
    }
  }

  lemma CloseHasPosition(bot: BotState, u: Update, a: CloseAnswer)
    requires DecideClose(bot, u, a).Submitted?
    ensures a.config.Some? && PosHash(u.symbol, EffectiveSide(u.side, a.config.value.modeInverse)) in bot.positions
  {
  }

  /** The three ways the dispatch of an OPEN ends. */
  lemma OpenShape(bot: BotState, u: Update, inverse: bool, a: Option<OpenAnswer>)
    requires a.Some? ==> a.value.Sane(u.symbol) && SameMode(a.value.config, inverse)
    ensures var hash := PosHash(u.symbol, EffectiveSide(u.side, inverse));
      var next := DispatchOpen(bot, u, a);
      if a.None? then next == bot.(pendingIgnores := bot.pendingIgnores + multiset{u.symbol})
      else if OpenPosition(bot, u, a.value).submitted then
        a.value.position.Some? && hash !in bot.positions && next == bot.(positions := bot.positions[hash := a.value.position.value])
      else next == bot.(ignoreList := AddIgnored(bot.ignoreList, u.symbol))
  {
    hide OpenOrders, Multiple, SymbolQty, Div, BulkQtyList, GetTPSL;
  }

  lemma OpenKeepsOthers(bot: BotState, u: Update, inverse: bool, a: Option<OpenAnswer>, k: Key)
    requires a.Some? ==> a.value.Sane(u.symbol) && SameMode(a.value.config, inverse)
    requires IsTradeSide(u.side) && IsTradeSide(k.1) && k != KeyOfUpdate(u) && Secure(bot, inverse, k)
    ensures Secure(DispatchOpen(bot, u, a), inverse, k)
  {
    OpenShape(bot, u, inverse, a);
    KeysDiffer(k, KeyOfUpdate(u), inverse);
    hide DispatchOpen, OpenPosition, Multiple, PosHash, EffectiveSide;
  }

  /** What an OPEN leaves its own key with: secure exactly when the open was clean. */
  lemma OpenSecuresOwn(s: System, inverse: bool, a: Option<OpenAnswer>)
    requires WellKept(s.bot.positions) && Enabled(s, inverse, DoOpen(a)) && IsTradeSide(s.queue[0].side)
    ensures Secure(DispatchOpen(s.bot, s.queue[0], a), inverse, KeyOfUpdate(s.queue[0])) <==> CleanOpen(s, inverse, DoOpen(a))
    ensures WellKept(DispatchOpen(s.bot, s.queue[0], a).positions)
  {
    var u := s.queue[0];
    OpenShape(s.bot, u, inverse, a);
    EffectiveSideInjective(u.side, u.side, inverse);
    hide DispatchOpen, OpenPosition, Multiple, PosHash;
  }

  /** The two ways the dispatch of a CHANGE ends. */
  lemma ChangeShape(bot: BotState, u: Update, inverse: bool, a: ChangeAnswer)
    requires a.Sane() && SameMode(a.config, inverse)
    ensures var hash := PosHash(u.symbol, EffectiveSide(u.side, inverse));
      DispatchChange(bot, u, a) == bot
      || (u.symbol !in bot.ignoreList && hash in bot.positions && a.position.Some? && DispatchChange(bot, u, a) == WriteBack(bot, hash, a))
  {
    hide DecideChange, Multiple, WriteBack, PosHash;
  }

  lemma ChangeKeeps(bot: BotState, u: Update, inverse: bool, a: ChangeAnswer, k: Key)
    requires a.Sane() && SameMode(a.config, inverse)
    requires IsTradeSide(u.side) && IsTradeSide(k.1) && Secure(bot, inverse, k)
    ensures Secure(DispatchChange(bot, u, a), inverse, k)
  {
    ChangeShape(bot, u, inverse, a);
    KeysDiffer(k, KeyOfUpdate(u), inverse);
    hide DispatchChange, Multiple, PosHash, EffectiveSide;
  }

  lemma ChangeWellKept(bot: BotState, u: Update, a: ChangeAnswer)
    requires a.Sane() && WellKept(bot.positions)
    ensures WellKept(DispatchChange(bot, u, a).positions)
  {
    hide DecideChange, Multiple;
  }

  lemma SymbolsAtHas(positions: map<string, BotPosition>, keys: set<string>, key: string)
    requires keys <= positions.Keys && key in keys
    ensures positions[key].symbol in SymbolsAt(positions, keys)
  {
    SymbolsAtAny(positions, keys, key);
  }

  lemma ManualKeeps(bot: BotState, inverse: bool, api: Option<map<string, BotPosition>>, k: Key)
    requires Secure(bot, inverse, k)
    ensures Secure(ManualCheck(bot, api), inverse, k)
  {
    var hash := PosHash(k.0, EffectiveSide(k.1, inverse));
    if api.Some? && hash in Missing(bot, api.value) {
      SymbolsAtHas(bot.positions, Missing(bot, api.value), hash);
    }
    hide SymbolsAt;
  }

  /** Every step keeps the invariant exactly when it is no unclean open. */
  lemma StepKeepsIffClean(s: System, inverse: bool, late: set<Key>, e: Event)
    requires Inv(s, inverse, late) && Enabled(s, inverse, e)
    ensures Inv(Effect(s, inverse, e), inverse, late) <==> CleanOpen(s, inverse, e)
  {
    hide Inv, OpenPosition, DispatchOpen, DispatchClose, DispatchChange, ManualCheck, Apply, Multiple;
    match e
    case Poll(answer) => SnapshotStep(s, inverse, late, answer);
    case DoOpen(a) => OpenStep(s, inverse, late, a);
    case DoClose(a) => CloseStep(s, inverse, late, a);
    case DoChange(a) => ChangeStep(s, inverse, late, a);
    case Panics => PanicStep(s, inverse, late);
    case DeleteDone(key) => LaterStep(s, inverse, late, e);
    case IgnoreDone(symbol) => LaterStep(s, inverse, late, e);
    case Manual(api) => LaterStep(s, inverse, late, e);
  }

  lemma SnapshotStep(s: System, inverse: bool, late: set<Key>, answer: Option<seq<TraderPosition>>)
    requires Inv(s, inverse, late) && Enabled(s, inverse, Poll(answer))
    ensures Inv(Effect(s, inverse, Poll(answer)), inverse, late)
  {
    hide Secure, InStep, WellKept;
    if answer.Some? {
      PollStep(s.snapshot, s.view, answer.value);
    }
  }

  /** Steps that leave the trader's side alone. */
  lemma LaterStep(s: System, inverse: bool, late: set<Key>, e: Event)
    requires Inv(s, inverse, late) && Enabled(s, inverse, e) && (e.DeleteDone? || e.IgnoreDone? || e.Manual?)
    ensures Inv(Effect(s, inverse, e), inverse, late)
  {
    hide InStep, ManualCheck, PosHash, WellKept, Secure, DeleteFires, IgnoreFires;
    LaterWellKept(s, inverse, e);
    forall k | k in s.view && Secure(s.bot, inverse, k) ensures Secure(Effect(s, inverse, e).bot, inverse, k) {
      match e
      case DeleteDone(key) => DeleteKeeps(s.bot, inverse, key, k);
      case IgnoreDone(symbol) => IgnoreKeeps(s.bot, inverse, symbol, k);
      case Manual(api) => ManualKeeps(s.bot, inverse, api, k);
    }
  }

  lemma LaterWellKept(s: System, inverse: bool, e: Event)
    requires WellKept(s.bot.positions) && Enabled(s, inverse, e) && (e.DeleteDone? || e.IgnoreDone? || e.Manual?)
    ensures WellKept(Effect(s, inverse, e).bot.positions)
  {
    hide PosHash, SymbolsAt;
  }

  lemma DeleteKeeps(bot: BotState, inverse: bool, key: string, k: Key)
    requires Secure(bot, inverse, k) && key in bot.pendingDeletes
    ensures Secure(DeleteFires(bot, key), inverse, k)
  {
    hide PosHash;
  }

  lemma IgnoreKeeps(bot: BotState, inverse: bool, symbol: string, k: Key)
    requires Secure(bot, inverse, k) && symbol in bot.pendingIgnores
    ensures Secure(IgnoreFires(bot, symbol), inverse, k)
  {
    hide PosHash;
  }

  lemma OpenStep(s: System, inverse: bool, late: set<Key>, a: Option<OpenAnswer>)
    requires Inv(s, inverse, late) && Enabled(s, inverse, DoOpen(a))
    ensures Inv(Effect(s, inverse, DoOpen(a)), inverse, late) <==> CleanOpen(s, inverse, DoOpen(a))
  {
    ViewStep(s.snapshot, s.queue, s.view);
    var u, next := s.queue[0], Effect(s, inverse, DoOpen(a));
    StillLeaving(s.queue, KeyOfUpdate(u));
    TradeSides(s);
    hide DispatchOpen, Secure, CleanOpen, InStep, WellKept, PosHash, Multiple, Leaving;
    OpenSecuresOwn(s, inverse, a);
    assert Kept(next, inverse, late, KeyOfUpdate(u)) <==> CleanOpen(s, inverse, DoOpen(a));
    forall k | k in s.view ensures Kept(next, inverse, late, k) {
      StillLeaving(s.queue, k);
      if Secure(s.bot, inverse, k) {
        OpenKeepsOthers(s.bot, u, inverse, a, k);
      }
    }
  }

  /** A handler that panics leaves the bot as it was. */
  lemma PanicStep(s: System, inverse: bool, late: set<Key>)
    requires Inv(s, inverse, late) && s.queue != []
    ensures Inv(Effect(s, inverse, Panics), inverse, late) <==> CleanOpen(s, inverse, Panics)
  {
    ViewStep(s.snapshot, s.queue, s.view);
    var u, next := s.queue[0], Effect(s, inverse, Panics);
    var own := KeyOfUpdate(u);
    if u.kind == OpenLS { StillLeaving(s.queue, own); }
    hide Secure, InStep, WellKept, PosHash, Leaving;
    forall k | k in s.view && (u.kind == CloseLS ==> k != own) ensures Kept(next, inverse, late, k) {
      StillLeaving(s.queue, k);
    }
    assert u.kind == OpenLS ==> (Kept(next, inverse, late, own) <==> CleanOpen(s, inverse, Panics));
  }

  lemma TradeSides(s: System)
    requires InStep(s.snapshot, s.queue, s.view)
    ensures forall k :: k in s.view ==> IsTradeSide(k.1)
    ensures forall k, l :: k in s.view && l in s.view && k.0 == l.0 ==> k == l
  {
  }

  lemma CloseStep(s: System, inverse: bool, late: set<Key>, a: CloseAnswer)
    requires Inv(s, inverse, late) && Enabled(s, inverse, DoClose(a))
    ensures Inv(Effect(s, inverse, DoClose(a)), inverse, late)
  {
    CloseKeepsPositions(s.bot, s.queue[0], a);
    ViewStep(s.snapshot, s.queue, s.view);
    TradeSides(s);
    var u, next := s.queue[0], Effect(s, inverse, DoClose(a));
    hide DispatchClose, Secure, InStep, WellKept, PosHash, Multiple, Leaving;
    forall k | k in s.view && k != KeyOfUpdate(u) ensures Kept(next, inverse, late, k) {
      StillLeaving(s.queue, k);
      if Secure(s.bot, inverse, k) {
        CloseKeepsOthers(s.bot, u, inverse, a, k);
      }
    }
  }

  lemma CloseKeepsPositions(bot: BotState, u: Update, a: CloseAnswer)
    ensures DispatchClose(bot, u, a).positions == bot.positions
  {
    hide DecideClose;
  }

  lemma ChangeStep(s: System, inverse: bool, late: set<Key>, a: Option<ChangeAnswer>)
    requires Inv(s, inverse, late) && Enabled(s, inverse, DoChange(a))
    ensures Inv(Effect(s, inverse, DoChange(a)), inverse, late)
  {
    ViewStep(s.snapshot, s.queue, s.view);
    TradeSides(s);
    var u, next := s.queue[0], Effect(s, inverse, DoChange(a));
    if a.Some? { ChangeWellKept(s.bot, u, a.value); }
    hide DispatchChange, Secure, InStep, WellKept, PosHash, Multiple, Leaving;
    forall k | k in s.view ensures Kept(next, inverse, late, k) {
      StillLeaving(s.queue, k);
      if a.Some? && Secure(s.bot, inverse, k) {
        ChangeKeeps(s.bot, u, inverse, a.value, k);
      }
    }
  }

  // ------------------------------------------------------------------
  // Whole runs
  // ------------------------------------------------------------------

  ghost predicate Runs(s: System, inverse: bool, events: seq<Event>)
    decreases events
  {
    events == [] || (Enabled(s, inverse, events[0]) && Runs(Effect(s, inverse, events[0]), inverse, events[1..]))
  }

  ghost function Final(s: System, inverse: bool, events: seq<Event>): System
    requires Runs(s, inverse, events)
    decreases events
  {
    if events == [] then s else Final(Effect(s, inverse, events[0]), inverse, events[1..])
  }

  ghost predicate AllClean(s: System, inverse: bool, events: seq<Event>)
    requires Runs(s, inverse, events)
    decreases events
  {
    events == [] || (CleanOpen(s, inverse, events[0]) && AllClean(Effect(s, inverse, events[0]), inverse, events[1..]))
  }

  ghost predicate StartsRun(s: System, inverse: bool, user: map<string, BotPosition>) {
    && OnePerSymbol(s.snapshot) && KeyedByHash(user) && s.queue == [] && s.view == Book(s.snapshot)
    && Started(s.snapshot, inverse, user, s.bot)
  }

  lemma StartInv(s: System, inverse: bool, user: map<string, BotPosition>)
    requires StartsRun(s, inverse, user)
    ensures Inv(s, inverse, {})
  {
    OnePerSymbolBook(s.snapshot);
    BookEntries(s.snapshot);
    StartWellKept(s, inverse, user);
    hide WellKept, OneSymbol, OnePerSymbol, Started, Secure;
    forall k | k in s.view ensures Secure(s.bot, inverse, k) {
      assert HasKey(s.snapshot, k);
      var i :| 0 <= i < |s.snapshot| && KeyOf(s.snapshot[i]) == k;
      StartSecure(s, inverse, user, i);
    }
  }

  lemma StartWellKept(s: System, inverse: bool, user: map<string, BotPosition>)
    requires StartsRun(s, inverse, user)
    ensures WellKept(s.bot.positions)
  {
    hide PosHash, OurHash, OnePerSymbol, Book;
  }

  lemma StartSecure(s: System, inverse: bool, user: map<string, BotPosition>, i: nat)
    requires StartsRun(s, inverse, user) && i < |s.snapshot|
    ensures Secure(s.bot, inverse, KeyOf(s.snapshot[i]))
  {
    var t := s.snapshot[i];
    var hash := OurHash(t, inverse);
    assert t in s.snapshot;
    if hash in user {
      EffectiveSideInjective(t.side, t.side, inverse);
      PosHashInjective(user[hash].symbol, user[hash].side, t.symbol, EffectiveSide(t.side, inverse));
      assert TraderHolds(s.snapshot, inverse, hash);
    } else {
      assert Unjoined(s.snapshot, inverse, user, t.symbol);
    }
  }

  lemma {:induction false} RunKeepsInv(s: System, inverse: bool, late: set<Key>, events: seq<Event>)
    requires Inv(s, inverse, late) && Runs(s, inverse, events) && AllClean(s, inverse, events)
    ensures Inv(Final(s, inverse, events), inverse, late)
    decreases events
  {
    if events != [] {
      StepKeepsIffClean(s, inverse, late, events[0]);
      RunKeepsInv(Effect(s, inverse, events[0]), inverse, late, events[1..]);
    }
  }

  /** Whole-run coverage: in every run of clean opens, whatever the answers and however late the goroutines,
      each position the dispatched updates say the trader holds is tracked, ignored, or about to be ignored;
      once a poll is dispatched those are the positions of the snapshot. */
  lemma RunCovered(s: System, inverse: bool, user: map<string, BotPosition>, events: seq<Event>)
    requires StartsRun(s, inverse, user) && Runs(s, inverse, events) && AllClean(s, inverse, events)
    ensures AllCovered(Final(s, inverse, events), inverse)
    ensures Final(s, inverse, events).queue == [] ==>
      forall p :: p in Final(s, inverse, events).snapshot ==> Covered(Final(s, inverse, events).bot, inverse, KeyOf(p))
  {
    StartInv(s, inverse, user);
    RunKeepsInv(s, inverse, {}, events);
    OnePerSymbolBook(Final(s, inverse, events).snapshot);
  }

  /** A panicking OPEN of a key that is neither tracked nor ignored leaves it so. */
  lemma PanicUncovers(s: System, inverse: bool)
    requires s.queue != [] && s.queue[0].kind == OpenLS && !Covered(s.bot, inverse, KeyOfUpdate(s.queue[0]))
    ensures var next := Effect(s, inverse, Panics);
      KeyOfUpdate(s.queue[0]) in next.view && !Covered(next.bot, inverse, KeyOfUpdate(s.queue[0]))
  {
  }

  /** An unclean open is one goroutine away from an uncovered position: the late removal takes away what was just opened. */
  lemma UncleanOpenUncovers(s: System, inverse: bool, late: set<Key>, a: OpenAnswer)
    requires Inv(s, inverse, late) && Enabled(s, inverse, DoOpen(Some(a))) && !CleanOpen(s, inverse, DoOpen(Some(a)))
    ensures var next := Effect(s, inverse, DoOpen(Some(a)));
      var k := KeyOfUpdate(s.queue[0]);
      var hash := PosHash(k.0, EffectiveSide(k.1, inverse));
      Enabled(next, inverse, DeleteDone(hash))
      && k in Effect(next, inverse, DeleteDone(hash)).view
      && !Covered(Effect(next, inverse, DeleteDone(hash)).bot, inverse, k)
  {
    OpenShape(s.bot, s.queue[0], inverse, Some(a));
    hide OpenPosition, DispatchOpen, Multiple, PosHash;
  }

  /** The guard a caller can check before an OPEN, whatever its outcome: no close of the key is still to remove it, or
      the symbol is ignored. */
  predicate FreeOpen(s: System, inverse: bool, e: Event)
    requires Enabled(s, inverse, e)
  {
    && (e.DoOpen? ==>
          PosHash(s.queue[0].symbol, EffectiveSide(s.queue[0].side, inverse)) !in s.bot.pendingDeletes
          || Ignored(s.bot, s.queue[0].symbol))
    && (e.Panics? && s.queue[0].kind == OpenLS ==> Ignored(s.bot, s.queue[0].symbol))
  }

  ghost predicate AllFree(s: System, inverse: bool, events: seq<Event>)
    requires Runs(s, inverse, events)
    decreases events
  {
    events == [] || (FreeOpen(s, inverse, events[0]) && AllFree(Effect(s, inverse, events[0]), inverse, events[1..]))
  }

  lemma {:induction false} FreeIsClean(s: System, inverse: bool, events: seq<Event>)
    requires Runs(s, inverse, events) && AllFree(s, inverse, events)
    ensures AllClean(s, inverse, events)
    decreases events
  {
    if events != [] {
      assert CleanOpen(s, inverse, events[0]) by { hide OpenPosition, PosHash, Multiple; }
      hide Effect, CleanOpen, FreeOpen;
      FreeIsClean(Effect(s, inverse, events[0]), inverse, events[1..]);
    }
  }

  /** Coverage under that guard alone. */
  lemma FreeRunCovered(s: System, inverse: bool, user: map<string, BotPosition>, events: seq<Event>)
    requires StartsRun(s, inverse, user) && Runs(s, inverse, events) && AllFree(s, inverse, events)
    ensures AllCovered(Final(s, inverse, events), inverse)
    ensures Final(s, inverse, events).queue == [] ==>
      forall p :: p in Final(s, inverse, events).snapshot ==> Covered(Final(s, inverse, events).bot, inverse, KeyOf(p))
  {
    hide StartsRun, Runs, AllFree, AllClean, Final, Covered;
    FreeIsClean(s, inverse, events);
    RunCovered(s, inverse, user, events);
  }
}
