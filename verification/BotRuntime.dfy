/**
 botRuntime.go and botManagement.go: the bot's tracked positions and ignore list, and how one update,
 one manual check or one finished goroutine changes them.

 Two effects happen later than the call that causes them: onSuccessfullClose removes a closed position,
 and onUnexpectedSell and onFailedTradePrep ignore a symbol. They are kept as what is still to be done.
 */
module BotRuntime {
  import opened Types
  import opened Decimals
  import opened Orders
  import opened Decisions

  datatype BotState = BotState(
    positions: map<string, BotPosition>, ignoreList: seq<string>,
    pendingDeletes: multiset<string>, pendingIgnores: multiset<string>, initialBalance: real)

  // ------------------------------------------------------------------
  // The ignore list
  // ------------------------------------------------------------------

  function AddIgnored(ignored: seq<string>, symbol: string): seq<string> {
    if symbol in ignored then ignored else ignored + [symbol]
  }

  /** Drop the first occurrence. */
  function DropIgnored(ignored: seq<string>, symbol: string): seq<string> {
    if ignored == [] then []
    else if ignored[0] == symbol then ignored[1..]
    else [ignored[0]] + DropIgnored(ignored[1..], symbol)
  }

  predicate NoDuplicates(ignored: seq<string>) {
    forall i, j :: 0 <= i < j < |ignored| ==> ignored[i] != ignored[j]
  }

  lemma {:induction false} DropIgnoredMembers(ignored: seq<string>, symbol: string)
    ensures forall s :: s in DropIgnored(ignored, symbol) ==> s in ignored
    ensures forall s :: s in ignored && s != symbol ==> s in DropIgnored(ignored, symbol)
  {
    if ignored != [] {
      assert ignored == [ignored[0]] + ignored[1..];
      DropIgnoredMembers(ignored[1..], symbol);
    }
  }

  /** Without duplicates, dropping the first occurrence removes the symbol. */
  lemma {:induction false} DropIgnoredRemoves(ignored: seq<string>, symbol: string)
    requires NoDuplicates(ignored)
    ensures NoDuplicates(DropIgnored(ignored, symbol)) && symbol !in DropIgnored(ignored, symbol)
  {
    if ignored != [] {
      var rest := ignored[1..];
      assert forall j :: 0 <= j < |rest| ==> rest[j] == ignored[j + 1];
      DropIgnoredRemoves(rest, symbol);
      DropIgnoredMembers(rest, symbol);
      assert ignored[0] !in DropIgnored(rest, symbol);
    }
  }

  /** Ignoring and un-ignoring a symbol that was not ignored changes nothing. */
  lemma {:induction false} IgnoreRoundTrip(ignored: seq<string>, symbol: string)
    requires symbol !in ignored
    ensures DropIgnored(AddIgnored(ignored, symbol), symbol) == ignored
    decreases ignored
  {
    var added := ignored + [symbol];
    if ignored != [] {
      assert added[1..] == ignored[1..] + [symbol];
      assert ignored[0] in ignored && (forall s :: s in ignored[1..] ==> s in ignored);
      IgnoreRoundTrip(ignored[1..], symbol);
      assert ignored == [ignored[0]] + ignored[1..];
    } else {
      assert added[1..] == [];
    }
  }

  // ------------------------------------------------------------------
  // One update
  // ------------------------------------------------------------------

  datatype Order = Order(symbol: string, side: Side, qty: real, reduceOnly: bool, tpsl: TPSL)

  /** placeOrder: one order for each part of the split. */
  function OrdersFor(symbol: string, side: Side, qtys: seq<real>, reduceOnly: bool, tpsl: TPSL): seq<Order> {
    seq(|qtys|, i requires 0 <= i < |qtys| => Order(symbol, side, qtys[i], reduceOnly, tpsl))
  }

  /** How a handler ends: whether orders went out, and which they were. */
  datatype Handled = Handled(submitted: bool, orders: seq<Order>, bot: BotState)

  predicate AnyFilled(orders: seq<Order>, statuses: seq<OrderStatus>) {
    exists i :: 0 <= i < |orders| && i < |statuses| && statuses[i] == Status200
  }

  function OpenOrders(bot: BotState, symbol: string, side: Side, cfg: BotConfig, a: OpenAnswer): seq<Order>
    requires a.Sane(symbol) && a.supported && SymbolQty(cfg, bot.initialBalance, a.market, a.sym) >= 0.0
  {
    OrdersFor(symbol, side, BulkQtyList(SymbolQty(cfg, bot.initialBalance, a.market, a.sym), a.sym), false,
              GetTPSL(side, a.market, cfg.autoTP, cfg.autoSL, a.sym.priceStep))
  }

  /** openPosition. */
  function OpenPosition(bot: BotState, upd: Update, a: OpenAnswer): Handled
    requires a.Sane(upd.symbol)
  {
    if a.config.None? then Handled(false, [], bot)
    else
      var cfg, symbol := a.config.value, upd.symbol;
      var side := EffectiveSide(upd.side, cfg.modeInverse);
      var key := PosHash(symbol, side);
      if OpenRefusal(symbol, key in bot.positions, |bot.positions|, bot.initialBalance, cfg, a).Some? then Handled(false, [], bot)
      else if !a.leverageAccepted then Handled(false, [], bot)
      else
        OpenSendsOrders(symbol, key in bot.positions, |bot.positions|, bot.initialBalance, cfg, a);
        var orders := OpenOrders(bot, symbol, side, cfg, a);
        if !AnyFilled(orders, a.statuses) || a.position.None? then Handled(false, orders, bot)
        else Handled(true, orders, bot.(positions := bot.positions[key := a.position.value]))
  }

  /** The dispatch of an OPEN: a bot that did not open ignores the symbol. `a` is None when preparing the
      trade panicked, in which case the ignoring is left to a goroutine. */
  function DispatchOpen(bot: BotState, upd: Update, a: Option<OpenAnswer>): BotState
    requires a.Some? ==> a.value.Sane(upd.symbol)
  {
    match a
    case None => bot.(pendingIgnores := bot.pendingIgnores + multiset{upd.symbol})
    case Some(answer) =>
      var h := OpenPosition(bot, upd, answer);
      if h.submitted then h.bot else h.bot.(ignoreList := AddIgnored(h.bot.ignoreList, upd.symbol))
  }

  datatype CloseAnswer = CloseAnswer(config: Option<BotConfig>, sym: SymbolInfo)

  datatype CloseOutcome =
    | NoTrade | TradeFail | Crashed
    | Submitted(orders: seq<Order>)

  /** closePosition after the ignore list was consulted. With no order placed the source indexes an empty result list. */
  function DecideClose(bot: BotState, upd: Update, a: CloseAnswer): CloseOutcome {
    if a.config.None? then TradeFail
    else
      var cfg := a.config.value;
      var key := PosHash(upd.symbol, EffectiveSide(upd.side, cfg.modeInverse));
      if key !in bot.positions then NoTrade
      else if cfg.modeNoClose then NoTrade
      else
        var pos := bot.positions[key];
        if !a.sym.Known() || pos.qty < 0.0 || BulkQtyList(pos.qty, a.sym) == [] then Crashed
        else Submitted(OrdersFor(pos.symbol, SwitchSide(pos.side), BulkQtyList(pos.qty, a.sym), true, TPSL(None, None)))
  }

  /** closePositions for one bot: an ignored symbol is only taken off the list, a failure puts it on,
      and a submitted close leaves the removal to a goroutine. */
  function DispatchClose(bot: BotState, upd: Update, a: CloseAnswer): BotState {
    if upd.symbol in bot.ignoreList then bot.(ignoreList := DropIgnored(bot.ignoreList, upd.symbol))
    else
      match DecideClose(bot, upd, a)
      case NoTrade => bot
      case Crashed => bot
      case TradeFail => bot.(ignoreList := AddIgnored(bot.ignoreList, upd.symbol))
      case Submitted(_) =>
        var pos := bot.positions[PosHash(upd.symbol, EffectiveSide(upd.side, a.config.value.modeInverse))];
        bot.(pendingDeletes := bot.pendingDeletes + multiset{PosHash(pos.symbol, pos.side)})
  }

  /** changePosition. The position is looked up again after the orders, without the lock that would keep a
      finishing close out: if it was deleted meanwhile, what is written is a zero position. */
  function DispatchChange(bot: BotState, upd: Update, a: ChangeAnswer): BotState
    requires a.Sane()
  {
    if a.config.None? || upd.symbol in bot.ignoreList then bot
    else
      var cfg := a.config.value;
      var side := EffectiveSide(upd.side, cfg.modeInverse);
      var key := PosHash(upd.symbol, side);
      if !upd.IsIncrease() && cfg.modeNoSells then bot
      else if key !in bot.positions then bot
      else
        var d := DecideChange(bot.positions[key], upd, side, bot.initialBalance, cfg, a);
        if !d.Place? || d.qty < 0.0 || a.position.None? then bot
        else WriteBack(bot, key, a)
  }

  function WriteBack(bot: BotState, key: string, a: ChangeAnswer): BotState
    requires key in bot.positions && a.position.Some?
  {
    var gone := a.deletedMeanwhile && key in bot.pendingDeletes;
    var ourPos := if gone then ZERO_POSITION else bot.positions[key];
    bot.(positions := bot.positions[key := ourPos.(qty := a.position.value.qty, entry := a.position.value.entry)],
         pendingDeletes := if gone then bot.pendingDeletes - multiset{key} else bot.pendingDeletes)
  }

  /** What a CLOSE sends to the exchange. */
  function CloseOrders(bot: BotState, upd: Update, a: CloseAnswer): seq<Order> {
    if upd.symbol in bot.ignoreList then []
    else match DecideClose(bot, upd, a)
      case Submitted(orders) => orders
      case _ => []
  }

  /** What a CHANGE sends to the exchange. */
  function ChangeOrders(bot: BotState, upd: Update, a: ChangeAnswer): seq<Order>
    requires a.Sane()
  {
    if a.config.None? || upd.symbol in bot.ignoreList then []
    else
      var cfg := a.config.value;
      var side := EffectiveSide(upd.side, cfg.modeInverse);
      var key := PosHash(upd.symbol, side);
      if (!upd.IsIncrease() && cfg.modeNoSells) || key !in bot.positions then []
      else
        var d := DecideChange(bot.positions[key], upd, side, bot.initialBalance, cfg, a);
        if !d.Place? || d.qty < 0.0 then []
        else OrdersFor(upd.symbol, if d.reduceOnly then SwitchSide(side) else side, BulkQtyList(d.qty, a.sym), d.reduceOnly, d.tpsl)
  }

  function Quantities(orders: seq<Order>): seq<real> {
    seq(|orders|, i requires 0 <= i < |orders| => orders[i].qty)
  }

  /** Every order is for this symbol and side, and only reduces, or does not. */
  predicate AllFor(orders: seq<Order>, symbol: string, side: Side, reduceOnly: bool) {
    forall o :: o in orders ==> o.symbol == symbol && o.side == side && o.reduceOnly == reduceOnly
  }

  predicate WithoutLimits(orders: seq<Order>) { forall o :: o in orders ==> o.tpsl.tp == None && o.tpsl.sl == None }

  lemma OrdersForAll(symbol: string, side: Side, qtys: seq<real>, reduceOnly: bool, tpsl: TPSL)
    ensures AllFor(OrdersFor(symbol, side, qtys, reduceOnly, tpsl), symbol, side, reduceOnly)
    ensures forall o :: o in OrdersFor(symbol, side, qtys, reduceOnly, tpsl) ==> o.tpsl == tpsl
    ensures Quantities(OrdersFor(symbol, side, qtys, reduceOnly, tpsl)) == qtys
  {
  }

  /** A close sells what a Buy holds and buys back a Sell, only reducing, and leaves less than one minimum or one
      step of it, taking no more than it holds but for the rounding of a quotient. */
  lemma CloseEmptiesPosition(bot: BotState, upd: Update, a: CloseAnswer)
    requires a.sym.Legal() && CloseOrders(bot, upd, a) != []
    ensures a.config.Some? && PosHash(upd.symbol, EffectiveSide(upd.side, a.config.value.modeInverse)) in bot.positions
    ensures var pos := bot.positions[PosHash(upd.symbol, EffectiveSide(upd.side, a.config.value.modeInverse))];
      var orders := CloseOrders(bot, upd, a);
      && pos.qty >= 0.0
      && AllFor(orders, pos.symbol, SwitchSide(pos.side), true) && WithoutLimits(orders)
      && (IsTradeSide(pos.side) ==> SwitchSide(pos.side) != pos.side)
      && pos.qty - Total(Quantities(orders)) < (if Dropped(pos.qty, a.sym) then a.sym.minQty else a.sym.qtyStep)
      && Total(Quantities(orders)) <= pos.qty + Slack(a.sym.maxQty)
  {
    var pos := bot.positions[PosHash(upd.symbol, EffectiveSide(upd.side, a.config.value.modeInverse))];
    hide Multiple, BulkQtyList, PosHash, Total, Dropped, Slack, Quantities, AllFor, OrdersFor;
    SplitShortfall(pos.qty, a.sym);
    OrdersForAll(pos.symbol, SwitchSide(pos.side), BulkQtyList(pos.qty, a.sym), true, TPSL(None, None));
  }

  /** A position held in whole steps, with maxQty below 2 * 10^16 of them, is never oversold, and closed completely
      unless what is left of it after whole maxQtys is dropped. */
  lemma CloseIsExact(bot: BotState, upd: Update, a: CloseAnswer)
    requires a.sym.Legal() && Whole(a.sym.maxQty, a.sym.qtyStep) < 2 * SCALE && CloseOrders(bot, upd, a) != []
    ensures a.config.Some? && PosHash(upd.symbol, EffectiveSide(upd.side, a.config.value.modeInverse)) in bot.positions
    ensures var pos := bot.positions[PosHash(upd.symbol, EffectiveSide(upd.side, a.config.value.modeInverse))];
      Multiple(pos.qty, a.sym.qtyStep) ==>
        && pos.qty >= 0.0
        && Total(Quantities(CloseOrders(bot, upd, a))) <= pos.qty
        && (Total(Quantities(CloseOrders(bot, upd, a))) == pos.qty <==> !Dropped(pos.qty, a.sym) || Remainder(pos.qty, a.sym) == 0.0)
  {
    var pos := bot.positions[PosHash(upd.symbol, EffectiveSide(upd.side, a.config.value.modeInverse))];
    hide Multiple, BulkQtyList, PosHash, Total, Quantities, AllFor, OrdersFor, Whole, Dropped, Remainder;
    OrdersForAll(pos.symbol, SwitchSide(pos.side), BulkQtyList(pos.qty, a.sym), true, TPSL(None, None));
    if Multiple(pos.qty, a.sym.qtyStep) {
      WholeStepsSplit(pos.qty, a.sym);
    }
  }

  /** An increase trades on the bot's side of the trader's, a decrease on the other and only reducing; either orders the
      distance from the held quantity to the target, less than one minimum or one step of it. */
  lemma ChangeOrdersMoveToTarget(bot: BotState, upd: Update, a: ChangeAnswer)
    requires a.Sane() && Reported(upd) && ChangeOrders(bot, upd, a) != []
    ensures a.config.Some? && PosHash(upd.symbol, EffectiveSide(upd.side, a.config.value.modeInverse)) in bot.positions
    ensures var side := EffectiveSide(upd.side, a.config.value.modeInverse);
      var pos := bot.positions[PosHash(upd.symbol, side)];
      var orders := ChangeOrders(bot, upd, a);
      && AllFor(orders, upd.symbol, if upd.binQty > upd.oldBinQty then side else SwitchSide(side), upd.binQty <= upd.oldBinQty)
      && Proportional(Target(pos, upd, a.config.value), pos.qty, upd, a.config.value)
      && (pos.qty >= 0.0 && upd.binQty <= upd.oldBinQty ==> WithoutLimits(orders))
      && (pos.qty >= 0.0 ==>
            var distance := Abs(Target(pos, upd, a.config.value) - pos.qty);
            distance - Total(Quantities(orders)) < (if Dropped(distance, a.sym) then a.sym.minQty else a.sym.qtyStep)
            && Total(Quantities(orders)) <= distance + Slack(a.sym.maxQty))
  {
    var cfg := a.config.value;
    var side := EffectiveSide(upd.side, cfg.modeInverse);
    var pos := bot.positions[PosHash(upd.symbol, side)];
    ChangeDirection(pos, upd, side, bot.initialBalance, cfg, a);
    TargetExact(pos, upd, cfg);
    hide Multiple, BulkQtyList, PosHash, Total, Dropped, Slack, Quantities, AllFor, OrdersFor, DecideChange, Target, Proportional;
    var d := DecideChange(pos, upd, side, bot.initialBalance, cfg, a);
    if pos.qty >= 0.0 {
      PlacedQty(pos, upd, side, bot.initialBalance, cfg, a);
    }
    SplitShortfall(d.qty, a.sym);
    OrdersForAll(upd.symbol, if d.reduceOnly then SwitchSide(side) else side, BulkQtyList(d.qty, a.sym), d.reduceOnly, d.tpsl);
  }

  lemma ChangeDirection(pos: BotPosition, upd: Update, side: Side, initialBalance: real, cfg: BotConfig, a: ChangeAnswer)
    requires a.Sane()
    ensures var d := DecideChange(pos, upd, side, initialBalance, cfg, a);
      d.Place? ==> d.reduceOnly == !upd.IsIncrease()
  {
    hide Div, Target, TooLarge, GetTPSL, Multiple;
  }

  /** The orders of an open are on the bot's side of the trader's and carry limits that straddle the rounded market price,
      each as far from the market price as its setting says; a setting of -1 switches its limit off. */
  lemma OpenOrdersStraddled(bot: BotState, upd: Update, a: OpenAnswer)
    requires a.Sane(upd.symbol) && IsTradeSide(upd.side) && OpenPosition(bot, upd, a).orders != []
    ensures a.config.Some? && a.supported && a.market > 0.0 && a.sym.priceStep > 0.0
    ensures var cfg := a.config.value;
      var side := EffectiveSide(upd.side, cfg.modeInverse);
      var entry := ValidPrice(a.market, a.sym.priceStep);
      forall o :: o in OpenPosition(bot, upd, a).orders ==>
        && o.symbol == upd.symbol && o.side == side && !o.reduceOnly
        && (o.tpsl.tp.Some? <==> cfg.autoTP != -1.0) && (o.tpsl.sl.Some? <==> cfg.autoSL != -1.0)
        && (o.tpsl.tp.Some? ==> LimitAt(o.tpsl.tp.value, a.market, cfg.autoTP, side == Buy, a.sym.priceStep))
        && (o.tpsl.sl.Some? ==> LimitAt(o.tpsl.sl.value, a.market, cfg.autoSL, side == Sell, a.sym.priceStep))
        && (o.tpsl.tp.Some? && cfg.autoTP >= 0.0 ==> if side == Sell then o.tpsl.tp.value <= entry else entry <= o.tpsl.tp.value)
        && (o.tpsl.sl.Some? && cfg.autoSL >= 0.0 ==> if side == Sell then entry <= o.tpsl.sl.value else o.tpsl.sl.value <= entry)
  {
    hide Multiple, SymbolQty, BulkQtyList, Div, PosHash, LimitAt;
    var cfg := a.config.value;
    var side := EffectiveSide(upd.side, cfg.modeInverse);
    hide LimitPrice, ValidPrice;
    OpenLimits(side, a.market, cfg.autoTP, cfg.autoSL, a.sym.priceStep);
  }

  lemma OpenLimits(side: Side, entry: real, autoTP: real, autoSL: real, priceStep: real)
    requires entry > 0.0 && priceStep > 0.0 && IsTradeSide(side)
    ensures LimitAt(LimitPrice(side, entry, autoTP, TakeProfit, priceStep), entry, autoTP, side == Buy, priceStep)
    ensures LimitAt(LimitPrice(side, entry, autoSL, StopLoss, priceStep), entry, autoSL, side == Sell, priceStep)
    ensures autoTP >= 0.0 ==> var tp := LimitPrice(side, entry, autoTP, TakeProfit, priceStep);
      if side == Sell then tp <= ValidPrice(entry, priceStep) else ValidPrice(entry, priceStep) <= tp
    ensures autoSL >= 0.0 ==> var sl := LimitPrice(side, entry, autoSL, StopLoss, priceStep);
      if side == Sell then ValidPrice(entry, priceStep) <= sl else sl <= ValidPrice(entry, priceStep)
  {
    hide LimitPrice, ValidPrice, LimitAt;
    LimitDistance(side, entry, autoTP, TakeProfit, priceStep);
    LimitDistance(side, entry, autoSL, StopLoss, priceStep);
    LimitsStraddle(entry, if autoTP >= 0.0 then autoTP else 0.0, if autoSL >= 0.0 then autoSL else 0.0, priceStep);
  }

  /** Some check refuses the open, see Decisions.OpenPassesIff. */
  predicate Refused(bot: BotState, upd: Update, a: OpenAnswer, cfg: BotConfig)
    requires a.Sane(upd.symbol)
  {
    var key := PosHash(upd.symbol, EffectiveSide(upd.side, cfg.modeInverse));
    OpenRefusal(upd.symbol, key in bot.positions, |bot.positions|, bot.initialBalance, cfg, a).Some?
  }

  /** When an open sends orders, when it is submitted, and what it then tracks: what the exchange reports. */
  lemma OpenSubmits(bot: BotState, upd: Update, a: OpenAnswer)
    requires a.Sane(upd.symbol)
    ensures var h := OpenPosition(bot, upd, a);
      && h.bot.(positions := bot.positions) == bot
      && (h.orders != [] <==> a.config.Some? && a.leverageAccepted && !Refused(bot, upd, a, a.config.value))
      && (h.submitted <==> a.position.Some? && exists i :: 0 <= i < |h.orders| && i < |a.statuses| && a.statuses[i] == Status200)
      && (!h.submitted ==> h.bot.positions == bot.positions)
    ensures OpenPosition(bot, upd, a).submitted ==>
      var key := PosHash(upd.symbol, EffectiveSide(upd.side, a.config.value.modeInverse));
      OpenPosition(bot, upd, a).bot.positions == bot.positions[key := a.position.value]
    ensures var h := OpenPosition(bot, upd, a);
      h.orders != [] ==>
        && a.supported && a.market > 0.0
        && Quantities(h.orders) == BulkQtyList(SymbolQty(a.config.value, bot.initialBalance, a.market, a.sym), a.sym)
  {
    hide OpenRefusal, SymbolQty, BulkQtyList, Multiple, PosHash, GetTPSL, OrdersFor;
    if a.config.Some? {
      var cfg, symbol := a.config.value, upd.symbol;
      var side := EffectiveSide(upd.side, cfg.modeInverse);
      var isOpen := PosHash(symbol, side) in bot.positions;
      if OpenRefusal(symbol, isOpen, |bot.positions|, bot.initialBalance, cfg, a).None? && a.leverageAccepted {
        OpenPassesIff(symbol, isOpen, |bot.positions|, bot.initialBalance, cfg, a);
        OpenSendsOrders(symbol, isOpen, |bot.positions|, bot.initialBalance, cfg, a);
        OrdersForAll(symbol, side, BulkQtyList(SymbolQty(cfg, bot.initialBalance, a.market, a.sym), a.sym), false,
                     GetTPSL(side, a.market, cfg.autoTP, cfg.autoSL, a.sym.priceStep));
      }
    }
  }

  /** An OPEN leaves its symbol ignored unless it was submitted; preparing that panicked leaves that to a goroutine. */
  lemma OpenIgnoresIff(bot: BotState, upd: Update, a: Option<OpenAnswer>)
    requires a.Some? ==> a.value.Sane(upd.symbol)
    ensures var next := DispatchOpen(bot, upd, a);
      && (forall s :: s in next.ignoreList <==> s in bot.ignoreList || (s == upd.symbol && a.Some? && !OpenPosition(bot, upd, a.value).submitted))
      && next.pendingIgnores == (if a.Some? then bot.pendingIgnores else bot.pendingIgnores + multiset{upd.symbol})
      && next.pendingDeletes == bot.pendingDeletes
      && next.positions == if a.Some? then OpenPosition(bot, upd, a.value).bot.positions else bot.positions
  {
    if a.Some? { OpenSubmits(bot, upd, a.value); }
    hide OpenPosition;
  }

  /** A CLOSE of an ignored symbol un-ignores it and does no more. Of another, missing settings make it ignored, and an
      order that goes out leaves one removal to come. Positions stay as they are until then. */
  lemma CloseToggles(bot: BotState, upd: Update, a: CloseAnswer)
    requires NoDuplicates(bot.ignoreList)
    ensures var next := DispatchClose(bot, upd, a);
      && NoDuplicates(next.ignoreList)
      && (upd.symbol in next.ignoreList <==> upd.symbol !in bot.ignoreList && a.config.None?)
      && (forall s :: s != upd.symbol ==> (s in next.ignoreList <==> s in bot.ignoreList))
      && next.positions == bot.positions && next.pendingIgnores == bot.pendingIgnores
      && |next.pendingDeletes| == |bot.pendingDeletes| + if CloseOrders(bot, upd, a) == [] then 0 else 1
  {
    hide BulkQtyList, PosHash;
    if upd.symbol in bot.ignoreList {
      DropIgnoredRemoves(bot.ignoreList, upd.symbol);
      DropIgnoredMembers(bot.ignoreList, upd.symbol);
    }
  }

  /** What a CHANGE writes where it orders and the exchange reports the position: the quantity and entry reported, over
      the position found, or over a zero position where a finishing close removed it meanwhile. Nothing else changes,
      and where it orders nothing, nothing does. */
  lemma ChangeWrites(bot: BotState, upd: Update, a: ChangeAnswer)
    requires a.Sane() && Reported(upd) && forall k :: k in bot.positions ==> bot.positions[k].qty >= 0.0
    ensures var next := DispatchChange(bot, upd, a);
      && next.ignoreList == bot.ignoreList && next.pendingIgnores == bot.pendingIgnores && next.initialBalance == bot.initialBalance
      && (ChangeOrders(bot, upd, a) == [] || a.position.None? ==> next == bot)
    ensures var next := DispatchChange(bot, upd, a);
      ChangeOrders(bot, upd, a) != [] && a.position.Some? ==>
        var key := PosHash(upd.symbol, EffectiveSide(upd.side, a.config.value.modeInverse));
        && key in bot.positions && next.positions.Keys == bot.positions.Keys
        && (forall k :: k in bot.positions && k != key ==> next.positions[k] == bot.positions[k])
        && next.positions[key].qty == a.position.value.qty && next.positions[key].entry == a.position.value.entry
        && var gone := a.deletedMeanwhile && key in bot.pendingDeletes;
           var was, now := bot.positions[key], next.positions[key];
           && next.pendingDeletes == (if gone then bot.pendingDeletes - multiset{key} else bot.pendingDeletes)
           && (gone ==> now.symbol == "" && now.side == Unset && now.leverage == now.tp == now.sl == 0.0)
           && (!gone ==> now.symbol == was.symbol && now.side == was.side && now.leverage == was.leverage && now.tp == was.tp && now.sl == was.sl)
  {
    hide DecideChange, BulkQtyList, PosHash, Multiple, Target;
    if a.config.Some? {
      var side := EffectiveSide(upd.side, a.config.value.modeInverse);
      var key := PosHash(upd.symbol, side);
      if key in bot.positions && DecideChange(bot.positions[key], upd, side, bot.initialBalance, a.config.value, a).Place? {
        PlacedIsOrdered(bot.positions[key], upd, side, bot.initialBalance, a.config.value, a);
      }
    }
  }

  /** When a CHANGE sends orders: the symbol is not ignored, the position is tracked, the target is a minimum quantity away,
      and a decrease is not switched off, an increase passes its guards, see Decisions.AddPlacedIff. */
  lemma ChangeSendsIff(bot: BotState, upd: Update, a: ChangeAnswer)
    requires a.Sane() && Reported(upd) && forall k :: k in bot.positions ==> bot.positions[k].qty >= 0.0
    ensures ChangeOrders(bot, upd, a) != [] <==>
      && a.config.Some? && upd.symbol !in bot.ignoreList
      && var cfg, side := a.config.value, EffectiveSide(upd.side, a.config.value.modeInverse);
         && PosHash(upd.symbol, side) in bot.positions
         && var pos := bot.positions[PosHash(upd.symbol, side)];
            var distance := Abs(Target(pos, upd, cfg) - pos.qty);
            && distance >= a.sym.minQty
            && if upd.binQty > upd.oldBinQty then AddDecision(distance, pos, side, bot.initialBalance, cfg, a).Place? else !cfg.modeNoSells
  {
    hide BulkQtyList, PosHash, Multiple, Target, AddDecision;
    if a.config.Some? {
      var side := EffectiveSide(upd.side, a.config.value.modeInverse);
      var key := PosHash(upd.symbol, side);
      if key in bot.positions {
        DecidedPlace(bot.positions[key], upd, side, bot.initialBalance, a.config.value, a);
        hide DecideChange;
        if DecideChange(bot.positions[key], upd, side, bot.initialBalance, a.config.value, a).Place? {
          PlacedIsOrdered(bot.positions[key], upd, side, bot.initialBalance, a.config.value, a);
        }
      }
    }
  }

  lemma DecidedPlace(pos: BotPosition, upd: Update, side: Side, initialBalance: real, cfg: BotConfig, a: ChangeAnswer)
    requires a.Sane() && Reported(upd)
    ensures var distance := Abs(Target(pos, upd, cfg) - pos.qty);
      DecideChange(pos, upd, side, initialBalance, cfg, a).Place? <==>
        distance >= a.sym.minQty
        && (upd.binQty > upd.oldBinQty ==> AddDecision(distance, pos, side, initialBalance, cfg, a).Place?)
  {
    AddPlacedIff(Abs(Target(pos, upd, cfg) - pos.qty), pos, side, initialBalance, cfg, a);
    hide Target, AddDecision, Multiple;
  }

  lemma PlacedIsOrdered(pos: BotPosition, upd: Update, side: Side, initialBalance: real, cfg: BotConfig, a: ChangeAnswer)
    requires a.Sane() && Reported(upd) && pos.qty >= 0.0 && DecideChange(pos, upd, side, initialBalance, cfg, a).Place?
    ensures DecideChange(pos, upd, side, initialBalance, cfg, a).qty >= 0.0
    ensures BulkQtyList(DecideChange(pos, upd, side, initialBalance, cfg, a).qty, a.sym) != []
  {
    hide DecideChange, BulkQtyList, Multiple, Target;
    PlacedQty(pos, upd, side, initialBalance, cfg, a);
    MinimumYieldsOrder(DecideChange(pos, upd, side, initialBalance, cfg, a).qty, a.sym);
  }

  // ------------------------------------------------------------------
  // Later effects and manual checks
  // ------------------------------------------------------------------

  function DeleteFires(bot: BotState, key: string): BotState {
    bot.(positions := bot.positions - {key}, pendingDeletes := bot.pendingDeletes - multiset{key})
  }

  function IgnoreFires(bot: BotState, symbol: string): BotState {
    bot.(ignoreList := AddIgnored(bot.ignoreList, symbol), pendingIgnores := bot.pendingIgnores - multiset{symbol})
  }

  /** The symbols of the tracked positions at the given keys. */
  ghost function SymbolsAt(positions: map<string, BotPosition>, keys: set<string>): multiset<string>
    requires keys <= positions.Keys
  {
    if keys == {} then multiset{}
    else
      var k :| k in keys;
      multiset{positions[k].symbol} + SymbolsAt(positions, keys - {k})
  }

  lemma {:induction false} SymbolsAtAny(positions: map<string, BotPosition>, keys: set<string>, key: string)
    requires keys <= positions.Keys && key in keys
    ensures SymbolsAt(positions, keys) == multiset{positions[key].symbol} + SymbolsAt(positions, keys - {key})
  {
    var k :| k in keys && SymbolsAt(positions, keys) == multiset{positions[k].symbol} + SymbolsAt(positions, keys - {k});
    if k != key {
      SymbolsAtAny(positions, keys - {k}, key);
      SymbolsAtAny(positions, keys - {key}, k);
      assert keys - {k} - {key} == keys - {key} - {k};
    }
  }

  function Missing(bot: BotState, api: map<string, BotPosition>): set<string> {
    set k | k in bot.positions && k !in api
  }

  /** What a manual check makes of a position the exchange still reports. The source compares quantities by
      pointer, so quantity and entry are always taken over. */
  function Refresh(pos: BotPosition, apiPos: BotPosition): BotPosition {
    pos.(qty := apiPos.qty, entry := apiPos.entry, tp := apiPos.tp, sl := apiPos.sl)
  }

  /** checkManualChanges; None when the check was cancelled or failed. */
  ghost function ManualCheck(bot: BotState, answer: Option<map<string, BotPosition>>): BotState {
    match answer
    case None => bot
    case Some(api) =>
      bot.(positions := map k | k in bot.positions && k in api :: Refresh(bot.positions[k], api[k]),
           pendingIgnores := bot.pendingIgnores + SymbolsAt(bot.positions, Missing(bot, api)))
  }

  function KeysOf(positions: map<string, BotPosition>, keys: set<string>, symbol: string): set<string>
    requires keys <= positions.Keys
  {
    set k | k in keys && positions[k].symbol == symbol
  }

  lemma KeysWithout(positions: map<string, BotPosition>, keys: set<string>, k: string, symbol: string)
    requires keys <= positions.Keys && k in keys
    ensures |KeysOf(positions, keys, symbol)|
      == |KeysOf(positions, keys - {k}, symbol)| + if positions[k].symbol == symbol then 1 else 0
  {
    var rest := KeysOf(positions, keys - {k}, symbol);
    assert KeysOf(positions, keys, symbol) == if positions[k].symbol == symbol then rest + {k} else rest;
  }

  lemma {:induction false} SymbolsAtCount(positions: map<string, BotPosition>, keys: set<string>, symbol: string)
    requires keys <= positions.Keys
    ensures SymbolsAt(positions, keys)[symbol] == |KeysOf(positions, keys, symbol)|
    decreases keys
  {
    if keys == {} {
      assert KeysOf(positions, keys, symbol) == {};
    } else {
      var k :| k in keys;
      hide KeysOf;
      SymbolsAtAny(positions, keys, k);
      hide SymbolsAt;
      KeysWithout(positions, keys, k, symbol);
      SymbolsAtCount(positions, keys - {k}, symbol);
    }
  }

  /** A manual check keeps exactly the positions still reported, with the quantity, entry and limits reported and the symbol,
      side and leverage tracked; each position dropped leaves one goroutine to ignore its symbol. */
  lemma ManualCheckKeeps(bot: BotState, api: map<string, BotPosition>, symbol: string)
    ensures var next := ManualCheck(bot, Some(api));
      && next.positions.Keys == bot.positions.Keys * api.Keys
      && (forall k :: k in next.positions ==>
            var was, reported, now := bot.positions[k], api[k], next.positions[k];
            && now.qty == reported.qty && now.entry == reported.entry && now.tp == reported.tp && now.sl == reported.sl
            && now.symbol == was.symbol && now.side == was.side && now.leverage == was.leverage)
      && next.ignoreList == bot.ignoreList && next.pendingDeletes == bot.pendingDeletes
      && next.pendingIgnores[symbol]
         == bot.pendingIgnores[symbol] + |set k | k in bot.positions && k !in api && bot.positions[k].symbol == symbol|
  {
    SymbolsAtCount(bot.positions, Missing(bot, api), symbol);
    assert KeysOf(bot.positions, Missing(bot, api), symbol)
        == set k | k in bot.positions && k !in api && bot.positions[k].symbol == symbol;
  }

  // ------------------------------------------------------------------
  // The bot object
  // ------------------------------------------------------------------

  class Bot {
    var Positions: map<string, BotPosition>
    var IgnoreList: seq<string>
    var Deletes: multiset<string> // closes whose goroutine has not removed the position yet
    var Ignores: multiset<string> // goroutines that have not ignored their symbol yet
    const InitialBalance: real

    function State(): BotState
      reads this
    {
      BotState(Positions, IgnoreList, Deletes, Ignores, InitialBalance)
    }

    constructor (initialBalance: real)
      ensures State() == BotState(map[], [], multiset{}, multiset{}, initialBalance)
    {
      Positions, IgnoreList, Deletes, Ignores, InitialBalance := map[], [], multiset{}, multiset{}, initialBalance;
    }

    method IsIgnored(symbol: string) returns (found: bool)
      ensures found <==> symbol in IgnoreList
    {
      for i := 0 to |IgnoreList|
        invariant symbol !in IgnoreList[..i]
      {
        if IgnoreList[i] == symbol {
          return true;
        }
      }
      return false;
    }

    method Ignore(symbol: string)
      modifies this`IgnoreList
      ensures IgnoreList == AddIgnored(old(IgnoreList), symbol)
    {
      var ignored := IsIgnored(symbol);
      if !ignored {
        IgnoreList := IgnoreList + [symbol];
      }
    }

    method UnIgnore(symbol: string)
      modifies this`IgnoreList
      ensures IgnoreList == DropIgnored(old(IgnoreList), symbol)
    {
      assert IgnoreList[0..] == IgnoreList;
      for i := 0 to |IgnoreList|
        invariant IgnoreList == old(IgnoreList)
        invariant DropIgnored(IgnoreList, symbol) == IgnoreList[..i] + DropIgnored(IgnoreList[i..], symbol)
      {
        assert IgnoreList[i..][1..] == IgnoreList[i + 1..];
        if IgnoreList[i] == symbol {
          IgnoreList := IgnoreList[..i] + IgnoreList[i + 1..];
          return;
        }
      }
      assert IgnoreList[|IgnoreList|..] == [];
    }

    method OnOpen(upd: Update, answer: Option<OpenAnswer>)
      requires answer.Some? ==> answer.value.Sane(upd.symbol)
      modifies this
      ensures State() == DispatchOpen(old(State()), upd, answer)
    {
      match answer {
        case None =>
          Ignores := Ignores + multiset{upd.symbol};
        case Some(a) =>
          var submitted, _ := Open(upd, a);
          if !submitted {
            Ignore(upd.symbol);
          }
      }
    }

    method Open(upd: Update, a: OpenAnswer) returns (submitted: bool, orders: seq<Order>)
      requires a.Sane(upd.symbol)
      modifies this`Positions
      ensures Handled(submitted, orders, State()) == OpenPosition(old(State()), upd, a)
    {
      hide SymbolQty, BulkQtyList, Multiple, GetTPSL;
      if a.config.None? {
        return false, [];
      }
      var cfg, symbol := a.config.value, upd.symbol;
      var side := EffectiveSide(upd.side, cfg.modeInverse);
      var key := PosHash(symbol, side);
      var refusal := OpenRefusal(symbol, key in Positions, |Positions|, InitialBalance, cfg, a);
      if refusal.Some? || !a.leverageAccepted {
        return false, [];
      }
      OpenSendsOrders(symbol, key in Positions, |Positions|, InitialBalance, cfg, a);
      var tpsl := GetTPSL(side, a.market, cfg.autoTP, cfg.autoSL, a.sym.priceStep);
      var qtys := GetBulkQtyList(SymbolQty(cfg, InitialBalance, a.market, a.sym), a.sym);
      orders := OrdersFor(symbol, side, qtys, false, tpsl);
      var filled := CountFilled(orders, a.statuses);
      if !filled || a.position.None? {
        return false, orders;
      }
      Positions := Positions[key := a.position.value];
      return true, orders;
    }

    /** Whether the quantity that was ordered with success is not zero. */
    method CountFilled(orders: seq<Order>, statuses: seq<OrderStatus>) returns (filled: bool)
      ensures filled <==> AnyFilled(orders, statuses)
    {
      filled := false;
      for i := 0 to |orders|
        invariant filled <==> exists j :: 0 <= j < i && j < |statuses| && statuses[j] == Status200
      {
        if i < |statuses| && statuses[i] == Status200 {
          filled := true;
        }
      }
    }

    method OnClose(upd: Update, a: CloseAnswer) returns (orders: seq<Order>)
      modifies this
      ensures State() == DispatchClose(old(State()), upd, a)
      ensures orders == CloseOrders(old(State()), upd, a)
    {
      hide BulkQtyList;
      orders := [];
      var ignored := IsIgnored(upd.symbol);
      if ignored {
        UnIgnore(upd.symbol);
        return;
      }
      if a.config.None? {
        Ignore(upd.symbol);
        return;
      }
      var key := PosHash(upd.symbol, EffectiveSide(upd.side, a.config.value.modeInverse));
      if key !in Positions || a.config.value.modeNoClose {
        return;
      }
      var pos := Positions[key];
      if !a.sym.Known() || pos.qty < 0.0 {
        return;
      }
      var qtys := GetBulkQtyList(pos.qty, a.sym);
      orders := OrdersFor(pos.symbol, SwitchSide(pos.side), qtys, true, TPSL(None, None));
      if orders != [] {
        Deletes := Deletes + multiset{PosHash(pos.symbol, pos.side)};
      }
    }

    method OnChange(upd: Update, a: ChangeAnswer) returns (orders: seq<Order>)
      requires a.Sane()
      modifies this
      ensures State() == DispatchChange(old(State()), upd, a)
      ensures orders == ChangeOrders(old(State()), upd, a)
    {
      hide DecideChange, Multiple, BulkQtyList;
      orders := [];
      var ignored := IsIgnored(upd.symbol);
      if a.config.None? || ignored {
        return;
      }
      var cfg := a.config.value;
      var side := EffectiveSide(upd.side, cfg.modeInverse);
      var key := PosHash(upd.symbol, side);
      if (!upd.IsIncrease() && cfg.modeNoSells) || key !in Positions {
        return;
      }
      var d := DecideChange(Positions[key], upd, side, InitialBalance, cfg, a);
      if !d.Place? || d.qty < 0.0 {
        return;
      }
      var qtys := GetBulkQtyList(d.qty, a.sym);
      orders := OrdersFor(upd.symbol, if d.reduceOnly then SwitchSide(side) else side, qtys, d.reduceOnly, d.tpsl);
      if a.position.None? {
        return;
      }
      var ourPos := Positions[key];
      if a.deletedMeanwhile && key in Deletes {
        FinishClose(key);
        ourPos := ZERO_POSITION;
      }
      Positions := Positions[key := ourPos.(qty := a.position.value.qty, entry := a.position.value.entry)];
    }

    /** The part of onSuccessfullClose that matters here. */
    method FinishClose(key: string)
      modifies this`Positions, this`Deletes
      ensures State() == DeleteFires(old(State()), key)
    {
      Positions := Positions - {key};
      Deletes := Deletes - multiset{key};
    }

    method FinishIgnore(symbol: string)
      modifies this`IgnoreList, this`Ignores
      ensures State() == IgnoreFires(old(State()), symbol)
    {
      Ignore(symbol);
      Ignores := Ignores - multiset{symbol};
    }

    method CheckManualChanges(answer: Option<map<string, BotPosition>>)
      modifies this
      ensures State() == ManualCheck(old(State()), answer)
    {
      if answer.None? {
        return;
      }
      var api := answer.value;
      ghost var was := State();
      hide Scanned, SymbolsAt, Refresh, Missing;
      var todo, toDelete := Positions.Keys, {};
      ScanStart(was, api);
      while todo != {}
        invariant Scanned(was.positions, api, todo, toDelete, Positions)
        invariant Ignores == was.pendingIgnores + SymbolsAt(was.positions, toDelete)
        invariant IgnoreList == was.ignoreList && Deletes == was.pendingDeletes
        decreases todo
      {
        var k :| k in todo;
        ScanStep(was.positions, api, todo, toDelete, Positions, k);
        if k !in api {
          Ignores := Ignores + multiset{Positions[k].symbol};
          toDelete := toDelete + {k};
        } else {
          Positions := Positions[k := Refresh(Positions[k], api[k])];
        }
        todo := todo - {k};
      }
      ScanDone(was, api, toDelete, Positions);
      Positions := Positions - toDelete;
    }
  }

  /** Partway through a manual check: what is still to be looked at is as it was. */
  ghost predicate Scanned(was: map<string, BotPosition>, api: map<string, BotPosition>, todo: set<string>,
                          toDelete: set<string>, now: map<string, BotPosition>) {
    && todo <= was.Keys && now.Keys == was.Keys
    && toDelete <= was.Keys
    && (forall k :: k in toDelete <==> k in was && k !in todo && k !in api)
    && (forall k :: k in was ==> now[k] == if k in todo || k !in api then was[k] else Refresh(was[k], api[k]))
  }

  lemma ScanStart(was: BotState, api: map<string, BotPosition>)
    ensures Scanned(was.positions, api, was.positions.Keys, {}, was.positions)
    ensures SymbolsAt(was.positions, {}) == multiset{}
  {
  }

  lemma ScanStep(was: map<string, BotPosition>, api: map<string, BotPosition>, todo: set<string>,
                 toDelete: set<string>, now: map<string, BotPosition>, k: string)
    requires Scanned(was, api, todo, toDelete, now) && k in todo
    ensures now[k] == was[k]
    ensures k !in api ==> Scanned(was, api, todo - {k}, toDelete + {k}, now)
    ensures k !in api ==> SymbolsAt(was, toDelete + {k}) == multiset{was[k].symbol} + SymbolsAt(was, toDelete)
    ensures k in api ==> Scanned(was, api, todo - {k}, toDelete, now[k := Refresh(now[k], api[k])])
  {
    if k !in api {
      SymbolsAtAny(was, toDelete + {k}, k);
      assert toDelete + {k} - {k} == toDelete;
    }
  }

  lemma ScanDone(was: BotState, api: map<string, BotPosition>, toDelete: set<string>, now: map<string, BotPosition>)
    requires Scanned(was.positions, api, {}, toDelete, now)
    ensures toDelete <= was.positions.Keys && toDelete == Missing(was, api)
    ensures now - toDelete == map k | k in was.positions && k in api :: Refresh(was.positions[k], api[k])
  {
  }
}
