/**
 botRuntime.go: what a bot decides to order for an OPEN or a CHANGE, given its settings and what the
 exchange says. Every answer of the exchange, the clock and the settings table is a parameter.
 */
module Decisions {
  import opened Types
  import opened Decimals
  import opened Orders

  /** The settings the decisions read; -1 switches a numeric one off. */
  datatype BotConfig = BotConfig(
    leverage: real, initialOpenPercent: real, excSpreadDiffPercent: real, maxAddMultiplier: real,
    openDelay: real, oneCoinMaxPercent: real, addPreventionPercent: real, minTraderSize: real,
    autoTP: real, autoSL: real, maxOpenPositions: int,
    blacklistCoins: seq<string>, whitelistCoins: seq<string>, blockAddsAboveEntry: bool,
    modeCloseOnly: bool, modeInverse: bool, modeNoClose: bool, modeNoSells: bool)

  // ------------------------------------------------------------------
  // Opening
  // ------------------------------------------------------------------

  datatype OpenAnswer = OpenAnswer(
    config: Option<BotConfig>, supported: bool, traderSize: real, spreadDiff: real, delayActive: bool,
    curBalance: real, market: real, sym: SymbolInfo, leverageAccepted: bool,
    statuses: seq<OrderStatus>, position: Option<BotPosition>)
  {
    /** Supported symbols have prices and exchange data, and the exchange answers about the symbol it was asked about. */
    predicate Sane(symbol: string) {
      && (supported ==> market > 0.0 && sym.Legal())
      && (position.Some? ==> position.value.symbol == symbol && position.value.side != Unset)
    }
  }

  datatype OrderStatus = Status200 | Status130125 | StatusOther

  datatype Refusal =
    | Unsupported | AlreadyOpen | CloseOnly | SmallTrader | TooManyPositions | OpenDelayed
    | Blacklisted | NotWhitelisted | SpreadTooGreat | BalanceTooLow | BelowMinQty

  function SizingLeverage(cfg: BotConfig, sym: SymbolInfo): real {
    if cfg.leverage < sym.maxLeverage then cfg.leverage else sym.maxLeverage
  }

  /** The second computation of the leverage, the one sent to the exchange. */
  function UsedLeverage(cfg: BotConfig, sym: SymbolInfo): real {
    if cfg.leverage > sym.maxLeverage then sym.maxLeverage else cfg.leverage
  }

  function OpenMargin(cfg: BotConfig, initialBalance: real): real {
    Div(cfg.initialOpenPercent, 100.0) * initialBalance
  }

  function SymbolQty(cfg: BotConfig, initialBalance: real, market: real, sym: SymbolInfo): real
    requires market > 0.0
  {
    Div(OpenMargin(cfg, initialBalance), market) * SizingLeverage(cfg, sym)
  }

  function OpenNeeds(cfg: BotConfig, initialBalance: real): real {
    Div(Product(initialBalance, cfg.initialOpenPercent), 100.0)
  }

  /** The checks of openPosition, in order; None means the order goes out. */
  function OpenRefusal(symbol: string, isOpen: bool, numOpen: nat, initialBalance: real, cfg: BotConfig, a: OpenAnswer): Option<Refusal>
    requires a.supported ==> a.market > 0.0
  {
    if !a.supported then Some(Unsupported)
    else if isOpen then Some(AlreadyOpen)
    else if cfg.modeCloseOnly then Some(CloseOnly)
    else if cfg.minTraderSize != -1.0 && cfg.minTraderSize > a.traderSize then Some(SmallTrader)
    else if cfg.maxOpenPositions != -1 && numOpen >= cfg.maxOpenPositions then Some(TooManyPositions)
    else if SettingEnabled(cfg.openDelay) && a.delayActive then Some(OpenDelayed)
    else if symbol in cfg.blacklistCoins then Some(Blacklisted)
    else if cfg.whitelistCoins != [] && symbol !in cfg.whitelistCoins then Some(NotWhitelisted)
    else if SettingEnabled(cfg.excSpreadDiffPercent) && a.spreadDiff >= cfg.excSpreadDiffPercent then Some(SpreadTooGreat)
    else if a.curBalance < OpenNeeds(cfg, initialBalance) then Some(BalanceTooLow)
    else if SymbolQty(cfg, initialBalance, a.market, a.sym) < a.sym.minQty then Some(BelowMinQty)
    else None
  }

  /** An OPEN that passes every check sends at least one legal order, and at the leverage it was sized with. */
  lemma OpenSendsOrders(symbol: string, isOpen: bool, numOpen: nat, initialBalance: real, cfg: BotConfig, a: OpenAnswer)
    requires a.Sane(symbol) && OpenRefusal(symbol, isOpen, numOpen, initialBalance, cfg, a) == None
    ensures !isOpen && SymbolQty(cfg, initialBalance, a.market, a.sym) > 0.0
    ensures BulkQtyList(SymbolQty(cfg, initialBalance, a.market, a.sym), a.sym) != []
    ensures forall o :: o in BulkQtyList(SymbolQty(cfg, initialBalance, a.market, a.sym), a.sym) ==>
      Multiple(o, a.sym.qtyStep) && a.sym.minQty <= o <= a.sym.maxQty
    ensures UsedLeverage(cfg, a.sym) == SizingLeverage(cfg, a.sym)
  {
    hide Div, SymbolQty, BulkQtyList, Multiple, Quot, Times;
    var qty := SymbolQty(cfg, initialBalance, a.market, a.sym);
    MinimumYieldsOrder(qty, a.sym);
    OrdersLegal(qty, a.sym);
  }

  /** An OPEN passes exactly when no setting that is switched on forbids it and the balance and the quantity suffice. */
  lemma OpenPassesIff(symbol: string, isOpen: bool, numOpen: nat, initialBalance: real, cfg: BotConfig, a: OpenAnswer)
    requires a.supported ==> a.market > 0.0
    ensures OpenRefusal(symbol, isOpen, numOpen, initialBalance, cfg, a) == None <==>
      && a.supported && !isOpen && !cfg.modeCloseOnly
      && (cfg.minTraderSize == -1.0 || a.traderSize >= cfg.minTraderSize)
      && (cfg.maxOpenPositions == -1 || numOpen < cfg.maxOpenPositions)
      && (cfg.openDelay == -1.0 || !a.delayActive)
      && symbol !in cfg.blacklistCoins && (cfg.whitelistCoins == [] || symbol in cfg.whitelistCoins)
      && (cfg.excSpreadDiffPercent == -1.0 || a.spreadDiff < cfg.excSpreadDiffPercent)
      && a.curBalance >= OpenNeeds(cfg, initialBalance)
      && SymbolQty(cfg, initialBalance, a.market, a.sym) >= a.sym.minQty
    ensures Abs(OpenNeeds(cfg, initialBalance) * 100.0 - Product(initialBalance, cfg.initialOpenPercent)) <= Slack(100.0)
    ensures Product(initialBalance, cfg.initialOpenPercent) == initialBalance * cfg.initialOpenPercent
  {
    DivTimesNear(Product(initialBalance, cfg.initialOpenPercent), 100.0);
    hide SymbolQty, Div, Slack;
  }

  lemma ProductBound(y: real, q: real, slack: real, d: real, x: real)
    requires d >= 0.0 && q * d == x && y <= q + slack
    ensures y * d <= x + slack * d
    ensures y <= q ==> y * d <= x
  {
    MulLe(y, q + slack, d);
    if y <= q { MulLe(y, q, d); }
  }

  lemma SlackTimes(d: real)
    ensures Slack(1.0) * d == Slack(d)
  {
  }

  /** A quotient rounded up exceeds the dividend by at most half a last place of the divisor. */
  lemma DivTimes(x: real, d: real)
    requires d > 0.0
    ensures Div(x, d) * d <= x + Slack(d)
    ensures Div(x, d) <= Quot(x, d) ==> Div(x, d) * d <= x
  {
    DivNear(x, d);
    SlackTimes(d);
    assert Quot(x, d) * d == x;
    hide Div, Quot, Slack;
    ProductBound(Div(x, d), Quot(x, d), Slack(1.0), d, x);
  }

  /** The opened percentage of the balance. */
  function OpenShare(cfg: BotConfig, initialBalance: real): real {
    Quot(cfg.initialOpenPercent, 100.0) * initialBalance
  }

  lemma MarginBound(cfg: BotConfig, initialBalance: real)
    requires initialBalance >= 0.0
    ensures OpenMargin(cfg, initialBalance) <= OpenShare(cfg, initialBalance) + Slack(initialBalance)
    ensures Div(cfg.initialOpenPercent, 100.0) <= Quot(cfg.initialOpenPercent, 100.0) ==>
      OpenMargin(cfg, initialBalance) <= OpenShare(cfg, initialBalance)
  {
    DivNear(cfg.initialOpenPercent, 100.0);
    SlackTimes(initialBalance);
    hide Div, Quot, Slack;
    ProductBound(Div(cfg.initialOpenPercent, 100.0), Quot(cfg.initialOpenPercent, 100.0), Slack(1.0),
                 initialBalance, OpenShare(cfg, initialBalance));
  }

  /** None of the divisions that size an open, or split it, rounded up. */
  predicate NoRoundingUp(cfg: BotConfig, initialBalance: real, market: real, sym: SymbolInfo)
    requires market > 0.0 && sym.Known()
  {
    && Div(cfg.initialOpenPercent, 100.0) <= Quot(cfg.initialOpenPercent, 100.0)
    && Div(OpenMargin(cfg, initialBalance), market) <= Quot(OpenMargin(cfg, initialBalance), market)
    && ExactSplit(SymbolQty(cfg, initialBalance, market, sym), sym)
  }

  /** What the open orders are worth at the mark price: the opened percentage of the balance times the leverage
      set on the exchange, up to the last places of the quotients; exactly so when none of them rounded up. */
  lemma OpenSizing(cfg: BotConfig, initialBalance: real, market: real, sym: SymbolInfo)
    requires initialBalance >= 0.0 && market > 0.0 && sym.Legal() && SizingLeverage(cfg, sym) >= 0.0
    requires SymbolQty(cfg, initialBalance, market, sym) >= 0.0
    ensures Total(BulkQtyList(SymbolQty(cfg, initialBalance, market, sym), sym)) * market
      <= (OpenShare(cfg, initialBalance) + Slack(initialBalance) + Slack(market)) * UsedLeverage(cfg, sym)
         + Slack(sym.maxQty) * market
    ensures NoRoundingUp(cfg, initialBalance, market, sym) ==>
      Total(BulkQtyList(SymbolQty(cfg, initialBalance, market, sym), sym)) * market
        <= OpenShare(cfg, initialBalance) * UsedLeverage(cfg, sym)
    ensures OpenShare(cfg, initialBalance) * 100.0 == cfg.initialOpenPercent * initialBalance
  {
    ShareExact(cfg, initialBalance);
    hide Div, Quot, BulkQtyList, ExactSplit, Slack, OpenMargin, OpenShare, Dropped, Total;
    var margin, lev, qty := OpenMargin(cfg, initialBalance), SizingLeverage(cfg, sym), SymbolQty(cfg, initialBalance, market, sym);
    assert qty == Div(margin, market) * lev && lev == UsedLeverage(cfg, sym);
    hide SymbolQty, UsedLeverage, SizingLeverage;
    MarginBound(cfg, initialBalance);
    DivTimes(margin, market);
    SplitShortfall(qty, sym);
    NeverExceedsIffExact(qty, sym);
    SizingCore(Total(BulkQtyList(qty, sym)), qty, Div(margin, market), lev, market, margin,
               OpenShare(cfg, initialBalance), Slack(initialBalance), Slack(market), Slack(sym.maxQty));
  }

  lemma ShareExact(cfg: BotConfig, initialBalance: real)
    ensures OpenShare(cfg, initialBalance) * 100.0 == cfg.initialOpenPercent * initialBalance
    ensures OpenShare(cfg, initialBalance) == cfg.initialOpenPercent / 100.0 * initialBalance
  {
    var q := Quot(cfg.initialOpenPercent, 100.0);
    assert q * 100.0 == cfg.initialOpenPercent;
    assert (q * initialBalance) * 100.0 == (q * 100.0) * initialBalance;
  }

  lemma SizingCore(total: real, qty: real, perLev: real, lev: real, market: real, margin: real, share: real,
                   slackBalance: real, slackMarket: real, slackMax: real)
    requires lev >= 0.0 && market > 0.0 && qty == perLev * lev
    requires total <= qty + slackMax && perLev * market <= margin + slackMarket && margin <= share + slackBalance
    ensures total * market <= (share + slackBalance + slackMarket) * lev + slackMax * market
    ensures total <= qty && perLev * market <= margin && margin <= share ==> total * market <= share * lev
  {
    MulLe(total, qty + slackMax, market);
    MulLe(perLev * market, share + slackBalance + slackMarket, lev);
    assert qty * market == (perLev * market) * lev;
    if total <= qty && perLev * market <= margin && margin <= share {
      MulLe(total, qty, market);
      MulLe(perLev * market, share, lev);
    }
  }

  lemma MarginNear(cfg: BotConfig, initialBalance: real)
    ensures Abs(OpenMargin(cfg, initialBalance) - OpenShare(cfg, initialBalance)) <= Slack(Abs(initialBalance))
  {
    DivNear(cfg.initialOpenPercent, 100.0);
    assert Slack(1.0) * Abs(initialBalance) == Slack(Abs(initialBalance));
    hide Div, Quot, Slack;
    ErrorTimes(Quot(cfg.initialOpenPercent, 100.0), Div(cfg.initialOpenPercent, 100.0), Slack(1.0), initialBalance);
  }

  lemma DivTimesNear(x: real, d: real)
    requires d > 0.0
    ensures Abs(Div(x, d) * d - x) <= Slack(d)
  {
    DivNear(x, d);
    SlackTimes(d);
    assert Quot(x, d) * d == x;
    hide Div, Quot, Slack;
    QuotientError(Quot(x, d), Div(x, d), Slack(1.0), x, d);
  }

  lemma QuotientError(q: real, rounded: real, slack: real, x: real, d: real)
    requires d > 0.0 && q * d == x && q - slack <= rounded <= q + slack
    ensures Abs(rounded * d - x) <= slack * d
  {
    assert (rounded - q) * d == rounded * d - x;
    MulLe(rounded - q, slack, d);
    MulLe(-slack, rounded - q, d);
  }

  lemma Reordered(qty: real, perLev: real, lev: real, market: real, worth: real)
    requires qty == perLev * lev && worth == perLev * market
    ensures Product(qty, market) == Product(worth, lev)
  {
    assert qty * market == (perLev * market) * lev;
  }

  lemma ProductNear(qty: real, perLev: real, lev: real, market: real, margin: real, share: real, slack: real, slackMarket: real)
    requires qty == perLev * lev && Abs(perLev * market - margin) <= slackMarket && Abs(margin - share) <= slack
    ensures Abs(Product(qty, market) - Product(share, lev)) <= Product(slack + slackMarket, Abs(lev))
  {
    var worth := perLev * market;
    Reordered(qty, perLev, lev, market, worth);
    ErrorTimes(share, worth, slack + slackMarket, lev);
    assert Abs(Product(worth, lev) - Product(share, lev)) <= Product(slack + slackMarket, Abs(lev));
    hide Product, Abs;
  }

  /** An open is sized neither too large nor too small: at the mark price its quantity is worth the opened percentage of
      the balance times the smaller of the leverage wanted and the one allowed, up to the last places of two quotients. */
  lemma SizedAt(cfg: BotConfig, initialBalance: real, market: real, sym: SymbolInfo)
    requires market > 0.0
    ensures OpenShare(cfg, initialBalance) * 100.0 == cfg.initialOpenPercent * initialBalance
    ensures var lev := if cfg.leverage <= sym.maxLeverage then cfg.leverage else sym.maxLeverage;
      && SizingLeverage(cfg, sym) == UsedLeverage(cfg, sym) == lev
      && Abs(Product(SymbolQty(cfg, initialBalance, market, sym), market) - Product(OpenShare(cfg, initialBalance), lev))
         <= Product(Slack(Abs(initialBalance)) + Slack(market), Abs(lev))
  {
    ShareExact(cfg, initialBalance);
    hide Div, Slack, OpenMargin, OpenShare, Product;
    var margin, lev := OpenMargin(cfg, initialBalance), SizingLeverage(cfg, sym);
    assert SymbolQty(cfg, initialBalance, market, sym) == Div(margin, market) * lev;
    hide SymbolQty;
    MarginNear(cfg, initialBalance);
    DivTimesNear(margin, market);
    var qty := SymbolQty(cfg, initialBalance, market, sym);
    ProductNear(qty, Div(margin, market), lev, market, margin, OpenShare(cfg, initialBalance), Slack(Abs(initialBalance)), Slack(market));
  }

  /** So what is ordered is worth that, less what the split drops. */
  lemma OpenSizingBelow(cfg: BotConfig, initialBalance: real, market: real, sym: SymbolInfo)
    requires market > 0.0 && sym.Legal() && SymbolQty(cfg, initialBalance, market, sym) >= 0.0
    ensures OpenShare(cfg, initialBalance) * 100.0 == cfg.initialOpenPercent * initialBalance
    ensures var qty := SymbolQty(cfg, initialBalance, market, sym);
      var shortfall := if Dropped(qty, sym) then sym.minQty else sym.qtyStep;
      Product(Total(BulkQtyList(qty, sym)) + shortfall, market)
      > Product(OpenShare(cfg, initialBalance), UsedLeverage(cfg, sym))
        - Product(Slack(Abs(initialBalance)) + Slack(market), Abs(UsedLeverage(cfg, sym)))
  {
    hide SymbolQty, BulkQtyList, Total, Dropped, Slack, Multiple, OpenShare, UsedLeverage, SizingLeverage, Product;
    var qty := SymbolQty(cfg, initialBalance, market, sym);
    SizedAt(cfg, initialBalance, market, sym);
    SplitShortfall(qty, sym);
    var shortfall := if Dropped(qty, sym) then sym.minQty else sym.qtyStep;
    ProductLess(qty, Total(BulkQtyList(qty, sym)) + shortfall, market);
  }

  lemma ProductLess(x: real, y: real, market: real)
    requires market > 0.0 && x < y
    ensures Product(x, market) < Product(y, market)
  {
    MulLt(x, y, market);
  }

  lemma {:induction false} TotalMultiple(orders: seq<real>, step: real)
    requires step > 0.0 && forall o :: o in orders ==> Multiple(o, step)
    ensures Multiple(Total(orders), step)
  {
    hide Times, Whole;
    if orders == [] {
      IsMultiple(0, step);
      TimesAlgebra(0, 0, step);
    } else {
      var init, last := orders[..|orders| - 1], orders[|orders| - 1];
      assert last in orders && forall o :: o in init ==> o in orders;
      TotalMultiple(init, step);
      TimesAlgebra(Whole(Total(init), step), Whole(last, step), step);
      IsMultiple(Whole(Total(init), step) + Whole(last, step), step);
    }
  }

  /** A whole number of steps of a unit price is a whole number of units. */
  lemma WorthOnGrid(total: real, step: real, market: real, w: real)
    requires Multiple(total, step) && Multiple(Worth(step, market), w)
    ensures Multiple(Worth(total, market), w)
  {
    var j, k := Whole(total, step), Whole(Worth(step, market), w);
    assert Worth(total, market) == Times(j, Worth(step, market));
    hide Times, Whole, Worth;
    TimesAlgebra(j, k, w);
    IsMultiple(j * k, w);
  }

  /** Two amounts on a grid are ordered if the first is less than a unit above the second. */
  lemma GridOrdered(a: real, b: real, w: real)
    requires Multiple(a, w) && Multiple(b, w) && a < b + w
    ensures a <= b
  {
    hide Times, Whole;
    TimesAlgebra(Whole(b, w), 1, w);
    TimesMonotone(Whole(b, w) + 1, Whole(a, w), w);
    TimesMonotone(Whole(a, w), Whole(b, w), w);
  }

  /** A percent of at most 14 fractional digits is divided by 100 without rounding. */
  lemma PercentExact(cfg: BotConfig, initialBalance: real)
    requires Multiple(cfg.initialOpenPercent, 0.00000000000001)
    ensures OpenMargin(cfg, initialBalance) == OpenShare(cfg, initialBalance)
  {
    var k := Whole(cfg.initialOpenPercent, 0.00000000000001);
    assert Quot(cfg.initialOpenPercent, 100.0) * 10_000_000_000_000_000.0 == k as real;
    RoundNear(k as real);
    hide RoundHalfAway, Quot, Times;
  }

  /** On a grid of money, such as cents, whose unit is more than the last places of the quotients can add up to, the
      orders are worth no more at the mark price than the margin times the leverage set on the exchange; and for a
      percent of at most 14 fractional digits the margin is the opened percentage of the balance. */
  lemma OpenSizingOnGrid(cfg: BotConfig, initialBalance: real, market: real, sym: SymbolInfo, w: real)
    requires market > 0.0 && sym.Legal() && SizingLeverage(cfg, sym) >= 0.0
    requires SymbolQty(cfg, initialBalance, market, sym) >= 0.0
    requires Multiple(Worth(sym.qtyStep, market), w) && Multiple(Worth(OpenMargin(cfg, initialBalance), UsedLeverage(cfg, sym)), w)
    requires Worth(Slack(market), UsedLeverage(cfg, sym)) + Worth(Slack(sym.maxQty), market) < w
    ensures Worth(Total(BulkQtyList(SymbolQty(cfg, initialBalance, market, sym), sym)), market)
      <= Worth(OpenMargin(cfg, initialBalance), UsedLeverage(cfg, sym))
    ensures Multiple(cfg.initialOpenPercent, 0.00000000000001) ==> OpenMargin(cfg, initialBalance) == OpenShare(cfg, initialBalance)
  {
    hide Div, Quot, BulkQtyList, Slack, OpenMargin, OpenShare, Dropped, Total, Multiple, Worth;
    var margin, lev, qty := OpenMargin(cfg, initialBalance), SizingLeverage(cfg, sym), SymbolQty(cfg, initialBalance, market, sym);
    assert qty == Div(margin, market) * lev && lev == UsedLeverage(cfg, sym);
    hide SymbolQty, UsedLeverage, SizingLeverage;
    if Multiple(cfg.initialOpenPercent, 0.00000000000001) { PercentExact(cfg, initialBalance); }
    DivTimes(margin, market);
    SplitShortfall(qty, sym);
    OrdersLegal(qty, sym);
    var total := Total(BulkQtyList(qty, sym));
    WorthBound(total, qty, Div(margin, market), lev, market, margin, Slack(market), Slack(sym.maxQty));
    TotalMultiple(BulkQtyList(qty, sym), sym.qtyStep);
    WorthOnGrid(total, sym.qtyStep, market, w);
    GridOrdered(Worth(total, market), Worth(margin, lev), w);
  }

  lemma WorthBound(total: real, qty: real, perLev: real, lev: real, market: real, margin: real, slackMarket: real, slackMax: real)
    requires lev >= 0.0 && market > 0.0 && qty == perLev * lev
    requires total <= qty + slackMax && perLev * market <= margin + slackMarket
    ensures Worth(total, market) <= Worth(margin, lev) + Worth(slackMarket, lev) + Worth(slackMax, market)
  {
    SizingCore(total, qty, perLev, lev, market, margin, margin, 0.0, slackMarket, slackMax);
  }

  /** Rounding up can cost a last place: all of a balance of 2, at price 3 and with steps of 10^-16, buys for more than 2. */
  lemma SizingCanExceed()
    ensures exists cfg: BotConfig, sym: SymbolInfo ::
      sym.Legal() && SymbolQty(cfg, 2.0, 3.0, sym) >= 0.0
      && Total(BulkQtyList(SymbolQty(cfg, 2.0, 3.0, sym), sym)) * 3.0 > OpenShare(cfg, 2.0) * UsedLeverage(cfg, sym)
  {
    FineAmounts();
    FinestSplit(FINE);
    hide SymbolQty, BulkQtyList, Total, OpenShare, Multiple;
    assert Total(BulkQtyList(SymbolQty(ALL_IN, 2.0, 3.0, FINE), FINE)) * 3.0 > OpenShare(ALL_IN, 2.0) * UsedLeverage(ALL_IN, FINE);
  }

  const ALL_IN := BotConfig(1.0, 100.0, -1.0, -1.0, -1.0, -1.0, -1.0, -1.0, -1.0, -1.0, -1, [], [], false, false, false, false, false)
  const FINE := SymbolInfo(1.0, FINEST, FINEST, 1.0, 1.0)

  lemma FineAmounts()
    ensures SymbolQty(ALL_IN, 2.0, 3.0, FINE) == 0.6666666666666667
    ensures OpenShare(ALL_IN, 2.0) == 2.0 && UsedLeverage(ALL_IN, FINE) == 1.0
  {
    assert OpenMargin(ALL_IN, 2.0) == 2.0;
    assert Div(2.0, 3.0) == 0.6666666666666667;
  }

  const FINEST := 0.0000000000000001

  lemma FinestSplit(sym: SymbolInfo)
    requires sym == SymbolInfo(1.0, FINEST, FINEST, 1.0, 1.0)
    ensures sym.Legal()
    ensures Total(BulkQtyList(0.6666666666666667, sym)) == 0.6666666666666667
  {
    var n, qty := 6_666_666_666_666_667, 0.6666666666666667;
    IsMultiple(1, FINEST);
    IsMultiple(SCALE, FINEST);
    assert Times(1, FINEST) == FINEST && Times(SCALE, FINEST) == 1.0 && Times(n, FINEST) == qty;
    DivExact(n, FINEST);
    assert Div(qty, 1.0) == qty;
    assert NumMax(qty, sym) == 0;
    assert Remainder(qty, sym) == qty by { TimesAlgebra(0, 0, 1.0); }
    SplitTotal(qty, sym);
    hide Div, Quot, Times, FloorDiv, BulkQtyList, Total, NumMax;
    TimesAlgebra(0, 0, 1.0);
  }

  // ------------------------------------------------------------------
  // Changing
  // ------------------------------------------------------------------

  datatype ChangeAnswer = ChangeAnswer(
    config: Option<BotConfig>, market: real, sym: SymbolInfo, tooRecent: bool,
    position: Option<BotPosition>, deletedMeanwhile: bool)
  {
    /** A market price of zero is what is read where the price request failed, or the symbol is not supported. */
    predicate Sane() { market >= 0.0 && sym.Legal() }
  }

  /** `BelowMin` and `NotAllowed` place nothing; `Crashes` is a division by zero, which the dispatcher recovers from. */
  datatype ChangeDecision =
    | BelowMin | NotAllowed | Crashes
    | Place(qty: real, reduceOnly: bool, tpsl: TPSL)

  function TraderRatio(upd: Update): real
    requires upd.oldBinQty != 0.0
  {
    upd.binQty / upd.oldBinQty
  }

  /** The trader's ratio, capped for increases only. */
  function UsedRatio(upd: Update, cfg: BotConfig): real
    requires upd.oldBinQty != 0.0
  {
    if SettingEnabled(cfg.maxAddMultiplier) && upd.IsIncrease() && TraderRatio(upd) > cfg.maxAddMultiplier
    then cfg.maxAddMultiplier else TraderRatio(upd)
  }

  function Target(pos: BotPosition, upd: Update, cfg: BotConfig): real
    requires upd.oldBinQty != 0.0
  {
    pos.qty * UsedRatio(upd, cfg)
  }

  /** The max add multiplier cuts this increase. */
  predicate Cut(upd: Update, cfg: BotConfig) {
    cfg.maxAddMultiplier != -1.0 && upd.binQty > upd.oldBinQty && upd.binQty > cfg.maxAddMultiplier * upd.oldBinQty
  }

  /** The target is to what is held as the trader's new quantity is to his old one, or as the multiplier where that cuts. */
  predicate Proportional(target: real, held: real, upd: Update, cfg: BotConfig) {
    if Cut(upd, cfg) then target == held * cfg.maxAddMultiplier else target * upd.oldBinQty == held * upd.binQty
  }

  function Worth(qty: real, price: real): real { qty * price }

  function MaxWorth(initialBalance: real, cfg: BotConfig): real {
    Div(Product(initialBalance, cfg.oneCoinMaxPercent), 100.0)
  }

  predicate TooLarge(orderQty: real, pos: BotPosition, market: real, initialBalance: real, cfg: BotConfig)
    requires pos.leverage != 0.0
  {
    Div(Worth(orderQty + pos.qty, market), pos.leverage) > MaxWorth(initialBalance, cfg)
  }

  /** The average entry after an increase. */
  function AverageEntry(pos: BotPosition, orderQty: real, market: real): real
    requires pos.qty + orderQty != 0.0
  {
    Div(Product(pos.qty, pos.entry) + Product(orderQty, market), pos.qty + orderQty)
  }

  /** The guards of an increase, once its quantity is known. */
  function AddDecision(orderQty: real, pos: BotPosition, side: Side, initialBalance: real, cfg: BotConfig, a: ChangeAnswer): ChangeDecision
    requires a.Sane()
  {
    if a.tooRecent then NotAllowed
    else if SettingEnabled(cfg.addPreventionPercent) && a.market == 0.0 then Crashes
    else if SettingEnabled(cfg.addPreventionPercent)
      && Abs(Div(a.market - pos.entry, a.market) * 100.0) < cfg.addPreventionPercent then NotAllowed
    else if cfg.blockAddsAboveEntry && (if side == Buy then a.market > pos.entry else a.market < pos.entry) then NotAllowed
    else if SettingEnabled(cfg.oneCoinMaxPercent) && pos.leverage == 0.0 then Crashes
    else if SettingEnabled(cfg.oneCoinMaxPercent) && TooLarge(orderQty, pos, a.market, initialBalance, cfg) then NotAllowed
    else if pos.qty + orderQty == 0.0 then Crashes
    else Place(orderQty, false, GetTPSL(side, AverageEntry(pos, orderQty, a.market), cfg.autoTP, cfg.autoSL, a.sym.priceStep))
  }

  /** changePosition from the looked-up position on. */
  function DecideChange(pos: BotPosition, upd: Update, side: Side, initialBalance: real, cfg: BotConfig, a: ChangeAnswer): ChangeDecision
    requires a.Sane()
  {
    if upd.oldBinQty == 0.0 then Crashes
    else
      var orderQty := Abs(Target(pos, upd, cfg) - pos.qty);
      if orderQty < a.sym.minQty then BelowMin
      else if upd.IsIncrease() then AddDecision(orderQty, pos, side, initialBalance, cfg, a)
      else Place(if pos.qty - orderQty < 0.0 then pos.qty else orderQty, true, TPSL(None, None))
  }

  /** How far the price must be from the entry for an increase, up to a last place of the percentage. */
  lemma PreventionMeans(market: real, entry: real, percent: real)
    requires market > 0.0
    ensures Abs(Div(market - entry, market) * 100.0) < percent ==>
      Abs(market - entry) * 100.0 < (percent + Slack(100.0)) * market
    ensures Abs(Div(market - entry, market) * 100.0) >= percent ==>
      Abs(market - entry) * 100.0 >= (percent - Slack(100.0)) * market
  {
    DivNear(market - entry, market);
    assert Slack(100.0) == 100.0 * Slack(1.0);
    var q := Quot(market - entry, market);
    assert q * market == market - entry;
    hide Div, Quot, Slack;
    DistanceCore(q, Div(market - entry, market), Slack(1.0), market, market - entry, percent);
  }

  lemma DistanceCore(q: real, d: real, slack: real, market: real, gap: real, percent: real)
    requires market > 0.0 && q * market == gap && q - slack <= d <= q + slack
    ensures Abs(d * 100.0) < percent ==> Abs(gap) * 100.0 < (percent + 100.0 * slack) * market
    ensures Abs(d * 100.0) >= percent ==> Abs(gap) * 100.0 >= (percent - 100.0 * slack) * market
  {
    var m := Abs(q) * 100.0;
    assert Abs(gap) == Abs(q) * market by {
      if q < 0.0 { MulLt(q, 0.0, market); } else { MulLe(0.0, q, market); }
    }
    assert m * market == Abs(gap) * 100.0;
    if Abs(d * 100.0) < percent {
      MulLt(m, percent + 100.0 * slack, market);
    } else {
      MulLe(percent - 100.0 * slack, m, market);
    }
  }

  /** The cap on one coin, multiplied out: what would be held at this price against the percentage of the balance times the
      leverage, up to the last places of the two quotients compared. */
  lemma TooLargeMeans(orderQty: real, pos: BotPosition, market: real, initialBalance: real, cfg: BotConfig)
    requires pos.leverage > 0.0
    ensures TooLarge(orderQty, pos, market, initialBalance, cfg) ==>
      Worth(orderQty + pos.qty, market) * 100.0 > (Product(initialBalance, cfg.oneCoinMaxPercent) - Slack(200.0)) * pos.leverage
    ensures !TooLarge(orderQty, pos, market, initialBalance, cfg) ==>
      Worth(orderQty + pos.qty, market) * 100.0 <= (Product(initialBalance, cfg.oneCoinMaxPercent) + Slack(200.0)) * pos.leverage
    ensures Worth(orderQty + pos.qty, market) == (orderQty + pos.qty) * market
    ensures Product(initialBalance, cfg.oneCoinMaxPercent) == initialBalance * cfg.oneCoinMaxPercent
  {
    hide Div, Slack;
    var worth, cap := Worth(orderQty + pos.qty, market), Product(initialBalance, cfg.oneCoinMaxPercent);
    assert worth == (orderQty + pos.qty) * market && cap == initialBalance * cfg.oneCoinMaxPercent;
    hide Worth, Product;
    WorthAgainst(worth, cap, pos.leverage);
  }

  lemma WorthAgainst(worth: real, cap: real, leverage: real)
    requires leverage > 0.0
    ensures Div(worth, leverage) > Div(cap, 100.0) ==> worth * 100.0 > (cap - Slack(200.0)) * leverage
    ensures Div(worth, leverage) <= Div(cap, 100.0) ==> worth * 100.0 <= (cap + Slack(200.0)) * leverage
  {
    var q, most := Quot(worth, leverage), Quot(cap, 100.0);
    assert q * leverage == worth && most * 100.0 == cap;
    DivNear(worth, leverage);
    DivNear(cap, 100.0);
    assert Slack(200.0) == 200.0 * Slack(1.0);
    hide Div, Quot, Slack;
    CapCore(q, Div(worth, leverage), most, Div(cap, 100.0), Slack(1.0), leverage, worth, cap);
  }

  lemma CapCore(q: real, d: real, most: real, allowed: real, slack: real, leverage: real, worth: real, cap: real)
    requires leverage > 0.0 && q * leverage == worth && most * 100.0 == cap
    requires q - slack <= d <= q + slack && most - slack <= allowed <= most + slack
    ensures d > allowed ==> worth * 100.0 > (cap - 200.0 * slack) * leverage
    ensures d <= allowed ==> worth * 100.0 <= (cap + 200.0 * slack) * leverage
  {
    var m := q * 100.0;
    assert m * leverage == worth * 100.0;
    if d > allowed {
      MulLt(cap - 200.0 * slack, m, leverage);
    } else {
      MulLe(m, cap + 200.0 * slack, leverage);
    }
  }

  /** Exactly when an increase goes out: it is not too soon after the last, the price is known and far enough from the entry
      where add prevention is on, on the right side of it where adds above entry are blocked, and within the cap. */
  lemma AddPlacedIff(orderQty: real, pos: BotPosition, side: Side, initialBalance: real, cfg: BotConfig, a: ChangeAnswer)
    requires a.Sane()
    ensures var d := AddDecision(orderQty, pos, side, initialBalance, cfg, a);
      && !d.BelowMin? && (d.Place? ==> d.qty == orderQty && !d.reduceOnly)
      && (d.Place? <==>
            && !a.tooRecent
            && (cfg.addPreventionPercent != -1.0 ==>
                  a.market != 0.0 && Abs(Div(a.market - pos.entry, a.market) * 100.0) >= cfg.addPreventionPercent)
            && (cfg.blockAddsAboveEntry ==> if side == Buy then a.market <= pos.entry else a.market >= pos.entry)
            && (cfg.oneCoinMaxPercent != -1.0 ==> pos.leverage != 0.0 && !TooLarge(orderQty, pos, a.market, initialBalance, cfg))
            && pos.qty + orderQty != 0.0)
      && (d.Crashes? && pos.leverage != 0.0 && pos.qty + orderQty != 0.0 ==> cfg.addPreventionPercent != -1.0 && a.market == 0.0 && !a.tooRecent)
  {
    hide Div, TooLarge, GetTPSL, Multiple;
  }

  /** The limits of an increase start from the average entry, weighted by quantity, up to a last place. */
  lemma AddLimits(orderQty: real, pos: BotPosition, side: Side, initialBalance: real, cfg: BotConfig, a: ChangeAnswer) returns (entry: real)
    requires a.Sane() && pos.qty + orderQty > 0.0 && AddDecision(orderQty, pos, side, initialBalance, cfg, a).Place?
    ensures Abs(entry * (pos.qty + orderQty) - (Product(pos.qty, pos.entry) + Product(orderQty, a.market))) <= Slack(pos.qty + orderQty)
    ensures Product(pos.qty, pos.entry) == pos.qty * pos.entry && Product(orderQty, a.market) == orderQty * a.market
    ensures var d := AddDecision(orderQty, pos, side, initialBalance, cfg, a);
      && (d.tpsl.tp.Some? <==> cfg.autoTP != -1.0) && (d.tpsl.sl.Some? <==> cfg.autoSL != -1.0)
      && (d.tpsl.tp.Some? ==> d.tpsl.tp.value == LimitPrice(side, entry, cfg.autoTP, TakeProfit, a.sym.priceStep))
      && (d.tpsl.sl.Some? ==> d.tpsl.sl.value == LimitPrice(side, entry, cfg.autoSL, StopLoss, a.sym.priceStep))
  {
    hide Div, TooLarge, LimitPrice, Multiple, Slack, Product, AverageEntry;
    entry := AverageEntry(pos, orderQty, a.market);
    AverageNear(pos, orderQty, a.market);
    hide AddDecision;
  }

  lemma AverageNear(pos: BotPosition, orderQty: real, market: real)
    requires pos.qty + orderQty > 0.0
    ensures Abs(AverageEntry(pos, orderQty, market) * (pos.qty + orderQty) - (Product(pos.qty, pos.entry) + Product(orderQty, market)))
      <= Slack(pos.qty + orderQty)
    ensures Product(pos.qty, pos.entry) == pos.qty * pos.entry && Product(orderQty, market) == orderQty * market
  {
    var sum := Product(pos.qty, pos.entry) + Product(orderQty, market);
    assert Product(pos.qty, pos.entry) == pos.qty * pos.entry && Product(orderQty, market) == orderQty * market;
    hide Product, Div, Slack;
    DivTimesNear(sum, pos.qty + orderQty);
  }

  /** The held quantity once the placed orders have filled; a reduce-only fill stops at zero. */
  function Filled(qty: real, d: ChangeDecision, sym: SymbolInfo): real
    requires sym.Known() && (d.Place? ==> d.qty >= 0.0)
  {
    if !d.Place? then qty
    else
      var total := Total(BulkQtyList(d.qty, sym));
      if !d.reduceOnly then qty + total
      else qty - (if total < qty then total else qty)
  }

  /** A CHANGE between reported quantities: the old one positive, the new one not negative. */
  predicate Reported(upd: Update) { upd.kind == ChangeLS && upd.oldBinQty > 0.0 && upd.binQty >= 0.0 }

  lemma RatioBounds(upd: Update)
    requires Reported(upd)
    ensures TraderRatio(upd) >= 0.0
    ensures upd.IsIncrease() <==> TraderRatio(upd) > 1.0
  {
    assert TraderRatio(upd) * upd.oldBinQty == upd.binQty;
    hide TraderRatio;
    RatioCore(TraderRatio(upd), upd.binQty, upd.oldBinQty);
  }

  lemma RatioCore(r: real, now: real, was: real)
    requires was > 0.0 && now >= 0.0 && r * was == now
    ensures r >= 0.0 && (now > was <==> r > 1.0)
  {
    if r < 0.0 { MulLt(r, 0.0, was); }
    if r <= 1.0 { MulLe(r, 1.0, was); } else { MulLt(1.0, r, was); }
  }

  /** What a CHANGE aims at, in quantities: the bot's position follows the trader's in proportion, increase or decrease,
      except that an increase is cut to the max add multiplier where that is switched on and the trader exceeds it. */
  lemma TargetExact(pos: BotPosition, upd: Update, cfg: BotConfig)
    requires Reported(upd)
    ensures var cut := cfg.maxAddMultiplier != -1.0 && upd.binQty > upd.oldBinQty && upd.binQty > cfg.maxAddMultiplier * upd.oldBinQty;
      if cut then Target(pos, upd, cfg) == pos.qty * cfg.maxAddMultiplier
      else Target(pos, upd, cfg) * upd.oldBinQty == pos.qty * upd.binQty
    ensures Proportional(Target(pos, upd, cfg), pos.qty, upd, cfg)
    ensures !Cut(upd, cfg) ==> Target(pos, upd, cfg) * upd.oldBinQty == pos.qty * upd.binQty
  {
    var r, cap := TraderRatio(upd), cfg.maxAddMultiplier;
    assert r * upd.oldBinQty == upd.binQty;
    hide TraderRatio;
    if r <= cap { MulLe(r, cap, upd.oldBinQty); } else { MulLt(cap, r, upd.oldBinQty); }
    assert (pos.qty * r) * upd.oldBinQty == pos.qty * (r * upd.oldBinQty);
  }

  lemma UncutRatio(upd: Update, cfg: BotConfig)
    requires Reported(upd) && !Cut(upd, cfg)
    ensures UsedRatio(upd, cfg) == TraderRatio(upd)
  {
    var r, cap := TraderRatio(upd), cfg.maxAddMultiplier;
    assert r * upd.oldBinQty == upd.binQty;
    hide TraderRatio;
    if r > cap { MulLt(cap, r, upd.oldBinQty); }
  }

  predicate CapSensible(cfg: BotConfig) { SettingEnabled(cfg.maxAddMultiplier) ==> cfg.maxAddMultiplier >= 1.0 }

  function AddCap(pos: BotPosition, cfg: BotConfig): real { pos.qty * cfg.maxAddMultiplier }

  /** On which side of the held quantity the target lies. */
  lemma TargetSide(pos: BotPosition, upd: Update, cfg: BotConfig)
    requires Reported(upd) && pos.qty >= 0.0
    ensures !upd.IsIncrease() ==> 0.0 <= Target(pos, upd, cfg) <= pos.qty
    ensures upd.IsIncrease() && CapSensible(cfg) ==> pos.qty <= Target(pos, upd, cfg)
    ensures upd.IsIncrease() && CapSensible(cfg) && SettingEnabled(cfg.maxAddMultiplier) ==>
      Target(pos, upd, cfg) <= AddCap(pos, cfg)
  {
    RatioBounds(upd);
    var r := UsedRatio(upd, cfg);
    hide TraderRatio;
    if !upd.IsIncrease() {
      MulLe(0.0, r, pos.qty);
      MulLe(r, 1.0, pos.qty);
    } else if CapSensible(cfg) {
      MulLe(1.0, r, pos.qty);
      if SettingEnabled(cfg.maxAddMultiplier) { MulLe(r, cfg.maxAddMultiplier, pos.qty); }
    }
  }

  /** What a placed CHANGE order is: the distance to the target, so the clamp to the held quantity never binds. */
  lemma PlacedQty(pos: BotPosition, upd: Update, side: Side, initialBalance: real, cfg: BotConfig, a: ChangeAnswer)
    requires a.Sane() && Reported(upd) && pos.qty >= 0.0
    ensures var d := DecideChange(pos, upd, side, initialBalance, cfg, a);
      d.Place? ==>
        && d.qty == Abs(Target(pos, upd, cfg) - pos.qty) >= a.sym.minQty
        && d.reduceOnly == !upd.IsIncrease() == (upd.binQty <= upd.oldBinQty)
        && (d.reduceOnly ==> d.qty == pos.qty - Target(pos, upd, cfg) <= pos.qty && d.tpsl == TPSL(None, None))
    ensures Proportional(Target(pos, upd, cfg), pos.qty, upd, cfg)
  {
    TargetSide(pos, upd, cfg);
    TargetExact(pos, upd, cfg);
    hide Target, Div, GetTPSL, Multiple, Proportional, UsedRatio, TraderRatio;
  }

  /** Whether a CHANGE is too small to order is decided by its distance to the target; a decrease that is not goes out. */
  lemma ChangeTooSmallIff(pos: BotPosition, upd: Update, side: Side, initialBalance: real, cfg: BotConfig, a: ChangeAnswer)
    requires a.Sane() && Reported(upd)
    ensures var d := DecideChange(pos, upd, side, initialBalance, cfg, a);
      && (d.BelowMin? <==> Abs(Target(pos, upd, cfg) - pos.qty) < a.sym.minQty)
      && (upd.binQty <= upd.oldBinQty ==> d.BelowMin? || d.Place?)
    ensures Proportional(Target(pos, upd, cfg), pos.qty, upd, cfg)
  {
    TargetExact(pos, upd, cfg);
    AddPlacedIff(Abs(Target(pos, upd, cfg) - pos.qty), pos, side, initialBalance, cfg, a);
    hide Target, AddDecision, Multiple, Proportional;
  }

  /** With a max add multiplier below 1 an increase aims below what is held. */
  lemma CutTarget(pos: BotPosition, upd: Update, cfg: BotConfig)
    requires Reported(upd) && pos.qty >= 0.0 && upd.IsIncrease() && !CapSensible(cfg)
    ensures Target(pos, upd, cfg) <= pos.qty
  {
    RatioBounds(upd);
    MulLe(cfg.maxAddMultiplier, 1.0, pos.qty);
    hide TraderRatio;
  }

  /** Placed orders move the held quantity towards the target and to within max(minQty, qtyStep) of it, past it by no
      more than a last place of maxQty, and not past it where the split is exact, see Orders. The one exception is an
      increase under a max add multiplier below 1, which moves away. Reduce-only orders total at most what is held. */
  lemma ChangeStepBounds(pos: BotPosition, upd: Update, side: Side, initialBalance: real, cfg: BotConfig, a: ChangeAnswer)
    requires a.Sane() && Reported(upd) && pos.qty >= 0.0
    requires DecideChange(pos, upd, side, initialBalance, cfg, a).Place?
    ensures var d := DecideChange(pos, upd, side, initialBalance, cfg, a);
      var target := Target(pos, upd, cfg);
      && Proportional(target, pos.qty, upd, cfg)
      && d.qty >= 0.0 && BulkQtyList(d.qty, a.sym) != []
      && var filled := Filled(pos.qty, d, a.sym);
         && (upd.IsIncrease() ==> pos.qty < filled)
         && (upd.IsIncrease() && CapSensible(cfg) ==> target - Max(a.sym.minQty, a.sym.qtyStep) < filled <= target + Slack(a.sym.maxQty))
         && (!upd.IsIncrease() ==> target - Slack(a.sym.maxQty) <= filled < target + Max(a.sym.minQty, a.sym.qtyStep))
         && (!upd.IsIncrease() ==> filled <= pos.qty && Total(BulkQtyList(d.qty, a.sym)) <= pos.qty + Slack(a.sym.maxQty))
    ensures ExactSplit(Abs(Target(pos, upd, cfg) - pos.qty), a.sym) ==>
      var d := DecideChange(pos, upd, side, initialBalance, cfg, a);
      if upd.IsIncrease() then Filled(pos.qty, d, a.sym) <= Target(pos, upd, cfg) <==> CapSensible(cfg)
      else Target(pos, upd, cfg) <= Filled(pos.qty, d, a.sym) && Total(BulkQtyList(d.qty, a.sym)) <= pos.qty
  {
    hide Target, DecideChange, BulkQtyList, ExactSplit, Total, Multiple, Slack, Dropped, TraderRatio, UsedRatio, Proportional;
    PlacedQty(pos, upd, side, initialBalance, cfg, a);
    TargetSide(pos, upd, cfg);
    if upd.IsIncrease() && !CapSensible(cfg) {
      CutTarget(pos, upd, cfg);
    }
    var d := DecideChange(pos, upd, side, initialBalance, cfg, a);
    SplitShortfall(d.qty, a.sym);
    NeverExceedsIffExact(d.qty, a.sym);
    MinimumYieldsOrder(d.qty, a.sym);
    SomeTotal(d.qty, a.sym);
  }

  function Max(x: real, y: real): real { if x < y then y else x }

  lemma {:induction false} TotalNonNegative(orders: seq<real>, low: real)
    requires low > 0.0 && forall o :: o in orders ==> o >= low
    ensures Total(orders) >= 0.0
    ensures orders != [] ==> Total(orders) >= low
  {
    if orders != [] {
      var init := orders[..|orders| - 1];
      assert orders[|orders| - 1] in orders;
      assert forall o :: o in init ==> o in orders;
      TotalNonNegative(init, low);
    }
  }

  lemma SomeTotal(qty: real, sym: SymbolInfo)
    requires sym.Legal() && qty >= 0.0
    ensures Total(BulkQtyList(qty, sym)) >= 0.0
    ensures qty >= sym.minQty ==> Total(BulkQtyList(qty, sym)) >= sym.minQty
  {
    OrdersLegal(qty, sym);
    if qty >= sym.minQty { MinimumYieldsOrder(qty, sym); }
    hide BulkQtyList, Multiple;
    TotalNonNegative(BulkQtyList(qty, sym), sym.minQty);
  }

  lemma IncreaseFilled(pos: BotPosition, upd: Update, side: Side, initialBalance: real, cfg: BotConfig, a: ChangeAnswer)
    requires a.Sane() && Reported(upd) && pos.qty >= 0.0 && upd.IsIncrease()
    requires DecideChange(pos, upd, side, initialBalance, cfg, a).Place?
    ensures var d := DecideChange(pos, upd, side, initialBalance, cfg, a);
      && d.qty == Abs(Target(pos, upd, cfg) - pos.qty)
      && pos.qty < Filled(pos.qty, d, a.sym) <= pos.qty + d.qty + Slack(a.sym.maxQty)
      && (ExactSplit(d.qty, a.sym) ==> Filled(pos.qty, d, a.sym) <= pos.qty + d.qty)
  {
    hide Target, DecideChange, BulkQtyList, ExactSplit, Total, Multiple, Slack, Dropped;
    PlacedQty(pos, upd, side, initialBalance, cfg, a);
    var d := DecideChange(pos, upd, side, initialBalance, cfg, a);
    SplitShortfall(d.qty, a.sym);
    NeverExceedsIffExact(d.qty, a.sym);
    SomeTotal(d.qty, a.sym);
  }

  /** The cap on adding holds after the split, up to a last place of maxQty, when the setting is at least 1, and never
      when it is below: then the "capped" order still adds, by the distance to a target lower than what is held. */
  lemma MaxAddMultiplierHolds(pos: BotPosition, upd: Update, side: Side, initialBalance: real, cfg: BotConfig, a: ChangeAnswer)
    requires a.Sane() && Reported(upd) && pos.qty >= 0.0 && upd.IsIncrease() && SettingEnabled(cfg.maxAddMultiplier)
    requires DecideChange(pos, upd, side, initialBalance, cfg, a).Place?
    ensures DecideChange(pos, upd, side, initialBalance, cfg, a).qty >= 0.0
    ensures var filled := Filled(pos.qty, DecideChange(pos, upd, side, initialBalance, cfg, a), a.sym);
      if cfg.maxAddMultiplier >= 1.0 then filled <= AddCap(pos, cfg) + Slack(a.sym.maxQty) else filled > AddCap(pos, cfg)
    ensures ExactSplit(Abs(Target(pos, upd, cfg) - pos.qty), a.sym) ==>
      (Filled(pos.qty, DecideChange(pos, upd, side, initialBalance, cfg, a), a.sym) <= AddCap(pos, cfg) <==> cfg.maxAddMultiplier >= 1.0)
  {
    CapBelowOne(pos, cfg);
    hide Target, AddCap, UsedRatio, ExactSplit, Filled, TraderRatio, Multiple, DecideChange, Slack;
    IncreaseFilled(pos, upd, side, initialBalance, cfg, a);
    TargetSide(pos, upd, cfg);
  }

  /** On a grid of quantities whose unit exceeds a last place of maxQty the cap holds exactly when it is at least 1. */
  lemma MaxAddMultiplierOnGrid(pos: BotPosition, upd: Update, side: Side, initialBalance: real, cfg: BotConfig, a: ChangeAnswer, w: real)
    requires a.Sane() && Reported(upd) && pos.qty >= 0.0 && upd.IsIncrease() && SettingEnabled(cfg.maxAddMultiplier)
    requires DecideChange(pos, upd, side, initialBalance, cfg, a).Place?
    requires Multiple(pos.qty, w) && Multiple(a.sym.qtyStep, w) && Multiple(AddCap(pos, cfg), w) && Slack(a.sym.maxQty) < w
    ensures DecideChange(pos, upd, side, initialBalance, cfg, a).qty >= 0.0
    ensures Filled(pos.qty, DecideChange(pos, upd, side, initialBalance, cfg, a), a.sym) <= AddCap(pos, cfg) <==> cfg.maxAddMultiplier >= 1.0
  {
    var d := DecideChange(pos, upd, side, initialBalance, cfg, a);
    MaxAddMultiplierHolds(pos, upd, side, initialBalance, cfg, a);
    PlacedQty(pos, upd, side, initialBalance, cfg, a);
    hide DecideChange, AddCap, Target, Multiple, Slack, ExactSplit, BulkQtyList, Total;
    SplitOnGrid(d.qty, a.sym, w);
    var total := Total(BulkQtyList(d.qty, a.sym));
    assert Filled(pos.qty, d, a.sym) == pos.qty + total;
    SumOnGrid(pos.qty, total, w);
    if cfg.maxAddMultiplier >= 1.0 {
      GridOrdered(pos.qty + total, AddCap(pos, cfg), w);
    }
  }

  lemma SumOnGrid(x: real, y: real, w: real)
    requires Multiple(x, w) && Multiple(y, w)
    ensures Multiple(x + y, w)
  {
    hide Times, Whole;
    TimesAlgebra(Whole(x, w), Whole(y, w), w);
    IsMultiple(Whole(x, w) + Whole(y, w), w);
  }

  /** A split orders a whole number of steps, and so of anything a step is a whole number of. */
  lemma SplitOnGrid(qty: real, sym: SymbolInfo, w: real)
    requires qty >= 0.0 && sym.Legal() && Multiple(sym.qtyStep, w)
    ensures Multiple(Total(BulkQtyList(qty, sym)), w)
  {
    OrdersLegal(qty, sym);
    var total := Total(BulkQtyList(qty, sym));
    TotalMultiple(BulkQtyList(qty, sym), sym.qtyStep);
    var j, k := Whole(total, sym.qtyStep), Whole(sym.qtyStep, w);
    hide Times, Whole, BulkQtyList, Total;
    TimesAlgebra(j, k, w);
    IsMultiple(j * k, w);
  }

  /** A reduction of a position held in whole steps orders at most what is held. */
  lemma ReductionFits(pos: BotPosition, upd: Update, side: Side, initialBalance: real, cfg: BotConfig, a: ChangeAnswer)
    requires a.Sane() && Reported(upd) && pos.qty >= 0.0 && !upd.IsIncrease()
    requires DecideChange(pos, upd, side, initialBalance, cfg, a).Place?
    requires Multiple(pos.qty, a.sym.qtyStep) && Slack(a.sym.maxQty) < a.sym.qtyStep
    ensures var d := DecideChange(pos, upd, side, initialBalance, cfg, a);
      d.qty >= 0.0 && d.reduceOnly && Total(BulkQtyList(d.qty, a.sym)) <= pos.qty
  {
    PlacedQty(pos, upd, side, initialBalance, cfg, a);
    hide DecideChange, Target, Slack, BulkQtyList, Total, Whole, Times, Dropped;
    var d := DecideChange(pos, upd, side, initialBalance, cfg, a);
    SplitShortfall(d.qty, a.sym);
    IsMultiple(1, a.sym.qtyStep);
    TimesAlgebra(1, 0, a.sym.qtyStep);
    SplitOnGrid(d.qty, a.sym, a.sym.qtyStep);
    GridOrdered(Total(BulkQtyList(d.qty, a.sym)), pos.qty, a.sym.qtyStep);
  }

  lemma CapBelowOne(pos: BotPosition, cfg: BotConfig)
    requires pos.qty >= 0.0
    ensures cfg.maxAddMultiplier < 1.0 ==> AddCap(pos, cfg) <= pos.qty
  {
    if cfg.maxAddMultiplier < 1.0 { MulLe(cfg.maxAddMultiplier, 1.0, pos.qty); }
  }

  lemma AddNotTooLarge(orderQty: real, pos: BotPosition, side: Side, initialBalance: real, cfg: BotConfig, a: ChangeAnswer)
    requires a.Sane() && pos.leverage > 0.0 && SettingEnabled(cfg.oneCoinMaxPercent)
    requires AddDecision(orderQty, pos, side, initialBalance, cfg, a).Place?
    ensures !TooLarge(orderQty, pos, a.market, initialBalance, cfg)
  {
    hide TooLarge, Div, GetTPSL, Multiple;
  }

  /** The cap on one coin's share of the balance, as the source computes it, still holds for what was filled, up to the
      value of a last place of maxQty and the last places of the two quotients compared; with an exact split, without. */
  lemma OneCoinMaxPercentHolds(pos: BotPosition, upd: Update, side: Side, initialBalance: real, cfg: BotConfig, a: ChangeAnswer)
    requires a.Sane() && Reported(upd) && pos.qty >= 0.0 && upd.IsIncrease() && SettingEnabled(cfg.oneCoinMaxPercent)
    requires pos.leverage > 0.0
    requires DecideChange(pos, upd, side, initialBalance, cfg, a).Place?
    ensures DecideChange(pos, upd, side, initialBalance, cfg, a).qty >= 0.0
    ensures var filled := Filled(pos.qty, DecideChange(pos, upd, side, initialBalance, cfg, a), a.sym);
      && Div(Worth(filled, a.market), pos.leverage)
         <= MaxWorth(initialBalance, cfg) + Quot(Worth(Slack(a.sym.maxQty), a.market), pos.leverage) + 2.0 * Slack(1.0)
      && (ExactSplit(Abs(Target(pos, upd, cfg) - pos.qty), a.sym) ==>
            Div(Worth(filled, a.market), pos.leverage) <= MaxWorth(initialBalance, cfg))
  {
    var d := DecideChange(pos, upd, side, initialBalance, cfg, a);
    hide Target, ExactSplit, Filled, Div, FloorDiv, AddDecision, TraderRatio, TooLarge, Quot, Multiple, Worth, MaxWorth, Slack;
    PlacedQty(pos, upd, side, initialBalance, cfg, a);
    AddNotTooLarge(d.qty, pos, side, initialBalance, cfg, a);
    hide DecideChange;
    IncreaseFilled(pos, upd, side, initialBalance, cfg, a);
    var filled := Filled(pos.qty, d, a.sym);
    CapNearlyFilled(filled, d.qty, Slack(a.sym.maxQty), pos, initialBalance, cfg, a.market);
    if filled <= pos.qty + d.qty {
      CapFilled(filled, d.qty, pos, initialBalance, cfg, a.market);
    }
  }

  lemma CapFilled(filled: real, orderQty: real, pos: BotPosition, initialBalance: real, cfg: BotConfig, market: real)
    requires pos.leverage > 0.0 && market >= 0.0 && filled <= pos.qty + orderQty
    requires !TooLarge(orderQty, pos, market, initialBalance, cfg)
    ensures Div(Worth(filled, market), pos.leverage) <= MaxWorth(initialBalance, cfg)
  {
    var held := orderQty + pos.qty;
    hide Div, FloorDiv, Worth, MaxWorth, SettingEnabled;
    WorthMonotone(filled, held, market);
    DivMonotone(Worth(filled, market), Worth(held, market), pos.leverage);
  }

  lemma WorthMonotone(x: real, y: real, market: real)
    requires x <= y && market >= 0.0
    ensures Worth(x, market) <= Worth(y, market)
  {
    MulLe(x, y, market);
  }

  lemma WorthAdds(x: real, y: real, market: real)
    ensures Worth(x + y, market) == Worth(x, market) + Worth(y, market)
  {
  }

  lemma CapNearlyFilled(filled: real, orderQty: real, extra: real, pos: BotPosition, initialBalance: real, cfg: BotConfig, market: real)
    requires pos.leverage > 0.0 && market >= 0.0 && filled <= pos.qty + orderQty + extra
    requires !TooLarge(orderQty, pos, market, initialBalance, cfg)
    ensures Div(Worth(filled, market), pos.leverage)
      <= MaxWorth(initialBalance, cfg) + Quot(Worth(extra, market), pos.leverage) + 2.0 * Slack(1.0)
  {
    var held := orderQty + pos.qty;
    hide Worth, MaxWorth, SettingEnabled, Div, FloorDiv;
    WorthMonotone(filled, held + extra, market);
    WorthAdds(held, extra, market);
    QuotMonotone(Worth(filled, market), Worth(held, market) + Worth(extra, market), pos.leverage);
    QuotAdds(Worth(held, market), Worth(extra, market), pos.leverage);
    hide Quot, Slack;
    DivNear(Worth(filled, market), pos.leverage);
    DivNear(Worth(held, market), pos.leverage);
  }

  lemma QuotAdds(x: real, y: real, d: real)
    requires d > 0.0
    ensures Quot(x + y, d) == Quot(x, d) + Quot(y, d)
  {
    var p, q, r := Quot(x, d), Quot(y, d), Quot(x + y, d);
    assert p * d == x && q * d == y && r * d == x + y;
    hide Quot;
    SumOfQuotients(p, q, r, d);
  }

  lemma SumOfQuotients(p: real, q: real, r: real, d: real)
    requires d > 0.0 && r * d == p * d + q * d
    ensures r == p + q
  {
    assert (r - p - q) * d == 0.0;
    if r - p - q < 0.0 { MulLt(r - p - q, 0.0, d); }
    if r - p - q > 0.0 { MulLt(0.0, r - p - q, d); }
  }

  /** Where the price was not answered the cap refuses nothing; where it was, it refuses every increase large enough. */
  lemma CapRefusesIffPriced(pos: BotPosition, market: real, initialBalance: real, cfg: BotConfig)
    requires market >= 0.0 && pos.leverage > 0.0 && initialBalance >= 0.0 && cfg.oneCoinMaxPercent >= 0.0
    ensures (exists orderQty :: TooLarge(orderQty, pos, market, initialBalance, cfg)) <==> market > 0.0
  {
    NonNegativeCap(initialBalance, cfg);
    if market == 0.0 {
      forall orderQty ensures !TooLarge(orderQty, pos, market, initialBalance, cfg) {
        UnpricedWorth(orderQty + pos.qty, pos.leverage);
      }
    } else {
      var cap := MaxWorth(initialBalance, cfg);
      var held := LargeEnough(cap, market, pos.leverage);
      hide Div, Worth, MaxWorth;
      assert held - pos.qty + pos.qty == held;
      assert TooLarge(held - pos.qty, pos, market, initialBalance, cfg);
    }
  }

  lemma LargeEnough(cap: real, market: real, leverage: real) returns (held: real)
    requires market > 0.0 && leverage > 0.0
    ensures Div(Worth(held, market), leverage) > cap
  {
    var value := (cap + 2.0) * leverage;
    held := Quot(value, market);
    assert held * market == value;
    assert Worth(held, market) == value;
    hide Worth, Div;
    assert Quot(value, leverage) * leverage == value;
    if Quot(value, leverage) < cap + 2.0 { MulLt(Quot(value, leverage), cap + 2.0, leverage); }
    hide Quot;
    DivNear(value, leverage);
  }

  lemma UnpricedWorth(qty: real, leverage: real)
    requires leverage > 0.0
    ensures Div(Worth(qty, 0.0), leverage) == 0.0
  {
    DivExact(0, leverage);
    assert Worth(qty, 0.0) == 0.0 == Times(0, leverage);
    hide Div;
  }

  lemma NonNegativeCap(initialBalance: real, cfg: BotConfig)
    requires initialBalance >= 0.0 && cfg.oneCoinMaxPercent >= 0.0
    ensures MaxWorth(initialBalance, cfg) >= 0.0
  {
    MulLe(0.0, cfg.oneCoinMaxPercent, initialBalance);
    assert initialBalance * cfg.oneCoinMaxPercent >= 0.0;
    DivExact(0, 100.0);
    assert Times(0, 100.0) == 0.0;
    hide Div;
    DivMonotone(0.0, initialBalance * cfg.oneCoinMaxPercent, 100.0);
  }

  /** So a Buy increase whose price request failed is placed whatever the cap, unless add prevention makes it crash. */
  lemma UnpricedIncreasePlaced(pos: BotPosition, upd: Update, initialBalance: real, cfg: BotConfig, a: ChangeAnswer)
    requires a.Sane() && a.market == 0.0 && !a.tooRecent && Reported(upd) && upd.IsIncrease()
    requires pos.qty >= 0.0 && pos.entry >= 0.0 && pos.leverage > 0.0 && initialBalance >= 0.0
    requires Abs(Target(pos, upd, cfg) - pos.qty) >= a.sym.minQty && cfg.oneCoinMaxPercent >= 0.0
    ensures DecideChange(pos, upd, Buy, initialBalance, cfg, a).Place? <==> !SettingEnabled(cfg.addPreventionPercent)
  {
    CapRefusesIffPriced(pos, 0.0, initialBalance, cfg);
    var orderQty := Abs(Target(pos, upd, cfg) - pos.qty);
    assert SettingEnabled(cfg.oneCoinMaxPercent);
    assert !TooLarge(orderQty, pos, 0.0, initialBalance, cfg);
    hide TooLarge, Target, Div, GetTPSL, Multiple;
  }

  const UNIT := SymbolInfo(1.0, 1.0, 1.0, 1.0, 1.0)
  const HOLDS_ONE := BotPosition("S", Buy, 1.0, 1.0, 1.0, 0.0, 0.0)
  const DOUBLES := Update(ChangeLS, "S", Buy, 2.0, 0.0, 1.0, 1.0, 0.0, 1.0)
  const CAPPED := BotConfig(1.0, 1.0, -1.0, 2.0, -1.0, 100.0, -1.0, -1.0, -1.0, -1.0, -1, [], [], false, false, false, false, false)
  const ADDS := ChangeAnswer(Some(CAPPED), 1.0, UNIT, false, None, false)

  lemma UnitSplit()
    ensures UNIT.Legal() && ExactSplit(1.0, UNIT)
  {
    IsMultiple(1, 1.0);
    DivExact(1, 1.0);
    assert Times(1, 1.0) == 1.0;
    hide Times, Div, FloorDiv;
  }

  lemma SmallEnough()
    ensures !TooLarge(1.0, HOLDS_ONE, 1.0, 100.0, CAPPED)
  {
    DivExact(2, 1.0);
    DivExact(100, 100.0);
    assert Times(2, 1.0) == 2.0 && Times(100, 100.0) == 10000.0;
    assert Worth(1.0 + HOLDS_ONE.qty, 1.0) == 2.0;
    assert MaxWorth(100.0, CAPPED) == Div(10000.0, 100.0);
    hide Times, Div, FloorDiv, Worth, MaxWorth;
  }

  lemma TargetIsTwo()
    ensures Reported(DOUBLES) && Target(HOLDS_ONE, DOUBLES, CAPPED) == 2.0
  {
    assert TraderRatio(DOUBLES) == 2.0;
  }

  /** An increase that a cap of nothing at all lets through: the trader doubles, and the price is not answered. */
  lemma UnpricedCanPass()
    ensures var cfg := CAPPED.(oneCoinMaxPercent := 0.0);
      SettingEnabled(cfg.oneCoinMaxPercent) && MaxWorth(100.0, cfg) == 0.0
      && ADDS.(market := 0.0).Sane() && DecideChange(HOLDS_ONE, DOUBLES, Buy, 100.0, cfg, ADDS.(market := 0.0)).Place?
  {
    var cfg, a := CAPPED.(oneCoinMaxPercent := 0.0), ADDS.(market := 0.0);
    UnitSplit();
    TargetIsTwo();
    assert Target(HOLDS_ONE, DOUBLES, cfg) == Target(HOLDS_ONE, DOUBLES, CAPPED);
    DivExact(0, 100.0);
    assert Times(0, 100.0) == 0.0;
    hide Target, Div, Multiple, DecideChange, Times;
    UnpricedIncreasePlaced(HOLDS_ONE, DOUBLES, 100.0, cfg, a);
  }

  /** The premises of the bounds on a CHANGE can all be met at once: the trader doubles, and so does a bot holding 1. */
  lemma ChangeCanPlace()
    ensures ADDS.Sane() && Reported(DOUBLES) && DOUBLES.IsIncrease() && CapSensible(CAPPED) && HOLDS_ONE.leverage > 0.0
    ensures SettingEnabled(CAPPED.maxAddMultiplier) && SettingEnabled(CAPPED.oneCoinMaxPercent)
    ensures DecideChange(HOLDS_ONE, DOUBLES, Buy, 100.0, CAPPED, ADDS).Place?
    ensures ExactSplit(Abs(Target(HOLDS_ONE, DOUBLES, CAPPED) - HOLDS_ONE.qty), UNIT)
  {
    hide Multiple, ExactSplit, TooLarge, Target, Div, GetTPSL;
    UnitSplit();
    SmallEnough();
    TargetIsTwo();
  }
}
