/**
 botRuntime.go: turning a wanted quantity into orders the exchange accepts, and a wanted price
 into one on the symbol's price grid.
 */
module Orders {
  import opened Types
  import opened Decimals

  datatype SymbolInfo = SymbolInfo(
    maxLeverage: real, qtyStep: real, minQty: real, maxQty: real, priceStep: real)
  {
    /** Exchange data is present: the divisions of the source do not panic. */
    predicate Known() {
      qtyStep > 0.0 && maxQty > 0.0 && priceStep > 0.0
    }

    /** The quantity filter of an exchange symbol. */
    predicate Legal() {
      Known() && 0.0 < minQty <= maxQty && Multiple(minQty, qtyStep) && Multiple(maxQty, qtyStep)
    }
  }

  // ------------------------------------------------------------------
  // Splitting a quantity into orders
  // ------------------------------------------------------------------

  function NumMax(qty: real, sym: SymbolInfo): (n: int)
    requires sym.Known()
    ensures qty >= 0.0 ==> n >= 0
  {
    DivExact(0, sym.maxQty);
    if qty >= 0.0 then DivMonotone(0.0, qty, sym.maxQty); FloorDiv(qty, sym.maxQty)
    else FloorDiv(qty, sym.maxQty)
  }

  function Remainder(qty: real, sym: SymbolInfo): real
    requires sym.Known()
  {
    qty - Times(NumMax(qty, sym), sym.maxQty)
  }

  predicate Dropped(qty: real, sym: SymbolInfo)
    requires sym.Known()
  {
    Remainder(qty, sym) < sym.minQty
  }

  function ValidRemainder(remainder: real, sym: SymbolInfo): real
    requires sym.Known()
  {
    Times(FloorDiv(remainder, sym.qtyStep), sym.qtyStep)
  }

  function BulkQtyList(qty: real, sym: SymbolInfo): seq<real>
    requires qty >= 0.0 && sym.Known()
  {
    var maxes := seq(NumMax(qty, sym), _ => sym.maxQty);
    if Dropped(qty, sym) then maxes
    else maxes + [ValidRemainder(Remainder(qty, sym), sym)]
  }

  /** The source's loop; a negative quantity would make its slice length negative and panic. */
  method GetBulkQtyList(qty: real, sym: SymbolInfo) returns (orders: seq<real>)
    requires qty >= 0.0 && sym.Known()
    ensures orders == BulkQtyList(qty, sym)
  {
    hide NumMax, Times, FloorDiv;
    var numMax := NumMax(qty, sym);
    var maxes := new real[numMax];
    for i := 0 to numMax
      invariant forall j :: 0 <= j < i ==> maxes[j] == sym.maxQty
    {
      maxes[i] := sym.maxQty;
    }
    assert maxes[..] == seq(numMax, _ => sym.maxQty);
    var remainder := qty - Times(numMax, sym.maxQty);
    if remainder < sym.minQty {
      return maxes[..];
    }
    var numSteps := FloorDiv(remainder, sym.qtyStep);
    return maxes[..] + [Times(numSteps, sym.qtyStep)];
  }

  function Total(orders: seq<real>): real {
    if orders == [] then 0.0 else Total(orders[..|orders| - 1]) + orders[|orders| - 1]
  }

  lemma {:induction false} TotalOfMaxes(n: nat, m: real)
    ensures Total(seq(n, _ => m)) == Times(n, m)
  {
    hide Times;
    TimesAlgebra(n - 1, 1, m);
    TimesAlgebra(0, 1, m);
    if n > 0 {
      var maxes := seq(n, _ => m);
      assert maxes[..n - 1] == seq(n - 1, _ => m);
      TotalOfMaxes(n - 1, m);
    }
  }

  lemma SplitTotal(qty: real, sym: SymbolInfo)
    requires qty >= 0.0 && sym.Known()
    ensures Total(BulkQtyList(qty, sym)) == Times(NumMax(qty, sym), sym.maxQty)
      + if Dropped(qty, sym) then 0.0 else ValidRemainder(Remainder(qty, sym), sym)
  {
    hide Times, NumMax, ValidRemainder, Remainder;
    var maxes := seq(NumMax(qty, sym), _ => sym.maxQty);
    TotalOfMaxes(|maxes|, sym.maxQty);
    if !Dropped(qty, sym) {
      assert BulkQtyList(qty, sym)[..|maxes|] == maxes;
    }
  }

  lemma LastOrderLegal(qty: real, sym: SymbolInfo)
    requires qty >= 0.0 && sym.Legal() && !Dropped(qty, sym)
    ensures var last := ValidRemainder(Remainder(qty, sym), sym);
      Multiple(last, sym.qtyStep) && sym.minQty <= last <= sym.maxQty
  {
    hide Times, Multiple, FloorDiv;
    var rem := Remainder(qty, sym);
    IsMultiple(FloorDiv(rem, sym.qtyStep), sym.qtyStep);
    StepsTaken(qty, sym.maxQty);
    StepsBounded(rem, sym.minQty, sym.qtyStep);
    StepsBounded(rem, sym.maxQty, sym.qtyStep);
  }

  /** Every order is a whole number of steps between the exchange's bounds. */
  lemma OrdersLegal(qty: real, sym: SymbolInfo)
    requires qty >= 0.0 && sym.Legal()
    ensures forall o :: o in BulkQtyList(qty, sym) ==> Multiple(o, sym.qtyStep) && sym.minQty <= o <= sym.maxQty
  {
    hide Multiple, NumMax, ValidRemainder, Remainder;
    if !Dropped(qty, sym) {
      LastOrderLegal(qty, sym);
    }
  }

  /** Both floors of the split agree with true division. */
  predicate TrueFloors(qty: real, sym: SymbolInfo)
    requires sym.Known()
  {
    NumMax(qty, sym) == Whole(qty, sym.maxQty)
    && (Dropped(qty, sym) || FloorDiv(Remainder(qty, sym), sym.qtyStep) == Whole(Remainder(qty, sym), sym.qtyStep))
  }

  /** What is left of the quantity after as many whole maxQty as fit. */
  function Rest(qty: real, sym: SymbolInfo): real
    requires sym.Known()
  {
    qty - Times(Whole(qty, sym.maxQty), sym.maxQty)
  }

  /** Neither the quantity in maxQtys, nor what is left of it in steps, is so close below a whole number that rounding
      the quotient reaches it. */
  predicate ExactSplit(qty: real, sym: SymbolInfo)
    requires sym.Known()
  {
    !ReachesNext(qty, sym.maxQty) && (Rest(qty, sym) < sym.minQty || !ReachesNext(Rest(qty, sym), sym.qtyStep))
  }

  lemma ExactIffTrueFloors(qty: real, sym: SymbolInfo)
    requires qty >= 0.0 && sym.Known()
    ensures ExactSplit(qty, sym) <==> TrueFloors(qty, sym)
  {
    hide Times, FloorDiv, Whole, ReachesNext;
    WholeBounds(qty, sym.maxQty);
    FloorDivTrueIff(qty, sym.maxQty);
    FloorDivTrueIff(Rest(qty, sym), sym.qtyStep);
  }

  /** For any quantity the shortfall is below minQty if the remainder was dropped and below one step
      otherwise, and rounding can overshoot by at most half a last place of maxQty. */
  lemma SplitShortfall(qty: real, sym: SymbolInfo)
    requires qty >= 0.0 && sym.Legal()
    ensures qty - Total(BulkQtyList(qty, sym)) < if Dropped(qty, sym) then sym.minQty else sym.qtyStep
    ensures Total(BulkQtyList(qty, sym)) <= qty + Slack(sym.maxQty)
  {
    hide Times, Multiple, FloorDiv, BulkQtyList;
    SplitTotal(qty, sym);
    StepsTaken(qty, sym.maxQty);
    StepsTaken(Remainder(qty, sym), sym.qtyStep);
    PositiveMultiple(sym.maxQty, sym.qtyStep);
  }

  /** The orders never exceed the quantity exactly when neither quotient reaches a whole number it is below. */
  lemma NeverExceedsIffExact(qty: real, sym: SymbolInfo)
    requires qty >= 0.0 && sym.Legal()
    ensures Total(BulkQtyList(qty, sym)) <= qty <==> ExactSplit(qty, sym)
  {
    hide Times, Multiple, FloorDiv, BulkQtyList, Whole, ExactSplit;
    ExactIffTrueFloors(qty, sym);
    SplitTotal(qty, sym);
    StepsTaken(qty, sym.maxQty);
    StepsTaken(Remainder(qty, sym), sym.qtyStep);
  }

  /** Neither floor is rounded up when everything is a whole number of units and maxQty below 2 * 10^16 of them. */
  lemma ExactOnGrid(qty: real, sym: SymbolInfo, u: real)
    requires qty >= 0.0 && sym.Legal()
    requires Multiple(qty, u) && Multiple(sym.qtyStep, u) && Multiple(sym.maxQty, u)
    requires Whole(sym.maxQty, u) < 2 * SCALE
    ensures ExactSplit(qty, sym)
  {
    var m, n, s := Whole(qty, u), Whole(sym.maxQty, u), Whole(sym.qtyStep, u);
    PositiveMultiple(sym.maxQty, u);
    PositiveMultiple(sym.qtyStep, u);
    PositiveMultiple(sym.maxQty, sym.qtyStep);
    hide Times, FloorDiv, BulkQtyList, Whole, ExactSplit;
    ExactIffTrueFloors(qty, sym);
    TimesMonotone(s, n, u);
    FloorDivExact(qty, sym.maxQty, m, n, u);
    var rem, k := Remainder(qty, sym), NumMax(qty, sym);
    TimesAlgebra(k, n, u);
    TimesAlgebra(m, k * n, u);
    FloorDivExact(rem, sym.qtyStep, m - k * n, s, u);
  }

  /** The split of a quantity orders no more than the quantity. */
  predicate FitsWithin(qty: real, sym: SymbolInfo)
    requires sym.Known()
  {
    qty >= 0.0 && Total(BulkQtyList(qty, sym)) <= qty
  }

  /** With maxQty of 2 * 10^16 units or more, one unit less than maxQty is split into a whole maxQty. */
  lemma SplitCanExceed(sym: SymbolInfo, n: int, u: real)
    requires sym.Legal() && n >= 2 * SCALE && u > 0.0 && sym.maxQty == Times(n, u)
    ensures Times(n - 1, u) >= 0.0 && Total(BulkQtyList(Times(n - 1, u), sym)) == sym.maxQty == Times(n - 1, u) + u
  {
    var qty := Times(n - 1, u);
    TimesMonotone(0, n - 1, u);
    TimesAlgebra(n, 1, u);
    TimesAlgebra(1, 0, sym.maxQty);
    FloorDivTooFine(qty, sym.maxQty, n, u);
    hide Times, FloorDiv, Multiple, BulkQtyList;
    assert NumMax(qty, sym) == 1 && Dropped(qty, sym);
    SplitTotal(qty, sym);
  }

  /** On a common grid no quantity is ever exceeded exactly when maxQty has fewer than 2 * 10^16 units. */
  lemma NeverExceedsIffCoarse(sym: SymbolInfo, u: real)
    requires sym.Legal() && Multiple(sym.qtyStep, u) && Multiple(sym.maxQty, u)
    ensures (forall m: nat :: FitsWithin(Times(m, u), sym)) <==> Whole(sym.maxQty, u) < 2 * SCALE
  {
    hide Times, FloorDiv, BulkQtyList, Whole, Total;
    var n := Whole(sym.maxQty, u);
    if n < 2 * SCALE {
      forall m: nat ensures FitsWithin(Times(m, u), sym) {
        TimesAlgebra(0, 0, u);
        TimesMonotone(0, m, u);
        IsMultiple(m, u);
        ExactOnGrid(Times(m, u), sym, u);
        NeverExceedsIffExact(Times(m, u), sym);
      }
    } else {
      SplitCanExceed(sym, n, u);
      assert !FitsWithin(Times(n - 1, u), sym);
    }
  }

  /** Order split: legal orders, never more than the quantity, and the shortfall bounded by what was dropped. */
  lemma SplitGuarantees(qty: real, sym: SymbolInfo, u: real)
    requires qty >= 0.0 && sym.Legal()
    requires Multiple(qty, u) && Multiple(sym.qtyStep, u) && Multiple(sym.maxQty, u)
    requires Whole(sym.maxQty, u) < 2 * SCALE
    ensures forall o :: o in BulkQtyList(qty, sym) ==> Multiple(o, sym.qtyStep) && sym.minQty <= o <= sym.maxQty
    ensures 0.0 <= qty - Total(BulkQtyList(qty, sym)) < if Dropped(qty, sym) then sym.minQty else sym.qtyStep
    ensures |BulkQtyList(qty, sym)| == Whole(qty, sym.maxQty) + if Dropped(qty, sym) then 0 else 1
  {
    hide Times, Multiple, Whole, FloorDiv, Remainder, ValidRemainder, ExactSplit, Total;
    OrdersLegal(qty, sym);
    SplitShortfall(qty, sym);
    ExactOnGrid(qty, sym, u);
    NeverExceedsIffExact(qty, sym);
    ExactIffTrueFloors(qty, sym);
  }

  /** Whole steps are split without loss, but for a remainder that is dropped. */
  lemma WholeStepsSplit(qty: real, sym: SymbolInfo)
    requires qty >= 0.0 && sym.Legal() && Multiple(qty, sym.qtyStep) && Whole(sym.maxQty, sym.qtyStep) < 2 * SCALE
    ensures Total(BulkQtyList(qty, sym)) <= qty
    ensures Total(BulkQtyList(qty, sym)) == qty <==> !Dropped(qty, sym) || Remainder(qty, sym) == 0.0
  {
    var step := sym.qtyStep;
    var m, n, k := Whole(qty, step), Whole(sym.maxQty, step), NumMax(qty, sym);
    hide Times, FloorDiv, Whole, ExactSplit, BulkQtyList, Total, NumMax;
    IsMultiple(1, step);
    TimesAlgebra(1, 0, step);
    ExactOnGrid(qty, sym, step);
    NeverExceedsIffExact(qty, sym);
    SplitTotal(qty, sym);
    TimesAlgebra(k, n, step);
    TimesAlgebra(m, k * n, step);
    assert Remainder(qty, sym) == Times(m - k * n, step);
    DivExact(m - k * n, step);
  }

  /** A quantity that reaches the minimum yields at least one order. */
  lemma MinimumYieldsOrder(qty: real, sym: SymbolInfo)
    requires sym.Legal() && qty >= sym.minQty
    ensures BulkQtyList(qty, sym) != []
  {
    hide Times, Multiple, FloorDiv;
    TimesAlgebra(0, 0, sym.maxQty);
  }

  // ------------------------------------------------------------------
  // Prices
  // ------------------------------------------------------------------

  function ValidPrice(price: real, priceStep: real): real
    requires priceStep > 0.0
  {
    Times(RoundHalfAway(Div(price, priceStep)), priceStep)
  }

  datatype Limit = TakeProfit | StopLoss

  function PriceDelta(entry: real, limPercent: real): real {
    Div(limPercent, 100.0) * entry
  }

  function LimitPrice(side: Side, entry: real, limPercent: real, limit: Limit, priceStep: real): real
    requires priceStep > 0.0
  {
    var pDelta := PriceDelta(entry, limPercent);
    var signed := if limit == StopLoss then -pDelta else pDelta;
    ValidPrice(if side == Sell then entry - signed else entry + signed, priceStep)
  }

  datatype TPSL = TPSL(tp: Option<real>, sl: Option<real>)

  predicate SettingEnabled(value: real) { value != -1.0 }

  function GetTPSL(side: Side, entry: real, autoTP: real, autoSL: real, priceStep: real): TPSL
    requires priceStep > 0.0
  {
    TPSL(if SettingEnabled(autoTP) then Some(LimitPrice(side, entry, autoTP, TakeProfit, priceStep)) else None,
         if SettingEnabled(autoSL) then Some(LimitPrice(side, entry, autoSL, StopLoss, priceStep)) else None)
  }

  lemma ValidPriceMonotone(p: real, q: real, priceStep: real)
    requires priceStep > 0.0 && p <= q
    ensures ValidPrice(p, priceStep) <= ValidPrice(q, priceStep)
  {
    hide Times, Div;
    DivMonotone(p, q, priceStep);
    RoundMonotone(Div(p, priceStep), Div(q, priceStep));
    TimesMonotone(RoundHalfAway(Div(p, priceStep)), RoundHalfAway(Div(q, priceStep)), priceStep);
  }

  /** The result is on the price grid; prices on the grid, and only those, are left as they are. */
  lemma ValidPriceFixesGrid(price: real, priceStep: real)
    requires priceStep > 0.0
    ensures Multiple(ValidPrice(price, priceStep), priceStep)
    ensures ValidPrice(price, priceStep) == price <==> Multiple(price, priceStep)
  {
    hide Times, Div, Whole;
    IsMultiple(RoundHalfAway(Div(price, priceStep)), priceStep);
    if Multiple(price, priceStep) {
      var k := Whole(price, priceStep);
      DivExact(k, priceStep);
      RoundNear(k as real);
    }
  }

  /** A remainder other than half is further from half than rounding can reach. */
  lemma HalfGap(x: real, q: int, r: int, n: int)
    requires 0 < n < SCALE && (x - q as real) * n as real == r as real
    ensures 2 * r < n ==> x < q as real + 0.5 - Slack(1.0)
    ensures 2 * r == n ==> x == q as real + 0.5
    ensures 2 * r > n ==> x > q as real + 0.5 + Slack(1.0)
  {
    var gap := 2.0 * (q as real + 0.5 - x);
    assert gap * n as real == n as real - 2.0 * ((x - q as real) * n as real);
    assert gap * n as real == (n - 2 * r) as real;
    GapSign(gap, n, n - 2 * r);
  }

  lemma GapSign(gap: real, n: int, d: int)
    requires 0 < n < SCALE && gap * n as real == d as real
    ensures d > 0 ==> gap > 2.0 * Slack(1.0)
    ensures d == 0 ==> gap == 0.0
    ensures d < 0 ==> gap < -2.0 * Slack(1.0)
  {
    var s := 2.0 * Slack(1.0);
    assert s * n as real == n as real / 10_000_000_000_000_000.0;
    assert (-s) * n as real == -(s * n as real);
    assert n as real / 10_000_000_000_000_000.0 < 1.0;
    if gap <= s { MulLe(gap, s, n as real); assert d as real < 1.0; }
    if gap >= -s { MulLe(-s, gap, n as real); assert d as real > -1.0; }
    if gap > 0.0 { MulLt(0.0, gap, n as real); }
    if gap < 0.0 { MulLt(gap, 0.0, n as real); }
  }

  lemma Offset(x: real, j: int, step: real, price: real)
    requires step > 0.0 && price == x * step
    ensures Abs(Times(j, step) - price) == Abs(j as real - x) * step
  {
    var d := j as real - x;
    assert Times(j, step) - price == d * step;
    if d < 0.0 {
      MulLt(d, 0.0, step);
      assert -(d * step) == (-d) * step;
    } else {
      MulLe(0.0, d, step);
    }
  }

  lemma NearestStep(x: real, j: int, k: int, step: real, price: real)
    requires step > 0.0 && x - 0.5 <= j as real <= x + 0.5 && price == x * step
    ensures Abs(Times(j, step) - price) <= Abs(Times(k, step) - price)
  {
    Offset(x, j, step, price);
    Offset(x, k, step, price);
    NearestWhole(x, j, k);
    hide Times, Abs;
    MulLe(Abs(j as real - x), Abs(k as real - x), step);
  }

  lemma NearestWhole(x: real, j: int, k: int)
    requires x - 0.5 <= j as real <= x + 0.5
    ensures Abs(j as real - x) <= Abs(k as real - x)
  {
    if k < j {
      assert k as real <= j as real - 1.0;
    } else if k > j {
      assert k as real >= j as real + 1.0;
    }
  }

  /** No multiple of the price step is nearer to the price than the result. */
  ghost predicate Nearest(price: real, priceStep: real)
    requires priceStep > 0.0
  {
    forall k: int :: Abs(ValidPrice(price, priceStep) - price) <= Abs(Times(k, priceStep) - price)
  }

  /** Below the half, but so close that rounding to 16 digits reaches it. */
  predicate RoundsUpTwice(x: real) { x < x.Floor as real + 0.5 <= x + Slack(1.0) }

  /** Where a price lands, in steps. */
  lemma RoundedSteps(price: real, priceStep: real)
    requires priceStep > 0.0 && price >= 0.0
    ensures var x := Quot(price, priceStep);
      && x >= 0.0
      && RoundHalfAway(Div(price, priceStep)) == if x + Slack(1.0) >= x.Floor as real + 0.5 then x.Floor + 1 else x.Floor
  {
    var x := Quot(price, priceStep);
    QuotMonotone(0.0, price, priceStep);
    QuotTimes(0, priceStep);
    assert Times(0, priceStep) == 0.0 && x >= 0.0;
    hide Quot, Div, Times;
    var q := x.Floor;
    DivBarrier(price, priceStep, q * SCALE);
    DivBarrier(price, priceStep, q * SCALE + SCALE);
    DivReaches(price, priceStep, q * SCALE + SCALE / 2);
  }

  lemma FarByHalf(x: real, j: int, step: real, price: real)
    requires step > 0.0 && price == x * step && Abs(j as real - x) <= 0.5 + Slack(1.0)
    ensures Abs(Times(j, step) - price) <= step / 2.0 + Slack(step)
  {
    assert (0.5 + Slack(1.0)) * step == step / 2.0 + Slack(step);
    hide Times, Abs, Slack;
    Offset(x, j, step, price);
    MulLe(Abs(j as real - x), 0.5 + Slack(1.0), step);
  }

  lemma NearerStep(x: real, j: int, k: int, step: real, price: real)
    requires step > 0.0 && price == x * step && Abs(k as real - x) < Abs(j as real - x)
    ensures Abs(Times(k, step) - price) < Abs(Times(j, step) - price)
  {
    hide Times, Abs;
    Offset(x, j, step, price);
    Offset(x, k, step, price);
    MulLt(Abs(k as real - x), Abs(j as real - x), step);
  }

  lemma NearestUpward(price: real, priceStep: real)
    requires priceStep > 0.0 && price >= 0.0
    ensures Nearest(price, priceStep) <==> !RoundsUpTwice(Quot(price, priceStep))
    ensures Abs(ValidPrice(price, priceStep) - price) <= priceStep / 2.0 + Slack(priceStep)
  {
    var x := Quot(price, priceStep);
    assert price == x * priceStep;
    RoundedSteps(price, priceStep);
    var j := RoundHalfAway(Div(price, priceStep));
    assert ValidPrice(price, priceStep) == Times(j, priceStep);
    hide Quot, Div, Times, RoundHalfAway, ValidPrice;
    FarByHalf(x, j, priceStep, price);
    if RoundsUpTwice(x) {
      NearerStep(x, j, x.Floor, priceStep, price);
      hide Abs;
      assert !Nearest(price, priceStep);
    } else {
      hide Abs;
      forall k: int ensures Abs(ValidPrice(price, priceStep) - price) <= Abs(Times(k, priceStep) - price) {
        NearestStep(x, j, k, priceStep, price);
      }
    }
  }

  lemma ValidPriceOdd(price: real, priceStep: real)
    requires priceStep > 0.0
    ensures ValidPrice(-price, priceStep) == -ValidPrice(price, priceStep)
  {
    DivOdd(price, priceStep);
    RoundOdd(Div(price, priceStep));
    TimesAlgebra(RoundHalfAway(Div(price, priceStep)), 0, priceStep);
    hide Div, RoundHalfAway, Times;
  }

  lemma NearestOdd(price: real, priceStep: real)
    requires priceStep > 0.0 && Nearest(price, priceStep)
    ensures Nearest(-price, priceStep)
  {
    ValidPriceOdd(price, priceStep);
    hide ValidPrice, Times;
    forall k: int ensures Abs(ValidPrice(-price, priceStep) - -price) <= Abs(Times(k, priceStep) - -price) {
      TimesAlgebra(k, 0, priceStep);
      assert Abs(ValidPrice(price, priceStep) - price) <= Abs(Times(-k, priceStep) - price);
    }
  }

  /** For every price: the result is within half a step and a last place of it, and no tick is nearer, unless the
      price is just so far below the half between two ticks that the quotient's rounding reaches it. */
  lemma ValidPriceNearestIff(price: real, priceStep: real)
    requires priceStep > 0.0
    ensures Nearest(price, priceStep) <==> !RoundsUpTwice(Quot(Abs(price), priceStep))
    ensures Abs(ValidPrice(price, priceStep) - price) <= priceStep / 2.0 + Slack(priceStep)
  {
    hide Quot, ValidPrice, Nearest, RoundsUpTwice;
    NearestUpward(Abs(price), priceStep);
    if price < 0.0 {
      ValidPriceOdd(price, priceStep);
      if Nearest(price, priceStep) { NearestOdd(price, priceStep); }
      if Nearest(-price, priceStep) { NearestOdd(-price, priceStep); }
    }
  }

  lemma GridGap(price: real, priceStep: real, m: int, n: int, u: real)
    requires 0 < n < SCALE && u > 0.0 && price == Times(m, u) && priceStep == Times(n, u)
    ensures priceStep > 0.0 && !RoundsUpTwice(Quot(price, priceStep))
  {
    UnitQuotient(price, priceStep, m, n, u);
    assert Quot(price, priceStep).Floor == m / n;
    hide Quot, Times;
    HalfGap(Quot(price, priceStep), m / n, m % n, n);
  }

  /** The exception cannot arise when price and step are whole numbers of units, fewer than 10^16 of them to a step. */
  lemma ValidPriceNearest(price: real, priceStep: real, u: real)
    requires Multiple(price, u) && Multiple(priceStep, u) && priceStep > 0.0
    requires Whole(priceStep, u) < SCALE
    ensures Nearest(price, priceStep)
  {
    PositiveMultiple(priceStep, u);
    var m, n := Whole(price, u), Whole(priceStep, u);
    hide Whole, Nearest, Times, RoundsUpTwice, Quot;
    TimesAlgebra(m, 0, u);
    GridGap(Abs(price), priceStep, if price < 0.0 then -m else m, n, u);
    ValidPriceNearestIff(price, priceStep);
  }

  /** A price just below the half rounds up. */
  lemma ValidPriceCanMiss()
    ensures ValidPrice(0.49999999999999999, 1.0) == 1.0 && !Nearest(0.49999999999999999, 1.0)
  {
    var price := 0.49999999999999999;
    assert Quot(price, 1.0) == price && price.Floor == 0;
    RoundedSteps(price, 1.0);
    assert ValidPrice(price, 1.0) == 1.0 by { hide Div; }
    assert Abs(Times(0, 1.0) - price) < 0.5;
    hide ValidPrice, Times;
    assert Abs(ValidPrice(price, 1.0) - price) > 0.5;
  }

  lemma NonNegativeDelta(entry: real, percent: real)
    requires percent >= 0.0 && entry >= 0.0
    ensures PriceDelta(entry, percent) >= 0.0
  {
    hide Div;
    DivMonotone(0.0, percent, 100.0);
    DivExact(0, 100.0);
    MulLe(0.0, Div(percent, 100.0), entry);
  }

  /** The given percent of the entry above it, or below, up to half a tick and the last places of two quotients. */
  predicate LimitAt(limit: real, entry: real, percent: real, above: bool, priceStep: real) {
    var aimed := if above then entry + percent / 100.0 * entry else entry - percent / 100.0 * entry;
    Abs(limit - aimed) <= priceStep / 2.0 + Slack(priceStep) + Slack(Abs(entry))
  }

  /** A limit lies the given percent of the entry away from it: above it for the take-profit of a Buy and the stop of a
      Sell, below it for the other two. */
  lemma LimitDistance(side: Side, entry: real, percent: real, limit: Limit, priceStep: real)
    requires priceStep > 0.0
    ensures LimitAt(LimitPrice(side, entry, percent, limit, priceStep), entry, percent, (limit == TakeProfit) == (side != Sell), priceStep)
  {
    DeltaNear(entry, percent);
    LimitFrom(side, entry, percent, limit, priceStep, percent / 100.0 * entry, Slack(Abs(entry)));
    hide LimitPrice, Slack;
  }

  lemma LimitFrom(side: Side, entry: real, percent: real, limit: Limit, priceStep: real, share: real, slack: real)
    requires priceStep > 0.0 && Abs(PriceDelta(entry, percent) - share) <= slack
    ensures var aimed := if (limit == TakeProfit) == (side != Sell) then entry + share else entry - share;
      Abs(LimitPrice(side, entry, percent, limit, priceStep) - aimed) <= priceStep / 2.0 + Slack(priceStep) + slack
  {
    var delta := PriceDelta(entry, percent);
    var up, down := entry + delta, entry - delta;
    ValidPriceNearestIff(up, priceStep);
    ValidPriceNearestIff(down, priceStep);
    hide PriceDelta, ValidPrice, Slack, RoundsUpTwice, Nearest, Quot;
    assert entry - -delta == up && entry + -delta == down;
  }

  lemma DeltaNear(entry: real, percent: real)
    ensures Abs(PriceDelta(entry, percent) - percent / 100.0 * entry) <= Slack(Abs(entry))
  {
    DivNear(percent, 100.0);
    assert Quot(percent, 100.0) == percent / 100.0;
    assert Slack(1.0) * Abs(entry) == Slack(Abs(entry));
    hide Div, Quot, Slack;
    ErrorTimes(percent / 100.0, Div(percent, 100.0), Slack(1.0), entry);
  }

  lemma ErrorTimes(q: real, d: real, slack: real, x: real)
    requires q - slack <= d <= q + slack
    ensures Abs(d * x - q * x) <= slack * Abs(x)
  {
    assert (d - q) * x == d * x - q * x;
    if x >= 0.0 {
      MulLe(d - q, slack, x);
      MulLe(-slack, d - q, x);
    } else {
      assert (q - d) * -x == d * x - q * x;
      MulLe(q - d, slack, -x);
      MulLe(-slack, q - d, -x);
    }
  }

  /** The rounded entry always lies between the limits: the stop on the losing side, the profit on the winning one. */
  lemma LimitsStraddle(entry: real, tp: real, sl: real, priceStep: real)
    requires priceStep > 0.0 && entry >= 0.0 && tp >= 0.0 && sl >= 0.0
    ensures LimitPrice(Buy, entry, sl, StopLoss, priceStep) <= ValidPrice(entry, priceStep) <= LimitPrice(Buy, entry, tp, TakeProfit, priceStep)
    ensures LimitPrice(Sell, entry, tp, TakeProfit, priceStep) <= ValidPrice(entry, priceStep) <= LimitPrice(Sell, entry, sl, StopLoss, priceStep)
  {
    var up, down := PriceDelta(entry, tp), PriceDelta(entry, sl);
    NonNegativeDelta(entry, tp);
    NonNegativeDelta(entry, sl);
    hide PriceDelta, ValidPrice;
    ValidPriceMonotone(entry, entry + up, priceStep);
    ValidPriceMonotone(entry - down, entry, priceStep);
    ValidPriceMonotone(entry, entry + down, priceStep);
    ValidPriceMonotone(entry - up, entry, priceStep);
  }

  /** Taking profit on one side is stopping out on the other, for any price and percent. */
  lemma LimitsMirror(entry: real, percent: real, priceStep: real)
    requires priceStep > 0.0
    ensures LimitPrice(Buy, entry, percent, TakeProfit, priceStep) == LimitPrice(Sell, entry, percent, StopLoss, priceStep)
    ensures LimitPrice(Buy, entry, percent, StopLoss, priceStep) == LimitPrice(Sell, entry, percent, TakeProfit, priceStep)
  {
    hide PriceDelta, ValidPrice;
    var up, down := entry + PriceDelta(entry, percent), entry - PriceDelta(entry, percent);
    assert entry - -PriceDelta(entry, percent) == up && entry + -PriceDelta(entry, percent) == down;
  }

  predicate StraddledBy(entry: real, tp: real, sl: real, priceStep: real)
    requires priceStep > 0.0
  {
    && LimitPrice(Buy, entry, sl, StopLoss, priceStep) <= entry <= LimitPrice(Buy, entry, tp, TakeProfit, priceStep)
    && LimitPrice(Sell, entry, tp, TakeProfit, priceStep) <= entry <= LimitPrice(Sell, entry, sl, StopLoss, priceStep)
  }

  lemma ZeroPercent(entry: real, priceStep: real)
    requires priceStep > 0.0
    ensures LimitPrice(Buy, entry, 0.0, TakeProfit, priceStep) == LimitPrice(Buy, entry, 0.0, StopLoss, priceStep) == ValidPrice(entry, priceStep)
  {
    TimesAlgebra(0, 0, 100.0);
    DivExact(0, 100.0);
    assert PriceDelta(entry, 0.0) == 0.0;
    hide PriceDelta, ValidPrice;
  }

  /** The limits straddle the entry itself, whatever the percents, exactly when the entry is on the price grid. */
  lemma StraddledIffOnGrid(entry: real, priceStep: real)
    requires priceStep > 0.0 && entry >= 0.0
    ensures (forall tp, sl :: tp >= 0.0 && sl >= 0.0 ==> StraddledBy(entry, tp, sl, priceStep)) <==> Multiple(entry, priceStep)
  {
    ValidPriceFixesGrid(entry, priceStep);
    hide Div, ValidPrice, Multiple, LimitPrice;
    if Multiple(entry, priceStep) {
      forall tp, sl | tp >= 0.0 && sl >= 0.0 ensures StraddledBy(entry, tp, sl, priceStep) {
        LimitsStraddle(entry, tp, sl, priceStep);
      }
    } else {
      ZeroPercent(entry, priceStep);
      assert !StraddledBy(entry, 0.0, 0.0, priceStep);
    }
  }
}
