/**
 How far a bot's position can drift from the trader's, in proportion, over a run of CHANGE updates
 that either fill or are too small to order.
 */
module Tracking {
  import opened Types
  import opened Decimals
  import opened Orders
  import opened Decisions

  datatype TrackStep = TrackStep(upd: Update, side: Side, initialBalance: real, cfg: BotConfig, a: ChangeAnswer)

  /** One CHANGE of the trader from `was` to `now` that neither the max add multiplier cuts nor any other guard refuses. */
  predicate Follows(before: BotPosition, after: BotPosition, was: real, now: real, step: TrackStep, sym: SymbolInfo) {
    && step.a.Sane() && step.a.sym == sym
    && step.upd.kind == ChangeLS && step.upd.oldBinQty == was && step.upd.binQty == now
    && was > 0.0 && !Cut(step.upd, step.cfg)
    && var d := DecideChange(before, step.upd, step.side, step.initialBalance, step.cfg, step.a);
       ((d.Place? && d.qty >= 0.0) || d.BelowMin?)
       && after.qty == Filled(before.qty, d, sym)
  }

  /** The most one step can miss its target by: what the split drops, or the last place it may overshoot by. */
  function StepBound(sym: SymbolInfo): real { Max(Max(sym.minQty, sym.qtyStep), Slack(sym.maxQty)) }

  function DriftBound(sym: SymbolInfo, inverse: real): real { StepBound(sym) * inverse }

  lemma DriftBoundAdds(sym: SymbolInfo, x: real, y: real)
    ensures DriftBound(sym, x + y) == DriftBound(sym, x) + DriftBound(sym, y)
    ensures DriftBound(sym, 0.0) == 0.0
  {
  }

  /** Σ 1/t over the quantities the trader moved to. */
  function InverseSum(traders: seq<real>): real
    requires forall i :: 0 <= i < |traders| ==> traders[i] > 0.0
  {
    if |traders| <= 1 then 0.0
    else InverseSum(traders[..|traders| - 1]) + Quot(1.0, traders[|traders| - 1])
  }

  /** On which side of the held quantity an uncut target lies. */
  lemma UncutTarget(pos: BotPosition, upd: Update, cfg: BotConfig)
    requires Reported(upd) && pos.qty >= 0.0 && !Cut(upd, cfg)
    ensures if upd.IsIncrease() then pos.qty <= Target(pos, upd, cfg) else 0.0 <= Target(pos, upd, cfg) <= pos.qty
  {
    hide TraderRatio, UsedRatio, Cut, Proportional;
    RatioBounds(upd);
    UncutRatio(upd, cfg);
    var r := TraderRatio(upd);
    if upd.IsIncrease() {
      MulLe(1.0, r, pos.qty);
    } else {
      MulLe(0.0, r, pos.qty);
      MulLe(r, 1.0, pos.qty);
    }
  }

  lemma StepDeviation(before: BotPosition, after: BotPosition, was: real, now: real, step: TrackStep, sym: SymbolInfo)
    requires before.qty >= 0.0 && was > 0.0 && now > 0.0 && sym.Legal()
    requires Follows(before, after, was, now, step, sym)
    ensures after.qty >= 0.0
    ensures Abs(after.qty - Target(before, step.upd, step.cfg)) <= StepBound(sym)
    ensures Target(before, step.upd, step.cfg) * was == before.qty * now
  {
    hide Follows, StepBound, Target, Multiple, DecideChange, Filled, Proportional, TraderRatio, UsedRatio, Cut;
    StepNear(before, after, was, now, step, sym);
    FollowsUpdate(before, after, was, now, step, sym);
    TargetExact(before, step.upd, step.cfg);
  }

  lemma StepNear(before: BotPosition, after: BotPosition, was: real, now: real, step: TrackStep, sym: SymbolInfo)
    requires before.qty >= 0.0 && was > 0.0 && now > 0.0 && sym.Legal()
    requires Follows(before, after, was, now, step, sym)
    ensures after.qty >= 0.0
    ensures Abs(after.qty - Target(before, step.upd, step.cfg)) <= StepBound(sym)
  {
    hide Target, DecideChange, BulkQtyList, Total, Multiple, Dropped, Slack, UsedRatio, TraderRatio, Proportional;
    var d := DecideChange(before, step.upd, step.side, step.initialBalance, step.cfg, step.a);
    PlacedQty(before, step.upd, step.side, step.initialBalance, step.cfg, step.a);
    UncutTarget(before, step.upd, step.cfg);
    if d.Place? {
      SplitShortfall(d.qty, sym);
      SomeTotal(d.qty, sym);
    } else {
      BelowMinTarget(before, step.upd, step.side, step.initialBalance, step.cfg, step.a);
    }
  }

  lemma BelowMinTarget(pos: BotPosition, upd: Update, side: Side, initialBalance: real, cfg: BotConfig, a: ChangeAnswer)
    requires a.Sane() && Reported(upd) && DecideChange(pos, upd, side, initialBalance, cfg, a).BelowMin?
    ensures Abs(Target(pos, upd, cfg) - pos.qty) < a.sym.minQty
  {
    hide Target, Multiple, Div, TooLarge, GetTPSL;
  }

  /** Missing the target by at most the bound moves the ratio by at most the bound over the trader's quantity. */
  lemma RatioStep(before: real, after: real, was: real, now: real, target: real, sym: SymbolInfo)
    requires was > 0.0 && now > 0.0 && target * was == before * now && Abs(after - target) <= StepBound(sym)
    ensures Abs(Quot(after, now) - Quot(before, was)) <= DriftBound(sym, Quot(1.0, now))
  {
    var p, q, r, inv := Quot(before, was), Quot(target, now), Quot(after, now), Quot(1.0, now);
    assert p * was == before && q * now == target && r * now == after && inv * now == 1.0;
    hide Quot, StepBound;
    SameRatio(p, q, was, now, before, target);
    DifferenceOfRatios(q, r, inv, now, target, after, StepBound(sym));
  }

  lemma DifferenceOfRatios(q: real, r: real, inv: real, now: real, target: real, after: real, dev: real)
    requires now > 0.0 && q * now == target && r * now == after && inv * now == 1.0 && Abs(after - target) <= dev
    ensures Abs(r - q) <= dev * inv
  {
    if inv <= 0.0 { MulLe(inv, 0.0, now); }
    MulLe(after - target, dev, inv);
    MulLe(-dev, after - target, inv);
    assert (after - target) * inv == (r - q) * (now * inv);
  }

  lemma SameRatio(p: real, q: real, was: real, now: real, before: real, target: real)
    requires was > 0.0 && now > 0.0 && p * was == before && q * now == target && target * was == before * now
    ensures p == q
  {
    var w := was * now;
    MulLt(0.0, was, now);
    assert p * w == before * now;
    assert q * w == target * was;
    if p < q { MulLt(p, q, w); }
    if q < p { MulLt(q, p, w); }
  }

  /** positions[i] is the bot's position, and traders[i] the trader's quantity, after i steps. */
  predicate TrackRun(positions: seq<BotPosition>, traders: seq<real>, steps: seq<TrackStep>, sym: SymbolInfo) {
    && |positions| == |traders| == |steps| + 1
    && positions[0].qty >= 0.0 && sym.Legal()
    && (forall i :: 0 <= i < |traders| ==> traders[i] > 0.0)
    && forall i :: 0 <= i < |steps| ==> Follows(positions[i], positions[i + 1], traders[i], traders[i + 1], steps[i], sym)
  }

  /** Over any such run the proportion moves by at most max(minQty, qtyStep) times the sum of 1 / trader_i, unless a
      last place of maxQty is more than that. */
  lemma {:induction false} ProportionalDrift(positions: seq<BotPosition>, traders: seq<real>, steps: seq<TrackStep>, sym: SymbolInfo)
    requires TrackRun(positions, traders, steps, sym)
    ensures var n := |steps|; positions[n].qty >= 0.0
    ensures var n := |steps|;
      traders[n] > 0.0 && traders[0] > 0.0
      && Abs(Quot(positions[n].qty, traders[n]) - Quot(positions[0].qty, traders[0])) <= DriftBound(sym, InverseSum(traders))
    ensures Slack(sym.maxQty) <= Max(sym.minQty, sym.qtyStep) ==> StepBound(sym) == Max(sym.minQty, sym.qtyStep)
    decreases |steps|
  {
    var n := |steps|;
    DriftBoundAdds(sym, 0.0, 0.0);
    assert Slack(sym.maxQty) <= Max(sym.minQty, sym.qtyStep) ==> StepBound(sym) == Max(sym.minQty, sym.qtyStep);
    hide Follows, Multiple, StepBound, DriftBound, Quot;
    if n > 0 {
      var ps, ts, ss := positions[..n], traders[..n], steps[..n - 1];
      TrackPrefix(positions, traders, steps, sym);
      ProportionalDrift(ps, ts, ss, sym);
      LastStep(positions[n - 1], positions[n], traders[n - 1], traders[n], steps[n - 1], sym);
      DriftBoundAdds(sym, InverseSum(ts), Quot(1.0, traders[n]));
      assert InverseSum(traders) == InverseSum(ts) + Quot(1.0, traders[n]);
    }
  }

  lemma TrackPrefix(positions: seq<BotPosition>, traders: seq<real>, steps: seq<TrackStep>, sym: SymbolInfo)
    requires TrackRun(positions, traders, steps, sym) && steps != []
    ensures TrackRun(positions[..|steps|], traders[..|steps|], steps[..|steps| - 1], sym)
  {
    hide Follows, Multiple;
  }

  lemma LastStep(before: BotPosition, after: BotPosition, was: real, now: real, step: TrackStep, sym: SymbolInfo)
    requires before.qty >= 0.0 && was > 0.0 && now > 0.0 && sym.Legal()
    requires Follows(before, after, was, now, step, sym)
    ensures after.qty >= 0.0
    ensures Abs(Quot(after.qty, now) - Quot(before.qty, was)) <= DriftBound(sym, Quot(1.0, now))
  {
    hide Target, Quot, StepBound, DriftBound, DecideChange, Filled, Multiple, Follows;
    StepDeviation(before, after, was, now, step, sym);
    FollowsUpdate(before, after, was, now, step, sym);
    RatioStep(before.qty, after.qty, was, now, Target(before, step.upd, step.cfg), sym);
  }

  lemma FollowsUpdate(before: BotPosition, after: BotPosition, was: real, now: real, step: TrackStep, sym: SymbolInfo)
    requires Follows(before, after, was, now, step, sym)
    ensures step.upd.oldBinQty == was && step.upd.binQty == now
    ensures step.upd.kind == ChangeLS && was > 0.0 && !Cut(step.upd, step.cfg)
  {
    hide DecideChange, Filled, Multiple;
  }
}
