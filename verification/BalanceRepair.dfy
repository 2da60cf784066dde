/**
 fixCopyTradingBalance: adds up what the user's active bots hold and rewrites the remaining balance when it is
 off by more than 0.1%.
 */
module BalanceRepair {
  import opened Types
  import opened Decimals
  import opened Ledger

  /** A row of the copytrading table: bot hash, whether its status is active, and the trader it copies. */
  datatype BotRow = BotRow(hash: string, active: bool, uid: string)

  datatype Repaired = NotFound | DivisionByZero | WriteFailed | Unchanged | Wrote(remaining: real)

  /** (user_id, bot_id) is the table's key, and the hash is made of both. */
  predicate Distinct(rows: seq<BotRow>) { forall i, j :: 0 <= i < j < |rows| ==> rows[i].hash != rows[j].hash }

  /** `monitors` gives, per running trader, the balance of each bot on it. */
  predicate Known(row: BotRow, monitors: map<string, map<string, real>>) {
    row.active ==> row.uid in monitors && row.hash in monitors[row.uid]
  }

  predicate AllKnown(rows: seq<BotRow>, monitors: map<string, map<string, real>>) {
    forall i :: 0 <= i < |rows| ==> Known(rows[i], monitors)
  }

  /** What the active bots hold. */
  function ActiveTotal(rows: seq<BotRow>, monitors: map<string, map<string, real>>): real
    requires AllKnown(rows, monitors)
  {
    if rows == [] then 0.0
    else
      var last := rows[|rows| - 1];
      ActiveTotal(rows[..|rows| - 1], monitors) + if last.active then monitors[last.uid][last.hash] else 0.0
  }

  predicate NeedsFix(remaining: real, correct: real)
    requires remaining != 0.0
  {
    Abs(Div(remaining - correct, remaining)) > 0.001
  }

  // ------------------------------------------------------------------
  // Sums over maps
  // ------------------------------------------------------------------

  ghost function SumOf(m: map<string, real>): real {
    if m.Keys == {} then 0.0
    else
      var k :| k in m;
      m[k] + SumOf(m - {k})
  }

  lemma {:induction false} SumWithout(m: map<string, real>, k: string)
    requires k in m
    ensures SumOf(m) == m[k] + SumOf(m - {k})
    decreases |m|
  {
    var h :| h in m && SumOf(m) == m[h] + SumOf(m - {h});
    hide SumOf;
    if h != k {
      assert m - {h} - {k} == m - {k} - {h};
      assert |(m - {h}).Keys| < |m.Keys| && |(m - {k}).Keys| < |m.Keys|;
      SumWithout(m - {h}, k);
      SumWithout(m - {k}, h);
    }
  }

  /** `m` holds the balances of exactly the active bots. */
  ghost predicate Collects(m: map<string, real>, rows: seq<BotRow>, monitors: map<string, map<string, real>>)
    requires AllKnown(rows, monitors)
  {
    && (forall i :: 0 <= i < |rows| && rows[i].active ==> rows[i].hash in m && m[rows[i].hash] == monitors[rows[i].uid][rows[i].hash])
    && forall h :: h in m ==> IsActive(rows, h)
  }

  ghost predicate IsActive(rows: seq<BotRow>, hash: string) {
    exists i :: 0 <= i < |rows| && rows[i].active && rows[i].hash == hash
  }

  lemma {:induction false} CollectedSum(m: map<string, real>, rows: seq<BotRow>, monitors: map<string, map<string, real>>)
    requires Distinct(rows) && AllKnown(rows, monitors) && Collects(m, rows, monitors)
    ensures SumOf(m) == ActiveTotal(rows, monitors)
  {
    if rows == [] {
      assert m.Keys == {};
    } else {
      var n := |rows| - 1;
      var last := rows[n];
      var rest := if last.active then m - {last.hash} else m;
      forall h | h in rest ensures IsActive(rows[..n], h) {
        assert IsActive(rows, h);
        var i :| 0 <= i < |rows| && rows[i].active && rows[i].hash == h;
        assert rows[..n][i] == rows[i];
      }
      CollectedSum(rest, rows[..n], monitors);
      if last.active {
        SumWithout(m, last.hash);
      }
    }
  }

  /** The hashes of the active bots, by the trader they copy. */
  ghost predicate Located(botLoc: map<string, seq<string>>, rows: seq<BotRow>) {
    && (forall i :: 0 <= i < |rows| && rows[i].active ==> rows[i].uid in botLoc && rows[i].hash in botLoc[rows[i].uid])
    && forall uid, j :: uid in botLoc && 0 <= j < |botLoc[uid]| ==> IsRow(rows, botLoc[uid][j], uid)
  }

  ghost predicate IsRow(rows: seq<BotRow>, hash: string, uid: string) {
    exists i :: 0 <= i < |rows| && rows[i] == BotRow(hash, true, uid)
  }

  method Locate(rows: seq<BotRow>) returns (botLoc: map<string, seq<string>>)
    ensures Located(botLoc, rows)
    ensures forall uid :: uid in botLoc ==> botLoc[uid] != []
  {
    botLoc := map[];
    for i := 0 to |rows|
      invariant Located(botLoc, rows[..i])
      invariant forall uid :: uid in botLoc ==> botLoc[uid] != []
    {
      LocatedMore(botLoc, rows[..i], rows[i]);
      assert rows[..i] + [rows[i]] == rows[..i + 1];
      hide Located;
      if rows[i].active {
        var known := if rows[i].uid in botLoc then botLoc[rows[i].uid] else [];
        botLoc := botLoc[rows[i].uid := known + [rows[i].hash]];
      }
    }
    assert rows[..|rows|] == rows;
  }

  /** What one more row makes of the lists. */
  function WithRow(botLoc: map<string, seq<string>>, row: BotRow): map<string, seq<string>> {
    if row.active then botLoc[row.uid := (if row.uid in botLoc then botLoc[row.uid] else []) + [row.hash]] else botLoc
  }

  lemma LocatedMore(botLoc: map<string, seq<string>>, rows: seq<BotRow>, row: BotRow)
    requires Located(botLoc, rows)
    ensures Located(WithRow(botLoc, row), rows + [row])
  {
    var next, more := WithRow(botLoc, row), rows + [row];
    forall uid, j | uid in next && 0 <= j < |next[uid]| ensures IsRow(more, next[uid][j], uid) {
      if uid in botLoc && j < |botLoc[uid]| {
        assert IsRow(rows, botLoc[uid][j], uid);
        var k :| 0 <= k < |rows| && rows[k] == BotRow(botLoc[uid][j], true, uid);
        assert more[k] == rows[k];
      } else {
        assert more[|rows|] == BotRow(next[uid][j], true, uid);
      }
    }
  }

  /** The first n bots of a trader are in `data` with what they hold. */
  ghost predicate Gathered(data: map<string, real>, hashes: seq<string>, balances: map<string, real>, n: nat) {
    forall j :: 0 <= j < n && j < |hashes| ==> hashes[j] in balances && hashes[j] in data && data[hashes[j]] == balances[hashes[j]]
  }

  lemma GatherMore(data: map<string, real>, rows: seq<BotRow>, botLoc: map<string, seq<string>>, monitors: map<string, map<string, real>>,
                   uid: string, hash: string, x: real, other: string)
    requires Distinct(rows) && Located(botLoc, rows) && IsRow(rows, hash, uid)
    requires other in botLoc && other in monitors && other != uid && Gathered(data, botLoc[other], monitors[other], |botLoc[other]|)
    ensures Gathered(data[hash := x], botLoc[other], monitors[other], |botLoc[other]|)
  {
    forall j | 0 <= j < |botLoc[other]| ensures botLoc[other][j] != hash {
      assert IsRow(rows, botLoc[other][j], other);
    }
  }

  lemma UnknownRow(rows: seq<BotRow>, monitors: map<string, map<string, real>>, hash: string, uid: string)
    requires IsRow(rows, hash, uid) && !(uid in monitors && hash in monitors[uid])
    ensures !AllKnown(rows, monitors)
  {
    var i :| 0 <= i < |rows| && rows[i] == BotRow(hash, true, uid);
    assert !Known(rows[i], monitors);
  }

  lemma AllGathered(data: map<string, real>, rows: seq<BotRow>, botLoc: map<string, seq<string>>, monitors: map<string, map<string, real>>)
    requires Located(botLoc, rows)
    requires forall uid :: uid in botLoc ==> uid in monitors && Gathered(data, botLoc[uid], monitors[uid], |botLoc[uid]|)
    requires forall h :: h in data ==> IsActive(rows, h)
    ensures AllKnown(rows, monitors) && Collects(data, rows, monitors)
  {
    forall i | 0 <= i < |rows| && rows[i].active
      ensures Known(rows[i], monitors) && rows[i].hash in data && data[rows[i].hash] == monitors[rows[i].uid][rows[i].hash]
    {
      var j :| 0 <= j < |botLoc[rows[i].uid]| && botLoc[rows[i].uid][j] == rows[i].hash;
      assert Gathered(data, botLoc[rows[i].uid], monitors[rows[i].uid], |botLoc[rows[i].uid]|);
    }
  }

  /** The traders come in any order, as a Go map gives them. */
  method Gather(botLoc: map<string, seq<string>>, monitors: map<string, map<string, real>>, ghost rows: seq<BotRow>)
    returns (balanceData: Option<map<string, real>>)
    requires Distinct(rows) && Located(botLoc, rows) && forall uid :: uid in botLoc ==> botLoc[uid] != []
    ensures balanceData.Some? <==> AllKnown(rows, monitors)
    ensures balanceData.Some? ==> Collects(balanceData.value, rows, monitors)
  {
    var data: map<string, real> := map[];
    var uids := botLoc.Keys;
    while uids != {}
      invariant uids <= botLoc.Keys
      invariant forall uid :: uid in botLoc && uid !in uids ==> uid in monitors && Gathered(data, botLoc[uid], monitors[uid], |botLoc[uid]|)
      invariant forall h :: h in data ==> IsActive(rows, h)
      decreases |uids|
    {
      var uid :| uid in uids;
      uids := uids - {uid};
      assert IsRow(rows, botLoc[uid][0], uid);
      if uid !in monitors {
        UnknownRow(rows, monitors, botLoc[uid][0], uid);
        return None;
      }
      var hashes := botLoc[uid];
      for j := 0 to |hashes|
        invariant Gathered(data, hashes, monitors[uid], j)
        invariant forall other :: other in botLoc && other !in uids && other != uid ==>
          other in monitors && Gathered(data, botLoc[other], monitors[other], |botLoc[other]|)
        invariant forall h :: h in data ==> IsActive(rows, h)
      {
        assert IsRow(rows, hashes[j], uid);
        if hashes[j] !in monitors[uid] {
          UnknownRow(rows, monitors, hashes[j], uid);
          return None;
        }
        forall other | other in botLoc && other !in uids && other != uid
          ensures Gathered(data[hashes[j] := monitors[uid][hashes[j]]], botLoc[other], monitors[other], |botLoc[other]|)
        {
          GatherMore(data, rows, botLoc, monitors, uid, hashes[j], monitors[uid][hashes[j]], other);
        }
        data := data[hashes[j] := monitors[uid][hashes[j]]];
        assert IsActive(rows, hashes[j]);
      }
    }
    AllGathered(data, rows, botLoc, monitors);
    balanceData := Some(data);
  }

  /** In whatever order. */
  method AddUp(balanceData: map<string, real>) returns (total: real)
    ensures total == SumOf(balanceData)
  {
    total := 0.0;
    var left := balanceData;
    while left.Keys != {}
      invariant SumOf(balanceData) == total + SumOf(left)
      decreases |left|
    {
      var hash :| hash in left.Keys;
      SumWithout(left, hash);
      total := total + left[hash];
      left := left - {hash};
    }
  }

  method FixCopyTradingBalance(rows: seq<BotRow>, monitors: map<string, map<string, real>>, remaining: real, maxBalance: real, writeOk: bool)
    returns (repaired: Repaired)
    requires Distinct(rows)
    ensures repaired == NotFound <==> !AllKnown(rows, monitors)
    ensures repaired == DivisionByZero <==> AllKnown(rows, monitors) && remaining == 0.0
    ensures AllKnown(rows, monitors) && remaining != 0.0 ==>
      var correct := maxBalance - ActiveTotal(rows, monitors);
      repaired == if !NeedsFix(remaining, correct) then Unchanged else if writeOk then Wrote(correct) else WriteFailed
  {
    var botLoc := Locate(rows);
    var balanceData := Gather(botLoc, monitors, rows);
    if balanceData.None? {
      return NotFound;
    }
    CollectedSum(balanceData.value, rows, monitors);
    var activeTotal := AddUp(balanceData.value);
    var correctRemaining := maxBalance - activeTotal;
    if remaining == 0.0 {
      return DivisionByZero;
    }
    if NeedsFix(remaining, correctRemaining) {
      repaired := if writeOk then Wrote(correctRemaining) else WriteFailed;
    } else {
      repaired := Unchanged;
    }
  }

  /** What is left unrepaired is at most 0.1% of the remaining balance, up to the rounding of the division; a
      balance that is right is never touched. */
  lemma UnrepairedIsClose(remaining: real, correct: real)
    requires remaining != 0.0
    ensures !NeedsFix(remaining, correct) ==> Abs(Quot(remaining - correct, remaining)) <= 0.001 + Slack(1.0)
    ensures Abs(Quot(remaining - correct, remaining)) <= 0.001 ==> !NeedsFix(remaining, correct)
  {
    DivNear(remaining - correct, remaining);
    DivBarrier(remaining - correct, remaining, 10_000_000_000_000);
    DivBarrier(remaining - correct, remaining, -10_000_000_000_000);
    hide Quot, Div;
  }

  // ------------------------------------------------------------------
  // The repair as a step of the ledger
  // ------------------------------------------------------------------

  function HeldBalances(slots: seq<Slot>): seq<real> {
    if slots == [] then []
    else HeldBalances(slots[..|slots| - 1]) + if slots[|slots| - 1].phase == Held then [slots[|slots| - 1].bal] else []
  }

  function ActiveBalances(rows: seq<BotRow>, monitors: map<string, map<string, real>>): seq<real>
    requires AllKnown(rows, monitors)
  {
    if rows == [] then []
    else
      var last := rows[|rows| - 1];
      ActiveBalances(rows[..|rows| - 1], monitors) + if last.active then [monitors[last.uid][last.hash]] else []
  }

  function Sum(xs: seq<real>): real { if xs == [] then 0.0 else Sum(xs[..|xs| - 1]) + xs[|xs| - 1] }

  lemma {:induction false} SumRemove(xs: seq<real>, i: nat)
    requires i < |xs|
    ensures Sum(xs) == Sum(xs[..i] + xs[i + 1..]) + xs[i]
  {
    var n := |xs| - 1;
    if i < n {
      SumRemove(xs[..n], i);
      assert (xs[..i] + xs[i + 1..])[..n - 1] == xs[..n][..i] + xs[..n][i + 1..];
    } else {
      assert xs[..i] + xs[i + 1..] == xs[..n];
    }
  }

  lemma {:induction false} SumPermuted(xs: seq<real>, ys: seq<real>)
    requires multiset(xs) == multiset(ys)
    ensures Sum(xs) == Sum(ys)
    decreases |xs|
  {
    if xs == [] {
      assert |multiset(ys)| == 0;
    } else {
      var n := |xs| - 1;
      assert xs[n] in multiset(xs);
      var i :| 0 <= i < |ys| && ys[i] == xs[n];
      RemoveOne(xs, n);
      RemoveOne(ys, i);
      SumRemove(ys, i);
      assert xs[..n] + xs[n + 1..] == xs[..n];
      var zs := ys[..i] + ys[i + 1..];
      assert multiset(xs[..n]) + multiset{xs[n]} == multiset(zs) + multiset{xs[n]};
      assert multiset(xs[..n]) == multiset(xs[..n]) + multiset{xs[n]} - multiset{xs[n]};
      assert multiset(zs) == multiset(zs) + multiset{xs[n]} - multiset{xs[n]};
      hide Sum;
      SumPermuted(xs[..n], zs);
      SumLast(xs);
    }
  }

  lemma SumLast(xs: seq<real>)
    requires xs != []
    ensures Sum(xs) == Sum(xs[..|xs| - 1]) + xs[|xs| - 1]
  {
  }

  lemma RemoveOne(xs: seq<real>, i: nat)
    requires i < |xs|
    ensures multiset(xs) == multiset(xs[..i] + xs[i + 1..]) + multiset{xs[i]}
  {
    assert xs == xs[..i] + [xs[i]] + xs[i + 1..];
  }

  lemma {:induction false} HeldSum(slots: seq<Slot>)
    ensures InPhaseTotal(slots, Held) == Sum(HeldBalances(slots))
  {
    if slots != [] {
      var rest := HeldBalances(slots[..|slots| - 1]);
      HeldSum(slots[..|slots| - 1]);
      assert (rest + [slots[|slots| - 1].bal])[..|rest|] == rest && rest + [] == rest;
    }
  }

  lemma {:induction false} ActiveSum(rows: seq<BotRow>, monitors: map<string, map<string, real>>)
    requires AllKnown(rows, monitors)
    ensures ActiveTotal(rows, monitors) == Sum(ActiveBalances(rows, monitors))
  {
    if rows != [] {
      var last := rows[|rows| - 1];
      var rest := ActiveBalances(rows[..|rows| - 1], monitors);
      ActiveSum(rows[..|rows| - 1], monitors);
      assert last.active ==> (rest + [monitors[last.uid][last.hash]])[..|rest|] == rest;
      assert rest + [] == rest;
    }
  }

  /** With nothing under way and the active rows naming the bots that hold balance, the balance a repair writes makes
      the user's balance whole again. */
  lemma RepairIsLedgerStep(s: System, plans: map<string, real>, rows: seq<BotRow>, monitors: map<string, map<string, real>>)
    requires Enabled(s, plans, Repair(true)) && AllKnown(rows, monitors)
    requires multiset(HeldBalances(s.slots)) == multiset(ActiveBalances(rows, monitors))
    ensures var correct := plans[s.row.value.plan] - ActiveTotal(rows, monitors);
      && Effect(s, plans, Repair(true)).row == Some(s.row.value.(remaining := correct))
      && Conserved(Effect(s, plans, Repair(true)), plans)
  {
    hide Sum, HeldBalances, ActiveBalances, ActiveTotal, InPhaseTotal, Committed, Conserved, Forgiven, Known;
    HeldSum(s.slots);
    ActiveSum(rows, monitors);
    SumPermuted(HeldBalances(s.slots), ActiveBalances(rows, monitors));
    RepairRestores(s, plans);
  }
}
