/**
 trader.go: the difference between two polls of a trader's positions.
 The source computes it by swap-removal on the slice it is given; here that loop is proved
 equal to a function on sequences, and the function is proved to be the set difference
 of the two snapshots and a patch that turns the first into the second.
 */
module TraderDiff {
  import opened Types

  type Key = (string, Side)

  function KeyOf(p: TraderPosition): Key { (p.symbol, p.side) }

  predicate HasKey(ps: seq<TraderPosition>, k: Key) {
    exists i :: 0 <= i < |ps| && KeyOf(ps[i]) == k
  }

  predicate UniqueKeys(ps: seq<TraderPosition>) {
    forall i, j :: 0 <= i < j < |ps| ==> KeyOf(ps[i]) != KeyOf(ps[j])
  }

  function CloseUpdate(was: TraderPosition): Update {
    Update(CloseLS, was.symbol, was.side, 0.0, was.timestamp, Abs(was.qty), was.entryPrice,
           was.qty * (was.markPrice - was.entryPrice), was.markPrice)
  }

  function ChangeUpdate(was: TraderPosition, now: TraderPosition): Update {
    Update(ChangeLS, now.symbol, now.side, Abs(now.qty), now.timestamp, Abs(was.qty), now.entryPrice,
           (Abs(was.qty) - Abs(now.qty)) * (was.markPrice - was.entryPrice), now.markPrice)
  }

  function OpenUpdate(now: TraderPosition): Update {
    Update(OpenLS, now.symbol, now.side, Abs(now.qty), now.timestamp, 0.0, now.entryPrice, 0.0, now.markPrice)
  }

  /** The inner loop from index i on: where it last matched, and the CHANGE updates it appends.
      It stops at a match of equal quantity and runs on after a match of another quantity. */
  function Scan(was: TraderPosition, live: seq<TraderPosition>, i: nat, found: int): (r: (int, seq<Update>))
    requires i <= |live|
    ensures r.0 == found || i <= r.0 < |live|
    decreases |live| - i
  {
    if i == |live| then (found, [])
    else if KeyOf(was) != KeyOf(live[i]) then Scan(was, live, i + 1, found)
    else if was.qty == live[i].qty then (i, [])
    else
      var rest := Scan(was, live, i + 1, i);
      (rest.0, [ChangeUpdate(was, live[i])] + rest.1)
  }

  lemma {:induction false} NoMatchNoChange(was: TraderPosition, live: seq<TraderPosition>, i: nat)
    requires i <= |live| && Scan(was, live, i, -1).0 == -1
    ensures Scan(was, live, i, -1).1 == []
    decreases |live| - i
  {
    if i < |live| { NoMatchNoChange(was, live, i + 1); }
  }

  lemma UpdatesAppend(us: seq<Update>, vs: seq<Update>, ws: seq<Update>)
    ensures us + (vs + ws) == (us + vs) + ws
  {
  }

  /** Overwrite with the last live element, then shorten. */
  function SwapRemove(live: seq<TraderPosition>, i: nat): seq<TraderPosition>
    requires i < |live|
  {
    live[i := live[|live| - 1]][..|live| - 1]
  }

  /** What one old position contributes: a CLOSE, a CHANGE or nothing. */
  function HeadUpdates(was: TraderPosition, live: seq<TraderPosition>): seq<Update> {
    var (at, changes) := Scan(was, live, 0, -1);
    if at == -1 then [CloseUpdate(was)] else changes
  }

  /** What stays live after one old position was looked up. */
  function NextLive(was: TraderPosition, live: seq<TraderPosition>): seq<TraderPosition> {
    var at := Scan(was, live, 0, -1).0;
    if at == -1 then live else SwapRemove(live, at)
  }

  /** What is still live once the given old positions have been looked up. */
  function Live(olds: seq<TraderPosition>, news: seq<TraderPosition>): seq<TraderPosition>
    decreases olds
  {
    if olds == [] then news else Live(olds[1..], NextLive(olds[0], news))
  }

  /** The outer loop looks its positions up one after the other. */
  lemma {:induction false} LiveAppend(olds: seq<TraderPosition>, was: TraderPosition, news: seq<TraderPosition>)
    ensures Live(olds + [was], news) == NextLive(was, Live(olds, news))
    decreases olds
  {
    if olds == [] {
      assert (olds + [was])[1..] == [];
    } else {
      assert (olds + [was])[1..] == olds[1..] + [was];
      LiveAppend(olds[1..], was, NextLive(olds[0], news));
    }
  }

  function Opens(live: seq<TraderPosition>): seq<Update> {
    seq(|live|, i requires 0 <= i < |live| => OpenUpdate(live[i]))
  }

  function Compare(olds: seq<TraderPosition>, live: seq<TraderPosition>): seq<Update>
    decreases olds
  {
    if olds == [] then Opens(live)
    else HeadUpdates(olds[0], live) + Compare(olds[1..], NextLive(olds[0], live))
  }

  /** One turn of the outer loop, on the positions before it and on those after. */
  lemma LoopTurn(olds: seq<TraderPosition>, j: nat, news: seq<TraderPosition>)
    requires j < |olds|
    ensures Live(olds[..j + 1], news) == NextLive(olds[j], Live(olds[..j], news))
    ensures Compare(olds[j..], Live(olds[..j], news))
      == HeadUpdates(olds[j], Live(olds[..j], news)) + Compare(olds[j + 1..], NextLive(olds[j], Live(olds[..j], news)))
  {
    LiveAppend(olds[..j], olds[j], news);
    assert olds[..j] + [olds[j]] == olds[..j + 1];
    assert olds[j..][0] == olds[j] && olds[j..][1..] == olds[j + 1..];
  }

  lemma LoopEnds(olds: seq<TraderPosition>, news: seq<TraderPosition>)
    ensures Live(olds[..0], news) == news && olds[0..] == olds && olds[..|olds|] == olds
    ensures forall live :: Compare(olds[|olds|..], live) == Opens(live)
  {
    assert olds[..0] == [] && olds[|olds|..] == [];
  }

  // ------------------------------------------------------------------
  // The source's loops
  // ------------------------------------------------------------------

  class Trader {
    var positions: seq<TraderPosition>

    constructor (initial: seq<TraderPosition>)
      ensures positions == initial
    {
      positions := initial;
    }

    /** The inner loop of ComparePositions: look one old position up among nPs[..upto + 1]. */
    method FindMatch(was: TraderPosition, nPs: array<TraderPosition>, upto: int)
      returns (thisPosIndex: int, changes: seq<Update>)
      requires -1 <= upto < nPs.Length
      ensures (thisPosIndex, changes) == Scan(was, nPs[..upto + 1], 0, -1)
    {
      ghost var live := nPs[..upto + 1];
      ghost var all := Scan(was, live, 0, -1);
      thisPosIndex, changes := -1, [];
      var i := 0;
      while i <= upto
        invariant 0 <= i <= upto + 1
        invariant all.0 == Scan(was, live, i, thisPosIndex).0
        invariant all.1 == changes + Scan(was, live, i, thisPosIndex).1
      {
        assert nPs[i] == live[i];
        if was.symbol == nPs[i].symbol && was.side == nPs[i].side {
          thisPosIndex := i;
          if was.qty == nPs[i].qty {
            break;
          }
          changes := changes + [ChangeUpdate(was, nPs[i])];
        }
        i := i + 1;
      }
      assert changes + [] == changes;
    }

    /** One turn of the outer loop. */
    method Settle(was: TraderPosition, nPs: array<TraderPosition>, upto: int)
      returns (updates: seq<Update>, upto': int)
      requires -1 <= upto < nPs.Length
      modifies nPs
      ensures updates == HeadUpdates(was, old(nPs[..upto + 1]))
      ensures -1 <= upto' <= upto && nPs[..upto' + 1] == NextLive(was, old(nPs[..upto + 1]))
    {
      ghost var live := nPs[..upto + 1];
      var thisPosIndex, changes := FindMatch(was, nPs, upto);
      updates, upto' := changes, upto;
      if thisPosIndex == -1 {
        NoMatchNoChange(was, live, 0);
        updates := updates + [CloseUpdate(was)];
      } else {
        nPs[thisPosIndex] := nPs[upto];
        upto' := upto - 1;
        assert nPs[..upto' + 1] == SwapRemove(live, thisPosIndex);
      }
    }

    /** Destroys nPs, whose live prefix it opens at the end; the caller passes a copy. */
    method ComparePositions(nPs: array<TraderPosition>) returns (updates: seq<Update>)
      modifies nPs
      ensures updates == Compare(positions, old(nPs[..]))
      ensures Live(positions, old(nPs[..])) <= nPs[..]
    {
      updates := [];
      var upto := nPs.Length - 1;
      ghost var news := nPs[..];
      assert nPs[..upto + 1] == news;
      LoopEnds(positions, news);
      hide Live, Compare, HeadUpdates, NextLive, Opens;
      for j := 0 to |positions|
        invariant -1 <= upto < nPs.Length
        invariant Compare(positions, news) == updates + Compare(positions[j..], nPs[..upto + 1])
        invariant nPs[..upto + 1] == Live(positions[..j], news)
      {
        ghost var live := nPs[..upto + 1];
        LoopTurn(positions, j, news);
        var more, upto' := Settle(positions[j], nPs, upto);
        UpdatesAppend(updates, more, Compare(positions[j + 1..], NextLive(positions[j], live)));
        updates, upto := updates + more, upto';
      }
      var openUpdates := OpenRest(nPs, upto);
      updates := updates + openUpdates;
    }

    /** The closing loop: what is still live has been opened. */
    method OpenRest(nPs: array<TraderPosition>, upto: int) returns (updates: seq<Update>)
      requires -1 <= upto < nPs.Length
      ensures updates == Opens(nPs[..upto + 1])
    {
      updates := [];
      ghost var live := nPs[..upto + 1];
      if upto != -1 {
        for i := 0 to upto + 1
          invariant updates == Opens(live)[..i]
        {
          assert nPs[i] == live[i];
          updates := updates + [OpenUpdate(nPs[i])];
        }
      }
    }

    /** A failed request changes nothing; otherwise the diff runs on a copy and the snapshot is returned untouched. */
    method GetUpdates(answer: Option<seq<TraderPosition>>) returns (r: Option<(seq<Update>, seq<TraderPosition>)>)
      ensures r == match answer
                   case None => None
                   case Some(nPs) => Some((Compare(positions, nPs), nPs))
    {
      match answer {
        case None =>
          return None;
        case Some(nPs) =>
          var nPsCopy := new TraderPosition[|nPs|](i requires 0 <= i < |nPs| => nPs[i]);
          assert nPsCopy[..] == nPs;
          var updates := ComparePositions(nPsCopy);
          return Some((updates, nPs));
      }
    }
  }

  // ------------------------------------------------------------------
  // Swap-removal refines set difference
  // ------------------------------------------------------------------

  predicate HasKeyFrom(ps: seq<TraderPosition>, from: nat, k: Key) {
    exists j :: from <= j < |ps| && KeyOf(ps[j]) == k
  }

  /** With unique keys the scan finds the one match, if there is one, and reports it when its quantity moved. */
  lemma {:induction false} ScanUnique(was: TraderPosition, live: seq<TraderPosition>, i: nat, found: int)
    requires UniqueKeys(live) && i <= |live|
    ensures !HasKeyFrom(live, i, KeyOf(was)) ==> Scan(was, live, i, found) == (found, [])
    ensures forall m :: i <= m < |live| && KeyOf(live[m]) == KeyOf(was) ==>
      Scan(was, live, i, found) == (m, if was.qty == live[m].qty then [] else [ChangeUpdate(was, live[m])])
    decreases |live| - i
  {
    if i < |live| {
      if KeyOf(live[i]) == KeyOf(was) {
        ScanUnique(was, live, i + 1, i);
        assert !HasKeyFrom(live, i + 1, KeyOf(was));
        assert [ChangeUpdate(was, live[i])] + [] == [ChangeUpdate(was, live[i])];
      } else {
        ScanUnique(was, live, i + 1, found);
      }
    }
  }

  /** The two ways one iteration of the outer loop ends. */
  lemma ScanCases(was: TraderPosition, live: seq<TraderPosition>) returns (at: int)
    requires UniqueKeys(live)
    ensures at == Scan(was, live, 0, -1).0
    ensures at == -1 ==> !HasKey(live, KeyOf(was)) && Scan(was, live, 0, -1).1 == []
    ensures at != -1 ==> 0 <= at < |live| && KeyOf(live[at]) == KeyOf(was)
    ensures at != -1 ==> Scan(was, live, 0, -1).1 == if was.qty == live[at].qty then [] else [ChangeUpdate(was, live[at])]
  {
    ScanUnique(was, live, 0, -1);
    if m :| 0 <= m < |live| && KeyOf(live[m]) == KeyOf(was) {
      at := m;
    } else {
      at := -1;
    }
  }

  /** Swap-removal drops exactly one element. */
  lemma SwapRemoveDrops(live: seq<TraderPosition>, i: nat)
    requires i < |live|
    ensures multiset(SwapRemove(live, i)) == multiset(live) - multiset{live[i]}
  {
    var last := |live| - 1;
    assert live == live[..last] + [live[last]];
    if i < last {
      assert live[..last] == live[..i] + [live[i]] + live[i + 1..last];
      assert SwapRemove(live, i) == live[..i] + [live[last]] + live[i + 1..last];
    } else {
      assert SwapRemove(live, i) == live[..last];
    }
  }

  lemma SwapRemoveKeys(live: seq<TraderPosition>, i: nat)
    requires i < |live| && UniqueKeys(live)
    ensures UniqueKeys(SwapRemove(live, i))
    ensures forall k :: HasKey(SwapRemove(live, i), k) <==> HasKey(live, k) && k != KeyOf(live[i])
    ensures forall p :: p in SwapRemove(live, i) <==> p in live && p != live[i]
  {
    var rest, last := SwapRemove(live, i), |live| - 1;
    assert forall j :: 0 <= j < |rest| ==> rest[j] == live[if j == i then last else j];
    forall j | 0 <= j < |live| && j != i
      ensures live[j] in rest && HasKey(rest, KeyOf(live[j]))
    {
      assert rest[if j == last then i else j] == live[j];
    }
  }

  predicate Distinct(ps: seq<TraderPosition>) {
    forall i, j :: 0 <= i < j < |ps| ==> ps[i] != ps[j]
  }

  lemma {:induction false} DistinctMultiset(ps: seq<TraderPosition>, p: TraderPosition)
    requires Distinct(ps)
    ensures multiset(ps)[p] == if p in ps then 1 else 0
  {
    if ps != [] {
      var rest := ps[1..];
      assert ps == [ps[0]] + rest;
      DistinctMultiset(rest, p);
    }
  }

  /** The new positions no old position accounts for, in their own order. */
  function Unmatched(olds: seq<TraderPosition>, news: seq<TraderPosition>): seq<TraderPosition> {
    if news == [] then []
    else (if HasKey(olds, KeyOf(news[0])) then [] else [news[0]]) + Unmatched(olds, news[1..])
  }

  lemma {:induction false} UnmatchedMembers(olds: seq<TraderPosition>, news: seq<TraderPosition>)
    requires UniqueKeys(news)
    ensures forall p :: p in Unmatched(olds, news) <==> p in news && !HasKey(olds, KeyOf(p))
    ensures Distinct(Unmatched(olds, news))
  {
    if news != [] {
      assert news == [news[0]] + news[1..];
      UnmatchedMembers(olds, news[1..]);
      assert news[0] !in news[1..] by {
        assert forall j :: 0 <= j < |news[1..]| ==> news[1..][j] == news[j + 1];
      }
    }
  }

  lemma {:induction false} LiveMembers(olds: seq<TraderPosition>, news: seq<TraderPosition>)
    requires UniqueKeys(news)
    ensures UniqueKeys(Live(olds, news))
    ensures forall p :: p in Live(olds, news) <==> p in news && !HasKey(olds, KeyOf(p))
    decreases olds
  {
    if olds != [] {
      assert olds == [olds[0]] + olds[1..];
      var at := ScanCases(olds[0], news);
      HeadKey(olds);
      if at == -1 {
        LiveMembers(olds[1..], news);
        forall p | p in news ensures KeyOf(p) != KeyOf(olds[0]) {}
      } else {
        SwapRemoveKeys(news, at);
        LiveMembers(olds[1..], SwapRemove(news, at));
        forall p | p in news && p != news[at] ensures KeyOf(p) != KeyOf(olds[0]) {
          var j :| 0 <= j < |news| && news[j] == p;
        }
      }
    }
  }

  lemma HeadKey(ps: seq<TraderPosition>)
    requires ps != []
    ensures forall k :: HasKey(ps, k) <==> k == KeyOf(ps[0]) || HasKey(ps[1..], k)
  {
    forall k | HasKey(ps[1..], k) ensures HasKey(ps, k) {
      var j :| 0 <= j < |ps[1..]| && KeyOf(ps[1..][j]) == k;
      assert ps[j + 1] == ps[1..][j];
    }
    forall k | HasKey(ps, k) && k != KeyOf(ps[0]) ensures HasKey(ps[1..], k) {
      var j :| 0 <= j < |ps| && KeyOf(ps[j]) == k;
      assert ps[1..][j - 1] == ps[j];
    }
  }

  /** The live prefix is always the multiset of the new positions not matched so far. */
  lemma LiveIsUnmatched(olds: seq<TraderPosition>, news: seq<TraderPosition>)
    requires UniqueKeys(news)
    ensures multiset(Live(olds, news)) == multiset(Unmatched(olds, news))
  {
    LiveMembers(olds, news);
    UnmatchedMembers(olds, news);
    var live, unmatched := Live(olds, news), Unmatched(olds, news);
    forall p ensures multiset(live)[p] == multiset(unmatched)[p] {
      DistinctMultiset(live, p);
      DistinctMultiset(unmatched, p);
    }
  }

  /** An update that some closed, changed or opened key calls for. */
  ghost predicate Expected(olds: seq<TraderPosition>, news: seq<TraderPosition>, u: Update) {
    || (exists o :: o in olds && !HasKey(news, KeyOf(o)) && u == CloseUpdate(o))
    || (exists o, n :: o in olds && n in news && KeyOf(o) == KeyOf(n) && o.qty != n.qty && u == ChangeUpdate(o, n))
    || (exists n :: n in news && !HasKey(olds, KeyOf(n)) && u == OpenUpdate(n))
  }

  function KeyOfUpdate(u: Update): Key { (u.symbol, u.side) }

  predicate OnePerKey(us: seq<Update>) {
    forall i, j :: 0 <= i < j < |us| ==> KeyOfUpdate(us[i]) != KeyOfUpdate(us[j])
  }

  predicate OpensLast(us: seq<Update>) {
    forall i, j :: 0 <= i < j < |us| && us[i].kind == OpenLS ==> us[j].kind == OpenLS
  }

  /** Looking up one old position removes its key, and only that, from the old and the live side. */
  lemma SettleKeys(olds: seq<TraderPosition>, live: seq<TraderPosition>)
    requires olds != [] && UniqueKeys(olds) && UniqueKeys(live)
    ensures UniqueKeys(olds[1..]) && UniqueKeys(NextLive(olds[0], live))
    ensures forall o :: o in olds[1..] <==> o in olds && KeyOf(o) != KeyOf(olds[0])
    ensures forall n :: n in NextLive(olds[0], live) <==> n in live && KeyOf(n) != KeyOf(olds[0])
    ensures forall k :: HasKey(olds[1..], k) <==> HasKey(olds, k) && k != KeyOf(olds[0])
    ensures forall k :: HasKey(NextLive(olds[0], live), k) <==> HasKey(live, k) && k != KeyOf(olds[0])
  {
    var at := ScanCases(olds[0], live);
    assert olds == [olds[0]] + olds[1..];
    HeadKey(olds);
    HeadKeyFresh(olds);
    SameKeySame(olds);
    SameKeySame(live);
    assert forall o :: o in olds[1..] ==> HasKey(olds[1..], KeyOf(o));
    if at != -1 {
      SwapRemoveKeys(live, at);
      assert live[at] in live;
    }
  }

  lemma ExpectedSplits(olds: seq<TraderPosition>, live: seq<TraderPosition>, u: Update)
    requires olds != [] && UniqueKeys(olds) && UniqueKeys(live)
    ensures Expected(olds, live, u) <==>
      u in HeadUpdates(olds[0], live) || Expected(olds[1..], NextLive(olds[0], live), u)
  {
    var o := olds[0];
    SettleKeys(olds, live);
    var at := ScanCases(o, live);
    ExpectedTail(olds, live, u);
    assert o in olds && HasKey(olds, KeyOf(o));
    SameKeySame(olds);
    SameKeySame(live);
    if at != -1 {
      assert live[at] in live;
    }
  }

  /** What is expected for the other keys does not depend on the first one. */
  lemma ExpectedTail(olds: seq<TraderPosition>, live: seq<TraderPosition>, u: Update)
    requires olds != [] && UniqueKeys(olds) && UniqueKeys(live)
    ensures Expected(olds[1..], NextLive(olds[0], live), u) <==>
      Expected(olds, live, u) && KeyOfUpdate(u) != KeyOf(olds[0])
  {
    SettleKeys(olds, live);
  }

  lemma OpensMembers(live: seq<TraderPosition>, u: Update)
    ensures u in Opens(live) <==> exists n :: n in live && u == OpenUpdate(n)
  {
    var us := Opens(live);
    assert |us| == |live|;
    if n :| n in live && u == OpenUpdate(n) {
      var i :| 0 <= i < |live| && live[i] == n;
      assert us[i] == u;
    }
    if u in us {
      var i :| 0 <= i < |us| && us[i] == u;
      assert live[i] in live;
    }
  }

  lemma {:induction false} CompareMembers(olds: seq<TraderPosition>, news: seq<TraderPosition>)
    requires UniqueKeys(olds) && UniqueKeys(news)
    ensures forall u :: u in Compare(olds, news) <==> Expected(olds, news, u)
    decreases olds
  {
    forall u ensures u in Compare(olds, news) <==> Expected(olds, news, u) {
      if olds == [] {
        OpensMembers(news, u);
      } else {
        ExpectedSplits(olds, news, u);
        SettleKeys(olds, news);
        CompareMembers(olds[1..], NextLive(olds[0], news));
      }
    }
  }

  /** Every key an update names is a key of one of the two snapshots. */
  lemma ExpectedKeys(olds: seq<TraderPosition>, news: seq<TraderPosition>, u: Update)
    requires Expected(olds, news, u)
    ensures HasKey(olds, KeyOfUpdate(u)) || HasKey(news, KeyOfUpdate(u))
  {
  }

  lemma {:induction false} CompareShape(olds: seq<TraderPosition>, news: seq<TraderPosition>)
    requires UniqueKeys(olds) && UniqueKeys(news)
    ensures OnePerKey(Compare(olds, news))
    ensures OpensLast(Compare(olds, news))
    decreases olds
  {
    if olds == [] {
      assert forall i :: 0 <= i < |news| ==> KeyOfUpdate(Opens(news)[i]) == KeyOf(news[i]);
    } else {
      var o, rest, next := olds[0], olds[1..], NextLive(olds[0], news);
      SettleKeys(olds, news);
      CompareShape(rest, next);
      var head, tail := HeadUpdates(o, news), Compare(rest, next);
      HeadShape(o, news);
      forall u | u in tail ensures KeyOfUpdate(u) != KeyOf(o) {
        CompareMembers(rest, next);
        ExpectedKeys(rest, next, u);
      }
      ShapeAppend(head, tail, KeyOf(o));
    }
  }

  lemma HeadShape(was: TraderPosition, live: seq<TraderPosition>)
    requires UniqueKeys(live)
    ensures |HeadUpdates(was, live)| <= 1
    ensures forall u :: u in HeadUpdates(was, live) ==> KeyOfUpdate(u) == KeyOf(was) && u.kind != OpenLS
  {
    var at := ScanCases(was, live);
  }

  lemma ShapeAppend(head: seq<Update>, tail: seq<Update>, k: Key)
    requires |head| <= 1 && forall u :: u in head ==> KeyOfUpdate(u) == k && u.kind != OpenLS
    requires OnePerKey(tail) && OpensLast(tail) && forall u :: u in tail ==> KeyOfUpdate(u) != k
    ensures OnePerKey(head + tail) && OpensLast(head + tail)
  {
    if head != [] {
      assert head == [head[0]];
    } else {
      assert head + tail == tail;
    }
  }

  /** One update per closed, changed or opened key, none for an unchanged one, and OPENs last. */
  lemma DiffIsSetDifference(olds: seq<TraderPosition>, news: seq<TraderPosition>)
    requires UniqueKeys(olds) && UniqueKeys(news)
    ensures forall u :: u in Compare(olds, news) <==> Expected(olds, news, u)
    ensures OnePerKey(Compare(olds, news)) && OpensLast(Compare(olds, news))
    ensures forall o, n :: o in olds && n in news && KeyOf(o) == KeyOf(n) && o.qty == n.qty ==>
      forall u :: u in Compare(olds, news) ==> KeyOfUpdate(u) != KeyOf(o)
  {
    CompareMembers(olds, news);
    CompareShape(olds, news);
    forall o, n, u | o in olds && n in news && KeyOf(o) == KeyOf(n) && o.qty == n.qty && u in Compare(olds, news)
      ensures KeyOfUpdate(u) != KeyOf(o)
    {
      SameKeySame(olds);
      SameKeySame(news);
    }
  }

  /** What an update tells of its position: an OPEN and a CHANGE its entry, time and price as just polled, a CLOSE those last
      seen; quantities without their sign; and the profit, at the price last seen, of what was closed or taken off. */
  lemma UpdateTells(olds: seq<TraderPosition>, news: seq<TraderPosition>, u: Update)
    requires UniqueKeys(olds) && UniqueKeys(news) && u in Compare(olds, news)
    ensures u.kind == CloseLS ==> exists o :: o in olds && ClosedBy(u, o)
    ensures u.kind == ChangeLS ==> exists o, n :: o in olds && n in news && ChangedBy(u, o, n)
    ensures u.kind == OpenLS ==> exists n :: n in news && OpenedBy(u, n)
  {
    DiffIsSetDifference(olds, news);
    hide Compare, CloseUpdate, ChangeUpdate, OpenUpdate, ClosedBy, ChangedBy, OpenedBy, UniqueKeys, OnePerKey, OpensLast;
    if o :| o in olds && u == CloseUpdate(o) {
      UpdateFields(o, o);
      assert ClosedBy(u, o);
    } else if o, n :| o in olds && n in news && KeyOf(o) == KeyOf(n) && u == ChangeUpdate(o, n) {
      UpdateFields(o, n);
      assert ChangedBy(u, o, n);
    } else {
      var n :| n in news && u == OpenUpdate(n);
      UpdateFields(n, n);
      assert OpenedBy(u, n);
    }
  }

  lemma UpdateFields(o: TraderPosition, n: TraderPosition)
    ensures ClosedBy(CloseUpdate(o), o) && OpenedBy(OpenUpdate(n), n)
    ensures KeyOf(o) == KeyOf(n) ==> ChangedBy(ChangeUpdate(o, n), o, n)
    ensures CloseUpdate(o).kind == CloseLS && ChangeUpdate(o, n).kind == ChangeLS && OpenUpdate(n).kind == OpenLS
  {
  }

  predicate ClosedBy(u: Update, o: TraderPosition) {
    && u.symbol == o.symbol && u.side == o.side && u.binQty == 0.0
    && u.oldBinQty == (if o.qty < 0.0 then -o.qty else o.qty)
    && u.timestamp == o.timestamp && u.entry == o.entryPrice && u.markPrice == o.markPrice
    && u.pnl == o.qty * (o.markPrice - o.entryPrice)
  }

  predicate ChangedBy(u: Update, o: TraderPosition, n: TraderPosition) {
    && u.symbol == o.symbol == n.symbol && u.side == o.side == n.side
    && u.oldBinQty == (if o.qty < 0.0 then -o.qty else o.qty) && u.binQty == (if n.qty < 0.0 then -n.qty else n.qty)
    && u.timestamp == n.timestamp && u.entry == n.entryPrice && u.markPrice == n.markPrice
    && u.pnl == (u.oldBinQty - u.binQty) * (o.markPrice - o.entryPrice)
  }

  predicate OpenedBy(u: Update, n: TraderPosition) {
    && u.symbol == n.symbol && u.side == n.side && u.oldBinQty == 0.0
    && u.binQty == (if n.qty < 0.0 then -n.qty else n.qty)
    && u.timestamp == n.timestamp && u.entry == n.entryPrice && u.markPrice == n.markPrice && u.pnl == 0.0
  }

  /** The profit a CHANGE names is the one made, that of a CLOSE of the quantity taken off, unless the position is short:
      then it has the other sign. */
  lemma ChangePnlIff(o: TraderPosition, n: TraderPosition)
    requires (o.qty >= 0.0 && n.qty >= 0.0) || (o.qty <= 0.0 && n.qty <= 0.0)
    ensures var made := CloseUpdate(o.(qty := o.qty - n.qty)).pnl;
      && (ChangeUpdate(o, n).pnl == made <==> o.qty + n.qty > 0.0 || o.qty == n.qty || o.markPrice == o.entryPrice)
      && (o.qty + n.qty <= 0.0 ==> ChangeUpdate(o, n).pnl == -made)
  {
    var taken, move := o.qty - n.qty, o.markPrice - o.entryPrice;
    assert CloseUpdate(o.(qty := taken)).pnl == taken * move;
    assert ChangeUpdate(o, n).pnl == if o.qty + n.qty > 0.0 then taken * move else (-taken) * move;
    NoProductZero(taken, move);
  }

  lemma NoProductZero(x: real, y: real)
    ensures (-x) * y == -(x * y)
    ensures x * y == 0.0 <==> x == 0.0 || y == 0.0
  {
  }

  lemma SameKeySame(ps: seq<TraderPosition>)
    requires UniqueKeys(ps)
    ensures forall p, q :: p in ps && q in ps && KeyOf(p) == KeyOf(q) ==> p == q
  {
    forall p, q | p in ps && q in ps && KeyOf(p) == KeyOf(q) ensures p == q {
      var i :| 0 <= i < |ps| && ps[i] == p;
      var j :| 0 <= j < |ps| && ps[j] == q;
    }
  }

  // ------------------------------------------------------------------
  // Replaying the updates
  // ------------------------------------------------------------------

  /** A snapshot seen as a map from symbol and side to absolute quantity. */
  function Book(ps: seq<TraderPosition>): map<Key, real> {
    if ps == [] then map[] else Book(ps[1..])[KeyOf(ps[0]) := Abs(ps[0].qty)]
  }

  /** An OPEN hits an absent key; a CHANGE or CLOSE hits a key holding the old quantity it names. */
  predicate Applies(book: map<Key, real>, u: Update) {
    var k := KeyOfUpdate(u);
    if u.kind == OpenLS then k !in book else k in book && book[k] == u.oldBinQty
  }

  function Apply(book: map<Key, real>, u: Update): map<Key, real> {
    var k := KeyOfUpdate(u);
    if u.kind == CloseLS then book - {k} else book[k := u.binQty]
  }

  function Replay(book: map<Key, real>, us: seq<Update>): map<Key, real>
    decreases us
  {
    if us == [] then book else Replay(Apply(book, us[0]), us[1..])
  }

  predicate AllApply(book: map<Key, real>, us: seq<Update>)
    decreases us
  {
    us == [] || (Applies(book, us[0]) && AllApply(Apply(book, us[0]), us[1..]))
  }

  lemma {:induction false} ReplayAppend(book: map<Key, real>, us: seq<Update>, vs: seq<Update>)
    ensures Replay(book, us + vs) == Replay(Replay(book, us), vs)
    ensures AllApply(book, us + vs) <==> AllApply(book, us) && AllApply(Replay(book, us), vs)
    decreases us
  {
    if us == [] {
      assert us + vs == vs;
    } else {
      assert (us + vs)[1..] == us[1..] + vs;
      ReplayAppend(Apply(book, us[0]), us[1..], vs);
    }
  }

  lemma {:induction false} OpensPatch(done: map<Key, real>, live: seq<TraderPosition>)
    requires UniqueKeys(live)
    requires forall k :: HasKey(live, k) ==> k !in done
    ensures AllApply(done, Opens(live))
    ensures Replay(done, Opens(live)) == done + Book(live)
    decreases live
  {
    if live == [] {
      assert Opens(live) == [];
      assert done + Book(live) == done;
    } else {
      var rest := live[1..];
      assert Opens(live)[1..] == Opens(rest);
      HeadKey(live);
      HeadKeyFresh(live);
      var done' := done[KeyOf(live[0]) := Abs(live[0].qty)];
      assert Apply(done, Opens(live)[0]) == done';
      OpensPatch(done', rest);
      NotInBook(rest, KeyOf(live[0]));
      SettleKey(done, Book(rest), KeyOf(live[0]), 0.0, Abs(live[0].qty));
    }
  }

  lemma {:induction false} BookEntries(ps: seq<TraderPosition>)
    requires UniqueKeys(ps)
    ensures forall k :: k in Book(ps) <==> HasKey(ps, k)
    ensures forall p :: p in ps ==> KeyOf(p) in Book(ps) && Book(ps)[KeyOf(p)] == Abs(p.qty)
  {
    if ps != [] {
      var rest := ps[1..];
      assert ps == [ps[0]] + rest;
      BookEntries(rest);
      HeadKey(ps);
      HeadKeyFresh(ps);
      forall p | p in rest ensures KeyOf(p) != KeyOf(ps[0]) {
        var j :| 0 <= j < |rest| && rest[j] == p;
      }
    }
  }

  lemma HeadKeyFresh(ps: seq<TraderPosition>)
    requires ps != [] && UniqueKeys(ps)
    ensures UniqueKeys(ps[1..]) && !HasKey(ps[1..], KeyOf(ps[0]))
  {
    assert forall j :: 0 <= j < |ps[1..]| ==> ps[1..][j] == ps[j + 1];
  }

  /** A book is determined by which positions are listed, not by their order. */
  lemma BookDetermined(ps: seq<TraderPosition>, book: map<Key, real>)
    requires UniqueKeys(ps)
    requires forall k :: k in book <==> HasKey(ps, k)
    requires forall p :: p in ps ==> KeyOf(p) in book && book[KeyOf(p)] == Abs(p.qty)
    ensures Book(ps) == book
  {
    BookEntries(ps);
    forall k | k in book ensures Book(ps)[k] == book[k] {
      var i :| 0 <= i < |ps| && KeyOf(ps[i]) == k;
      assert ps[i] in ps;
    }
  }

  lemma BookSwapRemove(live: seq<TraderPosition>, i: nat)
    requires i < |live| && UniqueKeys(live)
    ensures UniqueKeys(SwapRemove(live, i))
    ensures Book(live) == Book(SwapRemove(live, i))[KeyOf(live[i]) := Abs(live[i].qty)]
  {
    SwapRemoveKeys(live, i);
    SameKeySame(live);
    var rest := SwapRemove(live, i);
    var k, book := KeyOf(live[i]), Book(rest)[KeyOf(live[i]) := Abs(live[i].qty)];
    BookEntries(rest);
    forall p | p in live ensures KeyOf(p) in book && book[KeyOf(p)] == Abs(p.qty) {
      if p != live[i] {
        assert p in rest;
        assert KeyOf(p) != k by { assert live[i] in live; }
      }
    }
    forall k' ensures k' in book <==> HasKey(live, k') {
      assert k' == k ==> KeyOf(live[i]) == k';
    }
    BookDetermined(live, book);
  }

  /** One turn of the outer loop on the book: the first old key is dropped, kept or moved. */
  lemma HeadReplay(was: TraderPosition, live: seq<TraderPosition>, book: map<Key, real>)
    requires UniqueKeys(live)
    requires KeyOf(was) in book && book[KeyOf(was)] == Abs(was.qty)
    ensures AllApply(book, HeadUpdates(was, live))
    ensures var at := Scan(was, live, 0, -1).0;
      at == -1 || 0 <= at < |live|
    ensures var at := Scan(was, live, 0, -1).0;
      Replay(book, HeadUpdates(was, live)) == if at == -1 then book - {KeyOf(was)} else book[KeyOf(was) := Abs(live[at].qty)]
  {
    var at := ScanCases(was, live);
    var head := HeadUpdates(was, live);
    if head == [] {
      assert book == book[KeyOf(was) := Abs(live[at].qty)];
    } else {
      assert head[1..] == [];
      assert KeyOfUpdate(head[0]) == KeyOf(was) && head[0].kind != OpenLS && head[0].oldBinQty == Abs(was.qty);
      assert AllApply(Apply(book, head[0]), []);
    }
  }

  /** What that turn leaves to do, with its key settled. */
  lemma PatchHead(done: map<Key, real>, olds: seq<TraderPosition>, live: seq<TraderPosition>)
    returns (done': map<Key, real>)
    requires olds != [] && UniqueKeys(olds) && UniqueKeys(live)
    requires forall k :: HasKey(olds, k) || HasKey(live, k) ==> k !in done
    ensures UniqueKeys(olds[1..]) && UniqueKeys(NextLive(olds[0], live))
    ensures AllApply(done + Book(olds), HeadUpdates(olds[0], live))
    ensures Replay(done + Book(olds), HeadUpdates(olds[0], live)) == done' + Book(olds[1..])
    ensures forall k :: HasKey(olds[1..], k) || HasKey(NextLive(olds[0], live), k) ==> k !in done'
    ensures done' + Book(NextLive(olds[0], live)) == done + Book(live)
  {
    var was, rest := olds[0], olds[1..];
    var k := KeyOf(was);
    HeadKey(olds);
    HeadKeyFresh(olds);
    NotInBook(rest, k);
    var at := ScanCases(was, live);
    HeadReplay(was, live, done + Book(olds));
    if at == -1 {
      done' := done;
      SettleKey(done, Book(rest), k, Abs(was.qty), 0.0);
    } else {
      var moved, next := Abs(live[at].qty), SwapRemove(live, at);
      done' := done[k := moved];
      SettleKey(done, Book(rest), k, Abs(was.qty), moved);
      BookSwapRemove(live, at);
      SwapRemoveKeys(live, at);
      NotInBook(next, k);
      SettleKey(done, Book(next), k, moved, moved);
    }
  }

  lemma NotInBook(ps: seq<TraderPosition>, k: Key)
    requires UniqueKeys(ps) && !HasKey(ps, k)
    ensures k !in Book(ps)
  {
    BookEntries(ps);
  }

  lemma SettleKey(done: map<Key, real>, book: map<Key, real>, k: Key, v: real, w: real)
    requires k !in done && k !in book
    ensures (done + book[k := v]) - {k} == done + book
    ensures (done + book[k := v])[k := w] == done[k := w] + book == done + book[k := w]
  {
  }

  /** Partway through the outer loop: `done` holds the keys already settled. */
  lemma {:induction false} PatchFrom(done: map<Key, real>, olds: seq<TraderPosition>, live: seq<TraderPosition>)
    requires UniqueKeys(olds) && UniqueKeys(live)
    requires forall k :: HasKey(olds, k) || HasKey(live, k) ==> k !in done
    ensures AllApply(done + Book(olds), Compare(olds, live))
    ensures Replay(done + Book(olds), Compare(olds, live)) == done + Book(live)
    decreases olds
  {
    if olds == [] {
      assert done + Book(olds) == done;
      OpensPatch(done, live);
    } else {
      var done' := PatchHead(done, olds, live);
      var next := NextLive(olds[0], live);
      PatchFrom(done', olds[1..], next);
      ReplayAppend(done + Book(olds), HeadUpdates(olds[0], live), Compare(olds[1..], next));
    }
  }

  /** The updates of one poll turn the old snapshot into the new one, each applying where it must. */
  lemma DiffIsPatch(olds: seq<TraderPosition>, news: seq<TraderPosition>)
    requires UniqueKeys(olds) && UniqueKeys(news)
    ensures AllApply(Book(olds), Compare(olds, news))
    ensures Replay(Book(olds), Compare(olds, news)) == Book(news)
  {
    assert map[] + Book(olds) == Book(olds) && map[] + Book(news) == Book(news);
    PatchFrom(map[], olds, news);
  }

  /** Positions built by NewPosition carry the sign of their quantity as side. */
  predicate SideIsSign(ps: seq<TraderPosition>) {
    forall p :: p in ps ==> p.side == if p.qty >= 0.0 then Buy else Sell
  }

  lemma FetchedSideIsSign(qty: real, timestamp: real, coin: string, entry: real, pnl: real, mark: real)
    ensures var p := NewPosition(qty, timestamp, coin, entry, pnl, mark);
      && SideIsSign([p])
      && p.symbol == coin && p.qty == qty && p.timestamp == timestamp && p.entryPrice == entry && p.pnl == pnl && p.markPrice == mark
  {
  }

  /** An update is emitted for a key exactly when the two snapshots, as maps, disagree on it. */
  lemma ReportedIffBooksDiffer(olds: seq<TraderPosition>, news: seq<TraderPosition>, k: Key)
    requires UniqueKeys(olds) && UniqueKeys(news) && SideIsSign(olds) && SideIsSign(news)
    ensures Reported(olds, news, k) <==>
      !(k in Book(olds) <==> k in Book(news)) || (k in Book(olds) && Book(olds)[k] != Book(news)[k])
  {
    CompareMembers(olds, news);
    BookEntries(olds);
    BookEntries(news);
    if HasKey(olds, k) && HasKey(news, k) {
      var i :| 0 <= i < |olds| && KeyOf(olds[i]) == k;
      var j :| 0 <= j < |news| && KeyOf(news[j]) == k;
      ReportedWhenBoth(olds, news, olds[i], news[j]);
    } else if i :| 0 <= i < |olds| && KeyOf(olds[i]) == k {
      assert olds[i] in olds && Expected(olds, news, CloseUpdate(olds[i]));
      assert KeyOfUpdate(CloseUpdate(olds[i])) == k;
    } else if j :| 0 <= j < |news| && KeyOf(news[j]) == k {
      assert news[j] in news && Expected(olds, news, OpenUpdate(news[j]));
      assert KeyOfUpdate(OpenUpdate(news[j])) == k;
    } else if Reported(olds, news, k) {
      var u :| u in Compare(olds, news) && KeyOfUpdate(u) == k;
      ExpectedKeys(olds, news, u);
    }
  }

  ghost predicate Reported(olds: seq<TraderPosition>, news: seq<TraderPosition>, k: Key) {
    exists u :: u in Compare(olds, news) && KeyOfUpdate(u) == k
  }

  lemma ReportedWhenBoth(olds: seq<TraderPosition>, news: seq<TraderPosition>, was: TraderPosition, now: TraderPosition)
    requires UniqueKeys(olds) && UniqueKeys(news) && SideIsSign(olds) && SideIsSign(news)
    requires was in olds && now in news && KeyOf(was) == KeyOf(now)
    ensures Reported(olds, news, KeyOf(was)) <==> Abs(was.qty) != Abs(now.qty)
  {
    DiffIsSetDifference(olds, news);
    assert was.qty == now.qty <==> Abs(was.qty) == Abs(now.qty);
    if was.qty != now.qty {
      assert Expected(olds, news, ChangeUpdate(was, now));
      assert KeyOfUpdate(ChangeUpdate(was, now)) == KeyOf(was);
    }
  }
}
