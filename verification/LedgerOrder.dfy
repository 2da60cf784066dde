/**
 That the order asked of the ledger's steps is exactly the one needed: a step out of order can be followed, in order,
 to a balance that is wrong.
 */
module LedgerOrder {
  import opened Types
  import opened Ledger

  ghost predicate Positive(s: System, e: Event) {
    (forall i :: 0 <= i < |s.slots| ==> s.slots[i].bal > 0.0) && (e.Reserve? ==> e.bal > 0.0)
  }

  lemma {:induction false} SomethingCommitted(slots: seq<Slot>)
    requires forall i :: 0 <= i < |slots| ==> slots[i].bal > 0.0
    ensures Committed(slots) >= 0.0
    ensures !NothingOut(slots) ==> Committed(slots) > 0.0
  {
    if slots != [] {
      SomethingCommitted(slots[..|slots| - 1]);
    }
  }

  /** A move changes what is handed out. */
  lemma MovedCommitted(s: System, plans: map<string, real>, e: Event)
    requires Enabled(s, plans, e) && Moves(s, e) && Positive(s, e) && SoleStops(s)
    ensures Committed(Effect(s, plans, e).slots) != Committed(s.slots)
  {
    hide Committed;
    match e {
      case Reserve(bal) => ReserveCommitted(s.slots, Slot(bal, Reserved));
      case Refund(i, ok) => CommittedUpdate(s.slots, i, s.slots[i].(phase := Returned));
      case Credit(k, ok) =>
        assert Settled(s, k);
        CommittedUpdate(s.slots, s.stops[k].slot, s.slots[s.stops[k].slot].(phase := Returned));
    }
  }

  /** Steps that only carry plan changes on, with nothing of the slots touched. */
  lemma WriteStale(s: System, plans: map<string, real>, c: nat)
    requires Open(s, plans, c) && s.changes[c].stage == Wiped && s.row.None? && s.changes[c].balanceInBots != Committed(s.slots)
    ensures var rest := [PlanWrite(c, true)] + [];
      Runs(s, plans, rest) && AllOrderly(s, plans, rest) && !Conserved(Final(s, plans, rest), plans)
  {
    hide Committed;
    var e := PlanWrite(c, true);
    var next := Effect(s, plans, e);
    assert !Conserved(next, plans);
    assert Orderly(s, plans, e);
    assert Runs(next, plans, []) && AllOrderly(next, plans, []) && Final(next, plans, []) == next;
    hide Effect, Enabled, Runs, Final, AllOrderly, Conserved;
    First(s, plans, e, []);
    FirstOrderly(s, plans, e, []);
  }

  lemma FirstOrderly(s: System, plans: map<string, real>, e: Event, rest: seq<Event>)
    requires Enabled(s, plans, e) && Runs(Effect(s, plans, e), plans, rest)
    requires Orderly(s, plans, e) && AllOrderly(Effect(s, plans, e), plans, rest)
    ensures Runs(s, plans, [e] + rest) && AllOrderly(s, plans, [e] + rest)
  {
    assert ([e] + rest)[1..] == rest;
    hide Enabled, Effect, Orderly;
  }

  /** From a state in which an open change has a stale figure, it can go on to write it. */
  lemma StaleBreaks(s: System, plans: map<string, real>, c: nat) returns (rest: seq<Event>)
    requires Open(s, plans, c) && s.changes[c].balanceInBots != Committed(s.slots)
    requires s.row.Some? ==> s.row.value.plan in plans
    ensures Runs(s, plans, rest) && AllOrderly(s, plans, rest) && !Conserved(Final(s, plans, rest), plans)
  {
    hide Committed, Runs, AllOrderly, Final, Conserved;
    if s.row.None? && s.changes[c].stage == Wiped {
      WriteStale(s, plans, c);
      rest := [PlanWrite(c, true)] + [];
    } else if s.changes[c].stage == Read {
      var e := PlanWipe(c);
      var write := [PlanWrite(c, true)] + [];
      WriteStale(Effect(s, plans, e), plans, c);
      hide Effect, Enabled;
      First(s, plans, e, write);
      FirstOrderly(s, plans, e, write);
      rest := [e] + write;
    } else {
      rest := WipeAndWrite(s, plans, c);
    }
  }

  /** With the row back meanwhile, it takes another change to delete it. */
  lemma WipeAndWrite(s: System, plans: map<string, real>, c: nat) returns (rest: seq<Event>)
    requires Open(s, plans, c) && s.changes[c].stage == Wiped && s.changes[c].balanceInBots != Committed(s.slots)
    requires s.row.Some? && s.row.value.plan in plans
    ensures Runs(s, plans, rest) && AllOrderly(s, plans, rest) && !Conserved(Final(s, plans, rest), plans)
  {
    hide Committed, Runs, AllOrderly, Final, Conserved;
    var d := |s.changes|;
    var read, wipe := PlanRead(s.row.value.plan), PlanWipe(d);
    var s1 := Effect(s, plans, read);
    var s2 := Effect(s1, plans, wipe);
    assert s2.changes[c] == s.changes[c] && s2.row.None? && s2.slots == s.slots;
    WriteStale(s2, plans, c);
    var write := [PlanWrite(c, true)] + [];
    hide Effect, Enabled, Open;
    First(s1, plans, wipe, write);
    FirstOrderly(s1, plans, wipe, write);
    First(s, plans, read, [wipe] + write);
    FirstOrderly(s, plans, read, [wipe] + write);
    rest := [read] + ([wipe] + write);
  }

  /** Two runs, one after the other. */
  lemma {:induction false} Append(s: System, plans: map<string, real>, a: seq<Event>, b: seq<Event>)
    requires Runs(s, plans, a) && AllOrderly(s, plans, a)
    requires Runs(Final(s, plans, a), plans, b) && AllOrderly(Final(s, plans, a), plans, b)
    ensures Runs(s, plans, a + b) && AllOrderly(s, plans, a + b)
    ensures Final(s, plans, a + b) == Final(Final(s, plans, a), plans, b)
    decreases a
  {
    hide Enabled, Effect, Orderly;
    if a == [] {
      assert a + b == b;
    } else {
      assert (a + b)[1..] == a[1..] + b;
      Append(Effect(s, plans, a[0]), plans, a[1..], b);
    }
  }

  predicate AllOver(s: System, n: nat) { forall c :: n <= c < |s.changes| ==> s.changes[c].stage == Over }

  /** With a row there, every plan change can be brought to its end without touching it. */
  lemma {:induction false} CloseAll(s: System, plans: map<string, real>, n: nat) returns (rest: seq<Event>)
    requires s.row.Some? && n <= |s.changes| && AllOver(s, n)
    ensures Runs(s, plans, rest) && AllOrderly(s, plans, rest)
    ensures var end := Final(s, plans, rest);
      end.row == s.row && end.slots == s.slots && end.stops == s.stops && AllOver(end, 0)
    decreases n
  {
    if n == 0 {
      rest := [];
      NoEvents(s, plans);
    } else if s.changes[n - 1].stage == Over {
      rest := CloseAll(s, plans, n - 1);
    } else {
      var e := if s.changes[n - 1].stage == Read then PlanAbort(n - 1) else PlanWrite(n - 1, false);
      var next := Effect(s, plans, e);
      assert Orderly(s, plans, e) && Enabled(s, plans, e);
      assert next.row == s.row && next.slots == s.slots && next.stops == s.stops && AllOver(next, n - 1);
      hide Effect, Enabled, Orderly, Runs, AllOrderly, Final;
      var more := CloseAll(next, plans, n - 1);
      First(s, plans, e, more);
      FirstOrderly(s, plans, e, more);
      rest := [e] + more;
    }
  }

  lemma GetRowWiped(s: System, plans: map<string, real>, c: nat) returns (rest: seq<Event>)
    requires s.row.None? && Open(s, plans, c) && Figures(s, plans) && s.changes[c].stage == Wiped
    ensures Runs(s, plans, rest) && AllOrderly(s, plans, rest)
    ensures var end := Final(s, plans, rest);
      end.row.Some? && Conserved(end, plans) && end.slots == s.slots && end.stops == s.stops
  {
    var e := PlanWrite(c, true);
    var next := Effect(s, plans, e);
    assert Orderly(s, plans, e) && Conserved(next, plans);
    NoEvents(next, plans);
    hide Effect, Enabled, Orderly, Runs, AllOrderly, Final, Conserved;
    First(s, plans, e, []);
    FirstOrderly(s, plans, e, []);
    rest := [e] + [];
  }

  /** A change that found a row, or nothing out, can write one. */
  lemma GetRow(s: System, plans: map<string, real>, c: nat) returns (rest: seq<Event>)
    requires s.row.None? && Open(s, plans, c) && Figures(s, plans)
    ensures Runs(s, plans, rest) && AllOrderly(s, plans, rest)
    ensures var end := Final(s, plans, rest);
      end.row.Some? && Conserved(end, plans) && end.slots == s.slots && end.stops == s.stops
  {
    if s.changes[c].stage == Wiped {
      rest := GetRowWiped(s, plans, c);
    } else {
      var e := PlanWipe(c);
      var next := Effect(s, plans, e);
      assert Orderly(s, plans, e);
      assert next.slots == s.slots && next.stops == s.stops && next.changes[c].stage == Wiped;
      forall d: nat | Open(next, plans, d) ensures next.changes[d].balanceInBots == Committed(next.slots) {
        assert Open(s, plans, d);
      }
      assert Open(next, plans, c) && next.row.None?;
      hide Effect, Enabled, Orderly, Runs, AllOrderly, Final, Figures, Conserved;
      var more := GetRowWiped(next, plans, c);
      First(s, plans, e, more);
      FirstOrderly(s, plans, e, more);
      rest := [e] + more;
    }
  }

  /** Two requests have looked one running bot up. */
  predicate TwoLooks(s: System, k: nat, l: nat) {
    && StopAt(s, k, LookedUp) && StopAt(s, l, LookedUp) && k != l && s.stops[k].slot == s.stops[l].slot
    && s.slots[s.stops[k].slot].phase == Held && s.slots[s.stops[k].slot].bal > 0.0
  }

  /** With nothing else under way both remove it, and both credit it. */
  lemma BothCredit(s: System, plans: map<string, real>, k: nat, l: nat) returns (rest: seq<Event>)
    requires s.row.Some? && Conserved(s, plans) && AllOver(s, 0) && TwoLooks(s, k, l)
    ensures Runs(s, plans, rest) && AllOrderly(s, plans, rest) && !Conserved(Final(s, plans, rest), plans)
  {
    var i := s.stops[k].slot;
    var s1 := Effect(s, plans, StopRemove(k));
    var s2 := Effect(s1, plans, StopRemove(l));
    assert s2.slots == s.slots[i := s.slots[i].(phase := Crediting)] && s2.row == s.row && s2.changes == s.changes;
    assert StopAt(s2, k, Removed) && StopAt(s2, l, Removed) && s2.stops[k].slot == s2.stops[l].slot == i;
    CommittedUpdate(s.slots, i, s.slots[i].(phase := Crediting));
    rest := CreditBoth(s2, plans, k, l);
    hide Effect, Enabled, Runs, AllOrderly, Final, Conserved, Committed, Moves;
    First(s1, plans, StopRemove(l), rest);
    FirstOrderly(s1, plans, StopRemove(l), rest);
    First(s, plans, StopRemove(k), [StopRemove(l)] + rest);
    FirstOrderly(s, plans, StopRemove(k), [StopRemove(l)] + rest);
    rest := [StopRemove(k)] + ([StopRemove(l)] + rest);
  }

  lemma CreditBoth(s: System, plans: map<string, real>, k: nat, l: nat) returns (rest: seq<Event>)
    requires s.row.Some? && Conserved(s, plans) && AllOver(s, 0) && k != l
    requires StopAt(s, k, Removed) && StopAt(s, l, Removed) && s.stops[k].slot == s.stops[l].slot
    requires s.slots[s.stops[k].slot].phase == Crediting && s.slots[s.stops[k].slot].bal > 0.0
    ensures Runs(s, plans, rest) && AllOrderly(s, plans, rest) && !Conserved(Final(s, plans, rest), plans)
  {
    hide Committed;
    var i := s.stops[k].slot;
    var s1 := Effect(s, plans, Credit(k, true));
    CommittedUpdate(s.slots, i, s.slots[i].(phase := Returned));
    assert s1.slots[i].phase == Returned && s1.slots[i].bal == s.slots[i].bal && StopAt(s1, l, Removed);
    var s2 := Effect(s1, plans, Credit(l, true));
    assert s2.slots == s1.slots;
    assert !Conserved(s2, plans);
    NothingChanges(s, plans);
    NothingChanges(s1, plans);
    NoEvents(s2, plans);
    hide Effect, Enabled, Runs, AllOrderly, Final, Conserved, Moves, Changing;
    First(s1, plans, Credit(l, true), []);
    FirstOrderly(s1, plans, Credit(l, true), []);
    First(s, plans, Credit(k, true), [Credit(l, true)] + []);
    FirstOrderly(s, plans, Credit(k, true), [Credit(l, true)] + []);
    rest := [Credit(k, true)] + ([Credit(l, true)] + []);
  }

  lemma NothingChanges(s: System, plans: map<string, real>)
    requires AllOver(s, 0)
    ensures !Changing(s, plans)
  {
  }

  /** A second look-up of a bot can go on to two credits, for a user who has a row or is being given one. */
  lemma SecondLookBreaks(s: System, plans: map<string, real>, k: nat, l: nat) returns (rest: seq<Event>)
    requires Conserved(s, plans) && Figures(s, plans) && TwoLooks(s, k, l) && (s.row.Some? || Changing(s, plans))
    ensures Runs(s, plans, rest) && AllOrderly(s, plans, rest) && !Conserved(Final(s, plans, rest), plans)
  {
    hide Runs, AllOrderly, Final, Effect, Enabled, Orderly, Committed;
    var there: seq<Event> := [];
    NoEvents(s, plans);
    if s.row.None? {
      var c: nat :| Open(s, plans, c);
      there := GetRow(s, plans, c);
    }
    var s1 := Final(s, plans, there);
    var closing := CloseAll(s1, plans, |s1.changes|);
    var s2 := Final(s1, plans, closing);
    var credits := BothCredit(s2, plans, k, l);
    Append(s1, plans, closing, credits);
    Append(s, plans, there, closing + credits);
    rest := there + (closing + credits);
  }

  ghost predicate Conserves(s: System, plans: map<string, real>, rest: seq<Event>) {
    Runs(s, plans, rest) && AllOrderly(s, plans, rest) ==> Conserved(Final(s, plans, rest), plans)
  }

  /** A step out of order can be followed by orderly ones to a balance that is wrong. */
  lemma DisorderBreaks(s: System, plans: map<string, real>, e: Event) returns (rest: seq<Event>)
    requires Conserved(s, plans) && Figures(s, plans) && SoleStops(s) && Enabled(s, plans, e) && Positive(s, e)
    requires !Orderly(s, plans, e) && (e.StopLook? ==> s.row.Some? || Changing(s, plans))
    ensures !Conserves(Effect(s, plans, e), plans, rest)
  {
    hide Committed, Runs, AllOrderly, Final;
    var next := Effect(s, plans, e);
    if Moves(s, e) {
      var c: nat :| Open(s, plans, c);
      MovedCommitted(s, plans, e);
      assert Open(next, plans, c);
      rest := StaleBreaks(next, plans, c);
    } else if e.StopLook? {
      rest := LookAgain(s, plans, e.i);
    } else {
      SomethingCommitted(s.slots);
      if e.NewUser? {
        rest := [];
        assert !Conserved(next, plans);
        NoEvents(next, plans);
      } else {
        assert Open(next, plans, |s.changes|);
        rest := StaleBreaks(next, plans, |s.changes|);
      }
    }
  }

  lemma LookAgain(s: System, plans: map<string, real>, i: nat) returns (rest: seq<Event>)
    requires Conserved(s, plans) && Figures(s, plans) && InPhase(s, i, Held) && BeingStopped(s, i) && s.slots[i].bal > 0.0
    requires s.row.Some? || Changing(s, plans)
    ensures !Conserves(Effect(s, plans, StopLook(i)), plans, rest)
  {
    hide Committed, Runs, AllOrderly, Final;
    var next := Effect(s, plans, StopLook(i));
    var k :| 0 <= k < |s.stops| && s.stops[k].slot == i && s.stops[k].stage == LookedUp;
    assert TwoLooks(next, k, |s.stops|);
    assert forall c: nat :: Open(next, plans, c) <==> Open(s, plans, c);
    if s.row.None? {
      var c: nat :| Open(s, plans, c);
      assert Open(next, plans, c);
    }
    rest := SecondLookBreaks(next, plans, k, |s.stops|);
  }

  lemma NoEvents(s: System, plans: map<string, real>)
    ensures Runs(s, plans, []) && AllOrderly(s, plans, []) && Final(s, plans, []) == s
  {
  }

  /** Exactly the orderly steps leave the balance safe: whatever orderly run follows an orderly step is conserved, and a
      step out of order has an orderly run after it that is not. (A user without a row, and without a change that would
      write one, has no balance a second stop could spoil.) */
  lemma OrderlyIffSafe(s: System, plans: map<string, real>, e: Event)
    requires Conserved(s, plans) && Figures(s, plans) && SoleStops(s) && Enabled(s, plans, e) && Positive(s, e)
    requires e.StopLook? ==> s.row.Some? || Changing(s, plans)
    ensures Orderly(s, plans, e) <==> forall rest :: Conserves(Effect(s, plans, e), plans, rest)
  {
    hide Orderly, Conserved, Figures, SoleStops, Effect, Enabled, Positive, Changing;
    if Orderly(s, plans, e) {
      OrderlyFigures(s, plans, e);
      OrderlyConserves(s, plans, e);
      forall rest ensures Conserves(Effect(s, plans, e), plans, rest) {
        if Runs(Effect(s, plans, e), plans, rest) && AllOrderly(Effect(s, plans, e), plans, rest) {
          RunConserves(Effect(s, plans, e), plans, rest);
        }
      }
    } else {
      var rest := DisorderBreaks(s, plans, e);
      assert !Conserves(Effect(s, plans, e), plans, rest);
    }
  }
}
