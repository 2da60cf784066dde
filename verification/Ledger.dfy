/**
 The copy-trading balance of one user: what is left to start bots with, and what the bots hold.
 Rows of the users table are changed by single SQL statements; everything between two statements may interleave.
 */
module Ledger {
  import opened Types

  datatype Row = Row(plan: string, remaining: real)

  // ------------------------------------------------------------------
  // The two guarded updates, and a start of a bot
  // ------------------------------------------------------------------

  datatype ReduceAnswer = Reduced | NotEnough(remaining: real) | NoRow | DbError

  function ReduceOutcome(row: Option<Row>, bal: real): ReduceAnswer {
    match row
    case None => NoRow
    case Some(r) => if r.remaining >= bal then Reduced else NotEnough(r.remaining)
  }

  function Added(row: Option<Row>, bal: real): Option<Row> {
    match row
    case None => None
    case Some(r) => Some(r.(remaining := r.remaining + bal))
  }

  /** What an attempt finds first: the exchange balance (None: it cannot be read), and whether the database answers. */
  datatype Found = Found(bal: Option<real>, dbOk: bool)

  /** What else startBot meets: what it finds when it tries again after a repair, the remaining balance the repair
      leaves (None: it failed), and the launch itself. */
  datatype StartAnswers = StartAnswers(again: Found, repaired: Option<real>,
                                       monitorReady: bool, positionsGood: bool, refundOk: bool)

  datatype StartResult = NoBot | Running(bal: real) | Failed | TooLow(remaining: real) | NoUser | ServerError

  /** How one attempt ends that finds this with this row. */
  function Attempt(row: Option<Row>, found: Found, a: StartAnswers): StartResult {
    if found.bal.None? then NoBot
    else if !found.dbOk then ServerError
    else match ReduceOutcome(row, found.bal.value)
      case NoRow => NoUser
      case DbError => ServerError
      case NotEnough(remaining) => TooLow(remaining)
      case Reduced => if a.monitorReady && a.positionsGood then Running(found.bal.value) else Failed
  }

  /** How an attempt ends, by what it found. A bot runs only on a balance that the row had to the full. */
  lemma AttemptExact(row: Option<Row>, found: Found, a: StartAnswers)
    ensures var result := Attempt(row, found, a);
      && (result == NoBot <==> found.bal == None)
      && (result == ServerError <==> found.bal.Some? && !found.dbOk)
      && (result == NoUser <==> found.bal.Some? && found.dbOk && row == None)
      && (result.TooLow? <==> found.bal.Some? && found.dbOk && row.Some? && row.value.remaining < found.bal.value)
      && (result.TooLow? ==> result.remaining == row.value.remaining)
    ensures var result := Attempt(row, found, a);
      var enough := found.bal.Some? && found.dbOk && row.Some? && row.value.remaining >= found.bal.value;
      && (result.Running? <==> enough && a.monitorReady && a.positionsGood)
      && (result.Running? ==> result.bal == found.bal.value)
      && (result == Failed <==> enough && !(a.monitorReady && a.positionsGood))
  {
  }

  class UserBalance {
    var row: Option<Row>

    method CheckAndReduceCpytBalance(bal: real, dbOk: bool) returns (answer: ReduceAnswer)
      modifies this
      ensures answer == if dbOk then ReduceOutcome(old(row), bal) else DbError
      ensures row == if answer == Reduced then Added(old(row), -bal) else old(row)
      ensures answer == Reduced <==> dbOk && old(row).Some? && old(row).value.remaining >= bal
      ensures answer.NotEnough? <==> dbOk && old(row).Some? && old(row).value.remaining < bal
      ensures answer.NotEnough? ==> answer.remaining == old(row).value.remaining
      ensures answer == NoRow <==> dbOk && old(row) == None
      ensures answer == Reduced ==> row == Some(Row(old(row).value.plan, old(row).value.remaining - bal)) && row.value.remaining >= 0.0
    {
      if !dbOk {
        return DbError;
      }
      match row {
        case None => answer := NoRow;
        case Some(r) =>
          if r.remaining >= bal {
            row := Some(r.(remaining := r.remaining - bal));
            answer := Reduced;
          } else {
            answer := NotEnough(r.remaining);
          }
      }
    }

    method AddBackToCpytBal(bal: real) returns (found: bool)
      modifies this
      ensures found == old(row).Some? && row == Added(old(row), bal)
    {
      match row {
        case None => found := false;
        case Some(r) =>
          row := Some(r.(remaining := r.remaining + bal));
          found := true;
      }
    }

    /** startBot, as far as the balance goes: a failure after the reservation refunds it, at whichever exit, and one
        attempt that finds too little is repeated after a repair. */
    method StartBot(a: StartAnswers, found: Found, doCorrectBal: bool) returns (result: StartResult)
      modifies this
      decreases doCorrectBal
      ensures var retries := doCorrectBal && Attempt(old(row), found, a).TooLow? && a.repaired.Some?;
        var before := if retries then Some(old(row).value.(remaining := a.repaired.value)) else old(row);
        var last := if retries then a.again else found;
        && result == Attempt(before, last, a)
        && row == if result.Running? || (result == Failed && !a.refundOk) then Added(before, -last.bal.value) else before
    {
      if found.bal.None? {
        return NoBot;
      }
      var bal := found.bal.value;
      var answer := CheckAndReduceCpytBalance(bal, found.dbOk);
      match answer {
        case DbError => return ServerError;
        case NoRow => return NoUser;
        case NotEnough(remaining) =>
          if doCorrectBal && a.repaired.Some? {
            row := Some(row.value.(remaining := a.repaired.value));
            result := StartBot(a, a.again, false);
            return;
          }
          return TooLow(remaining);
        case Reduced =>
      }
      var needsBalanceReturnedIfError := true;
      result := Failed;
      if a.monitorReady && a.positionsGood {
        needsBalanceReturnedIfError := false;
        result := Running(bal);
      }
      if needsBalanceReturnedIfError && a.refundOk {
        var _ := AddBackToCpytBal(bal);
      }
    }
  }

  // ------------------------------------------------------------------
  // Any number of starts, stops and plan changes at once
  // ------------------------------------------------------------------

  /** Where one bot's balance is: reserved by a start that is under way, held by a running bot, on its way back,
      back, or gone (a failed refund or credit, or a bot removed because its API key went bad). */
  datatype Phase = Reserved | Held | Crediting | Returned | Lost

  datatype Slot = Slot(bal: real, phase: Phase)

  /** A plan change under way: what it found in bots when it read the user, and whether it has wiped the row since. */
  datatype Change = Change(plan: string, balanceInBots: real, stage: Stage)
  datatype Stage = Read | Wiped | Over

  /** A request to stop a bot: it has looked the bot up, has removed it so that its credit is to come, or is through.
      Nothing keeps two requests from looking the same bot up before either removes it. */
  datatype Stop = Stop(slot: nat, stage: StopStage)
  datatype StopStage = LookedUp | Removed | Done

  datatype System = System(row: Option<Row>, slots: seq<Slot>, changes: seq<Change>, stops: seq<Stop>)

  const EMPTY := System(None, [], [], [])

  datatype Event =
    | Reserve(bal: real)
    | Start(i: nat)
    | Refund(i: nat, ok: bool)
    | StopLook(i: nat)
    | StopRemove(k: nat)
    | Credit(k: nat, ok: bool)
    | KeyRemoved(i: nat)
    | NewUser(plan: string)
    | PlanRead(plan: string)
    | PlanWipe(c: nat)
    | PlanAbort(c: nat)
    | PlanWrite(c: nat, ok: bool)
    | Repair(writes: bool)

  predicate InPhase(s: System, i: nat, phase: Phase) { i < |s.slots| && s.slots[i].phase == phase }

  predicate AtStage(s: System, c: nat, stage: Stage) { c < |s.changes| && s.changes[c].stage == stage }

  predicate StopAt(s: System, k: nat, stage: StopStage) {
    k < |s.stops| && s.stops[k].stage == stage && s.stops[k].slot < |s.slots|
  }

  /** Some request has looked the bot up and not yet removed it. */
  predicate BeingStopped(s: System, i: nat) {
    exists k :: 0 <= k < |s.stops| && s.stops[k].slot == i && s.stops[k].stage == LookedUp
  }

  /** Nothing is under way. */
  predicate Quiescent(s: System) {
    && (forall i :: 0 <= i < |s.slots| ==> s.slots[i].phase != Reserved && s.slots[i].phase != Crediting)
    && (forall k :: 0 <= k < |s.stops| ==> s.stops[k].stage == Done)
    && forall c :: 0 <= c < |s.changes| ==> s.changes[c].stage == Over
  }

  /** `plans` gives the MaxCTBalance of each plan; a plan change needs the user's old plan to exist. */
  predicate Enabled(s: System, plans: map<string, real>, e: Event) {
    match e
    case Reserve(_) => true
    case Start(i) => InPhase(s, i, Reserved)
    case Refund(i, _) => InPhase(s, i, Reserved)
    case StopLook(i) => InPhase(s, i, Held)
    case StopRemove(k) => StopAt(s, k, LookedUp)
    case Credit(k, _) => StopAt(s, k, Removed)
    case KeyRemoved(i) => InPhase(s, i, Held)
    case NewUser(plan) => plan in plans
    case PlanRead(_) => s.row.Some? ==> s.row.value.plan in plans
    case PlanWipe(c) => AtStage(s, c, Read)
    case PlanAbort(c) => AtStage(s, c, Read)
    case PlanWrite(c, _) => AtStage(s, c, Wiped)
    case Repair(_) => Quiescent(s) && s.row.Some? && s.row.value.plan in plans
  }

  function Weight(slot: Slot): real { if slot.phase == Returned then 0.0 else slot.bal }

  /** Everything handed out and not given back. */
  function Committed(slots: seq<Slot>): real {
    if slots == [] then 0.0 else Committed(slots[..|slots| - 1]) + Weight(slots[|slots| - 1])
  }

  function InPhaseTotal(slots: seq<Slot>, phase: Phase): real {
    if slots == [] then 0.0
    else InPhaseTotal(slots[..|slots| - 1], phase) + if slots[|slots| - 1].phase == phase then slots[|slots| - 1].bal else 0.0
  }

  function Move(s: System, i: nat, phase: Phase): seq<Slot>
    requires i < |s.slots|
  {
    s.slots[i := s.slots[i].(phase := phase)]
  }

  function SetStage(s: System, c: nat, stage: Stage): seq<Change>
    requires c < |s.changes|
  {
    s.changes[c := s.changes[c].(stage := stage)]
  }

  function SetStop(s: System, k: nat, stage: StopStage): seq<Stop>
    requires k < |s.stops|
  {
    s.stops[k := s.stops[k].(stage := stage)]
  }

  /** A refund or credit: what cannot be given back is lost, unless it was given back already. */
  function GiveBack(s: System, i: nat, ok: bool): System
    requires i < |s.slots|
  {
    if ok && s.row.Some? then s.(row := Added(s.row, s.slots[i].bal), slots := Move(s, i, Returned))
    else if s.slots[i].phase == Returned then s
    else s.(slots := Move(s, i, Lost))
  }

  function Forgiven(slots: seq<Slot>): seq<Slot> {
    seq(|slots|, i requires 0 <= i < |slots| => if slots[i].phase == Lost then slots[i].(phase := Returned) else slots[i])
  }

  /** A row is written only where there is none. */
  predicate Writes(s: System, plans: map<string, real>, e: Event)
    requires Enabled(s, plans, e)
  {
    match e
    case NewUser(_) => s.row.None?
    case PlanWrite(c, ok) => ok && s.changes[c].plan in plans && s.row.None?
    case _ => false
  }

  function Effect(s: System, plans: map<string, real>, e: Event): System
    requires Enabled(s, plans, e)
  {
    match e
    case Reserve(bal) =>
      if ReduceOutcome(s.row, bal) != Reduced then s
      else s.(row := Added(s.row, -bal), slots := s.slots + [Slot(bal, Reserved)])
    case Start(i) => s.(slots := Move(s, i, Held))
    case Refund(i, ok) => GiveBack(s, i, ok)
    case StopLook(i) => s.(stops := s.stops + [Stop(i, LookedUp)])
    case StopRemove(k) =>
      var i := s.stops[k].slot;
      s.(slots := if s.slots[i].phase == Held then Move(s, i, Crediting) else s.slots, stops := SetStop(s, k, Removed))
    case Credit(k, ok) => GiveBack(s, s.stops[k].slot, ok).(stops := SetStop(s, k, Done))
    case KeyRemoved(i) => s.(slots := Move(s, i, if BeingStopped(s, i) then Crediting else Lost))
    case NewUser(plan) => if Writes(s, plans, e) then s.(row := Some(Row(plan, plans[plan]))) else s
    case PlanRead(plan) =>
      s.(changes := s.changes + [if s.row.None? then Change(plan, 0.0, Wiped)
                                 else Change(plan, plans[s.row.value.plan] - s.row.value.remaining, Read)])
    case PlanWipe(c) => s.(row := None, changes := SetStage(s, c, Wiped))
    case PlanAbort(c) => s.(changes := SetStage(s, c, Over))
    case PlanWrite(c, _) =>
      var done := s.(changes := SetStage(s, c, Over));
      if Writes(s, plans, e)
      then done.(row := Some(Row(s.changes[c].plan, plans[s.changes[c].plan] - s.changes[c].balanceInBots)))
      else done
    case Repair(writes) =>
      if !writes then s
      else s.(row := Some(s.row.value.(remaining := plans[s.row.value.plan] - InPhaseTotal(s.slots, Held))), slots := Forgiven(s.slots))
  }

  /** What is left and what is handed out make up the plan's maximum. */
  predicate Conserved(s: System, plans: map<string, real>) {
    s.row.Some? ==> s.row.value.plan in plans && s.row.value.remaining + Committed(s.slots) == plans[s.row.value.plan]
  }

  lemma {:induction false} CommittedUpdate(slots: seq<Slot>, i: nat, slot: Slot)
    requires i < |slots|
    ensures Committed(slots[i := slot]) == Committed(slots) - Weight(slots[i]) + Weight(slot)
  {
    var n := |slots| - 1;
    if i < n {
      assert slots[i := slot][..n] == slots[..n][i := slot];
      CommittedUpdate(slots[..n], i, slot);
    } else {
      assert slots[i := slot][..n] == slots[..n];
    }
  }

  lemma {:induction false} ForgivenCommitted(slots: seq<Slot>)
    requires forall i :: 0 <= i < |slots| ==> slots[i].phase != Reserved && slots[i].phase != Crediting
    ensures Committed(Forgiven(slots)) == InPhaseTotal(slots, Held)
  {
    if slots != [] {
      var n := |slots| - 1;
      assert Forgiven(slots)[..n] == Forgiven(slots[..n]);
      ForgivenCommitted(slots[..n]);
    }
  }

  lemma ReserveCommitted(slots: seq<Slot>, slot: Slot)
    ensures Committed(slots + [slot]) == Committed(slots) + Weight(slot)
  {
    assert (slots + [slot])[..|slots|] == slots;
  }

  /** A step that changes what is handed out: a reservation, or a refund or credit, that takes effect. */
  predicate Moves(s: System, e: Event) {
    match e
    case Reserve(bal) => ReduceOutcome(s.row, bal) == Reduced
    case Refund(_, ok) => ok && s.row.Some?
    case Credit(_, ok) => ok && s.row.Some?
    case _ => false
  }

  /** What else a step does to what is handed out: nothing, but for a repair that forgives what was lost. */
  lemma CommittedKept(s: System, plans: map<string, real>, e: Event)
    requires Enabled(s, plans, e) && !Moves(s, e) && !e.Repair?
    ensures Committed(Effect(s, plans, e).slots) == Committed(s.slots)
  {
    hide Committed;
    match e {
      case Start(i) => CommittedUpdate(s.slots, i, s.slots[i].(phase := Held));
      case Refund(i, ok) => CommittedUpdate(s.slots, i, s.slots[i].(phase := Lost));
      case StopRemove(k) => CommittedUpdate(s.slots, s.stops[k].slot, s.slots[s.stops[k].slot].(phase := Crediting));
      case Credit(k, ok) => CommittedUpdate(s.slots, s.stops[k].slot, s.slots[s.stops[k].slot].(phase := Lost));
      case KeyRemoved(i) => CommittedUpdate(s.slots, i, s.slots[i].(phase := if BeingStopped(s, i) then Crediting else Lost));
      case _ =>
    }
  }

  /** The credit of a balance that is back already. */
  predicate CreditsTwice(s: System, plans: map<string, real>, e: Event)
    requires Enabled(s, plans, e)
  {
    e.Credit? && e.ok && s.row.Some? && s.slots[s.stops[e.k].slot].phase == Returned
  }

  /** Every step that writes no new row, and credits nothing twice, conserves the balance: starts, failures, stops,
      credits, lost or not, key removals, repairs, and a plan change up to its insert. */
  lemma StepConserves(s: System, plans: map<string, real>, e: Event)
    requires Conserved(s, plans) && Enabled(s, plans, e) && !Writes(s, plans, e) && !CreditsTwice(s, plans, e)
    ensures Conserved(Effect(s, plans, e), plans)
  {
    hide Committed;
    if !Moves(s, e) && !e.Repair? { CommittedKept(s, plans, e); }
    match e {
      case Reserve(bal) => ReserveCommitted(s.slots, Slot(bal, Reserved));
      case Refund(i, ok) => CommittedUpdate(s.slots, i, s.slots[i].(phase := Returned));
      case Credit(k, ok) => CommittedUpdate(s.slots, s.stops[k].slot, s.slots[s.stops[k].slot].(phase := Returned));
      case Repair(_) => ForgivenCommitted(s.slots);
      case _ =>
    }
  }

  // ------------------------------------------------------------------
  // One stop at a time
  // ------------------------------------------------------------------

  /** Where the balance of a bot is that a request stops. */
  predicate Settled(s: System, k: nat)
    requires k < |s.stops|
  {
    && s.stops[k].slot < |s.slots|
    && var phase := s.slots[s.stops[k].slot].phase;
       match s.stops[k].stage
       case LookedUp => phase == Held || phase == Crediting
       case Removed => phase == Crediting
       case Done => phase == Returned || phase == Lost
  }

  /** No bot is stopped by two requests. */
  predicate SoleStops(s: System) {
    && (forall k :: 0 <= k < |s.stops| ==> Settled(s, k))
    && forall k, l :: 0 <= k < l < |s.stops| ==> s.stops[k].slot != s.stops[l].slot
  }

  /** No look-up of a bot follows another before that one has removed it. */
  predicate SoleLook(s: System, e: Event) { e.StopLook? ==> !BeingStopped(s, e.i) }

  lemma SoleLookKeeps(s: System, plans: map<string, real>, e: Event)
    requires SoleStops(s) && Enabled(s, plans, e) && SoleLook(s, e)
    ensures SoleStops(Effect(s, plans, e))
    ensures !CreditsTwice(s, plans, e)
  {
    var next := Effect(s, plans, e);
    if e.Credit? { assert Settled(s, e.k); }
    if e.KeyRemoved? {
      forall k | 0 <= k < |s.stops| && s.stops[k].slot == e.i ensures BeingStopped(s, e.i) {
        assert Settled(s, k);
      }
    }
    forall k | 0 <= k < |next.stops| ensures Settled(next, k) {
      if k < |s.stops| { assert Settled(s, k); }
    }
    if e.StopLook? {
      forall k | 0 <= k < |s.stops| ensures s.stops[k].slot != e.i {
        assert Settled(s, k);
      }
    }
  }

  // ------------------------------------------------------------------
  // When a new row is right
  // ------------------------------------------------------------------

  /** A change that has begun and can still write a row. */
  predicate Open(s: System, plans: map<string, real>, c: nat) {
    c < |s.changes| && s.changes[c].stage != Over && s.changes[c].plan in plans
  }

  ghost predicate Changing(s: System, plans: map<string, real>) { exists c: nat :: Open(s, plans, c) }

  predicate NothingOut(slots: seq<Slot>) { forall i :: 0 <= i < |slots| ==> slots[i].phase == Returned }

  /** While a plan change is under way nothing is reserved, refunded or credited; no row is made for a user who
      has none, now or by the change that begins, while any of his bots has balance out; and no bot is looked up to be
      stopped while another request that looked it up has yet to remove it. */
  ghost predicate Orderly(s: System, plans: map<string, real>, e: Event) {
    && SoleLook(s, e)
    && (Moves(s, e) ==> !Changing(s, plans))
    && (e.NewUser? && s.row.None? ==> NothingOut(s.slots))
    && (e.PlanRead? && s.row.None? && e.plan in plans ==> NothingOut(s.slots))
  }

  /** What open changes read is still so. */
  ghost predicate Figures(s: System, plans: map<string, real>) {
    forall c: nat :: Open(s, plans, c) ==> s.changes[c].balanceInBots == Committed(s.slots)
  }

  lemma {:induction false} NothingCommitted(slots: seq<Slot>)
    requires NothingOut(slots)
    ensures Committed(slots) == 0.0
  {
    if slots != [] {
      NothingCommitted(slots[..|slots| - 1]);
    }
  }

  lemma OrderlyFigures(s: System, plans: map<string, real>, e: Event)
    requires Conserved(s, plans) && Figures(s, plans) && Enabled(s, plans, e) && Orderly(s, plans, e)
    ensures Figures(Effect(s, plans, e), plans)
  {
    hide Committed;
    var next := Effect(s, plans, e);
    if NothingOut(s.slots) { NothingCommitted(s.slots); }
    if !Moves(s, e) && !e.Repair? {
      CommittedKept(s, plans, e);
      forall c: nat | Open(next, plans, c) ensures next.changes[c].balanceInBots == Committed(s.slots) {
        assert (e.PlanRead? && c == |s.changes|) || Open(s, plans, c);
      }
    } else {
      assert forall c: nat :: Open(next, plans, c) ==> Open(s, plans, c);
    }
  }

  lemma OrderlyConserves(s: System, plans: map<string, real>, e: Event)
    requires Conserved(s, plans) && Figures(s, plans) && SoleStops(s) && Enabled(s, plans, e) && Orderly(s, plans, e)
    ensures Conserved(Effect(s, plans, e), plans) && SoleStops(Effect(s, plans, e))
  {
    SoleLookKeeps(s, plans, e);
    hide Committed, SoleStops;
    if Writes(s, plans, e) {
      if e.NewUser? { NothingCommitted(s.slots); } else { assert Open(s, plans, e.c); }
    } else {
      StepConserves(s, plans, e);
    }
  }

  // ------------------------------------------------------------------
  // Whole runs
  // ------------------------------------------------------------------

  predicate Runs(s: System, plans: map<string, real>, events: seq<Event>)
    decreases events
  {
    events == [] || (Enabled(s, plans, events[0]) && Runs(Effect(s, plans, events[0]), plans, events[1..]))
  }

  function Final(s: System, plans: map<string, real>, events: seq<Event>): System
    requires Runs(s, plans, events)
    decreases events
  {
    if events == [] then s else Final(Effect(s, plans, events[0]), plans, events[1..])
  }

  ghost predicate AllOrderly(s: System, plans: map<string, real>, events: seq<Event>)
    requires Runs(s, plans, events)
    decreases events
  {
    events == [] || (Orderly(s, plans, events[0]) && AllOrderly(Effect(s, plans, events[0]), plans, events[1..]))
  }

  lemma {:induction false} RunConserves(s: System, plans: map<string, real>, events: seq<Event>)
    requires Conserved(s, plans) && Figures(s, plans) && SoleStops(s) && Runs(s, plans, events) && AllOrderly(s, plans, events)
    ensures Conserved(Final(s, plans, events), plans) && Figures(Final(s, plans, events), plans)
    decreases events
  {
    hide Conserved, Figures, SoleStops, Effect, Enabled, Orderly;
    if events != [] {
      OrderlyFigures(s, plans, events[0]);
      OrderlyConserves(s, plans, events[0]);
      RunConserves(Effect(s, plans, events[0]), plans, events[1..]);
    }
  }

  function Outstanding(slots: seq<Slot>): real {
    InPhaseTotal(slots, Reserved) + InPhaseTotal(slots, Held) + InPhaseTotal(slots, Crediting)
  }

  lemma {:induction false} CommittedSplits(slots: seq<Slot>)
    ensures Committed(slots) == Outstanding(slots) + InPhaseTotal(slots, Lost)
  {
    if slots != [] {
      CommittedSplits(slots[..|slots| - 1]);
    }
  }

  /** Over every orderly run, from nothing, the user is short of the plan's maximum by exactly what was lost. */
  lemma ShortByLost(plans: map<string, real>, events: seq<Event>)
    requires Runs(EMPTY, plans, events) && AllOrderly(EMPTY, plans, events) && Final(EMPTY, plans, events).row.Some?
    ensures var end := Final(EMPTY, plans, events);
      && end.row.value.plan in plans
      && end.row.value.remaining + Outstanding(end.slots) == plans[end.row.value.plan] - InPhaseTotal(end.slots, Lost)
  {
    var end := Final(EMPTY, plans, events);
    RunConserves(EMPTY, plans, events);
    CommittedSplits(end.slots);
    hide Final, Runs, AllOrderly, Outstanding, Committed, InPhaseTotal;
  }

  // ------------------------------------------------------------------
  // Never more than the plan allows
  // ------------------------------------------------------------------

  function Out(slot: Slot): real {
    if slot.phase == Reserved || slot.phase == Held || slot.phase == Crediting then slot.bal else 0.0
  }

  lemma {:induction false} OutstandingUpdate(slots: seq<Slot>, i: nat, slot: Slot)
    requires i < |slots|
    ensures Outstanding(slots[i := slot]) == Outstanding(slots) - Out(slots[i]) + Out(slot)
  {
    var n := |slots| - 1;
    if i < n {
      assert slots[i := slot][..n] == slots[..n][i := slot];
      OutstandingUpdate(slots[..n], i, slot);
    } else {
      assert slots[i := slot][..n] == slots[..n];
    }
  }

  lemma OutstandingAppend(slots: seq<Slot>, slot: Slot)
    ensures Outstanding(slots + [slot]) == Outstanding(slots) + Out(slot)
  {
    assert (slots + [slot])[..|slots|] == slots;
  }

  /** Back, or lost. */
  predicate NothingHeld(slots: seq<Slot>) { forall i :: 0 <= i < |slots| ==> slots[i].phase == Returned || slots[i].phase == Lost }

  lemma {:induction false} NothingOutstanding(slots: seq<Slot>)
    requires NothingHeld(slots)
    ensures Outstanding(slots) == 0.0
  {
    if slots != [] {
      NothingOutstanding(slots[..|slots| - 1]);
    }
  }

  lemma {:induction false} RepairOutstanding(slots: seq<Slot>)
    requires forall i :: 0 <= i < |slots| ==> slots[i].phase != Reserved && slots[i].phase != Crediting
    ensures Outstanding(slots) == Outstanding(Forgiven(slots)) == InPhaseTotal(slots, Held)
  {
    if slots != [] {
      var n := |slots| - 1;
      assert Forgiven(slots)[..n] == Forgiven(slots[..n]);
      RepairOutstanding(slots[..n]);
    }
  }

  /** What can over-allocate: reserving while a plan change is under way, making a row for a user who has none while a
      bot holds balance, and looking a bot up twice. Refunds and credits cannot, nor can losses. */
  ghost predicate Guarded(s: System, plans: map<string, real>, e: Event) {
    && SoleLook(s, e)
    && (e.Reserve? && ReduceOutcome(s.row, e.bal) == Reduced ==> e.bal >= 0.0 && !Changing(s, plans))
    && (e.NewUser? && s.row.None? ==> NothingHeld(s.slots))
    && (e.PlanRead? && s.row.None? && e.plan in plans ==> NothingHeld(s.slots))
  }

  ghost predicate Bounded(s: System, plans: map<string, real>) {
    && (s.row.Some? ==> s.row.value.plan in plans && s.row.value.remaining + Outstanding(s.slots) <= plans[s.row.value.plan])
    && (forall c: nat :: Open(s, plans, c) ==> s.changes[c].balanceInBots >= Outstanding(s.slots))
    && forall i :: 0 <= i < |s.slots| ==> s.slots[i].bal >= 0.0
  }

  /** Only a reservation adds to what is outstanding. */
  lemma OutstandingStep(s: System, plans: map<string, real>, e: Event)
    requires Enabled(s, plans, e) && SoleStops(s) && SoleLook(s, e) && forall i :: 0 <= i < |s.slots| ==> s.slots[i].bal >= 0.0
    ensures var next := Effect(s, plans, e);
      && (!(e.Reserve? && ReduceOutcome(s.row, e.bal) == Reduced) ==> Outstanding(next.slots) <= Outstanding(s.slots))
      && (s.row.Some? && next.row.Some? && !Writes(s, plans, e) && !e.Repair? ==>
            next.row.value.plan == s.row.value.plan
            && next.row.value.remaining + Outstanding(next.slots) <= s.row.value.remaining + Outstanding(s.slots))
      && (e.Repair? && next != s ==> next.row.value.remaining + Outstanding(next.slots) == plans[s.row.value.plan])
  {
    if e.Credit? { assert Settled(s, e.k); }
    hide Outstanding, SoleStops;
    match e {
      case Reserve(bal) => OutstandingAppend(s.slots, Slot(bal, Reserved));
      case Start(i) => OutstandingUpdate(s.slots, i, s.slots[i].(phase := Held));
      case Refund(i, ok) => OutstandingUpdate(s.slots, i, s.slots[i].(phase := if ok && s.row.Some? then Returned else Lost));
      case StopRemove(k) => OutstandingUpdate(s.slots, s.stops[k].slot, s.slots[s.stops[k].slot].(phase := Crediting));
      case Credit(k, ok) =>
        OutstandingUpdate(s.slots, s.stops[k].slot, s.slots[s.stops[k].slot].(phase := if ok && s.row.Some? then Returned else Lost));
      case KeyRemoved(i) => OutstandingUpdate(s.slots, i, s.slots[i].(phase := if BeingStopped(s, i) then Crediting else Lost));
      case Repair(_) => RepairOutstanding(s.slots);
      case _ =>
    }
  }

  /** What open changes read stays at least what is outstanding. */
  lemma GuardedFigures(s: System, plans: map<string, real>, e: Event, c: nat)
    requires Bounded(s, plans) && SoleStops(s) && Enabled(s, plans, e) && Guarded(s, plans, e)
    requires Open(Effect(s, plans, e), plans, c)
    ensures Effect(s, plans, e).changes[c].balanceInBots >= Outstanding(Effect(s, plans, e).slots)
  {
    OutstandingStep(s, plans, e);
    if NothingHeld(s.slots) { NothingOutstanding(s.slots); }
    hide Outstanding, SoleStops, BeingStopped;
    assert (e.PlanRead? && c == |s.changes|) || Open(s, plans, c);
  }

  lemma GuardedRow(s: System, plans: map<string, real>, e: Event)
    requires Bounded(s, plans) && SoleStops(s) && Enabled(s, plans, e) && Guarded(s, plans, e)
    ensures var row := Effect(s, plans, e).row;
      row.Some? ==> row.value.plan in plans && row.value.remaining + Outstanding(Effect(s, plans, e).slots) <= plans[row.value.plan]
  {
    OutstandingStep(s, plans, e);
    if NothingHeld(s.slots) { NothingOutstanding(s.slots); }
    hide Outstanding, SoleStops, BeingStopped;
    if e.PlanWrite? && Writes(s, plans, e) { assert Open(s, plans, e.c); }
  }

  lemma GuardedLooks(s: System, plans: map<string, real>, e: Event)
    requires Guarded(s, plans, e)
    ensures SoleLook(s, e)
  {
  }

  lemma BalancesStay(s: System, plans: map<string, real>, e: Event)
    requires Enabled(s, plans, e) && Guarded(s, plans, e) && forall i :: 0 <= i < |s.slots| ==> s.slots[i].bal >= 0.0
    ensures forall i :: 0 <= i < |Effect(s, plans, e).slots| ==> Effect(s, plans, e).slots[i].bal >= 0.0
  {
    hide BeingStopped, Changing;
  }

  lemma GuardedKeeps(s: System, plans: map<string, real>, e: Event)
    requires Bounded(s, plans) && SoleStops(s) && Enabled(s, plans, e) && Guarded(s, plans, e)
    ensures Bounded(Effect(s, plans, e), plans) && SoleStops(Effect(s, plans, e))
  {
    hide SoleStops, Outstanding, Effect, Enabled, Guarded;
    assert SoleLook(s, e) by { GuardedLooks(s, plans, e); }
    SoleLookKeeps(s, plans, e);
    GuardedRow(s, plans, e);
    BalancesStay(s, plans, e);
    var next := Effect(s, plans, e);
    forall c: nat | Open(next, plans, c) ensures next.changes[c].balanceInBots >= Outstanding(next.slots) {
      GuardedFigures(s, plans, e, c);
    }
  }

  ghost predicate AllGuarded(s: System, plans: map<string, real>, events: seq<Event>)
    requires Runs(s, plans, events)
    decreases events
  {
    events == [] || (Guarded(s, plans, events[0]) && AllGuarded(Effect(s, plans, events[0]), plans, events[1..]))
  }

  lemma {:induction false} GuardedRun(s: System, plans: map<string, real>, events: seq<Event>)
    requires Bounded(s, plans) && SoleStops(s) && Runs(s, plans, events) && AllGuarded(s, plans, events)
    ensures Bounded(Final(s, plans, events), plans)
    decreases events
  {
    hide Bounded, SoleStops, Effect, Enabled, Guarded;
    if events != [] {
      GuardedKeeps(s, plans, events[0]);
      GuardedRun(Effect(s, plans, events[0]), plans, events[1..]);
    }
  }

  /** However starts, failures, refunds, stops, delayed credits, key removals, plan changes and repairs interleave, as
      long as they are guarded the user never holds more than the plan allows. */
  lemma NoOverAllocation(plans: map<string, real>, events: seq<Event>)
    requires Runs(EMPTY, plans, events) && AllGuarded(EMPTY, plans, events) && Final(EMPTY, plans, events).row.Some?
    ensures var end := Final(EMPTY, plans, events);
      end.row.value.plan in plans && end.row.value.remaining + Outstanding(end.slots) <= plans[end.row.value.plan]
  {
    assert Bounded(EMPTY, plans);
    GuardedRun(EMPTY, plans, events);
    hide Final, Runs, AllGuarded, Outstanding;
  }

  // ------------------------------------------------------------------
  // What is left never turns negative
  // ------------------------------------------------------------------

  predicate Covered(s: System) { s.row.Some? ==> s.row.value.remaining >= 0.0 }

  predicate PlansNonNegative(plans: map<string, real>) { forall p :: p in plans ==> plans[p] >= 0.0 }

  /** The insert of a plan that allows less than the user's bots held when the change began. */
  predicate Downgrades(s: System, plans: map<string, real>, e: Event)
    requires Enabled(s, plans, e)
  {
    e.PlanWrite? && Writes(s, plans, e) && plans[s.changes[e.c].plan] < s.changes[e.c].balanceInBots
  }

  /** A reservation takes effect only if the balance is there, and leaves the bots within the plan. */
  lemma ReserveWithinPlan(s: System, plans: map<string, real>, bal: real)
    requires Bounded(s, plans) && SoleStops(s) && Guarded(s, plans, Reserve(bal))
    ensures var next := Effect(s, plans, Reserve(bal));
      next != s ==>
        && s.row.Some? && s.row.value.plan in plans && s.row.value.remaining >= bal
        && next.slots == s.slots + [Slot(bal, Reserved)]
        && next.row == Some(Row(s.row.value.plan, s.row.value.remaining - bal)) && next.row.value.remaining >= 0.0
        && Outstanding(next.slots) <= plans[s.row.value.plan]
  {
    GuardedRow(s, plans, Reserve(bal));
    hide Outstanding, SoleStops, Guarded;
  }

  /** The only guarded step that can leave less than nothing is the insert of too small a plan. */
  lemma StaysCoveredIff(s: System, plans: map<string, real>, e: Event)
    requires Bounded(s, plans) && SoleStops(s) && Enabled(s, plans, e) && Guarded(s, plans, e) && PlansNonNegative(plans) && Covered(s)
    ensures Covered(Effect(s, plans, e)) <==> !Downgrades(s, plans, e)
  {
    if e.Repair? {
      RepairOutstanding(s.slots);
      OutstandingStep(s, plans, e);
    }
    hide Outstanding, SoleStops, BeingStopped, Changing, InPhaseTotal;
  }

  ghost predicate NeverDowngrades(s: System, plans: map<string, real>, events: seq<Event>)
    requires Runs(s, plans, events)
    decreases events
  {
    events == [] || (!Downgrades(s, plans, events[0]) && NeverDowngrades(Effect(s, plans, events[0]), plans, events[1..]))
  }

  lemma {:induction false} CoveredRun(s: System, plans: map<string, real>, events: seq<Event>)
    requires Bounded(s, plans) && SoleStops(s) && Covered(s) && PlansNonNegative(plans)
    requires Runs(s, plans, events) && AllGuarded(s, plans, events) && NeverDowngrades(s, plans, events)
    ensures Covered(Final(s, plans, events))
    decreases events
  {
    hide Bounded, SoleStops, Effect, Enabled, Guarded, Covered, Downgrades;
    if events != [] {
      GuardedKeeps(s, plans, events[0]);
      StaysCoveredIff(s, plans, events[0]);
      CoveredRun(Effect(s, plans, events[0]), plans, events[1..]);
    }
  }

  /** So over every guarded run without such an insert, in particular one without plan changes, what is left is never
      negative and what bots hold, or is on its way to or from them, is within the plan. */
  lemma BotsWithinPlan(plans: map<string, real>, events: seq<Event>)
    requires PlansNonNegative(plans) && Runs(EMPTY, plans, events) && AllGuarded(EMPTY, plans, events)
    requires NeverDowngrades(EMPTY, plans, events) && Final(EMPTY, plans, events).row.Some?
    ensures var end := Final(EMPTY, plans, events);
      && end.row.value.plan in plans && end.row.value.remaining >= 0.0
      && InPhaseTotal(end.slots, Reserved) + InPhaseTotal(end.slots, Held) + InPhaseTotal(end.slots, Crediting) <= plans[end.row.value.plan]
  {
    assert Bounded(EMPTY, plans) && SoleStops(EMPTY) && Covered(EMPTY);
    hide Runs, AllGuarded, NeverDowngrades, Final, InPhaseTotal;
    NoOverAllocation(plans, events);
    CoveredRun(EMPTY, plans, events);
  }

  // ------------------------------------------------------------------
  // A plan change is a read, a delete and an insert
  // ------------------------------------------------------------------

  lemma {:induction false} ChangeKept(s: System, plans: map<string, real>, events: seq<Event>, c: nat)
    requires Runs(s, plans, events) && c < |s.changes|
    ensures var end := Final(s, plans, events);
      c < |end.changes| && end.changes[c].plan == s.changes[c].plan && end.changes[c].balanceInBots == s.changes[c].balanceInBots
    decreases events
  {
    if events != [] {
      ChangeStepKept(s, plans, events[0], c);
      hide Effect, Enabled;
      ChangeKept(Effect(s, plans, events[0]), plans, events[1..], c);
    }
  }

  lemma ChangeStepKept(s: System, plans: map<string, real>, e: Event, c: nat)
    requires Enabled(s, plans, e) && c < |s.changes|
    ensures var next := Effect(s, plans, e);
      c < |next.changes| && next.changes[c].plan == s.changes[c].plan && next.changes[c].balanceInBots == s.changes[c].balanceInBots
  {
  }

  /** Whatever happens between the read and the insert, the change is off by exactly what the amount handed out
      grew by meanwhile; without a row to read, by all that is handed out. */
  lemma PlanChangeOffBy(s: System, plans: map<string, real>, plan: string, middle: seq<Event>)
    requires Conserved(s, plans) && Enabled(s, plans, PlanRead(plan))
    requires Runs(Effect(s, plans, PlanRead(plan)), plans, middle)
    requires var there := Final(Effect(s, plans, PlanRead(plan)), plans, middle);
      Enabled(there, plans, PlanWrite(|s.changes|, true)) && Writes(there, plans, PlanWrite(|s.changes|, true))
    ensures var there := Final(Effect(s, plans, PlanRead(plan)), plans, middle);
      var end := Effect(there, plans, PlanWrite(|s.changes|, true));
      end.row.Some? && end.row.value.plan == plan && plan in plans
      && end.row.value.remaining + Committed(end.slots)
         == plans[plan] + Committed(there.slots) - if s.row.Some? then Committed(s.slots) else 0.0
  {
    ChangeKept(Effect(s, plans, PlanRead(plan)), plans, middle, |s.changes|);
    hide Runs, Final, Committed;
  }

  lemma First(s: System, plans: map<string, real>, e: Event, rest: seq<Event>)
    requires Enabled(s, plans, e) && Runs(Effect(s, plans, e), plans, rest)
    ensures Runs(s, plans, [e] + rest) && Final(s, plans, [e] + rest) == Final(Effect(s, plans, e), plans, rest)
  {
    assert ([e] + rest)[1..] == rest;
    hide Enabled, Effect;
  }

  /** A start that reserves between the read and the delete is forgotten: the user ends with that much too much. */
  lemma ReserveDuringChange(s: System, plans: map<string, real>, plan: string, bal: real)
    requires Conserved(s, plans) && s.row.Some? && plan in plans && ReduceOutcome(s.row, bal) == Reduced
    ensures var during := [Reserve(bal)] + ([PlanWipe(|s.changes|)] + []);
      var began := Effect(s, plans, PlanRead(plan));
      && Runs(began, plans, during) && Enabled(Final(began, plans, during), plans, PlanWrite(|s.changes|, true))
      && var end := Effect(Final(began, plans, during), plans, PlanWrite(|s.changes|, true));
         end.row.Some? && end.row.value.plan == plan && end.row.value.remaining + Committed(end.slots) == plans[plan] + bal
  {
    hide Committed, Runs, Final;
    var began := Effect(s, plans, PlanRead(plan));
    var during := [Reserve(bal)] + ([PlanWipe(|s.changes|)] + []);
    ReserveThenWipe(s, plans, plan, bal);
    ReserveCommitted(s.slots, Slot(bal, Reserved));
    hide Effect, Conserved;
    PlanChangeOffBy(s, plans, plan, during);
  }

  lemma ReserveThenWipe(s: System, plans: map<string, real>, plan: string, bal: real)
    requires Enabled(s, plans, PlanRead(plan)) && s.row.Some? && plan in plans && ReduceOutcome(s.row, bal) == Reduced
    ensures var during := [Reserve(bal)] + ([PlanWipe(|s.changes|)] + []);
      var began := Effect(s, plans, PlanRead(plan));
      && Runs(began, plans, during) && Enabled(Final(began, plans, during), plans, PlanWrite(|s.changes|, true))
      && Writes(Final(began, plans, during), plans, PlanWrite(|s.changes|, true))
      && Final(began, plans, during).slots == s.slots + [Slot(bal, Reserved)]
      && Effect(Final(began, plans, during), plans, PlanWrite(|s.changes|, true)).slots == s.slots + [Slot(bal, Reserved)]
  {
    var began := Effect(s, plans, PlanRead(plan));
    var reserved := Effect(began, plans, Reserve(bal));
    var wiped := Effect(reserved, plans, PlanWipe(|s.changes|));
    assert Runs(wiped, plans, []) && Final(wiped, plans, []) == wiped;
    hide Runs, Final;
    First(reserved, plans, PlanWipe(|s.changes|), []);
    First(began, plans, Reserve(bal), [PlanWipe(|s.changes|)] + []);
  }

  /** A change to a plan that does not exist leaves no row; the next change then hands out the whole plan again. */
  lemma MissingPlanThenChange(s: System, plans: map<string, real>, missing: string, plan: string)
    requires Conserved(s, plans) && s.row.Some? && missing !in plans && plan in plans
    ensures var c := |s.changes|;
      var events := [PlanRead(missing)] + ([PlanWipe(c)] + ([PlanWrite(c, true)] + ([PlanRead(plan)] + ([PlanWrite(c + 1, true)] + []))));
      Runs(s, plans, events) && Final(s, plans, events).row == Some(Row(plan, plans[plan]))
      && Final(s, plans, events).slots == s.slots
  {
    var c := |s.changes|;
    var s1 := Effect(s, plans, PlanRead(missing));
    var s2 := Effect(s1, plans, PlanWipe(c));
    var s3 := Effect(s2, plans, PlanWrite(c, true));
    var s4 := Effect(s3, plans, PlanRead(plan));
    var s5 := Effect(s4, plans, PlanWrite(c + 1, true));
    assert s5.row == Some(Row(plan, plans[plan])) && s5.slots == s.slots;
    assert Runs(s5, plans, []) && Final(s5, plans, []) == s5;
    hide Effect, Enabled, Conserved, Runs, Final;
    First(s4, plans, PlanWrite(c + 1, true), []);
    First(s3, plans, PlanRead(plan), [PlanWrite(c + 1, true)] + []);
    First(s2, plans, PlanWrite(c, true), [PlanRead(plan)] + ([PlanWrite(c + 1, true)] + []));
    First(s1, plans, PlanWipe(c), [PlanWrite(c, true)] + ([PlanRead(plan)] + ([PlanWrite(c + 1, true)] + [])));
    First(s, plans, PlanRead(missing), [PlanWipe(c)] + ([PlanWrite(c, true)] + ([PlanRead(plan)] + ([PlanWrite(c + 1, true)] + []))));
  }

  /** A repair that writes restores the balance from any state in which nothing is under way, whatever was lost. */
  lemma RepairRestores(s: System, plans: map<string, real>)
    requires Enabled(s, plans, Repair(true))
    ensures var end := Effect(s, plans, Repair(true));
      && Conserved(end, plans)
      && end.row.value.remaining + InPhaseTotal(s.slots, Held) == plans[s.row.value.plan]
  {
    ForgivenCommitted(s.slots);
    hide Committed, InPhaseTotal;
  }
}
