/**
 Claiming a transaction, verifying it in a goroutine, crediting the user, and reporting the status.
 The chain's and the databases' answers are parameters; float64 amounts are reals.
 */
module Payments {
  import opened Types

  datatype Payment = Payment(userID: string, txID: string, isSuccess: bool, receivedQtyEth: real, errStr: string)
  {
    predicate Pending() { !isSuccess && errStr == "" }
  }

  datatype Request = Request(plan: string, txID: string, isRenewal: bool)

  datatype Plan = Plan(costPerMonth: real, initialPayment: real)

  /** What TransactionByHash answers: nothing on an error. */
  datatype TxState = InPool | Mined(recipient: string, wei: nat)

  /** What the chain has of a mined transaction. */
  datatype Transfer = Transfer(recipient: string, wei: nat)

  datatype Claim = Claimed | Refused(reason: string) | FailedToGetTx

  /** How the wait for confirmation ends. */
  datatype Outcome = Received(eth: real) | WrongWallet | TimedOut

  datatype Status = Untracked | Pending | Success | Fail(err: string) | NotYours

  const PAYMENT_RETRIES := 3

  /** The first answer that is not an error. */
  function FirstAnswer(answers: seq<Option<TxState>>): (r: Option<TxState>)
    ensures r.Some? ==> r in answers
    ensures r.None? ==> forall i :: 0 <= i < |answers| ==> answers[i] == None
  {
    if answers == [] then None else if answers[0].Some? then answers[0] else FirstAnswer(answers[1..])
  }

  function NewClaim(userID: string, txID: string): Payment { Payment(userID, txID, false, 0.0, "") }

  function ClaimOutcome(payments: map<string, Payment>, txID: string, answer: Option<TxState>): Claim {
    if txID in payments then Refused("Payment already claimed by a different user.")
    else match answer
      case None => FailedToGetTx
      case Some(Mined(_, _)) => Refused("Payment cannot be claimed")
      case Some(InPool) => Claimed
  }

  /** Ends at the first answer that finds the transaction mined. */
  function ConfirmationOutcome(ticks: seq<Option<TxState>>, ourWallet: string): Outcome {
    if ticks == [] then TimedOut
    else match ticks[0]
      case Some(Mined(recipient, wei)) => if recipient == ourWallet then Received(wei as real / 1000000000000000000.0) else WrongWallet
      case _ => ConfirmationOutcome(ticks[1..], ourWallet)
  }

  function Usd(eth: real, price: real): real { eth * price }

  /** Empty when the payment is good, else the error to show. */
  function Verdict(outcome: Outcome, isRenewal: bool, price: Option<real>, plan: Option<Plan>): string {
    match outcome
    case WrongWallet => "payment sent to the incorrect wallet"
    case TimedOut => "payment timeout, took too long to be confirmed"
    case Received(eth) =>
      if price.None? || plan.None? then "Internal server error"
      else
        var expected := plan.value.costPerMonth + if isRenewal then 0.0 else plan.value.initialPayment;
        if Usd(eth, price.value) < expected * 0.95 then "Insufficient payment received" else ""
  }

  /** The entry VerifyPayment leaves; a missing entry reads as Go's zero value. */
  function Verified(payments: map<string, Payment>, txID: string, outcome: Outcome, verdict: string): map<string, Payment> {
    var entry := if txID in payments then payments[txID] else Payment("", "", false, 0.0, "");
    var eth := if outcome.Received? then outcome.eth else 0.0;
    payments[txID := if verdict == "" then entry.(receivedQtyEth := eth, isSuccess := true)
                     else entry.(receivedQtyEth := eth, errStr := verdict)]
  }

  function StatusOf(payments: map<string, Payment>, userID: string, txID: string): Status {
    if txID !in payments then Untracked
    else if payments[txID].userID != userID then NotYours
    else if payments[txID].Pending() then Status.Pending
    else if payments[txID].isSuccess then Success
    else Fail(payments[txID].errStr)
  }

  function AfterStatus(payments: map<string, Payment>, userID: string, txID: string): map<string, Payment> {
    var status := StatusOf(payments, userID, txID);
    if status.Success? || status.Fail? then payments - {txID} else payments
  }

  class PaymentsHdlr {
    var payments: map<string, Payment>

    /** `answers` are what the chain answers to each try. */
    method TryClaimTx(userID: string, txID: string, answers: seq<Option<TxState>>) returns (claim: Claim)
      requires |answers| == PAYMENT_RETRIES
      modifies this
      ensures claim == ClaimOutcome(old(payments), txID, FirstAnswer(answers))
      ensures claim == Claimed <==> txID !in old(payments) && FirstAnswer(answers) == Some(InPool)
      ensures payments == if claim == Claimed then old(payments)[txID := NewClaim(userID, txID)] else old(payments)
    {
      if txID in payments {
        return Refused("Payment already claimed by a different user.");
      }
      var answer: Option<TxState> := None;
      var i := 0;
      while i < PAYMENT_RETRIES && answer.None?
        invariant 0 <= i <= PAYMENT_RETRIES
        invariant FirstAnswer(answers) == if answer.Some? then answer else FirstAnswer(answers[i..])
      {
        answer := answers[i];
        i := i + 1;
      }
      match answer {
        case None => return FailedToGetTx;
        case Some(Mined(_, _)) => return Refused("Payment cannot be claimed");
        case Some(InPool) =>
      }
      payments := payments[txID := NewClaim(userID, txID)];
      claim := Claimed;
    }

    /** checkPaymentSuccess; `ticks` are the answers until the timeout. */
    static method CheckPaymentSuccess(ticks: seq<Option<TxState>>, ourWallet: string) returns (outcome: Outcome)
      ensures outcome == ConfirmationOutcome(ticks, ourWallet)
    {
      var i := 0;
      while i < |ticks|
        invariant 0 <= i <= |ticks|
        invariant ConfirmationOutcome(ticks, ourWallet) == ConfirmationOutcome(ticks[i..], ourWallet)
      {
        match ticks[i] {
          case Some(Mined(recipient, wei)) =>
            if recipient == ourWallet {
              return Received(wei as real / 1000000000000000000.0);
            } else {
              return WrongWallet;
            }
          case _ =>
        }
        i := i + 1;
      }
      outcome := TimedOut;
    }

    method VerifyPayment(req: Request, outcome: Outcome, price: Option<real>, plan: Option<Plan>) returns (ok: bool)
      modifies this
      ensures ok <==> Verdict(outcome, req.isRenewal, price, plan) == ""
      ensures payments == Verified(old(payments), req.txID, outcome, Verdict(outcome, req.isRenewal, price, plan))
    {
      var errStr := Judge(req, outcome, price, plan);
      hide Verdict;
      var entry := if req.txID in payments then payments[req.txID] else Payment("", "", false, 0.0, "");
      entry := entry.(receivedQtyEth := if outcome.Received? then outcome.eth else 0.0);
      if errStr != "" {
        payments := payments[req.txID := entry.(errStr := errStr)];
        return false;
      }
      payments := payments[req.txID := entry.(isSuccess := true)];
      ok := true;
    }

    /** The early returns of VerifyPayment, as the error each of them stores. */
    static method Judge(req: Request, outcome: Outcome, price: Option<real>, plan: Option<Plan>) returns (errStr: string)
      ensures errStr == Verdict(outcome, req.isRenewal, price, plan)
    {
      hide Usd;
      match outcome {
        case WrongWallet => return "payment sent to the incorrect wallet";
        case TimedOut => return "payment timeout, took too long to be confirmed";
        case Received(eth) =>
          if price.None? || plan.None? {
            return "Internal server error";
          }
          var expected := plan.value.costPerMonth;
          if !req.isRenewal {
            expected := expected + plan.value.initialPayment;
          }
          return if Usd(eth, price.value) < expected * 0.95 then "Insufficient payment received" else "";
      }
    }

    method OnCheckPaymentStatus(userID: string, txID: string) returns (status: Status)
      modifies this
      ensures status == StatusOf(old(payments), userID, txID)
      ensures payments == AfterStatus(old(payments), userID, txID)
    {
      if txID in payments && payments[txID].userID != userID {
        return NotYours;
      }
      var removeAfter := false;
      if txID !in payments {
        status := Untracked;
      } else if !payments[txID].isSuccess && payments[txID].errStr == "" {
        status := Status.Pending;
      } else if payments[txID].isSuccess {
        status := Success;
        removeAfter := true;
      } else {
        status := Fail(payments[txID].errStr);
        removeAfter := true;
      }
      if removeAfter {
        payments := payments - {txID};
      }
    }
  }

  /** A good payment, and only a good payment, reached our wallet with at least 95% of the price. */
  lemma VerdictExact(outcome: Outcome, isRenewal: bool, price: Option<real>, plan: Option<Plan>)
    ensures Verdict(outcome, isRenewal, price, plan) == "" <==>
      outcome.Received? && price.Some? && plan.Some?
      && outcome.eth * price.value >= (if isRenewal then plan.value.costPerMonth else plan.value.costPerMonth + plan.value.initialPayment) * 0.95
  {
  }

  predicate FindsMined(tick: Option<TxState>) { tick.Some? && tick.value.Mined? }

  predicate FirstMined(ticks: seq<Option<TxState>>, i: nat) {
    i < |ticks| && FindsMined(ticks[i]) && forall j :: 0 <= j < i ==> !FindsMined(ticks[j])
  }

  /** The wait times out exactly when no tick finds the transaction mined. Otherwise the first that does decides: the payment is
      received exactly when its recipient is our wallet, and then as the ether of its wei. */
  lemma {:induction false} ConfirmationExact(ticks: seq<Option<TxState>>, ourWallet: string)
    ensures ConfirmationOutcome(ticks, ourWallet) == TimedOut <==> forall i :: 0 <= i < |ticks| ==> !FindsMined(ticks[i])
    ensures forall i: nat :: FirstMined(ticks, i) ==>
      var outcome := ConfirmationOutcome(ticks, ourWallet);
      if ticks[i].value.recipient == ourWallet
      then outcome.Received? && outcome.eth * 1_000_000_000_000_000_000.0 == ticks[i].value.wei as real
      else outcome == WrongWallet
    decreases ticks
  {
    if ticks != [] {
      var rest := ticks[1..];
      assert forall j :: 0 <= j < |rest| ==> rest[j] == ticks[j + 1];
      if !FindsMined(ticks[0]) {
        ConfirmationExact(rest, ourWallet);
        forall i: nat | FirstMined(ticks, i) ensures i > 0 && FirstMined(rest, i - 1) {
          assert forall j :: 0 <= j < i - 1 ==> rest[j] == ticks[j + 1];
        }
      } else {
        assert FindsMined(ticks[0]);
        assert forall i: nat :: FirstMined(ticks, i) ==> i == 0;
      }
    }
  }

  lemma {:induction false} SomeFirstMined(ticks: seq<Option<TxState>>) returns (i: nat)
    requires exists j :: 0 <= j < |ticks| && FindsMined(ticks[j])
    ensures FirstMined(ticks, i)
  {
    i := 0;
    while !FindsMined(ticks[i])
      invariant i < |ticks| && (exists j :: i <= j < |ticks| && FindsMined(ticks[j])) && forall j :: 0 <= j < i ==> !FindsMined(ticks[j])
      decreases |ticks| - i
    {
      i := i + 1;
    }
  }

  /** The answer taken is the first that is not an error. */
  lemma {:induction false} FirstAnswerIsFirst(answers: seq<Option<TxState>>, i: nat)
    requires i < |answers| && answers[i].Some? && forall j :: 0 <= j < i ==> answers[j] == None
    ensures FirstAnswer(answers) == answers[i]
    decreases answers
  {
    if i > 0 {
      assert forall j :: 0 <= j < i - 1 ==> answers[1..][j] == answers[j + 1];
      FirstAnswerIsFirst(answers[1..], i - 1);
    }
  }

  /** The status of an id, by its entry: none, another user's, still to be judged, good, or with the error of the verdict. */
  lemma StatusExact(payments: map<string, Payment>, userID: string, txID: string)
    ensures var status := StatusOf(payments, userID, txID);
      && (status == Untracked <==> txID !in payments)
      && (status == NotYours <==> txID in payments && payments[txID].userID != userID)
      && (status == Status.Pending <==>
            txID in payments && payments[txID].userID == userID && !payments[txID].isSuccess && |payments[txID].errStr| == 0)
      && (status == Success <==> txID in payments && payments[txID].userID == userID && payments[txID].isSuccess)
      && (status.Fail? <==> txID in payments && payments[txID].userID == userID && !payments[txID].isSuccess && |payments[txID].errStr| > 0)
      && (status.Fail? ==> status.err == payments[txID].errStr)
    ensures txID !in AfterStatus(payments, userID, txID) <==>
      txID in payments ==> payments[txID].userID == userID && (payments[txID].isSuccess || |payments[txID].errStr| > 0)
  {
  }

  // ------------------------------------------------------------------
  // Many users, many verifications at once
  // ------------------------------------------------------------------

  /** A verification goroutine: waiting for the chain, with its outcome, past VerifyPayment with success and
      what it read then, past the store that credits the user, or over. */
  datatype Phase =
    | Confirming
    | Confirmed(outcome: Outcome)
    | Paid(price: real, plan: Plan)
    | Credited(price: real, plan: Plan)
    | Over

  datatype Verifier = Verifier(userID: string, req: Request, phase: Phase)

  /** `mined` are the mined transactions by hash. */
  datatype System = System(payments: map<string, Payment>, verifiers: seq<Verifier>, mined: map<string, Transfer>, ourWallet: string)

  datatype Event =
    | Mine(hash: string, tx: Transfer)
    | PaymentSent(userID: string, req: Request, answer: Option<TxState>)
    | Confirm(v: nat, ticks: seq<Option<TxState>>)
    | Verify(v: nat, price: Option<real>, plan: Option<Plan>)
    | Store(v: nat)
    | CheckStatus(userID: string, txID: string)
    | Restart

  /** An answer that finds a transaction mined tells what the chain has of it. */
  predicate Truthful(s: System, h: string, answer: Option<TxState>) {
    FindsMined(answer) ==> h in s.mined && s.mined[h] == Transfer(answer.value.recipient, answer.value.wei)
  }

  /** `hash` is how a transaction id is read as a hash. The chain answers truthfully, and keeps what is mined. */
  predicate Enabled(s: System, hash: string -> string, e: Event) {
    match e
    case Mine(h, _) => h !in s.mined
    case PaymentSent(_, req, answer) =>
      Truthful(s, hash(req.txID), answer) && (answer == Some(InPool) ==> hash(req.txID) !in s.mined)
    case Confirm(v, ticks) =>
      && v < |s.verifiers| && s.verifiers[v].phase == Confirming
      && forall i :: 0 <= i < |ticks| ==> Truthful(s, hash(s.verifiers[v].req.txID), ticks[i])
    case Verify(v, _, _) => v < |s.verifiers| && s.verifiers[v].phase.Confirmed?
    case Store(v) => v < |s.verifiers| && s.verifiers[v].phase.Paid?
    case CheckStatus(_, _) => true
    case Restart => true
  }

  function SetPhase(s: System, v: nat, phase: Phase): seq<Verifier>
    requires v < |s.verifiers|
  {
    s.verifiers[v := s.verifiers[v].(phase := phase)]
  }

  /** Memory is lost, and with it the goroutines. */
  function Stopped(verifiers: seq<Verifier>): seq<Verifier> {
    seq(|verifiers|, i requires 0 <= i < |verifiers| =>
      if verifiers[i].phase.Credited? then verifiers[i] else verifiers[i].(phase := Over))
  }

  function Effect(s: System, hash: string -> string, e: Event): System
    requires Enabled(s, hash, e)
  {
    match e
    case Mine(h, tx) => s.(mined := s.mined[h := tx])
    case PaymentSent(userID, req, answer) =>
      if ClaimOutcome(s.payments, req.txID, answer) != Claimed then s
      else s.(payments := s.payments[req.txID := NewClaim(userID, req.txID)], verifiers := s.verifiers + [Verifier(userID, req, Confirming)])
    case Confirm(v, ticks) => s.(verifiers := SetPhase(s, v, Confirmed(ConfirmationOutcome(ticks, s.ourWallet))))
    case Verify(v, price, plan) =>
      var req := s.verifiers[v].req;
      var verdict := Verdict(s.verifiers[v].phase.outcome, req.isRenewal, price, plan);
      s.(payments := Verified(s.payments, req.txID, s.verifiers[v].phase.outcome, verdict),
         verifiers := SetPhase(s, v, if verdict == "" && price.Some? && plan.Some? then Paid(price.value, plan.value) else Over))
    case Store(v) => s.(verifiers := SetPhase(s, v, Credited(s.verifiers[v].phase.price, s.verifiers[v].phase.plan)))
    case CheckStatus(userID, txID) => s.(payments := AfterStatus(s.payments, userID, txID))
    case Restart => s.(payments := map[], verifiers := Stopped(s.verifiers))
  }

  predicate Running(v: Verifier) { v.phase == Confirming || v.phase.Confirmed? }

  predicate Live(v: Verifier) { v.phase != Over }

  /** The chain has it that this much went to our wallet. */
  predicate ReachedUs(s: System, h: string, eth: real) {
    h in s.mined && s.mined[h].recipient == s.ourWallet && eth * 1_000_000_000_000_000_000.0 == s.mined[h].wei as real
  }

  /** And that it was at least 95% of what was expected, at the price and for the plan that were read. */
  predicate PaidEnough(s: System, req: Request, h: string, price: real, plan: Plan) {
    && h in s.mined && s.mined[h].recipient == s.ourWallet
    && s.mined[h].wei as real * price
       >= (if req.isRenewal then plan.costPerMonth else plan.costPerMonth + plan.initialPayment) * 0.95 * 1_000_000_000_000_000_000.0
  }

  predicate OnChain(s: System, req: Request, h: string, phase: Phase) {
    match phase
    case Confirmed(Received(eth)) => ReachedUs(s, h, eth)
    case Paid(price, plan) => PaidEnough(s, req, h, price, plan)
    case Credited(price, plan) => PaidEnough(s, req, h, price, plan)
    case _ => true
  }

  /** A running verifier has a pending entry of its user, as the claim left it; and what a verifier found is on the chain. */
  predicate HasEntry(s: System, hash: string -> string, v: Verifier) {
    && (Running(v) ==> v.req.txID in s.payments && s.payments[v.req.txID] == NewClaim(v.userID, v.req.txID))
    && OnChain(s, v.req, hash(v.req.txID), v.phase)
  }

  predicate RunsFor(s: System, v: nat, txID: string) { v < |s.verifiers| && Running(s.verifiers[v]) && s.verifiers[v].req.txID == txID }

  /** A pending entry has a running verifier. */
  ghost predicate HasVerifier(s: System, txID: string) {
    txID in s.payments && s.payments[txID].Pending() ==> exists v: nat :: RunsFor(s, v, txID)
  }

  ghost predicate Entries(s: System, hash: string -> string) {
    forall i :: 0 <= i < |s.verifiers| ==> HasEntry(s, hash, s.verifiers[i])
  }

  ghost predicate OnePerTx(s: System) {
    forall i, j :: 0 <= i < |s.verifiers| && 0 <= j < |s.verifiers| ==>
      Live(s.verifiers[i]) && Live(s.verifiers[j]) && s.verifiers[i].req.txID == s.verifiers[j].req.txID ==> i == j
  }

  /** Only a transaction that reached our wallet is ever a success, and its entry tells how much that was. */
  ghost predicate SuccessMined(s: System, hash: string -> string) {
    forall txID :: txID in s.payments && s.payments[txID].isSuccess ==> ReachedUs(s, hash(txID), s.payments[txID].receivedQtyEth)
  }

  ghost predicate Inv(s: System, hash: string -> string) {
    Entries(s, hash) && OnePerTx(s) && SuccessMined(s, hash)
    && (forall txID :: txID in s.payments ==> HasVerifier(s, txID))
  }

  lemma VerifiedShape(payments: map<string, Payment>, txID: string, outcome: Outcome, verdict: string)
    ensures var after := Verified(payments, txID, outcome, verdict);
      && after.Keys == payments.Keys + {txID} && !after[txID].Pending()
      && (txID in payments ==> after[txID].userID == payments[txID].userID)
      && (after[txID].isSuccess <==> verdict == "" || (txID in payments && payments[txID].isSuccess))
      && after[txID].receivedQtyEth == (if outcome.Received? then outcome.eth else 0.0)
      && (verdict != "" ==> after[txID].errStr == verdict)
      && forall k :: k in payments && k != txID ==> after[k] == payments[k]
  {
  }

  lemma StatusShape(payments: map<string, Payment>, userID: string, txID: string)
    ensures var after := AfterStatus(payments, userID, txID);
      && after.Keys <= payments.Keys
      && (forall k :: k in after ==> after[k] == payments[k])
      && forall k :: k in payments && k !in after ==> k == txID && !payments[k].Pending() && payments[k].userID == userID
  {
  }

  /** What is mined stays mined. */
  lemma ChainKept(s: System, next: System, req: Request, h: string, phase: Phase)
    requires next.ourWallet == s.ourWallet && forall k :: k in s.mined ==> k in next.mined && next.mined[k] == s.mined[k]
    requires OnChain(s, req, h, phase)
    ensures OnChain(next, req, h, phase)
  {
  }

  /** Ether at a price, in wei. */
  lemma InWei(eth: real, price: real, least: real, wei: real)
    requires eth * 1_000_000_000_000_000_000.0 == wei && eth * price >= least
    ensures wei * price >= least * 1_000_000_000_000_000_000.0
  {
    assert wei * price == (eth * price) * 1_000_000_000_000_000_000.0;
  }

  lemma GoodIsEnough(s: System, req: Request, h: string, eth: real, price: Option<real>, plan: Option<Plan>)
    requires ReachedUs(s, h, eth) && Verdict(Received(eth), req.isRenewal, price, plan) == ""
    ensures price.Some? && plan.Some? && PaidEnough(s, req, h, price.value, plan.value)
  {
    VerdictExact(Received(eth), req.isRenewal, price, plan);
    hide Verdict;
    InWei(eth, price.value, (if req.isRenewal then plan.value.costPerMonth else plan.value.costPerMonth + plan.value.initialPayment) * 0.95,
          s.mined[h].wei as real);
  }

  /** A truthful wait that receives a payment received what the chain has. */
  lemma ConfirmedOnChain(s: System, h: string, ticks: seq<Option<TxState>>)
    requires forall i :: 0 <= i < |ticks| ==> Truthful(s, h, ticks[i])
    requires ConfirmationOutcome(ticks, s.ourWallet).Received?
    ensures ReachedUs(s, h, ConfirmationOutcome(ticks, s.ourWallet).eth)
  {
    ConfirmationExact(ticks, s.ourWallet);
    hide ConfirmationOutcome;
    var i := SomeFirstMined(ticks);
    assert Truthful(s, h, ticks[i]);
  }

  lemma ConfirmKeepsEntries(s: System, hash: string -> string, v: nat, ticks: seq<Option<TxState>>)
    requires Inv(s, hash) && Enabled(s, hash, Confirm(v, ticks))
    ensures Entries(Effect(s, hash, Confirm(v, ticks)), hash) && OnePerTx(Effect(s, hash, Confirm(v, ticks)))
  {
    var h := hash(s.verifiers[v].req.txID);
    if ConfirmationOutcome(ticks, s.ourWallet).Received? { ConfirmedOnChain(s, h, ticks); }
    hide ConfirmationOutcome, HasVerifier, Truthful;
    assert HasEntry(s, hash, s.verifiers[v]);
  }

  lemma VerifyKeepsEntries(s: System, hash: string -> string, v: nat, price: Option<real>, plan: Option<Plan>)
    requires Inv(s, hash) && Enabled(s, hash, Verify(v, price, plan))
    ensures Entries(Effect(s, hash, Verify(v, price, plan)), hash) && OnePerTx(Effect(s, hash, Verify(v, price, plan)))
  {
    hide Verified, Verdict, HasVerifier, Usd, PaidEnough, ReachedUs;
    var req, outcome := s.verifiers[v].req, s.verifiers[v].phase.outcome;
    var verdict := Verdict(outcome, req.isRenewal, price, plan);
    VerifiedShape(s.payments, req.txID, outcome, verdict);
    VerdictExact(outcome, req.isRenewal, price, plan);
    assert HasEntry(s, hash, s.verifiers[v]) && Live(s.verifiers[v]);
    if verdict == "" { GoodIsEnough(s, req, hash(req.txID), outcome.eth, price, plan); }
    var next := Effect(s, hash, Verify(v, price, plan));
    assert OnChain(s, req, hash(req.txID), next.verifiers[v].phase);
    assert next.mined == s.mined && next.ourWallet == s.ourWallet;
    assert OnePerTx(next);
    hide OnePerTx, OnChain;
    forall i | 0 <= i < |next.verifiers| ensures HasEntry(next, hash, next.verifiers[i]) {
      assert HasEntry(s, hash, s.verifiers[i]);
      ChainKept(s, next, next.verifiers[i].req, hash(next.verifiers[i].req.txID), next.verifiers[i].phase);
    }
  }

  lemma StatusKeepsEntries(s: System, hash: string -> string, userID: string, txID: string)
    requires Inv(s, hash)
    ensures Entries(Effect(s, hash, CheckStatus(userID, txID)), hash)
  {
    StatusShape(s.payments, userID, txID);
    hide AfterStatus, HasVerifier;
  }

  lemma SentKeepsEntries(s: System, hash: string -> string, userID: string, req: Request, answer: Option<TxState>)
    requires Inv(s, hash) && Enabled(s, hash, PaymentSent(userID, req, answer))
    ensures Entries(Effect(s, hash, PaymentSent(userID, req, answer)), hash)
    ensures OnePerTx(Effect(s, hash, PaymentSent(userID, req, answer)))
  {
    hide HasVerifier;
    if ClaimOutcome(s.payments, req.txID, answer) == Claimed {
      forall i | 0 <= i < |s.verifiers| && Live(s.verifiers[i]) ensures s.verifiers[i].req.txID != req.txID {
        assert HasEntry(s, hash, s.verifiers[i]);
      }
    }
  }

  lemma MineKeepsEntries(s: System, hash: string -> string, h: string, tx: Transfer)
    requires Inv(s, hash) && Enabled(s, hash, Mine(h, tx))
    ensures Entries(Effect(s, hash, Mine(h, tx)), hash) && OnePerTx(Effect(s, hash, Mine(h, tx)))
  {
    hide OnChain, HasVerifier;
    var next := Effect(s, hash, Mine(h, tx));
    forall i | 0 <= i < |next.verifiers| ensures HasEntry(next, hash, next.verifiers[i]) {
      assert HasEntry(s, hash, s.verifiers[i]);
      ChainKept(s, next, s.verifiers[i].req, hash(s.verifiers[i].req.txID), s.verifiers[i].phase);
    }
  }

  /** What a verifier is to its entry, and one verifier per transaction id. */
  lemma StepKeepsEntries(s: System, hash: string -> string, e: Event)
    requires Inv(s, hash) && Enabled(s, hash, e)
    ensures Entries(Effect(s, hash, e), hash) && OnePerTx(Effect(s, hash, e))
  {
    hide HasVerifier, Verified, Verdict, AfterStatus, ClaimOutcome, ConfirmationOutcome, Truthful;
    match e {
      case Mine(h, tx) => MineKeepsEntries(s, hash, h, tx);
      case Verify(v, price, plan) => VerifyKeepsEntries(s, hash, v, price, plan);
      case CheckStatus(userID, txID) => StatusKeepsEntries(s, hash, userID, txID);
      case PaymentSent(userID, req, answer) => SentKeepsEntries(s, hash, userID, req, answer);
      case Confirm(v, ticks) => ConfirmKeepsEntries(s, hash, v, ticks);
      case _ =>
    }
  }

  /** Only a verdict or a new claim makes an entry pending or not. */
  lemma PendingKept(s: System, hash: string -> string, e: Event, txID: string)
    requires Inv(s, hash) && Enabled(s, hash, e)
    requires txID in Effect(s, hash, e).payments && Effect(s, hash, e).payments[txID].Pending()
    ensures e.Verify? ==> s.verifiers[e.v].req.txID != txID
    ensures (txID in s.payments && s.payments[txID].Pending())
      || (e.PaymentSent? && e.req.txID == txID && Effect(s, hash, e).verifiers == s.verifiers + [Verifier(e.userID, e.req, Confirming)])
  {
    hide HasVerifier, HasEntry, OnePerTx;
    match e {
      case Verify(v, price, plan) =>
        var req, outcome := s.verifiers[v].req, s.verifiers[v].phase.outcome;
        VerifiedShape(s.payments, req.txID, outcome, Verdict(outcome, req.isRenewal, price, plan));
        hide Verified, Verdict;
      case CheckStatus(userID, tx) =>
        StatusShape(s.payments, userID, tx);
        hide AfterStatus;
      case _ =>
    }
  }

  lemma StepKeepsVerifiers(s: System, hash: string -> string, e: Event, txID: string)
    requires Inv(s, hash) && Enabled(s, hash, e)
    ensures HasVerifier(Effect(s, hash, e), txID)
  {
    var next := Effect(s, hash, e);
    if txID in next.payments && next.payments[txID].Pending() {
      PendingKept(s, hash, e, txID);
      hide HasEntry, OnePerTx, Verified, Verdict, AfterStatus;
      if txID in s.payments && s.payments[txID].Pending() {
        var v: nat :| RunsFor(s, v, txID);
        assert RunsFor(next, v, txID);
      } else {
        assert RunsFor(next, |s.verifiers|, txID);
      }
    }
  }

  lemma StepKeepsMined(s: System, hash: string -> string, e: Event)
    requires Inv(s, hash) && Enabled(s, hash, e)
    ensures SuccessMined(Effect(s, hash, e), hash)
  {
    hide HasVerifier, Verified, Verdict, AfterStatus, OnePerTx;
    match e {
      case Verify(v, price, plan) =>
        var req, outcome := s.verifiers[v].req, s.verifiers[v].phase.outcome;
        VerifiedShape(s.payments, req.txID, outcome, Verdict(outcome, req.isRenewal, price, plan));
        VerdictExact(outcome, req.isRenewal, price, plan);
        assert HasEntry(s, hash, s.verifiers[v]);
      case CheckStatus(userID, txID) => StatusShape(s.payments, userID, txID);
      case _ =>
    }
  }

  lemma StepKeeps(s: System, hash: string -> string, e: Event)
    requires Inv(s, hash) && Enabled(s, hash, e)
    ensures Inv(Effect(s, hash, e), hash) && Effect(s, hash, e).ourWallet == s.ourWallet
  {
    assert Effect(s, hash, e).ourWallet == s.ourWallet by { hide Inv; }
    StepKeepsEntries(s, hash, e);
    StepKeepsMined(s, hash, e);
    hide Effect, HasVerifier, Enabled, OnePerTx, Entries, SuccessMined;
    forall txID | txID in Effect(s, hash, e).payments ensures HasVerifier(Effect(s, hash, e), txID) {
      StepKeepsVerifiers(s, hash, e, txID);
    }
  }

  // ------------------------------------------------------------------
  // Whole runs
  // ------------------------------------------------------------------

  ghost predicate Runs(s: System, hash: string -> string, events: seq<Event>)
    decreases events
  {
    events == [] || (Enabled(s, hash, events[0]) && Runs(Effect(s, hash, events[0]), hash, events[1..]))
  }

  ghost function Final(s: System, hash: string -> string, events: seq<Event>): System
    requires Runs(s, hash, events)
    decreases events
  {
    if events == [] then s else Final(Effect(s, hash, events[0]), hash, events[1..])
  }

  lemma {:induction false} RunKeeps(s: System, hash: string -> string, events: seq<Event>)
    requires Inv(s, hash) && Runs(s, hash, events)
    ensures Inv(Final(s, hash, events), hash) && Final(s, hash, events).ourWallet == s.ourWallet
    decreases events
  {
    hide Inv, Effect, Enabled;
    if events != [] {
      StepKeeps(s, hash, events[0]);
      RunKeeps(Effect(s, hash, events[0]), hash, events[1..]);
    }
  }

  predicate Starts(s: System) { s.payments == map[] && s.verifiers == [] }

  predicate IsCredited(s: System, v: nat) { v < |s.verifiers| && s.verifiers[v].phase.Credited? }

  lemma EnoughMeans(s: System, hash: string -> string, v: nat)
    requires Entries(s, hash) && IsCredited(s, v)
    ensures hash(s.verifiers[v].req.txID) in s.mined
    ensures var req, tx, read := s.verifiers[v].req, s.mined[hash(s.verifiers[v].req.txID)], s.verifiers[v].phase;
      && tx.recipient == s.ourWallet
      && tx.wei as real * read.price
         >= (if req.isRenewal then read.plan.costPerMonth else read.plan.costPerMonth + read.plan.initialPayment)
            * 0.95 * 1_000_000_000_000_000_000.0
  {
    assert HasEntry(s, hash, s.verifiers[v]);
  }

  /** Whatever users claim, re-claim and poll, restarts included, one transaction id is credited at most once, and only
      when the transaction is mined, went to our wallet, and was worth at least 95% of what the plan costs. */
  lemma CreditedOnce(s: System, hash: string -> string, events: seq<Event>, v: nat, w: nat)
    requires Starts(s) && Runs(s, hash, events)
    requires var end := Final(s, hash, events); IsCredited(end, v) && IsCredited(end, w)
    ensures var end := Final(s, hash, events);
      && (end.verifiers[v].req.txID == end.verifiers[w].req.txID ==> v == w)
      && hash(end.verifiers[v].req.txID) in end.mined
      && var req, tx, read := end.verifiers[v].req, end.mined[hash(end.verifiers[v].req.txID)], end.verifiers[v].phase;
         && tx.recipient == s.ourWallet
         && tx.wei as real * read.price
            >= (if req.isRenewal then read.plan.costPerMonth else read.plan.costPerMonth + read.plan.initialPayment)
               * 0.95 * 1_000_000_000_000_000_000.0
  {
    assert Inv(s, hash);
    hide Runs, Final, HasVerifier, SuccessMined, PaidEnough;
    RunKeeps(s, hash, events);
    EnoughMeans(Final(s, hash, events), hash, v);
  }

  /** Two verifiers that both credited one transaction. */
  ghost predicate CreditedTwice(s: System, hash: string -> string, events: seq<Event>, v: nat, w: nat) {
    && Starts(s) && Runs(s, hash, events)
    && var end := Final(s, hash, events);
       IsCredited(end, v) && IsCredited(end, w) && v != w && hash(end.verifiers[v].req.txID) == hash(end.verifiers[w].req.txID)
  }

  ghost predicate OneSpelling(hash: string -> string) { forall a: string, b: string :: hash(a) == hash(b) ==> a == b }

  lemma First(s: System, hash: string -> string, e: Event, rest: seq<Event>)
    requires Enabled(s, hash, e) && Runs(Effect(s, hash, e), hash, rest)
    ensures Runs(s, hash, [e] + rest) && Final(s, hash, [e] + rest) == Final(Effect(s, hash, e), hash, rest)
  {
    assert ([e] + rest)[1..] == rest;
    hide Enabled, Effect;
  }

  const PRICE: Option<real> := Some(1.0)
  const PLAN: Option<Plan> := Some(Plan(1.0, 0.0))
  const PAYS := Transfer("ours", 1_000_000_000_000_000_000)
  const FOUND: seq<Option<TxState>> := [Some(Mined("ours", 1_000_000_000_000_000_000))]
  const DONE := Credited(1.0, Plan(1.0, 0.0))
  const NOBODY := System(map[], [], map[], "ours")

  function Renewal(txID: string): Request { Request("plan", txID, true) }

  function Paying(a: string, b: string, phaseA: Phase, phaseB: Phase): seq<Verifier> {
    [Verifier("u", Renewal(a), phaseA), Verifier("v", Renewal(b), phaseB)]
  }

  /** Two texts of one transaction are claimed, and it is mined. */
  lemma BothClaim(a: string, b: string, hash: string -> string, rest: seq<Event>)
    requires a != b
    requires Runs(System(map[a := NewClaim("u", a), b := NewClaim("v", b)], Paying(a, b, Confirming, Confirming), map[hash(a) := PAYS], "ours"), hash, rest)
    ensures var claims := [PaymentSent("u", Renewal(a), Some(InPool))] + ([PaymentSent("v", Renewal(b), Some(InPool))] + ([Mine(hash(a), PAYS)] + rest));
      && Runs(NOBODY, hash, claims)
      && Final(NOBODY, hash, claims)
         == Final(System(map[a := NewClaim("u", a), b := NewClaim("v", b)], Paying(a, b, Confirming, Confirming), map[hash(a) := PAYS], "ours"), hash, rest)
  {
    var one := Effect(NOBODY, hash, PaymentSent("u", Renewal(a), Some(InPool)));
    assert one == System(map[a := NewClaim("u", a)], [Verifier("u", Renewal(a), Confirming)], map[], "ours");
    var two := Effect(one, hash, PaymentSent("v", Renewal(b), Some(InPool)));
    assert two == System(map[a := NewClaim("u", a), b := NewClaim("v", b)], Paying(a, b, Confirming, Confirming), map[], "ours");
    assert Effect(two, hash, Mine(hash(a), PAYS)).mined == map[hash(a) := PAYS];
    hide Enabled, Effect, Runs, Final;
    First(two, hash, Mine(hash(a), PAYS), rest);
    First(one, hash, PaymentSent("v", Renewal(b), Some(InPool)), [Mine(hash(a), PAYS)] + rest);
    First(NOBODY, hash, PaymentSent("u", Renewal(a), Some(InPool)), [PaymentSent("v", Renewal(b), Some(InPool))] + ([Mine(hash(a), PAYS)] + rest));
  }

  /** What crediting a verifier leaves. */
  function AfterCredit(s: System, v: nat): System
    requires v < |s.verifiers|
  {
    s.(payments := Verified(s.payments, s.verifiers[v].req.txID, Received(1.0), ""), verifiers := SetPhase(s, v, DONE))
  }

  /** A verifier whose transaction is mined and pays enough can go on to credit. */
  lemma CanCredit(s: System, hash: string -> string, v: nat, rest: seq<Event>)
    requires v < |s.verifiers| && s.verifiers[v].phase == Confirming && s.verifiers[v].req.isRenewal && s.ourWallet == "ours"
    requires hash(s.verifiers[v].req.txID) in s.mined && s.mined[hash(s.verifiers[v].req.txID)] == PAYS
    requires Runs(AfterCredit(s, v), hash, rest)
    ensures var credit := [Confirm(v, FOUND)] + ([Verify(v, PRICE, PLAN)] + ([Store(v)] + rest));
      Runs(s, hash, credit) && Final(s, hash, credit) == Final(AfterCredit(s, v), hash, rest)
  {
    assert ConfirmationOutcome(FOUND, "ours") == Received(1.0);
    assert Verdict(Received(1.0), true, PRICE, PLAN) == "";
    hide Verified, Verdict, ConfirmationOutcome;
    var confirmed := Effect(s, hash, Confirm(v, FOUND));
    var paid := Effect(confirmed, hash, Verify(v, PRICE, PLAN));
    assert paid.payments == AfterCredit(s, v).payments;
    assert paid.verifiers == SetPhase(s, v, Paid(1.0, Plan(1.0, 0.0)));
    assert Effect(paid, hash, Store(v)).verifiers == SetPhase(s, v, DONE);
    hide Enabled, Effect, Runs, Final, SetPhase;
    First(paid, hash, Store(v), rest);
    First(confirmed, hash, Verify(v, PRICE, PLAN), [Store(v)] + rest);
    First(s, hash, Confirm(v, FOUND), [Verify(v, PRICE, PLAN)] + ([Store(v)] + rest));
  }

  /** Two texts that are read as one transaction are both credited. */
  lemma TwoTextsTwoCredits(hash: string -> string, a: string, b: string) returns (events: seq<Event>)
    requires a != b && hash(a) == hash(b)
    ensures CreditedTwice(NOBODY, hash, events, 0, 1)
  {
    var claimed := System(map[a := NewClaim("u", a), b := NewClaim("v", b)], Paying(a, b, Confirming, Confirming), map[hash(a) := PAYS], "ours");
    var one := AfterCredit(claimed, 0);
    assert one.verifiers == Paying(a, b, DONE, Confirming);
    var both := AfterCredit(one, 1);
    assert both.verifiers == Paying(a, b, DONE, DONE);
    assert Runs(both, hash, []) && Final(both, hash, []) == both;
    hide Verified, Runs, Final, SetPhase, AfterCredit;
    assert one.mined == claimed.mined && one.ourWallet == "ours" by { CreditKeeps(claimed, 0); }
    CanCredit(one, hash, 1, []);
    var second := [Confirm(1, FOUND)] + ([Verify(1, PRICE, PLAN)] + ([Store(1)] + []));
    CanCredit(claimed, hash, 0, second);
    var first := [Confirm(0, FOUND)] + ([Verify(0, PRICE, PLAN)] + ([Store(0)] + second));
    BothClaim(a, b, hash, first);
    events := [PaymentSent("u", Renewal(a), Some(InPool))] + ([PaymentSent("v", Renewal(b), Some(InPool))] + ([Mine(hash(a), PAYS)] + first));
  }

  lemma CreditKeeps(s: System, v: nat)
    requires v < |s.verifiers|
    ensures AfterCredit(s, v).mined == s.mined && AfterCredit(s, v).ourWallet == s.ourWallet
  {
  }

  /** Over all runs a transaction is credited at most once exactly when every transaction has one spelling. */
  lemma TransactionCreditedOnce(hash: string -> string)
    ensures (forall s, events, v: nat, w: nat :: !CreditedTwice(s, hash, events, v, w)) <==> OneSpelling(hash)
  {
    if OneSpelling(hash) {
      forall s, events, v: nat, w: nat ensures !CreditedTwice(s, hash, events, v, w) {
        if CreditedTwice(s, hash, events, v, w) {
          CreditedOnce(s, hash, events, v, w);
        }
      }
    } else {
      var a: string, b: string :| hash(a) == hash(b) && a != b;
      var events := TwoTextsTwoCredits(hash, a, b);
      assert CreditedTwice(NOBODY, hash, events, 0, 1);
    }
  }

  /** A running verifier has the one pending entry of its id, owned by its user, and is its only verifier; and a
      pending entry has a running verifier. */
  lemma VerifiersAndEntries(s: System, hash: string -> string, events: seq<Event>, txID: string)
    requires Starts(s) && Runs(s, hash, events)
    ensures var end := Final(s, hash, events);
      (exists v: nat :: RunsFor(end, v, txID)) <==> txID in end.payments && end.payments[txID].Pending()
    ensures var end := Final(s, hash, events);
      forall v: nat :: RunsFor(end, v, txID) ==>
        end.payments[txID] == NewClaim(end.verifiers[v].userID, txID) && end.payments[txID].userID == end.verifiers[v].userID
        && forall w: nat :: RunsFor(end, w, txID) ==> v == w
  {
    assert Inv(s, hash);
    RunKeeps(s, hash, events);
    var end := Final(s, hash, events);
    hide Runs, Final;
    forall v: nat | RunsFor(end, v, txID)
      ensures txID in end.payments && end.payments[txID] == NewClaim(end.verifiers[v].userID, txID)
    {
      assert HasEntry(end, hash, end.verifiers[v]);
    }
    assert txID in end.payments ==> HasVerifier(end, txID);
  }

  /** Where an entry is a success, that much went to our wallet. */
  lemma SuccessOnChain(s: System, hash: string -> string, events: seq<Event>, txID: string)
    requires Starts(s) && Runs(s, hash, events)
    requires txID in Final(s, hash, events).payments && Final(s, hash, events).payments[txID].isSuccess
    ensures var end := Final(s, hash, events);
      && hash(txID) in end.mined && end.mined[hash(txID)].recipient == s.ourWallet
      && end.payments[txID].receivedQtyEth * 1_000_000_000_000_000_000.0 == end.mined[hash(txID)].wei as real
  {
    assert Inv(s, hash);
    hide Runs, Final, HasVerifier, HasEntry;
    RunKeeps(s, hash, events);
  }

  /** Mined, and with no entry left: nobody can claim it again. */
  predicate Settled(s: System, hash: string -> string, txID: string) { hash(txID) in s.mined && txID !in s.payments }

  lemma SettledStays(s: System, hash: string -> string, e: Event, txID: string)
    requires Inv(s, hash) && Enabled(s, hash, e) && Settled(s, hash, txID)
    ensures Settled(Effect(s, hash, e), hash, txID)
  {
    hide HasVerifier, Verified, Verdict, AfterStatus, OnePerTx;
    match e {
      case Verify(v, price, plan) =>
        var req, outcome := s.verifiers[v].req, s.verifiers[v].phase.outcome;
        VerifiedShape(s.payments, req.txID, outcome, Verdict(outcome, req.isRenewal, price, plan));
        assert HasEntry(s, hash, s.verifiers[v]);
      case CheckStatus(userID, tx) => StatusShape(s.payments, userID, tx);
      case _ =>
    }
  }

  lemma {:induction false} SettledForever(s: System, hash: string -> string, txID: string, events: seq<Event>)
    requires Inv(s, hash) && Settled(s, hash, txID) && Runs(s, hash, events)
    ensures Settled(Final(s, hash, events), hash, txID)
    decreases events
  {
    hide Inv, Effect, Enabled, Settled;
    if events != [] {
      StepKeeps(s, hash, events[0]);
      SettledStays(s, hash, events[0], txID);
      SettledForever(Effect(s, hash, events[0]), hash, txID, events[1..]);
    }
  }

  /** A success is reported to its user once; every later request, by anyone, finds the transaction untracked. */
  lemma SuccessReportedOnce(s: System, hash: string -> string, userID: string, txID: string, events: seq<Event>, other: string)
    requires Inv(s, hash) && StatusOf(s.payments, userID, txID) == Success
    requires Runs(Effect(s, hash, CheckStatus(userID, txID)), hash, events)
    ensures StatusOf(Final(Effect(s, hash, CheckStatus(userID, txID)), hash, events).payments, other, txID) == Untracked
  {
    StepKeeps(s, hash, CheckStatus(userID, txID));
    hide Runs, Final, Inv, Enabled, HasVerifier;
    assert SuccessMined(s, hash) by { InvMined(s, hash); }
    SettledForever(Effect(s, hash, CheckStatus(userID, txID)), hash, txID, events);
  }

  lemma InvMined(s: System, hash: string -> string)
    requires Inv(s, hash)
    ensures SuccessMined(s, hash)
  {
  }
}
