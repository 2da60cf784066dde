/**
 monitor.go: the polling loop. Each poll either fails, which changes nothing, or replaces the
 snapshot and hands the difference to the bots in order.
 */
module MonitorRun {
  import opened Types
  import opened TraderDiff

  type Snapshot = seq<TraderPosition>

  /** The snapshot after a run of polls. */
  function Latest(start: Snapshot, answers: seq<Option<Snapshot>>): Snapshot
    decreases answers
  {
    if answers == [] then start
    else Latest(if answers[0].Some? then answers[0].value else start, answers[1..])
  }

  /** All updates a run of polls emits, in order. */
  function Emitted(start: Snapshot, answers: seq<Option<Snapshot>>): seq<Update>
    decreases answers
  {
    if answers == [] then []
    else match answers[0]
      case None => Emitted(start, answers[1..])
      case Some(nPs) => Compare(start, nPs) + Emitted(nPs, answers[1..])
  }

  class Monitor {
    const trader: Trader
    var sent: seq<Update> // what sendAllUpdates was given so far

    constructor (initial: Snapshot)
      ensures trader.positions == initial && sent == [] && fresh(trader)
    {
      trader := new Trader(initial);
      sent := [];
    }

    method SendAllUpdates(updates: seq<Update>)
      modifies this
      ensures sent == old(sent) + updates
    {
      sent := sent + updates;
    }

    /** One pass over the monitor's clients; answers[i] is what the i-th client's request returned. */
    method RunPass(answers: seq<Option<Snapshot>>)
      modifies this, trader
      ensures trader.positions == Latest(old(trader.positions), answers)
      ensures sent == old(sent) + Emitted(old(trader.positions), answers)
    {
      assert answers[0..] == answers;
      for i := 0 to |answers|
        invariant Latest(old(trader.positions), answers) == Latest(trader.positions, answers[i..])
        invariant old(sent) + Emitted(old(trader.positions), answers) == sent + Emitted(trader.positions, answers[i..])
      {
        assert answers[i..][1..] == answers[i + 1..];
        var r := trader.GetUpdates(answers[i]);
        match r {
          case None =>
          case Some((updates, newPositions)) =>
            trader.positions := newPositions;
            if |updates| > 0 {
              SendAllUpdates(updates);
            }
        }
      }
    }
  }

  predicate AllUnique(answers: seq<Option<Snapshot>>) {
    forall i :: 0 <= i < |answers| && answers[i].Some? ==> UniqueKeys(answers[i].value)
  }

  /** The snapshot is the last good answer, or the first snapshot where every poll failed. */
  lemma {:induction false} LatestIsLastGood(start: Snapshot, answers: seq<Option<Snapshot>>)
    ensures (forall i :: 0 <= i < |answers| ==> answers[i] == None) ==> Latest(start, answers) == start
    ensures forall i :: 0 <= i < |answers| && answers[i].Some? && (forall j :: i < j < |answers| ==> answers[j] == None) ==>
      Latest(start, answers) == answers[i].value
    decreases answers
  {
    if answers != [] {
      var rest := answers[1..];
      assert forall i :: 0 <= i < |rest| ==> rest[i] == answers[i + 1];
      LatestIsLastGood(if answers[0].Some? then answers[0].value else start, rest);
      forall i | 0 <= i < |answers| && answers[i].Some? && (forall j :: i < j < |answers| ==> answers[j] == None)
        ensures Latest(start, answers) == answers[i].value
      {
        if i > 0 {
          assert rest[i - 1] == answers[i] && forall j :: i - 1 < j < |rest| ==> rest[j] == answers[j + 1];
        }
      }
    }
  }

  /** Over any run of polls the updates, replayed in order onto the first snapshot, each apply
      where they must and yield the latest snapshot. */
  lemma {:induction false} RunIsPatch(start: Snapshot, answers: seq<Option<Snapshot>>)
    requires UniqueKeys(start) && AllUnique(answers)
    ensures UniqueKeys(Latest(start, answers))
    ensures AllApply(Book(start), Emitted(start, answers))
    ensures Replay(Book(start), Emitted(start, answers)) == Book(Latest(start, answers))
    decreases answers
  {
    if answers != [] {
      var rest := answers[1..];
      assert forall i :: 0 <= i < |rest| ==> rest[i] == answers[i + 1];
      match answers[0]
      case None => RunIsPatch(start, rest);
      case Some(nPs) =>
        RunIsPatch(nPs, rest);
        DiffIsPatch(start, nPs);
        ReplayAppend(Book(start), Compare(start, nPs), Emitted(nPs, rest));
    }
  }
}
