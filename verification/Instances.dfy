/** The copytrading rows of one user, one per bot id: how payments and plan changes add and delete them. */
module Instances {

  /** A row's settings: those of a new bot, or whatever the user made of them. */
  datatype Config = NewBot(id: int) | Edited(settings: string)

  predicate IsId(i: int, k: int) { 1 <= i <= k }

  function Ids(k: int): set<int> { set i | 1 <= i <= k && IsId(i, k) }

  /** The ids are 1, 2, and so on without a gap. */
  predicate Contiguous(table: map<int, Config>) { table.Keys == Ids(|table|) }

  function Max(a: int, b: int): int { if a < b then b else a }

  /** A table, and whether every write so far succeeded. */
  datatype Written = Written(table: map<int, Config>, ok: bool)

  /** Inserts i, i + 1, ... n; `writes` succeed before one fails, and an id that is there already fails as well. */
  function InsertFrom(table: map<int, Config>, i: int, n: int, writes: nat): Written
    decreases n - i
  {
    if i > n then Written(table, true)
    else if writes == 0 || i in table then Written(table, false)
    else InsertFrom(table[i := NewBot(i)], i + 1, n, writes - 1)
  }

  /** Deletes i, i - 1, ... last. */
  function DeleteFrom(table: map<int, Config>, i: int, last: int, writes: nat): Written
    decreases i - last
  {
    if i < last then Written(table, true)
    else if writes == 0 then Written(table, false)
    else DeleteFrom(table - {i}, i - 1, last, writes - 1)
  }

  function NumSet(table: map<int, Config>, n: int, writes: nat): Written {
    if |table| > n then DeleteFrom(table, |table|, n + 1, writes) else InsertFrom(table, |table| + 1, n, writes)
  }

  class InstanceTable {
    var table: map<int, Config>

    /** WriteRecordCPYT: (user_id, bot_id) is the primary key. */
    method WriteRecord(id: int, dbOk: bool) returns (ok: bool)
      modifies this
      ensures ok == (dbOk && id !in old(table))
      ensures table == if ok then old(table)[id := NewBot(id)] else old(table)
    {
      ok := dbOk && id !in table;
      if ok {
        table := table[id := NewBot(id)];
      }
    }

    /** The loop of storeDataOnInitialPayment. */
    method CreateInstances(allowed: int, writes: nat) returns (ok: bool)
      modifies this
      ensures Written(table, ok) == InsertFrom(old(table), 1, allowed, writes)
    {
      var iter := 1;
      while iter <= allowed
        invariant iter >= 1 && iter - 1 <= writes
        invariant InsertFrom(old(table), 1, allowed, writes) == InsertFrom(table, iter, allowed, writes - (iter - 1))
      {
        ok := WriteRecord(iter, iter <= writes);
        if !ok {
          return;
        }
        iter := iter + 1;
      }
      ok := true;
    }

    /** The answer is the HTTP status. */
    method SetNumInstances(numInstances: int, readOk: bool, writes: nat) returns (status: int)
      modifies this
      ensures Written(table, status == 200) == if readOk then NumSet(old(table), numInstances, writes) else Written(old(table), false)
      ensures status == 200 || status == 500
    {
      if !readOk {
        return 500;
      }
      var existingInstanceCount := |table|;
      if existingInstanceCount > numInstances {
        var ok := DeleteInstances(existingInstanceCount, existingInstanceCount - numInstances, writes);
        if !ok {
          return 500;
        }
      } else if existingInstanceCount < numInstances {
        var i := existingInstanceCount + 1;
        while i <= numInstances
          invariant i >= existingInstanceCount + 1 && i - existingInstanceCount - 1 <= writes
          invariant InsertFrom(old(table), existingInstanceCount + 1, numInstances, writes)
                 == InsertFrom(table, i, numInstances, writes - (i - existingInstanceCount - 1))
        {
          var ok := WriteRecord(i, i - existingInstanceCount <= writes);
          if !ok {
            return 500;
          }
          i := i + 1;
        }
      }
      status := 200;
    }

    method DeleteInstances(totalCount: int, deleteCount: int, writes: nat) returns (ok: bool)
      modifies this
      ensures Written(table, ok) == DeleteFrom(old(table), totalCount, totalCount - deleteCount + 1, writes)
    {
      var lastBotIDToDelete := totalCount - deleteCount + 1;
      var i := totalCount;
      while i >= lastBotIDToDelete
        invariant i <= totalCount && totalCount - i <= writes
        invariant DeleteFrom(old(table), totalCount, lastBotIDToDelete, writes) == DeleteFrom(table, i, lastBotIDToDelete, writes - (totalCount - i))
      {
        if totalCount - i >= writes {
          return false;
        }
        table := table - {i};
        i := i - 1;
      }
      ok := true;
    }
  }

  // ------------------------------------------------------------------
  // No gaps, and no settings lost
  // ------------------------------------------------------------------

  lemma {:induction false} IdsSize(k: nat)
    ensures |Ids(k)| == k
  {
    if k == 0 {
      assert Ids(0) == {};
    } else {
      IdsSize(k - 1);
      assert Ids(k) == Ids(k - 1) + {k};
    }
  }

  /** `next` has the ids 1 to j; those `table` had keep their settings and the others are new bots. */
  predicate Resized(table: map<int, Config>, next: map<int, Config>, j: int) {
    && next.Keys == Ids(j)
    && forall i :: i in next ==> next[i] == if i in table then table[i] else NewBot(i)
  }

  lemma {:induction false} InsertResizes(table: map<int, Config>, k: nat, n: int, writes: nat)
    requires table.Keys == Ids(k)
    ensures var w := InsertFrom(table, k + 1, n, writes);
      Resized(table, w.table, if w.ok then Max(n, k) else k + writes) && (w.ok <==> n - k <= writes)
    decreases n - k
  {
    if k + 1 <= n && writes > 0 {
      var more := table[k + 1 := NewBot(k + 1)];
      assert more.Keys == Ids(k + 1);
      InsertResizes(more, k + 1, n, writes - 1);
    }
  }

  lemma {:induction false} DeleteResizes(table: map<int, Config>, k: int, n: int, writes: nat)
    requires table.Keys == Ids(k)
    ensures var w := DeleteFrom(table, k, n + 1, writes);
      Resized(table, w.table, if w.ok then (if k < n then k else n) else k - writes) && (w.ok <==> k - n <= writes)
    decreases k - n
  {
    if k >= n + 1 && writes > 0 {
      var fewer := table - {k};
      assert fewer.Keys == Ids(k - 1);
      DeleteResizes(fewer, k - 1, n, writes - 1);
    }
  }

  /** SetNumInstances(n) turns 1..k into 1..max(n, 0) when enough writes succeed, else stops at the id it reached;
      in either case there is no gap, the ids that survive keep their settings, and the status says which it was. */
  lemma NumSetResizes(table: map<int, Config>, n: int, writes: nat)
    requires Contiguous(table)
    ensures var k, w := |table|, NumSet(table, n, writes);
      && Contiguous(w.table) && Resized(table, w.table, |w.table|)
      && (w.ok <==> (if k > n then k - n else n - k) <= writes)
      && |w.table| == if w.ok then Max(n, 0) else if k > n then Max(k - writes, 0) else k + writes
  {
    var k := |table|;
    if k > n {
      DeleteResizes(table, k, n, writes);
      var j := if k - n <= writes then n else k - writes;
      assert Ids(j) == Ids(Max(j, 0));
      IdsSize(Max(j, 0));
    } else {
      InsertResizes(table, k, n, writes);
      IdsSize(if n - k <= writes then Max(n, k) else k + writes);
    }
  }

  /** The first payment of a user who has no rows creates as many as the plan allows. */
  lemma CreatedAtFirst(allowed: int, writes: nat)
    ensures var w := InsertFrom(map[], 1, allowed, writes);
      && Contiguous(w.table) && Resized(map[], w.table, |w.table|)
      && |w.table| == if w.ok then Max(allowed, 0) else writes
  {
    assert Ids(0) == {};
    InsertResizes(map[], 0, allowed, writes);
    hide InsertFrom;
    IdsSize(if allowed <= writes then Max(allowed, 0) else writes);
  }

  /** And one who has rows keeps them as they are. */
  lemma CreatedAgain(table: map<int, Config>, allowed: int, writes: nat)
    requires Contiguous(table) && table != map[]
    ensures var w := InsertFrom(table, 1, allowed, writes);
      w.table == table && (w.ok <==> allowed < 1)
  {
    var id :| id in table;
    assert IsId(id, |table|) && IsId(1, |table|);
    assert 1 in table;
    hide Ids;
  }

  datatype Event =
    | InitialPayment(allowed: int, writes: nat)
    | SetNum(n: int, writes: nat)
    | Edit(id: int, settings: string)
    | Wipe

  function Effect(table: map<int, Config>, e: Event): map<int, Config> {
    match e
    case InitialPayment(allowed, writes) => InsertFrom(table, 1, allowed, writes).table
    case SetNum(n, writes) => NumSet(table, n, writes).table
    case Edit(id, settings) => if id in table then table[id := Edited(settings)] else table
    case Wipe => map[]
  }

  function Final(table: map<int, Config>, events: seq<Event>): map<int, Config>
    decreases events
  {
    if events == [] then table else Final(Effect(table, events[0]), events[1..])
  }

  /** Over any run, wherever writes fail, the ids have no gap. */
  lemma {:induction false} RunContiguous(table: map<int, Config>, events: seq<Event>)
    requires Contiguous(table)
    ensures Contiguous(Final(table, events))
    decreases events
  {
    if events != [] {
      match events[0] {
        case InitialPayment(allowed, writes) =>
          CreatedAtFirst(allowed, writes);
          if table != map[] {
            CreatedAgain(table, allowed, writes);
          }
        case SetNum(n, writes) => NumSetResizes(table, n, writes);
        case Edit(id, settings) => if id in table { assert table[id := Edited(settings)].Keys == table.Keys; }
        case Wipe => assert Ids(0) == {};
      }
      RunContiguous(Effect(table, events[0]), events[1..]);
    }
  }
}
