/**
 The pool of proxies. Groups are handed out as slices of the pool's own backing array, and appending on return
 may write into that array, so what keeps a group intact is where it lies.
 */
module Proxies {
  import opened Types

  function Cells(cells: seq<string>, lo: nat, hi: nat): seq<string>
    requires lo <= hi <= |cells|
  {
    cells[lo..hi]
  }

  /** A Go slice, but for its capacity: cells lo to hi of a backing array. */
  datatype Slice = Slice(arr: array<string>, lo: nat, hi: nat)
  {
    predicate InBounds() { lo <= hi <= arr.Length }

    function Contents(): seq<string>
      requires InBounds()
      reads arr
    {
      Cells(arr[..], lo, hi)
    }
  }

  predicate Apart(g: Slice, h: Slice) { g.arr != h.arr || g.hi <= h.lo || h.hi <= g.lo }

  function Total(held: seq<seq<string>>): multiset<string> {
    if held == [] then multiset{} else multiset(held[0]) + Total(held[1..])
  }

  predicate Conserves(available: seq<string>, held: seq<seq<string>>, all: multiset<string>) {
    multiset(available) + Total(held) == all
  }

  function Without<T>(s: seq<T>, i: nat): seq<T>
    requires i < |s|
  {
    s[..i] + s[i + 1..]
  }

  lemma {:induction false} TotalAppend(held: seq<seq<string>>, g: seq<string>)
    ensures Total(held + [g]) == Total(held) + multiset(g)
  {
    if held == [] {
      assert held + [g] == [g];
    } else {
      assert (held + [g])[1..] == held[1..] + [g];
      TotalAppend(held[1..], g);
    }
  }

  lemma {:induction false} TotalWithout(held: seq<seq<string>>, i: nat)
    requires i < |held|
    ensures Total(held) == Total(Without(held, i)) + multiset(held[i])
  {
    if i == 0 {
      assert Without(held, 0) == held[1..];
    } else {
      TotalWithout(held[1..], i - 1);
      WithoutTail(held, i);
      hide Without;
      TakeOut(multiset(held[0]), Total(Without(held[1..], i - 1)), multiset(held[i]));
    }
  }

  lemma WithoutTail(held: seq<seq<string>>, i: nat)
    requires 0 < i < |held|
    ensures Without(held, i) == [held[0]] + Without(held[1..], i - 1)
    ensures Total(Without(held, i)) == multiset(held[0]) + Total(Without(held[1..], i - 1))
  {
    assert Without(held, i)[1..] == Without(held[1..], i - 1);
  }

  lemma TakeOut(a: multiset<string>, b: multiset<string>, c: multiset<string>)
    ensures a + (b + c) == (a + b) + c
  {
  }

  /** The group still holds what it was handed out with. */
  predicate Untouched(g: Slice, held: seq<string>)
    reads g.arr
  {
    g.InBounds() && g.Contents() == held
  }

  /** It ends before the available part of its array. */
  predicate Behind(g: Slice, arr: array<string>, lo: nat) { g.arr == arr ==> g.hi <= lo }

  predicate AllApart(out: seq<Slice>) {
    forall i, j :: 0 <= i < j < |out| ==> Apart(out[i], out[j])
  }

  class Proxies {
    /** Available: its capacity reaches to the end of the array. */
    var arr: array<string>
    var lo: nat
    var hi: nat
    /** The groups handed out and not returned, and what was in them when they were handed out. */
    ghost var out: seq<Slice>
    ghost var held: seq<seq<string>>
    ghost var arrays: set<array<string>>
    ghost var all: multiset<string>

    function Available(): seq<string>
      requires lo <= hi <= arr.Length
      reads this, arr
    {
      Cells(arr[..], lo, hi)
    }

    ghost predicate Placed()
      reads this, arrays
    {
      && |out| == |held|
      && (forall i :: 0 <= i < |out| ==> out[i].arr in arrays && Untouched(out[i], held[i]))
      && (forall i :: 0 <= i < |out| ==> Behind(out[i], arr, lo))
      && AllApart(out)
    }

    /** Nothing is lost or doubled, no group overlaps another, and no group has been written to. */
    ghost predicate Valid()
      reads this, arr, arrays
    {
      lo <= hi <= arr.Length && Placed() && Conserves(Available(), held, all)
    }

    constructor (proxies: array<string>, n: nat)
      requires n <= proxies.Length
      ensures Valid() && arr == proxies && Available() == proxies[..n] && out == [] && all == multiset(proxies[..n])
    {
      arr, lo, hi := proxies, 0, n;
      out, held, arrays, all := [], [], {}, multiset(proxies[..n]);
    }

    method Length() returns (n: nat)
      requires Valid()
      ensures n == |Available()|
    {
      n := hi - lo;
    }

    /** A group is the front of what is available. */
    method NextGroup(wantNum: nat) returns (group: Option<Slice>)
      requires Valid()
      modifies this`lo, this`out, this`held, this`arrays
      ensures Valid()
      ensures group.Some? <==> wantNum <= |old(Available())|
      ensures group.None? ==> Available() == old(Available()) && out == old(out) && held == old(held)
      ensures group.Some? ==> Available() == old(Available())[wantNum..]
      ensures group.Some? ==> out == old(out) + [group.value] && held == old(held) + [old(Available())[..wantNum]]
      ensures group.Some? ==> group.value == Slice(arr, old(lo), old(lo) + wantNum)
    {
      if hi - lo < wantNum {
        return None;
      }
      hide Placed, Conserves;
      group := Some(Slice(arr, lo, lo + wantNum));
      Reslice(wantNum);
    }

    method Reslice(wantNum: nat)
      requires Valid() && wantNum <= hi - lo
      modifies this`lo, this`out, this`held, this`arrays
      ensures Valid()
      ensures Available() == old(Available())[wantNum..]
      ensures out == old(out) + [Slice(arr, old(lo), old(lo) + wantNum)] && held == old(held) + [old(Available())[..wantNum]]
    {
      ghost var before := Available();
      assert |before| == hi - lo;
      hide Conserves, Cells, Placed, Total, Apart, AllApart, Behind, Untouched;
      NextConserves(arr[..], lo, hi, wantNum, held, all);
      TakeFront(wantNum, before[..wantNum]);
    }

    method TakeFront(n: nat, ghost contents: seq<string>)
      requires lo + n <= hi <= arr.Length && Placed() && Untouched(Slice(arr, lo, lo + n), contents)
      modifies this`lo, this`out, this`held, this`arrays
      ensures Placed() && lo == old(lo) + n && out == old(out) + [Slice(arr, old(lo), lo)] && held == old(held) + [contents]
      ensures lo <= hi && Available() == Cells(old(arr[..]), old(lo) + n, hi)
    {
      ghost var cells := arr[..];
      NextApart(out, Slice(arr, lo, lo + n));
      lo, out, held, arrays := lo + n, out + [Slice(arr, lo, lo + n)], held + [contents], arrays + {arr};
      hide AllApart, Cells;
      assert arr[..] == cells;
    }

    /** Go's append: in place while the capacity lasts, else into a longer array, `spare` cells longer than needed. */
    method Append(values: seq<string>, spare: nat)
      requires lo <= hi <= arr.Length
      modifies this`arr, this`lo, this`hi, arr
      ensures lo <= hi <= arr.Length && Available() == old(Available()) + values
      ensures if arr == old(arr) then lo == old(lo) else fresh(arr) && lo == 0
      ensures arr == old(arr) <==> |values| <= old(arr).Length - old(hi)
      ensures old(arr)[..old(hi)] == old(arr[..hi])
    {
      ghost var before := Available();
      if |values| <= arr.Length - hi {
        ghost var cells := arr[..];
        WriteAt(hi, values);
        hi := hi + |values|;
        AppendedCells(cells, arr[..], lo, hi - |values|, values);
      } else {
        Relocate(values, spare);
      }
    }

    method Relocate(values: seq<string>, spare: nat)
      requires lo <= hi <= arr.Length
      modifies this`arr, this`lo, this`hi
      ensures fresh(arr) && lo == 0 && hi <= arr.Length && Available() == old(Available()) + values
    {
      var longer := new string[hi - lo + |values| + spare](i => "");
      forall i | 0 <= i < hi - lo {
        longer[i] := arr[lo + i];
      }
      forall i | 0 <= i < |values| {
        longer[hi - lo + i] := values[i];
      }
      assert longer[..][..hi - lo + |values|] == Available() + values;
      arr, lo, hi := longer, 0, hi - lo + |values|;
    }

    /** Appending leaves every group that is out as it is. */
    method AppendBehind(values: seq<string>, spare: nat)
      requires Valid()
      modifies this`arr, this`lo, this`hi, arr
      ensures lo <= hi <= arr.Length && Placed() && Available() == old(Available()) + values
      ensures arr == old(arr) || fresh(arr)
    {
      ghost var before, wasArr, wasHi := arr[..], arr, hi;
      Append(values, spare);
      assert wasArr[..][..wasHi] == before[..wasHi];
      forall i | 0 <= i < |out| ensures Untouched(out[i], held[i]) && Behind(out[i], arr, lo) {
        assert old(Untouched(out[i], held[i])) && old(Behind(out[i], arr, lo));
        if out[i].arr == wasArr {
          SameCells(before, wasArr[..], wasHi, out[i].lo, out[i].hi);
        }
      }
    }

    /** A group comes back: `k` says which of those that are out it is, if it is one of them. */
    method ReturnGroup(group: Slice, spare: nat, ghost k: nat)
      requires Valid() && group.InBounds()
      modifies this, arr
      ensures Valid() && (arr == old(arr) || fresh(arr))
      ensures Available() == old(Available()) + old(group.Contents())
      ensures if k < |old(out)| && old(out)[k] == group
              then out == Without(old(out), k) && held == Without(old(held), k) && all == old(all)
              else out == old(out) && held == old(held) && all == old(all) + multiset(old(group.Contents()))
    {
      ghost var before := Available();
      var values := group.arr[..][group.lo..group.hi];
      assert values == group.Contents();
      assert k < |out| && out[k] == group ==> Untouched(group, held[k]);
      hide Conserves, Placed, Cells;
      AppendBehind(values, spare);
      Settle(before, values, group, k);
    }

    /** createNewMonitor, as far as proxies go. The length check and the hand-out take the lock separately, and `others`
        are the requests served in between; the error of a hand-out that then fails is dropped, so the monitor is made
        with no proxies. One that does not start gives its group back. */
    method CreateNewMonitor(proxPerCopy: nat, others: seq<Request>, groups: seq<Slice>, starts: bool, spare: nat)
      returns (created: bool, group: Option<Slice>, left: seq<Slice>, ghost atHandOut: nat)
      requires Valid() && out == groups
      modifies this, arr
      ensures Valid() && all == old(all)
      ensures created <==> starts && proxPerCopy <= |old(Available())|
      ensures group.Some? <==> created && proxPerCopy <= atHandOut
      ensures out == if group.Some? then left + [group.value] else left
      ensures group.Some? ==> group.value.InBounds() && |group.value.Contents()| == proxPerCopy
      ensures proxPerCopy <= |old(Available())| ==>
        atHandOut == |Served(Pool(old(Available()), old(held)), others).available|
      ensures others == [] ==> left == groups && atHandOut == |old(Available())|
      ensures others == [] && created ==> Available() == old(Available())[proxPerCopy..]
      ensures others == [] && !created ==> Available() == Rotated(old(Available()), proxPerCopy)
    {
      hide Placed, Conserves, Cells, Apart, Without, ServeOne;
      atHandOut := |Available()|;
      var proxiesLeft := Length();
      left := groups;
      if proxiesLeft < proxPerCopy {
        return false, None, groups, atHandOut;
      }
      left := Serve(others, groups);
      atHandOut := |Available()|;
      created, group := HandOutOrReturn(proxPerCopy, starts, spare);
    }

    method HandOutOrReturn(proxPerCopy: nat, starts: bool, spare: nat) returns (created: bool, group: Option<Slice>)
      requires Valid()
      modifies this, arr
      ensures Valid() && all == old(all)
      ensures created == starts && (group.Some? <==> starts && proxPerCopy <= |old(Available())|)
      ensures out == if group.Some? then old(out) + [group.value] else old(out)
      ensures group.Some? ==> Available() == old(Available())[proxPerCopy..]
      ensures group.Some? ==> group.value.InBounds() && |group.value.Contents()| == proxPerCopy
      ensures group.None? ==> Available() == if starts then old(Available()) else Rotated(old(Available()), proxPerCopy)
    {
      assert |out| == |held|;
      hide Placed, Conserves, Cells, Apart, Without, Untouched;
      created := starts;
      group := NextGroup(proxPerCopy);
      if group.Some? {
        LastUntouched();
        if !starts {
          ReturnLast(spare, old(Available())[..proxPerCopy], group.value);
          group := None;
        }
      }
    }

    /** Gives back the group that was handed out last. */
    method ReturnLast(spare: nat, ghost contents: seq<string>, group: Slice)
      requires Valid() && out != [] && held != [] && out[|out| - 1] == group && held[|held| - 1] == contents
      requires group.InBounds() && group.Contents() == contents
      modifies this, arr
      ensures Valid() && all == old(all) && out == old(out)[..|old(out)| - 1]
      ensures Available() == old(Available()) + contents
    {
      hide Placed, Conserves, Cells, Apart, Slice.Contents;
      LastWithout(out[..|out| - 1], group);
      assert out == out[..|out| - 1] + [group];
      ReturnGroup(group, spare, |out| - 1);
    }

    lemma LastUntouched()
      requires Placed() && out != []
      ensures Untouched(out[|out| - 1], held[|out| - 1]) && |held| == |out|
      ensures out[|out| - 1].InBounds() && out[|out| - 1].Contents() == held[|out| - 1]
    {
    }

    ghost method Settle(before: seq<string>, values: seq<string>, group: Slice, k: nat)
      requires lo <= hi <= arr.Length && Placed() && Conserves(before, held, all) && Available() == before + values
      requires k < |out| && k < |held| && out[k] == group ==> held[k] == values
      modifies this`out, this`held, this`all
      ensures Valid() && Available() == before + values
      ensures if k < |old(out)| && old(out)[k] == group
              then out == Without(old(out), k) && held == Without(old(held), k) && all == old(all)
              else out == old(out) && held == old(held) && all == old(all) + multiset(values)
    {
      hide Conserves;
      if k < |out| && out[k] == group {
        ReturnConserves(before, values, held, k, all);
        TakeBack(k);
      } else {
        ForeignConserves(before, values, held, all);
        all := all + multiset(values);
      }
    }

    ghost method TakeBack(k: nat)
      requires Placed() && k < |out|
      modifies this`out, this`held
      ensures Placed() && out == Without(old(out), k) && held == Without(old(held), k)
    {
      WithoutApart(out, k);
      out, held := Without(out, k), Without(held, k);
      hide AllApart;
    }

    method WriteAt(start: nat, values: seq<string>)
      requires start + |values| <= arr.Length
      modifies arr
      ensures arr[..] == old(arr[..start]) + values + old(arr[start + |values|..])
    {
      forall i | 0 <= i < |values| {
        arr[start + i] := values[i];
      }
    }

    /** Any clients of the pool, each returning what it took: over any run no proxy is lost or doubled, and every group
        still out holds the proxies it was handed out with. */
    method Serve(requests: seq<Request>, groups: seq<Slice>) returns (left: seq<Slice>)
      requires Valid() && out == groups
      modifies this, arr
      ensures Valid() && all == old(all) && out == left && (arr == old(arr) || fresh(arr))
      ensures Pool(Available(), held) == Served(Pool(old(Available()), old(held)), requests)
      ensures requests == [] ==> left == groups
    {
      hide Placed, Conserves, Cells, Apart, Served, ServeOne, Total, Without;
      left := groups;
      ghost var start := Pool(Available(), held);
      assert requests[0..] == requests;
      for n := 0 to |requests|
        invariant Valid() && all == old(all) && out == left && (arr == old(arr) || fresh(arr))
        invariant Served(Pool(Available(), held), requests[n..]) == Served(start, requests)
        invariant n == 0 ==> left == groups
      {
        ServedNext(Pool(Available(), held), requests, n);
        left := Answer(requests[n], left);
      }
      ServedNone(Pool(Available(), held), requests);
    }

    /** One request. */
    method Answer(request: Request, groups: seq<Slice>) returns (left: seq<Slice>)
      requires Valid() && out == groups
      modifies this, arr
      ensures Valid() && all == old(all) && out == left && (arr == old(arr) || fresh(arr))
      ensures Pool(Available(), held) == ServeOne(Pool(old(Available()), old(held)), request)
    {
      left := groups;
      SameLength();
      hide Placed, Conserves, Cells, Apart;
      match request {
        case Take(wantNum) =>
          var group := NextGroup(wantNum);
          if group.Some? {
            left := left + [group.value];
          }
        case GiveBack(k, spare) =>
          if k < |left| {
            OutInBounds(k);
            ReturnGroup(left[k], spare, k);
            left := Without(left, k);
          }
      }
    }

    lemma SameLength()
      requires Placed()
      ensures |held| == |out|
    {
    }

    lemma OutInBounds(k: nat)
      requires Placed() && k < |out|
      ensures |held| == |out| && out[k].InBounds() && out[k].Contents() == held[k]
    {
      assert Untouched(out[k], held[k]);
    }
  }

  /** What a client asks: a group, or to take back the k-th of those that are out. */
  datatype Request = Take(wantNum: nat) | GiveBack(k: nat, spare: nat)

  /** What is available, and what the groups that are out hold. */
  datatype Pool = Pool(available: seq<string>, held: seq<seq<string>>)

  /** A group comes off the front, if there is enough; what comes back goes to the end. */
  function ServeOne(p: Pool, r: Request): Pool {
    match r
    case Take(n) => if n <= |p.available| then Pool(p.available[n..], p.held + [p.available[..n]]) else p
    case GiveBack(k, _) => if k < |p.held| then Pool(p.available + p.held[k], Without(p.held, k)) else p
  }

  function Served(p: Pool, requests: seq<Request>): Pool
    decreases requests
  {
    if requests == [] then p else Served(ServeOne(p, requests[0]), requests[1..])
  }

  lemma ServedNext(p: Pool, requests: seq<Request>, n: nat)
    requires n < |requests|
    ensures Served(p, requests[n..]) == Served(ServeOne(p, requests[n]), requests[n + 1..])
  {
    assert requests[n..][1..] == requests[n + 1..];
  }

  lemma ServedNone(p: Pool, requests: seq<Request>)
    ensures Served(p, requests[|requests|..]) == p
  {
  }

  /** What is taken and then given back has gone from the front to the end, and whatever else is out stays out. */
  lemma TakenAndReturned(p: Pool, n: nat, spare: nat)
    ensures Served(p, [Take(n), GiveBack(|p.held|, spare)]) == Pool(Rotated(p.available, n), p.held)
  {
    var took, back := ServeOne(p, Take(n)), GiveBack(|p.held|, spare);
    assert [Take(n), back][1..] == [back] && [back][1..] == [];
    assert Served(p, [Take(n), back]) == Served(took, [back]) == Served(ServeOne(took, back), []) == ServeOne(took, back);
    if n <= |p.available| {
      LastWithout(p.held, p.available[..n]);
      assert took == Pool(p.available[n..], p.held + [p.available[..n]]);
    }
  }

  /** Over any run of requests the proxies, available or out, are the same. */
  lemma {:induction false} ServedConserves(p: Pool, requests: seq<Request>)
    ensures multiset(Served(p, requests).available) + Total(Served(p, requests).held) == multiset(p.available) + Total(p.held)
    decreases requests
  {
    if requests != [] {
      ServeOneConserves(p, requests[0]);
      ServedConserves(ServeOne(p, requests[0]), requests[1..]);
    }
  }

  lemma ServeOneConserves(p: Pool, r: Request)
    ensures multiset(ServeOne(p, r).available) + Total(ServeOne(p, r).held) == multiset(p.available) + Total(p.held)
  {
    match r
    case Take(n) =>
      if n <= |p.available| {
        assert p.available == p.available[..n] + p.available[n..];
        TotalAppend(p.held, p.available[..n]);
      }
    case GiveBack(k, _) =>
      if k < |p.held| { TotalWithout(p.held, k); }
  }

  /** The first n of the cells from lo to hi, and the others. */
  lemma NextConserves(cells: seq<string>, lo: nat, hi: nat, n: nat, held: seq<seq<string>>, all: multiset<string>)
    requires lo + n <= hi <= |cells| && Conserves(Cells(cells, lo, hi), held, all)
    ensures var s := Cells(cells, lo, hi);
      && Cells(cells, lo, lo + n) == s[..n] && Cells(cells, lo + n, hi) == s[n..]
      && Conserves(s[n..], held + [s[..n]], all)
  {
    var s := cells[lo..hi];
    assert s == s[..n] + s[n..];
    TotalAppend(held, s[..n]);
  }

  /** And what comes back. */
  lemma ReturnConserves(available: seq<string>, values: seq<string>, held: seq<seq<string>>, k: nat, all: multiset<string>)
    requires Conserves(available, held, all) && k < |held| && held[k] == values
    ensures Conserves(available + values, Without(held, k), all)
  {
    TotalWithout(held, k);
  }

  lemma ForeignConserves(available: seq<string>, values: seq<string>, held: seq<seq<string>>, all: multiset<string>)
    requires Conserves(available, held, all)
    ensures Conserves(available + values, held, all + multiset(values))
  {
  }

  function Rotated(s: seq<string>, n: nat): seq<string> { if n <= |s| then s[n..] + s[..n] else s }

  lemma LastWithout<T>(s: seq<T>, x: T)
    ensures Without(s + [x], |s|) == s
  {
  }

  lemma AppendedCells(before: seq<string>, after: seq<string>, lo: nat, hi: nat, values: seq<string>)
    requires lo <= hi && hi + |values| <= |before|
    requires after == before[..hi] + values + before[hi + |values|..]
    ensures Cells(after, lo, hi + |values|) == Cells(before, lo, hi) + values
    ensures after[..hi] == before[..hi]
  {
  }

  lemma SameCells(before: seq<string>, after: seq<string>, n: nat, lo: nat, hi: nat)
    requires n <= |before| && |before| == |after| && before[..n] == after[..n] && lo <= hi <= n
    ensures Cells(before, lo, hi) == Cells(after, lo, hi)
  {
    assert before[lo..hi] == before[..n][lo..hi];
    assert after[lo..hi] == after[..n][lo..hi];
  }

  lemma WithoutApart(out: seq<Slice>, k: nat)
    requires AllApart(out) && k < |out|
    ensures AllApart(Without(out, k))
  {
    hide Apart;
  }

  lemma NextApart(out: seq<Slice>, g: Slice)
    requires AllApart(out)
    requires forall i :: 0 <= i < |out| && out[i].arr == g.arr ==> out[i].hi <= g.lo
    ensures AllApart(out + [g])
  {
  }
}
