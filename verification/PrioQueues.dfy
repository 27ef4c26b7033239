/**
 Two run queues of kernel/sched.c: the sorted list, and the array of lists with a bitmask.  A queued thread keeps its
 priority, so an entry is a thread with its priority; a lower number is a better priority.
 */
module PrioQueues {
  import opened Lists
  import opened Words

  datatype Entry = Entry(thread: nat, prio: int)

  // ----- The sorted list -----

  function Prios(list: seq<Entry>): (r: seq<int>)
    ensures |r| == |list| && forall i :: 0 <= i < |list| ==> r[i] == list[i].prio
  {
    seq(|list|, i requires 0 <= i < |list| => list[i].prio)
  }

  function Added(list: seq<Entry>, e: Entry): seq<Entry> { InsertAt(list, Rank(Prios(list), e.prio), e) }

  function Best(list: seq<Entry>): Option<Entry> { if list == [] then None else Some(list[0]) }

  ghost predicate Sorted(list: seq<Entry>) {
    forall i, j :: 0 <= i < j < |list| ==> list[i].prio <= list[j].prio
  }

  /** The list stays sorted, and a new entry goes behind all of its own priority. */
  lemma AddedSorted(list: seq<Entry>, e: Entry)
    requires Sorted(list)
    ensures Sorted(Added(list, e))
    ensures forall i :: 0 <= i < |list| && list[i].prio == e.prio ==> i < Rank(Prios(list), e.prio)
  {
    hide Rank, InsertAt;
  }

  class DumbQueue {
    var list: seq<Entry>

    constructor ()
      ensures list == []
    {
      list := [];
    }

    method Add(e: Entry)
      requires Sorted(list)
      modifies this
      ensures list == Added(old(list), e) && Sorted(list)
    {
      AddedSorted(list, e);
      var i := 0;
      while i < |list|
        invariant 0 <= i <= |list|
        invariant list == old(list)
        invariant forall j :: 0 <= j < i ==> list[j].prio <= e.prio
      {
        if e.prio < list[i].prio {
          assert i == Rank(Prios(list), e.prio);
          list := InsertAt(list, i, e);
          return;
        }
        i := i + 1;
      }
      assert Rank(Prios(list), e.prio) == |list|;
      list := list + [e];
    }

    method Remove(e: Entry)
      requires Sorted(list) && e in list
      modifies this
      ensures list == Removed(old(list), e) && Sorted(list)
    {
      CountIn(list, e);
      list := RemoveAt(list, Find(list, e));
    }

    method Peek() returns (r: Option<Entry>)
      ensures r == Best(list)
      ensures Sorted(list) ==> forall e :: e in list ==> r.Some? && r.value.prio <= e.prio
    {
      r := if list != [] then Some(list[0]) else None;
    }
  }

  // ----- The array of lists -----

  function Flat(queues: seq<seq<Entry>>): seq<Entry> {
    if queues == [] then [] else queues[0] + Flat(queues[1..])
  }

  lemma FlatSplit(queues: seq<seq<Entry>>)
    requires queues != []
    ensures Flat(queues) == queues[0] + Flat(queues[1..])
  {
  }

  /** List `i` holds the entries of priority `high + i`. */
  ghost predicate Banded(queues: seq<seq<Entry>>, high: int) {
    forall i, e :: 0 <= i < |queues| && e in queues[i] ==> e.prio == high + i
  }

  ghost predicate Masked(queues: seq<seq<Entry>>, mask: nat) {
    forall i: nat :: Bit(mask, i) <==> i < |queues| && queues[i] != []
  }

  lemma BandedTail(queues: seq<seq<Entry>>, high: int)
    requires Banded(queues, high) && queues != []
    ensures Banded(queues[1..], high + 1)
    ensures forall e :: e in queues[0] ==> e.prio == high
  {
  }

  lemma {:induction false} FlatPrio(queues: seq<seq<Entry>>, high: int)
    requires Banded(queues, high)
    ensures forall e :: e in Flat(queues) ==> e.prio >= high
    decreases |queues|
  {
    if queues != [] {
      BandedTail(queues, high);
      FlatPrio(queues[1..], high + 1);
    }
  }

  lemma {:induction false} PlaceConcat(a: seq<Entry>, b: seq<Entry>, prio: int)
    requires forall e :: e in a ==> e.prio <= prio
    ensures Rank(Prios(a + b), prio) == |a| + Rank(Prios(b), prio)
  {
    if a == [] {
      assert a + b == b;
    } else {
      assert a[0] in a;
      PlaceConcat(a[1..], b, prio);
      assert (a + b)[1..] == a[1..] + b;
    }
  }

  lemma AddFront(first: seq<Entry>, rest: seq<Entry>, e: Entry)
    requires forall x :: x in first ==> x.prio <= e.prio
    requires forall x :: x in rest ==> x.prio > e.prio
    ensures Added(first + rest, e) == (first + [e]) + rest
  {
    PlaceConcat(first, rest, e.prio);
    assert Rank(Prios(rest), e.prio) == 0;
  }

  lemma AddBehind(first: seq<Entry>, rest: seq<Entry>, e: Entry)
    requires forall x :: x in first ==> x.prio <= e.prio
    ensures Added(first + rest, e) == first + Added(rest, e)
  {
    PlaceConcat(first, rest, e.prio);
    InsertAtConcat(first, rest, Rank(Prios(rest), e.prio), e);
  }

  /** Appending to the list of its priority is adding to the sorted list. */
  lemma {:induction false} AddFlat(queues: seq<seq<Entry>>, high: int, e: Entry)
    requires Banded(queues, high) && high <= e.prio < high + |queues|
    ensures var i := e.prio - high;
      Flat(queues[i := queues[i] + [e]]) == Added(Flat(queues), e)
    decreases |queues|
  {
    hide Added, Banded;
    BandedTail(queues, high);
    var i := e.prio - high;
    var after := queues[i := queues[i] + [e]];
    var rest := Flat(queues[1..]);
    if i == 0 {
      FlatPrio(queues[1..], high + 1);
      AddFront(queues[0], rest, e);
      assert after[1..] == queues[1..];
    } else {
      AddFlat(queues[1..], high + 1, e);
      AddBehind(queues[0], rest, e);
      assert after[1..] == queues[1..][i - 1 := queues[1..][i - 1] + [e]];
    }
  }

  lemma {:induction false} FindConcat<T>(a: seq<T>, b: seq<T>, n: T)
    ensures Find(a + b, n) == if n in a then Find(a, n) else |a| + Find(b, n)
  {
    if a == [] {
      assert a + b == b;
    } else {
      FindConcat(a[1..], b, n);
      assert (a + b)[1..] == a[1..] + b;
    }
  }

  lemma RemoveAtConcat<T>(a: seq<T>, b: seq<T>, p: nat)
    requires p < |a + b|
    ensures RemoveAt(a + b, p) == if p < |a| then RemoveAt(a, p) + b else a + RemoveAt(b, p - |a|)
  {
  }

  lemma RemovedConcat<T>(a: seq<T>, b: seq<T>, n: T)
    ensures Removed(a + b, n) == if n in a then Removed(a, n) + b else a + Removed(b, n)
  {
    FindConcat(a, b, n);
    CountIn(a, n);
    hide Find, RemoveAt;
    if Find(a + b, n) < |a + b| {
      RemoveAtConcat(a, b, Find(a + b, n));
    }
  }

  /** Unlinking from the list of its priority is removing from the sorted list. */
  lemma {:induction false} RemoveFlat(queues: seq<seq<Entry>>, high: int, e: Entry)
    requires Banded(queues, high) && high <= e.prio < high + |queues| && e in queues[e.prio - high]
    ensures var i := e.prio - high;
      Flat(queues[i := Removed(queues[i], e)]) == Removed(Flat(queues), e)
    decreases |queues|
  {
    hide Removed, Banded, Flat;
    BandedTail(queues, high);
    var i, tail := e.prio - high, queues[1..];
    var after := queues[i := Removed(queues[i], e)];
    RemovedConcat(queues[0], Flat(tail), e);
    FlatSplit(queues);
    FlatSplit(after);
    if i == 0 {
      assert after[1..] == tail;
    } else {
      RemoveFlat(tail, high + 1, e);
      assert after[1..] == tail[i - 1 := Removed(tail[i - 1], e)];
    }
  }

  lemma {:induction false} FirstFlat(queues: seq<seq<Entry>>, k: nat)
    requires k < |queues| && queues[k] != [] && forall i :: 0 <= i < k ==> queues[i] == []
    ensures Flat(queues) != [] && Flat(queues)[0] == queues[k][0]
  {
    if k > 0 {
      FirstFlat(queues[1..], k - 1);
    }
  }

  lemma {:induction false} EmptyFlat(queues: seq<seq<Entry>>)
    requires forall i :: 0 <= i < |queues| ==> queues[i] == []
    ensures Flat(queues) == []
  {
    if queues != [] {
      EmptyFlat(queues[1..]);
    }
  }

  /** An entry is in the list of its priority. */
  lemma {:induction false} InBand(queues: seq<seq<Entry>>, high: int, e: Entry)
    requires Banded(queues, high) && e in Flat(queues)
    ensures high <= e.prio < high + |queues| && e in queues[e.prio - high]
    decreases |queues|
  {
    BandedTail(queues, high);
    if e !in queues[0] {
      InBand(queues[1..], high + 1, e);
    }
  }

  const QUEUES := 32

  class MultiQueue {
    const high: int
    const queues: array<seq<Entry>>
    var bitmask: nat

    ghost predicate Valid()
      reads this, queues
    {
      queues.Length == QUEUES && Banded(queues[..], high) && Masked(queues[..], bitmask)
    }

    /** The same entries as one sorted list. */
    ghost function Contents(): seq<Entry>
      reads this, queues
    {
      Flat(queues[..])
    }

    constructor (high: int)
      ensures Valid() && Contents() == [] && this.high == high && fresh(queues)
    {
      this.high := high;
      queues := new seq<Entry>[QUEUES](_ => []);
      bitmask := 0;
      new;
      EmptyFlat(queues[..]);
      NoBits();
    }

    method Add(e: Entry)
      requires Valid() && high <= e.prio < high + QUEUES
      modifies this, queues
      ensures Valid() && Contents() == Added(old(Contents()), e)
    {
      hide Flat, Added;
      ghost var before := queues[..];
      AddFlat(before, high, e);
      var bit := e.prio - high;
      queues[bit] := queues[bit] + [e];
      assert queues[..] == before[bit := before[bit] + [e]];
      SetBits(bitmask, bit);
      bitmask := SetBit(bitmask, bit);
    }

    method Remove(e: Entry)
      requires Valid() && high <= e.prio < high + QUEUES && e in queues[e.prio - high]
      modifies this, queues
      ensures Valid() && Contents() == Removed(old(Contents()), e)
    {
      ghost var before := queues[..];
      RemoveFlat(before, high, e);
      var bit := e.prio - high;
      CountIn(queues[bit], e);
      queues[bit] := RemoveAt(queues[bit], Find(queues[bit], e));
      assert queues[..] == before[bit := Removed(before[bit], e)];
      forall x | x in queues[bit] ensures x in before[bit] {
        RemovedIn(before[bit], e, x);
      }
      if queues[bit] == [] {
        ClearBits(bitmask, bit);
        bitmask := ClearBit(bitmask, bit);
      }
    }

    method Peek() returns (r: Option<Entry>)
      requires Valid()
      ensures r == Best(Contents())
    {
      ghost var lists := queues[..];
      if bitmask == 0 {
        NoBits();
        EmptyFlat(lists);
        return None;
      }
      var k := TrailingZeros(bitmask);
      LowestBit(bitmask, k);
      forall i | 0 <= i < k ensures lists[i] == [] {
        LowestBit(bitmask, i);
      }
      FirstFlat(lists, k);
      r := if queues[k] != [] then Some(queues[k][0]) else None;
    }
  }

  // ----- The two queues side by side -----

  datatype Op = DoAdd(e: Entry) | DoRemove(e: Entry)

  function Apply(list: seq<Entry>, op: Op): seq<Entry> {
    match op
    case DoAdd(e) => Added(list, e)
    case DoRemove(e) => Removed(list, e)
  }

  /** The sorted list after some operations. */
  function After(ops: seq<Op>): seq<Entry> {
    if ops == [] then [] else Apply(After(ops[..|ops| - 1]), ops[|ops| - 1])
  }

  /** What callers see to: priorities are in range, and only what is there is removed. */
  ghost predicate Legal(ops: seq<Op>, high: int) {
    forall i :: 0 <= i < |ops| ==>
      match ops[i]
      case DoAdd(e) => high <= e.prio < high + QUEUES
      case DoRemove(e) => e in After(ops[..i])
  }

  /** Both queues answer alike after every operation of every run: with the best entry of the sorted list. */
  method SideBySide(high: int, ops: seq<Op>) returns (dumb: seq<Option<Entry>>, multi: seq<Option<Entry>>)
    requires Legal(ops, high)
    ensures dumb == multi && |dumb| == |ops|
    ensures forall i :: 0 <= i < |ops| ==> dumb[i] == Best(After(ops[..i + 1]))
  {
    hide Flat, Added, Removed, Best;
    dumb, multi := [], [];
    var d := new DumbQueue();
    var m := new MultiQueue(high);
    for n := 0 to |ops|
      invariant m.high == high && m.Valid() && Sorted(d.list) && fresh(d) && fresh(m) && fresh(m.queues)
      invariant d.list == After(ops[..n]) && m.Contents() == After(ops[..n])
      invariant dumb == multi && |dumb| == n && forall i :: 0 <= i < n ==> dumb[i] == Best(After(ops[..i + 1]))
    {
      assert ops[..n + 1][..n] == ops[..n];
      match ops[n] {
      case DoAdd(e) =>
        d.Add(e);
        m.Add(e);
      case DoRemove(e) =>
        assert e in m.Contents();
        InBand(m.queues[..], high, e);
        d.Remove(e);
        m.Remove(e);
      }
      var a := d.Peek();
      var b := m.Peek();
      dumb, multi := dumb + [a], multi + [b];
    }
  }
}
