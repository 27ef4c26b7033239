/** The doubly and singly linked lists of the kernel, as sequences. */
module Lists {

  datatype Option<T> = None | Some(value: T)

  function InsertAt<T>(s: seq<T>, p: nat, x: T): (r: seq<T>)
    requires p <= |s|
    ensures |r| == |s| + 1 && r[p] == x
    ensures forall i :: 0 <= i < p ==> r[i] == s[i]
    ensures forall i :: p < i < |r| ==> r[i] == s[i - 1]
  {
    s[..p] + [x] + s[p..]
  }

  function RemoveAt<T>(s: seq<T>, p: nat): (r: seq<T>)
    requires p < |s|
    ensures |r| == |s| - 1
    ensures forall i :: 0 <= i < p ==> r[i] == s[i]
    ensures forall i :: p <= i < |r| ==> r[i] == s[i + 1]
  {
    s[..p] + s[p + 1..]
  }

  ghost predicate AllDifferent<T>(s: seq<T>) { forall i, j :: 0 <= i < j < |s| ==> s[i] != s[j] }

  /** Behind everyone who is no worse, and before the first who is. */
  ghost predicate InPlace(prios: seq<int>, i: nat, prio: int) {
    i <= |prios| && (forall k :: 0 <= k < i ==> prios[k] <= prio) && (i < |prios| ==> prio < prios[i])
  }

  /** Where something of priority `prio` goes in a list with these priorities: before the first worse one. */
  function Rank(prios: seq<int>, prio: int): (p: nat)
    ensures p <= |prios| && (p < |prios| ==> prio < prios[p])
    ensures forall i :: 0 <= i < p ==> prios[i] <= prio
  {
    if prios == [] || prio < prios[0] then 0 else 1 + Rank(prios[1..], prio)
  }

  lemma Associative<T>(a: seq<T>, b: seq<T>, c: seq<T>)
    ensures (a + b) + c == a + (b + c)
  {
  }

  lemma InsertAtMultiset<T>(s: seq<T>, p: nat, x: T)
    requires p <= |s|
    ensures multiset(InsertAt(s, p, x)) == multiset(s) + multiset{x}
  {
    assert s == s[..p] + s[p..];
  }

  lemma RemoveAtMultiset<T>(s: seq<T>, p: nat)
    requires p < |s|
    ensures multiset(s) == multiset(RemoveAt(s, p)) + multiset{s[p]}
  {
    assert s == s[..p] + [s[p]] + s[p + 1..];
  }

  /** Concatenation distributes over both. */
  lemma InsertAtConcat<T>(a: seq<T>, s: seq<T>, p: nat, x: T)
    requires p <= |s|
    ensures a + InsertAt(s, p, x) == InsertAt(a + s, |a| + p, x)
  {
  }

  function Count<T(==)>(list: seq<T>, n: T): nat {
    if list == [] then 0 else (if list[0] == n then 1 else 0) + Count(list[1..], n)
  }

  /** Where `n` is first found, or the length of the list. */
  function Find<T(==)>(list: seq<T>, n: T): (p: nat)
    ensures p <= |list| && (p < |list| ==> list[p] == n)
    ensures forall i :: 0 <= i < p ==> list[i] != n
  {
    if list == [] || list[0] == n then 0 else 1 + Find(list[1..], n)
  }

  /** The list without the first `n`, if there is one. */
  function Removed<T(==)>(list: seq<T>, n: T): seq<T> {
    var p := Find(list, n);
    if p < |list| then RemoveAt(list, p) else list
  }

  lemma {:induction false} CountIn<T>(list: seq<T>, n: T)
    ensures Count(list, n) > 0 <==> n in list
    ensures Find(list, n) < |list| <==> n in list
  {
    if list != [] {
      CountIn(list[1..], n);
    }
  }

  lemma {:induction false} CountAppend<T>(a: seq<T>, b: seq<T>, n: T)
    ensures Count(a + b, n) == Count(a, n) + Count(b, n)
  {
    if a == [] {
      assert a + b == b;
    } else {
      CountAppend(a[1..], b, n);
      assert (a + b)[1..] == a[1..] + b;
    }
  }

  lemma CountSnoc<T>(list: seq<T>, x: T, n: T)
    ensures Count(list + [x], n) == Count(list, n) + (if x == n then 1 else 0)
  {
    CountAppend(list, [x], n);
    assert [x][1..] == [];
  }

  lemma CountInsert<T>(list: seq<T>, p: nat, x: T, n: T)
    requires p <= |list|
    ensures Count(InsertAt(list, p, x), n) == Count(list, n) + (if x == n then 1 else 0)
  {
    hide Count;
    CountAppend(list[..p] + [x], list[p..], n);
    CountSnoc(list[..p], x, n);
    CountAppend(list[..p], list[p..], n);
    assert list[..p] + list[p..] == list;
  }

  lemma CountRemoved<T>(list: seq<T>, x: T, n: T)
    ensures Count(Removed(list, x), n) == Count(list, n) - (if x == n && x in list then 1 else 0)
  {
    var p := Find(list, x);
    CountIn(list, x);
    if p < |list| {
      CountAppend(list[..p], list[p..], n);
      CountAppend(list[..p], list[p + 1..], n);
      assert list[..p] + list[p..] == list;
      assert list[p..][1..] == list[p + 1..];
    }
  }

  lemma RemovedIn<T>(list: seq<T>, x: T, n: T)
    requires n in Removed(list, x)
    ensures n in list
  {
  }

  lemma InsertIn<T>(list: seq<T>, p: nat, x: T)
    requires p <= |list|
    ensures forall n :: n in InsertAt(list, p, x) ==> n == x || n in list
  {
  }

  /** Every number below `n` once, and nothing else. */
  ghost predicate EachOnce(ids: multiset<nat>, n: nat) {
    forall id: nat :: ids[id] == if id < n then 1 else 0
  }

  lemma EachOnceMore(ids: multiset<nat>, n: nat)
    requires EachOnce(ids, n)
    ensures EachOnce(ids + multiset{n}, n + 1)
  {
  }
}
