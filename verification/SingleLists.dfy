/**
 The singly linked lists of include/sys/list_gen.h.  A node has one link, kept in `next`, which all lists share; a list is its
 first and its last node.
 */
module SingleLists {
  import opened Lists

  datatype SList<T> = SList(head: Option<T>, tail: Option<T>)

  function At<T>(s: seq<T>, i: int): Option<T> { if 0 <= i < |s| then Some(s[i]) else None }

  /** The list holds exactly the nodes of `s`, in this order. */
  ghost predicate Linked<T>(next: map<T, Option<T>>, l: SList<T>, s: seq<T>) {
    && AllDifferent(s) && l.head == At(s, 0) && l.tail == At(s, |s| - 1)
    && forall i :: 0 <= i < |s| ==> s[i] in next && next[s[i]] == At(s, i + 1)
  }

  /** Nodes outside `s` keep their link. */
  ghost predicate Beside<T(!new)>(before: map<T, Option<T>>, after: map<T, Option<T>>, s: seq<T>) {
    forall n :: n in before && n !in s ==> n in after && after[n] == before[n]
  }

  /** A list without a touched node is as it was. */
  lemma Untouched<T(!new)>(before: map<T, Option<T>>, after: map<T, Option<T>>, touched: seq<T>, l: SList<T>, s: seq<T>)
    requires Linked(before, l, s) && Beside(before, after, touched)
    requires forall i :: 0 <= i < |s| ==> s[i] !in touched
    ensures Linked(after, l, s)
  {
  }

  method Append<T(!new, ==)>(next: map<T, Option<T>>, l: SList<T>, x: T, ghost s: seq<T>)
    returns (links: map<T, Option<T>>, r: SList<T>)
    requires Linked(next, l, s) && x !in s
    ensures Linked(links, r, s + [x]) && Beside(next, links, s + [x])
  {
    links := next[x := None];
    if l.tail.None? {
      r := SList(Some(x), Some(x));
    } else {
      links := links[l.tail.value := Some(x)];
      r := l.(tail := Some(x));
    }
  }

  method Prepend<T(!new, ==)>(next: map<T, Option<T>>, l: SList<T>, x: T, ghost s: seq<T>)
    returns (links: map<T, Option<T>>, r: SList<T>)
    requires Linked(next, l, s) && x !in s
    ensures Linked(links, r, [x] + s) && Beside(next, links, [x])
  {
    links := next[x := l.head];
    r := l.(head := Some(x));
    if r.tail.None? {
      r := r.(tail := r.head);
    }
  }

  /** Put `x` behind the node `prev`, which is number `i` of the list. */
  method InsertAfter<T(!new, ==)>(next: map<T, Option<T>>, l: SList<T>, prev: T, x: T, ghost s: seq<T>, ghost i: nat)
    returns (links: map<T, Option<T>>, r: SList<T>)
    requires Linked(next, l, s) && x !in s && i < |s| && s[i] == prev
    ensures Linked(links, r, InsertAt(s, i + 1, x)) && Beside(next, links, s + [x])
  {
    if next[prev].None? {
      links, r := Append(next, l, x, s);
      assert InsertAt(s, i + 1, x) == s + [x];
    } else {
      r := l;
      links := next[x := next[prev]];
      links := links[prev := Some(x)];
    }
  }

  /** Take the first node off; its own link stays. */
  method Get<T(==)>(next: map<T, Option<T>>, l: SList<T>, ghost s: seq<T>) returns (x: Option<T>, r: SList<T>)
    requires Linked(next, l, s)
    ensures x == At(s, 0) && Linked(next, r, if s == [] then s else s[1..])
  {
    x, r := l.head, l;
    if x.Some? {
      r := r.(head := next[x.value]);
      if r.tail == x {
        r := r.(tail := r.head);
      }
    }
  }

  /** Unlink number `i` of the list, given the node before it. */
  method Remove<T(!new, ==)>(next: map<T, Option<T>>, l: SList<T>, prev: Option<T>, x: T, ghost s: seq<T>, ghost i: nat)
    returns (links: map<T, Option<T>>, r: SList<T>)
    requires Linked(next, l, s) && i < |s| && s[i] == x && prev == At(s, i - 1)
    ensures Linked(links, r, RemoveAt(s, i)) && Beside(next, links, s) && x in links && links[x].None?
  {
    links, r := next, l;
    if prev.None? {
      r := r.(head := next[x]);
      if r.tail == Some(x) {
        r := r.(tail := r.head);
      }
    } else {
      links := links[prev.value := next[x]];
      if r.tail == Some(x) {
        r := r.(tail := prev);
      }
    }
    links := links[x := None];
  }

  method FindAndRemove<T(!new, ==)>(next: map<T, Option<T>>, l: SList<T>, x: T, ghost s: seq<T>)
    returns (links: map<T, Option<T>>, r: SList<T>, found: bool)
    requires Linked(next, l, s)
    ensures Linked(links, r, Removed(s, x)) && Beside(next, links, s)
    ensures found <==> x in s
  {
    links, r, found := next, l, false;
    var prev, test := None, l.head;
    ghost var i := 0;
    while test.Some?
      invariant 0 <= i <= |s| && test == At(s, i) && prev == At(s, i - 1)
      invariant forall j :: 0 <= j < i ==> s[j] != x
      decreases |s| - i
    {
      if test.value == x {
        links, r := Remove(next, l, prev, x, s, i);
        assert Find(s, x) == i;
        found := true;
        return;
      }
      prev, test := test, next[test.value];
      i := i + 1;
    }
    CountIn(s, x);
  }

  /** Whether `x` is on the list. */
  method Contains<T(==)>(next: map<T, Option<T>>, l: SList<T>, x: T, ghost s: seq<T>) returns (found: bool)
    requires Linked(next, l, s)
    ensures found <==> x in s
  {
    var test := l.head;
    ghost var i := 0;
    while test.Some?
      invariant 0 <= i <= |s| && test == At(s, i)
      invariant forall j :: 0 <= j < i ==> s[j] != x
      decreases |s| - i
    {
      if test.value == x {
        return true;
      }
      test := next[test.value];
      i := i + 1;
    }
    found := false;
  }
}
