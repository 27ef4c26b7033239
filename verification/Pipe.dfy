/** k_pipe_put() and k_pipe_get() (kernel/pipes.c): working sets of waiters, direct copies and the circular buffer. */
module Pipe {
  import opened Lists
  import opened PipeModel
  import PipeRing

  function Total(needs: seq<nat>): nat { if needs == [] then 0 else Total(needs[..|needs| - 1]) + needs[|needs| - 1] }

  function ReaderNeeds(rs: seq<Reader>): seq<nat> { seq(|rs|, i requires 0 <= i < |rs| => rs[i].want) }

  function WriterNeeds(ws: seq<Writer>): seq<nat> { seq(|ws|, i requires 0 <= i < |ws| => |ws[i].data|) }

  lemma {:induction false} TotalMonotone(needs: seq<nat>, i: nat)
    requires i <= |needs|
    ensures Total(needs[..i]) <= Total(needs)
    decreases |needs| - i
  {
    if i == |needs| {
      assert needs[..i] == needs;
    } else {
      assert needs[..i + 1][..i] == needs[..i];
      TotalMonotone(needs, i + 1);
    }
  }

  /**
   pipe_xfer_prepare(): the request cannot be met at once, or else the first k waiters are the ones that it can
   satisfy completely; the next one, if any, it can satisfy only in part.
   */
  method Prepare(needs: seq<nat>, space: nat, bytes: nat, min: nat, noWait: bool) returns (ok: bool, k: nat)
    requires min <= bytes
    ensures ok <==> !(noWait && Total(needs) + space < min)
    ensures ok ==> k <= |needs| && Total(needs[..k]) <= bytes && (k < |needs| ==> Total(needs[..k]) + needs[k] > bytes)
  {
    k := 0;
    var n := 0;
    if noWait {
      while k < |needs|
        invariant 0 <= k <= |needs| && n == Total(needs[..k])
      {
        assert needs[..k + 1][..k] == needs[..k];
        n := n + needs[k];
        if n >= bytes {
          break;
        }
        k := k + 1;
      }
      if k < |needs| {
        TotalMonotone(needs, k + 1);
        assert needs[..k + 1][..k] == needs[..k];
      } else {
        assert needs[..k] == needs;
      }
      if n + space < min {
        return false, 0;
      }
    }
    k, n := 0, 0;
    while k < |needs|
      invariant 0 <= k <= |needs| && n == Total(needs[..k]) <= bytes
    {
      assert needs[..k + 1][..k] == needs[..k];
      if n + needs[k] > bytes {
        break;
      }
      n := n + needs[k];
      k := k + 1;
    }
    ok := true;
  }

  /** pipe_xfer(): as much of `src` as fits. */
  method Xfer(src: seq<Byte>, room: nat) returns (out: seq<Byte>)
    ensures out == src[..Min(|src|, room)]
  {
    out := [];
    var n := 0;
    while n < |src| && n < room
      invariant 0 <= n <= |src| && n <= room && out == src[..n]
    {
      out := out + [src[n]];
      n := n + 1;
    }
  }

  // ----- The working sets, in terms of the stream -----

  lemma {:induction false} DemandConcat(a: seq<Reader>, b: seq<Reader>)
    ensures Demand(a + b) == Demand(a) + Demand(b)
    decreases |a|
  {
    if a == [] {
      assert a + b == b;
    } else {
      assert (a + b)[1..] == a[1..] + b;
      DemandConcat(a[1..], b);
    }
  }

  /** The needs of the readers add up to their demand. */
  lemma {:induction false} DemandTotal(rs: seq<Reader>, k: nat)
    requires k <= |rs|
    ensures Total(ReaderNeeds(rs)[..k]) == Demand(rs[..k])
  {
    if k > 0 {
      DemandTotal(rs, k - 1);
      assert ReaderNeeds(rs)[..k][..k - 1] == ReaderNeeds(rs)[..k - 1];
      assert rs[..k] == rs[..k - 1] + [rs[k - 1]];
      DemandConcat(rs[..k - 1], [rs[k - 1]]);
    }
  }

  lemma {:induction false} SupplyConcat(a: seq<Writer>, b: seq<Writer>)
    ensures Supply(a + b) == Supply(a) + Supply(b)
    decreases |a|
  {
    if a == [] {
      assert a + b == b;
    } else {
      assert (a + b)[1..] == a[1..] + b;
      SupplyConcat(a[1..], b);
    }
  }

  lemma {:induction false} SupplyTotal(ws: seq<Writer>, k: nat)
    requires k <= |ws|
    ensures Total(WriterNeeds(ws)[..k]) == |Supply(ws[..k])|
  {
    if k > 0 {
      SupplyTotal(ws, k - 1);
      assert WriterNeeds(ws)[..k][..k - 1] == WriterNeeds(ws)[..k - 1];
      assert ws[..k] == ws[..k - 1] + [ws[k - 1]];
      SupplyConcat(ws[..k - 1], [ws[k - 1]]);
    }
  }

  lemma PreparedWriters(ws: seq<Writer>)
    ensures |WriterNeeds(ws)| == |ws| && forall k :: 0 <= k < |ws| ==> WriterNeeds(ws)[k] == |ws[k].data|
    ensures Total(WriterNeeds(ws)) == |Supply(ws)|
    ensures forall k :: 0 <= k <= |ws| ==> Total(WriterNeeds(ws)[..k]) == |Supply(ws[..k])|
  {
    forall k | 0 <= k <= |ws| ensures Total(WriterNeeds(ws)[..k]) == |Supply(ws[..k])| {
      SupplyTotal(ws, k);
    }
    assert WriterNeeds(ws)[..|ws|] == WriterNeeds(ws) && ws[..|ws|] == ws;
  }

  /** The state after a get that moved bytes, in terms of what was copied. */
  lemma {:induction false} GetResult(p: State, prio: int, want: nat, min: nat, noWait: bool, got: seq<Byte>, woken: seq<Outcome>)
    requires Shape(p) && min <= want && !(noWait && Min(want, |Stream(p)|) < min)
    requires got == Stream(p)[..Min(want, |Stream(p)|)] && GetFlow(p, 0, want).done == p.done + woken
    ensures var q, f, call := PipeModel.Get(p, prio, want, min, noWait), GetFlow(p, 0, want), |p.requests|;
            && q.ring == f.ring && q.writers == f.writers && q.size == p.size && |q.requests| == call + 1
            && (if Finishes(|got|, want, min, noWait)
                then q.readers == p.readers && q.done == p.done + woken + [Outcome(call, got, ReturnCode(min, |got|))]
                else q.readers == InsertAt(p.readers, Rank(ReaderPrios(p.readers), prio), Reader(call, prio, got, want - |got|, min)) && q.done == p.done + woken)
  {
    hide Supply, Consume, Rank, InsertAt, ReaderPrios;
  }

  /** Nothing is lost or reordered between the ring, the working set and the reader. */
  lemma DrawnDirect(ring: seq<Byte>, working: seq<Writer>, first: seq<Byte>, left: seq<Byte>, got: seq<Byte>, list: seq<Writer>, want: nat)
    requires first + left == ring && |first| == Min(want, |ring|) && |Supply(working)| <= want
    requires |first| <= |got| <= want && (list != [] ==> |got| == want)
    requires got + Supply(list) == first + Supply(working)
    ensures got + (left + Supply(list)) == ring + Supply(working)
    ensures |Supply(list)| <= |first| && (|got| < want ==> left + Supply(list) == [])
  {
    assert got + (left + Supply(list)) == got + left + Supply(list);
    if |first| < want {
      assert left == [];
      assert got + left + Supply(list) == got + Supply(list) && ring == first;
    } else {
      assert got == (got + Supply(list))[..want] == (first + Supply(working))[..want] == first;
      assert Supply(list) == (got + Supply(list))[want..] == (first + Supply(working))[want..] == Supply(working);
    }
  }

  /** A writer from which n more bytes, or all that it has, have been taken. */
  function Drain(w: Writer, n: nat): Writer {
    var m := Min(n, |w.data|);
    w.(sent := w.sent + w.data[..m], data := w.data[m..])
  }

  /** What the writer behind the working set contributes: first to the reader, then to the ring. */
  ghost predicate Pieces(rest: seq<Writer>, want: nat, size: nat, first: seq<Byte>, mid: seq<Byte>, got: seq<Byte>, ring: seq<Byte>, m: nat)
    requires |first| <= want && |mid| <= size
  {
    if rest == [] then got == first && m == 0 && ring == mid
    else
      var d := rest[0].data;
      var c := Min(|d|, want - |first|);
      m == c + Min(|d| - c, size - |mid|) && got == first + d[..c] && ring == mid + d[c..m]
  }

  /** How writers end whose data has all been taken. */
  function AllDone(ws: seq<Writer>): seq<Outcome> {
    if ws == [] then [] else [Outcome(ws[0].call, ws[0].sent + ws[0].data, 0)] + AllDone(ws[1..])
  }

  /** The writer behind the working set fills up the reader, then the ring, and keeps some data. */
  lemma LastWriter(ring: seq<Byte>, supply: seq<Byte>, d: seq<Byte>, want: nat, got: seq<Byte>, mid: seq<Byte>, c: nat, m: nat)
    requires |supply| <= want < |supply| + |d| && got + mid == ring + supply
    requires |got| <= want && |mid| <= |ring| && (|got| < want ==> mid == [])
    requires c == Min(|d|, want - |got|) && m == c + Min(|d| - c, |ring| - |mid|)
    ensures |got| + c == want && m < |d| && |mid| + m - c == |ring|
    ensures (got + d[..c]) + (mid + d[c..m]) == ring + supply + d[..m]
  {
  }

  /** How much is drawn from the writers in all. */
  lemma DrawnInAll(p: State, working: seq<Writer>, rest: seq<Writer>, want: nat, n: nat, r: nat, m: nat)
    requires Shape(p) && p.writers == working + rest && |Supply(working)| <= want
    requires rest == [] ==> m == 0 && (n == want || r == 0)
    requires rest != [] ==> |Supply(working)| + |rest[0].data| > want && m < |rest[0].data| && n == want && r == p.size
    requires n + r == |p.ring| + |Supply(working)| + m && n <= want && r <= p.size
    ensures n == Min(want, |Stream(p)|) && Drawn(p, n) == |Supply(working)| + m
  {
    SupplyConcat(working, rest);
    assert rest != [] ==> |Supply(rest)| >= |rest[0].data|;
    assert rest == [] ==> working + rest == working && Supply(rest) == [];
    assert p.writers == [] ==> working == [] && rest == [];
  }

  lemma StreamSplit(front: seq<Byte>, s: seq<Byte>, a: nat, got: seq<Byte>, ring: seq<Byte>)
    requires a <= |s| && front + s[..a] == got + ring
    ensures (front + s)[..|got|] == got && (front + s[..a])[|got|..] == ring
  {
  }

  lemma SupplyFront(working: seq<Writer>, rest: seq<Writer>, m: nat)
    requires (rest == [] ==> m == 0) && (rest != [] ==> m < |rest[0].data|)
    ensures |Supply(working)| + m <= |Supply(working + rest)|
    ensures Supply(working + rest)[..|Supply(working)| + m] == Supply(working) + (if rest == [] then [] else rest[0].data[..m])
  {
    SupplyConcat(working, rest);
    assert rest != [] ==> Supply(rest) == rest[0].data + Supply(rest[1..]);
  }

  /** Consuming all of the first writer and more. */
  lemma ConsumeFirst(ws: seq<Writer>, n: nat)
    requires ws != [] && n <= |Supply(ws[1..])|
    ensures |ws[0].data| + n <= |Supply(ws)|
    ensures var c, d := Consume(ws, |ws[0].data| + n), Consume(ws[1..], n);
            c.writers == d.writers && c.done == [Outcome(ws[0].call, ws[0].sent + ws[0].data, 0)] + d.done
  {
  }

  lemma {:induction false} ConsumeWorking(working: seq<Writer>, rest: seq<Writer>, m: nat)
    requires (rest == [] ==> m == 0) && (rest != [] ==> m < |rest[0].data|)
    ensures |Supply(working)| + m <= |Supply(working + rest)|
    ensures var c := Consume(working + rest, |Supply(working)| + m);
            c.done == AllDone(working) && c.writers == if rest == [] then [] else [Drain(rest[0], m)] + rest[1..]
    decreases |working|
  {
    if working == [] {
      assert working + rest == rest;
    } else {
      assert |Supply(working)| == |working[0].data| + |Supply(working[1..])|;
      hide Supply, Consume, Drain;
      var all := working + rest;
      assert all[1..] == working[1..] + rest && all[0] == working[0];
      ConsumeWorking(working[1..], rest, m);
      ConsumeFirst(all, |Supply(working[1..])| + m);
    }
  }

  /** What the copying adds up to. */
  lemma {:induction false} GetAssembly(p: State, working: seq<Writer>, rest: seq<Writer>, want: nat, got: seq<Byte>, ring: seq<Byte>, m: nat)
    requires Shape(p) && p.writers == working + rest && |Supply(working)| <= want
    requires rest == [] ==> m == 0 && (|got| == want || |ring| == 0)
    requires rest != [] ==> |Supply(working)| + |rest[0].data| > want && m < |rest[0].data| && |got| == want && |ring| == p.size
    requires got + ring == p.ring + Supply(working) + (if rest == [] then [] else rest[0].data[..m])
    requires |got| <= want && |ring| <= p.size
    ensures got == Stream(p)[..Min(want, |Stream(p)|)]
    ensures var f := GetFlow(p, 0, want);
            && f.ring == ring && f.done == p.done + AllDone(working)
            && f.writers == if rest == [] then [] else [Drain(rest[0], m)] + rest[1..]
  {
    hide Supply, Consume, Drawn, Shape, Drain, AllDone;
    DrawnInAll(p, working, rest, want, |got|, |ring|, m);
    ConsumeWorking(working, rest, m);
    SupplyFront(working, rest, m);
    var s, a := Supply(p.writers), |Supply(working)| + m;
    StreamSplit(p.ring, s, a, got, ring);
  }

  /** The pieces copied by FromRing() and FromLast(). */
  lemma {:induction false} GetPieces(p: State, working: seq<Writer>, rest: seq<Writer>, want: nat, first: seq<Byte>, mid: seq<Byte>, got: seq<Byte>, ring: seq<Byte>, m: nat)
    requires Shape(p) && p.writers == working + rest && |Supply(working)| <= want
    requires rest != [] ==> |Supply(working)| + |rest[0].data| > want
    requires first + mid == p.ring + Supply(working) && |first| <= want && |mid| <= |p.ring| && (|first| < want ==> mid == [])
    requires Pieces(rest, want, p.size, first, mid, got, ring, m)
    ensures got == Stream(p)[..Min(want, |Stream(p)|)]
    ensures var f := GetFlow(p, 0, want);
            && f.ring == ring && f.done == p.done + AllDone(working)
            && f.writers == if rest == [] then [] else [Drain(rest[0], m)] + rest[1..]
  {
    if rest != [] {
      LastWriter(p.ring, Supply(working), rest[0].data, want, first, mid, Min(|rest[0].data|, want - |first|), m);
    }
    hide GetFlow, Stream, Supply;
    GetAssembly(p, working, rest, want, got, ring, m);
  }

  /** Taking some bytes from the first writer moves them, and changes nothing about how it will end. */
  lemma DrawOne(list: seq<Writer>, n: nat)
    requires list != [] && n <= |list[0].data|
    ensures var w := list[0];
            var l := [w.(sent := w.sent + w.data[..n], data := w.data[n..])] + list[1..];
            w.data[..n] + Supply(l) == Supply(list) && AllDone(l) == AllDone(list) && l[1..] == list[1..]
            && (n == |w.data| ==> Supply(l) == Supply(list[1..]) && AllDone(list) == [Outcome(w.call, w.sent + w.data[..n], 0)] + AllDone(list[1..]))
  {
    var w := list[0];
    var v := w.(sent := w.sent + w.data[..n], data := w.data[n..]);
    var l := [v] + list[1..];
    assert w.data == w.data[..n] + w.data[n..];
    assert w.sent + w.data[..n] + w.data[n..] == w.sent + w.data;
    assert l[1..] == list[1..] && Supply(l) == v.data + Supply(list[1..]) && Supply(list) == w.data + Supply(list[1..]);
    Associative(w.data[..n], w.data[n..], Supply(list[1..]));
  }

  /** Copy from the working set while the reader wants more; the last writer touched may be left with some data. */
  method DrawDirect(working: seq<Writer>, first: seq<Byte>, want: nat) returns (got: seq<Byte>, list: seq<Writer>, woken: seq<Outcome>)
    requires |first| <= want
    ensures |first| <= |got| <= want && (list != [] ==> |got| == want)
    ensures got + Supply(list) == first + Supply(working)
    ensures woken + AllDone(list) == AllDone(working)
  {
    hide Supply, AllDone;
    got, list, woken := first, working, [];
    while list != [] && |got| < want
      invariant |first| <= |got| <= want
      invariant got + Supply(list) == first + Supply(working)
      invariant woken + AllDone(list) == AllDone(working)
      decreases |list|
    {
      var w := list[0];
      var bytes := Xfer(w.data, want - |got|);
      var v := w.(sent := w.sent + bytes, data := w.data[|bytes|..]);
      DrawOne(list, |bytes|);
      got := got + bytes;
      list := [v] + list[1..];
      if |got| == want {
        break;
      }
      woken := woken + [Outcome(v.call, v.sent, 0)];
      list := list[1..];
    }
  }

  lemma Slice(s: seq<Byte>, a: nat, n: nat)
    requires a + n <= |s|
    ensures s[a..][..n] == s[a..a + n]
  {
  }

  datatype Reply = Pended | Returned(ret: int, n: nat)

  /** The working set that Prepare() finds, in terms of the readers. */
  lemma PreparedReaders(rs: seq<Reader>)
    ensures |ReaderNeeds(rs)| == |rs| && forall k :: 0 <= k < |rs| ==> ReaderNeeds(rs)[k] == rs[k].want
    ensures Total(ReaderNeeds(rs)) == Demand(rs)
    ensures forall k :: 0 <= k <= |rs| ==> Total(ReaderNeeds(rs)[..k]) == Demand(rs[..k])
  {
    forall k | 0 <= k <= |rs| ensures Total(ReaderNeeds(rs)[..k]) == Demand(rs[..k]) {
      DemandTotal(rs, k);
    }
    assert ReaderNeeds(rs)[..|rs|] == ReaderNeeds(rs) && rs[..|rs|] == rs;
  }

  /** The state after a put that moved bytes, in terms of what was copied. */
  lemma {:induction false} PutResult(p: State, prio: int, data: seq<Byte>, min: nat, noWait: bool, n: nat, woken: seq<Outcome>)
    requires Shape(p) && min <= |data| && n == Min(|data|, Room(p)) && !(noWait && n < min)
    requires PutFlow(p, 0, data).done == p.done + woken
    ensures var q, f, call := PipeModel.Put(p, prio, data, min, noWait), PutFlow(p, 0, data), |p.requests|;
            && q.ring == f.ring && q.readers == f.readers && q.size == p.size && |q.requests| == call + 1
            && (if Finishes(n, |data|, min, noWait)
                then q.writers == p.writers && q.done == p.done + woken + [Outcome(call, data[..n], ReturnCode(min, n))]
                else q.writers == InsertAt(p.writers, Rank(WriterPrios(p.writers), prio), Writer(call, prio, data[..n], data[n..], min)) && q.done == p.done + woken)
  {
  }

  lemma DemandNone()
    ensures Demand([]) == 0
  {
  }

  /** Serving the first of the working set completely leaves the others to be served from what follows. */
  lemma ServeOne(list: seq<Reader>, readers: seq<Reader>, data: seq<Byte>, n: nat, d: nat)
    requires list != [] && n + Demand(list) <= d <= |data|
    ensures Demand(list) == list[0].want + Demand(list[1..])
    ensures var r := list[0];
            var s, t := Serve(list + readers, data[n..d]), Serve(list[1..] + readers, data[n + r.want..d]);
            s.readers == t.readers && s.done == [Outcome(r.call, r.got + data[n..n + r.want], 0)] + t.done
    ensures data[n..][..Min(|data| - n, list[0].want)] == data[n..n + list[0].want]
  {
    var w := list[0].want;
    assert (list + readers)[1..] == list[1..] + readers;
    assert data[n..d][w..] == data[n + w..d] && data[n..d][..w] == data[n..n + w];
  }

  /** The loop over the working set. */
  method ServeWorking(working: seq<Reader>, ghost rest: seq<Reader>, data: seq<Byte>) returns (n: nat, woken: seq<Outcome>)
    requires Demand(working) <= |data|
    ensures n == Demand(working)
    ensures var d := Min(|data|, Demand(working + rest));
            && n <= d
            && Serve(working + rest, data[..d]).readers == Serve(rest, data[n..d]).readers
            && Serve(working + rest, data[..d]).done == woken + Serve(rest, data[n..d]).done
  {
    hide Serve, Demand;
    var list := working;
    n, woken := 0, [];
    DemandConcat(working, rest);
    ghost var d := Min(|data|, Demand(working + rest));
    ghost var s := Serve(working + rest, data[..d]);
    assert data[0..d] == data[..d];
    while list != []
      invariant 0 <= n <= d && Demand(list) + n == Demand(working) <= d
      invariant s.readers == Serve(list + rest, data[n..d]).readers
      invariant s.done == woken + Serve(list + rest, data[n..d]).done
      decreases |list|
    {
      var r := list[0];
      ServeOne(list, rest, data, n, d);
      var bytes := Xfer(data[n..], r.want);
      woken := woken + [Outcome(r.call, r.got + bytes, 0)];
      n := n + |bytes|;
      list := list[1..];
    }
    DemandNone();
    assert [] + rest == rest;
  }

  /** The reader after the working set takes what is left and stays. */
  lemma ServeLast(readers: seq<Reader>, data: seq<Byte>, n: nat, d: nat)
    requires n <= d <= |data| && d - n == Min(|data| - n, Demand(readers))
    requires readers != [] ==> readers[0].want > |data| - n
    ensures readers == [] ==> d == n
    ensures readers != [] ==> d == |data| && data[n..][..Min(|data| - n, readers[0].want)] == data[n..d]
    ensures var s := Serve(readers, data[n..d]);
            && s.done == []
            && s.readers == if readers == [] then [] else [readers[0].(got := readers[0].got + data[n..d], want := readers[0].want - (d - n))] + readers[1..]
  {
  }

  // ----- The pipe -----

  class Pipe {
    const ring: PipeRing.Ring
    var readers: seq<Reader>
    var writers: seq<Writer>
    var calls: nat

    ghost predicate Holds(p: State)
      reads this, ring, ring.buffer
    {
      && ring.Valid() && p.size == ring.size && p.ring == ring.Contents()
      && p.readers == readers && p.writers == writers && Shape(p)
    }

    /** The pipe stands for the reference state p. */
    ghost predicate Refines(p: State)
      reads this, ring, ring.buffer
    {
      Holds(p) && |p.requests| == calls
    }

    constructor (size: nat)
      ensures Refines(Fresh(size)) && fresh(ring) && fresh(ring.buffer)
    {
      ring := new PipeRing.Ring(size);
      readers, writers, calls := [], [], 0;
    }

    /**
     The direct part of a put: the readers of the working set are served and woken, the next one gets the rest.
     Returns the number of bytes handed over.
     */
    method ServeReaders(working: seq<Reader>, data: seq<Byte>) returns (n: nat, woken: seq<Outcome>)
      requires Demand(working) <= |data|
      requires readers != [] ==> Demand(working) + readers[0].want > |data|
      modifies this`readers
      ensures n == Min(|data|, Demand(working + old(readers)))
      ensures readers == Serve(working + old(readers), data[..n]).readers
      ensures woken == Serve(working + old(readers), data[..n]).done
    {
      n, woken := ServeWorking(working, readers, data);
      DemandConcat(working, readers);
      ghost var d := Min(|data|, Demand(working + readers));
      ServeLast(readers, data, n, d);
      hide Serve, Demand;
      if readers != [] {
        var r := readers[0];
        var bytes := Xfer(data[n..], r.want);
        readers := [r.(got := r.got + bytes, want := r.want - |bytes|)] + readers[1..];
        n := n + |bytes|;
      }
    }

    /** The copying done by a put. */
    method PutTransfer(data: seq<Byte>, k: nat, ghost p: State) returns (n: nat, woken: seq<Outcome>)
      requires Holds(p) && k <= |readers| && Demand(readers[..k]) <= |data|
      requires k < |readers| ==> Demand(readers[..k]) + readers[k].want > |data|
      modifies this`readers, ring, ring.buffer
      ensures ring.Valid() && n == Min(|data|, Room(p))
      ensures var f := PutFlow(p, 0, data); ring.Contents() == f.ring && readers == f.readers && f.done == p.done + woken
    {
      hide Serve, Demand, PipeRing.Used;
      var working := readers[..k];
      assert readers == working + readers[k..];
      readers := readers[k..];
      n, woken := ServeReaders(working, data);
      var m := ring.Put(data[n..]);
      Slice(data, n, m);
      n := n + m;
    }

    /** A put whose working set is known: copy, then return or pend. */
    method PutReady(prio: int, data: seq<Byte>, min: nat, noWait: bool, k: nat, ghost p: State) returns (reply: Reply, woken: seq<Outcome>)
      requires Refines(p) && min <= |data| && !(noWait && Min(|data|, Room(p)) < min)
      requires k <= |readers| && Demand(readers[..k]) <= |data|
      requires k < |readers| ==> Demand(readers[..k]) + readers[k].want > |data|
      modifies this, ring, ring.buffer
      ensures Refines(PipeModel.Put(p, prio, data, min, noWait))
      ensures reply.Returned? ==> reply.n <= |data|
      ensures var n := Min(|data|, Room(p));
              reply == if n == |data| || noWait || 0 < min <= n then Returned(0, n) else Pended
      ensures PipeModel.Put(p, prio, data, min, noWait).done
              == p.done + woken + (if reply.Pended? then [] else [Outcome(old(calls), data[..reply.n], reply.ret)])
    {
      hide Shape, PutFlow, Serve, Demand, PipeRing.Used, Rank, PipeModel.Put, InsertAt;
      PutShape(p, prio, data, min, noWait);
      var n;
      n, woken := PutTransfer(data, k, p);
      PutResult(p, prio, data, min, noWait, n, woken);
      if n == |data| || (!noWait && n >= min && min > 0) {
        reply := Returned(0, n);
      } else if !noWait {
        writers := InsertAt(writers, Rank(WriterPrios(writers), prio), Writer(calls, prio, data[..n], data[n..], min));
        reply := Pended;
      } else {
        reply := Returned(ReturnCode(min, n), n);
      }
      calls := calls + 1;
    }

    /** z_pipe_put_internal(), up to the point where the caller returns or pends. */
    method Put(prio: int, data: seq<Byte>, min: nat, noWait: bool, ghost p: State) returns (reply: Reply, woken: seq<Outcome>)
      requires Refines(p)
      modifies this, ring, ring.buffer
      ensures Refines(PipeModel.Put(p, prio, data, min, noWait))
      ensures reply.Returned? ==> reply.n <= |data|
      ensures var n := Min(|data|, Room(p));
              reply == if min > |data| then Returned(-EINVAL, 0) else if noWait && Room(p) < min then Returned(-EIO, 0)
                       else if n == |data| || noWait || 0 < min <= n then Returned(0, n) else Pended
      ensures PipeModel.Put(p, prio, data, min, noWait).done
              == p.done + woken + (if reply.Pended? then [] else [Outcome(old(calls), data[..reply.n], reply.ret)])
    {
      hide PutFlow, Serve, Demand, PipeRing.Used, Rank, ReaderNeeds, Total;
      woken := [];
      if min > |data| {
        calls := calls + 1;
        return Returned(-EINVAL, 0), [];
      }
      PreparedReaders(readers);
      var ok, k := Prepare(ReaderNeeds(readers), ring.size - ring.bytesUsed, |data|, min, noWait);
      if !ok {
        calls := calls + 1;
        return Returned(-EIO, 0), [];
      }
      reply, woken := PutReady(prio, data, min, noWait, k, p);
    }

    /** What is left of the working set goes into the ring, which has room for all of it. */
    method Refill(working: seq<Writer>) returns (woken: seq<Outcome>)
      requires ring.Valid() && |Supply(working)| <= ring.size - ring.bytesUsed
      modifies ring, ring.buffer
      ensures ring.Valid() && ring.Contents() == old(ring.Contents()) + Supply(working) && woken == AllDone(working)
    {
      hide PipeRing.Used;
      var list := working;
      woken := [];
      while list != []
        invariant ring.Valid() && |Supply(list)| <= ring.size - ring.bytesUsed
        invariant ring.Contents() + Supply(list) == old(ring.Contents()) + Supply(working)
        invariant woken + AllDone(list) == AllDone(working)
        decreases |list|
      {
        var w := list[0];
        var n := ring.Put(w.data);
        assert w.data[..n] == w.data;
        woken := woken + [Outcome(w.call, w.sent + w.data, 0)];
        list := list[1..];
      }
    }

    /** First the ring, then the working set, as long as the reader wants more. */
    method FromRing(working: seq<Writer>, want: nat) returns (got: seq<Byte>, list: seq<Writer>, woken: seq<Outcome>)
      requires ring.Valid() && |Supply(working)| <= want
      modifies ring`bytesUsed, ring`readIndex
      ensures ring.Valid() && |got| <= want && ring.bytesUsed + |Supply(list)| <= old(ring.bytesUsed)
      ensures got + (ring.Contents() + Supply(list)) == old(ring.Contents()) + Supply(working)
      ensures |got| < want ==> ring.Contents() + Supply(list) == []
      ensures woken + AllDone(list) == AllDone(working)
    {
      hide PipeRing.Used, Supply, AllDone;
      ghost var before := ring.Contents();
      var first := ring.Get(want);
      got, list, woken := DrawDirect(working, first, want);
      DrawnDirect(before, working, first, ring.Contents(), got, list, want);
    }

    /** Then the writer behind the working set, what is left of the working set into the ring, and that writer again. */
    method FromLast(first: seq<Byte>, list: seq<Writer>, want: nat) returns (got: seq<Byte>, m: nat, woken: seq<Outcome>)
      requires ring.Valid() && |first| <= want && ring.bytesUsed + |Supply(list)| <= ring.size
      modifies this`writers, ring, ring.buffer
      ensures ring.Valid() && woken == AllDone(list)
      ensures var mid := old(ring.Contents()) + Supply(list);
              if old(writers) == [] then got == first && m == 0 && ring.Contents() == mid && writers == []
              else
                var w := old(writers)[0];
                var c := Min(|w.data|, want - |first|);
                && m == c + Min(|w.data| - c, ring.size - |mid|) && got == first + w.data[..c]
                && ring.Contents() == mid + w.data[c..m]
                && writers == [w.(sent := w.sent + w.data[..m], data := w.data[m..])] + old(writers)[1..]
    {
      hide PipeRing.Used, Supply, AllDone;
      var c := 0;
      got, m := first, 0;
      if writers != [] && |got| < want {
        var bytes := Xfer(writers[0].data, want - |got|);
        c := |bytes|;
        got := got + bytes;
      }
      woken := Refill(list);
      if writers != [] {
        var w := writers[0];
        var n := ring.Put(w.data[c..]);
        m := c + n;
        Slice(w.data, c, n);
        writers := [w.(sent := w.sent + w.data[..m], data := w.data[m..])] + writers[1..];
      }
    }

    /** All five copies of a get, given its working set. */
    method MoveAll(working: seq<Writer>, want: nat) returns (got: seq<Byte>, woken: seq<Outcome>, ghost m: nat, ghost first: seq<Byte>, ghost mid: seq<Byte>)
      requires ring.Valid() && |Supply(working)| <= want
      modifies this`writers, ring, ring.buffer
      ensures ring.Valid() && woken == AllDone(working)
      ensures first + mid == old(ring.Contents()) + Supply(working) && |first| <= want && |mid| <= |old(ring.Contents())| && (|first| < want ==> mid == [])
      ensures Pieces(old(writers), want, ring.size, first, mid, got, ring.Contents(), m)
      ensures writers == if old(writers) == [] then [] else [Drain(old(writers)[0], m)] + old(writers)[1..]
    {
      hide PipeRing.Used, Supply, AllDone;
      var list, direct, n, more;
      direct, list, woken := FromRing(working, want);
      first, mid := direct, ring.Contents() + Supply(list);
      got, n, more := FromLast(direct, list, want);
      m := n;
      woken := woken + more;
    }

    /** The copying done by a get. */
    method GetTransfer(want: nat, k: nat, ghost p: State) returns (got: seq<Byte>, woken: seq<Outcome>)
      requires Holds(p) && k <= |writers| && |Supply(writers[..k])| <= want
      requires k < |writers| ==> |Supply(writers[..k])| + |writers[k].data| > want
      modifies this`writers, ring, ring.buffer
      ensures ring.Valid() && got == Stream(p)[..Min(want, |Stream(p)|)]
      ensures var f := GetFlow(p, 0, want); ring.Contents() == f.ring && writers == f.writers && f.done == p.done + woken
    {
      hide PipeRing.Used, Supply, Consume, AllDone, GetFlow, Stream, Shape, Pieces;
      ghost var rest := writers[k..];
      var working := writers[..k];
      assert writers == working + rest;
      writers := writers[k..];
      ghost var m, first, mid;
      got, woken, m, first, mid := MoveAll(working, want);
      GetPieces(p, working, rest, want, first, mid, got, ring.Contents(), m);
    }

    /** A get whose working set is known: copy, then return or pend. */
    method GetReady(prio: int, want: nat, min: nat, noWait: bool, k: nat, ghost p: State) returns (reply: Reply, got: seq<Byte>, woken: seq<Outcome>)
      requires Refines(p) && min <= want && !(noWait && Min(want, |Stream(p)|) < min)
      requires k <= |writers| && |Supply(writers[..k])| <= want
      requires k < |writers| ==> |Supply(writers[..k])| + |writers[k].data| > want
      modifies this, ring, ring.buffer
      ensures Refines(PipeModel.Get(p, prio, want, min, noWait))
      ensures reply.Returned? ==> reply.n == |got|
      ensures var n := Min(want, |Stream(p)|);
              reply == if n == want || noWait || 0 < min <= n then Returned(0, n) else Pended
      ensures PipeModel.Get(p, prio, want, min, noWait).done
              == p.done + woken + (if reply.Pended? then [] else [Outcome(old(calls), got, reply.ret)])
    {
      hide GetFlow, Stream, Supply, Consume, PipeRing.Used, Rank, Shape, PipeModel.Get, InsertAt;
      GetShape(p, prio, want, min, noWait);
      got, woken := GetTransfer(want, k, p);
      GetResult(p, prio, want, min, noWait, got, woken);
      var n := |got|;
      if n == want || (!noWait && n >= min && min > 0) {
        reply := Returned(0, n);
      } else if !noWait {
        readers := InsertAt(readers, Rank(ReaderPrios(readers), prio), Reader(calls, prio, got, want - n, min));
        reply := Pended;
      } else {
        reply := Returned(ReturnCode(min, n), n);
      }
      calls := calls + 1;
    }

    /** z_impl_k_pipe_get(), up to the point where the caller returns or pends. */
    method Get(prio: int, want: nat, min: nat, noWait: bool, ghost p: State) returns (reply: Reply, got: seq<Byte>, woken: seq<Outcome>)
      requires Refines(p)
      modifies this, ring, ring.buffer
      ensures Refines(PipeModel.Get(p, prio, want, min, noWait))
      ensures reply.Returned? ==> reply.n == |got|
      ensures var n := Min(want, |Stream(p)|);
              reply == if min > want then Returned(-EINVAL, 0) else if noWait && |Stream(p)| < min then Returned(-EIO, 0)
                       else if n == want || noWait || 0 < min <= n then Returned(0, n) else Pended
      ensures PipeModel.Get(p, prio, want, min, noWait).done
              == p.done + woken + (if reply.Pended? then [] else [Outcome(old(calls), got, reply.ret)])
    {
      hide GetFlow, Consume, Supply, PipeRing.Used, Rank, WriterNeeds, Total;
      got, woken := [], [];
      if min > want {
        calls := calls + 1;
        return Returned(-EINVAL, 0), [], [];
      }
      PreparedWriters(writers);
      var ok, k := Prepare(WriterNeeds(writers), ring.bytesUsed, want, min, noWait);
      if !ok {
        calls := calls + 1;
        return Returned(-EIO, 0), [], [];
      }
      reply, got, woken := GetReady(prio, want, min, noWait, k, p);
    }

    /** A waiting reader times out: it leaves with what it has got, its return value computed when it runs again. */
    method ReaderExpires(i: nat, ghost p: State) returns (ret: int, got: seq<Byte>)
      requires Refines(p) && i < |readers|
      modifies this`readers
      ensures Refines(ExpireReader(p, i))
      ensures ExpireReader(p, i).done == p.done + [Outcome(old(readers)[i].call, got, ret)]
    {
      var r := readers[i];
      got := r.got;
      ret := ReturnCode(r.min, |r.got|);
      readers := RemoveAt(readers, i);
    }

    method WriterExpires(i: nat, ghost p: State) returns (ret: int, n: nat)
      requires Refines(p) && i < |writers|
      modifies this`writers
      ensures Refines(ExpireWriter(p, i))
      ensures ExpireWriter(p, i).done == p.done + [Outcome(old(writers)[i].call, old(writers)[i].sent, ret)] && n == |old(writers)[i].sent|
    {
      var w := writers[i];
      n := |w.sent|;
      ret := ReturnCode(w.min, n);
      writers := RemoveAt(writers, i);
    }
  }
}
