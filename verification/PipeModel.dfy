/**
 What a pipe (kernel/pipes.c) does, said in terms of one stream of bytes: the ring buffer followed by the data of the
 waiting writers.  Every call is logged with the bytes that it moved.
 */
module PipeModel {
  import opened Lists

  type Byte = b: int | 0 <= b < 256

  const EIO := 5
  const EAGAIN := 11
  const EINVAL := 22

  /** Some bytes moved on behalf of a call. */
  datatype Chunk = Chunk(call: nat, bytes: seq<Byte>)

  datatype Request = PutRequest(data: seq<Byte>, min: nat, noWait: bool) | GetRequest(size: nat, min: nat, noWait: bool)

  /** How a call ended. */
  datatype Outcome = Outcome(call: nat, bytes: seq<Byte>, ret: int)

  /** A pended reader: what it has got so far and how much it still wants. */
  datatype Reader = Reader(call: nat, prio: int, got: seq<Byte>, want: nat, min: nat)

  /** A pended writer: what has been taken from it and what is still to be taken. */
  datatype Writer = Writer(call: nat, prio: int, sent: seq<Byte>, data: seq<Byte>, min: nat)

  datatype State = State(
    size: nat,
    ring: seq<Byte>,
    readers: seq<Reader>,
    writers: seq<Writer>,
    requests: seq<Request>,
    taken: seq<Chunk>,
    delivered: seq<Chunk>,
    done: seq<Outcome>)

  function Min(a: int, b: int): int { if a < b then a else b }

  function Demand(rs: seq<Reader>): nat { if rs == [] then 0 else rs[0].want + Demand(rs[1..]) }

  function Supply(ws: seq<Writer>): seq<Byte> { if ws == [] then [] else ws[0].data + Supply(ws[1..]) }

  /** Readers waiting: the ring is empty; writers waiting: it is full; never both; and every waiter still lacks something. */
  ghost predicate Shape(p: State) {
    && |p.ring| <= p.size
    && (p.readers != [] ==> p.ring == [] && p.writers == [])
    && (p.writers != [] ==> |p.ring| == p.size)
    && (forall i :: 0 <= i < |p.readers| ==> p.readers[i].want > 0)
    && (forall i :: 0 <= i < |p.writers| ==> p.writers[i].data != [])
  }

  // ----- Moving bytes -----

  datatype Served = Served(readers: seq<Reader>, log: seq<Chunk>, done: seq<Outcome>)

  /** Hand `bytes` to the waiting readers in turn. */
  function Serve(rs: seq<Reader>, bytes: seq<Byte>): Served
    decreases |rs|
  {
    if rs == [] then Served([], [], [])
    else if |bytes| < rs[0].want then
      Served([rs[0].(got := rs[0].got + bytes, want := rs[0].want - |bytes|)] + rs[1..], [Chunk(rs[0].call, bytes)], [])
    else
      var now, s := bytes[..rs[0].want], Serve(rs[1..], bytes[rs[0].want..]);
      Served(s.readers, [Chunk(rs[0].call, now)] + s.log, [Outcome(rs[0].call, rs[0].got + now, 0)] + s.done)
  }

  datatype Consumed = Consumed(writers: seq<Writer>, log: seq<Chunk>, done: seq<Outcome>)

  /** Take n bytes from the waiting writers in turn. */
  function Consume(ws: seq<Writer>, n: nat): Consumed
    requires n <= |Supply(ws)|
    decreases |ws|
  {
    if ws == [] then Consumed([], [], [])
    else if n < |ws[0].data| then
      Consumed([ws[0].(sent := ws[0].sent + ws[0].data[..n], data := ws[0].data[n..])] + ws[1..], [Chunk(ws[0].call, ws[0].data[..n])], [])
    else
      var c := Consume(ws[1..], n - |ws[0].data|);
      Consumed(c.writers, [Chunk(ws[0].call, ws[0].data)] + c.log, [Outcome(ws[0].call, ws[0].sent + ws[0].data, 0)] + c.done)
  }

  /** How much of `data` a put can place at once. */
  function Room(p: State): nat
    requires |p.ring| <= p.size
  {
    Demand(p.readers) + (p.size - |p.ring|)
  }

  function PutFlow(p: State, call: nat, data: seq<Byte>): State
    requires |p.ring| <= p.size
  {
    var d, n := Min(|data|, Demand(p.readers)), Min(|data|, Room(p));
    var s := Serve(p.readers, data[..d]);
    p.(ring := p.ring + data[d..n], readers := s.readers,
       taken := p.taken + [Chunk(call, data[..n])], delivered := p.delivered + s.log, done := p.done + s.done)
  }

  function Stream(p: State): seq<Byte> { p.ring + Supply(p.writers) }

  /** How much a get takes out of the waiting writers: what lets the ring be as full afterwards as it can be. */
  function Drawn(p: State, k: nat): (a: nat)
    requires Shape(p) && k <= |Stream(p)|
    ensures a <= |Supply(p.writers)|
  {
    if p.writers == [] then 0 else k + Min(p.size, |Stream(p)| - k) - |p.ring|
  }

  function GetFlow(p: State, call: nat, want: nat): State
    requires Shape(p)
  {
    var k := Min(want, |Stream(p)|);
    var a := Drawn(p, k);
    var c := Consume(p.writers, a);
    p.(ring := (p.ring + Supply(p.writers)[..a])[k..], writers := c.writers,
       taken := p.taken + c.log, delivered := p.delivered + [Chunk(call, Stream(p)[..k])], done := p.done + c.done)
  }

  // ----- Calls -----

  function ReturnCode(min: nat, n: nat): int { if n >= min then 0 else -EAGAIN }

  predicate Finishes(n: nat, requested: nat, min: nat, noWait: bool) {
    n == requested || noWait || (n >= min && min > 0)
  }

  function ReaderPrios(rs: seq<Reader>): (r: seq<int>)
    ensures |r| == |rs| && forall i :: 0 <= i < |rs| ==> r[i] == rs[i].prio
  {
    seq(|rs|, i requires 0 <= i < |rs| => rs[i].prio)
  }

  function WriterPrios(ws: seq<Writer>): (r: seq<int>)
    ensures |r| == |ws| && forall i :: 0 <= i < |ws| ==> r[i] == ws[i].prio
  {
    seq(|ws|, i requires 0 <= i < |ws| => ws[i].prio)
  }

  function AwaitReader(p: State, r: Reader): State {
    p.(readers := InsertAt(p.readers, Rank(ReaderPrios(p.readers), r.prio), r))
  }

  function AwaitWriter(p: State, w: Writer): State {
    p.(writers := InsertAt(p.writers, Rank(WriterPrios(p.writers), w.prio), w))
  }

  function Finish(p: State, call: nat, bytes: seq<Byte>, ret: int): State {
    p.(done := p.done + [Outcome(call, bytes, ret)])
  }

  /** k_pipe_put(), up to the point where the caller returns or pends. */
  function Put(p: State, prio: int, data: seq<Byte>, min: nat, noWait: bool): State
    requires Shape(p)
  {
    var call, q := |p.requests|, p.(requests := p.requests + [PutRequest(data, min, noWait)]);
    var n := Min(|data|, Room(p));
    if min > |data| then Finish(q, call, [], -EINVAL)
    else if noWait && n < min then Finish(q, call, [], -EIO)
    else
      var f := PutFlow(q, call, data);
      if Finishes(n, |data|, min, noWait) then Finish(f, call, data[..n], ReturnCode(min, n))
      else AwaitWriter(f, Writer(call, prio, data[..n], data[n..], min))
  }

  /** k_pipe_get(), up to the point where the caller returns or pends. */
  function Get(p: State, prio: int, want: nat, min: nat, noWait: bool): State
    requires Shape(p)
  {
    var call, q := |p.requests|, p.(requests := p.requests + [GetRequest(want, min, noWait)]);
    var n := Min(want, |Stream(p)|);
    if min > want then Finish(q, call, [], -EINVAL)
    else if noWait && n < min then Finish(q, call, [], -EIO)
    else
      var f := GetFlow(q, call, want);
      var got := Stream(p)[..n];
      if Finishes(n, want, min, noWait) then Finish(f, call, got, ReturnCode(min, n))
      else AwaitReader(f, Reader(call, prio, got, want - n, min))
  }

  /** The timeout of a waiter: it leaves its wait queue with what it has. */
  function ExpireReader(p: State, i: nat): State
    requires i < |p.readers|
  {
    var r := p.readers[i];
    Finish(p, r.call, r.got, ReturnCode(r.min, |r.got|)).(readers := RemoveAt(p.readers, i))
  }

  function ExpireWriter(p: State, i: nat): State
    requires i < |p.writers|
  {
    var w := p.writers[i];
    Finish(p, w.call, w.sent, ReturnCode(w.min, |w.sent|)).(writers := RemoveAt(p.writers, i))
  }

  datatype Step = PutStep(prio: int, data: seq<Byte>, min: nat, noWait: bool)
                | GetStep(prio: int, want: nat, min: nat, noWait: bool)
                | ReaderTimeout(i: nat)
                | WriterTimeout(i: nat)

  /** A timeout of a waiter that is not there does nothing. */
  ghost function Next(p: State, s: Step): State
    requires Shape(p)
  {
    match s
    case PutStep(prio, data, min, noWait) => Put(p, prio, data, min, noWait)
    case GetStep(prio, want, min, noWait) => Get(p, prio, want, min, noWait)
    case ReaderTimeout(i) => if i < |p.readers| then ExpireReader(p, i) else p
    case WriterTimeout(i) => if i < |p.writers| then ExpireWriter(p, i) else p
  }

  function Fresh(size: nat): State { State(size, [], [], [], [], [], [], []) }

  // ----- The waiter invariant -----

  lemma {:induction false} ServeShape(rs: seq<Reader>, bytes: seq<Byte>)
    requires |bytes| <= Demand(rs)
    requires forall i :: 0 <= i < |rs| ==> rs[i].want > 0
    ensures var s := Serve(rs, bytes);
            && Demand(s.readers) == Demand(rs) - |bytes|
            && (forall i :: 0 <= i < |s.readers| ==> s.readers[i].want > 0)
            && (|bytes| == Demand(rs) ==> s.readers == [])
    decreases |rs|
  {
    if rs != [] && |bytes| >= rs[0].want {
      ServeShape(rs[1..], bytes[rs[0].want..]);
    } else if rs != [] {
      assert Serve(rs, bytes).readers[1..] == rs[1..];
    }
  }

  lemma {:induction false} ConsumeShape(ws: seq<Writer>, n: nat)
    requires n <= |Supply(ws)|
    requires forall i :: 0 <= i < |ws| ==> ws[i].data != []
    ensures var c := Consume(ws, n);
            && Supply(c.writers) == Supply(ws)[n..]
            && (forall i :: 0 <= i < |c.writers| ==> c.writers[i].data != [])
            && (n == |Supply(ws)| ==> c.writers == [])
    decreases |ws|
  {
    if ws != [] && n >= |ws[0].data| {
      ConsumeShape(ws[1..], n - |ws[0].data|);
      assert Supply(ws)[n..] == Supply(ws[1..])[n - |ws[0].data|..];
    } else if ws != [] {
      assert Consume(ws, n).writers[1..] == ws[1..];
      assert Supply(ws)[n..] == ws[0].data[n..] + Supply(ws[1..]);
    }
  }

  lemma {:induction false} PutFlowShape(p: State, call: nat, data: seq<Byte>)
    requires Shape(p)
    ensures Shape(PutFlow(p, call, data))
    ensures var n := Min(|data|, Room(p));
            n < |data| ==> PutFlow(p, call, data).readers == [] && |PutFlow(p, call, data).ring| == p.size
  {
    ServeShape(p.readers, data[..Min(|data|, Demand(p.readers))]);
  }

  /** After a get either nobody is left writing or the ring is full again. */
  lemma {:induction false} GetFlowShape(p: State, call: nat, want: nat)
    requires Shape(p)
    ensures Shape(GetFlow(p, call, want))
    ensures |Stream(p)| < want ==> GetFlow(p, call, want).writers == [] && GetFlow(p, call, want).ring == []
    ensures Stream(GetFlow(p, call, want)) == Stream(p)[Min(want, |Stream(p)|)..]
  {
    var k := Min(want, |Stream(p)|);
    var a := Drawn(p, k);
    ConsumeShape(p.writers, a);
    var s := Supply(p.writers);
    hide Consume, Supply;
    assert s == s[..a] + s[a..];
    assert Stream(p)[k..] == (p.ring + s[..a])[k..] + s[a..];
  }

  lemma AwaitReaderShape(p: State, r: Reader)
    requires Shape(p) && r.want > 0 && p.ring == [] && p.writers == []
    ensures Shape(AwaitReader(p, r))
  {
  }

  lemma AwaitWriterShape(p: State, w: Writer)
    requires Shape(p) && w.data != [] && |p.ring| == p.size && p.readers == []
    ensures Shape(AwaitWriter(p, w))
  {
  }

  lemma PutShape(p: State, prio: int, data: seq<Byte>, min: nat, noWait: bool)
    requires Shape(p)
    ensures Shape(Put(p, prio, data, min, noWait))
  {
    var call, q := |p.requests|, p.(requests := p.requests + [PutRequest(data, min, noWait)]);
    var n := Min(|data|, Room(p));
    PutFlowShape(q, call, data);
    if min <= |data| && !(noWait && n < min) && !Finishes(n, |data|, min, noWait) {
      AwaitWriterShape(PutFlow(q, call, data), Writer(call, prio, data[..n], data[n..], min));
    }
    hide PutFlow, AwaitWriter;
  }

  lemma GetShape(p: State, prio: int, want: nat, min: nat, noWait: bool)
    requires Shape(p)
    ensures Shape(Get(p, prio, want, min, noWait))
  {
    var call, q := |p.requests|, p.(requests := p.requests + [GetRequest(want, min, noWait)]);
    var n := Min(want, |Stream(p)|);
    assert Stream(q) == Stream(p);
    GetFlowShape(q, call, want);
    hide GetFlow, AwaitReader, Stream;
    if min <= want && !(noWait && n < min) && !Finishes(n, want, min, noWait) {
      AwaitReaderShape(GetFlow(q, call, want), Reader(call, prio, Stream(p)[..n], want - n, min));
    }
  }

  lemma {:induction false} NextShape(p: State, s: Step)
    requires Shape(p)
    ensures Shape(Next(p, s))
  {
    hide Put, Get;
    match s
    case PutStep(prio, data, min, noWait) => PutShape(p, prio, data, min, noWait);
    case GetStep(prio, want, min, noWait) => GetShape(p, prio, want, min, noWait);
    case ReaderTimeout(i) =>
    case WriterTimeout(i) =>
  }

  ghost function Run(p: State, ss: seq<Step>): State
    requires Shape(p)
    decreases |ss|
  {
    if ss == [] then p else
      NextShape(p, ss[0]);
      Run(Next(p, ss[0]), ss[1..])
  }
}
