/** A pipe is one first-in-first-out stream of bytes, over every run of puts, gets and timeouts. */
module PipeRuns {
  import opened Lists
  import opened PipeModel

  /** All bytes of a log, in order. */
  function Bytes(log: seq<Chunk>): seq<Byte> {
    if log == [] then [] else Bytes(log[..|log| - 1]) + log[|log| - 1].bytes
  }

  /** The bytes of a log that belong to one call. */
  function Of(log: seq<Chunk>, call: nat): seq<Byte> {
    if log == [] then [] else
      Of(log[..|log| - 1], call) + (if log[|log| - 1].call == call then log[|log| - 1].bytes else [])
  }

  lemma {:induction false} BytesConcat(a: seq<Chunk>, b: seq<Chunk>)
    ensures Bytes(a + b) == Bytes(a) + Bytes(b)
  {
    if b == [] {
      assert a + b == a;
    } else {
      assert (a + b)[..|a + b| - 1] == a + b[..|b| - 1];
      BytesConcat(a, b[..|b| - 1]);
    }
  }

  lemma {:induction false} OfConcat(a: seq<Chunk>, b: seq<Chunk>, call: nat)
    ensures Of(a + b, call) == Of(a, call) + Of(b, call)
  {
    if b == [] {
      assert a + b == a;
    } else {
      assert (a + b)[..|a + b| - 1] == a + b[..|b| - 1];
      OfConcat(a, b[..|b| - 1], call);
    }
  }

  lemma OneChunk(c: Chunk, call: nat)
    ensures Bytes([c]) == c.bytes && Of([c], call) == if c.call == call then c.bytes else []
  {
  }

  // ----- One stream -----

  /** What was taken from the writers is what was delivered to the readers followed by what is in the ring. */
  ghost predicate Conserves(p: State) { Bytes(p.taken) == Bytes(p.delivered) + p.ring }

  lemma {:induction false} ServeBytes(rs: seq<Reader>, bytes: seq<Byte>)
    requires |bytes| <= Demand(rs)
    ensures Bytes(Serve(rs, bytes).log) == bytes
    decreases |rs|
  {
    if rs != [] && |bytes| < rs[0].want {
      OneChunk(Chunk(rs[0].call, bytes), 0);
    } else if rs != [] {
      var w := rs[0].want;
      ServeBytes(rs[1..], bytes[w..]);
      OneChunk(Chunk(rs[0].call, bytes[..w]), 0);
      BytesConcat([Chunk(rs[0].call, bytes[..w])], Serve(rs[1..], bytes[w..]).log);
    }
  }

  lemma {:induction false} ConsumeBytes(ws: seq<Writer>, n: nat)
    requires n <= |Supply(ws)|
    ensures Bytes(Consume(ws, n).log) == Supply(ws)[..n]
    decreases |ws|
  {
    if ws != [] && n < |ws[0].data| {
      OneChunk(Chunk(ws[0].call, ws[0].data[..n]), 0);
      assert Supply(ws)[..n] == ws[0].data[..n];
    } else if ws != [] {
      var m := |ws[0].data|;
      ConsumeBytes(ws[1..], n - m);
      OneChunk(Chunk(ws[0].call, ws[0].data), 0);
      BytesConcat([Chunk(ws[0].call, ws[0].data)], Consume(ws[1..], n - m).log);
      assert Supply(ws)[..n] == ws[0].data + Supply(ws[1..])[..n - m];
    }
  }

  lemma PutSplit(t: seq<Byte>, del: seq<Byte>, ring: seq<Byte>, data: seq<Byte>, d: nat, n: nat)
    requires t == del + ring && d <= n <= |data| && (d > 0 ==> ring == [])
    ensures t + data[..n] == del + data[..d] + (ring + data[d..n])
  {
  }

  lemma GetSplit(t: seq<Byte>, del: seq<Byte>, ring: seq<Byte>, s: seq<Byte>, a: nat, k: nat)
    requires t == del + ring && a <= |s| && k <= |ring| + a
    ensures t + s[..a] == del + (ring + s)[..k] + (ring + s[..a])[k..]
  {
  }

  lemma {:induction false} PutFlowConserves(p: State, call: nat, data: seq<Byte>)
    requires Shape(p) && Conserves(p)
    ensures Conserves(PutFlow(p, call, data))
  {
    var d, n := Min(|data|, Demand(p.readers)), Min(|data|, Room(p));
    var log := Serve(p.readers, data[..d]).log;
    ServeBytes(p.readers, data[..d]);
    BytesConcat(p.delivered, log);
    OneChunk(Chunk(call, data[..n]), 0);
    BytesConcat(p.taken, [Chunk(call, data[..n])]);
    PutSplit(Bytes(p.taken), Bytes(p.delivered), p.ring, data, d, n);
  }

  lemma {:induction false} GetFlowConserves(p: State, call: nat, want: nat)
    requires Shape(p) && Conserves(p)
    ensures Conserves(GetFlow(p, call, want))
  {
    var k := Min(want, |Stream(p)|);
    var a := Drawn(p, k);
    var s, log := Supply(p.writers), Consume(p.writers, a).log;
    ConsumeBytes(p.writers, a);
    BytesConcat(p.taken, log);
    OneChunk(Chunk(call, Stream(p)[..k]), 0);
    BytesConcat(p.delivered, [Chunk(call, Stream(p)[..k])]);
    GetSplit(Bytes(p.taken), Bytes(p.delivered), p.ring, s, a, k);
  }

  lemma {:induction false} NextConserves(p: State, s: Step)
    requires Shape(p) && Conserves(p)
    ensures Conserves(Next(p, s))
  {
    hide PutFlow, GetFlow, Bytes;
    match s
    case PutStep(prio, data, min, noWait) =>
      PutFlowConserves(p.(requests := p.requests + [PutRequest(data, min, noWait)]), |p.requests|, data);
    case GetStep(prio, want, min, noWait) =>
      GetFlowConserves(p.(requests := p.requests + [GetRequest(want, min, noWait)]), |p.requests|, want);
    case ReaderTimeout(i) =>
    case WriterTimeout(i) =>
  }

  // ----- Every call gets what the log says it got -----

  function ReaderCalls(rs: seq<Reader>): seq<nat> { seq(|rs|, i requires 0 <= i < |rs| => rs[i].call) }

  function WriterCalls(ws: seq<Writer>): seq<nat> { seq(|ws|, i requires 0 <= i < |ws| => ws[i].call) }

  function DoneCalls(os: seq<Outcome>): seq<nat> { seq(|os|, i requires 0 <= i < |os| => os[i].call) }

  function Range(n: nat): seq<nat> { if n == 0 then [] else Range(n - 1) + [n - 1] }

  ghost function Calls(p: State): seq<nat> { DoneCalls(p.done) + ReaderCalls(p.readers) + WriterCalls(p.writers) }

  /** A finished call moved a prefix of what it asked for, and its return value says whether that was enough. */
  ghost predicate Settled(q: Request, o: Outcome) {
    var size := if q.PutRequest? then |q.data| else q.size;
    && (q.PutRequest? ==> o.bytes <= q.data) && |o.bytes| <= size
    && (if q.min > size then o.ret == -EINVAL && o.bytes == []
        else if q.noWait then (o.ret == 0 && |o.bytes| >= q.min) || (o.ret == -EIO && o.bytes == [])
        else o.ret == if |o.bytes| >= q.min then 0 else -EAGAIN)
  }

  ghost predicate ReaderOk(qs: seq<Request>, taken: seq<Chunk>, delivered: seq<Chunk>, r: Reader) {
    && r.call < |qs| && qs[r.call] == GetRequest(|r.got| + r.want, r.min, false) && r.min <= |r.got| + r.want
    && Of(taken, r.call) == [] && Of(delivered, r.call) == r.got
  }

  ghost predicate WriterOk(qs: seq<Request>, taken: seq<Chunk>, delivered: seq<Chunk>, w: Writer) {
    && w.call < |qs| && qs[w.call] == PutRequest(w.sent + w.data, w.min, false) && w.min <= |w.sent| + |w.data|
    && Of(taken, w.call) == w.sent && Of(delivered, w.call) == []
  }

  ghost predicate DoneOk(qs: seq<Request>, taken: seq<Chunk>, delivered: seq<Chunk>, o: Outcome) {
    && o.call < |qs| && Settled(qs[o.call], o)
    && Of(taken, o.call) == (if qs[o.call].PutRequest? then o.bytes else [])
    && Of(delivered, o.call) == (if qs[o.call].PutRequest? then [] else o.bytes)
  }

  ghost predicate ReadersOk(qs: seq<Request>, taken: seq<Chunk>, delivered: seq<Chunk>, rs: seq<Reader>) {
    forall i :: 0 <= i < |rs| ==> ReaderOk(qs, taken, delivered, rs[i])
  }

  ghost predicate WritersOk(qs: seq<Request>, taken: seq<Chunk>, delivered: seq<Chunk>, ws: seq<Writer>) {
    forall i :: 0 <= i < |ws| ==> WriterOk(qs, taken, delivered, ws[i])
  }

  ghost predicate DonesOk(qs: seq<Request>, taken: seq<Chunk>, delivered: seq<Chunk>, os: seq<Outcome>) {
    forall i :: 0 <= i < |os| ==> DoneOk(qs, taken, delivered, os[i])
  }

  ghost predicate NoFuture(n: nat, log: seq<Chunk>) { forall call :: call >= n ==> Of(log, call) == [] }

  ghost predicate AllOk(p: State) {
    && ReadersOk(p.requests, p.taken, p.delivered, p.readers)
    && WritersOk(p.requests, p.taken, p.delivered, p.writers)
    && DonesOk(p.requests, p.taken, p.delivered, p.done)
    && NoFuture(|p.requests|, p.taken) && NoFuture(|p.requests|, p.delivered)
  }

  /**
   Every call made so far is exactly one of finished, waiting to read and waiting to write; and what it holds, or
   ended with, is exactly what the logs say was moved for it.
   */
  ghost predicate Tracks(p: State) { multiset(Calls(p)) == multiset(Range(|p.requests|)) && AllOk(p) }

  /** The same while one call is being carried out, which has moved `sent` or `got` so far. */
  ghost predicate InFlight(p: State, call: nat, sent: seq<Byte>, got: seq<Byte>) {
    && multiset(Calls(p) + [call]) == multiset(Range(|p.requests|)) && AllOk(p)
    && Of(p.taken, call) == sent && Of(p.delivered, call) == got
  }

  lemma {:induction false} RangeOnce(n: nat, x: nat)
    ensures multiset(Range(n))[x] == if x < n then 1 else 0
  {
    if n > 0 {
      RangeOnce(n - 1, x);
    }
  }

  lemma {:induction false} RosterAllDifferent(s: seq<nat>, n: nat)
    requires multiset(s) == multiset(Range(n))
    ensures AllDifferent(s) && forall i :: 0 <= i < |s| ==> s[i] < n
  {
    forall i | 0 <= i < |s| ensures s[i] < n {
      RangeOnce(n, s[i]);
      assert s[i] in multiset(s);
    }
    forall i, j | 0 <= i < j < |s| ensures s[i] != s[j] {
      RangeOnce(n, s[i]);
      assert s == s[..j] + [s[j]] + s[j + 1..];
      assert s[i] == s[..j][i] && s[i] in multiset(s[..j]);
    }
  }

  // ----- Serving the readers -----

  lemma AllDifferentTail(x: nat, s: seq<nat>)
    ensures AllDifferent([x] + s) ==> AllDifferent(s) && x !in s
  {
    var t := [x] + s;
    if AllDifferent(t) {
      forall i | 0 <= i < |s| ensures s[i] != x {
        assert t[0] != t[i + 1];
      }
      forall i, j | 0 <= i < j < |s| ensures s[i] != s[j] {
        assert t[i + 1] != t[j + 1];
      }
    }
  }

  lemma ReaderCallsTail(rs: seq<Reader>)
    requires rs != []
    ensures ReaderCalls(rs) == [rs[0].call] + ReaderCalls(rs[1..])
    ensures AllDifferent(ReaderCalls(rs)) ==> AllDifferent(ReaderCalls(rs[1..])) && rs[0].call !in ReaderCalls(rs[1..])
  {
    assert ReaderCalls(rs) == [rs[0].call] + ReaderCalls(rs[1..]);
    AllDifferentTail(rs[0].call, ReaderCalls(rs[1..]));
  }

  lemma WriterCallsTail(ws: seq<Writer>)
    requires ws != []
    ensures WriterCalls(ws) == [ws[0].call] + WriterCalls(ws[1..])
    ensures AllDifferent(WriterCalls(ws)) ==> AllDifferent(WriterCalls(ws[1..])) && ws[0].call !in WriterCalls(ws[1..])
  {
    assert WriterCalls(ws) == [ws[0].call] + WriterCalls(ws[1..]);
    AllDifferentTail(ws[0].call, WriterCalls(ws[1..]));
  }

  /** Serving finishes the readers at the front, in order. */
  lemma {:induction false} ServeCalls(rs: seq<Reader>, bytes: seq<Byte>)
    ensures DoneCalls(Serve(rs, bytes).done) + ReaderCalls(Serve(rs, bytes).readers) == ReaderCalls(rs)
    decreases |rs|
  {
    if rs != [] && |bytes| >= rs[0].want {
      ServeCalls(rs[1..], bytes[rs[0].want..]);
      ReaderCallsTail(rs);
      assert DoneCalls(Serve(rs, bytes).done) == [rs[0].call] + DoneCalls(Serve(rs[1..], bytes[rs[0].want..]).done);
    }
  }

  /** Nobody else appears in its log. */
  lemma {:induction false} ServeLog(rs: seq<Reader>, bytes: seq<Byte>, call: nat)
    requires call !in ReaderCalls(rs)
    ensures Of(Serve(rs, bytes).log, call) == []
    decreases |rs|
  {
    if rs != [] {
      ReaderCallsTail(rs);
      if |bytes| < rs[0].want {
        OneChunk(Chunk(rs[0].call, bytes), call);
      } else {
        var c, rest := Chunk(rs[0].call, bytes[..rs[0].want]), bytes[rs[0].want..];
        ServeLog(rs[1..], rest, call);
        OneChunk(c, call);
        OfConcat([c], Serve(rs[1..], rest).log, call);
      }
    }
  }

  /** A chunk for one call leaves the others as they were. */
  lemma AppendOther(log: seq<Chunk>, c: Chunk, call: nat)
    requires c.call != call
    ensures Of(log + [c], call) == Of(log, call)
  {
  }

  lemma AppendOwn(log: seq<Chunk>, c: Chunk)
    ensures Of(log + [c], c.call) == Of(log, c.call) + c.bytes
  {
  }

  lemma ReadersOther(qs: seq<Request>, taken: seq<Chunk>, delivered: seq<Chunk>, rs: seq<Reader>, c: Chunk)
    requires ReadersOk(qs, taken, delivered, rs) && c.call !in ReaderCalls(rs)
    ensures ReadersOk(qs, taken, delivered + [c], rs) && ReadersOk(qs, taken + [c], delivered, rs)
  {
    forall i | 0 <= i < |rs|
      ensures ReaderOk(qs, taken, delivered + [c], rs[i]) && ReaderOk(qs, taken + [c], delivered, rs[i])
    {
      assert ReaderCalls(rs)[i] == rs[i].call;
      AppendOther(delivered, c, rs[i].call);
      AppendOther(taken, c, rs[i].call);
    }
  }

  lemma WritersOther(qs: seq<Request>, taken: seq<Chunk>, delivered: seq<Chunk>, ws: seq<Writer>, c: Chunk)
    requires WritersOk(qs, taken, delivered, ws) && c.call !in WriterCalls(ws)
    ensures WritersOk(qs, taken, delivered + [c], ws) && WritersOk(qs, taken + [c], delivered, ws)
  {
    forall i | 0 <= i < |ws|
      ensures WriterOk(qs, taken, delivered + [c], ws[i]) && WriterOk(qs, taken + [c], delivered, ws[i])
    {
      assert WriterCalls(ws)[i] == ws[i].call;
      AppendOther(delivered, c, ws[i].call);
      AppendOther(taken, c, ws[i].call);
    }
  }

  /** A reader that has got everything it asked for is settled, whatever is logged for others afterwards. */
  lemma ReaderFilled(qs: seq<Request>, taken: seq<Chunk>, delivered: seq<Chunk>, r: Reader, bytes: seq<Byte>, log: seq<Chunk>)
    requires ReadersOk(qs, taken, delivered, [r]) && |bytes| == r.want && Of(log, r.call) == []
    ensures DonesOk(qs, taken, delivered + [Chunk(r.call, bytes)] + log, [Outcome(r.call, r.got + bytes, 0)])
  {
    assert ReaderOk(qs, taken, delivered, [r][0]);
    AppendOwn(delivered, Chunk(r.call, bytes));
    OfConcat(delivered + [Chunk(r.call, bytes)], log, r.call);
  }

  lemma ReaderFed(qs: seq<Request>, taken: seq<Chunk>, delivered: seq<Chunk>, r: Reader, bytes: seq<Byte>)
    requires ReaderOk(qs, taken, delivered, r) && |bytes| <= r.want
    ensures ReaderOk(qs, taken, delivered + [Chunk(r.call, bytes)], r.(got := r.got + bytes, want := r.want - |bytes|))
  {
  }

  lemma {:induction false} ServeReadersOk(qs: seq<Request>, taken: seq<Chunk>, delivered: seq<Chunk>, rs: seq<Reader>, bytes: seq<Byte>)
    requires AllDifferent(ReaderCalls(rs)) && ReadersOk(qs, taken, delivered, rs)
    ensures ReadersOk(qs, taken, delivered + Serve(rs, bytes).log, Serve(rs, bytes).readers)
    decreases |rs|
  {
    if rs != [] {
      ReaderCallsTail(rs);
      var r, s := rs[0], Serve(rs, bytes);
      hide ReaderOk, Of, AllDifferent, ReaderCalls;
      if |bytes| < r.want {
        ReaderFed(qs, taken, delivered, r, bytes);
        ReadersOther(qs, taken, delivered, rs[1..], s.log[0]);
        assert s.readers[1..] == rs[1..];
      } else {
        var c := Chunk(r.call, bytes[..r.want]);
        ReadersOther(qs, taken, delivered, rs[1..], c);
        ServeReadersOk(qs, taken, delivered + [c], rs[1..], bytes[r.want..]);
        assert delivered + [c] + Serve(rs[1..], bytes[r.want..]).log == delivered + s.log;
      }
    }
  }

  lemma DonesConcat(qs: seq<Request>, taken: seq<Chunk>, delivered: seq<Chunk>, a: seq<Outcome>, b: seq<Outcome>)
    requires DonesOk(qs, taken, delivered, a) && DonesOk(qs, taken, delivered, b)
    ensures DonesOk(qs, taken, delivered, a + b)
  {
  }

  lemma {:induction false} ServeDonesOk(qs: seq<Request>, taken: seq<Chunk>, delivered: seq<Chunk>, rs: seq<Reader>, bytes: seq<Byte>)
    requires AllDifferent(ReaderCalls(rs)) && ReadersOk(qs, taken, delivered, rs)
    ensures DonesOk(qs, taken, delivered + Serve(rs, bytes).log, Serve(rs, bytes).done)
    decreases |rs|
  {
    if rs != [] && |bytes| >= rs[0].want {
      ReaderCallsTail(rs);
      var r, s, rest := rs[0], Serve(rs, bytes), bytes[rs[0].want..];
      var c, log := Chunk(r.call, bytes[..r.want]), Serve(rs[1..], rest).log;
      ServeLog(rs[1..], rest, r.call);
      assert s.done == [Outcome(r.call, r.got + c.bytes, 0)] + Serve(rs[1..], rest).done && s.log == [c] + log;
      hide ReaderOk, DoneOk, DonesOk, Of, AllDifferent, ReaderCalls, Serve;
      ReaderFilled(qs, taken, delivered, r, c.bytes, log);
      ReadersOther(qs, taken, delivered, rs[1..], c);
      ServeDonesOk(qs, taken, delivered + [c], rs[1..], rest);
      assert delivered + [c] + log == delivered + s.log;
      DonesConcat(qs, taken, delivered + s.log, [s.done[0]], Serve(rs[1..], rest).done);
    }
  }

  // ----- Drawing on the writers -----

  lemma {:induction false} ConsumeCalls(ws: seq<Writer>, n: nat)
    requires n <= |Supply(ws)|
    ensures DoneCalls(Consume(ws, n).done) + WriterCalls(Consume(ws, n).writers) == WriterCalls(ws)
    decreases |ws|
  {
    if ws != [] && n >= |ws[0].data| {
      ConsumeCalls(ws[1..], n - |ws[0].data|);
      WriterCallsTail(ws);
      assert DoneCalls(Consume(ws, n).done) == [ws[0].call] + DoneCalls(Consume(ws[1..], n - |ws[0].data|).done);
    }
  }

  lemma {:induction false} ConsumeLog(ws: seq<Writer>, n: nat, call: nat)
    requires n <= |Supply(ws)| && call !in WriterCalls(ws)
    ensures Of(Consume(ws, n).log, call) == []
    decreases |ws|
  {
    if ws != [] {
      WriterCallsTail(ws);
      if n < |ws[0].data| {
        OneChunk(Chunk(ws[0].call, ws[0].data[..n]), call);
      } else {
        var c := Chunk(ws[0].call, ws[0].data);
        ConsumeLog(ws[1..], n - |ws[0].data|, call);
        OneChunk(c, call);
        OfConcat([c], Consume(ws[1..], n - |ws[0].data|).log, call);
      }
    }
  }

  lemma WriterEmptied(qs: seq<Request>, taken: seq<Chunk>, delivered: seq<Chunk>, w: Writer, log: seq<Chunk>)
    requires WritersOk(qs, taken, delivered, [w]) && Of(log, w.call) == []
    ensures DonesOk(qs, taken + [Chunk(w.call, w.data)] + log, delivered, [Outcome(w.call, w.sent + w.data, 0)])
  {
    assert WriterOk(qs, taken, delivered, [w][0]);
    AppendOwn(taken, Chunk(w.call, w.data));
    OfConcat(taken + [Chunk(w.call, w.data)], log, w.call);
  }

  lemma WriterDrawn(qs: seq<Request>, taken: seq<Chunk>, delivered: seq<Chunk>, w: Writer, n: nat)
    requires WriterOk(qs, taken, delivered, w) && n <= |w.data|
    ensures WriterOk(qs, taken + [Chunk(w.call, w.data[..n])], delivered, w.(sent := w.sent + w.data[..n], data := w.data[n..]))
  {
  }

  lemma WritersCons(qs: seq<Request>, taken: seq<Chunk>, delivered: seq<Chunk>, w: Writer, ws: seq<Writer>)
    requires WriterOk(qs, taken, delivered, w) && WritersOk(qs, taken, delivered, ws)
    ensures WritersOk(qs, taken, delivered, [w] + ws)
  {
  }

  lemma {:induction false} ConsumeWritersOk(qs: seq<Request>, taken: seq<Chunk>, delivered: seq<Chunk>, ws: seq<Writer>, n: nat)
    requires n <= |Supply(ws)| && AllDifferent(WriterCalls(ws)) && WritersOk(qs, taken, delivered, ws)
    ensures WritersOk(qs, taken + Consume(ws, n).log, delivered, Consume(ws, n).writers)
    decreases |ws|
  {
    if ws != [] {
      WriterCallsTail(ws);
      var w, rest, s := ws[0], ws[1..], Consume(ws, n);
      if n < |w.data| {
        var c := Chunk(w.call, w.data[..n]);
        assert s.log == [c] && s.writers == [w.(sent := w.sent + w.data[..n], data := w.data[n..])] + rest;
        hide WriterOk, Of, AllDifferent, WriterCalls, Consume, Supply;
        WriterDrawn(qs, taken, delivered, w, n);
        WritersOther(qs, taken, delivered, rest, c);
        WritersCons(qs, taken + [c], delivered, s.writers[0], rest);
      } else {
        var c, log := Chunk(w.call, w.data), Consume(rest, n - |w.data|).log;
        assert s.log == [c] + log && s.writers == Consume(rest, n - |w.data|).writers;
        hide WriterOk, WritersOk, Of, AllDifferent, WriterCalls, Consume;
        WritersOther(qs, taken, delivered, rest, c);
        ConsumeWritersOk(qs, taken + [c], delivered, rest, n - |w.data|);
        assert taken + [c] + log == taken + s.log;
      }
    }
  }

  lemma {:induction false} ConsumeDonesOk(qs: seq<Request>, taken: seq<Chunk>, delivered: seq<Chunk>, ws: seq<Writer>, n: nat)
    requires n <= |Supply(ws)| && AllDifferent(WriterCalls(ws)) && WritersOk(qs, taken, delivered, ws)
    ensures DonesOk(qs, taken + Consume(ws, n).log, delivered, Consume(ws, n).done)
    decreases |ws|
  {
    if ws != [] && n >= |ws[0].data| {
      WriterCallsTail(ws);
      var w, c, s, m := ws[0], Chunk(ws[0].call, ws[0].data), Consume(ws, n), n - |ws[0].data|;
      var log := Consume(ws[1..], m).log;
      ConsumeLog(ws[1..], m, w.call);
      assert s.done == [Outcome(w.call, w.sent + w.data, 0)] + Consume(ws[1..], m).done && s.log == [c] + log;
      hide WriterOk, DoneOk, DonesOk, Of, AllDifferent, WriterCalls, Consume;
      WriterEmptied(qs, taken, delivered, w, log);
      WritersOther(qs, taken, delivered, ws[1..], c);
      ConsumeDonesOk(qs, taken + [c], delivered, ws[1..], m);
      assert taken + [c] + log == taken + s.log;
      DonesConcat(qs, taken + s.log, delivered, [s.done[0]], Consume(ws[1..], m).done);
    }
  }

  // ----- Whole calls -----

  ghost predicate Silent(log: seq<Chunk>, calls: seq<nat>) { forall i :: 0 <= i < |calls| ==> Of(log, calls[i]) == [] }

  lemma DonesStay(qs: seq<Request>, taken: seq<Chunk>, delivered: seq<Chunk>, os: seq<Outcome>, t: seq<Chunk>, d: seq<Chunk>)
    requires DonesOk(qs, taken, delivered, os) && Silent(t, DoneCalls(os)) && Silent(d, DoneCalls(os))
    ensures DonesOk(qs, taken + t, delivered + d, os)
  {
    forall i | 0 <= i < |os| ensures DoneOk(qs, taken + t, delivered + d, os[i]) {
      assert DoneCalls(os)[i] == os[i].call;
      OfConcat(taken, t, os[i].call);
      OfConcat(delivered, d, os[i].call);
    }
  }

  lemma WritersStay(qs: seq<Request>, taken: seq<Chunk>, delivered: seq<Chunk>, ws: seq<Writer>, t: seq<Chunk>, d: seq<Chunk>)
    requires WritersOk(qs, taken, delivered, ws) && Silent(t, WriterCalls(ws)) && Silent(d, WriterCalls(ws))
    ensures WritersOk(qs, taken + t, delivered + d, ws)
  {
    forall i | 0 <= i < |ws| ensures WriterOk(qs, taken + t, delivered + d, ws[i]) {
      assert WriterCalls(ws)[i] == ws[i].call;
      OfConcat(taken, t, ws[i].call);
      OfConcat(delivered, d, ws[i].call);
    }
  }

  lemma ReadersStay(qs: seq<Request>, taken: seq<Chunk>, delivered: seq<Chunk>, rs: seq<Reader>, t: seq<Chunk>, d: seq<Chunk>)
    requires ReadersOk(qs, taken, delivered, rs) && Silent(t, ReaderCalls(rs)) && Silent(d, ReaderCalls(rs))
    ensures ReadersOk(qs, taken + t, delivered + d, rs)
  {
    forall i | 0 <= i < |rs| ensures ReaderOk(qs, taken + t, delivered + d, rs[i]) {
      assert ReaderCalls(rs)[i] == rs[i].call;
      OfConcat(taken, t, rs[i].call);
      OfConcat(delivered, d, rs[i].call);
    }
  }

  lemma NoFutureStay(n: nat, log: seq<Chunk>, l: seq<Chunk>)
    requires NoFuture(n, log) && NoFuture(n, l)
    ensures NoFuture(n, log + l)
  {
    forall call | call >= n ensures Of(log + l, call) == [] {
      OfConcat(log, l, call);
    }
  }

  ghost predicate Disjoint(a: seq<nat>, b: seq<nat>) { forall x :: x in a ==> x !in b }

  lemma {:induction false} AllDifferentSplit(a: seq<nat>, b: seq<nat>)
    requires AllDifferent(a + b)
    ensures AllDifferent(a) && AllDifferent(b) && Disjoint(a, b)
  {
    var s := a + b;
    forall i, j | 0 <= i < j < |a| ensures a[i] != a[j] {
      assert s[i] != s[j];
    }
    forall i, j | 0 <= i < j < |b| ensures b[i] != b[j] {
      assert s[|a| + i] != s[|a| + j];
    }
    forall x | x in a ensures x !in b {
      var i :| 0 <= i < |a| && a[i] == x;
      forall j | 0 <= j < |b| ensures b[j] != x {
        assert s[i] != s[|a| + j];
      }
    }
  }

  /** What the roster says about who is who. */
  lemma {:induction false} Apart(p: State, call: nat)
    requires multiset(Calls(p) + [call]) == multiset(Range(|p.requests|))
    ensures call < |p.requests| && call !in ReaderCalls(p.readers) && call !in WriterCalls(p.writers) && call !in DoneCalls(p.done)
    ensures AllDifferent(ReaderCalls(p.readers)) && AllDifferent(WriterCalls(p.writers))
    ensures Disjoint(DoneCalls(p.done), ReaderCalls(p.readers)) && Disjoint(DoneCalls(p.done), WriterCalls(p.writers))
    ensures Disjoint(ReaderCalls(p.readers), WriterCalls(p.writers))
    ensures forall x :: x in ReaderCalls(p.readers) || x in WriterCalls(p.writers) ==> x < |p.requests|
  {
    var a, b, c := DoneCalls(p.done), ReaderCalls(p.readers), WriterCalls(p.writers);
    hide DoneCalls, ReaderCalls, WriterCalls, AllDifferent, Range;
    var s := Calls(p) + [call];
    RosterAllDifferent(s, |p.requests|);
    assert s == a + b + c + [call];
    AllDifferentSplit(a + b + c, [call]);
    AllDifferentSplit(a + b, c);
    AllDifferentSplit(a, b);
    assert call in [call] && s[|s| - 1] == call;
    forall x | x in b || x in c ensures x < |p.requests| {
      assert x in s;
    }
  }

  lemma DoneCallsConcat(a: seq<Outcome>, b: seq<Outcome>)
    ensures DoneCalls(a + b) == DoneCalls(a) + DoneCalls(b)
  {
  }

  lemma ServeRoster(p: State, bytes: seq<Byte>)
    ensures var s := Serve(p.readers, bytes);
            Calls(p.(readers := s.readers, delivered := p.delivered + s.log, done := p.done + s.done)) == Calls(p)
  {
    ServeCalls(p.readers, bytes);
    DoneCallsConcat(p.done, Serve(p.readers, bytes).done);
    hide DoneCalls, ReaderCalls, WriterCalls, Serve;
  }

  lemma {:induction false} ServeSilent(p: State, call: nat, bytes: seq<Byte>)
    requires multiset(Calls(p) + [call]) == multiset(Range(|p.requests|))
    ensures var log := Serve(p.readers, bytes).log;
            && Silent(log, DoneCalls(p.done)) && Silent(log, WriterCalls(p.writers)) && NoFuture(|p.requests|, log) && Of(log, call) == []
            && Silent([], DoneCalls(p.done)) && Silent([], WriterCalls(p.writers))
  {
    Apart(p, call);
    hide DoneCalls, ReaderCalls, WriterCalls, Calls, Range, Serve, AllDifferent;
    var log := Serve(p.readers, bytes).log;
    ServeLog(p.readers, bytes, call);
    forall i | 0 <= i < |DoneCalls(p.done)| ensures Of(log, DoneCalls(p.done)[i]) == [] {
      assert DoneCalls(p.done)[i] in DoneCalls(p.done);
      ServeLog(p.readers, bytes, DoneCalls(p.done)[i]);
    }
    forall i | 0 <= i < |WriterCalls(p.writers)| ensures Of(log, WriterCalls(p.writers)[i]) == [] {
      assert WriterCalls(p.writers)[i] in WriterCalls(p.writers);
      ServeLog(p.readers, bytes, WriterCalls(p.writers)[i]);
    }
    forall x | x >= |p.requests| ensures Of(log, x) == [] {
      ServeLog(p.readers, bytes, x);
    }
  }

  // Recording what the call in flight has moved itself.

  /** Serving the readers from a put in flight. */
  lemma {:induction false} ServeInFlight(p: State, call: nat, bytes: seq<Byte>)
    requires InFlight(p, call, [], [])
    ensures var s := Serve(p.readers, bytes);
            InFlight(p.(readers := s.readers, delivered := p.delivered + s.log, done := p.done + s.done), call, [], [])
  {
    var s := Serve(p.readers, bytes);
    var q := p.(readers := s.readers, delivered := p.delivered + s.log, done := p.done + s.done);
    Apart(p, call);
    ServeRoster(p, bytes);
    ServeSilent(p, call, bytes);
    hide Serve, Calls, Range, DoneCalls, ReaderCalls, WriterCalls, ReaderOk, WriterOk, DoneOk, DonesOk, ReadersOk, WritersOk, AllDifferent, Of, NoFuture;
    ServeReadersOk(p.requests, p.taken, p.delivered, p.readers, bytes);
    ServeDonesOk(p.requests, p.taken, p.delivered, p.readers, bytes);
    DonesStay(p.requests, p.taken, p.delivered, p.done, [], s.log);
    WritersStay(p.requests, p.taken, p.delivered, p.writers, [], s.log);
    assert p.taken + [] == p.taken;
    DonesConcat(p.requests, p.taken, q.delivered, p.done, s.done);
    NoFutureStay(|p.requests|, p.delivered, s.log);
    OfConcat(p.delivered, s.log, call);
  }

  lemma OneSilent(call: nat, bytes: seq<Byte>, n: nat, calls: seq<nat>)
    requires call !in calls && call < n
    ensures Silent([Chunk(call, bytes)], calls) && Silent([], calls) && NoFuture(n, [Chunk(call, bytes)])
  {
  }

  lemma {:induction false} RecordTaken(p: State, call: nat, got: seq<Byte>, bytes: seq<Byte>)
    requires InFlight(p, call, [], got)
    ensures InFlight(p.(taken := p.taken + [Chunk(call, bytes)]), call, bytes, got)
  {
    Apart(p, call);
    var qs, c := p.requests, [Chunk(call, bytes)];
    OneSilent(call, bytes, |qs|, DoneCalls(p.done));
    OneSilent(call, bytes, |qs|, ReaderCalls(p.readers));
    OneSilent(call, bytes, |qs|, WriterCalls(p.writers));
    hide Range, DoneCalls, ReaderCalls, WriterCalls, ReaderOk, WriterOk, DoneOk, DonesOk, ReadersOk, WritersOk, AllDifferent, Of, NoFuture, Silent, Disjoint;
    DonesStay(qs, p.taken, p.delivered, p.done, c, []);
    ReadersStay(qs, p.taken, p.delivered, p.readers, c, []);
    WritersStay(qs, p.taken, p.delivered, p.writers, c, []);
    assert p.delivered + [] == p.delivered;
    NoFutureStay(|qs|, p.taken, c);
    AppendOwn(p.taken, c[0]);
  }

  lemma {:induction false} RecordDelivered(p: State, call: nat, sent: seq<Byte>, bytes: seq<Byte>)
    requires InFlight(p, call, sent, [])
    ensures InFlight(p.(delivered := p.delivered + [Chunk(call, bytes)]), call, sent, bytes)
  {
    Apart(p, call);
    var qs, c := p.requests, [Chunk(call, bytes)];
    OneSilent(call, bytes, |qs|, DoneCalls(p.done));
    OneSilent(call, bytes, |qs|, ReaderCalls(p.readers));
    OneSilent(call, bytes, |qs|, WriterCalls(p.writers));
    hide Range, DoneCalls, ReaderCalls, WriterCalls, ReaderOk, WriterOk, DoneOk, DonesOk, ReadersOk, WritersOk, AllDifferent, Of, NoFuture, Silent, Disjoint;
    DonesStay(qs, p.taken, p.delivered, p.done, [], c);
    ReadersStay(qs, p.taken, p.delivered, p.readers, [], c);
    WritersStay(qs, p.taken, p.delivered, p.writers, [], c);
    assert p.taken + [] == p.taken;
    NoFutureStay(|qs|, p.delivered, c);
    AppendOwn(p.delivered, c[0]);
  }

  lemma ConsumeRoster(p: State, n: nat)
    requires n <= |Supply(p.writers)| && (p.writers != [] ==> p.readers == [])
    ensures var c := Consume(p.writers, n);
            Calls(p.(writers := c.writers, taken := p.taken + c.log, done := p.done + c.done)) == Calls(p)
  {
    if p.writers == [] {
      assert Consume(p.writers, n) == Consumed([], [], []);
      assert p.done + [] == p.done;
    } else {
      ConsumeCalls(p.writers, n);
      assert ReaderCalls(p.readers) == [];
      hide DoneCalls, ReaderCalls, WriterCalls, Consume, Supply;
      var c := Consume(p.writers, n);
      DoneCallsConcat(p.done, c.done);
      Associative(DoneCalls(p.done), DoneCalls(c.done), WriterCalls(c.writers));
    }
  }

  lemma {:induction false} ConsumeSilent(p: State, call: nat, n: nat)
    requires n <= |Supply(p.writers)| && multiset(Calls(p) + [call]) == multiset(Range(|p.requests|))
    ensures var log := Consume(p.writers, n).log;
            && Silent(log, DoneCalls(p.done)) && Silent(log, ReaderCalls(p.readers)) && NoFuture(|p.requests|, log) && Of(log, call) == []
            && Silent([], DoneCalls(p.done)) && Silent([], ReaderCalls(p.readers))
  {
    Apart(p, call);
    hide DoneCalls, ReaderCalls, WriterCalls, Calls, Range, Consume, Supply, AllDifferent;
    var log := Consume(p.writers, n).log;
    ConsumeLog(p.writers, n, call);
    forall i | 0 <= i < |DoneCalls(p.done)| ensures Of(log, DoneCalls(p.done)[i]) == [] {
      assert DoneCalls(p.done)[i] in DoneCalls(p.done);
      ConsumeLog(p.writers, n, DoneCalls(p.done)[i]);
    }
    forall i | 0 <= i < |ReaderCalls(p.readers)| ensures Of(log, ReaderCalls(p.readers)[i]) == [] {
      assert ReaderCalls(p.readers)[i] in ReaderCalls(p.readers);
      ConsumeLog(p.writers, n, ReaderCalls(p.readers)[i]);
    }
    forall x | x >= |p.requests| ensures Of(log, x) == [] {
      ConsumeLog(p.writers, n, x);
    }
  }

  /** Drawing on the writers for a get in flight. */
  lemma {:induction false} ConsumeInFlight(p: State, call: nat, n: nat)
    requires InFlight(p, call, [], []) && n <= |Supply(p.writers)| && (p.writers != [] ==> p.readers == [])
    ensures var c := Consume(p.writers, n);
            InFlight(p.(writers := c.writers, taken := p.taken + c.log, done := p.done + c.done), call, [], [])
  {
    var c := Consume(p.writers, n);
    var q := p.(writers := c.writers, taken := p.taken + c.log, done := p.done + c.done);
    Apart(p, call);
    ConsumeRoster(p, n);
    ConsumeSilent(p, call, n);
    hide Consume, Calls, Range, Supply, DoneCalls, ReaderCalls, WriterCalls, ReaderOk, WriterOk, DoneOk, DonesOk, ReadersOk, WritersOk, AllDifferent, Of, NoFuture;
    ConsumeWritersOk(p.requests, p.taken, p.delivered, p.writers, n);
    ConsumeDonesOk(p.requests, p.taken, p.delivered, p.writers, n);
    DonesStay(p.requests, p.taken, p.delivered, p.done, c.log, []);
    ReadersStay(p.requests, p.taken, p.delivered, p.readers, c.log, []);
    assert p.delivered + [] == p.delivered;
    DonesConcat(p.requests, q.taken, p.delivered, p.done, c.done);
    NoFutureStay(|p.requests|, p.taken, c.log);
    OfConcat(p.taken, c.log, call);
  }

  lemma RingInFlight(p: State, ring: seq<Byte>, call: nat, sent: seq<Byte>, got: seq<Byte>)
    requires InFlight(p, call, sent, got)
    ensures InFlight(p.(ring := ring), call, sent, got)
  {
  }

  lemma {:induction false} PutFlowInFlight(p: State, call: nat, data: seq<Byte>)
    requires Shape(p) && InFlight(p, call, [], [])
    ensures InFlight(PutFlow(p, call, data), call, data[..Min(|data|, Room(p))], [])
  {
    var d, n := Min(|data|, Demand(p.readers)), Min(|data|, Room(p));
    var s := Serve(p.readers, data[..d]);
    var q := p.(readers := s.readers, delivered := p.delivered + s.log, done := p.done + s.done);
    ServeInFlight(p, call, data[..d]);
    RecordTaken(q, call, [], data[..n]);
    RingInFlight(q.(taken := q.taken + [Chunk(call, data[..n])]), p.ring + data[d..n], call, data[..n], []);
    hide InFlight;
  }

  lemma {:induction false} GetFlowInFlight(p: State, call: nat, want: nat)
    requires Shape(p) && InFlight(p, call, [], [])
    ensures InFlight(GetFlow(p, call, want), call, [], Stream(p)[..Min(want, |Stream(p)|)])
  {
    var k := Min(want, |Stream(p)|);
    var a := Drawn(p, k);
    var c := Consume(p.writers, a);
    var q := p.(writers := c.writers, taken := p.taken + c.log, done := p.done + c.done);
    ConsumeInFlight(p, call, a);
    RecordDelivered(q, call, [], Stream(p)[..k]);
    RingInFlight(q.(delivered := q.delivered + [Chunk(call, Stream(p)[..k])]), (p.ring + Supply(p.writers)[..a])[k..], call, [], Stream(p)[..k]);
    hide InFlight;
  }

  /** A new call enters. */
  lemma {:induction false} BeginInFlight(p: State, r: Request)
    requires Tracks(p)
    ensures InFlight(p.(requests := p.requests + [r]), |p.requests|, [], [])
  {
    hide Of, Settled, DoneCalls, ReaderCalls, WriterCalls;
  }

  lemma SameRoster(a: seq<nat>, b: seq<nat>, c: seq<nat>, x: nat)
    ensures multiset((a + [x]) + b + c) == multiset(a + b + c + [x])
  {
  }

  lemma FinishRoster(p: State, call: nat, bytes: seq<Byte>, ret: int)
    ensures multiset(Calls(Finish(p, call, bytes, ret))) == multiset(Calls(p) + [call])
  {
    var o := Outcome(call, bytes, ret);
    DoneCallsConcat(p.done, [o]);
    assert DoneCalls([o]) == [call];
    SameRoster(DoneCalls(p.done), ReaderCalls(p.readers), WriterCalls(p.writers), call);
  }

  /** It ends at once ... */
  lemma {:induction false} FinishTracks(p: State, call: nat, bytes: seq<Byte>, ret: int)
    requires call < |p.requests| && Settled(p.requests[call], Outcome(call, bytes, ret))
    requires if p.requests[call].PutRequest? then InFlight(p, call, bytes, []) else InFlight(p, call, [], bytes)
    ensures Tracks(Finish(p, call, bytes, ret))
  {
    var o := Outcome(call, bytes, ret);
    assert DonesOk(p.requests, p.taken, p.delivered, [o]);
    FinishRoster(p, call, bytes, ret);
    hide Of, Settled, DoneCalls, ReaderCalls, WriterCalls, Range, ReadersOk, WritersOk, DonesOk, NoFuture;
    DonesConcat(p.requests, p.taken, p.delivered, p.done, [o]);
  }

  lemma InsertReader(rs: seq<Reader>, i: nat, r: Reader)
    requires i <= |rs|
    ensures multiset(ReaderCalls(InsertAt(rs, i, r))) == multiset(ReaderCalls(rs)) + multiset{r.call}
  {
    assert ReaderCalls(InsertAt(rs, i, r)) == InsertAt(ReaderCalls(rs), i, r.call);
    InsertAtMultiset(ReaderCalls(rs), i, r.call);
  }

  lemma InsertWriter(ws: seq<Writer>, i: nat, w: Writer)
    requires i <= |ws|
    ensures multiset(WriterCalls(InsertAt(ws, i, w))) == multiset(WriterCalls(ws)) + multiset{w.call}
  {
    assert WriterCalls(InsertAt(ws, i, w)) == InsertAt(WriterCalls(ws), i, w.call);
    InsertAtMultiset(WriterCalls(ws), i, w.call);
  }

  lemma RosterJoin(a: seq<nat>, b: seq<nat>, b': seq<nat>, c: seq<nat>, x: nat)
    requires multiset(b') == multiset(b) + multiset{x}
    ensures multiset(a + b' + c) == multiset(a + b + c + [x])
  {
  }

  /** ... or waits. */
  lemma {:induction false} AwaitReaderTracks(p: State, r: Reader)
    requires InFlight(p, r.call, [], r.got) && r.call < |p.requests|
    requires p.requests[r.call] == GetRequest(|r.got| + r.want, r.min, false) && r.min <= |r.got| + r.want
    ensures Tracks(AwaitReader(p, r))
  {
    var i := Rank(ReaderPrios(p.readers), r.prio);
    var rs := InsertAt(p.readers, i, r);
    assert ReadersOk(p.requests, p.taken, p.delivered, rs);
    hide ReadersOk, Rank, Of, Settled, DoneCalls, ReaderCalls, WriterCalls, Range, WritersOk, DonesOk, NoFuture;
    InsertReader(p.readers, i, r);
    RosterJoin(DoneCalls(p.done), ReaderCalls(p.readers), ReaderCalls(rs), WriterCalls(p.writers), r.call);
  }

  lemma {:induction false} AwaitWriterTracks(p: State, w: Writer)
    requires InFlight(p, w.call, w.sent, []) && w.call < |p.requests|
    requires p.requests[w.call] == PutRequest(w.sent + w.data, w.min, false) && w.min <= |w.sent| + |w.data|
    ensures Tracks(AwaitWriter(p, w))
  {
    var i := Rank(WriterPrios(p.writers), w.prio);
    var ws := InsertAt(p.writers, i, w);
    assert WritersOk(p.requests, p.taken, p.delivered, ws);
    hide WritersOk, Rank, Of, Settled, DoneCalls, ReaderCalls, WriterCalls, Range, ReadersOk, DonesOk, NoFuture;
    InsertWriter(p.writers, i, w);
    RosterJoin(DoneCalls(p.done) + ReaderCalls(p.readers), WriterCalls(p.writers), WriterCalls(ws), [], w.call);
    assert Calls(AwaitWriter(p, w)) + [] == Calls(AwaitWriter(p, w)) && Calls(p) + [] == Calls(p);
  }

  lemma {:induction false} PutTracks(p: State, prio: int, data: seq<Byte>, min: nat, noWait: bool)
    requires Shape(p) && Tracks(p)
    ensures Tracks(Put(p, prio, data, min, noWait))
  {
    hide InFlight, Tracks, AwaitWriter, Serve, Demand;
    var call, r := |p.requests|, PutRequest(data, min, noWait);
    var q, n := p.(requests := p.requests + [r]), Min(|data|, Room(p));
    BeginInFlight(p, r);
    if min > |data| {
      FinishTracks(q, call, [], -EINVAL);
    } else if noWait && n < min {
      FinishTracks(q, call, [], -EIO);
    } else {
      PutFlowInFlight(q, call, data);
      var f := PutFlow(q, call, data);
      assert f.requests == q.requests;
      if Finishes(n, |data|, min, noWait) {
        FinishTracks(f, call, data[..n], ReturnCode(min, n));
      } else {
        assert data == data[..n] + data[n..];
        AwaitWriterTracks(f, Writer(call, prio, data[..n], data[n..], min));
      }
    }
  }

  lemma {:induction false} GetTracks(p: State, prio: int, want: nat, min: nat, noWait: bool)
    requires Shape(p) && Tracks(p)
    ensures Tracks(Get(p, prio, want, min, noWait))
  {
    hide InFlight, Tracks, AwaitReader, Consume;
    var call, r := |p.requests|, GetRequest(want, min, noWait);
    var q, n := p.(requests := p.requests + [r]), Min(want, |Stream(p)|);
    BeginInFlight(p, r);
    if min > want {
      FinishTracks(q, call, [], -EINVAL);
    } else if noWait && n < min {
      FinishTracks(q, call, [], -EIO);
    } else {
      GetFlowInFlight(q, call, want);
      var f, got := GetFlow(q, call, want), Stream(p)[..n];
      assert f.requests == q.requests;
      if Finishes(n, want, min, noWait) {
        FinishTracks(f, call, got, ReturnCode(min, n));
      } else {
        AwaitReaderTracks(f, Reader(call, prio, got, want - n, min));
      }
    }
  }

  /** A waiter that leaves its queue is in flight again. */
  lemma {:induction false} LeaveReader(p: State, i: nat)
    requires Tracks(p) && i < |p.readers|
    ensures InFlight(p.(readers := RemoveAt(p.readers, i)), p.readers[i].call, [], p.readers[i].got)
  {
    var r, rs := p.readers[i], RemoveAt(p.readers, i);
    assert p.readers == InsertAt(rs, i, r);
    InsertReader(rs, i, r);
    hide Of, Settled, DoneCalls, ReaderCalls, WriterCalls, Range, WritersOk, DonesOk, NoFuture;
    RosterJoin(DoneCalls(p.done), ReaderCalls(rs), ReaderCalls(p.readers), WriterCalls(p.writers), r.call);
    assert ReaderOk(p.requests, p.taken, p.delivered, p.readers[i]);
  }

  lemma {:induction false} LeaveWriter(p: State, i: nat)
    requires Tracks(p) && i < |p.writers|
    ensures InFlight(p.(writers := RemoveAt(p.writers, i)), p.writers[i].call, p.writers[i].sent, [])
  {
    var w, ws := p.writers[i], RemoveAt(p.writers, i);
    var q := p.(writers := ws);
    assert p.writers == InsertAt(ws, i, w);
    InsertWriter(ws, i, w);
    hide Of, Settled, DoneCalls, ReaderCalls, WriterCalls, Range, ReadersOk, DonesOk, NoFuture;
    RosterJoin(DoneCalls(p.done) + ReaderCalls(p.readers), WriterCalls(ws), WriterCalls(p.writers), [], w.call);
    assert Calls(p) + [] == Calls(p) && Calls(q) + [] == Calls(q);
    assert WriterOk(p.requests, p.taken, p.delivered, p.writers[i]);
  }

  lemma {:induction false} ExpireReaderTracks(p: State, i: nat)
    requires Tracks(p) && i < |p.readers|
    ensures Tracks(ExpireReader(p, i))
  {
    var r := p.readers[i];
    assert ReaderOk(p.requests, p.taken, p.delivered, p.readers[i]);
    LeaveReader(p, i);
    hide InFlight, Tracks;
    FinishTracks(p.(readers := RemoveAt(p.readers, i)), r.call, r.got, ReturnCode(r.min, |r.got|));
  }

  lemma {:induction false} ExpireWriterTracks(p: State, i: nat)
    requires Tracks(p) && i < |p.writers|
    ensures Tracks(ExpireWriter(p, i))
  {
    var w := p.writers[i];
    assert WriterOk(p.requests, p.taken, p.delivered, p.writers[i]);
    LeaveWriter(p, i);
    hide InFlight, Tracks;
    FinishTracks(p.(writers := RemoveAt(p.writers, i)), w.call, w.sent, ReturnCode(w.min, |w.sent|));
  }

  lemma {:induction false} NextTracks(p: State, s: Step)
    requires Shape(p) && Tracks(p)
    ensures Tracks(Next(p, s))
  {
    hide Tracks, Put, Get, ExpireReader, ExpireWriter;
    match s
    case PutStep(prio, data, min, noWait) => PutTracks(p, prio, data, min, noWait);
    case GetStep(prio, want, min, noWait) => GetTracks(p, prio, want, min, noWait);
    case ReaderTimeout(i) => if i < |p.readers| { ExpireReaderTracks(p, i); }
    case WriterTimeout(i) => if i < |p.writers| { ExpireWriterTracks(p, i); }
  }

  // ----- Runs -----

  /**
   After every run of puts, gets and timeouts the waiter invariant holds, the bytes taken are the bytes delivered
   followed by the ring, and every call has moved exactly the bytes that are logged for it.
   */
  lemma {:induction false} RunFifo(p: State, ss: seq<Step>)
    requires Shape(p) && Conserves(p) && Tracks(p)
    ensures Shape(Run(p, ss)) && Conserves(Run(p, ss)) && Tracks(Run(p, ss))
    decreases |ss|
  {
    if ss != [] {
      hide Shape, Conserves, Tracks, Next;
      NextShape(p, ss[0]);
      NextConserves(p, ss[0]);
      NextTracks(p, ss[0]);
      RunFifo(Next(p, ss[0]), ss[1..]);
    }
  }

  lemma FreshFifo(size: nat, ss: seq<Step>)
    ensures Shape(Fresh(size)) && Shape(Run(Fresh(size), ss)) && Conserves(Run(Fresh(size), ss)) && Tracks(Run(Fresh(size), ss))
  {
    assert Calls(Fresh(size)) == [];
    RunFifo(Fresh(size), ss);
  }

  // ----- What calls answer -----

  /** The call has ended at once, with nothing moved. */
  ghost predicate Refused(p: State, q: State, ret: int) {
    q == p.(requests := q.requests, done := p.done + [Outcome(|p.requests|, [], ret)])
  }

  /** What moved when `n` bytes of a put were placed: the readers get what they still want, the ring the rest. */
  ghost predicate Placed(p: State, q: State, data: seq<Byte>, n: nat) {
    var d := Min(|data|, Demand(p.readers));
    && d <= n <= |data| && q.size == p.size
    && q.taken == p.taken + [Chunk(|p.requests|, data[..n])] && q.ring == p.ring + data[d..n]
    && p.delivered <= q.delivered && Bytes(q.delivered[|p.delivered|..]) == data[..d]
    && Demand(q.readers) == Demand(p.readers) - d && p.done <= q.done
  }

  lemma PutFlowPlaced(p: State, r: State, data: seq<Byte>)
    requires Shape(p) && r == p.(requests := r.requests)
    ensures Placed(p, PutFlow(r, |p.requests|, data), data, Min(|data|, Room(p))) && PutFlow(r, |p.requests|, data).writers == p.writers
  {
    hide Serve, Demand, Bytes;
    var d := Min(|data|, Demand(p.readers));
    ServeShape(p.readers, data[..d]);
    ServeBytes(p.readers, data[..d]);
    var log := Serve(p.readers, data[..d]).log;
    assert (p.delivered + log)[|p.delivered|..] == log;
  }

  /**
   A put: refused when it asks for too little, or may not wait and there is not enough room.  Otherwise it places as much as there
   is room for.  It returns 0 with that if it is all, or it may not wait, or the minimum is not 0 and has been reached; if not,
   it waits with the rest, behind the writers that are no worse.
   */
  lemma PutAnswer(p: State, prio: int, data: seq<Byte>, min: nat, noWait: bool)
    requires Shape(p)
    ensures var q, call, n := Put(p, prio, data, min, noWait), |p.requests|, Min(|data|, Room(p));
      && q.requests == p.requests + [PutRequest(data, min, noWait)]
      && if min > |data| then Refused(p, q, -EINVAL)
         else if noWait && Room(p) < min then Refused(p, q, -EIO)
         else
           && Placed(p, q, data, n)
           && if n == |data| || noWait || 0 < min <= n then
                q.writers == p.writers && q.done != [] && q.done[|q.done| - 1] == Outcome(call, data[..n], 0)
              else
                exists i: nat :: InPlace(WriterPrios(p.writers), i, prio)
                  && q.writers == InsertAt(p.writers, i, Writer(call, prio, data[..n], data[n..], min))
  {
    var q, call, n := Put(p, prio, data, min, noWait), |p.requests|, Min(|data|, Room(p));
    var r := p.(requests := p.requests + [PutRequest(data, min, noWait)]);
    PutFlowPlaced(p, r, data);
    hide PutFlow, Shape, Demand, Bytes, Rank, InsertAt;
    if min <= |data| && !(noWait && Room(p) < min) && !(n == |data| || noWait || 0 < min <= n) {
      var i := Rank(WriterPrios(p.writers), prio);
      assert InPlace(WriterPrios(p.writers), i, prio);
    }
  }

  lemma SameShape(p: State, q: State)
    requires Shape(p) && q.ring == p.ring && q.size == p.size && q.readers == p.readers && q.writers == p.writers
    ensures Shape(q)
  {
  }

  /** What moved when the first `n` bytes of the stream were got. */
  ghost predicate Got(p: State, q: State, n: nat) {
    && n <= |Stream(p)| && q.size == p.size
    && q.delivered == p.delivered + [Chunk(|p.requests|, Stream(p)[..n])] && Stream(q) == Stream(p)[n..] && p.done <= q.done
  }

  lemma GetFlowDrawn(p: State, r: State, want: nat)
    requires Shape(p) && r == p.(requests := r.requests)
    ensures Shape(r) && Got(p, GetFlow(r, |p.requests|, want), Min(want, |Stream(p)|))
    ensures GetFlow(r, |p.requests|, want).readers == p.readers
  {
    hide Shape, Supply, Consume;
    SameShape(p, r);
    GetFlowShape(r, |p.requests|, want);
    assert Stream(r) == Stream(p);
    hide Stream;
  }

  lemma GetFlowRequests(p: State, call: nat, want: nat)
    requires Shape(p)
    ensures GetFlow(p, call, want).requests == p.requests
  {
    hide Consume, Supply, Drawn, Shape;
  }

  /** Ending or beginning to wait moves nothing. */
  lemma GotAgain(p: State, f: State, q: State, n: nat)
    requires Got(p, f, n) && q.ring == f.ring && q.writers == f.writers && q.size == f.size && q.delivered == f.delivered && f.done <= q.done
    ensures Got(p, q, n)
  {
    hide Supply;
  }

  /** A get that is not refused. */
  lemma GetMoves(p: State, prio: int, want: nat, min: nat, noWait: bool)
    requires Shape(p) && min <= want && !(noWait && |Stream(p)| < min)
    ensures var q, call, n := Get(p, prio, want, min, noWait), |p.requests|, Min(want, |Stream(p)|);
      && q.requests == p.requests + [GetRequest(want, min, noWait)] && Got(p, q, n)
      && if n == want || noWait || 0 < min <= n then
           q.readers == p.readers && q.done != [] && q.done[|q.done| - 1] == Outcome(call, Stream(p)[..n], 0)
         else
           exists i: nat :: InPlace(ReaderPrios(p.readers), i, prio)
             && q.readers == InsertAt(p.readers, i, Reader(call, prio, Stream(p)[..n], want - n, min))
  {
    hide GetFlow, Shape, Stream, Rank, InsertAt, Got;
    var q, call, n := Get(p, prio, want, min, noWait), |p.requests|, Min(want, |Stream(p)|);
    var r := p.(requests := p.requests + [GetRequest(want, min, noWait)]);
    GetFlowDrawn(p, r, want);
    GetFlowRequests(r, call, want);
    var f := GetFlow(r, call, want);
    if n == want || noWait || 0 < min <= n {
      assert q == Finish(f, call, Stream(p)[..n], 0);
    } else {
      assert q == AwaitReader(f, Reader(call, prio, Stream(p)[..n], want - n, min));
      assert InPlace(ReaderPrios(p.readers), Rank(ReaderPrios(p.readers), prio), prio);
    }
    hide Get;
    GotAgain(p, f, q, n);
  }

  /**
   A get: refused when it asks for too little, or may not wait and there are not enough bytes.  Otherwise it gets the first bytes
   of the stream.  It returns 0 with these if they are all it wants, or it may not wait, or the minimum is not 0 and has been
   reached; if not, it waits for the rest, behind the readers that are no worse.
   */
  lemma GetAnswer(p: State, prio: int, want: nat, min: nat, noWait: bool)
    requires Shape(p)
    ensures var q, call, n := Get(p, prio, want, min, noWait), |p.requests|, Min(want, |Stream(p)|);
      && q.requests == p.requests + [GetRequest(want, min, noWait)]
      && if min > want then Refused(p, q, -EINVAL)
         else if noWait && |Stream(p)| < min then Refused(p, q, -EIO)
         else
           && Got(p, q, n)
           && if n == want || noWait || 0 < min <= n then
                q.readers == p.readers && q.done != [] && q.done[|q.done| - 1] == Outcome(call, Stream(p)[..n], 0)
              else
                exists i: nat :: InPlace(ReaderPrios(p.readers), i, prio)
                  && q.readers == InsertAt(p.readers, i, Reader(call, prio, Stream(p)[..n], want - n, min))
  {
    hide Shape, Stream, InsertAt, Got, GetFlow;
    if min <= want && !(noWait && |Stream(p)| < min) {
      hide Get;
      GetMoves(p, prio, want, min, noWait);
    }
  }

  /** A waiter whose time is up returns what it has moved: 0 if that is its minimum, else -EAGAIN. */
  lemma TimeoutAnswer(p: State, i: nat)
    requires Shape(p)
    ensures i < |p.readers| ==>
      var q, r := Next(p, ReaderTimeout(i)), p.readers[i];
      && q.readers == RemoveAt(p.readers, i) && q == p.(readers := q.readers, done := q.done)
      && q.done == p.done + [Outcome(r.call, r.got, if |r.got| >= r.min then 0 else -EAGAIN)]
    ensures i < |p.writers| ==>
      var q, w := Next(p, WriterTimeout(i)), p.writers[i];
      && q.writers == RemoveAt(p.writers, i) && q == p.(writers := q.writers, done := q.done)
      && q.done == p.done + [Outcome(w.call, w.sent, if |w.sent| >= w.min then 0 else -EAGAIN)]
  {
    hide Shape;
  }

  // ----- Calls that may not wait -----

  /**
   A put that may not wait either fails with -EIO and moves nothing, or succeeds having moved as much as there is
   room for, at least its minimum; it never returns -EAGAIN.  The waiting readers come first, and the ring gets the rest.
   */
  lemma {:induction false} PutNoWait(p: State, prio: int, data: seq<Byte>, min: nat)
    requires Shape(p) && min <= |data|
    ensures var q, call := Put(p, prio, data, min, true), |p.requests|;
            && q.writers == p.writers
            && (if Room(p) < min
                then q.done == p.done + [Outcome(call, [], -EIO)] && q.ring == p.ring && q.readers == p.readers && q.taken == p.taken && q.delivered == p.delivered
                else q.done[|q.done| - 1] == Outcome(call, data[..Min(|data|, Room(p))], 0) && q.taken == p.taken + [Chunk(call, data[..Min(|data|, Room(p))])])
    ensures var q, d := Put(p, prio, data, min, true), Min(|data|, Demand(p.readers));
            Room(p) >= min ==>
              && q.ring == p.ring + data[d..Min(|data|, Room(p))]
              && p.delivered <= q.delivered && Bytes(q.delivered[|p.delivered|..]) == data[..d]
              && Demand(q.readers) == Demand(p.readers) - d
  {
    hide Shape, Put, Demand, Bytes;
    PutAnswer(p, prio, data, min, true);
  }

  /** A get that may not wait either fails with -EIO and moves nothing, or succeeds with the first bytes of the stream. */
  lemma {:induction false} GetNoWait(p: State, prio: int, want: nat, min: nat)
    requires Shape(p) && min <= want
    ensures var q, call := Get(p, prio, want, min, true), |p.requests|;
            && q.readers == p.readers
            && (if |Stream(p)| < min
                then q.done == p.done + [Outcome(call, [], -EIO)] && q.ring == p.ring && q.writers == p.writers && q.taken == p.taken && q.delivered == p.delivered
                else q.done[|q.done| - 1] == Outcome(call, Stream(p)[..Min(want, |Stream(p)|)], 0) && Stream(q) == Stream(p)[Min(want, |Stream(p)|)..])
  {
    hide Shape, Stream, Get;
    GetAnswer(p, prio, want, min, true);
  }
}
