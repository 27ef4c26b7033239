/** The circular buffer of a pipe (kernel/pipes.c): two passes of plain copying refine appending to a bounded sequence. */
module PipeRing {
  import opened PipeModel

  /** The used part of a buffer. */
  ghost function Used(b: seq<Byte>, r: nat, u: nat): (s: seq<Byte>)
    requires r <= |b| && u <= |b|
    ensures |s| == u
  {
    if r + u <= |b| then b[r..r + u] else b[r..] + b[..r + u - |b|]
  }

  /** Storing at the write index, without running over the end or into the used part, appends. */
  lemma PutPassContents(b: seq<Byte>, r: nat, u: nat, w: nat, x: seq<Byte>, c: seq<Byte>)
    requires u + |x| <= |b| && w + |x| <= |b| && (if |b| == 0 then r == 0 && w == 0 else r < |b| && w == if r + u < |b| then r + u else r + u - |b|)
    requires c == b[..w] + x + b[w + |x|..]
    ensures Used(c, r, u + |x|) == Used(b, r, u) + x
  {
    var s, t := Used(c, r, u + |x|), Used(b, r, u) + x;
    assert |s| == |t|;
    forall i | 0 <= i < |s| ensures s[i] == t[i] {
    }
  }

  lemma GetPassContents(b: seq<Byte>, r: nat, u: nat, n: nat)
    requires u <= |b| && n <= u && r + n <= |b|
    ensures Used(b, r, u) == b[r..r + n] + Used(b, if r + n == |b| then 0 else r + n, u - n)
  {
    var s, t := Used(b, r, u), b[r..r + n] + Used(b, if r + n == |b| then 0 else r + n, u - n);
    assert |s| == |t|;
    forall i | 0 <= i < |s| ensures s[i] == t[i] {
    }
  }

  class Ring {
    const size: nat
    const buffer: array<Byte>
    var bytesUsed: nat
    var readIndex: nat
    var writeIndex: nat

    ghost predicate Valid()
      reads this
    {
      && buffer.Length == size && bytesUsed <= size
      && (if size == 0 then readIndex == 0 && writeIndex == 0
          else readIndex < size && writeIndex == (if readIndex + bytesUsed < size then readIndex + bytesUsed else readIndex + bytesUsed - size))
    }

    ghost function Contents(): (s: seq<Byte>)
      requires Valid()
      reads this, buffer
      ensures |s| == bytesUsed
    {
      Used(buffer[..], readIndex, bytesUsed)
    }

    /** k_pipe_init() */
    constructor (size: nat)
      ensures Valid() && this.size == size && Contents() == [] && fresh(buffer)
    {
      this.size := size;
      buffer := new Byte[size](_ => 0);
      bytesUsed, readIndex, writeIndex := 0, 0, 0;
    }

    /** pipe_xfer() into the buffer at `at` */
    method Store(at: nat, room: nat, src: seq<Byte>) returns (n: nat)
      requires at + room <= buffer.Length
      modifies buffer
      ensures n == Min(room, |src|)
      ensures buffer[..] == old(buffer[..at]) + src[..n] + old(buffer[at + n..])
    {
      n := 0;
      while n < room && n < |src|
        invariant 0 <= n <= room && n <= |src|
        invariant buffer[..] == old(buffer[..at]) + src[..n] + old(buffer[at + n..])
      {
        buffer[at + n] := src[n];
        n := n + 1;
      }
    }

    /** One pass of pipe_buffer_put() */
    method PutPass(src: seq<Byte>) returns (n: nat)
      requires Valid()
      modifies this`bytesUsed, this`writeIndex, buffer
      ensures n == Min(|src|, Min(size - old(bytesUsed), size - old(writeIndex)))
      ensures Valid() && Contents() == old(Contents()) + src[..n]
      ensures writeIndex == if old(writeIndex) + n == size then 0 else old(writeIndex) + n
    {
      hide Used;
      var run := Min(size - bytesUsed, size - writeIndex);
      ghost var before := buffer[..];
      n := Store(writeIndex, run, src);
      bytesUsed := bytesUsed + n;
      writeIndex := writeIndex + n;
      if writeIndex == size {
        writeIndex := 0;
      }
      PutPassContents(before, readIndex, old(bytesUsed), old(writeIndex), src[..n], buffer[..]);
    }

    /** pipe_buffer_put() */
    method Put(src: seq<Byte>) returns (n: nat)
      requires Valid()
      modifies this`bytesUsed, this`writeIndex, buffer
      ensures Valid() && n == Min(|src|, size - old(bytesUsed)) && Contents() == old(Contents()) + src[..n]
    {
      hide Used;
      n := 0;
      var i := 0;
      while i < 2
        invariant 0 <= i <= 2 && n <= |src| && Valid()
        invariant bytesUsed == old(bytesUsed) + n && Contents() == old(Contents()) + src[..n]
        invariant i >= 1 ==> n == Min(|src|, size - old(bytesUsed)) || writeIndex == 0
        invariant i >= 2 ==> n == Min(|src|, size - old(bytesUsed))
      {
        var copied := PutPass(src[n..]);
        assert src[..n] + src[n..][..copied] == src[..n + copied];
        n := n + copied;
        i := i + 1;
      }
    }

    /** One pass of pipe_buffer_get() */
    method GetPass(room: nat) returns (out: seq<Byte>)
      requires Valid()
      modifies this`bytesUsed, this`readIndex
      ensures Valid() && out + Contents() == old(Contents())
      ensures |out| == Min(room, Min(old(bytesUsed), size - old(readIndex)))
      ensures readIndex == if old(readIndex) + |out| == size then 0 else old(readIndex) + |out|
    {
      hide Used;
      var run := Min(bytesUsed, size - readIndex);
      var n := 0;
      out := [];
      while n < run && n < room
        invariant 0 <= n <= run && n <= room
        invariant out == buffer[readIndex..readIndex + n]
      {
        out := out + [buffer[readIndex + n]];
        n := n + 1;
      }
      assert out == buffer[..][readIndex..readIndex + n];
      GetPassContents(buffer[..], readIndex, bytesUsed, n);
      bytesUsed := bytesUsed - n;
      readIndex := readIndex + n;
      if readIndex == size {
        readIndex := 0;
      }
    }

    /** pipe_buffer_get() */
    method Get(room: nat) returns (out: seq<Byte>)
      requires Valid()
      modifies this`bytesUsed, this`readIndex
      ensures Valid() && |out| == Min(room, old(bytesUsed)) && out + Contents() == old(Contents())
    {
      hide Used;
      out := [];
      var i := 0;
      while i < 2
        invariant 0 <= i <= 2 && |out| <= room && Valid()
        invariant bytesUsed == old(bytesUsed) - |out| && out + Contents() == old(Contents())
        invariant i >= 1 ==> |out| == Min(room, old(bytesUsed)) || readIndex == 0
        invariant i >= 2 ==> |out| == Min(room, old(bytesUsed))
      {
        var more := GetPass(room - |out|);
        out := out + more;
        i := i + 1;
      }
    }

    /** k_pipe_read_avail(), from the indices */
    method ReadAvail() returns (n: nat)
      requires Valid()
      ensures n == |Contents()|
    {
      if size == 0 {
        return 0;
      }
      if readIndex == writeIndex {
        n := bytesUsed;
      } else if readIndex < writeIndex {
        n := writeIndex - readIndex;
      } else {
        n := size - (readIndex - writeIndex);
      }
    }

    /** k_pipe_write_avail(), from the indices */
    method WriteAvail() returns (n: nat)
      requires Valid()
      ensures n == size - |Contents()|
    {
      if size == 0 {
        return 0;
      }
      if writeIndex == readIndex {
        n := size - bytesUsed;
      } else if writeIndex < readIndex {
        n := readIndex - writeIndex;
      } else {
        n := size - (writeIndex - readIndex);
      }
    }
  }
}
