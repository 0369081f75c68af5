/** The bounded tail of a command's output, kept in one buffer that is shifted in place. */
module TailBuffer {
  import opened EventLog

  /** The last `limit` bytes of s. */
  function Tail(s: seq<byte>, limit: nat): seq<byte> {
    if |s| <= limit then s else s[|s| - limit..]
  }

  class Buffer {
    const limit: nat
    const buf: array<byte>
    var len: nat

    ghost predicate Valid()
      reads this
    {
      buf.Length == limit && len <= limit
    }

    /** What the buffer holds. */
    function Bytes(): seq<byte>
      requires Valid()
      reads this, buf
    {
      buf[..len]
    }

    constructor (limit: nat)
      ensures Valid() && this.limit == limit && fresh(buf) && Bytes() == []
    {
      this.limit := limit;
      buf := new byte[limit];
      len := 0;
    }

    /** Moves the bytes from position `excess` on to the front, as copy does for overlapping ranges. */
    method ShiftOut(excess: nat)
      requires Valid() && excess <= len
      modifies this`len, buf
      ensures Valid() && Bytes() == old(Bytes())[excess..]
    {
      for i := 0 to len - excess
        invariant len == old(len)
        invariant forall j :: 0 <= j < i ==> buf[j] == old(buf[j + excess])
        invariant forall j :: i <= j < buf.Length ==> buf[j] == old(buf[j])
      {
        buf[i] := buf[i + excess];
      }
      len := len - excess;
    }

    method Append(p: seq<byte>)
      requires Valid() && len + |p| <= limit
      modifies this`len, buf
      ensures Valid() && Bytes() == old(Bytes()) + p
    {
      for i := 0 to |p|
        invariant len == old(len)
        invariant buf[..len] == old(buf[..len]) && buf[len..len + i] == p[..i]
      {
        buf[len + i] := p[i];
      }
      len := len + |p|;
      assert buf[..len] == buf[..old(len)] + buf[old(len)..len];
    }

    /** Accepts all of p and keeps the last `limit` bytes of everything. */
    method Write(p: seq<byte>) returns (n: nat)
      requires Valid()
      modifies this`len, buf
      ensures Valid() && n == |p|
      ensures Bytes() == Tail(old(Bytes()) + p, limit)
    {
      n := |p|;
      if limit <= 0 {
        return;
      }
      if |p| >= limit {
        len := 0;
        Append(p[|p| - limit..]);
        return;
      }
      var excess := len + |p| - limit;
      if excess > 0 {
        ShiftOut(excess);
      }
      Append(p);
    }
  }

  function Concat(writes: seq<seq<byte>>): seq<byte> {
    if writes == [] then [] else Concat(writes[..|writes| - 1]) + writes[|writes| - 1]
  }

  /** What is left after writing to an empty buffer chunk by chunk. */
  function Kept(writes: seq<seq<byte>>, limit: nat): seq<byte> {
    if writes == [] then []
    else Tail(Kept(writes[..|writes| - 1], limit) + writes[|writes| - 1], limit)
  }

  /** However the output was cut into writes, the buffer holds exactly its last `limit` bytes. */
  lemma {:induction false} KeptIsTail(writes: seq<seq<byte>>, limit: nat)
    ensures Kept(writes, limit) == Tail(Concat(writes), limit)
    ensures |Kept(writes, limit)| == if |Concat(writes)| <= limit then |Concat(writes)| else limit
  {
    if writes != [] {
      KeptIsTail(writes[..|writes| - 1], limit);
      var (s, p) := (Concat(writes[..|writes| - 1]), writes[|writes| - 1]);
      assert Tail(Tail(s, limit) + p, limit) == Tail(s + p, limit);
    }
  }

  /** A client's whole output through one buffer. */
  method WriteAll(writes: seq<seq<byte>>, limit: nat) returns (tail: seq<byte>)
    ensures tail == Tail(Concat(writes), limit)
  {
    var b := new Buffer(limit);
    for i := 0 to |writes|
      invariant b.Valid() && b.limit == limit && fresh(b) && fresh(b.buf)
      invariant b.Bytes() == Kept(writes[..i], limit)
    {
      var _ := b.Write(writes[i]);
      assert writes[..i + 1][..i] == writes[..i];
    }
    assert writes[..|writes|] == writes;
    KeptIsTail(writes, limit);
    tail := b.Bytes();
  }
}
