/** Blocks of bytes written into a larger buffer at an offset, on sequences and in place. */
module Bytes {
  import opened Common

  /** s with the bytes b stored at off: what memcpy leaves behind. */
  function Splice(s: seq<byte>, off: nat, b: seq<byte>): (t: seq<byte>)
    requires off + |b| <= |s|
    ensures |t| == |s|
  {
    s[..off] + b + s[off + |b|..]
  }

  lemma SpliceHit(s: seq<byte>, off: nat, b: seq<byte>)
    requires off + |b| <= |s|
    ensures Splice(s, off, b)[off..off + |b|] == b
  {
  }

  lemma SpliceMiss(s: seq<byte>, off: nat, b: seq<byte>, lo: nat, hi: nat)
    requires off + |b| <= |s| && lo <= hi <= |s|
    requires hi <= off || off + |b| <= lo
    ensures Splice(s, off, b)[lo..hi] == s[lo..hi]
  {
  }

  /** Storing into a block that was itself just stored. */
  lemma SpliceInside(s: seq<byte>, off: nat, d: seq<byte>, k: nat, b: seq<byte>)
    requires off + |d| <= |s| && k + |b| <= |d|
    ensures Splice(Splice(s, off, d), off + k, b) == Splice(s, off, Splice(d, k, b))
  {
  }

  lemma Load16Hit(s: seq<byte>, off: nat, v: u16)
    requires off + 2 <= |s|
    ensures LoadU16(Splice(s, off, Le16(v)), off) == v
  {
    LoadStore(v);
  }

  lemma Load32Hit(s: seq<byte>, off: nat, v: u32)
    requires off + 4 <= |s|
    ensures LoadU32(Splice(s, off, Le32(v)), off) == v
  {
    LoadStore(v);
    var t := Splice(s, off, Le32(v));
    assert t[off] == Le32(v)[0] && t[off + 1] == Le32(v)[1] && t[off + 2] == Le32(v)[2] && t[off + 3] == Le32(v)[3];
  }

  lemma Load16Miss(s: seq<byte>, k: nat, b: seq<byte>, off: nat)
    requires k + |b| <= |s| && off + 2 <= |s| && (off + 2 <= k || k + |b| <= off)
    ensures LoadU16(Splice(s, k, b), off) == LoadU16(s, off)
  {
  }

  lemma Load32Miss(s: seq<byte>, k: nat, b: seq<byte>, off: nat)
    requires k + |b| <= |s| && off + 4 <= |s| && (off + 4 <= k || k + |b| <= off)
    ensures LoadU32(Splice(s, k, b), off) == LoadU32(s, off)
  {
  }

  /** Loading from a piece of a sequence. */
  lemma Load32Within(s: seq<byte>, lo: nat, hi: nat, off: nat)
    requires lo <= hi <= |s| && off + 4 <= hi - lo
    ensures LoadU32(s[lo..hi], off) == LoadU32(s, lo + off)
  {
  }

  /** The C string at off: the bytes before the first zero, or before the limit. */
  function CString(s: seq<byte>, off: nat, limit: nat): seq<byte>
    requires off <= limit <= |s|
    decreases limit - off
  {
    if off == limit || s[off] == 0 then [] else [s[off]] + CString(s, off + 1, limit)
  }

  lemma {:induction false} CStringAt(s: seq<byte>, off: nat, limit: nat, name: seq<byte>)
    requires off + |name| < limit <= |s|
    requires s[off..off + |name|] == name && 0 !in name && s[off + |name|] == 0
    ensures CString(s, off, limit) == name
    decreases |name|
  {
    if name != [] {
      assert s[off] == s[off..off + |name|][0] == name[0];
      assert s[off + 1..off + 1 + |name[1..]|] == s[off..off + |name|][1..];
      CStringAt(s, off + 1, limit, name[1..]);
    }
  }

  lemma {:induction false} CStringMiss(s: seq<byte>, k: nat, b: seq<byte>, off: nat, limit: nat)
    requires off <= limit <= k && k + |b| <= |s|
    ensures CString(Splice(s, k, b), off, limit) == CString(s, off, limit)
    decreases limit - off
  {
    if off < limit && s[off] != 0 {
      CStringMiss(s, k, b, off + 1, limit);
    }
  }

  method Put(a: array<byte>, off: nat, b: seq<byte>)
    requires off + |b| <= a.Length
    modifies a
    ensures a[..] == Splice(old(a[..]), off, b)
  {
    for i := 0 to |b|
      invariant forall k :: 0 <= k < a.Length ==> a[k] == if off <= k < off + i then b[k - off] else old(a[k])
    {
      a[off + i] := b[i];
    }
  }

  /** buf[off++] = ...: append bytes at a moving offset. */
  method Emit(buf: array<byte>, off: nat, bytes: seq<byte>) returns (next: nat)
    requires off + |bytes| <= buf.Length
    modifies buf
    ensures next == off + |bytes|
    ensures buf[..next] == old(buf[..off]) + bytes
    ensures forall j :: next <= j < buf.Length ==> buf[j] == old(buf[j])
  {
    for i := 0 to |bytes|
      invariant buf[..off + i] == old(buf[..off]) + bytes[..i]
      invariant forall j :: off + i <= j < buf.Length ==> buf[j] == old(buf[j])
    {
      buf[off + i] := bytes[i];
    }
    next := off + |bytes|;
    assert bytes[..|bytes|] == bytes;
  }
}
