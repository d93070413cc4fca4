/** BOOL[] tags, c/src/access.c: one byte per BOOL for the caller, 32 BOOLs to a DWORD on the wire. */
module BoolArray {
  import opened Common

  const BP_OK := 0
  const BP_ERR_NULL_ARG := -300
  const BP_ERR_GENERIC := -1

  // ---------------------------------------------------------------- bits of a 32-bit word

  /** (w >> k) & 1. */
  predicate Bit(w: nat, k: nat) {
    if k == 0 then w % 2 == 1 else Bit(w / 2, k - 1)
  }

  /** w | (1 << k). */
  function OrBit(w: nat, k: nat): nat {
    if k == 0 then w + 1 - w % 2 else 2 * OrBit(w / 2, k - 1) + w % 2
  }

  /** OrBit sets bit k, leaves every other bit alone and does not widen the word. */
  lemma {:induction false} OrBitSets(w: nat, k: nat, j: nat, width: nat)
    requires w < Pow2(width) && k < width
    ensures Bit(OrBit(w, k), j) <==> Bit(w, j) || j == k
    ensures OrBit(w, k) < Pow2(width)
    decreases width
  {
    if k > 0 {
      OrBitSets(w / 2, k - 1, if j == 0 then 0 else j - 1, width - 1);
      assert OrBit(w, k) / 2 == OrBit(w / 2, k - 1);
    } else if j > 0 {
      assert OrBit(w, k) / 2 == w / 2;
    }
  }

  lemma {:induction false} ZeroHasNoBits(k: nat)
    ensures !Bit(0, k)
  {
    if k > 0 {
      ZeroHasNoBits(k - 1);
    }
  }

  /** A word is known by its bits. */
  lemma {:induction false} SameBits(w: nat, v: nat, width: nat)
    requires w < Pow2(width) && v < Pow2(width)
    requires forall k: nat :: k < width ==> (Bit(w, k) <==> Bit(v, k))
    ensures w == v
    decreases width
  {
    if width > 0 {
      assert Bit(w, 0) <==> Bit(v, 0);
      forall k: nat | k < width - 1 ensures Bit(w / 2, k) <==> Bit(v / 2, k) {
        assert Bit(w, k + 1) <==> Bit(v, k + 1);
      }
      SameBits(w / 2, v / 2, width - 1);
    }
  }

  lemma WordWidth()
    ensures Pow2(32) == 0x1_0000_0000
  {
    assert Pow2(8) == 0x100;
    assert Pow2(16) == 0x1_0000;
    assert Pow2(24) == 0x100_0000;
  }

  // ---------------------------------------------------------------- packing

  function DwordsForBits(count: u16): u16 {
    (count + 31) / 32 % 0x1_0000
  }

  /** The DWORD count is the ceiling of count / 32, for every 16-bit count. */
  lemma DwordsExact(count: u16)
    ensures count <= 32 * DwordsForBits(count) < count + 32
  {
  }

  predicate BitAt(words: seq<u32>, i: nat)
    requires i < 32 * |words|
  {
    Bit(words[i / 32], i % 32)
  }

  /** words hold the first n BOOLs of the input, and zeros from there to the end. */
  ghost predicate Holds(words: seq<u32>, input: seq<byte>, n: nat)
    requires n <= |input|
  {
    forall i: nat :: i < 32 * |words| ==> (BitAt(words, i) <==> i < n && input[i] != 0)
  }

  ghost predicate Packs(words: seq<u32>, input: seq<byte>, count: u16)
    requires count <= |input|
  {
    |words| == DwordsForBits(count) && Holds(words, input, count)
  }

  /** dwords[i >> 5] |= 1 << (i & 31): bit i of the whole run is set, and only that one. */
  lemma SetsOneBit(words: seq<u32>, i: nat, w: u32)
    requires i < 32 * |words| && w == OrBit(words[i / 32], i % 32)
    ensures forall j: nat :: j < 32 * |words| ==>
              (BitAt(words[i / 32 := w], j) <==> BitAt(words, j) || j == i)
  {
    WordWidth();
    forall j: nat | j < 32 * |words|
      ensures BitAt(words[i / 32 := w], j) <==> BitAt(words, j) || j == i
    {
      OrBitSets(words[i / 32], i % 32, j % 32, 32);
      assert j / 32 == i / 32 && j % 32 == i % 32 ==> j == i;
    }
  }

  lemma HoldsNext(words: seq<u32>, input: seq<byte>, i: nat, w: u32)
    requires i < |input| && i < 32 * |words| && Holds(words, input, i)
    requires w == if input[i] != 0 then OrBit(words[i / 32], i % 32) else words[i / 32]
    ensures Holds(words[i / 32 := w], input, i + 1)
  {
    if input[i] != 0 {
      SetsOneBit(words, i, w);
    } else {
      assert words[i / 32 := w] == words;
    }
  }

  lemma NothingHeld(words: seq<u32>, input: seq<byte>)
    requires forall k :: 0 <= k < |words| ==> words[k] == 0
    ensures Holds(words, input, 0)
  {
    forall i: nat | i < 32 * |words| ensures !BitAt(words, i) {
      ZeroHasNoBits(i % 32);
    }
  }

  method Pack(input: seq<byte>, count: u16) returns (dwords: array<u32>)
    requires count <= |input|
    ensures fresh(dwords) && Packs(dwords[..], input, count)
  {
    dwords := new u32[DwordsForBits(count)](_ => 0);
    NothingHeld(dwords[..], input);
    DwordsExact(count);
    for i := 0 to count
      invariant Holds(dwords[..], input, i)
    {
      ghost var before := dwords[..];
      if input[i] != 0 {
        WordWidth();
        OrBitSets(dwords[i / 32], i % 32, 0, 32);
        dwords[i / 32] := OrBit(dwords[i / 32], i % 32);
      }
      assert dwords[..] == before[i / 32 := dwords[i / 32]];
      HoldsNext(before, input, i, dwords[i / 32]);
    }
  }

  function Flag(b: bool): byte { if b then 1 else 0 }

  method Unpack(dwords: seq<u32>, out: array<byte>, count: u16)
    requires |dwords| == DwordsForBits(count) && count <= out.Length
    modifies out
    ensures forall i :: 0 <= i < out.Length ==>
              out[i] == if i < count then Flag(BitAt(dwords, i)) else old(out[i])
  {
    for i := 0 to count
      invariant forall j :: 0 <= j < out.Length ==>
                  out[j] == if j < i then Flag(BitAt(dwords, j)) else old(out[j])
    {
      out[i] := Flag(Bit(dwords[i / 32], i % 32));
    }
  }

  // ---------------------------------------------------------------- the two calls

  /** How bp_tagdb_access ends: its return code and the request's own result word. */
  datatype Ending = Ending(rc: int, result: u32)

  /** bp_tagdb_write_bool_array: the status, and the DWORDs put into the write request if one was made. */
  method WriteBoolArray(input: Option<seq<byte>>, count: u16, ending: Ending)
    returns (status: int, sent: Option<seq<u32>>)
    requires input.Some? ==> count <= |input.value|
    ensures input.None? || count == 0 <==> sent.None?
    ensures sent.None? ==> status == BP_ERR_NULL_ARG
    ensures sent.Some? ==> Packs(sent.value, input.value, count)
    ensures sent.Some? ==>
              status == if ending.rc == BP_OK && ending.result != 0 then BP_ERR_GENERIC else ending.rc
  {
    if input.None? || count == 0 {
      return BP_ERR_NULL_ARG, None;
    }
    var dwords := Pack(input.value, count);
    sent := Some(dwords[..]);
    status := if ending.rc != BP_OK then ending.rc else if ending.result != 0 then BP_ERR_GENERIC else BP_OK;
  }

  /** bp_tagdb_read_bool_array, dwords being what the read request's buffer holds at the end. */
  method ReadBoolArray(out: array?<byte>, count: u16, ending: Ending, dwords: seq<u32>) returns (status: int)
    requires |dwords| == DwordsForBits(count) && (out != null ==> count <= out.Length)
    modifies out
    ensures out == null || count == 0 ==> status == BP_ERR_NULL_ARG
    ensures out != null && count != 0 ==>
              status == if ending.rc == BP_OK && ending.result != 0 then BP_ERR_GENERIC else ending.rc
    ensures out != null ==> forall i :: 0 <= i < out.Length ==>
              out[i] == if status == BP_OK && i < count then Flag(BitAt(dwords, i)) else old(out[i])
  {
    if out == null || count == 0 {
      return BP_ERR_NULL_ARG;
    }
    if ending.rc != BP_OK || ending.result != 0 {
      return if ending.rc != BP_OK then ending.rc else BP_ERR_GENERIC;
    }
    Unpack(dwords, out, count);
    status := BP_OK;
  }

  // ---------------------------------------------------------------- what the two calls promise together

  function Unpacked(words: seq<u32>, count: u16): (out: seq<byte>)
    requires |words| == DwordsForBits(count)
    ensures |out| == count && forall i :: 0 <= i < count ==> out[i] == Flag(BitAt(words, i))
  {
    DwordsExact(count);
    seq(count, i requires 0 <= i < count => Flag(BitAt(words, i)))
  }

  /** Reading back what was written gives the array normalised to 0 and 1. */
  lemma WriteThenRead(words: seq<u32>, input: seq<byte>, count: u16)
    requires count <= |input| && Packs(words, input, count)
    ensures Unpacked(words, count) == seq(count, i requires 0 <= i < count => Flag(input[i] != 0))
  {
    DwordsExact(count);
    forall i | 0 <= i < count ensures Unpacked(words, count)[i] == Flag(input[i] != 0) {
      assert BitAt(words, i) <==> input[i] != 0;
    }
  }

  /** Packs leaves no freedom: the DWORDs are determined by the BOOLs, padding bits included. */
  lemma PacksUnique(a: seq<u32>, b: seq<u32>, input: seq<byte>, other: seq<byte>, count: u16)
    requires count <= |input| && count <= |other| && Packs(a, input, count) && Packs(b, other, count)
    ensures a == b <==> forall i :: 0 <= i < count ==> (input[i] != 0 <==> other[i] != 0)
  {
    DwordsExact(count);
    if forall i :: 0 <= i < count ==> (input[i] != 0 <==> other[i] != 0) {
      forall k | 0 <= k < |a| ensures a[k] == b[k] {
        WordWidth();
        forall j: nat | j < 32 ensures Bit(a[k], j) <==> Bit(b[k], j) {
          assert BitAt(a, 32 * k + j) <==> BitAt(b, 32 * k + j);
        }
        SameBits(a[k], b[k], 32);
      }
    } else {
      var i :| 0 <= i < count && !(input[i] != 0 <==> other[i] != 0);
      assert BitAt(a, i) != BitAt(b, i);
    }
  }

  /** Writing back what was read restores the DWORDs exactly when their bits past count are zero. */
  lemma ReadThenWrite(words: seq<u32>, again: seq<u32>, count: u16)
    requires |words| == DwordsForBits(count) && Packs(again, Unpacked(words, count), count)
    ensures again == words <==> forall i: nat :: count <= i < 32 * |words| ==> !BitAt(words, i)
  {
    if forall i: nat :: count <= i < 32 * |words| ==> !BitAt(words, i) {
      assert Packs(words, Unpacked(words, count), count);
      PacksUnique(again, words, Unpacked(words, count), Unpacked(words, count), count);
    }
  }
}
