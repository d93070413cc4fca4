/** Batched tag access, c/src/access.c and c/src/accessdb.c: two layouts of one batch in a slot. */
module BatchLayout {
  import opened Common
  import opened Bytes

  const SLOT_STRIDE: nat := 0x4B000
  const PAYLOAD_START: nat := 0x78
  const MAX_BATCH := 16
  const ACTION_READ := 1
  const ACTION_WRITE := 2
  const MAX_NAME: nat := 254

  /** One tag request; data is the caller's buffer, if it passed one. */
  datatype Request = Request(
    name: seq<byte>, dataType: u16, elemSize: u16, action: u16, count: u16, data: Option<seq<byte>>, result: u32)
  {
    function Size(): nat { elemSize * count }

    predicate Wellformed() {
      0 !in name && (data.Some? ==> |data.value| >= Size())
    }

    /** The bytes a write sends: what the buffer begins with, or zeros if there is no buffer. */
    function Payload(): (b: seq<byte>)
      ensures |b| == Size()
    {
      if data.Some? && |data.value| >= Size() then data.value[..Size()] else Zeros(Size())
    }

    /** The name as sent: at most 254 bytes of it. */
    function Sent(): (n: seq<byte>)
      ensures |n| <= MAX_NAME && (0 !in name ==> 0 !in n)
    {
      if |name| > MAX_NAME then name[..MAX_NAME] else name
    }

    predicate Carries() { action == ACTION_WRITE && data.Some? }
  }

  /** AccessTagData names the database by path, AccessTagDataDb by handle. */
  datatype Database = ByPath(path: seq<byte>) | ByHandle(handle: u32)

  /** Where the bytes each file writes before the first descriptor end. */
  function HeaderEnd(db: Database): nat { if db.ByPath? then 0x17C else 0x88 }

  function Stride(db: Database): nat { if db.ByPath? then 0x120 else 0x128 }

  function ResultOffset(db: Database): nat { if db.ByPath? then 0x118 else 0x120 }

  function DescAt(db: Database, i: nat): nat {
    if db.ByPath? then 0x180 + i * 0x120 else 0x88 + i * 0x128
  }

  /** Where the data area begins, in the two forms the source writes it. */
  function DataArea(db: Database, count: nat): nat
    requires count > 0
  {
    if db.ByPath? then 0x2A0 + (count - 1) * 0x120 else 0x1B0 + (count - 1) * 0x128
  }

  function SizeBefore(reqs: seq<Request>, i: nat): nat
    requires i <= |reqs|
  {
    if i == 0 then 0 else SizeBefore(reqs, i - 1) + reqs[i - 1].Size()
  }

  function DataAt(db: Database, reqs: seq<Request>, i: nat): nat
    requires i <= |reqs| && reqs != []
  {
    DataArea(db, |reqs|) + SizeBefore(reqs, i)
  }

  // ---------------------------------------------------------------- the size check

  datatype Verdict = Accepted(payloadSize: u32) | NullArg | ParamRange | SlotTooLarge

  const WORD: nat := 0x1_0000_0000

  /** bp_tagdb_access and bp_tagdb_access_db before the call: the total is a 32-bit sum. */
  method Check(db: Database, reqs: seq<Request>) returns (v: Verdict)
    ensures v.NullArg? <==> reqs == []
    ensures v.ParamRange? <==> |reqs| > MAX_BATCH
    ensures 0 < |reqs| <= MAX_BATCH ==>
      var size := DataAt(db, reqs, |reqs|) % WORD;
      v == if size > SLOT_STRIDE - 0x80 then SlotTooLarge else Accepted(size)
  {
    if reqs == [] {
      return NullArg;
    }
    if |reqs| > MAX_BATCH {
      return ParamRange;
    }
    var total: u32 := 0;
    for i := 0 to |reqs|
      invariant total == SizeBefore(reqs, i) % WORD
    {
      AddWraps(SizeBefore(reqs, i), reqs[i].Size());
      total := (total + reqs[i].Size()) % WORD;
    }
    AddWraps(SizeBefore(reqs, |reqs|), DataArea(db, |reqs|));
    var size := (DataArea(db, |reqs|) + total) % WORD;
    return if size > SLOT_STRIDE - 0x80 then SlotTooLarge else Accepted(size);
  }

  lemma AddWraps(a: nat, b: nat)
    ensures (a % WORD + b) % WORD == (a + b) % WORD
  {
  }

  ghost predicate Fits(db: Database, reqs: seq<Request>)
    requires reqs != []
  {
    DataAt(db, reqs, |reqs|) <= SLOT_STRIDE
  }

  /** A batch that passes the check lies inside the slot exactly when its true size is a 32-bit number. */
  lemma CheckedBatchFits(db: Database, reqs: seq<Request>)
    requires 0 < |reqs| <= MAX_BATCH && DataAt(db, reqs, |reqs|) % WORD <= SLOT_STRIDE - 0x80
    ensures Fits(db, reqs) <==> DataAt(db, reqs, |reqs|) < WORD
  {
    var size := DataAt(db, reqs, |reqs|);
    if size < WORD {
      assert size % WORD == size;
    }
  }

  /** Without that condition the check passes a batch whose size wrapped: here 4 GiB in three requests. */
  lemma WrappedTotalPasses(db: Database)
    ensures var half := Request([], 0, 0x8000, ACTION_READ, 0xFFFF, None, 0);
            var rest := Request([], 0, 0x100, ACTION_READ, 0x100, None, 0);
            var reqs := [half, half, rest];
            DataAt(db, reqs, 3) % WORD <= SLOT_STRIDE - 0x80 && !Fits(db, reqs)
  {
    var half := Request([], 0, 0x8000, ACTION_READ, 0xFFFF, None, 0);
    var rest := Request([], 0, 0x100, ACTION_READ, 0x100, None, 0);
    var reqs := [half, half, rest];
    assert SizeBefore(reqs, 1) == 0x7FFF_8000;
    assert SizeBefore(reqs, 2) == 0xFFFF_0000;
    assert SizeBefore(reqs, 3) == WORD;
    AddWraps(WORD, DataArea(db, 3));
  }

  lemma {:induction false} SizesGrow(reqs: seq<Request>, i: nat, j: nat)
    requires i <= j <= |reqs|
    ensures SizeBefore(reqs, i) <= SizeBefore(reqs, j)
    ensures i < j ==> SizeBefore(reqs, i) + reqs[i].Size() <= SizeBefore(reqs, j)
    decreases j
  {
    if i < j {
      SizesGrow(reqs, i, j - 1);
    }
  }

  datatype Region = Header | Desc(i: nat) | Data(i: nat)

  predicate IsRegion(reqs: seq<Request>, r: Region) {
    match r
    case Header => true
    case Desc(i) => i < |reqs|
    case Data(i) => i < |reqs|
  }

  function Start(db: Database, reqs: seq<Request>, r: Region): nat
    requires reqs != [] && IsRegion(reqs, r)
  {
    match r
    case Header => PAYLOAD_START
    case Desc(i) => DescAt(db, i)
    case Data(i) => DataAt(db, reqs, i)
  }

  function End(db: Database, reqs: seq<Request>, r: Region): nat
    requires reqs != [] && IsRegion(reqs, r)
  {
    match r
    case Header => HeaderEnd(db)
    case Desc(i) => DescAt(db, i) + Stride(db)
    case Data(i) => DataAt(db, reqs, i) + reqs[i].Size()
  }

  /** Header, descriptors and data areas never overlap, and a batch that fits keeps all in the slot. */
  lemma RegionsApart(db: Database, reqs: seq<Request>, r: Region, q: Region)
    requires reqs != [] && IsRegion(reqs, r) && IsRegion(reqs, q)
    ensures r != q ==> End(db, reqs, r) <= Start(db, reqs, q) || End(db, reqs, q) <= Start(db, reqs, r)
    ensures Fits(db, reqs) ==> End(db, reqs, r) <= SLOT_STRIDE
    ensures PAYLOAD_START <= Start(db, reqs, r) <= End(db, reqs, r)
  {
    if r.Data? {
      SizesGrow(reqs, r.i, |reqs|);
    }
    if r.Data? && q.Data? {
      SizesGrow(reqs, if r.i < q.i then r.i else q.i, if r.i < q.i then q.i else r.i);
    }
  }

  // ---------------------------------------------------------------- filling

  /** The descriptor block: zeroed, then the name, then the fields, in the order each file writes them. */
  function Descriptor(db: Database, r: Request): (d: seq<byte>)
    ensures |d| == Stride(db)
  {
    var named := Splice(Zeros(Stride(db)), 0, r.Sent());
    if db.ByPath? then
      Splice(Splice(Splice(Splice(named, 0x100, Le16(r.dataType)), 0x102, Le16(r.elemSize)),
                    0x104, Le16(r.action)), 0x106, Le16(r.count))
    else
      Splice(Splice(Splice(Splice(named, 0x100, Le16(r.action)), 0x104, Le32(r.dataType)),
                    0x108, Le32(r.elemSize)), 0x10C, Le32(r.count))
  }

  /** What is written from +0x78 on before the first descriptor. */
  function HeaderBlock(db: Database, count: u16): (h: seq<byte>)
    ensures |h| == HeaderEnd(db) - PAYLOAD_START
  {
    match db
    case ByPath(path) =>
      var kept := if |path| > MAX_NAME then path[..MAX_NAME] else path;
      Splice(Splice(Zeros(0x104), 0, kept), 0x102, Le16(count))
    case ByHandle(handle) => Splice(Splice(Zeros(0x10), 0, Le32(handle)), 0x8, Le16(count))
  }

  /** A batch the calls let through, with buffers at least as large as the sizes announced. */
  ghost predicate Sendable(db: Database, reqs: seq<Request>) {
    0 < |reqs| <= MAX_BATCH && Fits(db, reqs) && forall i :: 0 <= i < |reqs| ==> reqs[i].Wellformed()
  }

  lemma InSlot(db: Database, reqs: seq<Request>, i: nat)
    requires Sendable(db, reqs) && i < |reqs|
    ensures DescAt(db, i) + Stride(db) <= SLOT_STRIDE && DataAt(db, reqs, i) + reqs[i].Size() <= SLOT_STRIDE
  {
    RegionsApart(db, reqs, Desc(i), Data(i));
    RegionsApart(db, reqs, Data(i), Desc(i));
  }

  /** The slot after request i has been added to it. */
  ghost function FilledOne(s: seq<byte>, db: Database, reqs: seq<Request>, i: nat): (t: seq<byte>)
    requires Sendable(db, reqs) && i < |reqs| && |s| == SLOT_STRIDE
    ensures |t| == SLOT_STRIDE
  {
    InSlot(db, reqs, i);
    var d := Splice(s, DescAt(db, i), Descriptor(db, reqs[i]));
    if reqs[i].Carries() then Splice(d, DataAt(db, reqs, i), reqs[i].Payload()) else d
  }

  /** The slot after the header and the first i requests have been filled in. */
  ghost function Filled(s: seq<byte>, db: Database, reqs: seq<Request>, i: nat): (t: seq<byte>)
    requires Sendable(db, reqs) && i <= |reqs| && |s| == SLOT_STRIDE
    ensures |t| == SLOT_STRIDE
  {
    if i == 0 then Splice(s, PAYLOAD_START, HeaderBlock(db, |reqs|))
    else FilledOne(Filled(s, db, reqs, i - 1), db, reqs, i - 1)
  }

  method PutDescriptor(slot: array<byte>, db: Database, at: nat, r: Request)
    requires at + Stride(db) <= slot.Length && r.Wellformed()
    modifies slot
    ensures slot[..] == Splice(old(slot[..]), at, Descriptor(db, r))
  {
    ghost var s := slot[..];
    ghost var d := Zeros(Stride(db));
    Put(slot, at, Zeros(Stride(db)));
    d := PutInside(slot, s, at, d, 0, r.Sent());
    if db.ByPath? {
      d := PutInside(slot, s, at, d, 0x100, Le16(r.dataType));
      d := PutInside(slot, s, at, d, 0x102, Le16(r.elemSize));
      d := PutInside(slot, s, at, d, 0x104, Le16(r.action));
      d := PutInside(slot, s, at, d, 0x106, Le16(r.count));
    } else {
      d := PutInside(slot, s, at, d, 0x100, Le16(r.action));
      d := PutInside(slot, s, at, d, 0x104, Le32(r.dataType));
      d := PutInside(slot, s, at, d, 0x108, Le32(r.elemSize));
      d := PutInside(slot, s, at, d, 0x10C, Le32(r.count));
    }
  }

  /** Store a field of the block d that already sits at at. */
  method PutInside(slot: array<byte>, ghost s: seq<byte>, at: nat, ghost d: seq<byte>, k: nat, b: seq<byte>)
    returns (ghost d': seq<byte>)
    requires at + |d| <= slot.Length == |s| && k + |b| <= |d| && slot[..] == Splice(s, at, d)
    modifies slot
    ensures d' == Splice(d, k, b) && slot[..] == Splice(s, at, d')
  {
    Put(slot, at + k, b);
    SpliceInside(s, at, d, k, b);
    d' := Splice(d, k, b);
  }

  /** The body of the loop in access_fill and accessdb_fill. */
  method FillOne(slot: array<byte>, db: Database, ghost reqs: seq<Request>, i: nat, r: Request, dataOff: nat)
    returns (next: nat)
    requires slot.Length == SLOT_STRIDE && Sendable(db, reqs) && i < |reqs|
    requires r == reqs[i] && dataOff == DataAt(db, reqs, i)
    modifies slot
    ensures slot[..] == FilledOne(old(slot[..]), db, reqs, i) && next == DataAt(db, reqs, i + 1)
  {
    InSlot(db, reqs, i);
    PutDescriptor(slot, db, DescAt(db, i), r);
    if r.Carries() {
      Put(slot, dataOff, r.Payload());
    }
    next := dataOff + r.Size();
  }

  /** access_fill and accessdb_fill. */
  method Fill(slot: array<byte>, db: Database, reqs: seq<Request>)
    requires slot.Length == SLOT_STRIDE && Sendable(db, reqs)
    modifies slot
    ensures slot[..] == Filled(old(slot[..]), db, reqs, |reqs|)
  {
    Put(slot, PAYLOAD_START, HeaderBlock(db, |reqs|));
    var dataOff := DataArea(db, |reqs|);
    for i := 0 to |reqs|
      invariant dataOff == DataAt(db, reqs, i)
      invariant slot[..] == Filled(old(slot[..]), db, reqs, i)
    {
      dataOff := FillOne(slot, db, reqs, i, reqs[i], dataOff);
    }
  }

  // ---------------------------------------------------------------- what the server reads

  datatype Seen = Seen(name: seq<byte>, dataType: u32, elemSize: u32, action: u16, count: u32)
  {
    function Size(): nat { elemSize * count }
  }

  function SeenDescriptor(db: Database, d: seq<byte>): Seen
    requires |d| == Stride(db)
  {
    if db.ByPath? then
      Seen(CString(d, 0, 0x100), LoadU16(d, 0x100), LoadU16(d, 0x102), LoadU16(d, 0x104), LoadU16(d, 0x106))
    else
      Seen(CString(d, 0, 0x100), LoadU32(d, 0x104), LoadU32(d, 0x108), LoadU16(d, 0x100), LoadU32(d, 0x10C))
  }

  /** A request as the server understands it: its fields, and the bytes to write if it is a write. */
  datatype Understood = Understood(seen: Seen, bytes: seq<byte>)

  /** One descriptor and, for a write, the bytes of its data area, unless that would leave the slot. */
  function DecodeOne(db: Database, s: seq<byte>, i: nat, dataOff: nat): Option<Understood>
    requires |s| == SLOT_STRIDE && i < MAX_BATCH
  {
    var seen := SeenDescriptor(db, s[DescAt(db, i)..DescAt(db, i) + Stride(db)]);
    if dataOff + seen.Size() > SLOT_STRIDE then None
    else Some(Understood(seen, if seen.action == ACTION_WRITE then s[dataOff..dataOff + seen.Size()] else []))
  }

  type Reader = (nat, nat) -> Option<Understood>

  /** Reading descriptors i to count - 1, adding up the sizes they announce to find each data area. */
  function Walk(read: Reader, i: nat, count: nat, dataOff: nat): Option<seq<Understood>>
    requires i <= count
    decreases count - i
  {
    if i == count then Some([])
    else match read(i, dataOff)
      case None => None
      case Some(u) =>
        match Walk(read, i + 1, count, dataOff + u.seen.Size())
        case None => None
        case Some(rest) => Some([u] + rest)
  }

  function ReaderOf(db: Database, s: seq<byte>): Reader
    requires |s| == SLOT_STRIDE
  {
    (i: nat, off: nat) => if i < MAX_BATCH then DecodeOne(db, s, i, off) else None
  }

  /** The batch a server finds in the slot. */
  function Decode(db: Database, s: seq<byte>, count: nat, dataOff: nat): Option<seq<Understood>>
    requires |s| == SLOT_STRIDE && count <= MAX_BATCH
  {
    Walk(ReaderOf(db, s), 0, count, dataOff)
  }

  function SentCount(db: Database, s: seq<byte>): nat
    requires |s| == SLOT_STRIDE
  {
    if db.ByPath? then LoadU16(s, 0x17A) else LoadU16(s, 0x80)
  }

  /** What a request means, whichever layout carried it.  A write without a buffer sends the zeros
      bp_client_call left in the payload. */
  function Meaning(r: Request): Understood {
    Understood(Seen(r.Sent(), r.dataType, r.elemSize, r.action, r.count),
               if r.action == ACTION_WRITE then r.Payload() else [])
  }

  function Meanings(reqs: seq<Request>): (us: seq<Understood>)
    ensures |us| == |reqs| && forall k :: 0 <= k < |reqs| ==> us[k] == Meaning(reqs[k])
  {
    seq(|reqs|, k requires 0 <= k < |reqs| => Meaning(reqs[k]))
  }

  lemma NameInBlock(n: nat, name: seq<byte>)
    requires 0 !in name && |name| < 0x100 <= n
    ensures CString(Splice(Zeros(n), 0, name), 0, 0x100) == name
  {
    var d := Splice(Zeros(n), 0, name);
    SpliceHit(Zeros(n), 0, name);
    CStringAt(d, 0, 0x100, name);
  }

  lemma PathDescriptorReads(db: Database, r: Request)
    requires r.Wellformed() && db.ByPath?
    ensures SeenDescriptor(db, Descriptor(db, r)) == Meaning(r).seen
  {
    var d0 := Splice(Zeros(0x120), 0, r.Sent());
    var d1 := Splice(d0, 0x100, Le16(r.dataType));
    var d2 := Splice(d1, 0x102, Le16(r.elemSize));
    var d3 := Splice(d2, 0x104, Le16(r.action));
    NameInBlock(0x120, r.Sent());
    CStringMiss(d0, 0x100, Le16(r.dataType), 0, 0x100);
    CStringMiss(d1, 0x102, Le16(r.elemSize), 0, 0x100);
    CStringMiss(d2, 0x104, Le16(r.action), 0, 0x100);
    CStringMiss(d3, 0x106, Le16(r.count), 0, 0x100);
    Load16Hit(d0, 0x100, r.dataType);
    Load16Miss(d1, 0x102, Le16(r.elemSize), 0x100);
    Load16Miss(d2, 0x104, Le16(r.action), 0x100);
    Load16Miss(d3, 0x106, Le16(r.count), 0x100);
    Load16Hit(d1, 0x102, r.elemSize);
    Load16Miss(d2, 0x104, Le16(r.action), 0x102);
    Load16Miss(d3, 0x106, Le16(r.count), 0x102);
    Load16Hit(d2, 0x104, r.action);
    Load16Miss(d3, 0x106, Le16(r.count), 0x104);
    Load16Hit(d3, 0x106, r.count);
  }

  lemma HandleDescriptorReads(db: Database, r: Request)
    requires r.Wellformed() && db.ByHandle?
    ensures SeenDescriptor(db, Descriptor(db, r)) == Meaning(r).seen
  {
    var d0 := Splice(Zeros(0x128), 0, r.Sent());
    var d1 := Splice(d0, 0x100, Le16(r.action));
    var d2 := Splice(d1, 0x104, Le32(r.dataType));
    var d3 := Splice(d2, 0x108, Le32(r.elemSize));
    NameInBlock(0x128, r.Sent());
    CStringMiss(d0, 0x100, Le16(r.action), 0, 0x100);
    CStringMiss(d1, 0x104, Le32(r.dataType), 0, 0x100);
    CStringMiss(d2, 0x108, Le32(r.elemSize), 0, 0x100);
    CStringMiss(d3, 0x10C, Le32(r.count), 0, 0x100);
    Load16Hit(d0, 0x100, r.action);
    Load16Miss(d1, 0x104, Le32(r.dataType), 0x100);
    Load16Miss(d2, 0x108, Le32(r.elemSize), 0x100);
    Load16Miss(d3, 0x10C, Le32(r.count), 0x100);
    Load32Hit(d1, 0x104, r.dataType);
    Load32Miss(d2, 0x108, Le32(r.elemSize), 0x104);
    Load32Miss(d3, 0x10C, Le32(r.count), 0x104);
    Load32Hit(d2, 0x108, r.elemSize);
    Load32Miss(d3, 0x10C, Le32(r.count), 0x108);
    Load32Hit(d3, 0x10C, r.count);
  }

  lemma DescriptorReads(db: Database, r: Request)
    requires r.Wellformed()
    ensures SeenDescriptor(db, Descriptor(db, r)) == Meaning(r).seen
  {
    if db.ByPath? {
      PathDescriptorReads(db, r);
    } else {
      HandleDescriptorReads(db, r);
    }
  }

  // ---------------------------------------------------------------- round trip

  ghost function At(s: seq<byte>, db: Database, reqs: seq<Request>, r: Region): seq<byte>
    requires Sendable(db, reqs) && IsRegion(reqs, r) && |s| == SLOT_STRIDE
  {
    RegionsApart(db, reqs, r, r);
    s[Start(db, reqs, r)..End(db, reqs, r)]
  }

  /** What filling in request i puts at its own regions. */
  lemma OneStored(s: seq<byte>, db: Database, reqs: seq<Request>, i: nat)
    requires Sendable(db, reqs) && i < |reqs| && |s| == SLOT_STRIDE
    ensures At(FilledOne(s, db, reqs, i), db, reqs, Desc(i)) == Descriptor(db, reqs[i])
    ensures At(FilledOne(s, db, reqs, i), db, reqs, Data(i)) ==
            if reqs[i].Carries() then reqs[i].Payload() else At(s, db, reqs, Data(i))
  {
    InSlot(db, reqs, i);
    RegionsApart(db, reqs, Desc(i), Data(i));
    var at, off, n := DescAt(db, i), DataAt(db, reqs, i), reqs[i].Size();
    var d := Splice(s, at, Descriptor(db, reqs[i]));
    SpliceHit(s, at, Descriptor(db, reqs[i]));
    SpliceMiss(s, at, Descriptor(db, reqs[i]), off, off + n);
    if reqs[i].Carries() {
      SpliceHit(d, off, reqs[i].Payload());
      SpliceMiss(d, off, reqs[i].Payload(), at, at + Stride(db));
    }
  }

  /** Filling in request i leaves every other region alone. */
  lemma OthersUntouched(s: seq<byte>, db: Database, reqs: seq<Request>, i: nat, r: Region)
    requires Sendable(db, reqs) && i < |reqs| && |s| == SLOT_STRIDE
    requires IsRegion(reqs, r) && r != Desc(i) && r != Data(i)
    ensures At(FilledOne(s, db, reqs, i), db, reqs, r) == At(s, db, reqs, r)
  {
    InSlot(db, reqs, i);
    RegionsApart(db, reqs, r, Desc(i));
    RegionsApart(db, reqs, r, Data(i));
    var lo, hi := Start(db, reqs, r), End(db, reqs, r);
    var d := Splice(s, DescAt(db, i), Descriptor(db, reqs[i]));
    SpliceMiss(s, DescAt(db, i), Descriptor(db, reqs[i]), lo, hi);
    if reqs[i].Carries() {
      SpliceMiss(d, DataAt(db, reqs, i), reqs[i].Payload(), lo, hi);
    }
  }

  /** What a region of the slot holds before anything but the header is filled in. */
  lemma HeaderStored(s: seq<byte>, db: Database, reqs: seq<Request>, r: Region)
    requires Sendable(db, reqs) && |s| == SLOT_STRIDE && IsRegion(reqs, r)
    ensures At(Filled(s, db, reqs, 0), db, reqs, r) ==
            if r.Header? then HeaderBlock(db, |reqs|) else At(s, db, reqs, r)
  {
    RegionsApart(db, reqs, r, Header);
    var h := HeaderBlock(db, |reqs|);
    if r.Header? {
      SpliceHit(s, PAYLOAD_START, h);
    } else {
      SpliceMiss(s, PAYLOAD_START, h, Start(db, reqs, r), End(db, reqs, r));
    }
  }

  /** A region after request i went in, if it held prev before. */
  ghost function Stored(db: Database, reqs: seq<Request>, i: nat, r: Region, prev: seq<byte>): seq<byte>
    requires i < |reqs| && reqs[i].Wellformed()
  {
    if r == Desc(i) then Descriptor(db, reqs[i])
    else if r == Data(i) && reqs[i].Carries() then reqs[i].Payload()
    else prev
  }

  lemma RegionStep(before: seq<byte>, db: Database, reqs: seq<Request>, i: nat, r: Region)
    requires Sendable(db, reqs) && i < |reqs| && |before| == SLOT_STRIDE && IsRegion(reqs, r)
    ensures At(FilledOne(before, db, reqs, i), db, reqs, r) == Stored(db, reqs, i, r, At(before, db, reqs, r))
  {
    if r == Desc(i) || r == Data(i) {
      OneStored(before, db, reqs, i);
    } else {
      OthersUntouched(before, db, reqs, i, r);
    }
  }

  ghost function Expected(s: seq<byte>, db: Database, reqs: seq<Request>, n: nat, r: Region): seq<byte>
    requires Sendable(db, reqs) && n <= |reqs| && |s| == SLOT_STRIDE && IsRegion(reqs, r)
  {
    if n == 0 then if r.Header? then HeaderBlock(db, |reqs|) else At(s, db, reqs, r)
    else Stored(db, reqs, n - 1, r, Expected(s, db, reqs, n - 1, r))
  }

  /** What each region holds once the first n requests are in. */
  lemma {:induction false} RegionAfter(s: seq<byte>, db: Database, reqs: seq<Request>, n: nat, r: Region)
    requires Sendable(db, reqs) && n <= |reqs| && |s| == SLOT_STRIDE && IsRegion(reqs, r)
    ensures At(Filled(s, db, reqs, n), db, reqs, r) == Expected(s, db, reqs, n, r)
  {
    if n == 0 {
      HeaderStored(s, db, reqs, r);
    } else {
      RegionAfter(s, db, reqs, n - 1, r);
      RegionStep(Filled(s, db, reqs, n - 1), db, reqs, n - 1, r);
    }
  }

  /** Later requests do not undo an earlier one. */
  lemma {:induction false} ExpectedIs(s: seq<byte>, db: Database, reqs: seq<Request>, n: nat, r: Region)
    requires Sendable(db, reqs) && n <= |reqs| && |s| == SLOT_STRIDE && IsRegion(reqs, r)
    ensures r.Header? ==> Expected(s, db, reqs, n, r) == HeaderBlock(db, |reqs|)
    ensures r.Desc? && r.i < n ==> Expected(s, db, reqs, n, r) == Descriptor(db, reqs[r.i])
    ensures r.Data? ==>
              Expected(s, db, reqs, n, r) ==
              if r.i < n && reqs[r.i].Carries() then reqs[r.i].Payload() else At(s, db, reqs, r)
  {
    if n > 0 {
      ExpectedIs(s, db, reqs, n - 1, r);
    }
  }

  /** The payload of a slot as bp_client_call hands it to the fill function. */
  ghost predicate Cleared(s: seq<byte>) {
    |s| == SLOT_STRIDE && forall k :: PAYLOAD_START <= k < SLOT_STRIDE ==> s[k] == 0
  }

  /** A slot that carries every descriptor and every write of the batch. */
  ghost predicate Carrying(t: seq<byte>, db: Database, reqs: seq<Request>, i: nat)
    requires Sendable(db, reqs) && |t| == SLOT_STRIDE && i < |reqs|
  {
    && At(t, db, reqs, Desc(i)) == Descriptor(db, reqs[i])
    && (reqs[i].action == ACTION_WRITE ==> At(t, db, reqs, Data(i)) == Meaning(reqs[i]).bytes)
  }

  lemma ClearedBelow(s: seq<byte>, lo: nat, hi: nat)
    requires Cleared(s) && PAYLOAD_START <= lo <= hi <= SLOT_STRIDE
    ensures s[lo..hi] == Zeros(hi - lo)
  {
  }

  lemma DataCarried(s: seq<byte>, db: Database, reqs: seq<Request>, i: nat)
    requires Sendable(db, reqs) && Cleared(s) && i < |reqs| && reqs[i].action == ACTION_WRITE
    ensures At(Filled(s, db, reqs, |reqs|), db, reqs, Data(i)) == Meaning(reqs[i]).bytes
  {
    RegionAfter(s, db, reqs, |reqs|, Data(i));
    ExpectedIs(s, db, reqs, |reqs|, Data(i));
    RegionsApart(db, reqs, Data(i), Header);
    ClearedBelow(s, Start(db, reqs, Data(i)), End(db, reqs, Data(i)));
  }

  lemma FilledCarries(s: seq<byte>, db: Database, reqs: seq<Request>, i: nat)
    requires Sendable(db, reqs) && Cleared(s) && i < |reqs|
    ensures Carrying(Filled(s, db, reqs, |reqs|), db, reqs, i)
  {
    RegionAfter(s, db, reqs, |reqs|, Desc(i));
    ExpectedIs(s, db, reqs, |reqs|, Desc(i));
    if reqs[i].action == ACTION_WRITE {
      DataCarried(s, db, reqs, i);
    }
  }

  lemma MeaningShape(r: Request)
    ensures Meaning(r).seen.Size() == r.Size() && Meaning(r).seen.action == r.action
    ensures r.action != ACTION_WRITE ==> Meaning(r).bytes == []
  {
  }

  lemma DecodesSlice(t: seq<byte>, db: Database, i: nat, off: nat, u: Understood)
    requires |t| == SLOT_STRIDE && i < MAX_BATCH && off + u.seen.Size() <= SLOT_STRIDE
    requires SeenDescriptor(db, t[DescAt(db, i)..DescAt(db, i) + Stride(db)]) == u.seen
    requires u.bytes == if u.seen.action == ACTION_WRITE then t[off..off + u.seen.Size()] else []
    ensures DecodeOne(db, t, i, off) == Some(u)
  {
  }

  lemma DecodesBlock(t: seq<byte>, db: Database, i: nat, off: nat, r: Request)
    requires |t| == SLOT_STRIDE && i < MAX_BATCH && off + r.Size() <= SLOT_STRIDE && r.Wellformed()
    requires t[DescAt(db, i)..DescAt(db, i) + Stride(db)] == Descriptor(db, r)
    requires r.action == ACTION_WRITE ==> t[off..off + r.Size()] == Meaning(r).bytes
    ensures DecodeOne(db, t, i, off) == Some(Meaning(r)) && Meaning(r).seen.Size() == r.Size()
  {
    DescriptorReads(db, r);
    MeaningShape(r);
    DecodesSlice(t, db, i, off, Meaning(r));
  }

  lemma DecodesOne(t: seq<byte>, db: Database, reqs: seq<Request>, i: nat)
    requires Sendable(db, reqs) && |t| == SLOT_STRIDE && i < |reqs| && Carrying(t, db, reqs, i)
    ensures DecodeOne(db, t, i, DataAt(db, reqs, i)) == Some(Meaning(reqs[i]))
    ensures Meaning(reqs[i]).seen.Size() == reqs[i].Size()
  {
    InSlot(db, reqs, i);
    DecodesBlock(t, db, i, DataAt(db, reqs, i), reqs[i]);
  }

  /** The walk, once every stop of it is known. */
  lemma {:induction false} WalkFinds(read: Reader, us: seq<Understood>, offs: seq<nat>, i: nat)
    requires i <= |us| && |offs| == |us| + 1
    requires forall k :: 0 <= k < |us| ==> read(k, offs[k]) == Some(us[k])
    requires forall k :: 0 <= k < |us| ==> offs[k + 1] == offs[k] + us[k].seen.Size()
    ensures Walk(read, i, |us|, offs[i]) == Some(us[i..])
    decreases |us| - i
  {
    if i < |us| {
      WalkFinds(read, us, offs, i + 1);
      assert us[i..] == [us[i]] + us[i + 1..];
    } else {
      assert us[i..] == [];
    }
  }

  lemma CountReads(s: seq<byte>, db: Database, reqs: seq<Request>)
    requires Sendable(db, reqs) && Cleared(s)
    ensures SentCount(db, Filled(s, db, reqs, |reqs|)) == |reqs|
  {
    var t := Filled(s, db, reqs, |reqs|);
    RegionAfter(s, db, reqs, |reqs|, Header);
    ExpectedIs(s, db, reqs, |reqs|, Header);
    var h := t[PAYLOAD_START..HeaderEnd(db)];
    match db
    case ByPath(path) =>
      var kept := if |path| > MAX_NAME then path[..MAX_NAME] else path;
      Load16Hit(Splice(Zeros(0x104), 0, kept), 0x102, |reqs|);
      assert t[0x17A] == h[0x102] && t[0x17B] == h[0x103];
    case ByHandle(handle) =>
      Load16Hit(Splice(Zeros(0x10), 0, Le32(handle)), 0x8, |reqs|);
      assert t[0x80] == h[0x8] && t[0x81] == h[0x9];
  }

  function Offsets(db: Database, reqs: seq<Request>): (offs: seq<nat>)
    requires reqs != []
    ensures |offs| == |reqs| + 1 && offs[0] == DataArea(db, |reqs|)
    ensures forall k :: 0 <= k <= |reqs| ==> offs[k] == DataAt(db, reqs, k)
  {
    seq(|reqs| + 1, k requires 0 <= k <= |reqs| => DataAt(db, reqs, k))
  }

  lemma FilledDecodesAt(s: seq<byte>, db: Database, reqs: seq<Request>, k: nat)
    requires Sendable(db, reqs) && Cleared(s) && k < |reqs|
    ensures DecodeOne(db, Filled(s, db, reqs, |reqs|), k, DataAt(db, reqs, k)) == Some(Meaning(reqs[k]))
    ensures DataAt(db, reqs, k + 1) == DataAt(db, reqs, k) + Meaning(reqs[k]).seen.Size()
  {
    FilledCarries(s, db, reqs, k);
    DecodesOne(Filled(s, db, reqs, |reqs|), db, reqs, k);
  }

  lemma FilledDecodes(s: seq<byte>, db: Database, reqs: seq<Request>)
    requires Sendable(db, reqs) && Cleared(s)
    ensures Decode(db, Filled(s, db, reqs, |reqs|), |reqs|, DataArea(db, |reqs|)) == Some(Meanings(reqs))
  {
    var us, offs := Meanings(reqs), Offsets(db, reqs);
    var read := ReaderOf(db, Filled(s, db, reqs, |reqs|));
    forall k | 0 <= k < |us| ensures read(k, offs[k]) == Some(us[k]) && offs[k + 1] == offs[k] + us[k].seen.Size() {
      FilledDecodesAt(s, db, reqs, k);
    }
    WalkFinds(read, us, offs, 0);
    assert us[0..] == us;
  }

  /** The database the server is pointed to: the path as far as it is sent, or the handle. */
  lemma DatabaseReads(s: seq<byte>, db: Database, reqs: seq<Request>)
    requires Sendable(db, reqs) && Cleared(s) && (db.ByPath? ==> 0 !in db.path)
    ensures var h := Filled(s, db, reqs, |reqs|)[PAYLOAD_START..HeaderEnd(db)];
      match db
      case ByPath(path) => CString(h, 0, 0x100) == if |path| > MAX_NAME then path[..MAX_NAME] else path
      case ByHandle(handle) => LoadU32(h, 0) == handle
  {
    RegionAfter(s, db, reqs, |reqs|, Header);
    ExpectedIs(s, db, reqs, |reqs|, Header);
    HeaderReads(db, |reqs|);
  }

  lemma HeaderReads(db: Database, count: u16)
    requires db.ByPath? ==> 0 !in db.path
    ensures match db
      case ByPath(path) =>
        CString(HeaderBlock(db, count), 0, 0x100) == if |path| > MAX_NAME then path[..MAX_NAME] else path
      case ByHandle(handle) => LoadU32(HeaderBlock(db, count), 0) == handle
  {
    match db
    case ByPath(path) =>
      var kept := if |path| > MAX_NAME then path[..MAX_NAME] else path;
      NameInBlock(0x104, kept);
      CStringMiss(Splice(Zeros(0x104), 0, kept), 0x102, Le16(count), 0, 0x100);
    case ByHandle(handle) =>
      Load32Hit(Zeros(0x10), 0, handle);
      Load32Miss(Splice(Zeros(0x10), 0, Le32(handle)), 0x8, Le16(count), 0);
  }

  /** A server that reads the count, walks the descriptors and follows the announced sizes recovers
      exactly the batch that was sent, with every write's own bytes. */
  lemma BatchRoundTrip(s: seq<byte>, db: Database, reqs: seq<Request>)
    requires Sendable(db, reqs) && Cleared(s)
    ensures var t := Filled(s, db, reqs, |reqs|);
      && SentCount(db, t) == |reqs|
      && Decode(db, t, |reqs|, DataArea(db, |reqs|)) == Some(Meanings(reqs))
  {
    CountReads(s, db, reqs);
    FilledDecodes(s, db, reqs);
  }

  /** The two layouts carry the same batch. */
  lemma LayoutsAgree(s: seq<byte>, path: seq<byte>, handle: u32, reqs: seq<Request>)
    requires Cleared(s) && Sendable(ByPath(path), reqs) && Sendable(ByHandle(handle), reqs)
    ensures var p, h := ByPath(path), ByHandle(handle);
      Decode(p, Filled(s, p, reqs, |reqs|), |reqs|, DataArea(p, |reqs|)) ==
      Decode(h, Filled(s, h, reqs, |reqs|), |reqs|, DataArea(h, |reqs|))
  {
    BatchRoundTrip(s, ByPath(path), reqs);
    BatchRoundTrip(s, ByHandle(handle), reqs);
  }

  // ---------------------------------------------------------------- reading the reply

  /** The server answers request i: a result word in its descriptor and, for a read, data in its area. */
  datatype Reply = Reply(result: u32, data: seq<byte>)

  ghost predicate Replies(reqs: seq<Request>, rs: seq<Reply>) {
    |rs| == |reqs| && forall i :: 0 <= i < |reqs| ==> |rs[i].data| == reqs[i].Size()
  }

  ghost predicate HoldsReply(s: seq<byte>, db: Database, reqs: seq<Request>, i: nat, reply: Reply)
    requires Sendable(db, reqs) && i < |reqs| && |reply.data| == reqs[i].Size() && |s| == SLOT_STRIDE
  {
    && LoadU32(At(s, db, reqs, Desc(i)), ResultOffset(db)) == reply.result
    && (reqs[i].action == ACTION_READ ==> At(s, db, reqs, Data(i)) == reply.data)
  }

  /** The slot holds the replies to every request of the batch. */
  ghost predicate Answered(s: seq<byte>, db: Database, reqs: seq<Request>, rs: seq<Reply>)
    requires Sendable(db, reqs) && Replies(reqs, rs) && |s| == SLOT_STRIDE
  {
    forall i :: 0 <= i < |reqs| ==> HoldsReply(s, db, reqs, i, rs[i])
  }

  ghost function ServedOne(s: seq<byte>, db: Database, reqs: seq<Request>, i: nat, reply: Reply): (t: seq<byte>)
    requires Sendable(db, reqs) && |s| == SLOT_STRIDE && i < |reqs| && |reply.data| == reqs[i].Size()
    ensures |t| == SLOT_STRIDE
  {
    InSlot(db, reqs, i);
    var d := Splice(s, DescAt(db, i) + ResultOffset(db), Le32(reply.result));
    if reqs[i].action == ACTION_READ then Splice(d, DataAt(db, reqs, i), reply.data) else d
  }

  /** The server writing the replies one after the other, in the regions the layout assigns. */
  ghost function Served(s: seq<byte>, db: Database, reqs: seq<Request>, rs: seq<Reply>, i: nat): (t: seq<byte>)
    requires Sendable(db, reqs) && Replies(reqs, rs) && |s| == SLOT_STRIDE && i <= |reqs|
    ensures |t| == SLOT_STRIDE
  {
    if i == 0 then s else ServedOne(Served(s, db, reqs, rs, i - 1), db, reqs, i - 1, rs[i - 1])
  }

  lemma ServeOwn(s: seq<byte>, db: Database, reqs: seq<Request>, i: nat, reply: Reply)
    requires Sendable(db, reqs) && |s| == SLOT_STRIDE && i < |reqs| && |reply.data| == reqs[i].Size()
    ensures HoldsReply(ServedOne(s, db, reqs, i, reply), db, reqs, i, reply)
  {
    InSlot(db, reqs, i);
    RegionsApart(db, reqs, Desc(i), Data(i));
    var at, off := DescAt(db, i), DataAt(db, reqs, i);
    var d := Splice(s, at + ResultOffset(db), Le32(reply.result));
    var t := ServedOne(s, db, reqs, i, reply);
    Load32Hit(s, at + ResultOffset(db), reply.result);
    if reqs[i].action == ACTION_READ {
      SpliceHit(d, off, reply.data);
      Load32Miss(d, off, reply.data, at + ResultOffset(db));
    }
    Load32Within(t, at, at + Stride(db), ResultOffset(db));
  }

  lemma ServeOther(s: seq<byte>, db: Database, reqs: seq<Request>, i: nat, reply: Reply, r: Region)
    requires Sendable(db, reqs) && |s| == SLOT_STRIDE && i < |reqs| && |reply.data| == reqs[i].Size()
    requires IsRegion(reqs, r) && r != Desc(i) && r != Data(i)
    ensures At(ServedOne(s, db, reqs, i, reply), db, reqs, r) == At(s, db, reqs, r)
  {
    InSlot(db, reqs, i);
    RegionsApart(db, reqs, r, Desc(i));
    RegionsApart(db, reqs, r, Data(i));
    var lo, hi := Start(db, reqs, r), End(db, reqs, r);
    var d := Splice(s, DescAt(db, i) + ResultOffset(db), Le32(reply.result));
    SpliceMiss(s, DescAt(db, i) + ResultOffset(db), Le32(reply.result), lo, hi);
    if reqs[i].action == ACTION_READ {
      SpliceMiss(d, DataAt(db, reqs, i), reply.data, lo, hi);
    }
  }

  lemma {:induction false} ServedAnswers(s: seq<byte>, db: Database, reqs: seq<Request>, rs: seq<Reply>, i: nat, k: nat)
    requires Sendable(db, reqs) && Replies(reqs, rs) && |s| == SLOT_STRIDE && k < i <= |reqs|
    ensures HoldsReply(Served(s, db, reqs, rs, i), db, reqs, k, rs[k])
  {
    var before := Served(s, db, reqs, rs, i - 1);
    if k < i - 1 {
      ServedAnswers(s, db, reqs, rs, i - 1, k);
      ServeOther(before, db, reqs, i - 1, rs[i - 1], Desc(k));
      ServeOther(before, db, reqs, i - 1, rs[i - 1], Data(k));
    } else {
      ServeOwn(before, db, reqs, k, rs[k]);
    }
  }

  /** The request after its reply was read back; a buffer longer than announced keeps its end. */
  function WithReply(r: Request, reply: Reply): Request {
    r.(result := reply.result,
       data := if r.action == ACTION_READ && r.data.Some? && |r.data.value| >= |reply.data|
               then Some(reply.data + r.data.value[|reply.data|..]) else r.data)
  }

  /** The body of the loop in access_read and accessdb_read. */
  method ReadOne(slot: seq<byte>, db: Database, ghost reqs: seq<Request>, ghost reply: Reply,
                 i: nat, r: Request, dataOff: nat) returns (r': Request, next: nat)
    requires |slot| == SLOT_STRIDE && Sendable(db, reqs) && i < |reqs| && r == reqs[i]
    requires |reply.data| == r.Size() && HoldsReply(slot, db, reqs, i, reply) && dataOff == DataAt(db, reqs, i)
    ensures r' == WithReply(r, reply) && next == DataAt(db, reqs, i + 1)
  {
    next := dataOff + r.Size();
    InSlot(db, reqs, i);
    var at := DescAt(db, i);
    assert At(slot, db, reqs, Desc(i)) == slot[at..at + Stride(db)];
    r' := r.(result := LoadU32(slot[at..at + Stride(db)], ResultOffset(db)));
    if r.action == ACTION_READ && r.data.Some? {
      assert slot[dataOff..dataOff + r.Size()] == At(slot, db, reqs, Data(i));
      r' := r'.(data := Some(slot[dataOff..dataOff + r.Size()] + r.data.value[r.Size()..]));
    }
  }

  /** access_read and accessdb_read: each request gets its own result and its own data. */
  method Read(slot: seq<byte>, db: Database, reqs: array<Request>, ghost rs: seq<Reply>)
    requires |slot| == SLOT_STRIDE && Sendable(db, reqs[..]) && Replies(reqs[..], rs)
    requires Answered(slot, db, reqs[..], rs)
    modifies reqs
    ensures forall i :: 0 <= i < reqs.Length ==> reqs[i] == WithReply(old(reqs[i]), rs[i])
  {
    ghost var sent := reqs[..];
    var dataOff := DataArea(db, reqs.Length);
    for i := 0 to reqs.Length
      invariant dataOff == DataAt(db, sent, i)
      invariant forall k :: 0 <= k < reqs.Length ==> reqs[k] == if k < i then WithReply(sent[k], rs[k]) else sent[k]
    {
      assert HoldsReply(slot, db, sent, i, rs[i]);
      var r;
      r, dataOff := ReadOne(slot, db, sent, rs[i], i, reqs[i], dataOff);
      reqs[i] := r;
    }
  }

  /** Whatever the server replies and however the slot looked before, the readers find a slot that
      answers the batch. */
  lemma ServedSlotIsAnswered(s: seq<byte>, db: Database, reqs: seq<Request>, rs: seq<Reply>)
    requires Sendable(db, reqs) && Replies(reqs, rs) && |s| == SLOT_STRIDE
    ensures Answered(Served(s, db, reqs, rs, |reqs|), db, reqs, rs)
  {
    forall k | 0 <= k < |reqs|
      ensures HoldsReply(Served(s, db, reqs, rs, |reqs|), db, reqs, k, rs[k])
    {
      ServedAnswers(s, db, reqs, rs, |reqs|, k);
    }
  }
}
