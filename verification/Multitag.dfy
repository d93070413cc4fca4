/** go/ocxbp/multitag.go: ReadTags and WriteTags over the symbol cache, in chunks of sixteen. */
module Multitag {
  import opened Common
  import opened Scalars
  import opened BatchLayout

  const CHUNK: nat := 16

  datatype Name = Name(text: seq<byte>)

  // ---------------------------------------------------------------- symbols

  datatype SymbolInfo = SymbolInfo(dataType: u16, elemSize: u32, dim0: nat, structType: nat)

  /** What LookupSymbol answers for each name. */
  type Lookup = Name -> Option<SymbolInfo>

  /** The kind of a name that is a scalar symbol, or None for everything the two calls reject. */
  function KindOf(lookup: Lookup, n: Name): (k: Option<Kind>)
    ensures k.Some? ==> lookup(n).Some? && k.value != KindNone && lookup(n).value.elemSize == Width(k.value)
  {
    match lookup(n)
    case None => None
    case Some(info) =>
      if info.dim0 != 0 || info.structType != 0 then None
      else
        KindFitsSize(info.dataType, info.elemSize);
        var k := KindForAtomic(info.dataType, info.elemSize);
        if k == KindNone then None else Some(k)
  }

  // ---------------------------------------------------------------- the PLC

  /** Tag memory, and the CIP status the PLC answers a request for a name with: 0 to serve it. */
  datatype Plc = Plc(mem: map<Name, seq<byte>>, status: (Name, u16) -> u32)

  /** The PLC serves only tags it has, and they are as wide as their symbols say. */
  ghost predicate Agrees(plc: Plc, lookup: Lookup) {
    forall n: Name, a: u16 :: plc.status(n, a) == 0 ==>
      n in plc.mem && forall k :: KindOf(lookup, n) == Some(k) ==> |plc.mem[n]| == Width(k)
  }

  function Serve(plc: Plc, r: Request): (Plc, Request) {
    var n := Name(r.name);
    var status := plc.status(n, r.action);
    if status != 0 || n !in plc.mem then (plc, r.(result := status))
    else if r.action == ACTION_WRITE && r.data.Some? then
      (plc.(mem := plc.mem[n := r.data.value]), r.(result := 0))
    else (plc, r.(result := 0, data := Some(plc.mem[n])))
  }

  /** The PLC after it has served the first k requests of an Access call, in order. */
  function ServeFirst(plc: Plc, reqs: seq<Request>, k: nat): Plc
    requires k <= |reqs|
  {
    if k == 0 then plc else Serve(ServeFirst(plc, reqs, k - 1), reqs[k - 1]).0
  }

  /** One Access call: the PLC afterwards, and the requests as the call hands them back. */
  function Access(plc: Plc, reqs: seq<Request>): (r: (Plc, seq<Request>))
    ensures |r.1| == |reqs|
  {
    (ServeFirst(plc, reqs, |reqs|),
     seq(|reqs|, k requires 0 <= k < |reqs| => Serve(ServeFirst(plc, reqs, k), reqs[k]).1))
  }

  /** An Access call that fails: which one, and how many of its requests the PLC served all the same. */
  datatype Failure = Failure(call: nat, served: nat)

  datatype Outcome = Fine | ParamRange(bad: Name) | CallFailed | TagsFailed(names: seq<Name>)

  type Maker = Name -> Request

  /** reqs are the requests for the names from start on. */
  ghost predicate IsChunk(make: Maker, names: seq<Name>, start: nat, reqs: seq<Request>) {
    && start + |reqs| <= |names|
    && forall j :: 0 <= j < |reqs| ==> reqs[j] == make(names[start + j])
  }

  /** Which Access calls are made for the names: sixteen in each, and what is left in the last. */
  ghost predicate Chunked(make: Maker, names: seq<Name>, calls: seq<seq<Request>>) {
    forall c :: 0 <= c < |calls| ==>
      && CHUNK * c < |names| && IsChunk(make, names, CHUNK * c, calls[c])
      && |calls[c]| == Min(CHUNK, |names| - CHUNK * c)
  }

  function Min(a: nat, b: nat): (m: nat) { if a < b then a else b }

  function Flatten(cs: seq<seq<Request>>): seq<Request> {
    if cs == [] then [] else Flatten(cs[..|cs| - 1]) + cs[|cs| - 1]
  }

  /** Laid end to end, the calls hold the request of each name up to where they got, once and in order;
      no call is empty or holds more than sixteen. */
  lemma {:induction false} ChunksPartition(make: Maker, names: seq<Name>, calls: seq<seq<Request>>)
    requires Chunked(make, names, calls)
    ensures |Flatten(calls)| == Min(CHUNK * |calls|, |names|)
    ensures forall i :: 0 <= i < |Flatten(calls)| ==> Flatten(calls)[i] == make(names[i])
    ensures forall c :: 0 <= c < |calls| ==> 1 <= |calls[c]| <= CHUNK
    ensures CHUNK * |calls| >= |names| ==> |calls| == (|names| + CHUNK - 1) / CHUNK
  {
    if calls != [] {
      var c := |calls| - 1;
      ChunksPartition(make, names, calls[..c]);
      assert IsChunk(make, names, CHUNK * c, calls[c]) && |calls[c]| == Min(CHUNK, |names| - CHUNK * c);
    }
  }

  lemma ChunkedNext(make: Maker, names: seq<Name>, calls: seq<seq<Request>>, reqs: seq<Request>)
    requires Chunked(make, names, calls) && CHUNK * |calls| < |names|
    requires IsChunk(make, names, CHUNK * |calls|, reqs) && |reqs| == Min(CHUNK, |names| - CHUNK * |calls|)
    ensures Chunked(make, names, calls + [reqs])
  {
  }

  method BuildChunk(make: Maker, names: seq<Name>, start: nat, end: nat) returns (reqs: seq<Request>)
    requires start <= end <= |names|
    ensures |reqs| == end - start && IsChunk(make, names, start, reqs)
  {
    reqs := [];
    for j := 0 to end - start
      invariant |reqs| == j && IsChunk(make, names, start, reqs)
    {
      reqs := reqs + [make(names[start + j])];
    }
  }

  lemma {:induction false} ScalarsAreSmall(reqs: seq<Request>, i: nat)
    requires i <= |reqs| && forall k :: 0 <= k < |reqs| ==> reqs[k].Size() <= 8
    ensures SizeBefore(reqs, i) <= 8 * i
  {
    if i > 0 {
      ScalarsAreSmall(reqs, i - 1);
    }
  }

  /** Every call passes the count and size limits of an Access call, by path or by handle, so that
      BatchLayout.Check accepts it. */
  ghost predicate WithinLimits(calls: seq<seq<Request>>) {
    forall c, db :: 0 <= c < |calls| ==>
      1 <= |calls[c]| <= MAX_BATCH && DataAt(db, calls[c], |calls[c]|) <= SLOT_STRIDE - 0x80
  }

  /** Requests for scalars never run into those limits. */
  lemma ScalarChunksAreAccepted(make: Maker, names: seq<Name>, calls: seq<seq<Request>>)
    requires Chunked(make, names, calls)
    requires forall i :: 0 <= i < |names| ==> make(names[i]).Size() <= 8
    ensures WithinLimits(calls)
  {
    forall c, db | 0 <= c < |calls|
      ensures 1 <= |calls[c]| <= MAX_BATCH && DataAt(db, calls[c], |calls[c]|) <= SLOT_STRIDE - 0x80
    {
      assert IsChunk(make, names, CHUNK * c, calls[c]) && |calls[c]| == Min(CHUNK, |names| - CHUNK * c);
      ScalarsAreSmall(calls[c], |calls[c]|);
    }
  }

  /** And such a call is accepted by the check itself, in either layout. */
  method CheckAccepts(db: Database, ghost calls: seq<seq<Request>>, reqs: seq<Request>) returns (v: Verdict)
    requires WithinLimits(calls) && reqs in calls
    ensures v.Accepted?
  {
    ghost var c :| 0 <= c < |calls| && calls[c] == reqs;
    assert DataAt(db, calls[c], |calls[c]|) <= SLOT_STRIDE - 0x80;
    v := Check(db, reqs);
  }

  /** The names answered with a nonzero status among the first k, in order. */
  function Failing(status: Name -> u32, names: seq<Name>, k: nat): seq<Name>
    requires k <= |names|
  {
    if k == 0 then []
    else Failing(status, names, k - 1) + if status(names[k - 1]) != 0 then [names[k - 1]] else []
  }

  function Statuses(plc: Plc, action: u16): Name -> u32 {
    n => plc.status(n, action)
  }

  // ---------------------------------------------------------------- ReadTags

  datatype ReadResult = ReadResult(value: Option<Value>, status: u32)

  function ReadRequest(lookup: Lookup, n: Name): Request
    requires KindOf(lookup, n).Some?
  {
    var info := lookup(n).value;
    Request(n.text, info.dataType, info.elemSize, ACTION_READ, 1, Some(Zeros(info.elemSize)), 0)
  }

  /** r has what decoding the reply to a read of n takes. */
  predicate Usable(lookup: Lookup, n: Name, r: Request) {
    KindOf(lookup, n).Some? && r.data.Some? && (r.result == 0 ==> |r.data.value| == Width(KindOf(lookup, n).value))
  }

  function ResultOf(lookup: Lookup, n: Name, r: Request): ReadResult
    requires Usable(lookup, n, r)
  {
    if r.result == 0 then ReadResult(DecodeScalar(KindOf(lookup, n).value, r.data.value), 0)
    else ReadResult(None, r.result)
  }

  lemma ReadServed(plc: Plc, lookup: Lookup, n: Name)
    requires Agrees(plc, lookup) && KindOf(lookup, n).Some?
    ensures var (p, r) := Serve(plc, ReadRequest(lookup, n));
      p == plc && Usable(lookup, n, r) && r.result == plc.status(n, ACTION_READ)
  {
  }

  /** The result of reading one tag by itself, in an Access call of its own. */
  function SingleRead(plc: Plc, lookup: Lookup, n: Name): ReadResult
    requires Agrees(plc, lookup) && KindOf(lookup, n).Some?
  {
    ReadServed(plc, lookup, n);
    var replies := Access(plc, [ReadRequest(lookup, n)]).1;
    assert replies[0] == Serve(plc, ReadRequest(lookup, n)).1;
    ResultOf(lookup, n, replies[0])
  }

  ghost predicate AllScalars(lookup: Lookup, names: seq<Name>) {
    forall i :: 0 <= i < |names| ==> KindOf(lookup, names[i]).Some?
  }

  function Reads(lookup: Lookup): Maker {
    n => if KindOf(lookup, n).Some? then ReadRequest(lookup, n) else Request(n.text, 0, 0, ACTION_READ, 0, None, 0)
  }

  /** Every scalar with the result of its single read. */
  ghost function SingleReads(plc: Plc, lookup: Lookup): Name -> ReadResult
    requires Agrees(plc, lookup)
  {
    n => if KindOf(lookup, n).Some? then SingleRead(plc, lookup, n) else ReadResult(None, 0)
  }

  /** The map that storing the results of the first k names leaves. */
  function Recorded(single: Name -> ReadResult, names: seq<Name>, k: nat): map<Name, ReadResult>
    requires k <= |names|
  {
    if k == 0 then map[] else Recorded(single, names, k - 1)[names[k - 1] := single(names[k - 1])]
  }

  /** out holds each of the first k names and nothing else, with the result of a single read. */
  ghost predicate ReadsAll(single: Name -> ReadResult, names: seq<Name>, k: nat, out: map<Name, ReadResult>)
    requires k <= |names|
  {
    && (forall i :: 0 <= i < k ==> names[i] in out)
    && forall n :: n in out ==> out[n] == single(n) && exists i :: 0 <= i < k && names[i] == n
  }

  lemma {:induction false} RecordedIs(single: Name -> ReadResult, names: seq<Name>, k: nat)
    requires k <= |names|
    ensures ReadsAll(single, names, k, Recorded(single, names, k))
  {
    if k > 0 {
      RecordedIs(single, names, k - 1);
    }
  }

  /** Reads leave the PLC as it was. */
  lemma {:induction false} ReadsChangeNothing(plc: Plc, reqs: seq<Request>, k: nat)
    requires k <= |reqs| && forall j :: 0 <= j < |reqs| ==> reqs[j].action == ACTION_READ
    ensures ServeFirst(plc, reqs, k) == plc
  {
    if k > 0 {
      ReadsChangeNothing(plc, reqs, k - 1);
    }
  }

  /** Each request of a batch of reads is answered as if it were alone. */
  lemma BatchedRead(plc: Plc, lookup: Lookup, n: Name, reqs: seq<Request>, j: nat)
    requires Agrees(plc, lookup) && KindOf(lookup, n).Some?
    requires j < |reqs| && reqs[j] == ReadRequest(lookup, n)
    requires forall j :: 0 <= j < |reqs| ==> reqs[j].action == ACTION_READ
    ensures var r := Access(plc, reqs).1[j];
      && Usable(lookup, n, r) && ResultOf(lookup, n, r) == SingleReads(plc, lookup)(n)
      && r.result == Statuses(plc, ACTION_READ)(n)
  {
    ReadsChangeNothing(plc, reqs, j);
    ReadServed(plc, lookup, n);
  }

  /** The replies to the reads of names[start..], each one as a read of its own would have it. */
  ghost predicate Answered(lookup: Lookup, names: seq<Name>, start: nat, replies: seq<Request>,
                           single: Name -> ReadResult, status: Name -> u32)
    requires start + |replies| <= |names|
  {
    forall j :: 0 <= j < |replies| ==>
      && Usable(lookup, names[start + j], replies[j])
      && ResultOf(lookup, names[start + j], replies[j]) == single(names[start + j])
      && replies[j].result == status(names[start + j])
  }

  type Caller = seq<Request> -> seq<Request>

  /** Every Access call on a part of the batch answers that part. */
  ghost predicate Answers(access: Caller, make: Maker, lookup: Lookup, names: seq<Name>,
                          single: Name -> ReadResult, status: Name -> u32)
  {
    forall start, reqs :: IsChunk(make, names, start, reqs) ==>
      |access(reqs)| == |reqs| && Answered(lookup, names, start, access(reqs), single, status)
  }

  function CallOn(plc: Plc): Caller {
    reqs => Access(plc, reqs).1
  }

  lemma PlcAnswersPart(plc: Plc, lookup: Lookup, names: seq<Name>, start: nat, reqs: seq<Request>)
    requires Agrees(plc, lookup) && AllScalars(lookup, names) && IsChunk(Reads(lookup), names, start, reqs)
    ensures Answered(lookup, names, start, Access(plc, reqs).1, SingleReads(plc, lookup), Statuses(plc, ACTION_READ))
  {
    var single, status, replies := SingleReads(plc, lookup), Statuses(plc, ACTION_READ), Access(plc, reqs).1;
    forall j | 0 <= j < |reqs|
      ensures Usable(lookup, names[start + j], replies[j])
      ensures ResultOf(lookup, names[start + j], replies[j]) == single(names[start + j])
      ensures replies[j].result == status(names[start + j])
    {
      BatchedRead(plc, lookup, names[start + j], reqs, j);
    }
  }

  lemma PlcAnswers(plc: Plc, lookup: Lookup, names: seq<Name>)
    requires Agrees(plc, lookup) && AllScalars(lookup, names)
    ensures Answers(CallOn(plc), Reads(lookup), lookup, names, SingleReads(plc, lookup), Statuses(plc, ACTION_READ))
  {
    forall start, reqs | IsChunk(Reads(lookup), names, start, reqs)
      ensures |CallOn(plc)(reqs)| == |reqs|
      ensures Answered(lookup, names, start, CallOn(plc)(reqs), SingleReads(plc, lookup), Statuses(plc, ACTION_READ))
    {
      PlcAnswersPart(plc, lookup, names, start, reqs);
    }
  }

  /** The loop that decodes and stores the replies of one call. */
  method StoreReads(lookup: Lookup, names: seq<Name>, start: nat, replies: seq<Request>,
                    ghost single: Name -> ReadResult, ghost status: Name -> u32,
                    out: map<Name, ReadResult>, failed: seq<Name>)
    returns (out': map<Name, ReadResult>, failed': seq<Name>)
    requires start + |replies| <= |names| && Answered(lookup, names, start, replies, single, status)
    requires out == Recorded(single, names, start) && failed == Failing(status, names, start)
    ensures out' == Recorded(single, names, start + |replies|)
    ensures failed' == Failing(status, names, start + |replies|)
  {
    out', failed' := out, failed;
    for j := 0 to |replies|
      invariant out' == Recorded(single, names, start + j)
      invariant failed' == Failing(status, names, start + j)
    {
      out' := out'[names[start + j] := ResultOf(lookup, names[start + j], replies[j])];
      if replies[j].result != 0 {
        failed' := failed' + [names[start + j]];
      }
    }
  }

  /** The second half of ReadTags, once every name is known to be a scalar. */
  method ReadChunks(lookup: Lookup, make: Maker, access: Caller, names: seq<Name>, failure: Option<Failure>,
                    ghost single: Name -> ReadResult, ghost status: Name -> u32)
    returns (out: map<Name, ReadResult>, end: Outcome, calls: seq<seq<Request>>)
    requires Answers(access, make, lookup, names, single, status)
    ensures !end.ParamRange? && (end.CallFailed? <==> failure.Some? && CHUNK * failure.value.call < |names|)
    ensures Chunked(make, names, calls)
    ensures end.CallFailed? ==>
              |calls| == failure.value.call + 1 && out == Recorded(single, names, CHUNK * failure.value.call)
    ensures end.Fine? || end.TagsFailed? ==>
              && CHUNK * |calls| >= |names|
              && out == Recorded(single, names, |names|)
              && (if end.Fine? then [] else end.names) == Failing(status, names, |names|)
    ensures end.TagsFailed? ==> end.names != []
  {
    out, calls := map[], [];
    var failed := [];
    var start := 0;
    ghost var done := 0;
    while start < |names|
      invariant done == Min(start, |names|)
      invariant start == CHUNK * |calls| && Chunked(make, names, calls)
      invariant failure.Some? ==> |calls| <= failure.value.call
      invariant out == Recorded(single, names, done) && failed == Failing(status, names, done)
    {
      var end := Min(start + CHUNK, |names|);
      var reqs := BuildChunk(make, names, start, end);
      ChunkedNext(make, names, calls, reqs);
      calls := calls + [reqs];
      if failure.Some? && failure.value.call == |calls| - 1 {
        return out, CallFailed, calls;
      }
      var replies := access(reqs);
      assert |replies| == end - start && Answered(lookup, names, start, replies, single, status);
      out, failed := StoreReads(lookup, names, start, replies, single, status, out, failed);
      start := start + CHUNK;
      done := end;
    }
    end := if failed != [] then TagsFailed(failed) else Fine;
  }

  lemma ReadsAreSmall(lookup: Lookup, names: seq<Name>)
    requires AllScalars(lookup, names)
    ensures forall i :: 0 <= i < |names| ==> Reads(lookup)(names[i]).Size() <= 8
  {
  }

  /** ReadTags over a PLC whose memory nobody else changes; failure says whether an Access call fails. */
  method ReadTags(lookup: Lookup, plc: Plc, names: seq<Name>, failure: Option<Failure>)
    returns (out: map<Name, ReadResult>, end: Outcome, calls: seq<seq<Request>>)
    requires Agrees(plc, lookup)
    ensures end.ParamRange? <==> !AllScalars(lookup, names)
    ensures end.ParamRange? ==>
              && out == map[] && calls == []
              && exists i :: 0 <= i < |names| && end.bad == names[i] && KindOf(lookup, names[i]).None?
                             && AllScalars(lookup, names[..i])
    ensures WithinLimits(calls)
    ensures !end.ParamRange? ==>
              && Chunked(Reads(lookup), names, calls)
              && (end.CallFailed? <==> failure.Some? && CHUNK * failure.value.call < |names|)
    ensures end.CallFailed? ==>
              && |calls| == failure.value.call + 1
              && ReadsAll(SingleReads(plc, lookup), names, CHUNK * failure.value.call, out)
    ensures end.Fine? || end.TagsFailed? ==>
              && CHUNK * |calls| >= |names|
              && ReadsAll(SingleReads(plc, lookup), names, |names|, out)
              && (if end.Fine? then [] else end.names) == Failing(Statuses(plc, ACTION_READ), names, |names|)
    ensures end.TagsFailed? ==> end.names != []
  {
    for i := 0 to |names|
      invariant AllScalars(lookup, names[..i])
    {
      if KindOf(lookup, names[i]).None? {
        return map[], Outcome.ParamRange(names[i]), [];
      }
    }
    assert names[..|names|] == names;
    PlcAnswers(plc, lookup, names);
    out, end, calls :=
      ReadChunks(lookup, Reads(lookup), CallOn(plc), names, failure,
                 SingleReads(plc, lookup), Statuses(plc, ACTION_READ));
    ReadsAreSmall(lookup, names);
    ScalarChunksAreAccepted(Reads(lookup), names, calls);
    RecordedIs(SingleReads(plc, lookup), names, if end.CallFailed? then CHUNK * failure.value.call else |names|);
  }

  // ---------------------------------------------------------------- WriteTags

  type Encoding = Name -> seq<byte>

  /** The bytes a value becomes in the tag of that name, or None for everything WriteTags rejects. */
  function Encoded(fl: Floats, lookup: Lookup, values: map<Name, Value>, n: Name): Option<seq<byte>> {
    match KindOf(lookup, n)
    case None => None
    case Some(k) => if n in values then EncodeForKind(fl, k, values[n]) else None
  }

  function Encodings(fl: Floats, lookup: Lookup, values: map<Name, Value>): Encoding {
    n => match Encoded(fl, lookup, values, n) case Some(b) => b case None => []
  }

  function WriteRequest(info: SymbolInfo, n: Name, b: seq<byte>): Request {
    Request(n.text, info.dataType, info.elemSize % 0x1_0000, ACTION_WRITE, 1, Some(b), 0)
  }

  function Writes(fl: Floats, lookup: Lookup, values: map<Name, Value>): Maker {
    n => match lookup(n)
      case Some(info) => WriteRequest(info, n, Encodings(fl, lookup, values)(n))
      case None => Request(n.text, 0, 0, ACTION_WRITE, 0, None, 0)
  }

  /** Tag memory after the first k names were written in turn, refused ones left alone. */
  function AfterWrites(mem: map<Name, seq<byte>>, enc: Encoding, status: Name -> u32, names: seq<Name>, k: nat)
    : map<Name, seq<byte>>
    requires k <= |names|
  {
    if k == 0 then mem
    else
      var before := AfterWrites(mem, enc, status, names, k - 1);
      var n := names[k - 1];
      if status(n) == 0 && n in before then before[n := enc(n)] else before
  }

  /** The order of distinct names does not matter: each served tag holds its own new bytes, every other
      tag what it held. */
  lemma {:induction false} AfterWritesIs(mem: map<Name, seq<byte>>, enc: Encoding, status: Name -> u32,
                                         names: seq<Name>, k: nat)
    requires k <= |names|
    ensures var after := AfterWrites(mem, enc, status, names, k);
      && after.Keys == mem.Keys
      && (forall i :: 0 <= i < k && status(names[i]) == 0 && names[i] in mem ==> after[names[i]] == enc(names[i]))
      && forall n :: n in mem && (status(n) != 0 || n !in names[..k]) ==> after[n] == mem[n]
  {
    if k > 0 {
      AfterWritesIs(mem, enc, status, names, k - 1);
      assert names[..k] == names[..k - 1] + [names[k - 1]];
    }
  }

  function PlcAfter(plc: Plc, enc: Encoding, names: seq<Name>, k: nat): Plc
    requires k <= |names|
  {
    plc.(mem := AfterWrites(plc.mem, enc, Statuses(plc, ACTION_WRITE), names, k))
  }

  /** The requests made for the names write the bytes enc gives for them. */
  ghost predicate MakesWrites(make: Maker, enc: Encoding, names: seq<Name>) {
    forall i :: 0 <= i < |names| ==>
      var r := make(names[i]);
      r.name == names[i].text && r.action == ACTION_WRITE && r.data == Some(enc(names[i]))
  }

  lemma {:induction false} WritesServed(plc: Plc, make: Maker, enc: Encoding, names: seq<Name>, start: nat,
                                        reqs: seq<Request>, k: nat)
    requires MakesWrites(make, enc, names) && IsChunk(make, names, start, reqs) && k <= |reqs|
    ensures ServeFirst(PlcAfter(plc, enc, names, start), reqs, k) == PlcAfter(plc, enc, names, start + k)
  {
    if k > 0 {
      WritesServed(plc, make, enc, names, start, reqs, k - 1);
      assert names[start + k - 1] == Name(reqs[k - 1].name);
    }
  }

  /** replies report the statuses of the names from start on. */
  ghost predicate Reported(names: seq<Name>, start: nat, replies: seq<Request>, status: Name -> u32)
    requires start + |replies| <= |names|
  {
    forall j :: 0 <= j < |replies| ==>
      replies[j].result == status(names[start + j]) && replies[j].name == names[start + j].text
  }

  type Line = (Plc, seq<Request>) -> (Plc, seq<Request>)

  function Wire(): Line {
    (plc, reqs) => Access(plc, reqs)
  }

  /** An Access call on the requests from start on moves the PLC on past them, and reports their statuses. */
  ghost predicate Moves(answer: (Plc, seq<Request>), names: seq<Name>, start: nat, n: nat,
                        state: seq<Plc>, status: Name -> u32)
    requires start + n <= |names| && |state| == |names| + 1
  {
    answer.0 == state[start + n] && |answer.1| == n && Reported(names, start, answer.1, status)
  }

  ghost predicate Advances(line: Line, make: Maker, names: seq<Name>, state: seq<Plc>, status: Name -> u32) {
    && |state| == |names| + 1
    && forall start: nat, reqs: seq<Request> {:trigger line(state[start], reqs)} ::
         IsChunk(make, names, start, reqs) ==>
         Moves(line(state[start], reqs), names, start, |reqs|, state, status)
  }

  ghost function States(plc: Plc, enc: Encoding, names: seq<Name>): (state: seq<Plc>)
    ensures |state| == |names| + 1
    ensures forall k :: 0 <= k <= |names| ==> state[k] == PlcAfter(plc, enc, names, k)
  {
    seq(|names| + 1, k requires 0 <= k <= |names| => PlcAfter(plc, enc, names, k))
  }

  lemma WriteMovesOn(plc: Plc, make: Maker, enc: Encoding, names: seq<Name>, start: nat, reqs: seq<Request>)
    requires MakesWrites(make, enc, names) && IsChunk(make, names, start, reqs)
    ensures Access(PlcAfter(plc, enc, names, start), reqs).0 == PlcAfter(plc, enc, names, start + |reqs|)
  {
    WritesServed(plc, make, enc, names, start, reqs, |reqs|);
    AccessServesAll(PlcAfter(plc, enc, names, start), reqs);
  }

  lemma AccessServesAll(plc: Plc, reqs: seq<Request>)
    ensures Access(plc, reqs).0 == ServeFirst(plc, reqs, |reqs|)
  {
  }

  lemma WriteReports(plc: Plc, make: Maker, enc: Encoding, names: seq<Name>, start: nat, reqs: seq<Request>)
    requires MakesWrites(make, enc, names) && IsChunk(make, names, start, reqs)
    requires forall n, a :: plc.status(n, a) == 0 ==> n in plc.mem
    ensures Reported(names, start, Access(PlcAfter(plc, enc, names, start), reqs).1, Statuses(plc, ACTION_WRITE))
  {
    var replies := Access(PlcAfter(plc, enc, names, start), reqs).1;
    forall j: nat | j < |replies|
      ensures replies[j].result == plc.status(names[start + j], ACTION_WRITE)
      ensures replies[j].name == names[start + j].text
    {
      WriteReported(plc, make, enc, names, start, reqs, j);
    }
  }

  lemma WriteReported(plc: Plc, make: Maker, enc: Encoding, names: seq<Name>, start: nat, reqs: seq<Request>, j: nat)
    requires MakesWrites(make, enc, names) && IsChunk(make, names, start, reqs) && j < |reqs|
    requires forall n, a :: plc.status(n, a) == 0 ==> n in plc.mem
    ensures var r := Access(PlcAfter(plc, enc, names, start), reqs).1[j];
      r.result == plc.status(names[start + j], ACTION_WRITE) && r.name == names[start + j].text
  {
    WritesServed(plc, make, enc, names, start, reqs, j);
    assert names[start + j] == Name(reqs[j].name);
  }

  lemma PlcAdvances(plc: Plc, make: Maker, enc: Encoding, names: seq<Name>)
    requires MakesWrites(make, enc, names)
    requires forall n, a :: plc.status(n, a) == 0 ==> n in plc.mem
    ensures Advances(Wire(), make, names, States(plc, enc, names), Statuses(plc, ACTION_WRITE))
  {
    var state, status := States(plc, enc, names), Statuses(plc, ACTION_WRITE);
    forall start: nat, reqs: seq<Request> | IsChunk(make, names, start, reqs)
      ensures Moves(Wire()(state[start], reqs), names, start, |reqs|, state, status)
    {
      WriteMovesOn(plc, make, enc, names, start, reqs);
      WriteReports(plc, make, enc, names, start, reqs);
      assert Wire()(state[start], reqs) == Access(state[start], reqs);
    }
  }

  method CollectFailures(ghost names: seq<Name>, ghost start: nat, replies: seq<Request>,
                         ghost status: Name -> u32, failed: seq<Name>) returns (failed': seq<Name>)
    requires start + |replies| <= |names| && failed == Failing(status, names, start)
    requires Reported(names, start, replies, status)
    ensures failed' == Failing(status, names, start + |replies|)
  {
    failed' := failed;
    for j := 0 to |replies|
      invariant failed' == Failing(status, names, start + j)
    {
      if replies[j].result != 0 {
        failed' := failed' + [Name(replies[j].name)];
      }
    }
  }

  /** A call that fails may still have had its first k requests served. */
  lemma PartServed(line: Line, make: Maker, names: seq<Name>, state: seq<Plc>, status: Name -> u32,
                   start: nat, reqs: seq<Request>, k: nat)
    requires Advances(line, make, names, state, status) && IsChunk(make, names, start, reqs) && k <= |reqs|
    ensures line(state[start], reqs[..k]).0 == state[start + k]
  {
    assert IsChunk(make, names, start, reqs[..k]);
    assert Moves(line(state[start], reqs[..k]), names, start, k, state, status);
  }

  lemma WholeServed(line: Line, make: Maker, names: seq<Name>, state: seq<Plc>, status: Name -> u32,
                    start: nat, reqs: seq<Request>)
    requires Advances(line, make, names, state, status) && IsChunk(make, names, start, reqs)
    ensures Moves(line(state[start], reqs), names, start, |reqs|, state, status)
  {
  }

  /** The body of the loop over chunks once the requests are built, for a call that comes back. */
  method WriteChunk(line: Line, ghost make: Maker, ghost names: seq<Name>, ghost start: nat, reqs: seq<Request>,
                    plc: Plc, failed: seq<Name>, ghost state: seq<Plc>, ghost status: Name -> u32)
    returns (plc': Plc, failed': seq<Name>)
    requires Advances(line, make, names, state, status) && IsChunk(make, names, start, reqs)
    requires plc == state[start] && failed == Failing(status, names, start)
    ensures plc' == state[start + |reqs|] && failed' == Failing(status, names, start + |reqs|)
  {
    WholeServed(line, make, names, state, status, start, reqs);
    var answer := line(plc, reqs);
    plc' := answer.0;
    failed' := CollectFailures(names, start, answer.1, status, failed);
  }

  /** And for one that is lost: what the PLC served of it all the same. */
  method LoseChunk(line: Line, ghost make: Maker, ghost names: seq<Name>, start: nat, reqs: seq<Request>,
                   plc: Plc, served: nat, ghost state: seq<Plc>, ghost status: Name -> u32)
    returns (plc': Plc, reached: nat)
    requires Advances(line, make, names, state, status) && IsChunk(make, names, start, reqs) && plc == state[start]
    ensures reached == start + Min(served, |reqs|) && plc' == state[reached]
  {
    reached := start + Min(served, |reqs|);
    PartServed(line, make, names, state, status, start, reqs, Min(served, |reqs|));
    plc' := line(plc, reqs[..Min(served, |reqs|)]).0;
  }

  /** The second half of WriteTags, once every value is encoded. */
  method WriteChunks(make: Maker, line: Line, plc: Plc, names: seq<Name>, failure: Option<Failure>,
                     ghost state: seq<Plc>, ghost status: Name -> u32)
    returns (plc': Plc, end: Outcome, calls: seq<seq<Request>>, reached: nat)
    requires Advances(line, make, names, state, status) && plc == state[0]
    ensures !end.ParamRange? && (end.CallFailed? <==> failure.Some? && CHUNK * failure.value.call < |names|)
    ensures Chunked(make, names, calls) && reached <= |names| && plc' == state[reached]
    ensures end.CallFailed? ==>
              && |calls| == failure.value.call + 1
              && reached == CHUNK * failure.value.call + Min(failure.value.served, |calls[failure.value.call]|)
    ensures end.Fine? || end.TagsFailed? ==>
              && CHUNK * |calls| >= |names| && reached == |names|
              && (if end.Fine? then [] else end.names) == Failing(status, names, |names|)
    ensures end.TagsFailed? ==> end.names != []
  {
    plc', calls := plc, [];
    var failed := [];
    var start := 0;
    ghost var done := 0;
    while start < |names|
      invariant done == Min(start, |names|)
      invariant start == CHUNK * |calls| && Chunked(make, names, calls)
      invariant failure.Some? ==> |calls| <= failure.value.call
      invariant plc' == state[done] && failed == Failing(status, names, done)
    {
      var end := Min(start + CHUNK, |names|);
      var reqs := BuildChunk(make, names, start, end);
      ChunkedNext(make, names, calls, reqs);
      calls := calls + [reqs];
      if failure.Some? && failure.value.call == |calls| - 1 {
        plc', reached := LoseChunk(line, make, names, start, reqs, plc', failure.value.served, state, status);
        return plc', CallFailed, calls, reached;
      }
      plc', failed := WriteChunk(line, make, names, start, reqs, plc', failed, state, status);
      start := start + CHUNK;
      done := end;
    }
    return plc', if failed != [] then TagsFailed(failed) else Fine, calls, |names|;
  }

  /** The order in which a Go map gives up its keys. */
  ghost predicate Lists(names: seq<Name>, values: map<Name, Value>) {
    (forall n :: n in values <==> n in names) && forall i, j :: 0 <= i < j < |names| ==> names[i] != names[j]
  }

  ghost predicate AllEncode(fl: Floats, lookup: Lookup, values: map<Name, Value>, names: seq<Name>) {
    forall i :: 0 <= i < |names| ==> Encoded(fl, lookup, values, names[i]).Some?
  }

  /** The memory WriteTags is meant to leave. */
  ghost predicate Written(fl: Floats, lookup: Lookup, values: map<Name, Value>, before: Plc, after: Plc) {
    && after.status == before.status && after.mem.Keys == before.mem.Keys
    && forall n :: n in before.mem ==>
         after.mem[n] ==
         if n in values && before.status(n, ACTION_WRITE) == 0 then Encodings(fl, lookup, values)(n) else before.mem[n]
  }

  lemma AllWritten(fl: Floats, lookup: Lookup, values: map<Name, Value>, plc: Plc, names: seq<Name>)
    requires Lists(names, values)
    ensures Written(fl, lookup, values, plc, PlcAfter(plc, Encodings(fl, lookup, values), names, |names|))
  {
    AfterWritesIs(plc.mem, Encodings(fl, lookup, values), Statuses(plc, ACTION_WRITE), names, |names|);
    assert names[..|names|] == names;
  }

  lemma MakesThem(fl: Floats, lookup: Lookup, values: map<Name, Value>, names: seq<Name>)
    requires AllEncode(fl, lookup, values, names)
    ensures MakesWrites(Writes(fl, lookup, values), Encodings(fl, lookup, values), names)
  {
  }

  lemma WritesAreSmall(fl: Floats, lookup: Lookup, values: map<Name, Value>, names: seq<Name>)
    requires AllEncode(fl, lookup, values, names)
    ensures forall i :: 0 <= i < |names| ==> Writes(fl, lookup, values)(names[i]).Size() <= 8
  {
    forall i | 0 <= i < |names| ensures Writes(fl, lookup, values)(names[i]).Size() <= 8 {
      assert KindOf(lookup, names[i]).Some?;
    }
  }

  /** The first half of WriteTags: encode every value, stop at the first that cannot be. */
  method FirstBad(fl: Floats, lookup: Lookup, values: map<Name, Value>, names: seq<Name>) returns (bad: Option<Name>)
    requires Lists(names, values)
    ensures bad.None? ==> AllEncode(fl, lookup, values, names)
    ensures bad.None? <==> forall n :: n in values ==> Encoded(fl, lookup, values, n).Some?
    ensures bad.Some? ==> bad.value in values && Encoded(fl, lookup, values, bad.value).None?
  {
    for i := 0 to |names|
      invariant forall k :: 0 <= k < i ==> Encoded(fl, lookup, values, names[k]).Some?
    {
      if Encoded(fl, lookup, values, names[i]).None? {
        return Some(names[i]);
      }
    }
    bad := None;
  }

  /** WriteTags; names is the order the map was walked in, reached how many of them the PLC was given. */
  method WriteTags(fl: Floats, lookup: Lookup, plc: Plc, values: map<Name, Value>, names: seq<Name>,
                   failure: Option<Failure>)
    returns (plc': Plc, end: Outcome, calls: seq<seq<Request>>, reached: nat)
    requires Lists(names, values) && forall n, a :: plc.status(n, a) == 0 ==> n in plc.mem
    ensures end.ParamRange? <==> exists n :: n in values && Encoded(fl, lookup, values, n).None?
    ensures end.ParamRange? ==>
              plc' == plc && calls == [] && end.bad in values && Encoded(fl, lookup, values, end.bad).None?
    ensures WithinLimits(calls)
    ensures !end.ParamRange? ==>
              && Chunked(Writes(fl, lookup, values), names, calls)
              && (end.CallFailed? <==> failure.Some? && CHUNK * failure.value.call < |names|)
    ensures end.CallFailed? ==>
              && |calls| == failure.value.call + 1
              && reached == CHUNK * failure.value.call + Min(failure.value.served, |calls[failure.value.call]|)
              && reached <= |names| && plc' == PlcAfter(plc, Encodings(fl, lookup, values), names, reached)
    ensures end.Fine? || end.TagsFailed? ==>
              && CHUNK * |calls| >= |names| && Written(fl, lookup, values, plc, plc')
              && (if end.Fine? then [] else end.names) == Failing(Statuses(plc, ACTION_WRITE), names, |names|)
    ensures end.TagsFailed? ==> end.names != []
  {
    var bad := FirstBad(fl, lookup, values, names);
    if bad.Some? {
      return plc, Outcome.ParamRange(bad.value), [], 0;
    }
    MakesThem(fl, lookup, values, names);
    ghost var enc := Encodings(fl, lookup, values);
    PlcAdvances(plc, Writes(fl, lookup, values), enc, names);
    plc', end, calls, reached := WriteChunks(Writes(fl, lookup, values), Wire(), plc, names, failure,
                                    States(plc, enc, names), Statuses(plc, ACTION_WRITE));
    WritesAreSmall(fl, lookup, values, names);
    ScalarChunksAreAccepted(Writes(fl, lookup, values), names, calls);
    AllWritten(fl, lookup, values, plc, names);
  }

  /** A written tag that can be read back gives the value it was given, as a value of its own type; a tag
      that was not named, or whose write was refused, reads as before. */
  lemma WriteThenRead(fl: Floats, lookup: Lookup, values: map<Name, Value>, before: Plc, after: Plc, n: Name)
    requires Agrees(before, lookup) && Written(fl, lookup, values, before, after) && KindOf(lookup, n).Some?
    requires forall m :: m in values ==> Encoded(fl, lookup, values, m).Some?
    ensures Agrees(after, lookup)
    ensures SingleRead(after, lookup, n) ==
            if n in values && before.status(n, ACTION_WRITE) == 0 && before.status(n, ACTION_READ) == 0
            then ReadResult(Some(Converted(fl, KindOf(lookup, n).value, values[n])), 0)
            else SingleRead(before, lookup, n)
  {
    forall m, k | m in values && KindOf(lookup, m) == Some(k)
      ensures |Encodings(fl, lookup, values)(m)| == Width(k)
      ensures DecodeScalar(k, Encodings(fl, lookup, values)(m)) == Some(Converted(fl, k, values[m]))
    {
      EncodedDecodes(fl, k, values[m]);
    }
  }
}
