/** The Access calls of go/ocxbp/multitag.go through the slot bytes of c/src/access.c and c/src/accessdb.c: what
    the engine finds there, serves and writes back is what the caller reads. */
module TagsOverSlot {
  import opened Common
  import opened Scalars
  import opened BatchLayout
  import opened Multitag

  /** The engine serves a request as it understood it. */
  function ServeSeen(plc: Plc, u: Understood): (Plc, Reply) {
    var n := Name(u.seen.name);
    var status := plc.status(n, u.seen.action);
    if status != 0 || n !in plc.mem then (plc, Reply(status, Zeros(u.seen.Size())))
    else if u.seen.action == ACTION_WRITE then
      (plc.(mem := plc.mem[n := u.bytes]), Reply(0, Zeros(u.seen.Size())))
    else (plc, Reply(0, plc.mem[n]))
  }

  /** The PLC after the engine served the first k of them. */
  function ServedTo(plc: Plc, us: seq<Understood>, k: nat): Plc
    requires k <= |us|
  {
    if k == 0 then plc else ServeSeen(ServedTo(plc, us, k - 1), us[k - 1]).0
  }

  function EngineReplies(plc: Plc, us: seq<Understood>): (rs: seq<Reply>)
    ensures |rs| == |us|
    ensures forall k :: 0 <= k < |us| ==> rs[k] == ServeSeen(ServedTo(plc, us, k), us[k]).1
  {
    seq(|us|, k requires 0 <= k < |us| => ServeSeen(ServedTo(plc, us, k), us[k]).1)
  }

  /** A read into a buffer of zeros, or a write, of a tag whose name is sent whole. */
  predicate Plain(r: Request) {
    && r.Wellformed() && |r.name| <= MAX_NAME && r.data.Some? && |r.data.value| == r.Size()
    && (r.action == ACTION_WRITE || (r.action == ACTION_READ && r.data.value == Zeros(r.Size())))
  }

  /** The tag a request would read is as wide as the request says. */
  predicate FitsTag(plc: Plc, r: Request) {
    var n := Name(r.name);
    plc.status(n, ACTION_READ) == 0 && n in plc.mem ==> |plc.mem[n]| == r.Size()
  }

  /** A call whose requests agree with the PLC's tags, and with one another where they name the same tag. */
  ghost predicate Ready(plc: Plc, reqs: seq<Request>) {
    && (forall i :: 0 <= i < |reqs| ==> Plain(reqs[i]) && FitsTag(plc, reqs[i]))
    && forall i, j :: 0 <= i < |reqs| && 0 <= j < |reqs| && reqs[i].name == reqs[j].name ==>
         reqs[i].Size() == reqs[j].Size()
  }

  /** One request: the engine does to the PLC what Serve does, and the request reads back as Serve leaves it. */
  lemma ServedAlike(plc: Plc, r: Request)
    requires Plain(r) && FitsTag(plc, r)
    ensures ServeSeen(plc, Meaning(r)).0 == Serve(plc, r).0
    ensures |ServeSeen(plc, Meaning(r)).1.data| == r.Size()
    ensures WithReply(r, ServeSeen(plc, Meaning(r)).1) == Serve(plc, r).1
  {
    assert r.data.value[..r.Size()] == r.data.value;
    var reply := ServeSeen(plc, Meaning(r)).1;
    assert reply.data + r.data.value[|reply.data|..] == reply.data;
  }

  lemma StaysReady(plc: Plc, reqs: seq<Request>, k: nat)
    requires Ready(plc, reqs) && k < |reqs|
    ensures Ready(Serve(plc, reqs[k]).0, reqs)
  {
    assert Plain(reqs[k]);
    forall i | 0 <= i < |reqs| ensures FitsTag(Serve(plc, reqs[k]).0, reqs[i]) {
      assert FitsTag(plc, reqs[i]);
    }
  }

  lemma {:induction false} EngineFollows(plc: Plc, reqs: seq<Request>, k: nat)
    requires Ready(plc, reqs) && k <= |reqs|
    ensures ServedTo(plc, Meanings(reqs), k) == ServeFirst(plc, reqs, k) && Ready(ServeFirst(plc, reqs, k), reqs)
  {
    if k > 0 {
      EngineFollows(plc, reqs, k - 1);
      var p := ServeFirst(plc, reqs, k - 1);
      assert Plain(reqs[k - 1]) && FitsTag(p, reqs[k - 1]);
      ServedAlike(p, reqs[k - 1]);
      StaysReady(p, reqs, k - 1);
    }
  }

  lemma EngineAnswers(plc: Plc, reqs: seq<Request>, k: nat)
    requires Ready(plc, reqs) && k < |reqs|
    ensures var reply := EngineReplies(plc, Meanings(reqs))[k];
      |reply.data| == reqs[k].Size() && WithReply(reqs[k], reply) == Access(plc, reqs).1[k]
  {
    EngineFollows(plc, reqs, k);
    var p := ServeFirst(plc, reqs, k);
    assert Plain(reqs[k]) && FitsTag(p, reqs[k]);
    ServedAlike(p, reqs[k]);
  }

  /** Fill the slot, let the engine decode it, serve what it finds and write its replies, read them back: the
      PLC and every request end as Access says. */
  lemma AccessThroughSlot(s: seq<byte>, db: Database, plc: Plc, reqs: seq<Request>)
    requires Sendable(db, reqs) && Cleared(s) && Ready(plc, reqs)
    ensures SentCount(db, Filled(s, db, reqs, |reqs|)) == |reqs|
    ensures Decode(db, Filled(s, db, reqs, |reqs|), |reqs|, DataArea(db, |reqs|)) == Some(Meanings(reqs))
    ensures ServedTo(plc, Meanings(reqs), |reqs|) == Access(plc, reqs).0
    ensures var rs := EngineReplies(plc, Meanings(reqs));
      && Replies(reqs, rs)
      && BatchLayout.Answered(Served(Filled(s, db, reqs, |reqs|), db, reqs, rs, |reqs|), db, reqs, rs)
      && forall i :: 0 <= i < |reqs| ==> WithReply(reqs[i], rs[i]) == Access(plc, reqs).1[i]
  {
    var t, rs := Filled(s, db, reqs, |reqs|), EngineReplies(plc, Meanings(reqs));
    BatchRoundTrip(s, db, reqs);
    EngineFollows(plc, reqs, |reqs|);
    forall i | 0 <= i < |reqs|
      ensures |rs[i].data| == reqs[i].Size() && WithReply(reqs[i], rs[i]) == Access(plc, reqs).1[i]
    {
      EngineAnswers(plc, reqs, i);
    }
    ServedSlotIsAnswered(t, db, reqs, rs);
  }

  // ---------------------------------------------------------------- the calls of ReadTags and WriteTags

  /** A name that both layouts send whole. */
  predicate Sent(n: Name) {
    |n.text| <= MAX_NAME && 0 !in n.text
  }

  lemma ReadIsPlain(plc: Plc, lookup: Lookup, n: Name)
    requires Agrees(plc, lookup) && KindOf(lookup, n).Some? && Sent(n)
    ensures var r := Reads(lookup)(n);
      Plain(r) && FitsTag(plc, r) && r.name == n.text && r.Size() == Width(KindOf(lookup, n).value)
  {
  }

  lemma WriteIsPlain(fl: Floats, plc: Plc, lookup: Lookup, values: map<Name, Value>, n: Name)
    requires Agrees(plc, lookup) && Encoded(fl, lookup, values, n).Some? && Sent(n)
    ensures var r := Writes(fl, lookup, values)(n);
      Plain(r) && FitsTag(plc, r) && r.name == n.text && r.Size() == Width(KindOf(lookup, n).value)
  {
    EncodedDecodes(fl, KindOf(lookup, n).value, values[n]);
  }

  lemma ChunkIsReady(db: Database, plc: Plc, lookup: Lookup, make: Maker, names: seq<Name>,
                     calls: seq<seq<Request>>, c: nat)
    requires Chunked(make, names, calls) && WithinLimits(calls) && c < |calls|
    requires forall i :: 0 <= i < |names| ==>
               var r := make(names[i]);
               && KindOf(lookup, names[i]).Some? && Plain(r) && FitsTag(plc, r)
               && r.name == names[i].text && r.Size() == Width(KindOf(lookup, names[i]).value)
    ensures Sendable(db, calls[c]) && Ready(plc, calls[c])
  {
    var reqs := calls[c];
    assert IsChunk(make, names, CHUNK * c, reqs);
    assert DataAt(db, reqs, |reqs|) <= SLOT_STRIDE - 0x80;
    forall i, j | 0 <= i < |reqs| && 0 <= j < |reqs| && reqs[i].name == reqs[j].name
      ensures reqs[i].Size() == reqs[j].Size()
    {
      assert names[CHUNK * c + i] == Name(reqs[i].name) == Name(reqs[j].name) == names[CHUNK * c + j];
    }
  }

  /** Every call that ReadTags makes goes through the slot as AccessThroughSlot says. */
  lemma ReadCallsAreReady(db: Database, plc: Plc, lookup: Lookup, names: seq<Name>, calls: seq<seq<Request>>, c: nat)
    requires Agrees(plc, lookup) && AllScalars(lookup, names) && forall i :: 0 <= i < |names| ==> Sent(names[i])
    requires Chunked(Reads(lookup), names, calls) && WithinLimits(calls) && c < |calls|
    ensures Sendable(db, calls[c]) && Ready(plc, calls[c])
  {
    forall i | 0 <= i < |names|
      ensures var r := Reads(lookup)(names[i]);
        && KindOf(lookup, names[i]).Some? && Plain(r) && FitsTag(plc, r)
        && r.name == names[i].text && r.Size() == Width(KindOf(lookup, names[i]).value)
    {
      ReadIsPlain(plc, lookup, names[i]);
    }
    ChunkIsReady(db, plc, lookup, Reads(lookup), names, calls, c);
  }

  /** Writing encoded values keeps every tag as wide as its symbol says. */
  lemma {:induction false} StillAgrees(fl: Floats, plc: Plc, lookup: Lookup, values: map<Name, Value>,
                                       names: seq<Name>, k: nat)
    requires Agrees(plc, lookup) && AllEncode(fl, lookup, values, names) && k <= |names|
    ensures Agrees(PlcAfter(plc, Encodings(fl, lookup, values), names, k), lookup)
  {
    if k > 0 {
      StillAgrees(fl, plc, lookup, values, names, k - 1);
      EncodedDecodes(fl, KindOf(lookup, names[k - 1]).value, values[names[k - 1]]);
    }
  }

  /** And so does every call that WriteTags makes, from what the names before it left in the PLC. */
  lemma WriteCallsAreReady(fl: Floats, db: Database, plc: Plc, lookup: Lookup, values: map<Name, Value>,
                           names: seq<Name>, calls: seq<seq<Request>>, c: nat)
    requires Agrees(plc, lookup) && AllEncode(fl, lookup, values, names)
    requires forall i :: 0 <= i < |names| ==> Sent(names[i])
    requires Chunked(Writes(fl, lookup, values), names, calls) && WithinLimits(calls) && c < |calls|
    ensures CHUNK * c < |names| && Sendable(db, calls[c])
    ensures Ready(PlcAfter(plc, Encodings(fl, lookup, values), names, CHUNK * c), calls[c])
  {
    StillAgrees(fl, plc, lookup, values, names, CHUNK * c);
    var now := PlcAfter(plc, Encodings(fl, lookup, values), names, CHUNK * c);
    forall i | 0 <= i < |names|
      ensures var r := Writes(fl, lookup, values)(names[i]);
        && KindOf(lookup, names[i]).Some? && Plain(r) && FitsTag(now, r)
        && r.name == names[i].text && r.Size() == Width(KindOf(lookup, names[i]).value)
    {
      WriteIsPlain(fl, now, lookup, values, names[i]);
    }
    ChunkIsReady(db, now, lookup, Writes(fl, lookup, values), names, calls, c);
  }
}
