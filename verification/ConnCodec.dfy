/** The Large Forward Open and Forward_Close bodies of c/src/conn.c, and the reading of them
    that sections 3-5.5.2 and 3-5.5.3 of the CIP Networks Library, volume 1, prescribe. */
module ConnCodec {
  import opened Common
  import opened Bytes
  import opened ConnLayer

  const OT_HINT: u32 := 0x8001_0000
  const TO_HINT: u32 := 0x8000_0001
  const RPI_US: u32 := 10_000_000
  const PARAMS_HI: u32 := 0x4200_0000
  const DEFAULT_OT_SIZE: u16 := 4000
  const MAX_OT_SIZE: u16 := 4002

  datatype Lfo = Lfo(
    otConnId: u32, toConnId: u32, serial: u16, vendor: u16, orig: u32,
    otParams: u32, toParams: u32, path: seq<byte>)

  datatype Fc = Fc(serial: u16, vendor: u16, orig: u32, path: seq<byte>)

  /** conn_params of 0 asks for the default; anything larger than the hardware takes is capped. */
  function OtSize(connParams: u16): u16 {
    var asked := if connParams == 0 then DEFAULT_OT_SIZE else connParams;
    if asked > MAX_OT_SIZE then MAX_OT_SIZE else asked
  }

  const CONNECTION_MANAGER: seq<byte> := [0x02, 0x20, 0x06, 0x24, 0x01]
  const MESSAGE_ROUTER: seq<byte> := [0x20, 0x02, 0x24, 0x01]

  /** Service, Connection Manager path, timeout, connection id hints and the triad. */
  function LfoIdentity(serial: u16, orig: u32): (b: seq<byte>) {
    [0x5B] + CONNECTION_MANAGER + [0x05, 0xF7]
    + Le32(OT_HINT) + Le32(TO_HINT) + Le16(serial) + Le16(LFO_VENDOR_ID) + Le32(orig)
  }

  function LfoBytes(serial: u16, orig: u32, otSize: u16): (b: seq<byte>) {
    LfoIdentity(serial, orig)
    + Le32(3) + Le32(RPI_US) + Le32(PARAMS_HI + otSize) + Le32(RPI_US) + Le32(PARAMS_HI + otSize)
    + [0xA3, 0x02] + MESSAGE_ROUTER
  }

  function FcBytes(serial: u16, vendor: u16, orig: u32): (b: seq<byte>) {
    [0x4E] + CONNECTION_MANAGER + [0x0A, 0x0E]
    + Le16(serial) + Le16(vendor) + Le32(orig) + [0x02, 0x00] + MESSAGE_ROUTER
  }

  /** What the target reads out of a Large Forward Open body. */
  function ParseLfo(b: seq<byte>): Option<Lfo> {
    if |b| >= 46 && b[0] == 0x5B && b[1..6] == CONNECTION_MANAGER && |b| == 46 + 2 * b[45] as int then
      Some(Lfo(LoadU32(b, 8), LoadU32(b, 12), LoadU16(b, 16), LoadU16(b, 18), LoadU32(b, 20),
               LoadU32(b, 32), LoadU32(b, 40), b[46..]))
    else None
  }

  /** What the target reads out of a Forward_Close body. */
  function ParseFc(b: seq<byte>): Option<Fc> {
    if |b| >= 18 && b[0] == 0x4E && b[1..6] == CONNECTION_MANAGER && |b| == 18 + 2 * b[16] as int then
      Some(Fc(LoadU16(b, 8), LoadU16(b, 10), LoadU32(b, 12), b[18..]))
    else None
  }

  lemma LoadAt(b: seq<byte>, off: nat, v: u32)
    requires off + 4 <= |b| && b[off..off + 4] == Le32(v)
    ensures LoadU32(b, off) == v
  {
    LoadStore(v);
    var w := b[off..off + 4];
    assert w[0] == b[off] && w[1] == b[off + 1] && w[2] == b[off + 2] && w[3] == b[off + 3];
  }

  lemma LoadAt16(b: seq<byte>, off: nat, v: u16)
    requires off + 2 <= |b| && b[off..off + 2] == Le16(v)
    ensures LoadU16(b, off) == v
  {
    LoadStore(v);
    var w := b[off..off + 2];
    assert w[0] == b[off] && w[1] == b[off + 1];
  }

  lemma LfoFields(b: seq<byte>, serial: u16, orig: u32, params: u32)
    requires |b| == 50 && b[0] == 0x5B && b[45] == 2 && b[1..6] == CONNECTION_MANAGER && b[46..] == MESSAGE_ROUTER
    requires b[8..12] == Le32(OT_HINT) && b[12..16] == Le32(TO_HINT)
    requires b[16..18] == Le16(serial) && b[18..20] == Le16(LFO_VENDOR_ID) && b[20..24] == Le32(orig)
    requires b[32..36] == b[40..44] == Le32(params)
    ensures ParseLfo(b) == Some(Lfo(OT_HINT, TO_HINT, serial, LFO_VENDOR_ID, orig, params, params, MESSAGE_ROUTER))
  {
    LoadAt(b, 8, OT_HINT);
    LoadAt(b, 12, TO_HINT);
    LoadAt16(b, 16, serial);
    LoadAt16(b, 18, LFO_VENDOR_ID);
    LoadAt(b, 20, orig);
    LoadAt(b, 32, params);
    LoadAt(b, 40, params);
  }

  /** The target recovers the triad, the hints and the negotiated size from every open. */
  lemma LfoReadsBack(serial: u16, orig: u32, connParams: u16)
    ensures ParseLfo(LfoBytes(serial, orig, OtSize(connParams))) == Some(
      Lfo(OT_HINT, TO_HINT, serial, LFO_VENDOR_ID, orig,
          PARAMS_HI + OtSize(connParams), PARAMS_HI + OtSize(connParams), MESSAGE_ROUTER))
  {
    LfoFields(LfoBytes(serial, orig, OtSize(connParams)), serial, orig, PARAMS_HI + OtSize(connParams));
  }

  /** A Forward_Close built from a table row names the connection that row's open created. */
  lemma CloseNamesWhatOpenNamed(c: Conn, connParams: u16)
    requires c.Wellformed()
    ensures var open := ParseLfo(LfoBytes(c.serial, c.orig, OtSize(connParams)));
            var close := ParseFc(FcBytes(c.serial, c.vendor, c.orig));
            && open.Some? && close.Some?
            && (open.value.serial, open.value.vendor, open.value.orig) == (c.serial, c.vendor, c.orig)
            && (close.value.serial, close.value.vendor, close.value.orig) == (c.serial, c.vendor, c.orig)
            && open.value.path == close.value.path
  {
    LfoReadsBack(c.serial, c.orig, connParams);
    var b := FcBytes(c.serial, c.vendor, c.orig);
    assert |b| == 22 && b[0] == 0x4E && b[16] == 2;
    assert b[1..6] == CONNECTION_MANAGER;
    assert b[18..] == MESSAGE_ROUTER;
    LoadAt16(b, 8, c.serial);
    LoadAt16(b, 10, c.vendor);
    LoadAt(b, 12, c.orig);
  }

  method BuildIdentity(buf: array<byte>, serial: u16, orig: u32) returns (next: nat)
    requires buf.Length >= 24
    modifies buf
    ensures next == 24 && buf[..next] == LfoIdentity(serial, orig)
    ensures forall j :: next <= j < buf.Length ==> buf[j] == old(buf[j])
  {
    next := Emit(buf, 0, [0x5B] + CONNECTION_MANAGER + [0x05, 0xF7]);
    next := Emit(buf, next, Le32(OT_HINT));
    next := Emit(buf, next, Le32(TO_HINT));
    next := Emit(buf, next, Le16(serial));
    next := Emit(buf, next, Le16(LFO_VENDOR_ID));
    next := Emit(buf, next, Le32(orig));
  }

  method BuildLfo(buf: array<byte>, serial: u16, orig: u32, otSize: u16) returns (len: nat)
    requires buf.Length >= 50
    modifies buf
    ensures len == 50 && buf[..len] == LfoBytes(serial, orig, otSize)
    ensures forall j :: len <= j < buf.Length ==> buf[j] == old(buf[j])
  {
    len := BuildIdentity(buf, serial, orig);
    len := Emit(buf, len, Le32(3));
    len := Emit(buf, len, Le32(RPI_US));
    len := Emit(buf, len, Le32(PARAMS_HI + otSize));
    len := Emit(buf, len, Le32(RPI_US));
    len := Emit(buf, len, Le32(PARAMS_HI + otSize));
    len := Emit(buf, len, [0xA3, 0x02] + MESSAGE_ROUTER);
  }

  method BuildFc(buf: array<byte>, serial: u16, vendor: u16, orig: u32) returns (len: nat)
    requires buf.Length >= 22
    modifies buf
    ensures len == 22 && buf[..len] == FcBytes(serial, vendor, orig)
    ensures forall j :: len <= j < buf.Length ==> buf[j] == old(buf[j])
  {
    var off := Emit(buf, 0, [0x4E] + CONNECTION_MANAGER + [0x0A, 0x0E]);
    off := Emit(buf, off, Le16(serial));
    off := Emit(buf, off, Le16(vendor));
    off := Emit(buf, off, Le32(orig));
    off := Emit(buf, off, [0x02, 0x00] + MESSAGE_ROUTER);
    len := off;
  }
}
