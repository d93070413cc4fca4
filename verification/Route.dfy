/** c/src/route.c: the Unconnected_Send body of section 3-5.5.4 of the CIP Networks Library,
    volume 1, and the port segments of its route path. */
module Route {
  import opened Common
  import opened Bytes

  const EINVAL := 22
  const ENOSPC := 28
  const TICK_MS: nat := 32
  const MAX_TICKS: nat := 255
  const MAX_MESSAGE: nat := 0xFFFF
  const MAX_ROUTE: nat := 0x1FE

  const BP_OK := 0
  const BP_ERR_NULL_ARG := -300
  const BP_ERR_PARAM_RANGE := -305

  /** The timeout in units of 32 ms, at least 1 and at most 255 of them. */
  function Ticks(timeoutMs: u16): (ticks: byte)
    ensures 1 <= ticks <= MAX_TICKS
  {
    var ticks := (timeoutMs + TICK_MS - 1) / TICK_MS;
    if ticks < 1 then 1 else if ticks > MAX_TICKS then MAX_TICKS else ticks
  }

  /** The ticks cover the timeout as far as a byte can, and no smaller number of ticks does. */
  lemma TicksAreLeast(timeoutMs: u16, other: nat)
    ensures var wanted := if timeoutMs > MAX_TICKS * TICK_MS then MAX_TICKS * TICK_MS else timeoutMs;
      && wanted <= Ticks(timeoutMs) * TICK_MS
      && (timeoutMs != 0 ==> Ticks(timeoutMs) * TICK_MS < timeoutMs + TICK_MS)
      && (0 < other && wanted <= other * TICK_MS ==> Ticks(timeoutMs) <= other)
  {
  }

  function Pad(n: nat): seq<byte> { if n % 2 == 1 then [0] else [] }

  const PREFIX: seq<byte> := [0x52, 0x02, 0x20, 0x06, 0x24, 0x01, 0x05]

  /** What Unconnected_Send carries. */
  datatype Wrapped = Wrapped(message: seq<byte>, route: seq<byte>, ticks: byte)
  {
    predicate Allowed() {
      0 < |message| <= MAX_MESSAGE && 0 < |route| <= MAX_ROUTE && |route| % 2 == 0 && ticks != 0
    }

    function Size(): nat { 10 + |message| + |message| % 2 + 2 + |route| }
  }

  function Head(w: Wrapped): (h: seq<byte>)
    requires w.Allowed()
    ensures |h| == 10
  {
    PREFIX + [w.ticks] + Le16(|w.message|)
  }

  function Body(w: Wrapped): (b: seq<byte>)
    requires w.Allowed()
    ensures |b| == w.Size()
  {
    Head(w) + (w.message + Pad(|w.message|)) + [|w.route| / 2, 0] + w.route
  }

  /** bp_build_unconnected_send: 0 for a missing buffer, a negative errno, or the length written. */
  method BuildUnconnectedSend(out: array?<byte>, message: Option<seq<byte>>, route: Option<seq<byte>>, timeoutMs: u16)
    returns (n: int)
    modifies out
    ensures n == 0 <==> out == null || message.None? || route.None?
    ensures n != 0 ==>
              var w := Wrapped(message.value, route.value, Ticks(timeoutMs));
              && (n == -EINVAL <==> !w.Allowed())
              && (n == -ENOSPC <==> w.Allowed() && w.Size() > out.Length)
              && (n > 0 <==> w.Allowed() && w.Size() <= out.Length)
              && (n > 0 ==> n == w.Size() && out[..n] == Body(w))
    ensures out != null ==> forall j :: (if n < 0 then 0 else n) <= j < out.Length ==> out[j] == old(out[j])
  {
    if out == null || message.None? || route.None? {
      return 0;
    }
    var embedded, path := message.value, route.value;
    if |path| % 2 != 0 {
      return -EINVAL;
    }
    if |embedded| == 0 || |embedded| > MAX_MESSAGE {
      return -EINVAL;
    }
    if |path| == 0 || |path| > MAX_ROUTE {
      return -EINVAL;
    }
    var pad := |embedded| % 2;
    if 10 + |embedded| + pad + 2 + |path| > out.Length {
      return -ENOSPC;
    }
    n := EmitBody(out, Wrapped(embedded, path, Ticks(timeoutMs)));
  }

  method EmitHead(out: array<byte>, w: Wrapped) returns (off: nat)
    requires w.Allowed() && 10 <= out.Length
    modifies out
    ensures off == 10 && out[..off] == Head(w)
    ensures forall j :: off <= j < out.Length ==> out[j] == old(out[j])
  {
    off := Emit(out, 0, PREFIX);
    off := Emit(out, off, [w.ticks]);
    off := Emit(out, off, Le16(|w.message|));
  }

  method EmitMessage(out: array<byte>, off: nat, message: seq<byte>) returns (next: nat)
    requires off + |message| + |message| % 2 <= out.Length
    modifies out
    ensures next == off + |message| + |message| % 2
    ensures out[..next] == old(out[..off]) + (message + Pad(|message|))
    ensures forall j :: next <= j < out.Length ==> out[j] == old(out[j])
  {
    next := Emit(out, off, message);
    if |message| % 2 != 0 {
      next := Emit(out, next, [0]);
    }
  }

  method EmitBody(out: array<byte>, w: Wrapped) returns (off: nat)
    requires w.Allowed() && w.Size() <= out.Length
    modifies out
    ensures off == w.Size() && out[..off] == Body(w)
    ensures forall j :: off <= j < out.Length ==> out[j] == old(out[j])
  {
    off := EmitHead(out, w);
    off := EmitMessage(out, off, w.message);
    off := Emit(out, off, [|w.route| / 2, 0]);
    off := Emit(out, off, w.route);
  }

  // ---------------------------------------------------------------- the reading of section 3-5.5.4

  /** The parts of an Unconnected_Send body with 32 ms ticks, or nothing if it is not one. */
  function Parse(b: seq<byte>): Option<Wrapped> {
    if |b| < 12 || b[..7] != PREFIX || b[7] == 0 then None
    else
      var n: nat := LoadU16(b, 8);
      var routeAt := 10 + n + n % 2 + 2;
      if n == 0 || |b| < routeAt || (n % 2 == 1 && b[10 + n] != 0) then None
      else if b[routeAt - 1] != 0 || b[routeAt - 2] == 0 || |b| - routeAt != 2 * b[routeAt - 2] as int then None
      else Some(Wrapped(b[10..10 + n], b[routeAt..], b[7]))
  }

  lemma BodyParses(w: Wrapped)
    requires w.Allowed()
    ensures Parse(Body(w)) == Some(w)
  {
    var b, n := Body(w), |w.message|;
    var routeAt := 10 + n + n % 2 + 2;
    LoadStore(n);
    assert b[..7] == PREFIX;
    assert b[8..10] == Le16(n);
    assert LoadU16(b, 8) == LoadU16(Le16(n), 0) by {
      assert b[8] == b[8..10][0] && b[9] == b[8..10][1];
    }
    assert b[10..10 + n] == w.message;
    assert b[10 + n..routeAt - 2] == Pad(n);
    assert n % 2 == 1 ==> b[10 + n] == b[10 + n..routeAt - 2][0];
    assert b[routeAt - 2..routeAt] == [|w.route| / 2, 0];
    assert b[routeAt - 2] == b[routeAt - 2..routeAt][0] && b[routeAt - 1] == b[routeAt - 2..routeAt][1];
    assert b[routeAt..] == w.route;
  }

  lemma LoadedBytes(b: seq<byte>, off: nat)
    requires off + 2 <= |b|
    ensures b[off..off + 2] == Le16(LoadU16(b, off))
  {
  }

  lemma ParsedIsBody(b: seq<byte>, w: Wrapped)
    requires Parse(b) == Some(w)
    ensures w.Allowed() && b == Body(w)
  {
    var n: nat := LoadU16(b, 8);
    var routeAt := 10 + n + n % 2 + 2;
    LoadedBytes(b, 8);
    assert b[10 + n..routeAt - 2] == Pad(n);
    assert b[routeAt - 2..routeAt] == [|w.route| / 2, 0];
    Reassembled(b, n, routeAt);
  }

  lemma Reassembled(b: seq<byte>, n: nat, routeAt: nat)
    requires 10 + n <= routeAt - 2 && routeAt <= |b|
    ensures b == b[..7] + [b[7]] + b[8..10] + b[10..10 + n] + b[10 + n..routeAt - 2]
                 + b[routeAt - 2..routeAt] + b[routeAt..]
  {
  }

  /** Building and reading are inverse to each other: a byte string reads as w exactly when it is the
      body built for w. */
  lemma UnconnectedSendInverts(b: seq<byte>, w: Wrapped)
    ensures Parse(b) == Some(w) <==> w.Allowed() && b == Body(w)
  {
    if Parse(b) == Some(w) {
      ParsedIsBody(b, w);
    }
    if w.Allowed() {
      BodyParses(w);
    }
  }

  // ---------------------------------------------------------------- port segments

  /** bp_route_append_port. */
  method AppendPort(route: array?<byte>, off: Option<nat>, port: byte, link: byte)
    returns (status: int, next: Option<nat>)
    modifies route
    ensures status == BP_ERR_NULL_ARG <==> route == null || off.None?
    ensures status == BP_ERR_PARAM_RANGE <==> route != null && off.Some? && off.value + 2 > route.Length
    ensures status == BP_OK <==> route != null && off.Some? && off.value + 2 <= route.Length
    ensures status == BP_OK ==>
              && next == Some(off.value + 2)
              && route[..next.value] == old(route[..off.value]) + [port, link]
              && forall j :: next.value <= j < route.Length ==> route[j] == old(route[j])
    ensures status != BP_OK ==> next == off && (route != null ==> route[..] == old(route[..]))
  {
    if route == null || off.None? {
      return BP_ERR_NULL_ARG, off;
    }
    if off.value + 2 > route.Length {
      return BP_ERR_PARAM_RANGE, off;
    }
    route[off.value] := port;
    route[off.value + 1] := link;
    return BP_OK, Some(off.value + 2);
  }

  datatype Hop = Hop(port: byte, link: byte)

  /** The route path that appending the hops one after the other leaves. */
  function Segments(hops: seq<Hop>): (route: seq<byte>)
    ensures |route| == 2 * |hops|
  {
    if hops == [] then [] else Segments(hops[..|hops| - 1]) + [hops[|hops| - 1].port, hops[|hops| - 1].link]
  }

  /** The hops of a route path. */
  function Hops(route: seq<byte>): (hops: seq<Hop>)
    requires |route| % 2 == 0
  {
    if route == [] then [] else Hops(route[..|route| - 2]) + [Hop(route[|route| - 2], route[|route| - 1])]
  }

  lemma {:induction false} SegmentsReadBack(hops: seq<Hop>)
    ensures Hops(Segments(hops)) == hops
  {
    if hops != [] {
      var front := hops[..|hops| - 1];
      SegmentsReadBack(front);
      assert Segments(hops)[..2 * |hops| - 2] == Segments(front);
    }
  }

  /** A route built from port segments is accepted exactly when it has 1 to 255 hops, and the far end
      recovers every hop in order. */
  lemma {:induction false} RouteOfHops(message: seq<byte>, hops: seq<Hop>, ticks: byte)
    requires 0 < |message| <= MAX_MESSAGE && ticks != 0
    ensures Wrapped(message, Segments(hops), ticks).Allowed() <==> 1 <= |hops| <= 255
    ensures Hops(Segments(hops)) == hops
  {
    SegmentsReadBack(hops);
  }
}
