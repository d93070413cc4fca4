/** The class-3 connection layer of c/src/conn.c seen from above: a table of at most 16
    connections keyed by app_handle, calls that are between two critical sections, and the
    connections the PLC has open for this client.  One Op is one critical section of conn.c
    or one message exchange with the PLC; any thread may perform any enabled Op next. */
module ConnLayer {

  const MAX_CONNS := 16
  const MAX_SLOT := 0x13
  const LFO_VENDOR_ID := 1

  /** A connection: the backplane slot it was opened to and the triad that names it there. */
  datatype Conn = Conn(slot: nat, serial: nat, vendor: nat, orig: nat)
  {
    predicate Wellformed() {
      slot <= MAX_SLOT && 0 < serial < 0x1_0000 && vendor == LFO_VENDOR_ID && orig < 0x1_0000_0000
    }
  }

  /** Who is in the middle of a call: an API caller, the keepalive thread of one pool, or the
      one thread that holds pools_mu. */
  datatype Owner = Caller(tid: nat) | Keepalive(pool: nat) | Lifecycle

  /** Between its two critical sections a call holds a connection outside the table. */
  datatype Pending = Granted(conn: Conn) | ToClose(conn: Conn)

  /** granted and faults are history: the connections the PLC ever granted to a call, and the
      connections some reply, Forward_Close or PLC timeout made uncertain. */
  datatype Net = Net(
    rows: map<nat, Conn>,
    pending: map<Owner, Pending>,
    plc: set<Conn>,
    orphans: set<Conn>,
    granted: set<Conn>,
    faults: set<Conn>)

  datatype Delivery = Delivered | Failed(applied: bool)

  datatype Op =
    | LfoGranted(o: Owner, c: Conn)
    | LfoRefused(o: Owner)
    | LfoReplyLost(o: Owner, c: Conn)
    | InsertRow(o: Owner, h: nat)
    | TakeRow(o: Owner, h: nat)
    | SendFc(o: Owner, d: Delivery)
    | WipeRow(h: nat)
    | PlcDrop(c: Conn)

  const EMPTY := Net(map[], map[], {}, {}, {}, {})

  /** The PLC refuses a triad it already has open; every other guard is program order. */
  predicate Enabled(n: Net, op: Op) {
    match op
    case LfoGranted(o, c) => o !in n.pending && c.Wellformed() && c !in n.plc
    case LfoRefused(o) => o !in n.pending
    case LfoReplyLost(o, c) => o !in n.pending && c.Wellformed() && c !in n.plc
    case InsertRow(o, h) => o in n.pending && n.pending[o].Granted?
    case TakeRow(o, h) => o !in n.pending
    case SendFc(o, d) => o in n.pending && n.pending[o].ToClose?
    case WipeRow(h) => true
    case PlcDrop(c) => c in n.plc
  }

  predicate Accepts(rows: map<nat, Conn>, h: nat) {
    h !in rows && |rows| < MAX_CONNS
  }

  function Apply(n: Net, op: Op): Net
    requires Enabled(n, op)
  {
    match op
    case LfoGranted(o, c) =>
      n.(plc := n.plc + {c}, granted := n.granted + {c}, pending := n.pending[o := Granted(c)])
    case LfoRefused(o) => n
    case LfoReplyLost(o, c) => n.(plc := n.plc + {c}, faults := n.faults + {c})
    case InsertRow(o, h) =>
      var c := n.pending[o].conn;
      if Accepts(n.rows, h) then n.(rows := n.rows[h := c], pending := n.pending - {o})
      else n.(pending := n.pending[o := ToClose(c)])
    case TakeRow(o, h) =>
      if h in n.rows then n.(rows := n.rows - {h}, pending := n.pending[o := ToClose(n.rows[h])])
      else n
    case SendFc(o, d) =>
      var c := n.pending[o].conn;
      var n' := n.(pending := n.pending - {o});
      (match d
       case Delivered => n'.(plc := n.plc - {c})
       case Failed(applied) =>
         n'.(faults := n.faults + {c}, plc := if applied then n.plc - {c} else n.plc))
    case WipeRow(h) =>
      if h in n.rows then n.(rows := n.rows - {h}, orphans := n.orphans + {n.rows[h]}) else n
    case PlcDrop(c) => n.(plc := n.plc - {c}, faults := n.faults + {c})
  }

  // ---------------------------------------------------------------- conservation

  datatype Holder = Row(h: nat) | Thread(o: Owner) | Orphaned

  ghost predicate Holds(n: Net, w: Holder, c: Conn) {
    match w
    case Row(h) => h in n.rows && n.rows[h] == c
    case Thread(o) => o in n.pending && n.pending[o].conn == c
    case Orphaned => c in n.orphans
  }

  ghost predicate Held(n: Net, c: Conn) {
    exists w :: Holds(n, w, c)
  }

  /** Outside the connections touched by a fault, the PLC has open exactly what the client
      accounts for, and every connection is accounted for in one place only. */
  ghost predicate Conserved(n: Net) {
    && |n.rows| <= MAX_CONNS
    && (forall c :: c !in n.faults ==> (c in n.plc <==> Held(n, c)))
    && (forall w, v, c :: Holds(n, w, c) && Holds(n, v, c) && c !in n.faults ==> w == v)
    && (forall w, c :: Holds(n, w, c) ==> c in n.granted)
  }

  /** What one Op does to the account of a connection. */
  lemma HolderMoves(n: Net, op: Op, w: Holder, c: Conn)
    requires Enabled(n, op) && Holds(Apply(n, op), w, c)
    ensures Holds(n, w, c)
         || (op.LfoGranted? && c == op.c && w == Thread(op.o))
         || (op.InsertRow? && w == Row(op.h) && Accepts(n.rows, op.h) && n.pending[op.o].conn == c)
         || (op.TakeRow? && w == Thread(op.o) && op.h in n.rows && n.rows[op.h] == c)
         || (op.WipeRow? && w == Orphaned && op.h in n.rows && n.rows[op.h] == c)
  {
  }

  lemma UniqueAfter(n: Net, op: Op, w: Holder, v: Holder, c: Conn)
    requires Conserved(n) && Enabled(n, op)
    requires Holds(Apply(n, op), w, c) && Holds(Apply(n, op), v, c) && c !in Apply(n, op).faults
    ensures w == v
  {
    HolderMoves(n, op, w, c);
    HolderMoves(n, op, v, c);
    match op
    case LfoGranted(o, g) =>
      assert c == g ==> !Held(n, g);
    case InsertRow(o, h) =>
      assert n.pending[o].conn == c ==> Holds(n, Thread(o), c);
    case TakeRow(o, h) =>
      assert h in n.rows && n.rows[h] == c ==> Holds(n, Row(h), c);
    case WipeRow(h) =>
      assert h in n.rows && n.rows[h] == c ==> Holds(n, Row(h), c);
    case _ =>
  }

  lemma HeldAfter(n: Net, op: Op, c: Conn)
    requires Conserved(n) && Enabled(n, op) && c !in Apply(n, op).faults
    ensures c in Apply(n, op).plc <==> Held(Apply(n, op), c)
  {
    var n' := Apply(n, op);
    if Held(n', c) {
      var w :| Holds(n', w, c);
      HolderMoves(n, op, w, c);
      assert op.SendFc? && n.pending[op.o].conn == c ==> Holds(n, Thread(op.o), c);
      assert op.InsertRow? && w == Row(op.h) ==> Holds(n, Thread(op.o), c) || Holds(n, w, c);
      assert op.TakeRow? && op.h in n.rows && n.rows[op.h] == c ==> Holds(n, Row(op.h), c);
      assert op.WipeRow? && op.h in n.rows && n.rows[op.h] == c ==> Holds(n, Row(op.h), c);
    }
    if c in n'.plc {
      if op.LfoGranted? && op.c == c {
        assert Holds(n', Thread(op.o), c);
      } else {
        assert Held(n, c);
        var w :| Holds(n, w, c);
        HolderStays(n, op, w, c);
      }
    }
  }

  lemma HolderStays(n: Net, op: Op, w: Holder, c: Conn)
    requires Enabled(n, op) && Holds(n, w, c)
    requires c in Apply(n, op).plc && c !in Apply(n, op).faults
    ensures Held(Apply(n, op), c)
  {
    var n' := Apply(n, op);
    match w
    case Orphaned => assert Holds(n', Orphaned, c);
    case Row(h) =>
      if h in n'.rows && n'.rows[h] == c {
        assert Holds(n', w, c);
      } else if op.TakeRow? {
        assert Holds(n', Thread(op.o), c);
      } else {
        assert Holds(n', Orphaned, c);
      }
    case Thread(o) =>
      if o in n'.pending {
        assert Holds(n', w, c);
      } else if op.InsertRow? {
        assert Holds(n', Row(op.h), c);
      }
  }

  /** One critical section or message exchange keeps the account balanced. */
  lemma OpConserves(n: Net, op: Op)
    requires Conserved(n) && Enabled(n, op)
    ensures Conserved(Apply(n, op))
  {
    var n' := Apply(n, op);
    forall c | c !in n'.faults ensures c in n'.plc <==> Held(n', c) {
      HeldAfter(n, op, c);
    }
    forall w, v, c | Holds(n', w, c) && Holds(n', v, c) && c !in n'.faults ensures w == v {
      UniqueAfter(n, op, w, v, c);
    }
    forall w, c | Holds(n', w, c) ensures c in n'.granted {
      HolderMoves(n, op, w, c);
      assert op.InsertRow? && n.pending[op.o].conn == c ==> Holds(n, Thread(op.o), c);
      assert op.TakeRow? && op.h in n.rows && n.rows[op.h] == c ==> Holds(n, Row(op.h), c);
      assert op.WipeRow? && op.h in n.rows && n.rows[op.h] == c ==> Holds(n, Row(op.h), c);
    }
  }

  /** A Forward_Close carries the triad and goes to the slot of a connection the PLC granted. */
  lemma CloseNamesAGrant(n: Net, o: Owner, d: Delivery)
    requires Conserved(n) && Enabled(n, SendFc(o, d))
    ensures n.pending[o].conn in n.granted
    ensures n.pending[o].conn !in n.faults ==> n.pending[o].conn in n.plc
  {
    assert Holds(n, Thread(o), n.pending[o].conn);
  }

  /** The table without the connections a fault touched. */
  function SureRows(n: Net): map<nat, Conn> {
    map h | h in n.rows && n.rows[h] !in n.faults :: n.rows[h]
  }

  /** Nothing in flight: outside the connections a fault touched, the PLC's connections are the table rows
      plus the ones force_close_local dropped, each once. */
  lemma BalanceOutsideFaults(n: Net)
    requires Conserved(n) && n.pending == map[]
    ensures n.plc - n.faults == (n.rows.Values + n.orphans) - n.faults
    ensures n.rows.Values * n.orphans <= n.faults
    ensures |n.plc - n.faults| == |SureRows(n)| + |n.orphans - n.faults|
  {
    forall c | c !in n.faults ensures c in n.plc <==> c in n.rows.Values + n.orphans {
      if c in n.plc {
        var w :| Holds(n, w, c);
      }
      if c in n.rows.Values {
        var h :| h in n.rows && n.rows[h] == c;
        assert Holds(n, Row(h), c);
      }
      if c in n.orphans {
        assert Holds(n, Orphaned, c);
      }
    }
    forall c | c in n.rows.Values && c !in n.faults ensures c !in n.orphans {
      var h :| h in n.rows && n.rows[h] == c;
      assert Holds(n, Row(h), c) && !Holds(n, Orphaned, c);
    }
    var sure := SureRows(n);
    forall g, h | g in sure && h in sure && sure[g] == sure[h] ensures g == h {
      assert Holds(n, Row(g), sure[g]) && Holds(n, Row(h), sure[g]);
    }
    InjectiveValues(sure);
    assert n.plc - n.faults == sure.Values + (n.orphans - n.faults) by {
      SureValues(n);
    }
  }

  lemma SureValues(n: Net)
    ensures SureRows(n).Values == n.rows.Values - n.faults
  {
    var sure := SureRows(n);
    forall c | c in n.rows.Values - n.faults ensures c in sure.Values {
      var h :| h in n.rows && n.rows[h] == c;
      assert h in sure && sure[h] == c;
    }
  }

  /** Nothing in flight and no fault so far: so they are exactly these, each once. */
  lemma QuiescentBalance(n: Net)
    requires Conserved(n) && n.pending == map[] && n.faults == {}
    ensures n.plc == n.rows.Values + n.orphans
    ensures n.rows.Values !! n.orphans
    ensures |n.plc| == |n.rows| + |n.orphans|
  {
    BalanceOutsideFaults(n);
    AllSure(n);
  }

  lemma AllSure(n: Net)
    requires n.faults == {}
    ensures SureRows(n) == n.rows && n.plc - n.faults == n.plc && n.orphans - n.faults == n.orphans
    ensures (n.rows.Values + n.orphans) - n.faults == n.rows.Values + n.orphans
  {
  }

  lemma {:induction false} InjectiveValues(m: map<nat, Conn>)
    requires forall g, h :: g in m && h in m && m[g] == m[h] ==> g == h
    ensures |m.Values| == |m|
    decreases |m|
  {
    if |m| != 0 {
      var h :| h in m;
      var rest := m - {h};
      InjectiveValues(rest);
      forall c | c in m.Values ensures c in rest.Values + {m[h]} {
        var g :| g in m && m[g] == c;
        assert g != h ==> g in rest && rest[g] == c;
      }
      assert m.Values == rest.Values + {m[h]};
      assert m[h] !in rest.Values;
    }
  }
}
