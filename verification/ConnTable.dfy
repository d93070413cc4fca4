/** The txrx_conns array of c/src/conn.c, updated in place.  Each method is one critical
    section under txrx_mu and is specified by what it does to the map ConnLayer works with. */
module ConnTable {
  import opened Common
  import opened ConnLayer

  datatype TableRow = TableRow(
    inUse: bool, appHandle: nat, slot: nat, serial: nat, vendor: nat, orig: nat,
    otConnId: nat, toConnId: nat, sequence: nat)

  const UNUSED := TableRow(false, 0, 0, 0, 0, 0, 0, 0, 0)

  datatype Outcome = Ok | AlreadyOpen | NoFreeRow | NotOpen

  function ConnOf(r: TableRow): Conn {
    Conn(r.slot, r.serial, r.vendor, r.orig)
  }

  ghost predicate UniqueHandles(s: seq<TableRow>) {
    forall i, j :: 0 <= i < j < |s| && s[i].inUse && s[j].inUse ==> s[i].appHandle != s[j].appHandle
  }

  /** The connections an array of rows stands for. */
  ghost function RowMap(s: seq<TableRow>): map<nat, Conn> {
    if s == [] then map[] else
      var m := RowMap(s[..|s| - 1]);
      var r := s[|s| - 1];
      if r.inUse then m[r.appHandle := ConnOf(r)] else m
  }

  lemma {:induction false} RowMapSound(s: seq<TableRow>, h: nat) returns (i: nat)
    requires h in RowMap(s)
    ensures i < |s| && s[i].inUse && s[i].appHandle == h && RowMap(s)[h] == ConnOf(s[i])
  {
    var r := s[|s| - 1];
    if r.inUse && r.appHandle == h {
      i := |s| - 1;
    } else {
      i := RowMapSound(s[..|s| - 1], h);
    }
  }

  lemma {:induction false} RowMapComplete(s: seq<TableRow>, i: nat)
    requires UniqueHandles(s) && i < |s| && s[i].inUse
    ensures s[i].appHandle in RowMap(s) && RowMap(s)[s[i].appHandle] == ConnOf(s[i])
  {
    if i < |s| - 1 {
      RowMapComplete(s[..|s| - 1], i);
    }
  }

  /** With unique handles each connection in the map has exactly one row in use. */
  lemma OneRowEach(s: seq<TableRow>, h: nat)
    requires UniqueHandles(s)
    ensures h in RowMap(s) <==>
            exists i :: 0 <= i < |s| && s[i].inUse && s[i].appHandle == h
    ensures forall i, j ::
      0 <= i < |s| && 0 <= j < |s| && s[i].inUse && s[j].inUse && s[i].appHandle == h == s[j].appHandle ==>
        i == j
  {
    if h in RowMap(s) {
      var i := RowMapSound(s, h);
    }
    if i :| 0 <= i < |s| && s[i].inUse && s[i].appHandle == h {
      RowMapComplete(s, i);
    }
  }

  /** The map is as large as the array exactly when every row is in use. */
  lemma {:induction false} RowMapSize(s: seq<TableRow>)
    requires UniqueHandles(s)
    ensures |RowMap(s)| <= |s|
    ensures |RowMap(s)| == |s| <==> forall i :: 0 <= i < |s| ==> s[i].inUse
  {
    if s != [] {
      var front := s[..|s| - 1];
      var r := s[|s| - 1];
      RowMapSize(front);
      if r.inUse && r.appHandle in RowMap(front) {
        var i := RowMapSound(front, r.appHandle);
        assert false;
      }
    }
  }

  lemma RowMapUpdate(s: seq<TableRow>, i: nat, r: TableRow)
    requires UniqueHandles(s) && i < |s|
    requires UniqueHandles(s[i := r])
    ensures RowMap(s[i := r]) ==
      var rest := if s[i].inUse then RowMap(s) - {s[i].appHandle} else RowMap(s);
      if r.inUse then rest[r.appHandle := ConnOf(r)] else rest
  {
    var t := s[i := r];
    var rest := if s[i].inUse then RowMap(s) - {s[i].appHandle} else RowMap(s);
    var want := if r.inUse then rest[r.appHandle := ConnOf(r)] else rest;
    forall h | h in RowMap(t) ensures h in want && want[h] == RowMap(t)[h] {
      var j := RowMapSound(t, h);
      if j != i {
        RowMapComplete(s, j);
        assert r.inUse ==> t[i].appHandle != h;
      }
    }
    forall h | h in want ensures h in RowMap(t) {
      if r.inUse && h == r.appHandle {
        RowMapComplete(t, i);
      } else {
        var j := RowMapSound(s, h);
        assert t[j] == s[j];
        RowMapComplete(t, j);
      }
    }
  }

  class TxRxTable {
    const rows: array<TableRow>

    ghost predicate Valid()
      reads this, rows
    {
      rows.Length == MAX_CONNS && UniqueHandles(rows[..])
    }

    ghost function Contents(): map<nat, Conn>
      reads this, rows
      requires Valid()
    {
      RowMap(rows[..])
    }

    constructor ()
      ensures Valid() && fresh(rows) && Contents() == map[]
    {
      rows := new TableRow[MAX_CONNS](i => UNUSED);
      new;
      if h :| h in RowMap(rows[..]) {
        var i := RowMapSound(rows[..], h);
      }
    }

    method FindConn(h: nat) returns (found: Option<nat>)
      requires Valid()
      ensures found.None? <==> h !in Contents()
      ensures found.Some? ==>
        && found.value < rows.Length && rows[found.value].inUse
        && rows[found.value].appHandle == h && Contents()[h] == ConnOf(rows[found.value])
    {
      ghost var all := rows[..];
      for i := 0 to MAX_CONNS
        invariant forall j :: 0 <= j < i ==> !(rows[j].inUse && rows[j].appHandle == h)
      {
        if rows[i].inUse && rows[i].appHandle == h {
          RowMapComplete(all, i);
          return Some(i);
        }
      }
      OneRowEach(all, h);
      return None;
    }

    method AllocConn() returns (free: Option<nat>)
      requires Valid()
      ensures free.None? <==> |Contents()| == MAX_CONNS
      ensures free.Some? ==> free.value < rows.Length && !rows[free.value].inUse
    {
      RowMapSize(rows[..]);
      for i := 0 to MAX_CONNS
        invariant forall j :: 0 <= j < i ==> rows[j].inUse
      {
        if !rows[i].inUse {
          return Some(i);
        }
      }
      return None;
    }

    /** The second half of bp_client_txrx_open, after the PLC granted the connection. */
    method CacheConnection(h: nat, c: Conn, otConnId: nat, toConnId: nat) returns (rc: Outcome)
      requires Valid()
      modifies rows
      ensures Valid()
      ensures rc == if h in old(Contents()) then AlreadyOpen
                    else if |old(Contents())| == MAX_CONNS then NoFreeRow else Ok
      ensures rc.Ok? <==> Accepts(old(Contents()), h)
      ensures Contents() == if rc.Ok? then old(Contents())[h := c] else old(Contents())
    {
      RowMapSize(rows[..]);
      var existing := FindConn(h);
      if existing.Some? {
        return AlreadyOpen;
      }
      var free := AllocConn();
      if free.None? {
        return NoFreeRow;
      }
      var i := free.value;
      ghost var before := rows[..];
      rows[i] := TableRow(true, h, c.slot, c.serial, c.vendor, c.orig, otConnId, toConnId, 0);
      OneRowEach(before, h);
      assert rows[..] == before[i := rows[i]];
      RowMapUpdate(before, i, rows[i]);
      return Ok;
    }

    /** The critical section of bp_client_txrx_msg. */
    method BeginMessage(h: nat) returns (slot: Option<nat>)
      requires Valid()
      modifies rows
      ensures Valid() && Contents() == old(Contents())
      ensures slot == if h in Contents() then Some(Contents()[h].slot) else None
      ensures forall i :: 0 <= i < rows.Length ==>
                rows[i] == if old(rows[i]).inUse && old(rows[i]).appHandle == h
                           then old(rows[i]).(sequence := old(rows[i]).sequence + 1) else old(rows[i])
    {
      var found := FindConn(h);
      if found.None? {
        OneRowEach(rows[..], h);
        return None;
      }
      var i := found.value;
      ghost var before := rows[..];
      rows[i] := rows[i].(sequence := rows[i].sequence + 1);
      assert rows[..] == before[i := rows[i]];
      RowMapUpdate(before, i, rows[i]);
      OneRowEach(before, h);
      return Some(rows[i].slot);
    }

    /** The critical section of bp_client_txrx_close, and all of bp_txrx_force_close_local. */
    method TakeRow(h: nat) returns (taken: Option<Conn>)
      requires Valid()
      modifies rows
      ensures Valid()
      ensures taken == if h in old(Contents()) then Some(old(Contents())[h]) else None
      ensures Contents() == old(Contents()) - {h}
    {
      var found := FindConn(h);
      if found.None? {
        return None;
      }
      var i := found.value;
      ghost var before := rows[..];
      taken := Some(ConnOf(rows[i]));
      rows[i] := rows[i].(inUse := false);
      assert rows[..] == before[i := rows[i]];
      RowMapUpdate(before, i, rows[i]);
    }
  }
}
