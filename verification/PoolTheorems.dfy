/** What the invariant means for a client: the promises of the pool and connection layers. */
module PoolTheorems {
  import opened ConnLayer
  import opened PoolVars
  import opened PoolMachine
  import opened PoolInvariant
  import opened PoolSystem

  /** A live entry of a published pool has its row, to the pool's own slot; a caller that borrowed an
      entry finds that row, so the message inside pool_txrx is never refused as not open. */
  lemma BorrowedConnectionIsOpen(run: seq<State>, es: seq<Event>, i: nat, slot: nat)
    requires IsRun(run, es) && i < |run| && slot < MAX_POOLS
    ensures var w, n := run[i].pools[slot], run[i].n;
      && (w.p.initialized ==> w.p.size <= |w.p.entries| && forall x :: 0 <= x < w.p.size ==>
            && w.p.entries[x].handle == Handle(slot, x)
            && (!w.p.entries[x].dead ==> Handle(slot, x) in n.rows && n.rows[Handle(slot, x)].slot == slot))
      && (forall t :: t in w.callers && !w.callers[t].Waiting? ==>
            && w.callers[t].handle in n.rows && n.rows[w.callers[t].handle].slot == slot
            && (w.callers[t].Sent? ==> w.callers[t].found))
  {
    EveryRun(run, es, i);
    assert PoolOk(run[i], slot);
    var w := run[i].pools[slot];
    forall t | t in w.callers && !w.callers[t].Waiting?
      ensures w.callers[t].handle in run[i].n.rows && run[i].n.rows[w.callers[t].handle].slot == slot
    {
      assert CallerHolds(w, t, w.callers[t].i);
      assert HasRow(slot, run[i].n, w.callers[t].i);
    }
    forall x | w.p.initialized && 0 <= x < w.p.size && !w.p.entries[x].dead
      ensures Handle(slot, x) in run[i].n.rows && run[i].n.rows[Handle(slot, x)].slot == slot
    {
      assert HasRow(slot, run[i].n, x);
    }
  }

  datatype Borrower = ByCall(t: nat) | ByKeepalive

  ghost predicate Borrows(w: World, b: Borrower, x: nat) {
    match b
    case ByCall(t) => CallerHolds(w, t, x)
    case ByKeepalive => KaHolds(w.keepalive, x)
  }

  /** An entry is marked in use exactly while one caller, ping or reopen has it, and never two. */
  lemma ExclusiveBorrow(run: seq<State>, es: seq<Event>, i: nat, slot: nat, x: nat)
    requires IsRun(run, es) && i < |run| && slot < MAX_POOLS && x < MAX_SIZE
    ensures var w := run[i].pools[slot];
      && |w.p.entries| == MAX_SIZE
      && (w.p.entries[x].inUse <==> exists b :: Borrows(w, b, x))
      && (forall b, d :: Borrows(w, b, x) && Borrows(w, d, x) ==> b == d)
  {
    EveryRun(run, es, i);
    assert PoolOk(run[i], slot);
    var w := run[i].pools[slot];
    if w.p.entries[x].inUse {
      if KaHolds(w.keepalive, x) {
        assert Borrows(w, ByKeepalive, x);
      } else {
        var t :| CallerHolds(w, t, x);
        assert Borrows(w, ByCall(t), x);
      }
    }
  }

  /** At every quiescent point, outside the connections a fault touched, the PLC holds exactly the table
      and the connections auto-reopen abandoned, each once; without faults that is all of them.  The
      table holds at most 16. */
  lemma ConnectionsConserved(run: seq<State>, es: seq<Event>, i: nat)
    requires IsRun(run, es) && i < |run| && run[i].n.pending == map[]
    ensures var n := run[i].n;
      && n.plc - n.faults == (n.rows.Values + n.orphans) - n.faults && n.rows.Values * n.orphans <= n.faults
      && |n.plc - n.faults| == |SureRows(n)| + |n.orphans - n.faults| && |n.rows| <= MAX_CONNS
      && (n.faults == {} ==>
            && n.plc == n.rows.Values + n.orphans && n.rows.Values !! n.orphans
            && |n.plc| == |n.rows| + |n.orphans|)
  {
    EveryRun(run, es, i);
    BalanceOutsideFaults(run[i].n);
    if run[i].n.faults == {} {
      QuiescentBalance(run[i].n);
    }
  }

  /** Whatever goes wrong, each Forward_Close names a connection an earlier open was granted, and
      unless a fault touched it the PLC still has it open. */
  lemma ClosesWhatWasOpened(run: seq<State>, es: seq<Event>, i: nat, o: Owner, d: Delivery)
    requires IsRun(run, es) && i < |run| && Enabled(run[i].n, SendFc(o, d))
    ensures run[i].n.pending[o].conn in run[i].n.granted
    ensures run[i].n.pending[o].conn !in run[i].n.faults ==> run[i].n.pending[o].conn in run[i].n.plc
  {
    EveryRun(run, es, i);
    CloseNamesAGrant(run[i].n, o, d);
  }

  // ---------------------------------------------------------------- open is all or nothing

  predicate InRange(slot: nat, h: nat) {
    Handle(slot, 0) <= h < Handle(slot + 1, 0)
  }

  lemma RowIndex(s: State, slot: nat, h: nat) returns (x: nat)
    requires SysInv(s) && slot < MAX_POOLS && InRange(slot, h) && h in s.n.rows
    ensures x < MAX_SIZE && h == Handle(slot, x) && HasRow(slot, s.n, x)
  {
    assert PoolHandle(h);
    var k: nat, i: nat :| k < MAX_POOLS && i < MAX_SIZE && h == Handle(k, i);
    x := i;
  }

  /** No pool and no open or close running: the slot's whole handle range is empty. */
  lemma UnopenedSlotHasNoRows(run: seq<State>, es: seq<Event>, i: nat, slot: nat, h: nat)
    requires IsRun(run, es) && i < |run| && slot < MAX_POOLS && InRange(slot, h)
    requires var w := run[i].pools[slot]; !w.p.initialized && w.lifecycle.Idle?
    ensures h !in run[i].n.rows
  {
    EveryRun(run, es, i);
    ClearedRows(run[i], slot);
  }

  predicate OpenRunning(w: World) {
    w.lifecycle.Opening? || w.lifecycle.RollingBack?
  }

  /** The pool_open that a running open belongs to, and the size it was asked for. */
  lemma {:induction false} OpenBegan(run: seq<State>, es: seq<Event>, i: nat, slot: nat) returns (a: nat)
    requires IsRun(run, es) && i < |run| && slot < MAX_POOLS && OpenRunning(run[i].pools[slot])
    ensures a < i && es[a].OnPool? && es[a].slot == slot && es[a].st.PoolOpen?
    ensures forall j :: a < j <= i ==>
              OpenRunning(run[j].pools[slot]) && run[j].pools[slot].p.size == es[a].st.size
  {
    if es[i - 1].OnPool? && es[i - 1].slot == slot && es[i - 1].st.PoolOpen? {
      a := i - 1;
    } else {
      OpenGoesOn(run[i - 1], es[i - 1], slot);
      a := OpenBegan(run, es, i - 1, slot);
    }
  }

  lemma OpenStepGoesOn(slot: nat, c: Config, st: Step)
    requires c.w.p.Wellformed() && Can(slot, c, st) && !st.PoolOpen? && OpenRunning(Do(slot, c, st).w)
    ensures OpenRunning(c.w) && Do(slot, c, st).w.p.size == c.w.p.size
  {
  }

  lemma OpenGoesOn(s: State, e: Event, slot: nat)
    requires CanHappen(s, e) && slot < |s.pools| && OpenRunning(Happen(s, e).pools[slot])
    requires !(e.OnPool? && e.slot == slot && e.st.PoolOpen?)
    ensures OpenRunning(s.pools[slot]) && Happen(s, e).pools[slot].p.size == s.pools[slot].p.size
  {
    if e.OnPool? && e.slot == slot {
      OpenStepGoesOn(slot, Config(s.pools[slot], s.n), e.st);
    }
  }

  ghost predicate RowsExactly(n: Net, slot: nat, size: nat) {
    forall h: nat :: InRange(slot, h) ==> (h in n.rows <==> h < Handle(slot, size))
  }

  /** A successful open leaves exactly the size asked for, all free and live; a failed one none. */
  lemma OpenAllOrNothing(run: seq<State>, es: seq<Event>, i: nat, slot: nat) returns (a: nat)
    requires IsRun(run, es) && i < |es| && slot < MAX_POOLS && es[i].OnPool? && es[i].slot == slot
    requires es[i].st.OpenPublish? || es[i].st.RollClear?
    ensures a < i && es[a].OnPool? && es[a].slot == slot && es[a].st.PoolOpen?
    ensures forall j :: a < j <= i ==> OpenRunning(run[j].pools[slot])
    ensures var w, n := run[i + 1].pools[slot], run[i + 1].n;
      if es[i].st.OpenPublish? then
        && w.p.initialized && w.p.size == es[a].st.size
        && RowsExactly(n, slot, es[a].st.size)
        && (forall x :: 0 <= x < w.p.size <= |w.p.entries| ==> w.p.entries[x].Free())
      else
        !w.p.initialized && RowsExactly(n, slot, 0)
  {
    a := OpenBegan(run, es, i, slot);
    EveryRun(run, es, i);
    EveryRun(run, es, i + 1);
    assert PoolOk(run[i], slot) && PoolOk(run[i + 1], slot);
    var c := Config(run[i].pools[slot], run[i].n);
    if es[i].st.OpenPublish? {
      PublishedAllFree(slot, c, es[i].st);
      PublishedRows(run[i], slot, es[i].st);
    } else {
      ClearedRows(run[i + 1], slot);
    }
  }

  lemma PublishedRows(s: State, slot: nat, st: Step)
    requires SysInv(s) && slot < MAX_POOLS && CanHappen(s, OnPool(slot, st)) && st.OpenPublish?
    ensures RowsExactly(s.n, slot, s.pools[slot].p.size)
  {
    assert PoolOk(s, slot);
    forall h: nat | InRange(slot, h)
      ensures h in s.n.rows <==> h < Handle(slot, s.pools[slot].p.size)
    {
      if h in s.n.rows {
        var x := RowIndex(s, slot, h);
      }
      if h < Handle(slot, s.pools[slot].p.size) {
        assert HasRow(slot, s.n, h - Handle(slot, 0));
      }
    }
  }

  lemma ClearedRows(s: State, slot: nat)
    requires SysInv(s) && slot < MAX_POOLS && !s.pools[slot].p.initialized && s.pools[slot].lifecycle.Idle?
    ensures RowsExactly(s.n, slot, 0)
  {
    assert PoolOk(s, slot);
    forall h: nat | InRange(slot, h) ensures h !in s.n.rows {
      if h in s.n.rows {
        var x := RowIndex(s, slot, h);
        assert false;
      }
    }
  }

  lemma PublishedAllFree(slot: nat, c: Config, st: Step)
    requires Inv(slot, c) && Can(slot, c, st) && st.OpenPublish?
    ensures forall x :: 0 <= x < MAX_SIZE ==> Do(slot, c, st).w.p.entries[x].Free()
  {
    forall x | 0 <= x < MAX_SIZE ensures !c.w.p.entries[x].inUse {
      assert !KaHolds(c.w.keepalive, x);
    }
  }

  /** When a pool's own open or reopen comes to insert its row, the handle is never found in use: that
      insertion only ever fails on a full table. */
  lemma OwnHandleIsVacant(run: seq<State>, es: seq<Event>, i: nat, slot: nat)
    requires IsRun(run, es) && i < |run| && slot < MAX_POOLS
    ensures var w, n := run[i].pools[slot], run[i].n;
      && (w.lifecycle.Opening? && w.lifecycle.stage.ToInsert? ==> Handle(slot, w.lifecycle.i) !in n.rows)
      && (w.keepalive.Reopening? && w.keepalive.stage.ToInsert? ==> Handle(slot, w.keepalive.i) !in n.rows)
  {
    EveryRun(run, es, i);
    assert PoolOk(run[i], slot);
    var w, n := run[i].pools[slot], run[i].n;
    if w.lifecycle.Opening? && w.lifecycle.stage.ToInsert? {
      assert !HasRow(slot, n, w.lifecycle.i);
    }
    if w.keepalive.Reopening? && w.keepalive.stage.ToInsert? {
      assert !HasRow(slot, n, w.keepalive.i);
    }
  }
}
