/** The whole client: one pool per backplane slot, connections the application manages itself,
    the shared table of 16 rows and the PLC, in every interleaving. */
module PoolSystem {
  import opened Common
  import opened ConnLayer
  import opened PoolVars
  import opened PoolMachine
  import opened PoolInvariant

  datatype State = State(pools: seq<World>, n: Net)

  /** Managed stands for bp_client_txrx_open and _close called by the application, whose handles
      stay below the reserved range, and for connections the PLC drops by itself. */
  datatype Event = OnPool(slot: nat, st: Step) | Managed(op: Op)

  const UNOPENED := World(ZERO, NoThread, map[], Idle)

  ghost predicate Init(s: State) {
    |s.pools| == MAX_POOLS && (forall k :: 0 <= k < MAX_POOLS ==> s.pools[k] == UNOPENED) && s.n == EMPTY
  }

  predicate ManagedOp(op: Op) {
    match op
    case LfoGranted(o, c) => o.Caller?
    case LfoRefused(o) => o.Caller?
    case LfoReplyLost(o, c) => o.Caller?
    case InsertRow(o, h) => o.Caller? && h < HANDLE_BASE
    case TakeRow(o, h) => o.Caller? && h < HANDLE_BASE
    case SendFc(o, d) => o.Caller?
    case WipeRow(h) => false
    case PlcDrop(c) => true
  }

  ghost predicate AllIdle(s: State) {
    forall k :: 0 <= k < |s.pools| ==> s.pools[k].lifecycle.Idle?
  }

  /** pools_mu lets one open or close run at a time in the whole client. */
  ghost predicate CanHappen(s: State, e: Event) {
    match e
    case OnPool(slot, st) =>
      && slot < |s.pools| && s.pools[slot].p.Wellformed()
      && Can(slot, Config(s.pools[slot], s.n), st)
      && (st.PoolOpen? || st.PoolClose? ==> AllIdle(s))
    case Managed(op) => ManagedOp(op) && Enabled(s.n, op)
  }

  ghost function Happen(s: State, e: Event): State
    requires CanHappen(s, e)
  {
    match e
    case OnPool(slot, st) =>
      var c := Do(slot, Config(s.pools[slot], s.n), st);
      State(s.pools[slot := c.w], c.n)
    case Managed(op) => s.(n := Apply(s.n, op))
  }

  /** A run: the events that happened, one after the other, and the states between them. */
  ghost predicate IsRun(run: seq<State>, es: seq<Event>) {
    && |run| == |es| + 1 && Init(run[0])
    && (forall s :: s in run ==> |s.pools| == MAX_POOLS)
    && forall i :: 0 <= i < |es| ==> CanHappen(run[i], es[i]) && run[i + 1] == Happen(run[i], es[i])
  }

  // ---------------------------------------------------------------- the system invariant

  ghost predicate PoolOk(s: State, k: nat)
    requires k < |s.pools|
  {
    Inv(k, Config(s.pools[k], s.n))
  }

  ghost predicate PoolHandle(h: nat) {
    exists k: nat, i: nat :: k < MAX_POOLS && i < MAX_SIZE && h == Handle(k, i)
  }

  ghost predicate SysInv(s: State) {
    && |s.pools| == MAX_POOLS
    && Conserved(s.n)
    && (forall k :: 0 <= k < MAX_POOLS ==> PoolOk(s, k))
    && (forall j, k :: 0 <= j < k < MAX_POOLS ==> s.pools[j].lifecycle.Idle? || s.pools[k].lifecycle.Idle?)
    && (AllIdle(s) ==> Lifecycle !in s.n.pending)
    && (forall h :: h in s.n.rows ==> h < HANDLE_BASE || PoolHandle(h))
  }

  /** A pool is unaffected by anything that leaves its own rows and in-flight connections alone. */
  lemma Undisturbed(k: nat, w: World, n: Net, n': Net)
    requires Inv(k, Config(w, n))
    requires forall i :: 0 <= i < MAX_SIZE ==>
               (HasRow(k, n', i) <==> HasRow(k, n, i))
               && (HasRow(k, n, i) ==> n'.rows[Handle(k, i)] == n.rows[Handle(k, i)])
    requires Keepalive(k) in n'.pending <==> Keepalive(k) in n.pending
    requires Keepalive(k) in n.pending ==> n'.pending[Keepalive(k)] == n.pending[Keepalive(k)]
    requires !w.lifecycle.Idle? ==> (Lifecycle in n'.pending <==> Lifecycle in n.pending)
    requires !w.lifecycle.Idle? && Lifecycle in n.pending ==> n'.pending[Lifecycle] == n.pending[Lifecycle]
    ensures Inv(k, Config(w, n'))
  {
    assert w.keepalive.Reopening? ==> KaHolds(w.keepalive, w.keepalive.i);
    assert Rows(k, w, n');
    assert Carried(k, w, n');
  }

  /** The one Op of the connection layer inside a pool step, if it has one. */
  function OpOf(slot: nat, c: Config, st: Step): Option<Op>
    requires c.w.p.Wellformed() && Can(slot, c, st)
  {
    match st
    case KaWipe => Some(WipeRow(c.w.p.entries[c.w.keepalive.i].handle))
    case KaOpenStep(op) => Some(op)
    case OpenStep(op) => Some(op)
    case RollTake => Some(TakeRow(Lifecycle, c.w.p.entries[c.w.lifecycle.next].handle))
    case RollFc(d) => Some(SendFc(Lifecycle, d))
    case CloseTake =>
      var h := c.w.p.entries[c.w.lifecycle.next].handle;
      if h == 0 then None else Some(TakeRow(Lifecycle, h))
    case CloseFc(d) => Some(SendFc(Lifecycle, d))
    case _ => None
  }

  lemma StepIsOp(slot: nat, c: Config, st: Step)
    requires c.w.p.Wellformed() && Can(slot, c, st)
    ensures match OpOf(slot, c, st)
            case None => Do(slot, c, st).n == c.n
            case Some(op) => Enabled(c.n, op) && Do(slot, c, st).n == Apply(c.n, op)
  {
  }

  /** The handles and the owners a pool's own Op mentions are its own. */
  lemma OpIsLocal(slot: nat, c: Config, st: Step)
    requires Inv(slot, c) && Can(slot, c, st) && OpOf(slot, c, st).Some?
    ensures var op := OpOf(slot, c, st).value;
            && (op.InsertRow? || op.TakeRow? || op.WipeRow? ==>
                  exists i: nat :: i < MAX_SIZE && op.h == Handle(slot, i))
            && !op.PlcDrop?
            && (!op.WipeRow? ==> op.o == if st.ByKeepalive() then Keepalive(slot) else Lifecycle)
            && (!op.WipeRow? && !st.ByKeepalive() ==> !c.w.lifecycle.Idle?)
  {
    var w := c.w;
    match st
    case KaWipe => assert w.p.entries[w.keepalive.i].handle == Handle(slot, w.keepalive.i);
    case KaOpenStep(op) => assert w.p.entries[w.keepalive.i].handle == Handle(slot, w.keepalive.i);
    case OpenStep(op) => assert op.InsertRow? ==> op.h == Handle(slot, w.lifecycle.i);
    case RollTake => assert w.p.entries[w.lifecycle.next].handle == Handle(slot, w.lifecycle.next);
    case CloseTake => assert w.p.entries[w.lifecycle.next].handle == Handle(slot, w.lifecycle.next);
    case _ =>
  }

  lemma OtherRowsKept(n: Net, op: Op, slot: nat, k: nat)
    requires Enabled(n, op) && !op.PlcDrop? && k != slot
    requires op.InsertRow? || op.TakeRow? || op.WipeRow? ==>
               exists i: nat :: i < MAX_SIZE && op.h == Handle(slot, i)
    ensures forall i :: 0 <= i < MAX_SIZE ==>
              (HasRow(k, Apply(n, op), i) <==> HasRow(k, n, i))
              && (HasRow(k, n, i) ==> Apply(n, op).rows[Handle(k, i)] == n.rows[Handle(k, i)])
  {
  }

  /** A pool with no open or close running is unaffected by another pool's Op; one with is affected
      only if that Op were the lifecycle thread's. */
  lemma UndisturbedByOp(k: nat, w: World, n: Net, op: Op, slot: nat)
    requires Inv(k, Config(w, n)) && Enabled(n, op) && !op.PlcDrop? && k != slot
    requires op.InsertRow? || op.TakeRow? || op.WipeRow? ==>
               exists i: nat :: i < MAX_SIZE && op.h == Handle(slot, i)
    requires !op.WipeRow? ==> op.o != Keepalive(k) && (op.o == Lifecycle ==> w.lifecycle.Idle?)
    ensures Inv(k, Config(w, Apply(n, op)))
  {
    OtherRowsKept(n, op, slot, k);
    Undisturbed(k, w, n, Apply(n, op));
  }

  lemma OthersKept(s: State, slot: nat, st: Step, k: nat)
    requires SysInv(s) && CanHappen(s, OnPool(slot, st)) && k < MAX_POOLS && k != slot
    ensures PoolOk(Happen(s, OnPool(slot, st)), k)
  {
    var c := Config(s.pools[slot], s.n);
    assert PoolOk(s, slot) && PoolOk(s, k);
    StepIsOp(slot, c, st);
    if OpOf(slot, c, st).Some? {
      OpIsLocal(slot, c, st);
      assert !c.w.lifecycle.Idle? ==> s.pools[k].lifecycle.Idle?;
      UndisturbedByOp(k, s.pools[k], s.n, OpOf(slot, c, st).value, slot);
    }
  }

  lemma PoolStepKept(s: State, slot: nat, st: Step)
    requires SysInv(s) && CanHappen(s, OnPool(slot, st))
    ensures SysInv(Happen(s, OnPool(slot, st)))
  {
    var s' := Happen(s, OnPool(slot, st));
    var c := Config(s.pools[slot], s.n);
    assert PoolOk(s, slot);
    InvKept(slot, c, st);
    forall k | 0 <= k < MAX_POOLS ensures PoolOk(s', k) {
      if k != slot {
        OthersKept(s, slot, st, k);
      }
    }
    StepIsOp(slot, c, st);
    if OpOf(slot, c, st).Some? {
      OpConserves(s.n, OpOf(slot, c, st).value);
      OpIsLocal(slot, c, st);
    }
    LifecycleReleased(s, slot, st);
    forall h | h in s'.n.rows ensures h < HANDLE_BASE || PoolHandle(h) {
      assert h in s.n.rows || (OpOf(slot, c, st).Some? && OpOf(slot, c, st).value.InsertRow?
                               && h == OpOf(slot, c, st).value.h);
    }
  }

  lemma LifecycleReleased(s: State, slot: nat, st: Step)
    requires SysInv(s) && CanHappen(s, OnPool(slot, st))
    ensures var s' := Happen(s, OnPool(slot, st));
            && (forall j, k :: 0 <= j < k < MAX_POOLS ==>
                  s'.pools[j].lifecycle.Idle? || s'.pools[k].lifecycle.Idle?)
            && (AllIdle(s') ==> Lifecycle !in s'.n.pending)
  {
    var s' := Happen(s, OnPool(slot, st));
    var w, w' := s.pools[slot], s'.pools[slot];
    assert PoolOk(s, slot);
    assert w.lifecycle.Idle? && !w'.lifecycle.Idle? ==> st.PoolOpen? || st.PoolClose?;
    if AllIdle(s') {
      assert forall k :: 0 <= k < MAX_POOLS && k != slot ==> s'.pools[k] == s.pools[k];
      assert w'.lifecycle.Idle?;
      if w.lifecycle.Idle? {
        assert AllIdle(s);
        OwnersKept(s, slot, st);
      } else {
        assert st.OpenPublish? || st.RollClear? || st.CloseClear?;
      }
    }
  }

  lemma OwnersKept(s: State, slot: nat, st: Step)
    requires SysInv(s) && CanHappen(s, OnPool(slot, st)) && s.pools[slot].lifecycle.Idle?
    ensures Lifecycle in Happen(s, OnPool(slot, st)).n.pending <==> Lifecycle in s.n.pending
  {
    var c := Config(s.pools[slot], s.n);
    assert PoolOk(s, slot);
    StepIsOp(slot, c, st);
    if OpOf(slot, c, st).Some? {
      OpIsLocal(slot, c, st);
    }
  }

  lemma ManagedKept(s: State, op: Op)
    requires SysInv(s) && CanHappen(s, Managed(op))
    ensures SysInv(Happen(s, Managed(op)))
  {
    var s' := Happen(s, Managed(op));
    OpConserves(s.n, op);
    forall k | 0 <= k < MAX_POOLS ensures PoolOk(s', k) {
      assert PoolOk(s, k);
      Undisturbed(k, s.pools[k], s.n, s'.n);
    }
    assert AllIdle(s') ==> AllIdle(s);
  }

  lemma InitOk(s: State)
    requires Init(s)
    ensures SysInv(s)
  {
    forall c ensures !Held(s.n, c) {
    }
    forall k | 0 <= k < MAX_POOLS ensures PoolOk(s, k) {
      assert s.pools[k] == UNOPENED;
    }
  }

  /** The invariant holds in every state of every run. */
  lemma EventKept(s: State, e: Event)
    requires SysInv(s) && CanHappen(s, e)
    ensures SysInv(Happen(s, e))
  {
    match e
    case OnPool(slot, st) => PoolStepKept(s, slot, st);
    case Managed(op) => ManagedKept(s, op);
  }

  lemma {:induction false} EveryRun(run: seq<State>, es: seq<Event>, i: nat)
    requires IsRun(run, es) && i < |run|
    ensures SysInv(run[i])
  {
    if i == 0 {
      InitOk(run[0]);
    } else {
      EveryRun(run, es, i - 1);
      EventKept(run[i - 1], es[i - 1]);
    }
  }
}
