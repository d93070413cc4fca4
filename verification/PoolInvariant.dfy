/** What every step of a pool keeps, however callers, keepalive, reopen, open and close interleave. */
module PoolInvariant {
  import opened Common
  import opened ConnLayer
  import opened PoolVars
  import opened PoolMachine

  /** Entries may be borrowed from publication until the closer has seen them all come back. */
  predicate Live(w: World) {
    w.p.initialized || w.lifecycle.Joining? || w.lifecycle.Draining?
  }

  predicate KaHolds(k: KeepaliveAt, i: nat) {
    (k.Pinging? || k.Pinged? || k.Wiping? || k.Reopening?) && k.i == i
  }

  ghost predicate CallerHolds(w: World, t: nat, i: nat) {
    t in w.callers && !w.callers[t].Waiting? && w.callers[t].i == i
  }

  /** The flags agree with how far open and close have got. */
  ghost predicate Phases(w: World) {
    && w.p.Wellformed()
    && (w.p.initialized ==> w.lifecycle.Idle? && !w.p.kaStop && w.p.size > 0)
    && (w.lifecycle.Joining? || w.lifecycle.Draining? ==> w.p.kaStop && w.p.size > 0)
    && (!w.keepalive.NoThread? ==> w.p.kaActive && (w.p.initialized || w.lifecycle.Joining?))
    && (w.p.kaActive ==> !w.keepalive.NoThread?)
    && (w.lifecycle.Opening? ==> w.lifecycle.i <= w.p.size && w.p.size > 0 && !w.p.kaStop)
    && (w.lifecycle.Opening? && !w.lifecycle.stage.SendLfo? ==> w.lifecycle.i < w.p.size)
    && (w.lifecycle.RollingBack? ==>
          w.lifecycle.count <= w.p.size && w.lifecycle.next <= w.lifecycle.count && !w.p.kaStop
          && (w.lifecycle.closing ==> w.lifecycle.next < w.lifecycle.count))
    && (w.lifecycle.Closing? ==>
          w.lifecycle.next <= w.p.size && (w.lifecycle.closing ==> w.lifecycle.next < w.p.size))
    && (w.lifecycle.Idle? && !w.p.initialized ==> !w.p.kaStop)
  }

  /** Each entry has at most one owner, and in_use is set exactly when it has one. */
  ghost predicate Exclusive(w: World)
    requires w.p.Wellformed()
  {
    && (forall t: nat, i: nat :: CallerHolds(w, t, i) ==>
          Live(w) && i < w.p.size && w.p.entries[i].inUse && !w.p.entries[i].dead
          && w.callers[t].handle == w.p.entries[i].handle)
    && (forall t: nat, u: nat, i: nat :: CallerHolds(w, t, i) && CallerHolds(w, u, i) ==> t == u)
    && (forall i: nat :: KaHolds(w.keepalive, i) ==>
          i < w.p.size && w.p.entries[i].inUse
          && (w.p.entries[i].dead <==> w.keepalive.Wiping? || w.keepalive.Reopening?))
    && (forall t: nat, i: nat :: CallerHolds(w, t, i) ==> !KaHolds(w.keepalive, i))
    && (forall i :: 0 <= i < MAX_SIZE && w.p.entries[i].inUse ==>
          KaHolds(w.keepalive, i) || exists t :: CallerHolds(w, t, i))
  }

  ghost predicate HasRow(slot: nat, n: Net, i: nat) {
    Handle(slot, i) in n.rows
  }

  /** Which of the pool's handles may and must be in the connection table. */
  ghost predicate Rows(slot: nat, w: World, n: Net)
    requires Phases(w)
  {
    && (forall i :: 0 <= i < MAX_SIZE && HasRow(slot, n, i) ==> n.rows[Handle(slot, i)].slot == slot)
    && (Live(w) ==> forall i :: 0 <= i < MAX_SIZE ==>
          && (HasRow(slot, n, i) ==> i < w.p.size)
          && (i < w.p.size && !w.p.entries[i].dead ==> HasRow(slot, n, i)))
    && (Live(w) || w.lifecycle.Closing? ==>
          forall i :: 0 <= i < w.p.size ==> w.p.entries[i].handle == Handle(slot, i))
    && (w.keepalive.Reopening? ==> (HasRow(slot, n, w.keepalive.i) <==> w.keepalive.stage.Opened?))
    && (w.lifecycle.Idle? && !w.p.initialized ==> forall i :: 0 <= i < MAX_SIZE ==> !HasRow(slot, n, i))
    && (w.lifecycle.Opening? ==> forall i :: 0 <= i < MAX_SIZE ==>
          (HasRow(slot, n, i) <==> i < w.lifecycle.i || (i == w.lifecycle.i && w.lifecycle.stage.Opened?)))
    && (w.lifecycle.Opening? ==>
          forall i :: 0 <= i < w.lifecycle.i ==> w.p.entries[i].handle == Handle(slot, i))
    && (w.lifecycle.RollingBack? ==> forall i :: 0 <= i < MAX_SIZE ==>
          (HasRow(slot, n, i) <==>
           w.lifecycle.next <= i < w.lifecycle.count && !(w.lifecycle.closing && i == w.lifecycle.next)))
    && (w.lifecycle.RollingBack? ==>
          forall i :: 0 <= i < w.lifecycle.count ==> w.p.entries[i].handle == Handle(slot, i))
    && (w.lifecycle.Closing? ==> forall i :: 0 <= i < MAX_SIZE && HasRow(slot, n, i) ==>
          w.lifecycle.next <= i < w.p.size && !(w.lifecycle.closing && i == w.lifecycle.next))
  }

  ghost predicate InFlight(n: Net, o: Owner, slot: nat, stage: OpenStage) {
    match stage
    case ToInsert => o in n.pending && n.pending[o].Granted? && n.pending[o].conn.slot == slot
    case Undo => o in n.pending && n.pending[o].ToClose?
    case _ => o !in n.pending
  }

  /** What the keepalive thread and the opener or closer hold outside the table. */
  ghost predicate Carried(slot: nat, w: World, n: Net) {
    && (if w.keepalive.Reopening? then InFlight(n, Keepalive(slot), slot, w.keepalive.stage)
        else Keepalive(slot) !in n.pending)
    && (match w.lifecycle
        case Idle => true
        case Opening(i, stage) => InFlight(n, Lifecycle, slot, stage)
        case RollingBack(_, _, closing) =>
          if closing then Lifecycle in n.pending && n.pending[Lifecycle].ToClose? else Lifecycle !in n.pending
        case Closing(_, closing) =>
          if closing then Lifecycle in n.pending && n.pending[Lifecycle].ToClose? else Lifecycle !in n.pending
        case _ => Lifecycle !in n.pending)
  }

  predicate BackoffOk(e: Entry) {
    if e.dead then FIRST_BACKOFF_MS <= e.backoffMs <= MAX_BACKOFF_MS
    else e.backoffMs == 0 || e.backoffMs == FIRST_BACKOFF_MS
  }

  ghost predicate Backoffs(w: World)
    requires w.p.Wellformed()
  {
    && (forall i :: 0 <= i < MAX_SIZE ==> BackoffOk(w.p.entries[i]))
    && (w.lifecycle.Opening? || w.lifecycle.RollingBack? ==>
          forall i :: 0 <= i < MAX_SIZE ==> !w.p.entries[i].dead)
  }

  /** bp_client_txrx_msg found the row each time a borrower called it. */
  ghost predicate Answered(w: World) {
    && (forall t :: t in w.callers && w.callers[t].Sent? ==> w.callers[t].found)
    && (w.keepalive.Pinged? ==> w.keepalive.found)
  }

  ghost predicate Inv(slot: nat, c: Config) {
    && Phases(c.w)
    && Exclusive(c.w)
    && Rows(slot, c.w, c.n)
    && Carried(slot, c.w, c.n)
    && Backoffs(c.w)
    && Answered(c.w)
  }

  lemma PhasesByCaller(c: Config, st: Step)
    requires Phases(c.w) && Exclusive(c.w)
    requires st.ByCaller() && CallerCan(c, st)
    ensures Phases(CallerDo(c, st).w)
  {
  }

  lemma PhasesByKeepalive(slot: nat, c: Config, st: Step)
    requires Phases(c.w) && Exclusive(c.w)
    requires st.ByKeepalive() && KeepaliveCan(slot, c, st)
    ensures Phases(KeepaliveDo(slot, c, st).w)
  {
  }

  lemma PhasesByOpener(slot: nat, c: Config, st: Step)
    requires Phases(c.w) && Exclusive(c.w)
    requires st.ByOpener() && OpenerCan(slot, c, st)
    ensures Phases(OpenerDo(slot, c, st).w)
  {
  }

  lemma PhasesByCloser(c: Config, st: Step)
    requires Phases(c.w) && Exclusive(c.w)
    requires st.ByCloser() && CloserCan(c, st)
    ensures Phases(CloserDo(c, st).w)
  {
  }

  lemma ArriveExclusive(w: World, t: nat, start: nat)
    requires Phases(w) && Exclusive(w)
    requires w.p.initialized ==> start < w.p.size
    requires t in w.callers ==> w.callers[t].Waiting?
    ensures Exclusive(Arrive(w, t, start))
  {
    var w' := Arrive(w, t, start);
    forall u: nat, i: nat | CallerHolds(w', u, i)
      ensures CallerHolds(w, u, i) || (u == t && w.p.initialized && Acquire(w.p, start) == Some(i))
    {
    }
    forall u: nat, i: nat | CallerHolds(w, u, i) ensures CallerHolds(w', u, i) {
    }
    if w.p.initialized && Acquire(w.p, start).Some? {
      assert CallerHolds(w', t, Acquire(w.p, start).value);
    }
  }

  lemma ReturnExclusive(c: Config, t: nat, now: int, to: Option<Sleeper>)
    requires Phases(c.w) && Exclusive(c.w) && CallerCan(c, Return(t, now, to))
    ensures Exclusive(CallerDo(c, Return(t, now, to)).w)
  {
    var w, w' := c.w, CallerDo(c, Return(t, now, to)).w;
    assert CallerHolds(w, t, w.callers[t].i);
    forall u: nat, i: nat ensures CallerHolds(w', u, i) <==> CallerHolds(w, u, i) && u != t {
    }
  }

  lemma ExclusiveByCaller(c: Config, st: Step)
    requires Phases(c.w) && Exclusive(c.w)
    requires st.ByCaller() && CallerCan(c, st)
    ensures Exclusive(CallerDo(c, st).w)
  {
    match st
    case Enter(t, start) => ArriveExclusive(c.w, t, start);
    case Wake(t, start) => ArriveExclusive(c.w, t, start);
    case Return(t, now, to) => ReturnExclusive(c, t, now, to);
    case Send(t) =>
      var w' := CallerDo(c, st).w;
      forall u: nat, i: nat ensures CallerHolds(w', u, i) <==> CallerHolds(c.w, u, i) {
      }
    case RouseCaller(t) =>
      var w' := CallerDo(c, st).w;
      forall u: nat, i: nat ensures CallerHolds(w', u, i) <==> CallerHolds(c.w, u, i) {
      }
  }

  lemma ExclusiveByKeepalive(slot: nat, c: Config, st: Step)
    requires Phases(c.w) && Exclusive(c.w)
    requires st.ByKeepalive() && KeepaliveCan(slot, c, st)
    ensures KeepaliveDo(slot, c, st).w.p.Wellformed() && Exclusive(KeepaliveDo(slot, c, st).w)
  {
    var w' := KeepaliveDo(slot, c, st).w;
    forall u: nat, i: nat ensures CallerHolds(w', u, i) <==> CallerHolds(c.w, u, i) {
    }
  }

  lemma ExclusiveByOpener(slot: nat, c: Config, st: Step)
    requires Phases(c.w) && Exclusive(c.w)
    requires st.ByOpener() && OpenerCan(slot, c, st)
    ensures OpenerDo(slot, c, st).w.p.Wellformed() && Exclusive(OpenerDo(slot, c, st).w)
  {
    var w' := OpenerDo(slot, c, st).w;
    forall u: nat, i: nat ensures CallerHolds(w', u, i) <==> CallerHolds(c.w, u, i) {
    }
  }

  lemma ExclusiveByCloser(c: Config, st: Step)
    requires Phases(c.w) && Exclusive(c.w)
    requires st.ByCloser() && CloserCan(c, st)
    ensures CloserDo(c, st).w.p.Wellformed() && Exclusive(CloserDo(c, st).w)
  {
    var w' := CloserDo(c, st).w;
    forall u: nat, i: nat ensures CallerHolds(w', u, i) <==> CallerHolds(c.w, u, i) {
    }
  }

  /** The same pool as far as rows go: borrowing and sleeping make no difference to them. */
  ghost predicate SameRows(w: World, w': World)
    requires w.p.Wellformed() && w'.p.Wellformed()
  {
    && w'.p.size == w.p.size && w'.p.initialized == w.p.initialized
    && (w'.lifecycle == w.lifecycle || (w.lifecycle.Draining? && w'.lifecycle.Draining?))
    && (w'.keepalive == w.keepalive || (w.keepalive.Sleeping? && w'.keepalive.Sleeping?))
    && forall i :: 0 <= i < MAX_SIZE ==>
         w'.p.entries[i].dead == w.p.entries[i].dead && w'.p.entries[i].handle == w.p.entries[i].handle
  }

  lemma RowsOfSame(slot: nat, w: World, w': World, n: Net)
    requires Phases(w) && Rows(slot, w, n) && Phases(w') && SameRows(w, w')
    ensures Rows(slot, w', n)
  {
  }

  lemma RowsByCaller(slot: nat, c: Config, st: Step)
    requires Phases(c.w) && Exclusive(c.w) && Rows(slot, c.w, c.n)
    requires st.ByCaller() && CallerCan(c, st)
    ensures Phases(CallerDo(c, st).w) && Rows(slot, CallerDo(c, st).w, CallerDo(c, st).n)
  {
    PhasesByCaller(c, st);
    RowsOfSame(slot, c.w, CallerDo(c, st).w, c.n);
  }

  /** The keepalive steps that do not touch the connection table. */
  lemma RowsByQuietKeepalive(slot: nat, c: Config, st: Step)
    requires Phases(c.w) && Exclusive(c.w) && Rows(slot, c.w, c.n)
    requires st.ByKeepalive() && !st.KaWipe? && !st.KaOpenStep? && KeepaliveCan(slot, c, st)
    ensures Phases(KeepaliveDo(slot, c, st).w) && Rows(slot, KeepaliveDo(slot, c, st).w, c.n)
  {
    PhasesByKeepalive(slot, c, st);
    var w, w' := c.w, KeepaliveDo(slot, c, st).w;
    assert w.keepalive.Reopening? ==> KaHolds(w.keepalive, w.keepalive.i);
    forall i | 0 <= i < MAX_SIZE
      ensures w'.p.entries[i].handle == w.p.entries[i].handle
      ensures i < w.p.size && !w'.p.entries[i].dead ==> HasRow(slot, c.n, i) || !Live(w)
    {
    }
  }

  lemma RowsByKaOpenStep(slot: nat, c: Config, op: Op)
    requires Phases(c.w) && Exclusive(c.w) && Rows(slot, c.w, c.n) && Carried(slot, c.w, c.n)
    requires KeepaliveCan(slot, c, KaOpenStep(op))
    ensures var c' := KeepaliveDo(slot, c, KaOpenStep(op)); Phases(c'.w) && Rows(slot, c'.w, c'.n)
  {
    PhasesByKeepalive(slot, c, KaOpenStep(op));
    var k, n' := c.w.keepalive.i, Apply(c.n, op);
    assert KaHolds(c.w.keepalive, k);
    forall j | 0 <= j < MAX_SIZE
      ensures HasRow(slot, n', j) <==>
        HasRow(slot, c.n, j) || (op.InsertRow? && Accepts(c.n.rows, Handle(slot, k)) && j == k)
      ensures HasRow(slot, n', j) ==> n'.rows[Handle(slot, j)].slot == slot
    {
    }
  }

  lemma RowsByKaWipe(slot: nat, c: Config)
    requires Phases(c.w) && Exclusive(c.w) && Rows(slot, c.w, c.n) && KeepaliveCan(slot, c, KaWipe)
    ensures var c' := KeepaliveDo(slot, c, KaWipe); Phases(c'.w) && Rows(slot, c'.w, c'.n)
  {
    PhasesByKeepalive(slot, c, KaWipe);
    var k, n' := c.w.keepalive.i, KeepaliveDo(slot, c, KaWipe).n;
    assert KaHolds(c.w.keepalive, k);
    forall j | 0 <= j < MAX_SIZE
      ensures HasRow(slot, n', j) <==> HasRow(slot, c.n, j) && j != k
      ensures HasRow(slot, n', j) ==> n'.rows[Handle(slot, j)] == c.n.rows[Handle(slot, j)]
    {
    }
  }

  lemma RowsByKeepalive(slot: nat, c: Config, st: Step)
    requires Phases(c.w) && Exclusive(c.w) && Rows(slot, c.w, c.n) && Carried(slot, c.w, c.n)
    requires st.ByKeepalive() && KeepaliveCan(slot, c, st)
    ensures Phases(KeepaliveDo(slot, c, st).w) && Rows(slot, KeepaliveDo(slot, c, st).w, KeepaliveDo(slot, c, st).n)
  {
    if st.KaWipe? {
      RowsByKaWipe(slot, c);
    } else if st.KaOpenStep? {
      RowsByKaOpenStep(slot, c, st.op);
    } else {
      RowsByQuietKeepalive(slot, c, st);
    }
  }

  lemma RowsByOpenStep(slot: nat, c: Config, op: Op)
    requires Phases(c.w) && Exclusive(c.w) && Rows(slot, c.w, c.n) && Carried(slot, c.w, c.n)
    requires OpenerCan(slot, c, OpenStep(op))
    ensures var c' := OpenerDo(slot, c, OpenStep(op)); Phases(c'.w) && Rows(slot, c'.w, c'.n)
  {
    PhasesByOpener(slot, c, OpenStep(op));
    var i, n' := c.w.lifecycle.i, Apply(c.n, op);
    forall j | 0 <= j < MAX_SIZE
      ensures HasRow(slot, n', j) <==>
        HasRow(slot, c.n, j) || (op.InsertRow? && Accepts(c.n.rows, Handle(slot, i)) && j == i)
      ensures HasRow(slot, n', j) ==> n'.rows[Handle(slot, j)].slot == slot
    {
    }
  }

  lemma RowsByOpener(slot: nat, c: Config, st: Step)
    requires Phases(c.w) && Exclusive(c.w) && Rows(slot, c.w, c.n) && Carried(slot, c.w, c.n)
    requires st.ByOpener() && OpenerCan(slot, c, st)
    ensures Phases(OpenerDo(slot, c, st).w) && Rows(slot, OpenerDo(slot, c, st).w, OpenerDo(slot, c, st).n)
  {
    PhasesByOpener(slot, c, st);
    if st.OpenStep? {
      RowsByOpenStep(slot, c, st.op);
    } else {
      var c' := OpenerDo(slot, c, st);
      forall i | 0 <= i < MAX_SIZE
        ensures HasRow(slot, c'.n, i) <==> HasRow(slot, c.n, i) && !(st.RollTake? && i == c.w.lifecycle.next)
      {
      }
    }
  }

  lemma RowsByCloser(slot: nat, c: Config, st: Step)
    requires Phases(c.w) && Exclusive(c.w) && Rows(slot, c.w, c.n) && Carried(slot, c.w, c.n)
    requires st.ByCloser() && CloserCan(c, st)
    ensures Phases(CloserDo(c, st).w) && Rows(slot, CloserDo(c, st).w, CloserDo(c, st).n)
  {
    PhasesByCloser(c, st);
    var c' := CloserDo(c, st);
    forall i | 0 <= i < MAX_SIZE
      ensures HasRow(slot, c'.n, i) ==> HasRow(slot, c.n, i) && !(st.CloseTake? && i == c.w.lifecycle.next)
    {
    }
  }

  lemma CarriedByCaller(slot: nat, c: Config, st: Step)
    requires Phases(c.w) && Rows(slot, c.w, c.n) && Carried(slot, c.w, c.n)
    requires st.ByCaller() && CallerCan(c, st)
    ensures Carried(slot, CallerDo(c, st).w, CallerDo(c, st).n)
  {
  }

  lemma CarriedByKeepalive(slot: nat, c: Config, st: Step)
    requires Phases(c.w) && Rows(slot, c.w, c.n) && Carried(slot, c.w, c.n)
    requires st.ByKeepalive() && KeepaliveCan(slot, c, st)
    requires Exclusive(c.w)
    ensures Carried(slot, KeepaliveDo(slot, c, st).w, KeepaliveDo(slot, c, st).n)
  {
  }

  lemma CarriedByOpener(slot: nat, c: Config, st: Step)
    requires Phases(c.w) && Rows(slot, c.w, c.n) && Carried(slot, c.w, c.n)
    requires st.ByOpener() && OpenerCan(slot, c, st)
    requires Lifecycle !in c.n.pending || !(st.PoolOpen? || st.PoolClose?)
    ensures Carried(slot, OpenerDo(slot, c, st).w, OpenerDo(slot, c, st).n)
  {
  }

  lemma CarriedByCloser(slot: nat, c: Config, st: Step)
    requires Phases(c.w) && Rows(slot, c.w, c.n) && Carried(slot, c.w, c.n)
    requires st.ByCloser() && CloserCan(c, st)
    requires Lifecycle !in c.n.pending || !(st.PoolOpen? || st.PoolClose?)
    ensures Carried(slot, CloserDo(c, st).w, CloserDo(c, st).n)
  {
  }

  lemma BackoffsByCaller(c: Config, st: Step)
    requires Phases(c.w) && Exclusive(c.w) && Backoffs(c.w)
    requires st.ByCaller() && CallerCan(c, st)
    ensures CallerDo(c, st).w.p.Wellformed() && Backoffs(CallerDo(c, st).w)
  {
  }

  lemma BackoffsByKeepalive(slot: nat, c: Config, st: Step)
    requires Phases(c.w) && Exclusive(c.w) && Backoffs(c.w)
    requires st.ByKeepalive() && KeepaliveCan(slot, c, st)
    ensures KeepaliveDo(slot, c, st).w.p.Wellformed() && Backoffs(KeepaliveDo(slot, c, st).w)
  {
  }

  lemma BackoffsByOpener(slot: nat, c: Config, st: Step)
    requires Phases(c.w) && Exclusive(c.w) && Backoffs(c.w)
    requires st.ByOpener() && OpenerCan(slot, c, st)
    ensures OpenerDo(slot, c, st).w.p.Wellformed() && Backoffs(OpenerDo(slot, c, st).w)
  {
  }

  lemma BackoffsByCloser(c: Config, st: Step)
    requires Phases(c.w) && Exclusive(c.w) && Backoffs(c.w)
    requires st.ByCloser() && CloserCan(c, st)
    ensures CloserDo(c, st).w.p.Wellformed() && Backoffs(CloserDo(c, st).w)
  {
  }

  lemma AnsweredByCaller(slot: nat, c: Config, st: Step)
    requires Phases(c.w) && Exclusive(c.w) && Rows(slot, c.w, c.n) && Answered(c.w)
    requires st.ByCaller() && CallerCan(c, st)
    ensures Answered(CallerDo(c, st).w)
  {
    if st.Send? {
      assert CallerHolds(c.w, st.t, c.w.callers[st.t].i);
    }
  }

  lemma AnsweredByKeepalive(slot: nat, c: Config, st: Step)
    requires Phases(c.w) && Exclusive(c.w) && Rows(slot, c.w, c.n) && Answered(c.w)
    requires st.ByKeepalive() && KeepaliveCan(slot, c, st)
    ensures Answered(KeepaliveDo(slot, c, st).w)
  {
  }

  lemma InvByCaller(slot: nat, c: Config, st: Step)
    requires Inv(slot, c)
    requires st.ByCaller() && CallerCan(c, st)
    ensures Inv(slot, CallerDo(c, st))
  {
    ExclusiveByCaller(c, st);
    RowsByCaller(slot, c, st);
    CarriedByCaller(slot, c, st);
    BackoffsByCaller(c, st);
    AnsweredByCaller(slot, c, st);
  }

  lemma InvByKeepalive(slot: nat, c: Config, st: Step)
    requires Inv(slot, c)
    requires st.ByKeepalive() && KeepaliveCan(slot, c, st)
    ensures Inv(slot, KeepaliveDo(slot, c, st))
  {
    ExclusiveByKeepalive(slot, c, st);
    RowsByKeepalive(slot, c, st);
    CarriedByKeepalive(slot, c, st);
    BackoffsByKeepalive(slot, c, st);
    AnsweredByKeepalive(slot, c, st);
  }

  lemma InvByOpener(slot: nat, c: Config, st: Step)
    requires Inv(slot, c)
    requires st.ByOpener() && OpenerCan(slot, c, st)
    requires Lifecycle !in c.n.pending || !(st.PoolOpen? || st.PoolClose?)
    ensures Inv(slot, OpenerDo(slot, c, st))
  {
    ExclusiveByOpener(slot, c, st);
    RowsByOpener(slot, c, st);
    CarriedByOpener(slot, c, st);
    BackoffsByOpener(slot, c, st);
  }

  lemma InvByCloser(slot: nat, c: Config, st: Step)
    requires Inv(slot, c)
    requires st.ByCloser() && CloserCan(c, st)
    requires Lifecycle !in c.n.pending || !(st.PoolOpen? || st.PoolClose?)
    ensures Inv(slot, CloserDo(c, st))
  {
    ExclusiveByCloser(c, st);
    RowsByCloser(slot, c, st);
    CarriedByCloser(slot, c, st);
    BackoffsByCloser(c, st);
  }

  /** Every step of the pool keeps the invariant.  pools_mu is free when an open or close starts. */
  lemma InvKept(slot: nat, c: Config, st: Step)
    requires Inv(slot, c) && Can(slot, c, st)
    requires st.PoolOpen? || st.PoolClose? ==> Lifecycle !in c.n.pending
    ensures Inv(slot, Do(slot, c, st))
  {
    if st.ByCaller() {
      InvByCaller(slot, c, st);
    } else if st.ByKeepalive() {
      InvByKeepalive(slot, c, st);
    } else if st.ByOpener() {
      InvByOpener(slot, c, st);
    } else {
      InvByCloser(slot, c, st);
    }
  }
}
