/** Closing a pool: nothing new begins, what is going on ends, nobody oversleeps. */
module PoolShutdown {
  import opened Common
  import opened ConnLayer
  import opened PoolVars
  import opened PoolMachine
  import opened PoolInvariant
  import opened PoolSystem
  import opened PoolWaiters

  predicate CloseRunning(w: World) {
    w.lifecycle.Joining? || w.lifecycle.Draining? || w.lifecycle.Closing?
  }

  ghost function Unsent(callers: map<nat, CallerAt>): set<nat> {
    set t | t in callers && callers[t].Borrowed?
  }

  /** Steps the callers already inside pool_txrx still have to take. */
  ghost function CallersLeft(w: World): nat {
    2 * |w.callers| + |Unsent(w.callers)|
  }

  lemma Fewer(m: map<nat, CallerAt>, t: nat)
    requires t in m
    ensures |m - {t}| == |m| - 1
  {
    assert (m - {t}).Keys == m.Keys - {t};
  }

  /** Steps the keepalive thread can still take once it has been told to stop. */
  function KeepaliveLeft(k: KeepaliveAt): nat {
    match k
    case NoThread => 0
    case Exited => 0
    case Sleeping(_) => 1
    case Scanning => 1
    case Pinged(_, _) => 2
    case Pinging(_) => 3
    case Wiping(_) => 7
    case Reopening(_, stage) =>
      (match stage
       case SendLfo => 6
       case ToInsert => 5
       case Undo => 4
       case _ => 3)
  }

  function CloserLeft(w: World): nat
    requires w.lifecycle.Closing? ==> w.lifecycle.next <= w.p.size
  {
    match w.lifecycle
    case Joining => 2 * w.p.size + 4
    case Draining(asleep) => 2 * w.p.size + (if asleep then 2 else 3)
    case Closing(next, closing) => 2 * (w.p.size - next) + (if closing then 0 else 1)
    case _ => 0
  }

  ghost function CloseMeasure(w: World): nat
    requires w.lifecycle.Closing? ==> w.lifecycle.next <= w.p.size
  {
    CallersLeft(w) + KeepaliveLeft(w.keepalive) + CloserLeft(w)
  }

  /** Nobody but the closer has gone to sleep. */
  ghost predicate NoNewSleeper(w: World, w': World) {
    forall s: Sleeper :: Asleep(w', s) && !s.SleepingCloser? ==> Asleep(w, s)
  }

  /** A signal or a broadcast costs the closer at most one more scan and changes no other account. */
  lemma SignalCost(w: World, to: Option<Sleeper>)
    requires Phases(w) && SignalGoes(w, to)
    ensures var w' := Signalled(w, to);
      && w'.p == w.p && NoNewSleeper(w, w')
      && (w'.lifecycle.Closing? ==> w'.lifecycle.next <= w'.p.size)
      && CloseMeasure(w') <= CloseMeasure(w) + 1
      && (!to.Some? || !to.value.SleepingCloser? ==> CloseMeasure(w') == CloseMeasure(w))
  {
    var w' := Signalled(w, to);
    if to.Some? && to.value.SleepingCaller? {
      assert w'.callers.Keys == w.callers.Keys;
      assert |w'.callers| == |w'.callers.Keys| == |w.callers|;
      assert Unsent(w'.callers) == Unsent(w.callers);
    }
  }

  lemma ReturnWhileClosing(c: Config, t: nat, now: int, to: Option<Sleeper>)
    requires Phases(c.w) && Exclusive(c.w) && CloseRunning(c.w) && CallerCan(c, Return(t, now, to))
    ensures var w, w' := c.w, CallerDo(c, Return(t, now, to)).w;
      && Phases(w')
      && Busy(w'.p) <= Busy(w.p) && |Busy(w'.p)| == |Busy(w.p)| - 1
      && NoNewSleeper(w, w') && CloseMeasure(w') < CloseMeasure(w)
  {
    var w, back := c.w, GivenBack(c.w, t, now);
    assert CallerHolds(w, t, w.callers[t].i);
    assert Busy(back.p) == Busy(w.p) - {w.callers[t].i};
    Fewer(w.callers, t);
    assert Unsent(back.callers) == Unsent(w.callers);
    PhasesByCaller(c, Return(t, now, to));
    assert Phases(back);
    SignalCost(back, to);
  }

  lemma CallerWhileClosing(c: Config, st: Step)
    requires Phases(c.w) && Exclusive(c.w) && CloseRunning(c.w) && st.ByCaller() && CallerCan(c, st)
    ensures var w, w' := c.w, CallerDo(c, st).w;
      && Phases(w') && NoNewSleeper(w, w')
      && (if st.Return? then Busy(w'.p) <= Busy(w.p) && |Busy(w'.p)| == |Busy(w.p)| - 1 else w'.p == w.p)
      && (if st.Enter? then w' == w
          else if st.Spurious() then CloseMeasure(w') <= CloseMeasure(w) + 1
          else CloseMeasure(w') < CloseMeasure(w))
  {
    var w, w' := c.w, CallerDo(c, st).w;
    PhasesByCaller(c, st);
    match st
    case Return(t, now, to) => ReturnWhileClosing(c, t, now, to);
    case Wake(t, start) =>
      Fewer(w.callers, t);
      assert Unsent(w'.callers) == Unsent(w.callers);
    case Send(t) =>
      assert w'.callers.Keys == w.callers.Keys;
      assert |w'.callers| == |w'.callers.Keys| == |w.callers|;
      assert Unsent(w'.callers) == Unsent(w.callers) - {t};
    case Enter(t, start) => assert w'.callers == w.callers;
    case RouseCaller(t) =>
      assert w'.callers.Keys == w.callers.Keys;
      assert |w'.callers| == |w'.callers.Keys| == |w.callers|;
      assert Unsent(w'.callers) == Unsent(w.callers);
  }

  lemma BroadcastCost(w: World)
    ensures |Broadcast(w).callers| == |w.callers| && Unsent(Broadcast(w).callers) == Unsent(w.callers)
    ensures NoNewSleeper(w, Broadcast(w))
  {
    var w' := Broadcast(w);
    assert |w'.callers| == |w'.callers.Keys| == |w.callers|;
  }

  lemma PingDoneWhileClosing(slot: nat, c: Config, ok: bool, now: int, to: Option<Sleeper>)
    requires Phases(c.w) && Exclusive(c.w) && CloseRunning(c.w)
    requires KeepaliveCan(slot, c, KaPingDone(ok, now, to))
    ensures var w, w' := c.w, KeepaliveDo(slot, c, KaPingDone(ok, now, to)).w;
      && Phases(w') && Busy(w'.p) <= Busy(w.p) && |Busy(w'.p)| == |Busy(w.p)| - 1
      && NoNewSleeper(w, w') && CloseMeasure(w') < CloseMeasure(w)
  {
    var w, over := c.w, PingOver(c.w, ok, now);
    assert KaHolds(w.keepalive, w.keepalive.i);
    assert Busy(over.p) == Busy(w.p) - {w.keepalive.i};
    PhasesByKeepalive(slot, c, KaPingDone(ok, now, to));
    assert Phases(over);
    SignalCost(over, to);
  }

  lemma ReopenDoneWhileClosing(slot: nat, c: Config, now: int)
    requires Phases(c.w) && Exclusive(c.w) && CloseRunning(c.w) && KeepaliveCan(slot, c, KaReopenDone(now))
    ensures var w, w' := c.w, KeepaliveDo(slot, c, KaReopenDone(now)).w;
      && Phases(w') && Busy(w'.p) <= Busy(w.p) && |Busy(w'.p)| == |Busy(w.p)| - 1
      && NoNewSleeper(w, w') && CloseMeasure(w') < CloseMeasure(w)
  {
    var w, w' := c.w, KeepaliveDo(slot, c, KaReopenDone(now)).w;
    PhasesByKeepalive(slot, c, KaReopenDone(now));
    assert KaHolds(w.keepalive, w.keepalive.i);
    assert Busy(w'.p) == Busy(w.p) - {w.keepalive.i};
    BroadcastCost(w.(p := w'.p, keepalive := Scanning));
  }

  lemma QuietKeepaliveWhileClosing(slot: nat, c: Config, st: Step)
    requires Phases(c.w) && Exclusive(c.w) && CloseRunning(c.w) && st.ByKeepalive() && KeepaliveCan(slot, c, st)
    requires !st.KaPingDone? && !st.KaReopenDone?
    ensures var w, w' := c.w, KeepaliveDo(slot, c, st).w;
      && Phases(w') && NoNewSleeper(w, w') && Busy(w'.p) <= Busy(w.p)
      && (if st.Spurious() then CloseMeasure(w') <= CloseMeasure(w) + 1 else CloseMeasure(w') < CloseMeasure(w))
  {
    PhasesByKeepalive(slot, c, st);
  }

  lemma KeepaliveWhileClosing(slot: nat, c: Config, st: Step)
    requires Phases(c.w) && Exclusive(c.w) && CloseRunning(c.w) && st.ByKeepalive() && KeepaliveCan(slot, c, st)
    ensures var w, w' := c.w, KeepaliveDo(slot, c, st).w;
      && Phases(w') && NoNewSleeper(w, w')
      && Busy(w'.p) <= Busy(w.p)
      && (st.KaPingDone? || st.KaReopenDone? ==> |Busy(w'.p)| == |Busy(w.p)| - 1)
      && (if st.Spurious() then CloseMeasure(w') <= CloseMeasure(w) + 1 else CloseMeasure(w') < CloseMeasure(w))
  {
    if st.KaPingDone? {
      PingDoneWhileClosing(slot, c, st.ok, st.now, st.to);
    } else if st.KaReopenDone? {
      ReopenDoneWhileClosing(slot, c, st.now);
    } else {
      QuietKeepaliveWhileClosing(slot, c, st);
    }
  }

  lemma CloserWhileClosing(slot: nat, c: Config, st: Step)
    requires Phases(c.w) && Exclusive(c.w) && CloseRunning(c.w)
    requires !st.ByCaller() && !st.ByKeepalive() && Can(slot, c, st)
    ensures st.ByCloser()
    ensures var w, w' := c.w, CloserDo(c, st).w;
      && Phases(w') && NoNewSleeper(w, w') && Busy(w'.p) <= Busy(w.p)
      && (if st.Spurious() then CloseMeasure(w') <= CloseMeasure(w) + 1 else CloseMeasure(w') < CloseMeasure(w))
  {
    PhasesByCloser(c, st);
  }

  /** One pool, one step, while its close runs. */
  lemma StepWhileClosing(slot: nat, c: Config, st: Step)
    requires Inv(slot, c) && CloseRunning(c.w) && Can(slot, c, st)
    ensures var w, w' := c.w, Do(slot, c, st).w;
      && Phases(w') && Busy(w'.p) <= Busy(w.p) && NoNewSleeper(w, w')
      && (st.Return? || st.KaPingDone? || st.KaReopenDone? ==> |Busy(w'.p)| == |Busy(w.p)| - 1)
      && (if st.Enter? then w' == w
          else if st.Spurious() then CloseMeasure(w') <= CloseMeasure(w) + 1
          else CloseMeasure(w') < CloseMeasure(w))
  {
    if st.ByCaller() {
      CallerWhileClosing(c, st);
    } else if st.ByKeepalive() {
      KeepaliveWhileClosing(slot, c, st);
    } else {
      CloserWhileClosing(slot, c, st);
    }
  }

  lemma ClosingIsIdle(slot: nat, c: Config)
    requires Inv(slot, c)
    ensures c.w.lifecycle.Closing? ==> Busy(c.w.p) == {}
  {
    if c.w.lifecycle.Closing? {
      forall x: nat | x < c.w.p.size ensures !c.w.p.entries[x].inUse {
        assert !KaHolds(c.w.keepalive, x);
      }
    }
  }

  /** Once pool_close has cleared initialized: nothing is newly borrowed, nobody but the closer begins a
      wait, each return lowers the busy count by one, and Forward_Closes start only when it is zero. */
  lemma CloseIsSafe(s: State, e: Event, slot: nat)
    requires SysInv(s) && CanHappen(s, e) && slot < MAX_POOLS && CloseRunning(s.pools[slot])
    ensures var w, w' := s.pools[slot], Happen(s, e).pools[slot];
      && !w.p.initialized
      && Busy(w'.p) <= Busy(w.p)
      && NoNewSleeper(w, w')
      && (e.OnPool? && e.slot == slot && (e.st.Return? || e.st.KaPingDone? || e.st.KaReopenDone?) ==>
            |Busy(w'.p)| == |Busy(w.p)| - 1)
      && (w'.lifecycle.Closing? ==> Busy(w'.p) == {})
  {
    assert PoolOk(s, slot);
    EventKept(s, e);
    assert PoolOk(Happen(s, e), slot);
    if e.OnPool? && e.slot == slot {
      StepWhileClosing(slot, Config(s.pools[slot], s.n), e.st);
    }
    ClosingIsIdle(slot, Config(Happen(s, e).pools[slot], Happen(s, e).n));
  }

  /** From pool_close on no caller sleeps and the keepalive thread does not; the closer sleeps only while
      a caller still has an entry whose return will wake it. */
  lemma NobodyOversleepsClose(run: seq<State>, es: seq<Event>, i: nat, slot: nat)
    requires IsRun(run, es) && i < |run| && slot < MAX_POOLS && CloseRunning(run[i].pools[slot])
    ensures var w := run[i].pools[slot];
      && (forall t :: !Asleep(w, SleepingCaller(t)))
      && !Asleep(w, SleepingKeepalive)
      && (Asleep(w, SleepingCloser) ==>
            Busy(w.p) != {} && exists t: nat, x: nat :: CallerHolds(w, t, x) && x in Busy(w.p))
  {
    EveryRun(run, es, i);
    SleepersInEveryRun(run, es, i, slot);
    assert PoolOk(run[i], slot);
    var w := run[i].pools[slot];
    assert w.lifecycle.Closing? ==> w.keepalive.NoThread?;
    if Asleep(w, SleepingCloser) {
      var t: nat, x: nat :| CallerHolds(w, t, x);
      assert x in Busy(w.p);
    }
  }

  /** And the return that leaves no entry in use does wake it, whoever else is about. */
  lemma LastReturnWakesCloser(run: seq<State>, es: seq<Event>, i: nat, slot: nat)
    requires IsRun(run, es) && i < |es| && slot < MAX_POOLS && Asleep(run[i].pools[slot], SleepingCloser)
    requires Busy(run[i + 1].pools[slot].p) == {} && CloseRunning(run[i + 1].pools[slot])
    ensures run[i + 1].pools[slot].lifecycle == Draining(false)
  {
    NobodyOversleepsClose(run, es, i + 1, slot);
    EveryRun(run, es, i);
    assert PoolOk(run[i], slot);
    if es[i].OnPool? && es[i].slot == slot {
      AsleepStays(slot, Config(run[i].pools[slot], run[i].n), es[i].st);
    }
  }

  lemma AsleepStays(slot: nat, c: Config, st: Step)
    requires Phases(c.w) && Asleep(c.w, SleepingCloser) && Can(slot, c, st)
    ensures Do(slot, c, st).w.lifecycle.Draining?
  {
  }

  /** While a close runs, every step anyone takes on its pool lowers the measure, except a caller that
      arrives, is told the pool is not open, and leaves without changing anything, and a wait that ends
      without a signal. */
  lemma CloseProgress(s: State, e: Event, slot: nat)
    requires SysInv(s) && CanHappen(s, e) && slot < MAX_POOLS && CloseRunning(s.pools[slot])
    ensures var w, w' := s.pools[slot], Happen(s, e).pools[slot];
      && Phases(w) && Phases(w')
      && (if !(e.OnPool? && e.slot == slot) || e.st.Enter? then w' == w
          else if e.st.Spurious() then CloseMeasure(w') <= CloseMeasure(w) + 1
          else CloseMeasure(w') < CloseMeasure(w))
  {
    assert PoolOk(s, slot);
    if e.OnPool? && e.slot == slot {
      StepWhileClosing(slot, Config(s.pools[slot], s.n), e.st);
    }
  }

  /** pthread_cond_signal always has somebody to go to, or nobody at all. */
  lemma SomeTarget(w: World) returns (to: Option<Sleeper>)
    ensures SignalGoes(w, to)
  {
    if t :| t in w.callers && Asleep(w, SleepingCaller(t)) {
      to := Some(SleepingCaller(t));
    } else if Asleep(w, SleepingKeepalive) {
      to := Some(SleepingKeepalive);
    } else if Asleep(w, SleepingCloser) {
      to := Some(SleepingCloser);
    } else {
      to := None;
    }
  }

  lemma KeepaliveNext(slot: nat, c: Config) returns (st: Step)
    requires Inv(slot, c) && SleepersOk(c.w) && c.w.lifecycle.Joining?
    requires !c.w.keepalive.NoThread? && !c.w.keepalive.Exited?
    ensures st.ByKeepalive() && !st.Spurious() && !st.KaWake? && KeepaliveCan(slot, c, st)
  {
    var k := c.w.keepalive;
    assert k.Pinging? || k.Pinged? || k.Wiping? || k.Reopening? ==> KaHolds(k, k.i);
    match k
    case Sleeping(signalled) => st := KaStir;
    case Scanning => st := KaSleep;
    case Pinging(_) => st := KaSendPing;
    case Pinged(_, _) =>
      var to := SomeTarget(PingOver(c.w, false, 0));
      st := KaPingDone(false, 0, to);
    case Wiping(_) => st := KaWipe;
    case Reopening(i, stage) =>
      match stage {
        case SendLfo => st := KaOpenStep(LfoRefused(Keepalive(slot)));
        case ToInsert => st := KaOpenStep(InsertRow(Keepalive(slot), c.w.p.entries[i].handle));
        case Undo => st := KaOpenStep(ConnLayer.SendFc(Keepalive(slot), Delivered));
        case _ => st := KaReopenDone(0);
      }
  }

  lemma BorrowerNext(w: World, n: Net, t: nat, x: nat) returns (st: Step)
    requires Phases(w) && Exclusive(w) && CallerHolds(w, t, x)
    ensures (st.Send? || st.Return?) && st.t == t && CallerCan(Config(w, n), st)
  {
    if w.callers[t].Borrowed? {
      st := Send(t);
    } else {
      var to := SomeTarget(GivenBack(w, t, 0));
      st := Return(t, 0, to);
    }
  }

  lemma CloserNext(slot: nat, c: Config) returns (st: Step)
    requires Inv(slot, c) && CloseRunning(c.w) && !Asleep(c.w, SleepingCloser)
    requires c.w.lifecycle.Joining? ==> c.w.p.kaActive ==> c.w.keepalive.Exited?
    ensures st.ByCloser() && !st.PoolClose? && !st.Spurious() && CloserCan(c, st)
  {
    var w := c.w;
    match w.lifecycle
    case Joining => st := CloseJoined;
    case Draining(_) =>
      if x :| 0 <= x < w.p.size && w.p.entries[x].inUse {
        st := CloseWait;
      } else {
        st := CloseDrained;
      }
    case Closing(next, closing) =>
      st := if closing then CloseFc(Delivered) else if next < w.p.size then CloseTake else CloseClear;
  }

  /** Whose step it is while a close runs. */
  ghost predicate DueStep(w: World, st: Step) {
    if w.lifecycle.Joining? && w.p.kaActive && !w.keepalive.Exited? then st.ByKeepalive()
    else if Asleep(w, SleepingCloser) then (st.Send? || st.Return?) && exists x: nat :: CallerHolds(w, st.t, x)
    else st.ByCloser() && !st.PoolClose?
  }

  lemma ClosingPoolNext(slot: nat, c: Config) returns (st: Step)
    requires Inv(slot, c) && SleepersOk(c.w) && CloseRunning(c.w)
    ensures Can(slot, c, st) && DueStep(c.w, st)
    ensures !st.Spurious() && !st.KaWake? && !st.PoolOpen? && !st.PoolClose?
  {
    if c.w.lifecycle.Joining? && c.w.p.kaActive && !c.w.keepalive.Exited? {
      st := KeepaliveNext(slot, c);
    } else if Asleep(c.w, SleepingCloser) {
      var t: nat, x: nat :| CallerHolds(c.w, t, x);
      st := BorrowerNext(c.w, c.n, t, x);
    } else {
      st := CloserNext(slot, c);
    }
  }

  /** A close that is not finished is never stuck, without help from timeouts or waits that end by
      themselves: while it joins, the keepalive thread has a step unless the closer has; while it sleeps,
      a caller with an entry has one; otherwise the closer has. */
  lemma CloseNotStuck(run: seq<State>, es: seq<Event>, i: nat, slot: nat) returns (st: Step)
    requires IsRun(run, es) && i < |run| && slot < MAX_POOLS && CloseRunning(run[i].pools[slot])
    ensures CanHappen(run[i], OnPool(slot, st)) && DueStep(run[i].pools[slot], st)
    ensures !st.Spurious() && !st.KaWake?
  {
    EveryRun(run, es, i);
    SleepersInEveryRun(run, es, i, slot);
    assert PoolOk(run[i], slot);
    st := ClosingPoolNext(slot, Config(run[i].pools[slot], run[i].n));
  }

  predicate Advances(e: Event, slot: nat) {
    e.OnPool? && e.slot == slot && !e.st.Enter? && !e.st.Spurious()
  }

  /** The steps taken on one pool, leaving out arrivals and waits that end by themselves. */
  function StepsOn(es: seq<Event>, slot: nat): nat {
    if es == [] then 0 else (if Advances(es[0], slot) then 1 else 0) + StepsOn(es[1..], slot)
  }

  function SpuriousOn(es: seq<Event>, slot: nat): nat {
    if es == [] then 0
    else (if es[0].OnPool? && es[0].slot == slot && es[0].st.Spurious() then 1 else 0) + SpuriousOn(es[1..], slot)
  }

  /** So a close ends: while it lasts, the whole client takes at most CloseMeasure steps on the pool, and
      one more for each wait that ended without a signal; arrivals change nothing. */
  lemma {:induction false} CloseEnds(run: seq<State>, es: seq<Event>, a: nat, b: nat, slot: nat)
    requires IsRun(run, es) && a <= b < |run| && slot < MAX_POOLS
    requires forall i :: a <= i <= b ==> CloseRunning(run[i].pools[slot])
    ensures Phases(run[a].pools[slot])
    ensures StepsOn(es[a..b], slot) <= CloseMeasure(run[a].pools[slot]) + SpuriousOn(es[a..b], slot)
    decreases b - a
  {
    EveryRun(run, es, a);
    assert PoolOk(run[a], slot);
    if a < b {
      CloseProgress(run[a], es[a], slot);
      CloseEnds(run, es, a + 1, b, slot);
      assert es[a..b][1..] == es[a + 1..b];
    }
  }
}
