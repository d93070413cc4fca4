/** Who sleeps on a pool's condvar, and who is certain to be woken. */
module PoolWaiters {
  import opened Common
  import opened PoolVars
  import opened PoolMachine
  import opened PoolInvariant
  import opened PoolSystem

  /** A sleeping caller's pool is open, a sleeping keepalive thread is not told to stop, and a sleeping
      closer still has a borrower to wait for. */
  ghost predicate SleepersOk(w: World) {
    && (forall t :: Asleep(w, SleepingCaller(t)) ==> w.p.initialized)
    && (Asleep(w, SleepingKeepalive) ==> !w.p.kaStop)
    && (Asleep(w, SleepingCloser) ==> exists t: nat, i: nat :: CallerHolds(w, t, i))
  }

  /** The one whom a signal wakes while the closer sleeps is the closer. */
  lemma SignalFindsCloser(w: World, w': World, to: Option<Sleeper>)
    requires Phases(w) && SleepersOk(w) && w.lifecycle.Draining?
    requires w'.lifecycle == w.lifecycle && w'.keepalive == w.keepalive && SignalGoes(w', to)
    requires forall t :: t in w'.callers ==> t in w.callers && w'.callers[t] == w.callers[t]
    ensures Signalled(w', to).lifecycle == Draining(false) && Signalled(w', to).callers == w'.callers
  {
    forall t | t in w'.callers ensures !Asleep(w', SleepingCaller(t)) {
      assert !Asleep(w, SleepingCaller(t));
    }
  }

  lemma SleepersByCaller(c: Config, st: Step)
    requires Phases(c.w) && Exclusive(c.w) && SleepersOk(c.w) && st.ByCaller() && CallerCan(c, st)
    ensures SleepersOk(CallerDo(c, st).w)
  {
    var w, w' := c.w, CallerDo(c, st).w;
    forall t | Asleep(w', SleepingCaller(t)) ensures w'.p.initialized {
      assert Asleep(w, SleepingCaller(t)) || w.p.initialized;
    }
    if st.Return? && w.lifecycle.Draining? {
      SignalFindsCloser(w, GivenBack(w, st.t, st.now), st.to);
    } else if Asleep(w', SleepingCloser) {
      var t: nat, i: nat :| CallerHolds(w, t, i);
      assert CallerHolds(w', t, i);
    }
  }

  lemma SleepersByKeepalive(slot: nat, c: Config, st: Step)
    requires Phases(c.w) && Exclusive(c.w) && SleepersOk(c.w) && st.ByKeepalive() && KeepaliveCan(slot, c, st)
    ensures SleepersOk(KeepaliveDo(slot, c, st).w)
  {
    var w, w' := c.w, KeepaliveDo(slot, c, st).w;
    forall t | Asleep(w', SleepingCaller(t)) ensures w'.p.initialized {
      assert Asleep(w, SleepingCaller(t));
    }
  }

  lemma SleepersByOthers(slot: nat, c: Config, st: Step)
    requires Inv(slot, c) && SleepersOk(c.w) && !st.ByCaller() && !st.ByKeepalive() && Can(slot, c, st)
    ensures SleepersOk(Do(slot, c, st).w)
  {
    var w, w' := c.w, Do(slot, c, st).w;
    forall t ensures !Asleep(w', SleepingCaller(t)) {
      assert Asleep(w, SleepingCaller(t)) ==> w.p.initialized;
    }
    if st.CloseWait? {
      var i :| 0 <= i < w.p.size && w.p.entries[i].inUse;
      assert !KaHolds(w.keepalive, i);
      var t :| CallerHolds(w, t, i);
      assert CallerHolds(w', t, i);
    }
  }

  lemma SleepersKept(slot: nat, c: Config, st: Step)
    requires Inv(slot, c) && SleepersOk(c.w) && Can(slot, c, st)
    ensures SleepersOk(Do(slot, c, st).w)
  {
    if st.ByCaller() {
      SleepersByCaller(c, st);
    } else if st.ByKeepalive() {
      SleepersByKeepalive(slot, c, st);
    } else {
      SleepersByOthers(slot, c, st);
    }
  }

  lemma {:induction false} SleepersInEveryRun(run: seq<State>, es: seq<Event>, i: nat, slot: nat)
    requires IsRun(run, es) && i < |run| && slot < MAX_POOLS
    ensures SleepersOk(run[i].pools[slot])
  {
    if i == 0 {
      assert run[0].pools[slot] == UNOPENED;
    } else {
      SleepersInEveryRun(run, es, i - 1, slot);
      EveryRun(run, es, i - 1);
      SleepersAfter(run[i - 1], es[i - 1], slot);
    }
  }

  lemma SleepersAfter(s: State, e: Event, slot: nat)
    requires SysInv(s) && CanHappen(s, e) && slot < MAX_POOLS && SleepersOk(s.pools[slot])
    ensures SleepersOk(Happen(s, e).pools[slot])
  {
    assert PoolOk(s, slot);
    if e.OnPool? && e.slot == slot {
      SleepersKept(slot, Config(s.pools[slot], s.n), e.st);
    }
  }

  // ---------------------------------------------------------------- waiting callers

  ghost function FreeLive(p: Pool): set<nat> {
    set i: nat | i < p.size && i < |p.entries| && p.entries[i].Free()
  }

  ghost function Woken(w: World): set<nat> {
    set t | t in w.callers && w.callers[t] == Waiting(false)
  }

  ghost predicate SomeoneSleeps(w: World) {
    exists t :: Asleep(w, SleepingCaller(t))
  }

  /** While a caller sleeps, all but owed of the entries it could have are matched by woken callers on
      their way. */
  ghost predicate Served(w: World, owed: nat) {
    SomeoneSleeps(w) ==> |FreeLive(w.p)| <= |Woken(w)| + owed
  }

  /** The signals that went to the keepalive thread instead of a caller and are still to be made good: each
      ping it begins makes good for one, and nothing is owed when no caller sleeps. */
  ghost function NextOwed(w: World, st: Step, w': World, owed: nat): nat {
    if !SomeoneSleeps(w') then 0
    else if st.Return? && st.to == Some(SleepingKeepalive) then owed + 1
    else if st.KaPing? && !w.p.kaStop && owed > 0 then owed - 1
    else owed
  }

  lemma ServedArrival(w: World, t: nat, start: nat, owed: nat)
    requires Phases(w) && SleepersOk(w) && Served(w, owed) && (w.p.initialized ==> start < w.p.size)
    requires t !in w.callers || w.callers[t] == Waiting(false)
    ensures Served(Arrive(w, t, start), owed)
  {
    var w' := Arrive(w, t, start);
    if SomeoneSleeps(w') {
      var u :| Asleep(w', SleepingCaller(u));
      assert Asleep(w, SleepingCaller(u)) || w.p.initialized;
      AcquireExact(w.p, start);
      match Acquire(w.p, start)
      case None => assert FreeLive(w'.p) == {};
      case Some(i) =>
        assert FreeLive(w'.p) == FreeLive(w.p) - {i};
        assert Asleep(w, SleepingCaller(u));
        assert Woken(w') == Woken(w) - {t};
    }
  }

  lemma AtMostOneMore(a: set<nat>, b: set<nat>, x: nat)
    requires b <= a + {x}
    ensures |b| <= |a| + 1
  {
    assert |a + {x}| == |b| + |a + {x} - b|;
  }

  /** An entry comes free and a signal is sent: it wakes a caller if one sleeps, unless it goes to the
      keepalive thread. */
  lemma ServedSignal(w: World, back: World, x: nat, to: Option<Sleeper>, owed: nat)
    requires Phases(w) && SleepersOk(w) && Served(w, owed)
    requires back.p.initialized == w.p.initialized && back.lifecycle == w.lifecycle && SignalGoes(back, to)
    requires FreeLive(back.p) <= FreeLive(w.p) + {x} && Woken(back) == Woken(w)
    requires forall u :: Asleep(back, SleepingCaller(u)) ==> Asleep(w, SleepingCaller(u))
    ensures Served(Signalled(back, to), if to == Some(SleepingKeepalive) then owed + 1 else owed)
  {
    var w' := Signalled(back, to);
    AtMostOneMore(FreeLive(w.p), FreeLive(w'.p), x);
    if SomeoneSleeps(w') {
      var u :| Asleep(w', SleepingCaller(u));
      assert Asleep(back, SleepingCaller(u)) && Asleep(w, SleepingCaller(u));
      assert to.Some? && !to.value.SleepingCloser?;
      if to.value.SleepingCaller? {
        assert Woken(w') == Woken(back) + {to.value.t};
        assert to.value.t !in Woken(back);
      }
    }
  }

  lemma ServedReturn(c: Config, t: nat, now: int, to: Option<Sleeper>, owed: nat)
    requires Phases(c.w) && Exclusive(c.w) && SleepersOk(c.w) && Served(c.w, owed)
    requires CallerCan(c, Return(t, now, to))
    ensures Served(CallerDo(c, Return(t, now, to)).w, if to == Some(SleepingKeepalive) then owed + 1 else owed)
  {
    var w, back := c.w, GivenBack(c.w, t, now);
    assert Woken(back) == Woken(w);
    ServedSignal(w, back, w.callers[t].i, to, owed);
  }

  lemma ServedByCaller(c: Config, st: Step, owed: nat)
    requires Phases(c.w) && Exclusive(c.w) && SleepersOk(c.w) && Served(c.w, owed)
    requires st.ByCaller() && CallerCan(c, st)
    ensures var w' := CallerDo(c, st).w; Served(w', NextOwed(c.w, st, w', owed))
  {
    var w, w' := c.w, CallerDo(c, st).w;
    match st
    case Enter(t, start) => ServedArrival(w, t, start, owed);
    case Wake(t, start) => ServedArrival(w, t, start, owed);
    case Return(t, now, to) => ServedReturn(c, t, now, to, owed);
    case Send(t) =>
      assert Woken(w') == Woken(w);
      assert SomeoneSleeps(w') ==> SomeoneSleeps(w) by {
        if u :| Asleep(w', SleepingCaller(u)) {
          assert Asleep(w, SleepingCaller(u));
        }
      }
    case RouseCaller(t) =>
      assert Asleep(w, SleepingCaller(t));
      assert Woken(w') == Woken(w) + {t};
  }

  lemma ServedPing(slot: nat, c: Config, i: nat, now: int, owed: nat)
    requires Phases(c.w) && Exclusive(c.w) && Served(c.w, owed) && KeepaliveCan(slot, c, KaPing(i, now))
    ensures var w' := KeepaliveDo(slot, c, KaPing(i, now)).w; Served(w', NextOwed(c.w, KaPing(i, now), w', owed))
  {
    var w, w' := c.w, KeepaliveDo(slot, c, KaPing(i, now)).w;
    assert Woken(w') == Woken(w);
    assert FreeLive(w'.p) == if w.p.kaStop then FreeLive(w.p) else FreeLive(w.p) - {i};
    if u :| Asleep(w', SleepingCaller(u)) {
      assert Asleep(w, SleepingCaller(u));
    }
  }

  lemma ServedPingDone(slot: nat, c: Config, ok: bool, now: int, to: Option<Sleeper>, owed: nat)
    requires Phases(c.w) && Exclusive(c.w) && SleepersOk(c.w) && Served(c.w, owed)
    requires KeepaliveCan(slot, c, KaPingDone(ok, now, to))
    ensures Served(KeepaliveDo(slot, c, KaPingDone(ok, now, to)).w, owed)
  {
    var w, over := c.w, PingOver(c.w, ok, now);
    assert Woken(over) == Woken(w);
    ServedSignal(w, over, w.keepalive.i, to, owed);
  }

  lemma ServedQuietKeepalive(slot: nat, c: Config, st: Step, owed: nat)
    requires Phases(c.w) && Exclusive(c.w) && Served(c.w, owed) && st.ByKeepalive() && KeepaliveCan(slot, c, st)
    requires !st.KaPing? && !st.KaPingDone?
    ensures Served(KeepaliveDo(slot, c, st).w, owed)
  {
    var w, w' := c.w, KeepaliveDo(slot, c, st).w;
    assert w.keepalive.Reopening? ==> KaHolds(w.keepalive, w.keepalive.i);
    if u :| Asleep(w', SleepingCaller(u)) {
      assert Asleep(w, SleepingCaller(u));
      assert w'.callers == w.callers;
      assert FreeLive(w'.p) == FreeLive(w.p);
    }
  }

  lemma ServedKept(slot: nat, c: Config, st: Step, owed: nat)
    requires Inv(slot, c) && SleepersOk(c.w) && Can(slot, c, st) && Served(c.w, owed)
    ensures var w' := Do(slot, c, st).w; Served(w', NextOwed(c.w, st, w', owed))
  {
    var w' := Do(slot, c, st).w;
    if st.ByCaller() {
      ServedByCaller(c, st, owed);
    } else if st.KaPing? {
      ServedPing(slot, c, st.i, st.now, owed);
    } else if st.KaPingDone? {
      ServedPingDone(slot, c, st.ok, st.now, st.to, owed);
    } else if st.ByKeepalive() {
      ServedQuietKeepalive(slot, c, st, owed);
    } else {
      NoneSleeps(slot, c, st);
    }
  }

  lemma NoneSleeps(slot: nat, c: Config, st: Step)
    requires Inv(slot, c) && SleepersOk(c.w) && !st.ByCaller() && !st.ByKeepalive() && Can(slot, c, st)
    ensures !SomeoneSleeps(Do(slot, c, st).w)
  {
    if u :| Asleep(Do(slot, c, st).w, SleepingCaller(u)) {
      assert Asleep(c.w, SleepingCaller(u));
      assert false;
    }
  }

  /** What is owed in state i of a run, by the steps on the pool up to there. */
  ghost function Owed(run: seq<State>, es: seq<Event>, i: nat, slot: nat): nat
    requires |run| == |es| + 1 && i < |run| && slot < MAX_POOLS
    requires forall s :: s in run ==> |s.pools| == MAX_POOLS
  {
    if i == 0 then 0
    else
      var before := Owed(run, es, i - 1, slot);
      if es[i - 1].OnPool? && es[i - 1].slot == slot
      then NextOwed(run[i - 1].pools[slot], es[i - 1].st, run[i].pools[slot], before)
      else before
  }

  lemma ServedAfter(s: State, e: Event, slot: nat, owed: nat)
    requires SysInv(s) && CanHappen(s, e) && slot < MAX_POOLS && SleepersOk(s.pools[slot])
    requires Served(s.pools[slot], owed)
    ensures var w, w' := s.pools[slot], Happen(s, e).pools[slot];
      Served(w', if e.OnPool? && e.slot == slot then NextOwed(w, e.st, w', owed) else owed)
  {
    assert PoolOk(s, slot);
    if e.OnPool? && e.slot == slot {
      ServedKept(slot, Config(s.pools[slot], s.n), e.st, owed);
    }
  }

  /** In every run, while a caller of a pool sleeps, the entries that are free and live number at most the
      woken callers and the signals owed. */
  lemma {:induction false} SleepersAreServed(run: seq<State>, es: seq<Event>, i: nat, slot: nat)
    requires IsRun(run, es) && i < |run| && slot < MAX_POOLS
    ensures Served(run[i].pools[slot], Owed(run, es, i, slot))
  {
    if i == 0 {
      assert run[0].pools[slot] == UNOPENED;
    } else {
      SleepersAreServed(run, es, i - 1, slot);
      SleepersInEveryRun(run, es, i - 1, slot);
      EveryRun(run, es, i - 1);
      ServedAfter(run[i - 1], es[i - 1], slot, Owed(run, es, i - 1, slot));
    }
  }

  lemma StepOwesNothing(slot: nat, c: Config, st: Step)
    requires Inv(slot, c) && SleepersOk(c.w) && Can(slot, c, st) && Do(slot, c, st).w.keepalive.NoThread?
    ensures c.w.keepalive.NoThread? || !SomeoneSleeps(Do(slot, c, st).w)
    ensures c.w.keepalive.NoThread? ==> !(st.Return? && st.to == Some(SleepingKeepalive))
  {
    if !c.w.keepalive.NoThread? {
      assert !st.ByCaller() && !st.ByKeepalive();
      NoneSleeps(slot, c, st);
    }
  }

  lemma {:induction false} NothingOwedWithoutThread(run: seq<State>, es: seq<Event>, i: nat, slot: nat)
    requires IsRun(run, es) && i < |run| && slot < MAX_POOLS && run[i].pools[slot].keepalive.NoThread?
    ensures Owed(run, es, i, slot) == 0
  {
    if i > 0 {
      var s, e := run[i - 1], es[i - 1];
      EveryRun(run, es, i - 1);
      SleepersInEveryRun(run, es, i - 1, slot);
      assert PoolOk(s, slot);
      if e.OnPool? && e.slot == slot {
        StepOwesNothing(slot, Config(s.pools[slot], s.n), e.st);
      }
      if s.pools[slot].keepalive.NoThread? {
        NothingOwedWithoutThread(run, es, i - 1, slot);
      }
    }
  }

  /** A pool without a keepalive thread, which is what pool_open gives for keepalive_ms 0: whenever a
      caller sleeps, as many woken callers are on their way as there are entries to be had. */
  lemma NoEntryIdlesBesideASleeper(run: seq<State>, es: seq<Event>, i: nat, slot: nat)
    requires IsRun(run, es) && i < |run| && slot < MAX_POOLS && !run[i].pools[slot].p.kaActive
    requires SomeoneSleeps(run[i].pools[slot])
    ensures |FreeLive(run[i].pools[slot].p)| <= |Woken(run[i].pools[slot])|
  {
    EveryRun(run, es, i);
    assert PoolOk(run[i], slot);
    SleepersAreServed(run, es, i, slot);
    NothingOwedWithoutThread(run, es, i, slot);
  }
}
