/** The reopen backoff of c/src/pool.c over histories of any length. */
module PoolBackoff {
  import opened Common
  import opened PoolVars
  import opened PoolMachine
  import opened PoolInvariant
  import opened PoolSystem

  /** Everything that ever happens to one entry of a published pool. */
  datatype EntryEvent =
    | Borrow
    | GiveBack(now: int)
    | PingEnd(ok: bool, now: int)
    | Claim(now: int)
    | ReopenEnd(ok: bool, now: int)

  predicate EntryCan(e: Entry, ev: EntryEvent) {
    match ev
    case Borrow => e.Free()
    case GiveBack(now) => e.inUse && !e.dead
    case PingEnd(ok, now) => e.inUse && !e.dead
    case Claim(now) => ReopenDue(e, now)
    case ReopenEnd(ok, now) => e.inUse && e.dead
  }

  function EntryDo(e: Entry, ev: EntryEvent): Entry {
    match ev
    case Borrow => e.(inUse := true)
    case GiveBack(now) => e.(inUse := false, lastUsed := now)
    case PingEnd(ok, now) => AfterPing(e, ok, now)
    case Claim(now) => ClaimForReopen(e, now)
    case ReopenEnd(ok, now) => AfterReopen(e, ok, now)
  }

  /** The entry after a history, and whether each event of it could happen when it did. */
  function Replay(e: Entry, log: seq<EntryEvent>): Entry {
    if log == [] then e else EntryDo(Replay(e, log[..|log| - 1]), log[|log| - 1])
  }

  ghost predicate Possible(e: Entry, log: seq<EntryEvent>) {
    log == [] || (Possible(e, log[..|log| - 1]) && EntryCan(Replay(e, log[..|log| - 1]), log[|log| - 1]))
  }

  /** When the reopen attempts of a history were made. */
  function Attempts(log: seq<EntryEvent>): seq<int> {
    if log == [] then []
    else Attempts(log[..|log| - 1]) + (if log[|log| - 1].Claim? then [log[|log| - 1].now] else [])
  }

  ghost predicate NeverRevived(log: seq<EntryEvent>) {
    forall i :: 0 <= i < |log| ==> !(log[i].ReopenEnd? && log[i].ok)
  }

  /** min(1000 * 2^k, 30000) milliseconds. */
  function Delay(k: nat): (d: nat)
    ensures FIRST_BACKOFF_MS <= d <= MAX_BACKOFF_MS
  {
    if k == 0 then FIRST_BACKOFF_MS
    else var twice := 2 * Delay(k - 1); if twice > MAX_BACKOFF_MS then MAX_BACKOFF_MS else twice
  }

  lemma {:induction false} DelayIsCappedDoubling(k: nat)
    ensures Delay(k) == if 1000 * Pow2(k) > 30000 then 30000 else 1000 * Pow2(k)
  {
    if k > 0 {
      DelayIsCappedDoubling(k - 1);
    }
  }

  function TotalDelay(k: nat): nat {
    Delay(k) + if k == 0 then 0 else TotalDelay(k - 1)
  }

  /** The state of a dead entry after any history without a successful reopen. */
  lemma {:induction false} DeadEntry(e: Entry, died: int, log: seq<EntryEvent>)
    requires !e.dead && BackoffOk(e)
    requires var d := AfterPing(e, false, died); Possible(d, log)
    requires NeverRevived(log)
    ensures var r := Replay(AfterPing(e, false, died), log);
            var tries := Attempts(log);
            && r.dead
            && (r.inUse ==> |tries| > 0)
            && r.backoffMs == Delay(if r.inUse then |tries| - 1 else |tries|)
            && r.lastReopen == (if tries == [] then died else tries[|tries| - 1])
            && (forall k :: 0 <= k < |tries| ==> 1000 * (tries[k] - died) >= TotalDelay(k))
  {
    if log != [] {
      DeadEntry(e, died, log[..|log| - 1]);
      var before := Attempts(log[..|log| - 1]);
      var r := Replay(AfterPing(e, false, died), log[..|log| - 1]);
      if log[|log| - 1].Claim? && before != [] {
        assert TotalDelay(|before|) == Delay(|before|) + TotalDelay(|before| - 1);
      }
    }
  }

  /** The k-th reopen attempt after a failed ping comes no earlier than the time of death plus the sum
      of the first k + 1 delays, each twice the one before up to thirty seconds. */
  lemma AttemptsAreSpaced(e: Entry, died: int, log: seq<EntryEvent>, k: nat)
    requires !e.dead && BackoffOk(e)
    requires Possible(AfterPing(e, false, died), log) && NeverRevived(log) && k < |Attempts(log)|
    ensures 1000 * (Attempts(log)[k] - died) >= TotalDelay(k)
  {
    DeadEntry(e, died, log);
  }

  // ---------------------------------------------------------------- in the running system

  /** The log of one step, of at most one event, takes the entry from e to e'. */
  predicate Explains(e: Entry, log: seq<EntryEvent>, e': Entry) {
    && |log| <= 1
    && (log == [] ==> e' == e)
    && (log != [] ==> EntryCan(e, log[0]) && e' == EntryDo(e, log[0]))
  }

  function Joined(logs: seq<seq<EntryEvent>>): seq<EntryEvent> {
    if logs == [] then [] else Joined(logs[..|logs| - 1]) + logs[|logs| - 1]
  }

  lemma {:induction false} LogsReplay(entries: seq<Entry>, logs: seq<seq<EntryEvent>>)
    requires |entries| == |logs| + 1
    requires forall i :: 0 <= i < |logs| ==> Explains(entries[i], logs[i], entries[i + 1])
    ensures Possible(entries[0], Joined(logs)) && Replay(entries[0], Joined(logs)) == entries[|logs|]
  {
    if logs != [] {
      var n := |logs| - 1;
      LogsReplay(entries[..n + 1], logs[..n]);
      assert Explains(entries[n], logs[n], entries[n + 1]);
      Extend(entries[0], Joined(logs[..n]), logs[n], entries[n + 1]);
    }
  }

  /** The part of a step that concerns entry x of the pool. */
  function StepOn(w: World, st: Step, x: nat): seq<EntryEvent>
    requires w.p.Wellformed()
  {
    match st
    case Enter(t, start) =>
      if w.p.initialized && start < w.p.size && Acquire(w.p, start) == Some(x) then [Borrow] else []
    case Wake(t, start) =>
      if w.p.initialized && start < w.p.size && Acquire(w.p, start) == Some(x) then [Borrow] else []
    case Return(t, now, _) => if CallerAtEntry(w, t, x) then [GiveBack(now)] else []
    case KaPing(i, now) => if i == x && !w.p.kaStop then [Borrow] else []
    case KaPingDone(ok, now, _) => if KaHolds(w.keepalive, x) then [PingEnd(ok, now)] else []
    case KaReopen(i, now) => if i == x && !w.p.kaStop then [Claim(now)] else []
    case KaReopenDone(now) =>
      if w.keepalive.Reopening? && w.keepalive.i == x then [ReopenEnd(w.keepalive.stage.Opened?, now)] else []
    case _ => []
  }

  function EventOn(s: State, ev: Event, slot: nat, x: nat): seq<EntryEvent>
    requires slot < |s.pools| && s.pools[slot].p.Wellformed()
  {
    if ev.OnPool? && ev.slot == slot then StepOn(s.pools[slot], ev.st, x) else []
  }

  predicate CallerAtEntry(w: World, t: nat, x: nat) {
    t in w.callers && !w.callers[t].Waiting? && w.callers[t].i == x
  }

  /** While a pool is published or draining, an event changes an entry exactly as its log says. */
  lemma EntryFollowsLog(s: State, ev: Event, slot: nat, x: nat)
    requires SysInv(s) && CanHappen(s, ev) && slot < MAX_POOLS && x < MAX_SIZE
    requires Live(s.pools[slot]) && Live(Happen(s, ev).pools[slot])
    ensures s.pools[slot].p.Wellformed() && Happen(s, ev).pools[slot].p.Wellformed()
    ensures Explains(s.pools[slot].p.entries[x], EventOn(s, ev, slot, x), Happen(s, ev).pools[slot].p.entries[x])
  {
    assert PoolOk(s, slot);
    if ev.OnPool? && ev.slot == slot {
      EntryFollowsStep(s, slot, ev.st, x);
    }
  }

  ghost predicate StepFollows(w: World, st: Step, w': World, x: nat)
    requires w.p.Wellformed() && w'.p.Wellformed() && x < MAX_SIZE
  {
    Explains(w.p.entries[x], StepOn(w, st, x), w'.p.entries[x])
  }

  lemma FollowsCaller(c: Config, st: Step, x: nat)
    requires Phases(c.w) && Exclusive(c.w) && x < MAX_SIZE && st.ByCaller() && CallerCan(c, st)
    ensures CallerDo(c, st).w.p.Wellformed() && StepFollows(c.w, st, CallerDo(c, st).w, x)
  {
    if st.Return? {
      assert CallerHolds(c.w, st.t, c.w.callers[st.t].i);
    }
  }

  lemma FollowsKeepalive(slot: nat, c: Config, st: Step, x: nat)
    requires Phases(c.w) && Exclusive(c.w) && x < MAX_SIZE && st.ByKeepalive() && KeepaliveCan(slot, c, st)
    ensures KeepaliveDo(slot, c, st).w.p.Wellformed() && StepFollows(c.w, st, KeepaliveDo(slot, c, st).w, x)
  {
    if st.KaPingDone? || st.KaReopenDone? {
      assert KaHolds(c.w.keepalive, c.w.keepalive.i);
    }
  }

  lemma FollowsOthers(slot: nat, c: Config, st: Step, x: nat)
    requires Phases(c.w) && x < MAX_SIZE && !st.ByCaller() && !st.ByKeepalive() && Can(slot, c, st)
    requires Live(c.w) && Live(Do(slot, c, st).w)
    ensures Do(slot, c, st).w.p.Wellformed() && StepFollows(c.w, st, Do(slot, c, st).w, x)
  {
  }

  lemma EntryFollowsStep(s: State, slot: nat, st: Step, x: nat)
    requires slot < |s.pools| && x < MAX_SIZE && Inv(slot, Config(s.pools[slot], s.n))
    requires Live(s.pools[slot]) && Can(slot, Config(s.pools[slot], s.n), st)
    requires Live(Do(slot, Config(s.pools[slot], s.n), st).w)
    ensures var w' := Do(slot, Config(s.pools[slot], s.n), st).w;
            w'.p.Wellformed() && StepFollows(s.pools[slot], st, w', x)
  {
    var c := Config(s.pools[slot], s.n);
    if st.ByCaller() {
      FollowsCaller(c, st, x);
    } else if st.ByKeepalive() {
      FollowsKeepalive(slot, c, st, x);
    } else {
      FollowsOthers(slot, c, st, x);
    }
  }

  /** What happened to entry x at each event from state a of a run to state b. */
  ghost function LogsOf(run: seq<State>, es: seq<Event>, a: nat, b: nat, slot: nat, x: nat)
    : (logs: seq<seq<EntryEvent>>)
    requires a <= b <= |es| && |run| == |es| + 1
    requires forall i :: a <= i <= b ==> slot < |run[i].pools| && run[i].pools[slot].p.Wellformed()
    ensures |logs| == b - a
    ensures forall i :: 0 <= i < b - a ==> logs[i] == EventOn(run[a + i], es[a + i], slot, x)
  {
    seq(b - a, i requires 0 <= i < b - a => EventOn(run[a + i], es[a + i], slot, x))
  }

  /** Entry x in each state from a to b of a run. */
  ghost function EntriesOf(run: seq<State>, a: nat, b: nat, slot: nat, x: nat): (entries: seq<Entry>)
    requires a <= b < |run| && x < MAX_SIZE && LiveFrom(run, a, b, slot)
    ensures |entries| == b - a + 1
    ensures forall i :: 0 <= i <= b - a ==> entries[i] == run[a + i].pools[slot].p.entries[x]
  {
    seq(b - a + 1, i requires 0 <= i <= b - a => run[a + i].pools[slot].p.entries[x])
  }

  /** The log of entry x from state a of a run to state b. */
  ghost function LogOf(run: seq<State>, es: seq<Event>, a: nat, b: nat, slot: nat, x: nat): seq<EntryEvent>
    requires a <= b <= |es| && |run| == |es| + 1
    requires forall i :: a <= i <= b ==> slot < |run[i].pools| && run[i].pools[slot].p.Wellformed()
  {
    Joined(LogsOf(run, es, a, b, slot, x))
  }

  ghost predicate LiveFrom(run: seq<State>, a: nat, b: nat, slot: nat)
    requires a <= b < |run|
  {
    forall i :: a <= i <= b ==>
      slot < |run[i].pools| && run[i].pools[slot].p.Wellformed() && Live(run[i].pools[slot])
  }

  lemma Extend(e: Entry, front: seq<EntryEvent>, last: seq<EntryEvent>, e': Entry)
    requires Possible(e, front) && Explains(Replay(e, front), last, e')
    ensures Possible(e, front + last) && Replay(e, front + last) == e'
  {
    if last == [] {
      assert front + last == front;
    } else {
      assert (front + last)[..|front + last| - 1] == front && (front + last)[|front + last| - 1] == last[0];
    }
  }

  ghost predicate Follows(s: State, ev: Event, s': State, slot: nat, x: nat)
    requires slot < |s.pools| && s.pools[slot].p.Wellformed() && x < MAX_SIZE
    requires slot < |s'.pools| && s'.pools[slot].p.Wellformed()
  {
    Explains(s.pools[slot].p.entries[x], EventOn(s, ev, slot, x), s'.pools[slot].p.entries[x])
  }

  lemma EntryFollowsRun(run: seq<State>, es: seq<Event>, i: nat, slot: nat, x: nat)
    requires IsRun(run, es) && i < |es| && slot < MAX_POOLS && x < MAX_SIZE
    requires Live(run[i].pools[slot]) && Live(run[i + 1].pools[slot])
    ensures run[i].pools[slot].p.Wellformed() && run[i + 1].pools[slot].p.Wellformed()
    ensures Follows(run[i], es[i], run[i + 1], slot, x)
  {
    EveryRun(run, es, i);
    EntryFollowsLog(run[i], es[i], slot, x);
  }

  lemma LogExplains(run: seq<State>, es: seq<Event>, a: nat, b: nat, slot: nat, x: nat, i: nat)
    requires IsRun(run, es) && a <= b <= |es| && slot < MAX_POOLS && x < MAX_SIZE
    requires LiveFrom(run, a, b, slot) && i < b - a
    ensures Explains(EntriesOf(run, a, b, slot, x)[i], LogsOf(run, es, a, b, slot, x)[i],
                     EntriesOf(run, a, b, slot, x)[i + 1])
  {
    EntryFollowsRun(run, es, a + i, slot, x);
  }

  /** Between two states of a run that keep the pool live, an entry goes through exactly its log. */
  lemma RunFollowsLog(run: seq<State>, es: seq<Event>, a: nat, b: nat, slot: nat, x: nat)
    requires IsRun(run, es) && a <= b <= |es| && slot < MAX_POOLS && x < MAX_SIZE
    requires LiveFrom(run, a, b, slot)
    ensures var log := LogOf(run, es, a, b, slot, x);
            && Possible(run[a].pools[slot].p.entries[x], log)
            && Replay(run[a].pools[slot].p.entries[x], log) == run[b].pools[slot].p.entries[x]
  {
    var entries, logs := EntriesOf(run, a, b, slot, x), LogsOf(run, es, a, b, slot, x);
    forall i: nat | i < b - a ensures Explains(entries[i], logs[i], entries[i + 1]) {
      LogExplains(run, es, a, b, slot, x, i);
    }
    LogsReplay(entries, logs);
  }

  lemma PingedEntryWasLive(run: seq<State>, es: seq<Event>, a: nat, slot: nat, x: nat)
    requires IsRun(run, es) && a < |es| && slot < MAX_POOLS && x < MAX_SIZE
    requires es[a].OnPool? && es[a].slot == slot && es[a].st.KaPingDone?
    requires KaHolds(run[a].pools[slot].keepalive, x)
    ensures run[a].pools[slot].p.Wellformed()
    ensures !run[a].pools[slot].p.entries[x].dead && BackoffOk(run[a].pools[slot].p.entries[x])
  {
    EveryRun(run, es, a);
    assert PoolOk(run[a], slot);
  }

  /** In any run: when a ping fails, the k-th attempt to reopen that entry, as long as none succeeds and
      the pool stays open, comes no earlier than the time of death plus the sum of the delays. */
  lemma ReopensAreSpacedInEveryRun(
    run: seq<State>, es: seq<Event>, a: nat, b: nat, slot: nat, x: nat, died: int,
    to: Option<Sleeper>, k: nat)
    requires IsRun(run, es) && a < b <= |es| && slot < MAX_POOLS && x < MAX_SIZE
    requires LiveFrom(run, a, b, slot)
    requires es[a] == OnPool(slot, KaPingDone(false, died, to)) && KaHolds(run[a].pools[slot].keepalive, x)
    requires NeverRevived(LogOf(run, es, a + 1, b, slot, x))
    requires k < |Attempts(LogOf(run, es, a + 1, b, slot, x))|
    ensures 1000 * (Attempts(LogOf(run, es, a + 1, b, slot, x))[k] - died) >= TotalDelay(k)
  {
    PingedEntryWasLive(run, es, a, slot, x);
    FailedPingFollows(run, es, a, slot, x, died, to);
    RunFollowsLog(run, es, a + 1, b, slot, x);
    AttemptsAreSpaced(run[a].pools[slot].p.entries[x], died, LogOf(run, es, a + 1, b, slot, x), k);
  }

  lemma FailedPingFollows(
    run: seq<State>, es: seq<Event>, a: nat, slot: nat, x: nat, died: int, to: Option<Sleeper>)
    requires IsRun(run, es) && a < |es| && slot < MAX_POOLS && x < MAX_SIZE
    requires Live(run[a].pools[slot]) && Live(run[a + 1].pools[slot])
    requires es[a] == OnPool(slot, KaPingDone(false, died, to)) && KaHolds(run[a].pools[slot].keepalive, x)
    ensures run[a].pools[slot].p.Wellformed() && run[a + 1].pools[slot].p.Wellformed()
    ensures run[a + 1].pools[slot].p.entries[x] == AfterPing(run[a].pools[slot].p.entries[x], false, died)
  {
    EntryFollowsRun(run, es, a, slot, x);
    assert EventOn(run[a], es[a], slot, x) == [PingEnd(false, died)];
  }
}
