/** A run in which the keepalive thread takes the signal a waiting caller needed. */
module PoolAbsorbedSignal {
  import opened Common
  import opened ConnLayer
  import opened PoolVars
  import opened PoolMachine
  import opened PoolSystem
  import opened PoolWaiters

  /** The client with one pool in use, in slot 0. */
  ghost function Lone(c: Config): State {
    State(seq(MAX_POOLS, k => if k == 0 then c.w else UNOPENED), c.n)
  }

  ghost predicate EndsIn(run: seq<State>, es: seq<Event>, c: Config) {
    IsRun(run, es) && run[|es|] == Lone(c)
  }

  predicate Next(c: Config, st: Step, c': Config) {
    c.w.p.Wellformed() && Can(0, c, st) && Do(0, c, st) == c'
  }

  lemma OneMore(run: seq<State>, es: seq<Event>, c: Config, st: Step, c': Config)
    returns (run': seq<State>, es': seq<Event>)
    requires EndsIn(run, es, c) && Next(c, st, c') && !st.PoolClose?
    ensures EndsIn(run', es', c')
  {
    var e := OnPool(0, st);
    assert st.PoolOpen? ==> AllIdle(Lone(c));
    assert CanHappen(Lone(c), e);
    assert Happen(Lone(c), e).pools == Lone(c').pools;
    run', es' := run + [Lone(c')], es + [e];
    forall i | 0 <= i < |es'| ensures CanHappen(run'[i], es'[i]) && run'[i + 1] == Happen(run'[i], es'[i]) {
      if i < |es| {
        assert run'[i] == run[i] && run'[i + 1] == run[i + 1] && es'[i] == es[i];
      }
    }
  }

  // ---------------------------------------------------------------- a pool of n entries while it is opened

  function ConnAt(i: nat): Conn {
    Conn(0, i + 1, LFO_VENDOR_ID, 0)
  }

  function RowsTo(k: nat): (rows: map<nat, Conn>)
    ensures |rows| == k && forall h: nat :: h in rows <==> Handle(0, 0) <= h < Handle(0, k)
  {
    if k == 0 then map[] else RowsTo(k - 1)[Handle(0, k - 1) := ConnAt(k - 1)]
  }

  function ConnsTo(k: nat): (conns: set<Conn>)
    ensures forall i: nat :: ConnAt(i) in conns <==> i < k
  {
    if k == 0 then {} else ConnsTo(k - 1) + {ConnAt(k - 1)}
  }

  /** k connections are open and in the table. */
  function Table(k: nat): Net {
    Net(RowsTo(k), map[], ConnsTo(k), {}, ConnsTo(k), {})
  }

  /** One more is open and on its way there. */
  function Midway(k: nat): Net {
    Net(RowsTo(k), map[Lifecycle := Granted(ConnAt(k))], ConnsTo(k + 1), {}, ConnsTo(k + 1), {})
  }

  /** The first k entries are recorded, the first busy of them borrowed. */
  function EntriesTo(k: nat, busy: nat): (es: seq<Entry>)
    ensures |es| == MAX_SIZE
  {
    seq(MAX_SIZE, (i: nat) => if i < k then Entry(i < busy, Handle(0, i), 0, false, 0, 0) else BLANK)
  }

  function Starting(n: nat, k: nat, stage: OpenStage, net: Net): Config {
    Config(World(Prepared(n, 1000).(entries := EntriesTo(k, 0)), NoThread, map[], Opening(k, stage)), net)
  }

  lemma BeginsToOpen(n: nat)
    requires 1 <= n <= MAX_SIZE
    ensures Next(Config(UNOPENED, EMPTY), PoolOpen(n, 1000), Starting(n, 0, SendLfo, Table(0)))
  {
    assert ZERO.entries == EntriesTo(0, 0);
  }

  lemma IsGranted(n: nat, k: nat)
    requires k < n <= MAX_SIZE
    ensures Next(Starting(n, k, SendLfo, Table(k)), OpenStep(LfoGranted(Lifecycle, ConnAt(k))),
                 Starting(n, k, ToInsert, Midway(k)))
  {
  }

  lemma IsInserted(n: nat, k: nat)
    requires k < n <= MAX_SIZE
    ensures Next(Starting(n, k, ToInsert, Midway(k)), OpenStep(InsertRow(Lifecycle, Handle(0, k))),
                 Starting(n, k, PoolMachine.Opened, Table(k + 1)))
  {
  }

  lemma IsRecorded(n: nat, k: nat)
    requires k < n <= MAX_SIZE
    ensures Next(Starting(n, k, PoolMachine.Opened, Table(k + 1)), OpenRecord(0),
                 Starting(n, k + 1, SendLfo, Table(k + 1)))
  {
    assert EntriesTo(k, 0)[k := Entry(false, Handle(0, k), 0, false, 0, 0)] == EntriesTo(k + 1, 0);
  }

  lemma {:induction false} OpensTo(n: nat, k: nat) returns (run: seq<State>, es: seq<Event>)
    requires 1 <= n <= MAX_SIZE && k <= n
    ensures EndsIn(run, es, Starting(n, k, SendLfo, Table(k)))
  {
    if k == 0 {
      BeginsToOpen(n);
      run, es := [Lone(Config(UNOPENED, EMPTY))], [];
      run, es := OneMore(run, es, Config(UNOPENED, EMPTY), PoolOpen(n, 1000), Starting(n, 0, SendLfo, Table(0)));
    } else {
      var j := k - 1;
      var c0, c1 := Starting(n, j, SendLfo, Table(j)), Starting(n, j, ToInsert, Midway(j));
      var c2, c3 := Starting(n, j, PoolMachine.Opened, Table(k)), Starting(n, k, SendLfo, Table(k));
      IsGranted(n, j);
      IsInserted(n, j);
      IsRecorded(n, j);
      run, es := OpensTo(n, j);
      run, es := OneMore(run, es, c0, OpenStep(LfoGranted(Lifecycle, ConnAt(j))), c1);
      run, es := OneMore(run, es, c1, OpenStep(InsertRow(Lifecycle, Handle(0, j))), c2);
      run, es := OneMore(run, es, c2, OpenRecord(0), c3);
    }
  }

  // ---------------------------------------------------------------- the same pool at work

  function Running(n: nat, keepalive: KeepaliveAt, callers: map<nat, CallerAt>, entries: seq<Entry>): Config {
    Config(World(Pool(true, n, 1000, entries, true, false), keepalive, callers, Idle), Table(n))
  }

  function LentTo(t: nat): CallerAt
    requires t > 0
  {
    Borrowed(t - 1, Handle(0, t - 1))
  }

  /** Callers 1 to j have the first j entries. */
  function Borrowers(j: nat): map<nat, CallerAt> {
    map t: nat | 1 <= t <= j :: LentTo(t)
  }

  lemma Publishes(n: nat)
    requires 1 <= n <= MAX_SIZE
    ensures Next(Starting(n, n, SendLfo, Table(n)), OpenPublish(true), Running(n, Scanning, map[], EntriesTo(n, 0)))
    ensures Next(Running(n, Scanning, map[], EntriesTo(n, 0)), KaSleep,
                 Running(n, Sleeping(false), map[], EntriesTo(n, 0)))
  {
  }

  lemma NextIsFree(n: nat, j: nat)
    requires j < n <= MAX_SIZE
    ensures AcquireFrom(EntriesTo(n, j), n, j, 0) == Some(j)
    ensures EntriesTo(n, j)[j := EntriesTo(n, j)[j].(inUse := true)] == EntriesTo(n, j + 1)
    ensures EntriesTo(n, j)[j].handle == Handle(0, j)
    ensures Borrowers(j)[j + 1 := LentTo(j + 1)] == Borrowers(j + 1)
  {
    assert Position(j, 0, n) == j && EntriesTo(n, j)[j].Free();
  }

  lemma BorrowsNext(n: nat, j: nat)
    requires j < n <= MAX_SIZE
    ensures Next(Running(n, Sleeping(false), Borrowers(j), EntriesTo(n, j)), Enter(j + 1, j),
                 Running(n, Sleeping(false), Borrowers(j + 1), EntriesTo(n, j + 1)))
  {
    NextIsFree(n, j);
  }

  lemma {:induction false} BorrowsTo(n: nat, j: nat) returns (run: seq<State>, es: seq<Event>)
    requires 1 <= n <= MAX_SIZE && j <= n
    ensures EndsIn(run, es, Running(n, Sleeping(false), Borrowers(j), EntriesTo(n, j)))
  {
    if j == 0 {
      Publishes(n);
      run, es := OpensTo(n, n);
      run, es := OneMore(run, es, Starting(n, n, SendLfo, Table(n)), OpenPublish(true),
                         Running(n, Scanning, map[], EntriesTo(n, 0)));
      run, es := OneMore(run, es, Running(n, Scanning, map[], EntriesTo(n, 0)), KaSleep,
                         Running(n, Sleeping(false), map[], EntriesTo(n, 0)));
      assert Borrowers(0) == map[];
    } else {
      BorrowsNext(n, j - 1);
      run, es := BorrowsTo(n, j - 1);
      run, es := OneMore(run, es, Running(n, Sleeping(false), Borrowers(j - 1), EntriesTo(n, j - 1)), Enter(j, j - 1),
                         Running(n, Sleeping(false), Borrowers(j), EntriesTo(n, j)));
    }
  }

  // ---------------------------------------------------------------- one caller too many

  function Crowd(n: nat): map<nat, CallerAt> {
    Borrowers(n)[n + 1 := Waiting(true)]
  }

  function OneSent(n: nat): map<nat, CallerAt> {
    Crowd(n)[1 := Sent(0, Handle(0, 0), true)]
  }

  /** All entries but the first are borrowed. */
  function FirstBack(n: nat): (es: seq<Entry>)
    ensures |es| == MAX_SIZE
  {
    EntriesTo(n, n)[0 := Entry(false, Handle(0, 0), 0, false, 0, 0)]
  }

  /** The end: entry 0 is free and live, and caller n + 1 sleeps. */
  function Stranded(n: nat): Config {
    Running(n, Sleeping(false), OneSent(n) - {1}, FirstBack(n))
  }

  lemma FallsAsleep(n: nat)
    requires 1 <= n <= MAX_SIZE
    ensures Next(Running(n, Sleeping(false), Borrowers(n), EntriesTo(n, n)), Enter(n + 1, 0),
                 Running(n, Sleeping(false), Crowd(n), EntriesTo(n, n)))
  {
    AcquireExact(Running(n, Sleeping(false), Borrowers(n), EntriesTo(n, n)).w.p, 0);
  }

  lemma Sends(n: nat)
    requires 1 <= n <= MAX_SIZE
    ensures Next(Running(n, Sleeping(false), Crowd(n), EntriesTo(n, n)), Send(1),
                 Running(n, Sleeping(false), OneSent(n), EntriesTo(n, n)))
  {
  }

  lemma Returns(n: nat)
    requires 1 <= n <= MAX_SIZE
    ensures Next(Running(n, Sleeping(false), OneSent(n), EntriesTo(n, n)), Return(1, 0, Some(SleepingKeepalive)),
                 Running(n, Sleeping(true), OneSent(n) - {1}, FirstBack(n)))
    ensures Next(Running(n, Sleeping(true), OneSent(n) - {1}, FirstBack(n)), KaStir, Stranded(n))
  {
  }

  lemma StrandedShape(n: nat)
    requires 1 <= n <= MAX_SIZE
    ensures var w := Stranded(n).w;
      && w.p.initialized && w.p.kaActive && w.p.size == n
      && SomeoneSleeps(w) && Woken(w) == {} && FreeLive(w.p) == {0}
  {
    assert Asleep(Stranded(n).w, SleepingCaller(n + 1));
  }

  /** For a pool of any size: entry 0 is free and live, nobody is woken, and a caller sleeps on, because the
      keepalive thread took the signal of the return and went back to sleep. */
  lemma KeepaliveAbsorbsSignal(n: nat) returns (run: seq<State>, es: seq<Event>)
    requires 1 <= n <= MAX_SIZE
    ensures EndsIn(run, es, Stranded(n))
    ensures var w := Stranded(n).w;
      && w.p.initialized && w.p.kaActive && w.p.size == n
      && SomeoneSleeps(w) && Woken(w) == {} && FreeLive(w.p) == {0}
  {
    StrandedShape(n);
    FallsAsleep(n);
    Sends(n);
    Returns(n);
    var asleep := Sleeping(false);
    var c0 := Running(n, asleep, Borrowers(n), EntriesTo(n, n));
    var c1, c2 := Running(n, asleep, Crowd(n), EntriesTo(n, n)), Running(n, asleep, OneSent(n), EntriesTo(n, n));
    var c3 := Running(n, Sleeping(true), OneSent(n) - {1}, FirstBack(n));
    run, es := BorrowsTo(n, n);
    run, es := OneMore(run, es, c0, Enter(n + 1, 0), c1);
    run, es := OneMore(run, es, c1, Send(1), c2);
    run, es := OneMore(run, es, c2, Return(1, 0, Some(SleepingKeepalive)), c3);
    run, es := OneMore(run, es, c3, KaStir, Stranded(n));
  }

  /** In every run, while a caller sleeps in a pool of this size, with or without a keepalive thread, as
      many woken callers are on their way as entries are free and live. */
  ghost predicate WaitersServed(size: nat, keepalive: bool) {
    forall run: seq<State>, es: seq<Event>, i: nat, slot: nat ::
      IsRun(run, es) && i < |run| && slot < MAX_POOLS && run[i].pools[slot].p.size == size
      && run[i].pools[slot].p.kaActive == keepalive && SomeoneSleeps(run[i].pools[slot]) ==>
        |FreeLive(run[i].pools[slot].p)| <= |Woken(run[i].pools[slot])|
  }

  /** Which is so, for every size, exactly for pools without one. */
  lemma WaitersServedExactly(size: nat, keepalive: bool)
    requires 1 <= size <= MAX_SIZE
    ensures WaitersServed(size, keepalive) <==> !keepalive
  {
    if keepalive {
      var run, es := KeepaliveAbsorbsSignal(size);
      LastOfRun(run, es, Stranded(size));
      assert |FreeLive(Stranded(size).w.p)| == 1 && |Woken(Stranded(size).w)| == 0;
    } else {
      forall run: seq<State>, es: seq<Event>, i: nat, slot: nat |
        IsRun(run, es) && i < |run| && slot < MAX_POOLS && run[i].pools[slot].p.size == size
        && run[i].pools[slot].p.kaActive == keepalive && SomeoneSleeps(run[i].pools[slot])
        ensures |FreeLive(run[i].pools[slot].p)| <= |Woken(run[i].pools[slot])|
      {
        NoEntryIdlesBesideASleeper(run, es, i, slot);
      }
    }
  }

  lemma LastOfRun(run: seq<State>, es: seq<Event>, c: Config)
    requires EndsIn(run, es, c)
    ensures IsRun(run, es) && |es| < |run| && |run[|es|].pools| == MAX_POOLS && run[|es|].pools[0] == c.w
  {
  }
}
