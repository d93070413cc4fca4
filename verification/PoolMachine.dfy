/** One pool slot of c/src/pool.c as a step system.  A step is a critical section or one message
    exchange with the PLC; threads interleave between steps in any order. */
module PoolMachine {
  import opened Common
  import opened ConnLayer
  import opened PoolVars

  /** Program points of bp_client_txrx_open, seen by the thread that called it. */
  datatype OpenStage = SendLfo | ToInsert | Undo | Opened | NotOpened

  /** Program points of pool_keepalive_loop.  Scanning stands for the two passes over the
      entries; a pass may look at any entry next, which covers the order the source uses.
      Sleeping is the timed wait, signalled once the condvar has woken it. */
  datatype KeepaliveAt =
    | NoThread
    | Sleeping(signalled: bool)
    | Scanning
    | Exited
    | Pinging(i: nat)
    | Pinged(i: nat, found: bool)
    | Wiping(i: nat)
    | Reopening(i: nat, stage: OpenStage)

  /** Program points of bp_client_pool_txrx once it has decided to wait or to borrow; a waiting caller
      is asleep on the condvar or was woken and has yet to get the lock. */
  datatype CallerAt = Waiting(asleep: bool) | Borrowed(i: nat, handle: nat) | Sent(i: nat, handle: nat, found: bool)

  /** Program points of the thread that holds pools_mu for this slot; the draining closer is about to
      scan the entries or asleep on the condvar. */
  datatype LifecycleAt =
    | Idle
    | Opening(i: nat, stage: OpenStage)
    | RollingBack(count: nat, next: nat, closing: bool)
    | Joining
    | Draining(asleep: bool)
    | Closing(next: nat, closing: bool)

  datatype World = World(
    p: Pool, keepalive: KeepaliveAt, callers: map<nat, CallerAt>, lifecycle: LifecycleAt)

  datatype Config = Config(w: World, n: Net)

  // ---------------------------------------------------------------- the condvar

  datatype Sleeper = SleepingCaller(t: nat) | SleepingKeepalive | SleepingCloser

  predicate Asleep(w: World, s: Sleeper) {
    match s
    case SleepingCaller(t) => t in w.callers && w.callers[t].Waiting? && w.callers[t].asleep
    case SleepingKeepalive => w.keepalive.Sleeping? && !w.keepalive.signalled
    case SleepingCloser => w.lifecycle.Draining? && w.lifecycle.asleep
  }

  /** pthread_cond_signal wakes some sleeper, whichever it likes, and none only if there is none. */
  predicate SignalGoes(w: World, to: Option<Sleeper>) {
    match to
    case Some(s) => Asleep(w, s)
    case None =>
      && (forall t :: t in w.callers ==> !Asleep(w, SleepingCaller(t)))
      && !Asleep(w, SleepingKeepalive) && !Asleep(w, SleepingCloser)
  }

  function Roused(w: World, s: Sleeper): World {
    match s
    case SleepingCaller(t) => w.(callers := w.callers[t := Waiting(false)])
    case SleepingKeepalive => w.(keepalive := Sleeping(true))
    case SleepingCloser => w.(lifecycle := Draining(false))
  }

  function Signalled(w: World, to: Option<Sleeper>): World {
    match to
    case Some(s) => Roused(w, s)
    case None => w
  }

  function Broadcast(w: World): (w': World)
    ensures w'.p == w.p && w'.callers.Keys == w.callers.Keys
    ensures forall t :: t in w.callers ==>
              w'.callers[t] == if w.callers[t].Waiting? then Waiting(false) else w.callers[t]
    ensures w'.keepalive == if w.keepalive.Sleeping? then Sleeping(true) else w.keepalive
    ensures w'.lifecycle == if w.lifecycle.Draining? then Draining(false) else w.lifecycle
  {
    World(w.p, if w.keepalive.Sleeping? then Sleeping(true) else w.keepalive,
          map t | t in w.callers :: if w.callers[t].Waiting? then Waiting(false) else w.callers[t],
          if w.lifecycle.Draining? then Draining(false) else w.lifecycle)
  }

  // ---------------------------------------------------------------- the steps and their guards

  datatype Step =
    | Enter(t: nat, start: nat)
    | Wake(t: nat, start: nat)
    | Send(t: nat)
    | Return(t: nat, now: int, to: Option<Sleeper>)
    | RouseCaller(t: nat)
    | KaSleep
    | KaStir
    | KaWake
    | KaRouse
    | KaPing(i: nat, now: int)
    | KaSendPing
    | KaPingDone(ok: bool, now: int, to: Option<Sleeper>)
    | KaReopen(i: nat, now: int)
    | KaWipe
    | KaOpenStep(op: Op)
    | KaReopenDone(now: int)
    | PoolOpen(size: nat, keepaliveMs: nat)
    | OpenStep(op: Op)
    | OpenRecord(now: int)
    | OpenPublish(threadStarted: bool)
    | OpenFail
    | RollTake
    | RollFc(d: Delivery)
    | RollClear
    | PoolClose
    | CloseJoined
    | CloseWait
    | CloseRouse
    | CloseDrained
    | CloseTake
    | CloseFc(d: Delivery)
    | CloseClear
  {
    predicate ByCaller() { Enter? || Wake? || Send? || Return? || RouseCaller? }

    predicate ByKeepalive() {
      KaSleep? || KaStir? || KaWake? || KaRouse? || KaPing? || KaSendPing? || KaPingDone? || KaReopen? || KaWipe?
      || KaOpenStep? || KaReopenDone?
    }

    predicate ByOpener() {
      PoolOpen? || OpenStep? || OpenRecord? || OpenPublish? || OpenFail? || RollTake? || RollFc? || RollClear?
    }

    predicate ByCloser() {
      PoolClose? || CloseJoined? || CloseWait? || CloseRouse? || CloseDrained? || CloseTake? || CloseFc?
      || CloseClear?
    }

    /** A condvar wait that ends without a signal. */
    predicate Spurious() { RouseCaller? || KaRouse? || CloseRouse? }
  }

  // ---------------------------------------------------------------- the open call in its parts

  predicate OpenCan(slot: nat, o: Owner, h: nat, stage: OpenStage, op: Op, n: Net) {
    && Enabled(n, op)
    && match stage
       case SendLfo =>
         (op.LfoGranted? && op.o == o && op.c.slot == slot) || (op.LfoRefused? && op.o == o)
         || (op.LfoReplyLost? && op.o == o && op.c.slot == slot)
       case ToInsert => op == InsertRow(o, h)
       case Undo => op.SendFc? && op.o == o
       case _ => false
  }

  function OpenNext(h: nat, stage: OpenStage, op: Op, n: Net): OpenStage {
    match stage
    case SendLfo => if op.LfoGranted? then ToInsert else NotOpened
    case ToInsert => if Accepts(n.rows, h) then Opened else Undo
    case Undo => NotOpened
    case _ => stage
  }

  // ---------------------------------------------------------------- the steps

  /** What a caller that just got the lock does: give up, borrow or wait. */
  function Arrive(w: World, t: nat, start: nat): World
    requires w.p.Wellformed() && (w.p.initialized ==> start < w.p.size)
  {
    if !w.p.initialized then w.(callers := w.callers - {t})
    else match Acquire(w.p, start)
      case None => w.(callers := w.callers[t := Waiting(true)])
      case Some(i) => w.(p := Mark(w.p, i), callers := w.callers[t := Borrowed(i, w.p.entries[i].handle)])
  }

  /** A borrower puts its entry back and is gone; the signal comes next. */
  function GivenBack(w: World, t: nat, now: int): World
    requires t in w.callers && w.callers[t].Sent? && w.callers[t].i < |w.p.entries|
  {
    w.(p := Release(w.p, w.callers[t].i, now), callers := w.callers - {t})
  }

  predicate CallerCan(c: Config, st: Step)
    requires c.w.p.Wellformed() && st.ByCaller()
  {
    var w := c.w;
    match st
    case Enter(t, start) => t !in w.callers && (w.p.initialized ==> start < w.p.size)
    case Wake(t, start) => t in w.callers && w.callers[t] == Waiting(false) && (w.p.initialized ==> start < w.p.size)
    case Send(t) => t in w.callers && w.callers[t].Borrowed?
    case Return(t, now, to) =>
      t in w.callers && w.callers[t].Sent? && w.callers[t].i < MAX_SIZE && SignalGoes(GivenBack(w, t, now), to)
    case RouseCaller(t) => Asleep(w, SleepingCaller(t))
  }

  function CallerDo(c: Config, st: Step): Config
    requires c.w.p.Wellformed() && st.ByCaller() && CallerCan(c, st)
  {
    var w, n := c.w, c.n;
    match st
    case Enter(t, start) => c.(w := Arrive(w, t, start))
    case Wake(t, start) => c.(w := Arrive(w, t, start))
    case Send(t) =>
      var at := w.callers[t];
      c.(w := w.(callers := w.callers[t := Sent(at.i, at.handle, at.handle in n.rows)]))
    case Return(t, now, to) => c.(w := Signalled(GivenBack(w, t, now), to))
    case RouseCaller(t) => c.(w := Roused(w, SleepingCaller(t)))
  }

  function PingOver(w: World, ok: bool, now: int): World
    requires w.keepalive.Pinged? && w.keepalive.i < |w.p.entries|
  {
    w.(p := PingDone(w.p, w.keepalive.i, ok, now), keepalive := Scanning)
  }

  predicate KeepaliveCan(slot: nat, c: Config, st: Step)
    requires c.w.p.Wellformed() && st.ByKeepalive()
  {
    var w, n := c.w, c.n;
    match st
    case KaSleep => w.keepalive.Scanning?
    case KaStir => w.keepalive == Sleeping(true)
    case KaWake => w.keepalive == Sleeping(false)
    case KaRouse => w.keepalive == Sleeping(false)
    case KaPing(i, now) =>
      w.keepalive.Scanning? && i < w.p.size && (w.p.kaStop || PingDue(w.p, w.p.entries[i], now))
    case KaSendPing => w.keepalive.Pinging? && w.keepalive.i < MAX_SIZE
    case KaPingDone(ok, now, to) =>
      w.keepalive.Pinged? && w.keepalive.i < MAX_SIZE && (ok ==> w.keepalive.found)
      && SignalGoes(PingOver(w, ok, now), to)
    case KaReopen(i, now) =>
      w.keepalive.Scanning? && i < w.p.size && (w.p.kaStop || ReopenDue(w.p.entries[i], now))
    case KaWipe => w.keepalive.Wiping? && w.keepalive.i < MAX_SIZE
    case KaOpenStep(op) =>
      w.keepalive.Reopening? && w.keepalive.i < MAX_SIZE
      && OpenCan(slot, Keepalive(slot), w.p.entries[w.keepalive.i].handle, w.keepalive.stage, op, n)
    case KaReopenDone(now) =>
      w.keepalive.Reopening? && w.keepalive.i < MAX_SIZE
      && (w.keepalive.stage.Opened? || w.keepalive.stage.NotOpened?)
  }

  function KeepaliveDo(slot: nat, c: Config, st: Step): Config
    requires c.w.p.Wellformed() && st.ByKeepalive() && KeepaliveCan(slot, c, st)
  {
    var w, n := c.w, c.n;
    match st
    case KaSleep => c.(w := w.(keepalive := if w.p.kaStop then Exited else Sleeping(false)))
    case KaStir => c.(w := w.(keepalive := if w.p.kaStop then Exited else Sleeping(false)))
    case KaRouse => c.(w := Roused(w, SleepingKeepalive))
    case KaWake => c.(w := w.(keepalive := if w.p.kaStop then Exited else Scanning))
    case KaPing(i, now) =>
      if w.p.kaStop then c.(w := w.(keepalive := Exited))
      else c.(w := w.(p := Mark(w.p, i), keepalive := Pinging(i)))
    case KaSendPing =>
      var i := w.keepalive.i;
      c.(w := w.(keepalive := Pinged(i, w.p.entries[i].handle in n.rows)))
    case KaPingDone(ok, now, to) => c.(w := Signalled(PingOver(w, ok, now), to))
    case KaReopen(i, now) =>
      if w.p.kaStop then c.(w := w.(keepalive := Exited))
      else c.(w := w.(p := ReopenClaim(w.p, i, now), keepalive := Wiping(i)))
    case KaWipe =>
      var i := w.keepalive.i;
      Config(w.(keepalive := Reopening(i, SendLfo)), Apply(n, WipeRow(w.p.entries[i].handle)))
    case KaOpenStep(op) =>
      var i := w.keepalive.i;
      Config(w.(keepalive := Reopening(i, OpenNext(w.p.entries[i].handle, w.keepalive.stage, op, n))),
             Apply(n, op))
    case KaReopenDone(now) =>
      var i := w.keepalive.i;
      var w' := w.(p := ReopenDone(w.p, i, w.keepalive.stage.Opened?, now), keepalive := Scanning);
      c.(w := if w.keepalive.stage.Opened? then Broadcast(w') else w')
  }

  predicate OpenerCan(slot: nat, c: Config, st: Step)
    requires c.w.p.Wellformed() && st.ByOpener()
  {
    var w, n := c.w, c.n;
    match st
    case PoolOpen(size, keepaliveMs) =>
      w.lifecycle.Idle? && !w.p.initialized && 1 <= size <= MAX_SIZE && keepaliveMs < 0x1_0000
    case OpenStep(op) =>
      w.lifecycle.Opening? && w.lifecycle.i < w.p.size
      && OpenCan(slot, Lifecycle, Handle(slot, w.lifecycle.i), w.lifecycle.stage, op, n)
    case OpenRecord(now) => w.lifecycle.Opening? && w.lifecycle.stage.Opened? && w.lifecycle.i < MAX_SIZE
    case OpenPublish(threadStarted) =>
      w.lifecycle.Opening? && w.lifecycle.stage.SendLfo? && w.lifecycle.i == w.p.size
    case OpenFail => w.lifecycle.Opening? && w.lifecycle.stage.NotOpened?
    case RollTake =>
      w.lifecycle.RollingBack? && !w.lifecycle.closing && w.lifecycle.next < w.lifecycle.count <= MAX_SIZE
      && Enabled(n, TakeRow(Lifecycle, w.p.entries[w.lifecycle.next].handle))
    case RollFc(d) =>
      w.lifecycle.RollingBack? && w.lifecycle.closing && Enabled(n, SendFc(Lifecycle, d))
    case RollClear =>
      w.lifecycle.RollingBack? && !w.lifecycle.closing && w.lifecycle.next == w.lifecycle.count
  }

  function OpenerDo(slot: nat, c: Config, st: Step): Config
    requires c.w.p.Wellformed() && st.ByOpener() && OpenerCan(slot, c, st)
  {
    var w, n := c.w, c.n;
    match st
    case PoolOpen(size, keepaliveMs) =>
      c.(w := w.(p := Prepared(size, keepaliveMs), lifecycle := Opening(0, SendLfo)))
    case OpenStep(op) =>
      var i := w.lifecycle.i;
      Config(w.(lifecycle := Opening(i, OpenNext(Handle(slot, i), w.lifecycle.stage, op, n))), Apply(n, op))
    case OpenRecord(now) =>
      var i := w.lifecycle.i;
      c.(w := w.(p := Record(w.p, i, Handle(slot, i), now), lifecycle := Opening(i + 1, SendLfo)))
    case OpenPublish(threadStarted) =>
      var p := Ready(w.p, threadStarted);
      c.(w := w.(p := p, lifecycle := Idle, keepalive := if p.kaActive then Scanning else NoThread))
    case OpenFail => c.(w := w.(lifecycle := RollingBack(w.lifecycle.i, 0, false)))
    case RollTake =>
      var r := w.lifecycle;
      var h := w.p.entries[r.next].handle;
      Config(w.(lifecycle := if h in n.rows then RollingBack(r.count, r.next, true)
                             else RollingBack(r.count, r.next + 1, false)),
             Apply(n, TakeRow(Lifecycle, h)))
    case RollFc(d) =>
      var r := w.lifecycle;
      Config(w.(lifecycle := RollingBack(r.count, r.next + 1, false)), Apply(n, SendFc(Lifecycle, d)))
    case RollClear => c.(w := w.(p := ZERO, lifecycle := Idle))
  }

  predicate CloserCan(c: Config, st: Step)
    requires c.w.p.Wellformed() && st.ByCloser()
  {
    var w, n := c.w, c.n;
    match st
    case PoolClose => w.lifecycle.Idle? && w.p.initialized
    case CloseJoined => w.lifecycle.Joining? && (w.p.kaActive ==> w.keepalive.Exited?)
    case CloseWait => w.lifecycle == Draining(false) && exists i :: 0 <= i < w.p.size && w.p.entries[i].inUse
    case CloseRouse => w.lifecycle == Draining(true)
    case CloseDrained => w.lifecycle == Draining(false) && forall i :: 0 <= i < w.p.size ==> !w.p.entries[i].inUse
    case CloseTake =>
      w.lifecycle.Closing? && !w.lifecycle.closing && w.lifecycle.next < w.p.size
      && Enabled(n, TakeRow(Lifecycle, w.p.entries[w.lifecycle.next].handle))
    case CloseFc(d) => w.lifecycle.Closing? && w.lifecycle.closing && Enabled(n, SendFc(Lifecycle, d))
    case CloseClear => w.lifecycle.Closing? && !w.lifecycle.closing && w.lifecycle.next == w.p.size
  }

  function CloserDo(c: Config, st: Step): Config
    requires c.w.p.Wellformed() && st.ByCloser() && CloserCan(c, st)
  {
    var w, n := c.w, c.n;
    match st
    case PoolClose => c.(w := Broadcast(w.(p := Flagged(w.p), lifecycle := Joining)))
    case CloseJoined =>
      c.(w := w.(p := w.p.(kaActive := false), keepalive := NoThread, lifecycle := Draining(false)))
    case CloseWait => c.(w := w.(lifecycle := Draining(true)))
    case CloseRouse => c.(w := Roused(w, SleepingCloser))
    case CloseDrained => c.(w := w.(lifecycle := Closing(0, false)))
    case CloseTake =>
      var next := w.lifecycle.next;
      var h := w.p.entries[next].handle;
      if h == 0 then c.(w := w.(lifecycle := Closing(next + 1, false)))
      else Config(w.(lifecycle := if h in n.rows then Closing(next, true) else Closing(next + 1, false)),
                  Apply(n, TakeRow(Lifecycle, h)))
    case CloseFc(d) =>
      Config(w.(lifecycle := Closing(w.lifecycle.next + 1, false)), Apply(n, SendFc(Lifecycle, d)))
    case CloseClear => c.(w := w.(p := ZERO, lifecycle := Idle))
  }

  predicate Can(slot: nat, c: Config, st: Step)
    requires c.w.p.Wellformed()
  {
    if st.ByCaller() then CallerCan(c, st)
    else if st.ByKeepalive() then KeepaliveCan(slot, c, st)
    else if st.ByOpener() then OpenerCan(slot, c, st)
    else CloserCan(c, st)
  }

  function Do(slot: nat, c: Config, st: Step): Config
    requires c.w.p.Wellformed() && Can(slot, c, st)
  {
    if st.ByCaller() then CallerDo(c, st)
    else if st.ByKeepalive() then KeepaliveDo(slot, c, st)
    else if st.ByOpener() then OpenerDo(slot, c, st)
    else CloserDo(c, st)
  }
}
