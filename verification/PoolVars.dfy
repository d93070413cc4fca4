/** The fields of struct bp_pool and what each critical section of c/src/pool.c does to them.
    The class in PoolState.dfy and the step system in PoolMachine.dfy both use these functions. */
module PoolVars {
  import opened Common

  const MAX_SIZE := 16
  const MAX_POOLS := 20
  const HANDLE_BASE := 0x8000
  const FIRST_BACKOFF_MS := 1000
  const MAX_BACKOFF_MS := 30000

  datatype Entry = Entry(
    inUse: bool, handle: nat, lastUsed: int, dead: bool, lastReopen: int, backoffMs: int)
  {
    predicate Free() { !inUse && !dead }
  }

  const BLANK := Entry(false, 0, 0, false, 0, 0)

  datatype Pool = Pool(
    initialized: bool, size: nat, keepaliveMs: nat, entries: seq<Entry>, kaActive: bool, kaStop: bool)
  {
    predicate Wellformed() { |entries| == MAX_SIZE && size <= MAX_SIZE }
  }

  function Blanks(n: nat): (es: seq<Entry>)
    ensures |es| == n && forall i :: 0 <= i < n ==> es[i] == BLANK
  {
    seq(n, i => BLANK)
  }

  /** A pool slot that was never opened, and one that memset just cleared. */
  const ZERO := Pool(false, 0, 0, Blanks(MAX_SIZE), false, false)

  function Handle(slot: nat, index: nat): nat {
    HANDLE_BASE + 0x100 * slot + index
  }

  /** The bit pattern pool_app_handle computes is the sum above, stays a 16-bit value in the
      reserved range, and gives back the slot and the index it was made from. */
  lemma HandleBits(slot: bv16, index: bv16)
    requires slot < 20 && index < 16
    ensures var h := 0x8000 | (slot << 8) | index;
            && h == 0x8000 + 0x100 * slot + index
            && 0x8000 <= h
            && (h >> 8) & 0x7F == slot && h & 0xFF == index
  {
  }

  lemma HandleInjective(slot: nat, index: nat, slot': nat, index': nat)
    requires index < MAX_SIZE && index' < MAX_SIZE && Handle(slot, index) == Handle(slot', index')
    ensures slot == slot' && index == index'
  {
  }

  // ---------------------------------------------------------------- borrowing

  /** Round robin: the step-th entry looked at, wrapping at the size. */
  function Position(start: nat, step: nat, size: nat): (i: nat)
    requires start < size && step < size
    ensures i == if start + step < size then start + step else start + step - size
  {
    (start + step) % size
  }

  /** pool_acquire_locked from a given starting point on. */
  function AcquireFrom(es: seq<Entry>, size: nat, start: nat, step: nat): (r: Option<nat>)
    requires size <= |es| && start < size && step <= size
    ensures r.Some? ==> r.value < size && es[r.value].Free()
    ensures r.None? ==> forall q :: step <= q < size ==> !es[Position(start, q, size)].Free()
    decreases size - step
  {
    if step == size then None
    else if es[Position(start, step, size)].Free() then Some(Position(start, step, size))
    else AcquireFrom(es, size, start, step + 1)
  }

  function Acquire(p: Pool, start: nat): Option<nat>
    requires p.Wellformed() && start < p.size
  {
    AcquireFrom(p.entries, p.size, start, 0)
  }

  /** Wherever the round robin starts, acquiring fails exactly when no entry is free and live. */
  lemma AcquireExact(p: Pool, start: nat)
    requires p.Wellformed() && start < p.size
    ensures Acquire(p, start).None? <==> forall i :: 0 <= i < p.size ==> !p.entries[i].Free()
  {
    if Acquire(p, start).None? {
      forall i | 0 <= i < p.size ensures !p.entries[i].Free() {
        var q := if i >= start then i - start else i - start + p.size;
        assert Position(start, q, p.size) == i;
      }
    }
  }

  function Mark(p: Pool, i: nat): Pool
    requires i < |p.entries|
  {
    p.(entries := p.entries[i := p.entries[i].(inUse := true)])
  }

  function Release(p: Pool, i: nat, now: int): Pool
    requires i < |p.entries|
  {
    p.(entries := p.entries[i := p.entries[i].(inUse := false, lastUsed := now)])
  }

  ghost function Busy(p: Pool): set<nat> {
    set i: nat | i < p.size && i < |p.entries| && p.entries[i].inUse
  }

  // ---------------------------------------------------------------- keepalive and reopen

  predicate PingDue(p: Pool, e: Entry, now: int) {
    e.Free() && (now - e.lastUsed) * 1000 >= p.keepaliveMs
  }

  function AfterPing(e: Entry, ok: bool, now: int): Entry {
    var idle := e.(inUse := false, lastUsed := now);
    if ok then idle
    else idle.(dead := true, lastReopen := now,
               backoffMs := if e.backoffMs == 0 then FIRST_BACKOFF_MS else e.backoffMs)
  }

  function PingDone(p: Pool, i: nat, ok: bool, now: int): Pool
    requires i < |p.entries|
  {
    p.(entries := p.entries[i := AfterPing(p.entries[i], ok, now)])
  }

  predicate ReopenDue(e: Entry, now: int) {
    e.dead && !e.inUse && (now - e.lastReopen) * 1000 >= e.backoffMs
  }

  function ClaimForReopen(e: Entry, now: int): Entry {
    e.(inUse := true, lastReopen := now)
  }

  function ReopenClaim(p: Pool, i: nat, now: int): Pool
    requires i < |p.entries|
  {
    p.(entries := p.entries[i := ClaimForReopen(p.entries[i], now)])
  }

  function AfterReopen(e: Entry, ok: bool, now: int): Entry {
    var next := e.backoffMs * 2;
    if ok then e.(inUse := false, dead := false, lastUsed := now, backoffMs := FIRST_BACKOFF_MS)
    else e.(inUse := false, backoffMs := if next > MAX_BACKOFF_MS then MAX_BACKOFF_MS else next)
  }

  function ReopenDone(p: Pool, i: nat, ok: bool, now: int): Pool
    requires i < |p.entries|
  {
    p.(entries := p.entries[i := AfterReopen(p.entries[i], ok, now)])
  }

  // ---------------------------------------------------------------- open and close

  function Prepared(size: nat, keepaliveMs: nat): Pool {
    ZERO.(size := size, keepaliveMs := keepaliveMs)
  }

  function Record(p: Pool, i: nat, handle: nat, now: int): Pool
    requires i < |p.entries|
  {
    p.(entries := p.entries[i := p.entries[i].(handle := handle, lastUsed := now)])
  }

  /** The keepalive thread runs unless none was asked for or it could not be created. */
  function Ready(p: Pool, threadStarted: bool): Pool {
    var on := p.(initialized := true);
    if p.keepaliveMs == 0 then on
    else if threadStarted then on.(kaActive := true)
    else on.(keepaliveMs := 0)
  }

  function Flagged(p: Pool): Pool {
    p.(initialized := false, kaStop := true)
  }
}
