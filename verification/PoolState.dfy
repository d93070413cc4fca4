/** struct bp_pool updated in place: one method per critical section of c/src/pool.c. */
module PoolState {
  import opened Common
  import opened PoolVars

  datatype Entered = Borrowed(index: nat) | MustWait | NotOpen

  class BpPool {
    var initialized: bool
    var size: nat
    var keepaliveMs: nat
    var kaActive: bool
    var kaStop: bool
    const entries: array<Entry>

    ghost predicate Valid()
      reads this, entries
    {
      entries.Length == MAX_SIZE && size <= MAX_SIZE && (initialized ==> size > 0)
    }

    ghost function View(): (p: Pool)
      reads this, entries
      requires Valid()
      ensures p.Wellformed()
    {
      Pool(initialized, size, keepaliveMs, entries[..], kaActive, kaStop)
    }

    constructor ()
      ensures Valid() && fresh(entries) && View() == ZERO
    {
      initialized, size, keepaliveMs, kaActive, kaStop := false, 0, 0, false, false;
      entries := new Entry[MAX_SIZE](i => BLANK);
    }

    /** pool_acquire_locked; start is the round-robin counter modulo the size. */
    method AcquireLocked(start: nat) returns (got: Option<nat>)
      requires Valid() && start < size
      modifies entries
      ensures Valid()
      ensures got == Acquire(old(View()), start)
      ensures View() == if got.Some? then Mark(old(View()), got.value) else old(View())
      ensures got.None? <==> forall i :: 0 <= i < size ==> !old(entries[i]).Free()
    {
      AcquireExact(View(), start);
      var step := 0;
      while step < size
        invariant step <= size && View() == old(View())
        invariant Acquire(View(), start) == AcquireFrom(entries[..], size, start, step)
      {
        var i := Position(start, step, size);
        if entries[i].Free() {
          entries[i] := entries[i].(inUse := true);
          return Some(i);
        }
        step := step + 1;
      }
      return None;
    }

    /** What bp_client_pool_txrx does each time it holds the lock before it owns an entry:
        on arrival, and again each time its condvar wait ends. */
    method Enter(start: nat) returns (r: Entered)
      requires Valid() && (initialized ==> start < size)
      modifies entries
      ensures Valid()
      ensures r.NotOpen? <==> !old(initialized)
      ensures r.MustWait? <==> old(initialized) && forall i :: 0 <= i < size ==> !old(entries[i]).Free()
      ensures r.Borrowed? ==> Acquire(old(View()), start) == Some(r.index)
      ensures View() == if r.Borrowed? then Mark(old(View()), r.index) else old(View())
    {
      if !initialized {
        return NotOpen;
      }
      var got := AcquireLocked(start);
      r := if got.Some? then Borrowed(got.value) else MustWait;
    }

    method ReturnEntry(i: nat, now: int)
      requires Valid() && i < size
      modifies entries
      ensures Valid() && View() == Release(old(View()), i, now)
    {
      entries[i] := entries[i].(inUse := false);
      entries[i] := entries[i].(lastUsed := now);
    }

    method ClaimForPing(i: nat, now: int) returns (claimed: bool)
      requires Valid() && i < size
      modifies entries
      ensures Valid()
      ensures claimed <==> !old(kaStop) && PingDue(old(View()), old(entries[i]), now)
      ensures View() == if claimed then Mark(old(View()), i) else old(View())
    {
      if kaStop {
        return false;
      }
      var idleMs := (now - entries[i].lastUsed) * 1000;
      if entries[i].inUse || entries[i].dead || idleMs < keepaliveMs {
        return false;
      }
      entries[i] := entries[i].(inUse := true);
      return true;
    }

    method FinishPing(i: nat, ok: bool, now: int)
      requires Valid() && i < size
      modifies entries
      ensures Valid() && View() == PoolVars.PingDone(old(View()), i, ok, now)
    {
      entries[i] := entries[i].(inUse := false);
      entries[i] := entries[i].(lastUsed := now);
      if !ok {
        entries[i] := entries[i].(dead := true);
        entries[i] := entries[i].(lastReopen := now);
        if entries[i].backoffMs == 0 {
          entries[i] := entries[i].(backoffMs := FIRST_BACKOFF_MS);
        }
      }
    }

    method ClaimDead(i: nat, now: int) returns (claimed: bool)
      requires Valid() && i < size
      modifies entries
      ensures Valid()
      ensures claimed <==> !old(kaStop) && ReopenDue(old(entries[i]), now)
      ensures View() == if claimed then ReopenClaim(old(View()), i, now) else old(View())
    {
      if kaStop {
        return false;
      }
      if !entries[i].dead || entries[i].inUse {
        return false;
      }
      var sinceMs := (now - entries[i].lastReopen) * 1000;
      if sinceMs < entries[i].backoffMs {
        return false;
      }
      entries[i] := entries[i].(inUse := true);
      entries[i] := entries[i].(lastReopen := now);
      return true;
    }

    method FinishReopen(i: nat, ok: bool, now: int)
      requires Valid() && i < size
      modifies entries
      ensures Valid() && View() == PoolVars.ReopenDone(old(View()), i, ok, now)
    {
      entries[i] := entries[i].(inUse := false);
      if ok {
        entries[i] := entries[i].(dead := false);
        entries[i] := entries[i].(lastUsed := now);
        entries[i] := entries[i].(backoffMs := FIRST_BACKOFF_MS);
      } else {
        var next := entries[i].backoffMs * 2;
        if next > MAX_BACKOFF_MS {
          next := MAX_BACKOFF_MS;
        }
        entries[i] := entries[i].(backoffMs := next);
      }
    }

    /** Everything bp_client_pool_open does to the fields before the first connection. */
    method Prepare(size: nat, keepaliveMs: nat)
      requires Valid() && !initialized && 1 <= size <= MAX_SIZE
      modifies this, entries
      ensures Valid() && View() == Prepared(size, keepaliveMs)
    {
      this.size := size;
      this.keepaliveMs := keepaliveMs;
      for i := 0 to MAX_SIZE
        invariant forall j :: 0 <= j < i ==> entries[j] == BLANK
        modifies entries
      {
        entries[i] := BLANK;
      }
      kaActive, kaStop := false, false;
      assert entries[..] == ZERO.entries;
    }

    method RecordOpened(i: nat, handle: nat, now: int)
      requires Valid() && i < size
      modifies entries
      ensures Valid() && View() == Record(old(View()), i, handle, now)
    {
      entries[i] := entries[i].(handle := handle);
      entries[i] := entries[i].(lastUsed := now);
    }

    method Publish(threadStarted: bool)
      requires Valid() && size > 0
      modifies this
      ensures Valid() && View() == Ready(old(View()), threadStarted)
    {
      initialized := true;
      if keepaliveMs > 0 {
        if threadStarted {
          kaActive := true;
        } else {
          keepaliveMs := 0;
        }
      }
    }

    method BeginClose()
      requires Valid()
      modifies this
      ensures Valid() && View() == Flagged(old(View()))
    {
      initialized := false;
      kaStop := true;
    }

    /** The scan bp_client_pool_close repeats until nothing is borrowed. */
    method AnyBusy() returns (busy: bool)
      requires Valid()
      ensures busy <==> Busy(View()) != {}
    {
      for i := 0 to size
        invariant forall j :: 0 <= j < i ==> !entries[j].inUse
      {
        if entries[i].inUse {
          assert i in Busy(View());
          return true;
        }
      }
      return false;
    }

    /** memset at the end of close and of a rolled-back open. */
    method Clear()
      requires Valid()
      modifies this, entries
      ensures Valid() && View() == ZERO
    {
      initialized, size, keepaliveMs, kaActive, kaStop := false, 0, 0, false, false;
      forall i | 0 <= i < entries.Length {
        entries[i] := BLANK;
      }
      assert entries[..] == ZERO.entries;
    }
  }
}
