/** bp_client_pool_batch of c/src/pool.c: workers draw item indices from a shared counter. */
module PoolBatch {
  import opened Common

  const OK := 0
  const GENERIC := -1

  datatype WorkerAt = Fetching | Running(i: nat) | Finished

  /** started records which workers ran each item; rc is None until this call writes it. */
  datatype Batch = Batch(
    count: nat, next: nat, workers: seq<WorkerAt>, started: seq<seq<nat>>, rc: seq<Option<int>>)

  datatype Step = Take(w: nat) | Finish(w: nat, rc: int)

  ghost predicate Init(b: Batch) {
    && b.next == 0 && |b.started| == b.count && |b.rc| == b.count
    && (forall w :: 0 <= w < |b.workers| ==> b.workers[w].Fetching?)
    && (forall i :: 0 <= i < b.count ==> b.started[i] == [] && b.rc[i].None?)
  }

  predicate Can(b: Batch, st: Step) {
    match st
    case Take(w) => w < |b.workers| && b.workers[w].Fetching?
    case Finish(w, rc) => w < |b.workers| && b.workers[w].Running? && b.workers[w].i < |b.rc|
  }

  /** Take is the critical section under idx_mu; Finish is the return of pool_txrx. */
  function Do(b: Batch, st: Step): Batch
    requires Can(b, st) && |b.started| == b.count
  {
    match st
    case Take(w) =>
      var i := b.next;
      if i >= b.count then b.(next := i + 1, workers := b.workers[w := Finished])
      else b.(next := i + 1, workers := b.workers[w := Running(i)], started := b.started[i := b.started[i] + [w]])
    case Finish(w, rc) =>
      b.(workers := b.workers[w := Fetching], rc := b.rc[b.workers[w].i := Some(rc)])
  }

  ghost predicate IsRunning(b: Batch, w: nat, i: nat) {
    w < |b.workers| && b.workers[w] == Running(i)
  }

  ghost predicate Inv(b: Batch) {
    && |b.started| == b.count && |b.rc| == b.count
    && (forall i :: 0 <= i < b.count ==>
          && (|b.started[i]| == if i < b.next then 1 else 0)
          && (b.rc[i].Some? <==> i < b.next && forall w: nat :: !IsRunning(b, w, i)))
    && (forall w: nat, i: nat :: IsRunning(b, w, i) ==> i < b.count && i < b.next && b.started[i] == [w])
    && (forall w :: 0 <= w < |b.workers| && b.workers[w].Finished? ==> b.next >= b.count)
  }

  lemma StepKeeps(b: Batch, st: Step)
    requires Inv(b) && Can(b, st)
    ensures Inv(Do(b, st))
  {
    var b' := Do(b, st);
    match st
    case Take(w) =>
      forall v: nat, i: nat ensures IsRunning(b', v, i) <==>
        (if v == w then i == b.next < b.count else IsRunning(b, v, i))
      {
      }
      if b.next < b.count {
        assert IsRunning(b', w, b.next);
      }
    case Finish(w, rc) =>
      assert IsRunning(b, w, b.workers[w].i);
      forall v: nat, i: nat ensures IsRunning(b', v, i) <==> v != w && IsRunning(b, v, i) {
      }
      forall v: nat ensures !IsRunning(b', v, b.workers[w].i) {
      }
  }

  ghost predicate IsRun(run: seq<Batch>, steps: seq<Step>) {
    && |run| == |steps| + 1 && Init(run[0])
    && forall i :: 0 <= i < |steps| ==>
         Can(run[i], steps[i]) && |run[i].started| == run[i].count && run[i + 1] == Do(run[i], steps[i])
  }

  lemma {:induction false} EveryRun(run: seq<Batch>, steps: seq<Step>, i: nat)
    requires IsRun(run, steps) && i < |run|
    ensures Inv(run[i]) && run[i].count == run[0].count && |run[i].workers| == |run[0].workers|
  {
    if i > 0 {
      EveryRun(run, steps, i - 1);
      StepKeeps(run[i - 1], steps[i - 1]);
    }
  }

  /** Items the workers never drew are marked as not run, then the codes are summed up. */
  method Summarise(count: nat, next: nat, rc: array<Option<int>>) returns (overall: int)
    requires rc.Length == count
    modifies rc
    ensures forall i :: 0 <= i < count ==> rc[i] == if i < next then old(rc[i]) else Some(GENERIC)
    ensures overall == OK || overall == GENERIC
    ensures overall == OK <==> forall i :: 0 <= i < count ==> rc[i] == Some(OK)
  {
    var consumed := if next > count then count else next;
    for i := consumed to count
      invariant forall j :: 0 <= j < count ==>
        rc[j] == if consumed <= j < i then Some(GENERIC) else old(rc[j])
    {
      rc[i] := Some(GENERIC);
    }
    for i := 0 to count
      invariant forall j :: 0 <= j < i ==> rc[j] == Some(OK)
    {
      if rc[i] != Some(OK) {
        return GENERIC;
      }
    }
    return OK;
  }

  /** What bp_client_pool_batch leaves in the items once every worker that started was joined. */
  function Final(b: Batch): (rc: seq<Option<int>>)
    requires |b.rc| == b.count
    ensures |rc| == b.count
  {
    seq(b.count, i requires 0 <= i < b.count => if i < b.next then b.rc[i] else Some(GENERIC))
  }

  /** However the workers interleave: if any started, each item ran exactly once, on one worker, and
      keeps that run's code; if none did, each item is marked GENERIC. */
  lemma ExactlyOnce(run: seq<Batch>, steps: seq<Step>, b: Batch)
    requires IsRun(run, steps) && b == run[|run| - 1]
    requires forall w :: 0 <= w < |b.workers| ==> b.workers[w].Finished?
    ensures |b.rc| == b.count && |b.started| == b.count
    ensures |b.workers| > 0 ==> forall i :: 0 <= i < b.count ==>
              |b.started[i]| == 1 && b.started[i][0] < |b.workers| && b.rc[i].Some? && Final(b)[i] == b.rc[i]
    ensures |b.workers| == 0 ==> forall i :: 0 <= i < b.count ==>
              b.started[i] == [] && Final(b)[i] == Some(GENERIC)
  {
    EveryRun(run, steps, |steps|);
    StartedByWorkers(run, steps, |steps|);
    if |b.workers| > 0 {
      assert b.workers[0].Finished?;
    } else {
      assert |steps| > 0 ==> Can(run[0], steps[0]);
    }
  }

  lemma {:induction false} StartedByWorkers(run: seq<Batch>, steps: seq<Step>, k: nat)
    requires IsRun(run, steps) && k < |run|
    ensures |run[k].started| == run[k].count
    ensures forall i, j :: 0 <= i < run[k].count && 0 <= j < |run[k].started[i]| ==>
              run[k].started[i][j] < |run[k].workers|
  {
    EveryRun(run, steps, k);
    if k > 0 {
      StartedByWorkers(run, steps, k - 1);
    }
  }

  /** The end of bp_client_pool_batch, once every worker that started was joined: the codes are those of
      the run, and the call returns OK exactly when each item was run, once, and its code was OK. */
  method Conclude(ghost run: seq<Batch>, ghost steps: seq<Step>, b: Batch, rc: array<Option<int>>)
    returns (overall: int)
    requires IsRun(run, steps) && b == run[|run| - 1] && rc[..] == b.rc
    requires forall w :: 0 <= w < |b.workers| ==> b.workers[w].Finished?
    modifies rc
    ensures |b.rc| == b.count == |b.started| && rc[..] == Final(b)
    ensures overall == OK || overall == GENERIC
    ensures overall == OK <==> forall i :: 0 <= i < b.count ==> |b.started[i]| == 1 && b.rc[i] == Some(OK)
  {
    ExactlyOnce(run, steps, b);
    EveryRun(run, steps, |steps|);
    overall := Summarise(b.count, b.next, rc);
  }
}
