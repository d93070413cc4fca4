/** The Go pool of go/ocxbp/pool.go: entry indices are tokens in a bounded channel. */
module GoPool {
  import opened Common

  /** Program points of PoolTxRx, counting how many dead entries it has already put back; Failing is about to
      return the error that all entries are dead. */
  datatype CallAt =
    | Receiving(attempt: nat)
    | Holding(i: nat, attempt: nat)
    | Messaging(i: nat)
    | PuttingBack(i: nat)
    | Failing

  /** Program points of keepaliveLoop with respect to the channel; NoLoop if none was asked for. */
  datatype LoopAt =
    | NoLoop
    | Looking
    | Misdrawn(got: nat)
    | Pinging(i: nat)
    | Reopening(i: nat)
    | Returning(i: nat)
    | Stopped

  datatype Pool = Pool(
    size: nat, free: seq<nat>, stopped: bool, dead: set<nat>,
    calls: map<nat, CallAt>, loop: LoopAt)

  datatype Step =
    | Call(t: nat)
    | Receive(t: nat)
    | SeeStop(t: nat)
    | Inspect(t: nat)
    | GiveDeadBack(t: nat)
    | ReturnError(t: nat)
    | Reply(t: nat)
    | PutBack(t: nat)
    | Draw(want: nat, forReopen: bool)
    | ReturnMisdrawn
    | PingDone(ok: bool)
    | ReopenDone(ok: bool)
    | ReturnClaimed
    | LoopStops
    | CloseStop

  const MAX_SIZE := 16

  function FreshTokens(size: nat): seq<nat> {
    seq(size, i => i)
  }

  ghost predicate Init(p: Pool) {
    1 <= p.size <= MAX_SIZE
    && (p == Pool(p.size, FreshTokens(p.size), false, {}, map[], Looking)
        || p == Pool(p.size, FreshTokens(p.size), false, {}, map[], NoLoop))
  }

  /** A send is enabled only while the channel has room; a receive only while it is not empty. */
  predicate Can(p: Pool, st: Step) {
    match st
    case Call(t) => t !in p.calls
    case Receive(t) => t in p.calls && p.calls[t].Receiving? && p.free != []
    case SeeStop(t) =>
      t in p.calls && p.stopped && (p.calls[t].Receiving? || p.calls[t].PuttingBack? || p.calls[t].Holding?)
      && (p.calls[t].Holding? ==> p.calls[t].i in p.dead)
    case Inspect(t) => t in p.calls && p.calls[t].Holding? && p.calls[t].i !in p.dead
    case GiveDeadBack(t) =>
      t in p.calls && p.calls[t].Holding? && p.calls[t].i in p.dead && |p.free| < p.size
    case ReturnError(t) => t in p.calls && p.calls[t].Failing?
    case Reply(t) => t in p.calls && p.calls[t].Messaging?
    case PutBack(t) => t in p.calls && p.calls[t].PuttingBack? && |p.free| < p.size
    case Draw(want, forReopen) =>
      p.loop.Looking? && p.free != [] && want < p.size && (want in p.dead <==> forReopen)
    case ReturnMisdrawn => p.loop.Misdrawn? && |p.free| < p.size
    case PingDone(ok) => p.loop.Pinging?
    case ReopenDone(ok) => p.loop.Reopening?
    case ReturnClaimed => p.loop.Returning? && |p.free| < p.size
    case LoopStops => p.stopped && (p.loop.Looking? || p.loop.Misdrawn? || p.loop.Returning?)
    case CloseStop => !p.stopped
  }

  function Do(p: Pool, st: Step): Pool
    requires Can(p, st)
  {
    match st
    case Call(t) => p.(calls := p.calls[t := Receiving(0)])
    case Receive(t) => p.(free := p.free[1..], calls := p.calls[t := Holding(p.free[0], p.calls[t].attempt)])
    case SeeStop(t) => p.(calls := p.calls - {t})
    case Inspect(t) => p.(calls := p.calls[t := Messaging(p.calls[t].i)])
    case GiveDeadBack(t) =>
      var n := p.calls[t].attempt + 1;
      p.(free := p.free + [p.calls[t].i],
         calls := p.calls[t := if n >= p.size then Failing else Receiving(n)])
    case ReturnError(t) => p.(calls := p.calls - {t})
    case Reply(t) => p.(calls := p.calls[t := PuttingBack(p.calls[t].i)])
    case PutBack(t) => p.(free := p.free + [p.calls[t].i], calls := p.calls - {t})
    case Draw(want, forReopen) =>
      var got := p.free[0];
      p.(free := p.free[1..],
         loop := if got != want then Misdrawn(got) else if forReopen then Reopening(got) else Pinging(got))
    case ReturnMisdrawn => p.(free := p.free + [p.loop.got], loop := Looking)
    case PingDone(ok) =>
      p.(dead := if ok then p.dead else p.dead + {p.loop.i}, loop := Returning(p.loop.i))
    case ReopenDone(ok) =>
      p.(dead := if ok then p.dead - {p.loop.i} else p.dead, loop := Returning(p.loop.i))
    case ReturnClaimed => p.(free := p.free + [p.loop.i], loop := Looking)
    case LoopStops => p.(loop := Stopped)
    case CloseStop => p.(stopped := true)
  }

  // ---------------------------------------------------------------- where each token is

  datatype Place = InChannel(k: nat) | WithCall(t: nat) | WithLoop

  ghost predicate At(p: Pool, w: Place, i: nat) {
    match w
    case InChannel(k) => k < |p.free| && p.free[k] == i
    case WithCall(t) => t in p.calls && !p.calls[t].Receiving? && !p.calls[t].Failing? && p.calls[t].i == i
    case WithLoop =>
      (p.loop.Misdrawn? && p.loop.got == i)
      || ((p.loop.Pinging? || p.loop.Reopening? || p.loop.Returning?) && p.loop.i == i)
  }

  ghost predicate Present(p: Pool, i: nat) {
    exists w :: At(p, w, i)
  }

  ghost predicate Inv(p: Pool) {
    && 1 <= p.size <= MAX_SIZE
    && (forall w, i: nat :: At(p, w, i) ==> i < p.size)
    && (forall w, v, i: nat :: At(p, w, i) && At(p, v, i) ==> w == v)
    && (!p.stopped ==> !p.loop.Stopped? && forall i: nat :: i < p.size ==> Present(p, i))
  }

  /** Where the tokens of the next state came from. */
  function Source(p: Pool, st: Step, w: Place): Place
    requires Can(p, st)
  {
    match st
    case Receive(t) => if w == WithCall(t) then InChannel(0) else if w.InChannel? then InChannel(w.k + 1) else w
    case Draw(want, forReopen) =>
      if w.WithLoop? then InChannel(0) else if w.InChannel? then InChannel(w.k + 1) else w
    case GiveDeadBack(t) => if w == InChannel(|p.free|) then WithCall(t) else w
    case PutBack(t) => if w == InChannel(|p.free|) then WithCall(t) else w
    case ReturnMisdrawn => if w == InChannel(|p.free|) then WithLoop else w
    case ReturnClaimed => if w == InChannel(|p.free|) then WithLoop else w
    case _ => w
  }

  lemma TokensMove(p: Pool, st: Step, w: Place, i: nat)
    requires Can(p, st) && At(Do(p, st), w, i)
    ensures At(p, Source(p, st, w), i)
  {
  }

  lemma SourceInjective(p: Pool, st: Step, w: Place, v: Place, i: nat)
    requires Can(p, st) && At(Do(p, st), w, i) && At(Do(p, st), v, i) && Source(p, st, w) == Source(p, st, v)
    ensures w == v
  {
  }

  /** No step loses a token while the pool is open. */
  lemma TokenKept(p: Pool, st: Step, i: nat)
    requires Inv(p) && Can(p, st) && !Do(p, st).stopped && i < p.size
    ensures Present(Do(p, st), i)
  {
    var p' := Do(p, st);
    assert Present(p, i);
    var w :| At(p, w, i);
    match st
    case Receive(t) =>
      assert At(p', if w == InChannel(0) then WithCall(t) else if w.InChannel? then InChannel(w.k - 1) else w, i);
    case Draw(want, forReopen) =>
      assert At(p', if w == InChannel(0) then WithLoop else if w.InChannel? then InChannel(w.k - 1) else w, i);
    case GiveDeadBack(t) => assert At(p', if w == WithCall(t) then InChannel(|p.free|) else w, i);
    case PutBack(t) => assert At(p', if w == WithCall(t) then InChannel(|p.free|) else w, i);
    case ReturnMisdrawn => assert At(p', if w == WithLoop then InChannel(|p.free|) else w, i);
    case ReturnClaimed => assert At(p', if w == WithLoop then InChannel(|p.free|) else w, i);
    case SeeStop(_) =>
    case LoopStops =>
    case CloseStop =>
    case _ => assert At(p', w, i);
  }

  lemma StepKeeps(p: Pool, st: Step)
    requires Inv(p) && Can(p, st)
    ensures Inv(Do(p, st))
  {
    var p' := Do(p, st);
    forall w, i: nat | At(p', w, i) ensures i < p'.size {
      TokensMove(p, st, w, i);
    }
    forall w, v, i: nat | At(p', w, i) && At(p', v, i) ensures w == v {
      TokensMove(p, st, w, i);
      TokensMove(p, st, v, i);
      SourceInjective(p, st, w, v, i);
    }
    if !p'.stopped {
      forall i: nat | i < p'.size ensures Present(p', i) {
        TokenKept(p, st, i);
      }
    }
  }

  ghost predicate IsRun(run: seq<Pool>, steps: seq<Step>) {
    && |run| == |steps| + 1 && Init(run[0])
    && forall i :: 0 <= i < |steps| ==> Can(run[i], steps[i]) && run[i + 1] == Do(run[i], steps[i])
  }

  /** Until stop is closed each index is in exactly one place, the channel, one call or the loop;
      afterwards indices may be dropped but are still never in two places. */
  lemma {:induction false} TokensConserved(run: seq<Pool>, steps: seq<Step>, k: nat)
    requires IsRun(run, steps) && k < |run|
    ensures Inv(run[k])
  {
    if k == 0 {
      forall i: nat | i < run[0].size ensures Present(run[0], i) {
        assert At(run[0], InChannel(i), i);
      }
    } else {
      TokensConserved(run, steps, k - 1);
      StepKeeps(run[k - 1], steps[k - 1]);
    }
  }

  function Below(n: nat): (s: set<nat>)
    ensures forall i: nat :: i in s <==> i < n
    ensures |s| == n
  {
    if n == 0 then {} else Below(n - 1) + {n - 1}
  }

  function Elements(s: seq<nat>): (e: set<nat>)
    ensures forall x :: x in e <==> x in s
    ensures (forall j, k :: 0 <= j < k < |s| ==> s[j] != s[k]) ==> |e| == |s|
  {
    if s == [] then {} else Elements(s[..|s| - 1]) + {s[|s| - 1]}
  }

  /** Distinct indices below size fill the channel only by being all of them. */
  lemma DistinctBelow(s: seq<nat>, bound: nat)
    requires forall k :: 0 <= k < |s| ==> s[k] < bound
    requires forall j, k :: 0 <= j < k < |s| ==> s[j] != s[k]
    ensures |s| <= bound
    ensures |s| == bound ==> forall i: nat :: i < bound ==> i in s
  {
    var all, used := Below(bound), Elements(s);
    assert used <= all;
    assert |all| == |used| + |all - used|;
    if |s| == bound {
      assert all - used == {};
    }
  }

  /** Whoever holds a token finds room to put it back, in every reachable state. */
  lemma PuttingBackNeverBlocks(run: seq<Pool>, steps: seq<Step>, k: nat, w: Place, i: nat)
    requires IsRun(run, steps) && k < |run| && At(run[k], w, i) && !w.InChannel?
    ensures |run[k].free| < run[k].size
  {
    TokensConserved(run, steps, k);
    var p := run[k];
    forall a, b | 0 <= a < b < |p.free| ensures p.free[a] != p.free[b] {
      assert At(p, InChannel(a), p.free[a]) && At(p, InChannel(b), p.free[b]);
    }
    forall a | 0 <= a < |p.free| ensures p.free[a] < p.size {
      assert At(p, InChannel(a), p.free[a]);
    }
    DistinctBelow(p.free, p.size);
    if |p.free| == p.size {
      assert i < p.size && i in p.free;
      var a :| 0 <= a < |p.free| && p.free[a] == i;
      assert At(p, InChannel(a), i);
    }
  }

  /** A reopen never overlaps a message on the same connection. */
  lemma ReopenIsAlone(run: seq<Pool>, steps: seq<Step>, k: nat, t: nat)
    requires IsRun(run, steps) && k < |run| && run[k].loop.Reopening?
    requires t in run[k].calls && run[k].calls[t].Messaging?
    ensures run[k].calls[t].i != run[k].loop.i
  {
    TokensConserved(run, steps, k);
    if run[k].calls[t].i == run[k].loop.i {
      assert At(run[k], WithLoop, run[k].loop.i) && At(run[k], WithCall(t), run[k].loop.i);
    }
  }

  // ---------------------------------------------------------------- the "all entries are dead" error

  /** A call that starts receiving with nobody else moving: it looks at up to size tokens in turn. */
  function Scan(free: seq<nat>, dead: set<nat>, size: nat, attempt: nat): Option<nat>
    requires free != [] && attempt < size
    decreases size - attempt
  {
    if free[0] !in dead then Some(free[0])
    else if attempt + 1 >= size then None
    else Scan(free[1..] + [free[0]], dead, size, attempt + 1)
  }

  ghost predicate Leads(p: Pool, steps: seq<Step>, q: Pool)
    decreases |steps|
  {
    if steps == [] then p == q else Can(p, steps[0]) && Leads(Do(p, steps[0]), steps[1..], q)
  }

  /** Scan is what the call's own steps do. */
  lemma {:induction false} ScanIsTheCall(p: Pool, t: nat) returns (steps: seq<Step>, q: Pool)
    requires t in p.calls && p.calls[t].Receiving? && p.calls[t].attempt < p.size
    requires p.free != [] && |p.free| <= p.size
    ensures Leads(p, steps, q) && forall k :: 0 <= k < |steps| ==> steps[k] in {Receive(t), GiveDeadBack(t)}
    ensures match Scan(p.free, p.dead, p.size, p.calls[t].attempt)
            case Some(i) => t in q.calls && q.calls[t].Holding? && q.calls[t].i == i && i !in q.dead
            case None => t in q.calls && q.calls[t].Failing? && steps != [] && steps[|steps| - 1] == GiveDeadBack(t)
    ensures q.dead == p.dead && q.size == p.size && q.calls - {t} == p.calls - {t}
    decreases p.size - p.calls[t].attempt
  {
    var p1 := Do(p, Receive(t));
    if p.free[0] !in p.dead {
      steps, q := [Receive(t)], p1;
    } else {
      var p2 := Do(p1, GiveDeadBack(t));
      if p.calls[t].attempt + 1 >= p.size {
        steps, q := [Receive(t), GiveDeadBack(t)], p2;
        assert steps[1..] == [GiveDeadBack(t)];
      } else {
        var rest;
        rest, q := ScanIsTheCall(p2, t);
        steps := [Receive(t), GiveDeadBack(t)] + rest;
        assert steps[1..] == [GiveDeadBack(t)] + rest;
        assert steps[1..][1..] == rest;
      }
    }
  }

  /** It fails exactly when every token it can reach is dead, and otherwise takes the first live one. */
  lemma {:induction false} ScanExact(free: seq<nat>, dead: set<nat>, size: nat, attempt: nat)
    requires free != [] && |free| <= size && attempt < size
    requires forall k :: |free| - attempt <= k < |free| && 0 <= k ==> free[k] in dead
    ensures Scan(free, dead, size, attempt).None? <==> forall k :: 0 <= k < |free| ==> free[k] in dead
    ensures Scan(free, dead, size, attempt).Some? ==>
              exists k :: 0 <= k < |free| && Scan(free, dead, size, attempt) == Some(free[k])
                          && free[k] !in dead && forall j :: 0 <= j < k ==> free[j] in dead
    decreases size - attempt
  {
    if free[0] in dead && attempt + 1 < size {
      var next := free[1..] + [free[0]];
      ScanExact(next, dead, size, attempt + 1);
      forall k | 0 <= k < |free| ensures free[k] == if k == 0 then next[|free| - 1] else next[k - 1] {
      }
      if Scan(next, dead, size, attempt + 1).Some? {
        var k :| 0 <= k < |next| && Scan(next, dead, size, attempt + 1) == Some(next[k])
                 && next[k] !in dead && forall j :: 0 <= j < k ==> next[j] in dead;
        assert k < |next| - 1;
        assert free[k + 1] == next[k];
      }
    }
  }

  /** The error says every entry is dead.  For a call that runs undisturbed that is true exactly when
      no live entry is borrowed at that moment. */
  lemma UndisturbedErrorExact(p: Pool)
    requires Inv(p) && !p.stopped && p.free != [] && Scan(p.free, p.dead, p.size, 0).None? && |p.free| <= p.size
    ensures (forall i: nat :: i < p.size ==> i in p.dead) <==>
            (forall w, i: nat :: At(p, w, i) && !w.InChannel? ==> i in p.dead)
  {
    ScanExact(p.free, p.dead, p.size, 0);
    if forall w, i: nat :: At(p, w, i) && !w.InChannel? ==> i in p.dead {
      forall i: nat | i < p.size ensures i in p.dead {
        assert Present(p, i);
        var w :| At(p, w, i);
      }
    }
  }

  /** A call puts back the last dead token it will look at, and so decides for the error. */
  predicate DecidesError(p: Pool, st: Step) {
    st.GiveDeadBack? && Can(p, st) && Do(p, st).calls[st.t].Failing?
  }

  predicate ReturnsError(p: Pool, st: Step) {
    st.ReturnError? && Can(p, st)
  }

  ghost predicate AllDead(p: Pool) {
    forall i: nat :: i < p.size ==> i in p.dead
  }

  /** A run of a pool of n entries, with or without keepalive loop. */
  ghost predicate RunOf(n: nat, keepalive: bool, run: seq<Pool>, steps: seq<Step>) {
    IsRun(run, steps) && run[0].size == n && run[0].loop.NoLoop? != keepalive
  }

  /** In every such run, each time a call decides for the error, all entries are dead. */
  ghost predicate TrueWhenDecided(n: nat, keepalive: bool) {
    forall run: seq<Pool>, steps: seq<Step>, k: nat ::
      RunOf(n, keepalive, run, steps) && k < |steps| && DecidesError(run[k], steps[k]) ==> AllDead(run[k])
  }

  /** In every such run, each time a call returns the error, all entries are dead. */
  ghost predicate TrueWhenReturned(n: nat, keepalive: bool) {
    forall run: seq<Pool>, steps: seq<Step>, k: nat ::
      RunOf(n, keepalive, run, steps) && k < |steps| && ReturnsError(run[k], steps[k]) ==> AllDead(run[k])
  }

  lemma Then(p: Pool, st: Step, q: Pool, rest: seq<Step>, r: Pool)
    requires Can(p, st) && Do(p, st) == q && Leads(q, rest, r)
    ensures Leads(p, [st] + rest, r)
  {
    assert ([st] + rest)[1..] == rest;
  }

  /** A pool of n entries: entry 0 failed its ping and is at the back of the channel, and calls 1 to j
      each have the live entry of their own number. */
  function Lent(n: nat, j: nat): Pool
    requires j < n
  {
    Pool(n, seq(n - j, k => if k < n - 1 - j then j + 1 + k else 0), false, {0},
         map t: nat | 1 <= t <= j :: Messaging(t), Looking)
  }

  lemma EntryDies(n: nat)
    requires n > 0
    ensures Leads(Pool(n, FreshTokens(n), false, {}, map[], Looking),
                  [Draw(0, false), PingDone(false), ReturnClaimed], Lent(n, 0))
  {
    var drawn := Pool(n, FreshTokens(n)[1..], false, {}, map[], Pinging(0));
    var pinged := Pool(n, FreshTokens(n)[1..], false, {0}, map[], Returning(0));
    var r := Lent(n, 0);
    assert pinged.free + [0] == r.free;
    assert r.calls == map[];
    Then(pinged, ReturnClaimed, r, [], r);
    Then(drawn, PingDone(false), pinged, [ReturnClaimed], r);
    Then(Pool(n, FreshTokens(n), false, {}, map[], Looking), Draw(0, false), drawn,
         [PingDone(false), ReturnClaimed], r);
    assert [Draw(0, false)] + [PingDone(false), ReturnClaimed] == [Draw(0, false), PingDone(false), ReturnClaimed];
    assert [PingDone(false)] + [ReturnClaimed] == [PingDone(false), ReturnClaimed];
  }

  lemma OneBorrows(n: nat, j: nat)
    requires j + 1 < n
    ensures Leads(Lent(n, j), [Call(j + 1), Receive(j + 1), Inspect(j + 1)], Lent(n, j + 1))
  {
    var t, p, r := j + 1, Lent(n, j), Lent(n, j + 1);
    var called := p.(calls := p.calls[t := Receiving(0)]);
    var held := p.(free := p.free[1..], calls := p.calls[t := Holding(t, 0)]);
    assert p.free[0] == t && p.free[1..] == r.free;
    assert p.calls[t := Messaging(t)] == r.calls;
    Then(held, Inspect(t), r, [], r);
    Then(called, Receive(t), held, [Inspect(t)], r);
    Then(p, Call(t), called, [Receive(t), Inspect(t)], r);
    assert [Call(t)] + [Receive(t), Inspect(t)] == [Call(t), Receive(t), Inspect(t)];
    assert [Receive(t)] + [Inspect(t)] == [Receive(t), Inspect(t)];
  }

  lemma {:induction false} AllBorrow(n: nat, j: nat) returns (steps: seq<Step>)
    requires j < n
    ensures Leads(Lent(n, j), steps, Lent(n, n - 1))
    decreases n - j
  {
    if j == n - 1 {
      steps := [];
    } else {
      OneBorrows(n, j);
      var rest := AllBorrow(n, j + 1);
      steps := [Call(j + 1), Receive(j + 1), Inspect(j + 1)] + rest;
      LeadsOn(Lent(n, j), [Call(j + 1), Receive(j + 1), Inspect(j + 1)], Lent(n, j + 1), rest, Lent(n, n - 1));
    }
  }

  /** With two entries or more it can be false: one entry is dead, all others are in the middle of a
      message, and one more caller sees the dead entry again and again and reports that all are dead. */
  lemma AllDeadErrorCanBeWrong(n: nat) returns (p: Pool, steps: seq<Step>, q: Pool)
    requires 2 <= n <= MAX_SIZE
    ensures Init(p) && p.size == n && p.loop.Looking? && Leads(p, steps, q)
    ensures |steps| > 1 && steps[|steps| - 2..] == [GiveDeadBack(n), ReturnError(n)]
    ensures q.dead == {0} && forall i: nat :: 1 <= i < n ==> i in q.calls && q.calls[i] == Messaging(i)
  {
    p := Pool(n, FreshTokens(n), false, {}, map[], Looking);
    EntryDies(n);
    var lend := AllBorrow(n, 0);
    var lent := Lent(n, n - 1);
    var search, failing;
    search, failing := SearchFails(n);
    var first := [Draw(0, false), PingDone(false), ReturnClaimed];
    LeadsOn(p, first, Lent(n, 0), lend, lent);
    LeadsOn(p, first + lend, lent, search, failing);
    q := Do(failing, ReturnError(n));
    Then(failing, ReturnError(n), q, [], q);
    LeadsOn(p, first + lend + search, failing, [ReturnError(n)] + [], q);
    steps := first + lend + search + ([ReturnError(n)] + []);
  }

  lemma SearchFails(n: nat) returns (search: seq<Step>, q: Pool)
    requires 2 <= n <= MAX_SIZE
    ensures Leads(Lent(n, n - 1), search, q) && search != [] && search[|search| - 1] == GiveDeadBack(n)
    ensures n in q.calls && q.calls[n].Failing? && q.dead == {0}
    ensures forall i: nat :: 1 <= i < n ==> i in q.calls && q.calls[i] == Messaging(i)
  {
    var lent := Lent(n, n - 1);
    var mid := lent.(calls := lent.calls[n := Receiving(0)]);
    assert lent.free == [0];
    ScanExact(lent.free, lent.dead, n, 0);
    var rest;
    rest, q := ScanIsTheCall(mid, n);
    Then(lent, Call(n), mid, rest, q);
    search := [Call(n)] + rest;
    forall i: nat | 1 <= i < n ensures i in q.calls && q.calls[i] == Messaging(i) {
      assert i in q.calls - {n} <==> i in mid.calls - {n};
    }
  }

  lemma {:induction false} LeadsOn(p: Pool, s: seq<Step>, q: Pool, s': seq<Step>, r: Pool)
    requires Leads(p, s, q) && Leads(q, s', r)
    ensures Leads(p, s + s', r)
    decreases |s|
  {
    if s == [] {
      assert s + s' == s';
    } else {
      LeadsOn(Do(p, s[0]), s[1..], q, s', r);
      assert (s + s')[1..] == s[1..] + s';
    }
  }

  /** The states a sequence of steps goes through. */
  ghost predicate Chain(run: seq<Pool>, steps: seq<Step>) {
    |run| == |steps| + 1
    && forall i :: 0 <= i < |steps| ==> Can(run[i], steps[i]) && run[i + 1] == Do(run[i], steps[i])
  }

  lemma {:induction false} LeadsIsChain(p: Pool, steps: seq<Step>, q: Pool) returns (run: seq<Pool>)
    requires Leads(p, steps, q)
    ensures Chain(run, steps) && run[0] == p && run[|steps|] == q
    decreases |steps|
  {
    if steps == [] {
      run := [p];
    } else {
      var rest := LeadsIsChain(Do(p, steps[0]), steps[1..], q);
      run := [p] + rest;
      forall i | 0 <= i < |steps| ensures Can(run[i], steps[i]) && run[i + 1] == Do(run[i], steps[i]) {
        if i > 0 {
          assert steps[1..][i - 1] == steps[i] && rest[i - 1] == run[i] && rest[i] == run[i + 1];
        }
      }
    }
  }

  lemma ErrorKeepsDead(p: Pool, st: Step)
    requires Can(p, st) && (st.GiveDeadBack? || st.ReturnError?)
    ensures Do(p, st).dead == p.dead && Do(p, st).size == p.size
  {
  }

  lemma Refuted(n: nat, run: seq<Pool>, steps: seq<Step>, k: nat)
    requires RunOf(n, true, run, steps) && k < |steps| && !AllDead(run[k])
    ensures DecidesError(run[k], steps[k]) ==> !TrueWhenDecided(n, true)
    ensures ReturnsError(run[k], steps[k]) ==> !TrueWhenReturned(n, true)
  {
  }

  lemma WrongInSomeRun(n: nat)
    requires 2 <= n <= MAX_SIZE
    ensures !TrueWhenDecided(n, true) && !TrueWhenReturned(n, true)
  {
    var p, steps, q := AllDeadErrorCanBeWrong(n);
    var run := LeadsIsChain(p, steps, q);
    var k := |steps| - 2;
    assert steps[k] == steps[k..][0] && steps[k + 1] == steps[k..][1];
    OpenedShapeKept(run, steps, k);
    ErrorKeepsDead(run[k], steps[k]);
    ErrorKeepsDead(run[k + 1], steps[k + 1]);
    assert run[k + 2] == q && 1 !in run[k].dead && 1 !in run[k + 1].dead;
    Refuted(n, run, steps, k);
    Refuted(n, run, steps, k + 1);
  }

  const ALONE := Pool(1, [0], false, {}, map[], Looking)
  const ALONE_DEAD := Pool(1, [0], false, {0}, map[], Looking)
  const ALONE_FAILING := Pool(1, [0], false, {0}, map[1 := Failing], Looking)

  lemma OnlyEntryDies() returns (steps: seq<Step>)
    ensures Leads(ALONE, steps, ALONE_DEAD) && steps == [Draw(0, false), PingDone(false), ReturnClaimed]
  {
    var pinging, back := Pool(1, [], false, {}, map[], Pinging(0)), Pool(1, [], false, {0}, map[], Returning(0));
    Then(back, ReturnClaimed, ALONE_DEAD, [], ALONE_DEAD);
    Then(pinging, PingDone(false), back, [ReturnClaimed] + [], ALONE_DEAD);
    Then(ALONE, Draw(0, false), pinging, [PingDone(false)] + ([ReturnClaimed] + []), ALONE_DEAD);
    steps := [Draw(0, false)] + ([PingDone(false)] + ([ReturnClaimed] + []));
  }

  lemma OnlyCallFails() returns (steps: seq<Step>)
    ensures Leads(ALONE_DEAD, steps, ALONE_FAILING) && steps == [Call(1), Receive(1), GiveDeadBack(1)]
  {
    var called := Pool(1, [0], false, {0}, map[1 := Receiving(0)], Looking);
    var held := Pool(1, [], false, {0}, map[1 := Holding(0, 0)], Looking);
    Then(held, GiveDeadBack(1), ALONE_FAILING, [], ALONE_FAILING);
    Then(called, Receive(1), held, [GiveDeadBack(1)] + [], ALONE_FAILING);
    Then(ALONE_DEAD, Call(1), called, [Receive(1)] + ([GiveDeadBack(1)] + []), ALONE_FAILING);
    steps := [Call(1)] + ([Receive(1)] + ([GiveDeadBack(1)] + []));
  }

  /** Even with one entry the error may be out of date when it is returned: the loop reopens the entry
      between the decision and the return. */
  lemma OneEntryRevives() returns (steps: seq<Step>, q: Pool)
    ensures Init(ALONE) && Leads(ALONE, steps, q) && q.dead == {}
    ensures steps == [Draw(0, false), PingDone(false), ReturnClaimed, Call(1), Receive(1), GiveDeadBack(1),
                      Draw(0, true), ReopenDone(true), ReturnError(1)]
  {
    assert FreshTokens(1) == [0];
    var first := OnlyEntryDies();
    var second := OnlyCallFails();
    var opening := Pool(1, [], false, {0}, map[1 := Failing], Reopening(0));
    var revived := Pool(1, [], false, {}, map[1 := Failing], Returning(0));
    q := Pool(1, [], false, {}, map[], Returning(0));
    Then(revived, ReturnError(1), q, [], q);
    Then(opening, ReopenDone(true), revived, [ReturnError(1)] + [], q);
    Then(ALONE_FAILING, Draw(0, true), opening, [ReopenDone(true)] + ([ReturnError(1)] + []), q);
    LeadsOn(ALONE, first, ALONE_DEAD, second, ALONE_FAILING);
    LeadsOn(ALONE, first + second, ALONE_FAILING, [Draw(0, true)] + ([ReopenDone(true)] + ([ReturnError(1)] + [])), q);
    steps := first + second + ([Draw(0, true)] + ([ReopenDone(true)] + ([ReturnError(1)] + [])));
  }

  lemma OutOfDateInSomeRun()
    ensures !TrueWhenReturned(1, true)
  {
    var steps, q := OneEntryRevives();
    var run := LeadsIsChain(ALONE, steps, q);
    assert steps[8] == ReturnError(1) && run[8 + 1] == q;
    OpenedShapeKept(run, steps, 8);
    ErrorKeepsDead(run[8], steps[8]);
    assert 0 !in run[8].dead;
    Refuted(1, run, steps, 8);
  }

  /** When it is decided, the error can be relied on exactly in a pool opened with one entry or without
      keepalive; when it is returned, only in one without keepalive, which never has a dead entry. */
  lemma AllDeadErrorExact(n: nat, keepalive: bool)
    requires 1 <= n <= MAX_SIZE
    ensures TrueWhenDecided(n, keepalive) <==> n == 1 || !keepalive
    ensures TrueWhenReturned(n, keepalive) <==> !keepalive
  {
    if n == 1 || !keepalive {
      forall run: seq<Pool>, steps: seq<Step>, k: nat |
        RunOf(n, keepalive, run, steps) && k < |steps| && DecidesError(run[k], steps[k])
        ensures AllDead(run[k])
      {
        TokensConserved(run, steps, k);
        OpenedShapeKept(run, steps, k);
        assert At(run[k], WithCall(steps[k].t), run[k].calls[steps[k].t].i);
      }
    } else {
      WrongInSomeRun(n);
    }
    if !keepalive {
      forall run: seq<Pool>, steps: seq<Step>, k: nat | RunOf(n, keepalive, run, steps) && k < |steps|
        ensures !ReturnsError(run[k], steps[k])
      {
        OpenedShapeKept(run, steps, k);
      }
    } else if n == 1 {
      OutOfDateInSomeRun();
    } else {
      WrongInSomeRun(n);
    }
  }

  /** What a run keeps of how the pool was opened: its size, and, without a keepalive loop, that no entry is
      dead and no call fails for it. */
  lemma {:induction false} OpenedShapeKept(run: seq<Pool>, steps: seq<Step>, k: nat)
    requires IsRun(run, steps) && k < |run|
    ensures run[k].size == run[0].size
    ensures run[0].loop.NoLoop? ==>
              run[k].loop.NoLoop? && run[k].dead == {} && forall t :: t in run[k].calls ==> !run[k].calls[t].Failing?
  {
    if k > 0 {
      OpenedShapeKept(run, steps, k - 1);
    }
  }
}
