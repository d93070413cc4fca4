/** The shared-memory slot dispatcher of c/src/client.c: any number of threads and processes call
    through 16 slots, each with an owner word, an error word and two semaphores. */
module SlotDispatch {
  import opened Common

  const SLOT_COUNT := 16
  const PENDING: u32 := 0xFFFF_FED3
  const OK := 0
  const ERR_SEND_REQUEST := -200
  const ERR_RECV_ANSWER := -201
  const ERR_PENDING := -301

  /** The words of one slot that clients and server exchange; semaphores are counters. */
  datatype Words = Words(owner: nat, err: u32, req: nat, resp: nat)

  const FREE := Words(0, 0, 0, 0)

  function AsInt32(e: u32): int {
    if e < 0x8000_0000 then e else e - 0x1_0000_0000
  }

  function FirstFree(w: seq<Words>, from: nat): (r: Option<nat>)
    requires from <= |w|
    ensures r.None? <==> forall i :: from <= i < |w| ==> w[i].owner != 0
    ensures r.Some? ==> from <= r.value < |w| && w[r.value].owner == 0
                        && forall i :: from <= i < r.value ==> w[i].owner != 0
    decreases |w| - from
  {
    if from == |w| then None else if w[from].owner == 0 then Some(from) else FirstFree(w, from + 1)
  }

  /** Taking a slot and giving it back both drain both semaphores. */
  function Taken(w: Words, owner: nat): Words {
    Words(owner, w.err, 0, 0)
  }

  // ---------------------------------------------------------------- updated in place

  class SharedSlots {
    const owner: array<nat>
    const err: array<u32>
    const req: array<nat>
    const resp: array<nat>

    ghost predicate Valid()
      reads this, owner, err, req, resp
    {
      && owner.Length == err.Length == req.Length == resp.Length == SLOT_COUNT
      && owner != req && owner != resp && req != resp
    }

    ghost function View(): (v: seq<Words>)
      reads this, owner, err, req, resp
      requires Valid()
      ensures |v| == SLOT_COUNT
      ensures forall i :: 0 <= i < SLOT_COUNT ==> v[i] == Words(owner[i], err[i], req[i], resp[i])
    {
      seq(SLOT_COUNT, i requires 0 <= i < SLOT_COUNT reads this, owner, err, req, resp
                      requires Valid() => Words(owner[i], err[i], req[i], resp[i]))
    }

    constructor ()
      ensures Valid() && fresh(owner) && fresh(err) && fresh(req) && fresh(resp)
      ensures forall i :: 0 <= i < SLOT_COUNT ==> View()[i] == FREE
    {
      owner := new nat[SLOT_COUNT](i => 0);
      err := new u32[SLOT_COUNT](i => 0);
      req := new nat[SLOT_COUNT](i => 0);
      resp := new nat[SLOT_COUNT](i => 0);
    }

    /** sem_drain: take posts until there are none. */
    method Drain(sem: array<nat>, i: nat)
      requires i < sem.Length
      modifies sem
      ensures sem[i] == 0
      ensures forall j :: 0 <= j < sem.Length && j != i ==> sem[j] == old(sem[j])
    {
      while sem[i] > 0
        invariant forall j :: 0 <= j < sem.Length && j != i ==> sem[j] == old(sem[j])
      {
        sem[i] := sem[i] - 1;
      }
    }

    /** reserve_slot, which holds the machine-wide scan lock. */
    method Reserve(word: nat) returns (r: Option<nat>)
      requires Valid() && word != 0
      modifies owner, req, resp
      ensures Valid()
      ensures r == FirstFree(old(View()), 0)
      ensures r.None? <==> forall i :: 0 <= i < SLOT_COUNT ==> old(owner[i]) != 0
      ensures View() == if r.None? then old(View())
                        else old(View())[r.value := Taken(old(View())[r.value], word)]
    {
      for i := 0 to SLOT_COUNT
        invariant View() == old(View())
        invariant FirstFree(View(), 0) == FirstFree(View(), i)
      {
        if owner[i] == 0 {
          owner[i] := word;
          Drain(req, i);
          Drain(resp, i);
          return Some(i);
        }
      }
      return None;
    }

    method Release(i: nat)
      requires Valid() && i < SLOT_COUNT
      modifies owner, req, resp
      ensures Valid() && View() == old(View())[i := Taken(old(View())[i], 0)]
    {
      owner[i] := 0;
      Drain(req, i);
      Drain(resp, i);
    }

    /** The end of bp_client_call: the code it returns, and whether it parses the reply first. */
    method Judge(i: nat) returns (rc: int, parse: bool)
      requires Valid() && i < SLOT_COUNT
      ensures parse <==> View()[i].err == 0
      ensures rc == AsInt32(View()[i].err) && (parse ==> rc == OK)
    {
      rc := AsInt32(err[i]);
      parse := rc == 0;
    }
  }

  // ---------------------------------------------------------------- calls and server

  /** What the server is doing with a slot: working on the request of a call, or about to post. */
  datatype ServerAt = Resting | Working(r: nat) | Posting

  /** request is whose request the payload holds and reply whose answer, if any.  writes and posts are
      history: error words written since the slot was last set pending, posts since it was reserved. */
  datatype Slot = Slot(
    w: Words, request: Option<nat>, reply: Option<nat>, server: ServerAt,
    writes: seq<u32>, posts: nat)

  /** Program points of bp_client_call. */
  datatype CallAt =
    | Reserved
    | Filled
    | Waiting
    | Polling
    | Answered
    | Parsing
    | Releasing(rc: int)

  datatype Call = Call(slot: nat, at: CallAt)

  datatype State = State(slots: seq<Slot>, calls: map<nat, Call>, used: set<nat>)

  datatype Step =
    | Reserve(c: nat, word: nat)
    | Fill(c: nat)
    | Kick(c: nat, ok: bool)
    | Wake(c: nat)
    | TimeOut(c: nat)
    | Poll(c: nat)
    | GiveUp(c: nat)
    | Check(c: nat)
    | Parse(c: nat)
    | Release(c: nat)
    | ServerTake(i: nat)
    | ServerAnswer(i: nat, code: u32)
    | ServerPost(i: nat)
    | StrayWrite(i: nat, code: u32)
    | StrayPost(i: nat)

  const FRESH_SLOT := Slot(FREE, None, None, Resting, [], 0)

  ghost predicate Init(s: State) {
    |s.slots| == SLOT_COUNT && (forall i :: 0 <= i < SLOT_COUNT ==> s.slots[i] == FRESH_SLOT)
    && s.calls == map[] && s.used == {}
  }

  function WordsOf(s: State): (w: seq<Words>)
    ensures |w| == |s.slots| && forall i :: 0 <= i < |w| ==> w[i] == s.slots[i].w
  {
    seq(|s.slots|, i requires 0 <= i < |s.slots| => s.slots[i].w)
  }

  predicate AtPoint(s: State, c: nat, at: CallAt) {
    c in s.calls && s.calls[c].at == at && s.calls[c].slot < |s.slots|
  }

  predicate Can(s: State, st: Step) {
    match st
    case Reserve(c, word) => c !in s.calls && c !in s.used && word != 0
    case Fill(c) => AtPoint(s, c, Reserved)
    case Kick(c, ok) => AtPoint(s, c, Filled)
    case Wake(c) => AtPoint(s, c, Waiting) && s.slots[s.calls[c].slot].w.resp > 0
    case TimeOut(c) => AtPoint(s, c, Waiting)
    case Poll(c) => AtPoint(s, c, Polling) && s.slots[s.calls[c].slot].w.err != PENDING
    case GiveUp(c) => AtPoint(s, c, Polling) && s.slots[s.calls[c].slot].w.err == PENDING
    case Check(c) => AtPoint(s, c, Answered)
    case Parse(c) => AtPoint(s, c, Parsing)
    case Release(c) => c in s.calls && s.calls[c].at.Releasing? && s.calls[c].slot < |s.slots|
    case ServerTake(i) =>
      i < |s.slots| && s.slots[i].w.req > 0 && s.slots[i].server.Resting? && s.slots[i].request.Some?
    case ServerAnswer(i, code) => i < |s.slots| && s.slots[i].server.Working?
    case ServerPost(i) => i < |s.slots| && s.slots[i].server.Posting?
    case StrayWrite(i, code) => i < |s.slots|
    case StrayPost(i) => i < |s.slots|
  }

  function Moved(s: State, c: nat, at: CallAt): State
    requires c in s.calls
  {
    s.(calls := s.calls[c := s.calls[c].(at := at)])
  }

  function WithSlot(s: State, i: nat, x: Slot): State
    requires i < |s.slots|
  {
    s.(slots := s.slots[i := x])
  }

  function Do(s: State, st: Step): State
    requires Can(s, st)
  {
    match st
    case Reserve(c, word) =>
      (match FirstFree(WordsOf(s), 0)
       case None => s.(used := s.used + {c})
       case Some(i) =>
         var x := s.slots[i];
         State(s.slots[i := x.(w := Taken(x.w, word), posts := 0)],
               s.calls[c := Call(i, Reserved)], s.used + {c}))
    case Fill(c) =>
      var i := s.calls[c].slot;
      var x := s.slots[i];
      WithSlot(Moved(s, c, Filled), i, x.(w := x.w.(err := PENDING), request := Some(c), reply := None, writes := []))
    case Kick(c, ok) =>
      var i := s.calls[c].slot;
      var x := s.slots[i];
      if ok then WithSlot(Moved(s, c, Waiting), i, x.(w := x.w.(req := x.w.req + 1)))
      else Moved(s, c, Releasing(ERR_SEND_REQUEST))
    case Wake(c) =>
      var i := s.calls[c].slot;
      var x := s.slots[i];
      WithSlot(Moved(s, c, Answered), i, x.(w := x.w.(resp := x.w.resp - 1)))
    case TimeOut(c) => Moved(s, c, Polling)
    case Poll(c) => Moved(s, c, Answered)
    case GiveUp(c) => Moved(s, c, Releasing(ERR_RECV_ANSWER))
    case Check(c) =>
      var e := s.slots[s.calls[c].slot].w.err;
      Moved(s, c, if AsInt32(e) != 0 then Releasing(AsInt32(e)) else Parsing)
    case Parse(c) => Moved(s, c, Releasing(OK))
    case Release(c) =>
      var i := s.calls[c].slot;
      var x := s.slots[i];
      WithSlot(s.(calls := s.calls - {c}), i, x.(w := Taken(x.w, 0)))
    case ServerTake(i) =>
      var x := s.slots[i];
      WithSlot(s, i, x.(w := x.w.(req := x.w.req - 1), server := Working(x.request.value)))
    case ServerAnswer(i, code) =>
      var x := s.slots[i];
      WithSlot(s, i, x.(w := x.w.(err := code), reply := Some(x.server.r), server := Posting,
                        writes := x.writes + [code]))
    case ServerPost(i) =>
      var x := s.slots[i];
      WithSlot(s, i, x.(w := x.w.(resp := x.w.resp + 1), server := Resting, posts := x.posts + 1))
    case StrayWrite(i, code) =>
      var x := s.slots[i];
      WithSlot(s, i, x.(w := x.w.(err := code), writes := x.writes + [code]))
    case StrayPost(i) =>
      var x := s.slots[i];
      WithSlot(s, i, x.(w := x.w.(resp := x.w.resp + 1), posts := x.posts + 1))
  }

  // ---------------------------------------------------------------- exclusivity and gating

  ghost predicate Holds(s: State, c: nat, i: nat) {
    c in s.calls && s.calls[c].slot == i
  }

  ghost predicate Held(s: State, i: nat) {
    exists c :: Holds(s, c, i)
  }

  /** The call a step belongs to, if it is a step of a call already in flight. */
  function InFlight(s: State, st: Step): Option<nat> {
    match st
    case Reserve(_, _) => None
    case ServerTake(_) => None
    case ServerAnswer(_, _) => None
    case ServerPost(_) => None
    case StrayWrite(_, _) => None
    case StrayPost(_) => None
    case _ => if st.c in s.calls then Some(st.c) else None
  }

  /** The error word is PENDING or the last thing written since this call set it so. */
  predicate ErrFollowsWrites(x: Slot) {
    x.w.err == if x.writes == [] then PENDING else x.writes[|x.writes| - 1]
  }

  ghost predicate CallOk(x: Slot, c: nat, at: CallAt) {
    && (!at.Reserved? ==> x.request == Some(c))
    && (at.Filled? || at.Waiting? || at.Polling? || at.Answered? || at.Parsing? ==> ErrFollowsWrites(x))
    && (at.Parsing? ==> 0 in x.writes)
    && (at.Waiting? || at.Reserved? || at.Filled? ==> x.w.resp <= x.posts)
  }

  ghost predicate HoldersOk(s: State) {
    && |s.slots| == SLOT_COUNT
    && (forall c: nat, i: nat :: Holds(s, c, i) ==> i < SLOT_COUNT && s.slots[i].w.owner != 0 && c in s.used)
    && (forall c: nat, d: nat, i: nat :: Holds(s, c, i) && Holds(s, d, i) ==> c == d)
    && (forall i :: 0 <= i < SLOT_COUNT && s.slots[i].w.owner != 0 ==> Held(s, i))
  }

  ghost predicate CallsOk(s: State) {
    && |s.slots| == SLOT_COUNT
    && (forall c :: c in s.calls && s.calls[c].slot < SLOT_COUNT ==>
          CallOk(s.slots[s.calls[c].slot], c, s.calls[c].at))
    && (forall i :: 0 <= i < SLOT_COUNT && s.slots[i].server.Working? ==> s.slots[i].server.r in s.used)
    && (forall i :: 0 <= i < SLOT_COUNT && s.slots[i].request.Some? ==> s.slots[i].request.value in s.used)
  }

  ghost predicate Inv(s: State) {
    HoldersOk(s) && CallsOk(s)
  }

  lemma ReserveKeepsHolders(s: State, c: nat, word: nat)
    requires HoldersOk(s) && Can(s, Reserve(c, word))
    ensures HoldersOk(Do(s, Reserve(c, word)))
  {
    var s' := Do(s, Reserve(c, word));
    var free := FirstFree(WordsOf(s), 0);
    forall d: nat, i: nat ensures Holds(s', d, i) <==> Holds(s, d, i) || (d == c && free == Some(i)) {
    }
    assert free.Some? ==> Holds(s', c, free.value);
    forall i: nat | Held(s, i) ensures Held(s', i) {
      var d :| Holds(s, d, i);
      assert Holds(s', d, i);
    }
  }

  lemma HoldersKept(s: State, st: Step)
    requires HoldersOk(s) && Can(s, st)
    ensures HoldersOk(Do(s, st))
  {
    if st.Reserve? {
      ReserveKeepsHolders(s, st.c, st.word);
    } else {
      var s' := Do(s, st);
      var mover := InFlight(s, st);
      assert mover.Some? ==> Holds(s, mover.value, s.calls[mover.value].slot);
      forall c: nat, i: nat ensures Holds(s', c, i) <==> Holds(s, c, i) && !(st.Release? && c == st.c) {
      }
      forall i: nat | Held(s, i) && !(st.Release? && s.calls[st.c].slot == i) ensures Held(s', i) {
        var d :| Holds(s, d, i);
        assert Holds(s', d, i);
      }
    }
  }

  lemma CallKept(s: State, st: Step, c: nat)
    requires Inv(s) && Can(s, st) && c in Do(s, st).calls && Do(s, st).calls[c].slot < SLOT_COUNT
    ensures var s' := Do(s, st);
            |s'.slots| == SLOT_COUNT && CallOk(s'.slots[s'.calls[c].slot], c, s'.calls[c].at)
  {
    if c in s.calls {
      assert Holds(s, c, s.calls[c].slot);
      var mover := InFlight(s, st);
      assert mover.Some? ==> Holds(s, mover.value, s.calls[mover.value].slot);
    }
  }

  lemma CallsKept(s: State, st: Step)
    requires Inv(s) && Can(s, st)
    ensures CallsOk(Do(s, st))
  {
    var s' := Do(s, st);
    var mover := InFlight(s, st);
    assert mover.Some? ==> Holds(s, mover.value, s.calls[mover.value].slot);
    forall c | c in s'.calls && s'.calls[c].slot < SLOT_COUNT
      ensures CallOk(s'.slots[s'.calls[c].slot], c, s'.calls[c].at)
    {
      CallKept(s, st, c);
    }
  }

  ghost predicate IsRun(run: seq<State>, steps: seq<Step>) {
    && |run| == |steps| + 1 && Init(run[0])
    && forall i :: 0 <= i < |steps| ==> Can(run[i], steps[i]) && run[i + 1] == Do(run[i], steps[i])
  }

  lemma {:induction false} EveryRun(run: seq<State>, steps: seq<Step>, k: nat)
    requires IsRun(run, steps) && k < |run|
    ensures Inv(run[k])
  {
    if k > 0 {
      EveryRun(run, steps, k - 1);
      HoldersKept(run[k - 1], steps[k - 1]);
      CallsKept(run[k - 1], steps[k - 1]);
    }
  }

  /** In every state of every run, whatever the server does: a slot's owner word is nonzero exactly
      while a call in flight holds it, and no two calls hold one slot.  So no exit path leaks a slot. */
  lemma SlotsExclusive(run: seq<State>, steps: seq<Step>, k: nat, i: nat)
    requires IsRun(run, steps) && k < |run| && i < SLOT_COUNT
    ensures |run[k].slots| == SLOT_COUNT
    ensures run[k].slots[i].w.owner != 0 <==> Held(run[k], i)
    ensures forall c, d :: Holds(run[k], c, i) && Holds(run[k], d, i) ==> c == d
  {
    EveryRun(run, steps, k);
  }

  /** A reserve is refused exactly when all sixteen slots are held by calls in flight. */
  lemma RefusedWhenFull(run: seq<State>, steps: seq<Step>, k: nat)
    requires IsRun(run, steps) && k < |steps| && steps[k].Reserve?
    ensures steps[k].c !in run[k + 1].calls <==> forall i :: 0 <= i < SLOT_COUNT ==> Held(run[k], i)
  {
    EveryRun(run, steps, k);
    var s := run[k];
    forall i | 0 <= i < SLOT_COUNT ensures WordsOf(s)[i].owner != 0 <==> Held(s, i) {
    }
  }

  /** A reply is parsed only if, after this call set the error word to PENDING and while it still held
      the slot, the server wrote a zero there. */
  lemma ParseNeedsServerZero(run: seq<State>, steps: seq<Step>, k: nat)
    requires IsRun(run, steps) && k < |steps| && steps[k].Parse?
    ensures var c := steps[k].c;
            var x := run[k].slots[run[k].calls[c].slot];
            Holds(run[k], c, run[k].calls[c].slot) && x.request == Some(c) && 0 in x.writes
  {
    EveryRun(run, steps, k);
  }

  /** A wake-up the server did not cause by writing, such as one left by a call that timed out, ends in
      -301 and no parse; and no wake-up comes from before the slot was reserved. */
  lemma StrayWakeIsPending(run: seq<State>, steps: seq<Step>, k: nat)
    requires IsRun(run, steps) && k < |steps|
    ensures steps[k].Check? ==>
            var c := steps[k].c;
            var x := run[k].slots[run[k].calls[c].slot];
            x.writes == [] ==> run[k + 1].calls[c].at == Releasing(ERR_PENDING)
    ensures steps[k].Wake? ==> run[k].slots[run[k].calls[steps[k].c].slot].posts > 0
  {
    EveryRun(run, steps, k);
  }
}
