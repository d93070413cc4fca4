/** Whose reply a call parses: what the dispatcher of c/src/client.c leaves to luck. */
module SlotReplies {
  import opened Common
  import opened SlotDispatch

  predicate ByServerRules(st: Step) {
    !st.StrayWrite? && !st.StrayPost?
  }

  /** A call on a slot the server was finished with can only see the answer to its own request. */
  ghost predicate Correlated(x: Slot, c: nat, at: CallAt) {
    && (at.Reserved? ==> x.w.req == 0 && !x.server.Working?)
    && (at.Filled? ==> x.w.req == 0 && !x.server.Working? && x.writes == [] && x.reply == None)
    && (!at.Reserved? && !at.Filled? ==>
          && (x.server.Working? ==> x.server.r == c)
          && (x.writes != [] ==> x.reply == Some(c)))
  }

  ghost predicate OwnReply(s: State, c: nat) {
    c in s.calls && s.calls[c].slot < |s.slots| ==>
      Correlated(s.slots[s.calls[c].slot], c, s.calls[c].at)
  }

  lemma CorrelationKept(s: State, st: Step, c: nat)
    requires Inv(s) && Can(s, st) && ByServerRules(st) && c in s.used && OwnReply(s, c)
    ensures OwnReply(Do(s, st), c)
  {
    var s' := Do(s, st);
    if c in s'.calls && s'.calls[c].slot < |s'.slots| {
      assert c in s.calls && Holds(s, c, s.calls[c].slot);
      assert CallOk(s.slots[s.calls[c].slot], c, s.calls[c].at);
      var mover := InFlight(s, st);
      assert mover.Some? ==> Holds(s, mover.value, s.calls[mover.value].slot);
    }
  }

  ghost predicate Leads(s: State, steps: seq<Step>, q: State)
    decreases |steps|
  {
    if steps == [] then s == q
    else Can(s, steps[0]) && ByServerRules(steps[0]) && Leads(Do(s, steps[0]), steps[1..], q)
  }

  lemma {:induction false} CorrelationHolds(s: State, steps: seq<Step>, q: State, c: nat)
    requires Inv(s) && Leads(s, steps, q) && c in s.used && OwnReply(s, c)
    ensures Inv(q) && OwnReply(q, c)
    decreases |steps|
  {
    if steps != [] {
      HoldersKept(s, steps[0]);
      CallsKept(s, steps[0]);
      CorrelationKept(s, steps[0], c);
      CorrelationHolds(Do(s, steps[0]), steps[1..], q, c);
    }
  }

  ghost predicate AlwaysOwnReply(s: State, c: nat) {
    forall steps, q :: Leads(s, steps, q) && AtPoint(q, c, Parsing) ==> q.slots[q.calls[c].slot].reply == Some(c)
  }

  lemma Then(s: State, st: Step, rest: seq<Step>, q: State)
    requires Can(s, st) && ByServerRules(st) && Leads(Do(s, st), rest, q)
    ensures Leads(s, [st] + rest, q)
  {
    assert ([st] + rest)[1..] == rest;
  }

  ghost predicate Does(s: State, st: Step, q: State) {
    && ByServerRules(st) && Can(s, st)
    && Do(s, st).slots == q.slots && Do(s, st).calls == q.calls && Do(s, st).used == q.used
  }

  lemma AfterThat(s: State, steps: seq<Step>, m: State, st: Step, q: State)
    requires Leads(s, steps, m) && Does(m, st, q)
    ensures Leads(s, steps + [st], q)
  {
    Then(m, st, [], q);
    LeadsOn(s, steps, m, [st], q);
  }

  /** The server answers what it is working on, and the waiting call parses that. */
  lemma AnswerArrives(s: State, c: nat) returns (steps: seq<Step>, q: State)
    requires AtPoint(s, c, Waiting) && s.slots[s.calls[c].slot].server.Working?
    ensures Leads(s, steps, q) && AtPoint(q, c, Parsing)
    ensures q.slots[q.calls[c].slot].reply == Some(s.slots[s.calls[c].slot].server.r)
  {
    var i := s.calls[c].slot;
    var s1 := Do(s, ServerAnswer(i, 0));
    var s2 := Do(s1, ServerPost(i));
    var s3 := Do(s2, Wake(c));
    q := Do(s3, Check(c));
    Then(s3, Check(c), [], q);
    Then(s2, Wake(c), [Check(c)] + [], q);
    Then(s1, ServerPost(i), [Wake(c)] + ([Check(c)] + []), q);
    steps := [ServerPost(i)] + ([Wake(c)] + ([Check(c)] + []));
    Then(s, ServerAnswer(i, 0), steps, q);
    steps := [ServerAnswer(i, 0)] + steps;
  }

  /** The server finishes an earlier request after the new call has filled the slot. */
  lemma LateAnswer(s: State, c: nat) returns (steps: seq<Step>, q: State)
    requires AtPoint(s, c, Reserved) && s.slots[s.calls[c].slot].server.Working?
    ensures steps != [] && Leads(s, steps, q) && AtPoint(q, c, Parsing)
    ensures q.slots[q.calls[c].slot].reply == Some(s.slots[s.calls[c].slot].server.r)
  {
    var s1 := Do(s, Fill(c));
    var s2 := Do(s1, Kick(c, true));
    steps, q := AnswerArrives(s2, c);
    Then(s1, Kick(c, true), steps, q);
    steps := [Kick(c, true)] + steps;
    Then(s, Fill(c), steps, q);
    steps := [Fill(c)] + steps;
  }

  /** With a server that answers each request it takes once: a call is certain to parse the reply to its
      own request exactly when, at its reserve, the server had finished every earlier request taken from
      that slot.  A request that timed out and is still being worked on breaks it. */
  lemma ReplyIsOwnExactly(run: seq<State>, steps: seq<Step>, k: nat)
    requires IsRun(run, steps) && k < |steps| && steps[k].Reserve? && steps[k].c in run[k + 1].calls
    ensures |run[k].slots| == |run[k + 1].slots| == SLOT_COUNT && run[k + 1].calls[steps[k].c].slot < SLOT_COUNT
    ensures AlwaysOwnReply(run[k + 1], steps[k].c) <==>
            !run[k].slots[run[k + 1].calls[steps[k].c].slot].server.Working?
  {
    EveryRun(run, steps, k);
    EveryRun(run, steps, k + 1);
    var c, s, s' := steps[k].c, run[k], run[k + 1];
    var i := s'.calls[c].slot;
    assert Holds(s', c, i);
    if s.slots[i].server.Working? {
      var late, q := LateAnswer(s', c);
      assert s.slots[i].server.r in s.used;
      assert !AlwaysOwnReply(s', c);
    } else {
      assert OwnReply(s', c);
      forall more, q | Leads(s', more, q) && AtPoint(q, c, Parsing)
        ensures q.slots[q.calls[c].slot].reply == Some(c)
      {
        CorrelationHolds(s', more, q, c);
        assert CallOk(q.slots[q.calls[c].slot], c, q.calls[c].at);
      }
    }
  }

  // ---------------------------------------------------------------- a run that goes wrong

  /** Slot 0 is x, all others were never used. */
  function Only(x: Slot, calls: map<nat, Call>, used: set<nat>): State {
    State(seq(SLOT_COUNT, i => if i == 0 then x else FRESH_SLOT), calls, used)
  }

  function Taken0(w: Words, request: Option<nat>, server: ServerAt): Slot {
    Slot(w, request, None, server, [], 0)
  }

  const ASKED := Words(7, PENDING, 0, 0)

  const TAKEN_AT := Taken0(ASKED, Some(1), Working(1))

  lemma CallTakesSlot()
    ensures Does(Only(FRESH_SLOT, map[], {}), Reserve(1, 7),
                 Only(Taken0(Words(7, 0, 0, 0), None, Resting), map[1 := Call(0, Reserved)], {1}))
    ensures Does(Only(Taken0(Words(7, 0, 0, 0), None, Resting), map[1 := Call(0, Reserved)], {1}), Fill(1),
                 Only(Taken0(ASKED, Some(1), Resting), map[1 := Call(0, Filled)], {1}))
  {
    assert WordsOf(Only(FRESH_SLOT, map[], {}))[0].owner == 0;
  }

  lemma ServerTakesRequest()
    ensures Does(Only(Taken0(ASKED, Some(1), Resting), map[1 := Call(0, Filled)], {1}), Kick(1, true),
                 Only(Taken0(ASKED.(req := 1), Some(1), Resting), map[1 := Call(0, Waiting)], {1}))
    ensures Does(Only(Taken0(ASKED.(req := 1), Some(1), Resting), map[1 := Call(0, Waiting)], {1}),
                 ServerTake(0), Only(TAKEN_AT, map[1 := Call(0, Waiting)], {1}))
  {
  }

  lemma CallTimesOut()
    ensures Does(Only(TAKEN_AT, map[1 := Call(0, Waiting)], {1}), TimeOut(1),
                 Only(TAKEN_AT, map[1 := Call(0, Polling)], {1}))
    ensures Does(Only(TAKEN_AT, map[1 := Call(0, Polling)], {1}), GiveUp(1),
                 Only(TAKEN_AT, map[1 := Call(0, Releasing(ERR_RECV_ANSWER))], {1}))
  {
  }

  lemma SlotChangesHands()
    ensures Does(Only(TAKEN_AT, map[1 := Call(0, Releasing(ERR_RECV_ANSWER))], {1}), Release(1),
                 Only(TAKEN_AT.(w := ASKED.(owner := 0)), map[], {1}))
    ensures Does(Only(TAKEN_AT.(w := ASKED.(owner := 0)), map[], {1}), Reserve(2, 7),
                 Only(TAKEN_AT, map[2 := Call(0, Reserved)], {1, 2}))
  {
    assert WordsOf(Only(TAKEN_AT.(w := ASKED.(owner := 0)), map[], {1}))[0].owner == 0;
  }

  lemma FirstHalf() returns (steps: seq<Step>)
    ensures steps == [Reserve(1, 7), Fill(1), Kick(1, true), ServerTake(0)]
    ensures Leads(Only(FRESH_SLOT, map[], {}), steps, Only(TAKEN_AT, map[1 := Call(0, Waiting)], {1}))
  {
    CallTakesSlot();
    ServerTakesRequest();
    var s0 := Only(FRESH_SLOT, map[], {});
    var s1 := Only(Taken0(Words(7, 0, 0, 0), None, Resting), map[1 := Call(0, Reserved)], {1});
    var s2 := Only(Taken0(ASKED, Some(1), Resting), map[1 := Call(0, Filled)], {1});
    var s3 := Only(Taken0(ASKED.(req := 1), Some(1), Resting), map[1 := Call(0, Waiting)], {1});
    AfterThat(s0, [], s0, Reserve(1, 7), s1);
    AfterThat(s0, [Reserve(1, 7)], s1, Fill(1), s2);
    AfterThat(s0, [Reserve(1, 7), Fill(1)], s2, Kick(1, true), s3);
    AfterThat(s0, [Reserve(1, 7), Fill(1), Kick(1, true)], s3, ServerTake(0),
              Only(TAKEN_AT, map[1 := Call(0, Waiting)], {1}));
    steps := [Reserve(1, 7), Fill(1), Kick(1, true), ServerTake(0)];
  }

  lemma SecondHalf() returns (steps: seq<Step>)
    ensures steps == [TimeOut(1), GiveUp(1), Release(1), Reserve(2, 7)]
    ensures Leads(Only(TAKEN_AT, map[1 := Call(0, Waiting)], {1}), steps,
                  Only(TAKEN_AT, map[2 := Call(0, Reserved)], {1, 2}))
  {
    CallTimesOut();
    SlotChangesHands();
    var s0, s1 := Only(TAKEN_AT, map[1 := Call(0, Waiting)], {1}), Only(TAKEN_AT, map[1 := Call(0, Polling)], {1});
    var s2 := Only(TAKEN_AT, map[1 := Call(0, Releasing(ERR_RECV_ANSWER))], {1});
    var s3 := Only(TAKEN_AT.(w := ASKED.(owner := 0)), map[], {1});
    AfterThat(s0, [], s0, TimeOut(1), s1);
    AfterThat(s0, [TimeOut(1)], s1, GiveUp(1), s2);
    AfterThat(s0, [TimeOut(1), GiveUp(1)], s2, Release(1), s3);
    AfterThat(s0, [TimeOut(1), GiveUp(1), Release(1)], s3, Reserve(2, 7),
              Only(TAKEN_AT, map[2 := Call(0, Reserved)], {1, 2}));
    steps := [TimeOut(1), GiveUp(1), Release(1), Reserve(2, 7)];
  }

  /** From the first moment on, with a server that answers each request once: call 1 times out with -201,
      and call 2 parses the answer to the request of call 1. */
  lemma ReplyCanBeAnothers() returns (steps: seq<Step>, s: State, q: State)
    ensures Init(s) && Leads(s, steps, q)
    ensures |steps| > 8 && steps[..8] ==
            [Reserve(1, 7), Fill(1), Kick(1, true), ServerTake(0), TimeOut(1), GiveUp(1), Release(1), Reserve(2, 7)]
    ensures AtPoint(q, 2, Parsing) && q.slots[q.calls[2].slot].reply == Some(1)
  {
    s := Only(FRESH_SLOT, map[], {});
    var first := FirstHalf();
    var second := SecondHalf();
    var mid := Only(TAKEN_AT, map[1 := Call(0, Waiting)], {1});
    var late := Only(TAKEN_AT, map[2 := Call(0, Reserved)], {1, 2});
    var rest;
    rest, q := LateAnswer(late, 2);
    LeadsOn(s, first, mid, second, late);
    LeadsOn(s, first + second, late, rest, q);
    steps := first + second + rest;
  }

  lemma {:induction false} LeadsOn(s: State, a: seq<Step>, m: State, b: seq<Step>, q: State)
    requires Leads(s, a, m) && Leads(m, b, q)
    ensures Leads(s, a + b, q)
    decreases |a|
  {
    if a == [] {
      assert a + b == b;
    } else {
      LeadsOn(Do(s, a[0]), a[1..], m, b, q);
      assert (a + b)[1..] == a[1..] + b;
    }
  }

  // ---------------------------------------------------------------- what the clients can see

  /** A call gives the slot back without having seen an answer to its request. */
  predicate LeavesUnanswered(s: State, st: Step, i: nat) {
    st.Release? && st.c in s.calls && s.calls[st.c].slot == i && s.calls[st.c].at.Releasing?
    && (s.calls[st.c].at.rc == ERR_RECV_ANSWER || s.calls[st.c].at.rc == ERR_PENDING)
  }

  predicate ServerDone(x: Slot) {
    !x.server.Working? && x.w.req == 0
  }

  /** As long as no call left the slot unanswered, the server has nothing of it but the request of the call
      that holds it, and nothing at all once it has written. */
  ghost predicate Settled(s: State, i: nat)
    requires i < |s.slots|
  {
    var x := s.slots[i];
    && x.w.req <= 1 && (x.server.Working? ==> x.w.req == 0)
    && (!Held(s, i) ==> ServerDone(x))
    && (forall c: nat :: Holds(s, c, i) ==> SettledFor(x, s.calls[c].at))
  }

  predicate SettledFor(x: Slot, at: CallAt) {
    match at
    case Reserved => ServerDone(x)
    case Filled => ServerDone(x) && x.writes == []
    case Releasing(rc) => rc == ERR_RECV_ANSWER || rc == ERR_PENDING || ServerDone(x)
    case _ => x.writes == [] || ServerDone(x)
  }

  /** The holder's own step. */
  lemma MoverSettled(s: State, st: Step, i: nat, c: nat)
    requires Inv(s) && Can(s, st) && i < SLOT_COUNT && Settled(s, i) && !LeavesUnanswered(s, st, i)
    requires Holds(s, c, i) && InFlight(s, st) == Some(c) && c in Do(s, st).calls
    ensures |Do(s, st).slots| == SLOT_COUNT && SettledFor(Do(s, st).slots[i], Do(s, st).calls[c].at)
  {
    assert CallOk(s.slots[i], c, s.calls[c].at);
  }

  /** A step of somebody else, on the same slot only if it is the server's. */
  lemma OtherSettled(s: State, st: Step, i: nat, c: nat)
    requires Inv(s) && Can(s, st) && ByServerRules(st) && i < SLOT_COUNT && Settled(s, i)
    requires Holds(s, c, i) && InFlight(s, st) != Some(c)
    ensures |Do(s, st).slots| == SLOT_COUNT && c in Do(s, st).calls
    ensures SettledFor(Do(s, st).slots[i], Do(s, st).calls[c].at)
  {
    var mover := InFlight(s, st);
    assert mover.Some? ==> Holds(s, mover.value, s.calls[mover.value].slot);
    assert s.slots[i].w.owner != 0;
  }

  lemma HolderSettled(s: State, st: Step, i: nat, c: nat)
    requires Inv(s) && Can(s, st) && ByServerRules(st) && i < SLOT_COUNT && Settled(s, i)
    requires !LeavesUnanswered(s, st, i)
    requires i < |Do(s, st).slots| && Holds(Do(s, st), c, i)
    ensures SettledFor(Do(s, st).slots[i], Do(s, st).calls[c].at)
  {
    if !Holds(s, c, i) {
      assert st.Reserve? && st.c == c;
      assert !Held(s, i) by {
        assert s.slots[i].w.owner == 0;
      }
    } else if InFlight(s, st) == Some(c) {
      MoverSettled(s, st, i, c);
    } else {
      OtherSettled(s, st, i, c);
    }
  }

  /** The rest of Settled, which does not ask how far the holder has got. */
  lemma SlotSettled(s: State, st: Step, i: nat)
    requires Inv(s) && Can(s, st) && ByServerRules(st) && i < SLOT_COUNT && Settled(s, i)
    requires !LeavesUnanswered(s, st, i) && HoldersOk(Do(s, st))
    ensures var x := Do(s, st).slots[i];
      x.w.req <= 1 && (x.server.Working? ==> x.w.req == 0) && (!Held(Do(s, st), i) ==> ServerDone(x))
  {
    var s' := Do(s, st);
    var mover := InFlight(s, st);
    assert mover.Some? ==> Holds(s, mover.value, s.calls[mover.value].slot);
    assert s'.slots[i].w.owner != 0 <==> Held(s', i);
    assert s.slots[i].w.owner != 0 <==> Held(s, i);
  }

  lemma SettledAfter(s: State, st: Step, i: nat)
    requires Inv(s) && Can(s, st) && ByServerRules(st) && i < SLOT_COUNT && Settled(s, i)
    requires !LeavesUnanswered(s, st, i)
    ensures i < |Do(s, st).slots| && Settled(Do(s, st), i)
  {
    HoldersKept(s, st);
    SlotSettled(s, st, i);
    forall c: nat | Holds(Do(s, st), c, i) ensures SettledFor(Do(s, st).slots[i], Do(s, st).calls[c].at) {
      HolderSettled(s, st, i, c);
    }
  }

  /** Something a client can see: up to step k no call on slot i ended with -201 or -301. */
  ghost predicate AllAnswered(run: seq<State>, steps: seq<Step>, k: nat, i: nat)
    requires |run| == |steps| + 1 && k <= |steps|
  {
    forall j :: 0 <= j < k ==> ByServerRules(steps[j]) && !LeavesUnanswered(run[j], steps[j], i)
  }

  lemma {:induction false} SettledInRun(run: seq<State>, steps: seq<Step>, k: nat, i: nat)
    requires IsRun(run, steps) && k <= |steps| && i < SLOT_COUNT && AllAnswered(run, steps, k, i)
    ensures |run[k].slots| == SLOT_COUNT && Settled(run[k], i)
  {
    EveryRun(run, steps, k);
    if k > 0 {
      SettledInRun(run, steps, k - 1, i);
      EveryRun(run, steps, k - 1);
      SettledAfter(run[k - 1], steps[k - 1], i);
    }
  }

  /** With a server that answers each request once: if no earlier call on the slot ended with -201 or
      -301, a call can only ever parse the reply to its own request. */
  lemma AnsweredSlotsAreSafe(run: seq<State>, steps: seq<Step>, k: nat)
    requires IsRun(run, steps) && k < |steps| && steps[k].Reserve? && steps[k].c in run[k + 1].calls
    requires AllAnswered(run, steps, k, run[k + 1].calls[steps[k].c].slot)
    ensures AlwaysOwnReply(run[k + 1], steps[k].c)
  {
    var i := run[k + 1].calls[steps[k].c].slot;
    ReplyIsOwnExactly(run, steps, k);
    EveryRun(run, steps, k);
    SettledInRun(run, steps, k, i);
    assert run[k].slots[i].w.owner == 0;
    assert !Held(run[k], i);
  }
}
