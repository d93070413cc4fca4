/** What becomes of calls that are waiting for a fetch when bp_tagdb_build resets the cache of
    c/src/tagcache.c under them. */
module CacheRebuild {
  import opened Common
  import opened TagCache

  /** What any build keeps, whether or not calls are waiting for a fetch. */
  ghost predicate CacheOk(s: State) {
    && s.built && s.cache.cap == s.cache.total == |s.table|
    && s.cache.known <= s.table
  }

  /** A symbol fetched from an earlier table, for an index the new table also has and fills differently. */
  predicate Stale(s: State, t: nat) {
    t in s.tasks && s.tasks[t].Holding? && s.tasks[t].idx < |s.table| && s.tasks[t].sym != s.table[s.tasks[t].idx]
  }

  ghost predicate Leads(s: State, steps: seq<Step>, q: State)
    decreases |steps|
  {
    if steps == [] then s == q else Can(s, steps[0]) && Leads(Do(s, steps[0]), steps[1..], q)
  }

  ghost predicate NoBuild(steps: seq<Step>) {
    forall i :: 0 <= i < |steps| ==> !steps[i].Build?
  }

  lemma FreshKept(s: State, st: Step)
    requires CacheOk(s) && Can(s, st) && !st.Build? && forall t :: !Stale(s, t)
    ensures CacheOk(Do(s, st)) && forall t :: !Stale(Do(s, st), t)
  {
    var s' := Do(s, st);
    if st.Resume? {
      assert !Stale(s, st.t);
    }
    forall t ensures !Stale(s', t) {
      assert !Stale(s, t);
    }
  }

  lemma {:induction false} FreshRun(s: State, steps: seq<Step>, q: State)
    requires CacheOk(s) && Leads(s, steps, q) && NoBuild(steps) && forall t :: !Stale(s, t)
    ensures CacheOk(q) && forall t :: !Stale(q, t)
    decreases |steps|
  {
    if steps != [] {
      FreshKept(s, steps[0]);
      FreshRun(Do(s, steps[0]), steps[1..], q);
    }
  }

  /** One preload, left to itself, fills the cache up to any index. */
  lemma {:induction false} FillTo(s: State, u: nat, n: nat) returns (steps: seq<Step>, q: State)
    requires CacheOk(s) && n < |s.table| && |s.cache.known| <= n
    requires u in s.tasks && s.tasks[u] == Asking(None, |s.cache.known|)
    ensures Leads(s, steps, q) && NoBuild(steps) && CacheOk(q)
    ensures q.table == s.table && |q.cache.known| == n && q.tasks - {u} == s.tasks - {u}
    ensures u in q.tasks && q.tasks[u] == Asking(None, n)
    decreases n - |s.cache.known|
  {
    if |s.cache.known| == n {
      steps, q := [], s;
    } else {
      var s1 := Do(s, Fetch(u, true));
      var s2 := Do(s1, Resume(u));
      var rest;
      rest, q := FillTo(s2, u, n);
      steps := [Fetch(u, true), Resume(u)] + rest;
      assert steps[1..] == [Resume(u)] + rest;
      assert steps[1..][1..] == rest;
    }
  }

  lemma {:induction false} LeadsOn(s: State, a: seq<Step>, m: State, b: seq<Step>, q: State)
    requires Leads(s, a, m) && Leads(m, b, q)
    ensures Leads(s, a + b, q)
    decreases |a|
  {
    if a == [] {
      assert a + b == b;
    } else {
      LeadsOn(Do(s, a[0]), a[1..], m, b, q);
      assert (a + b)[1..] == a[1..] + b;
    }
  }

  /** The waiting call that holds a stale symbol can put it into the cache of the new table. */
  lemma StalePoisons(s: State, t: nat, u: nat) returns (steps: seq<Step>, q: State)
    requires CacheOk(s) && Stale(s, t) && u !in s.tasks && s.cache.known == []
    ensures Leads(s, steps, q) && NoBuild(steps) && q.table == s.table && !(q.cache.known <= q.table)
    ensures q.cache.cap == s.cache.cap && |q.cache.known| == s.tasks[t].idx + 1
    ensures q.cache.known[s.tasks[t].idx] == s.tasks[t].sym
  {
    var n := s.tasks[t].idx;
    var s1 := Do(s, Start(u, None));
    assert s1.tasks[u] == Asking(None, 0);
    var fill, s2 := FillTo(s1, u, n);
    assert s2.tasks[t] == s.tasks[t] by {
      assert t in s1.tasks - {u} && t in s2.tasks - {u};
      assert (s2.tasks - {u})[t] == (s1.tasks - {u})[t];
    }
    q := Do(s2, Resume(t));
    assert q.cache.known == s2.cache.known + [s.tasks[t].sym];
    assert q.cache.known[n] != q.table[n];
    LeadsOn(s1, fill, s2, [Resume(t)], q);
    steps := [Start(u, None)] + (fill + [Resume(t)]);
    assert steps[1..] == fill + [Resume(t)];
  }

  /** A build is safe exactly when no call holds a symbol the new table contradicts: then every later
      step sequence without a build keeps the cache a prefix of the table, and otherwise some sequence
      leaves it holding an old symbol for good. */
  lemma BuildSafeExactly(s: State, table: seq<Symbol>, u: nat)
    requires Can(s, Build(table)) && u !in s.tasks
    ensures var b := Do(s, Build(table));
            (forall steps, q :: Leads(b, steps, q) && NoBuild(steps) ==> q.cache.known <= q.table)
            <==> forall t :: !Stale(b, t)
  {
    var b := Do(s, Build(table));
    if forall t :: !Stale(b, t) {
      forall steps, q | Leads(b, steps, q) && NoBuild(steps) ensures q.cache.known <= q.table {
        FreshRun(b, steps, q);
      }
    } else {
      var t :| Stale(b, t);
      var steps, q := StalePoisons(b, t, u);
    }
  }

  const OLD := Symbol("old", 0)
  const NEW := Symbol("new", 0)

  /** From the first moment on: a lookup fetches a symbol, the table is rebuilt, and in the end the cache
      holds the old symbol, so that every further lookup of its name finds what the table does not have. */
  lemma RebuildPoisons() returns (steps: seq<Step>, s: State, q: State)
    ensures s.cache == EMPTY && s.tasks == map[] && !s.built && Leads(s, steps, q)
    ensures |steps| >= 4 && steps[..4] == [Build([OLD]), Start(1, Some("old")), Fetch(1, true), Build([NEW])]
    ensures NoBuild(steps[4..])
    ensures Begin(q.cache, "old") == Done(Found(OLD)) && FirstMatch(q.table, "old") == None
  {
    s := State([], EMPTY, map[], false, 0);
    var s1 := Do(s, Build([OLD]));
    var s2 := Do(s1, Start(1, Some("old")));
    assert s2.tasks == map[1 := Asking(Some("old"), 0)];
    var s3 := Do(s2, Fetch(1, true));
    var s4 := Do(s3, Build([NEW]));
    assert OLD.name != NEW.name by {
      assert OLD.name[0] != NEW.name[0];
    }
    assert Stale(s4, 1);
    var rest;
    rest, q := StalePoisons(s4, 1, 2);
    assert q.cache.known == [OLD] && q.table == [NEW];
    assert ScanFrom(q.cache.known, 0, OLD.name) == Some(OLD);
    FirstMatchAt(q.table, OLD.name, 1);
    steps := [Build([OLD])] + ([Start(1, Some("old"))] + ([Fetch(1, true)] + ([Build([NEW])] + rest)));
    StepOn(s3, Build([NEW]), rest, q);
    StepOn(s2, Fetch(1, true), [Build([NEW])] + rest, q);
    StepOn(s1, Start(1, Some("old")), [Fetch(1, true)] + ([Build([NEW])] + rest), q);
    StepOn(s, Build([OLD]), [Start(1, Some("old"))] + ([Fetch(1, true)] + ([Build([NEW])] + rest)), q);
    assert steps[4..] == rest;
    assert steps[..4] == [Build([OLD]), Start(1, Some("old")), Fetch(1, true), Build([NEW])];
  }

  lemma StepOn(s: State, st: Step, rest: seq<Step>, q: State)
    requires Can(s, st) && Leads(Do(s, st), rest, q)
    ensures Leads(s, [st] + rest, q)
  {
    assert ([st] + rest)[1..] == rest;
  }

  // ---------------------------------------------------------------- a lookup that was out when the table changed

  /** The answers to a lookup are those of a search that may skip any number of entries up to from. */
  ghost predicate SameFrom(table: seq<Symbol>, from: nat, name: string) {
    forall m: nat :: m <= from && m <= |table| ==> FirstMatch(table[m..], name) == FirstMatch(table, name)
  }

  lemma {:induction false} SkipAbsent(table: seq<Symbol>, from: nat, to: nat, name: string)
    requires from <= to <= |table| && Absent(table, from, to, name)
    ensures FirstMatch(table[from..], name) == FirstMatch(table[to..], name)
    decreases |table| - from
  {
    if from < to {
      assert table[from..][0] == table[from] && table[from..][1..] == table[from + 1..];
      SkipAbsent(table, from + 1, to, name);
    }
  }

  /** A scan of the known prefix from an index on is the beginning of a search from there. */
  lemma ScanIsSearch(known: seq<Symbol>, table: seq<Symbol>, from: nat, name: string)
    requires known <= table && from <= |known|
    ensures match ScanFrom(known, from, name)
            case Some(sym) => FirstMatch(table[from..], name) == Some(sym)
            case None =>
              forall m :: from <= m <= |known| ==> FirstMatch(table[m..], name) == FirstMatch(table[from..], name)
  {
    match ScanFrom(known, from, name)
    case Some(sym) =>
      var i :| from <= i < |known| && sym == known[i] && sym.name == name
               && forall j :: from <= j < i ==> known[j].name != name;
      SkipAbsent(table, from, i, name);
      assert table[i..][0] == table[i];
    case None =>
      forall m | from <= m <= |known| ensures FirstMatch(table[m..], name) == FirstMatch(table[from..], name) {
        SkipAbsent(table, from, m, name);
      }
  }

  /** An answer that a plain search of the table gives. */
  predicate Right(table: seq<Symbol>, name: string, a: Answer) {
    match a
    case Found(sym) => FirstMatch(table, name) == Some(sym)
    case ParamRange => FirstMatch(table, name) == None
    case _ => true
  }

  /** A lookup that cannot answer wrongly from where it is: nothing it skips matters, or the new table has
      no symbol for the index it is asking for, so that it fails. */
  ghost predicate OnTrack(s: State, t: nat) {
    t in s.tasks && s.tasks[t].name.Some? ==>
      SameFrom(s.table, s.tasks[t].idx, s.tasks[t].name.value)
      || (s.tasks[t].Asking? && s.tasks[t].idx >= |s.table|)
  }

  ghost predicate AllFresh(s: State) {
    CacheOk(s) && forall t :: !Stale(s, t)
  }

  ghost predicate AnswersRight(s: State, st: Step)
    requires Can(s, st)
  {
    NameOf(s, st).Some? && AnswerOf(s, st).Some? ==> Right(s.table, NameOf(s, st).value, AnswerOf(s, st).value)
  }

  predicate OfTask(st: Step, t: nat) {
    !st.Build? && st.t == t
  }

  lemma StartOnTrack(s: State, t: nat, name: Option<string>)
    requires AllFresh(s) && Can(s, Start(t, name))
    ensures OnTrack(Do(s, Start(t, name)), t) && AnswersRight(s, Start(t, name))
  {
    if name.Some? {
      ScanIsSearch(s.cache.known, s.table, 0, name.value);
      assert s.table[0..] == s.table;
      assert s.table[|s.table|..] == [];
    }
  }

  lemma ResumeOnTrack(s: State, t: nat)
    requires AllFresh(s) && Can(s, Resume(t)) && OnTrack(s, t)
    ensures OnTrack(Do(s, Resume(t)), t) && AnswersRight(s, Resume(t))
  {
    var task := s.tasks[t];
    if task.name.Some? {
      assert !Stale(s, t);
      var name, c' := task.name.value, Admit(s.cache, task.idx, task.sym);
      assert c'.known <= s.table;
      assert s.table[|s.table|..] == [];
      if task.idx <= |c'.known| {
        ScanIsSearch(c'.known, s.table, task.idx, name);
      }
    }
  }

  lemma OnTrackKept(s: State, st: Step, t: nat)
    requires AllFresh(s) && Can(s, st) && !st.Build? && OnTrack(s, t)
    ensures AllFresh(Do(s, st)) && Do(s, st).table == s.table && OnTrack(Do(s, st), t)
    ensures OfTask(st, t) ==> AnswersRight(s, st)
  {
    FreshKept(s, st);
    if OfTask(st, t) && st.Start? {
      StartOnTrack(s, t, st.name);
    } else if OfTask(st, t) && st.Resume? {
      ResumeOnTrack(s, t);
    }
  }

  lemma {:induction false} OnTrackRun(s: State, steps: seq<Step>, q: State, t: nat)
    requires AllFresh(s) && OnTrack(s, t) && Leads(s, steps, q) && NoBuild(steps)
    ensures AllFresh(q) && OnTrack(q, t)
    decreases |steps|
  {
    if steps != [] {
      OnTrackKept(s, steps[0], t);
      OnTrackRun(Do(s, steps[0]), steps[1..], q, t);
    }
  }

  /** Whatever follows, short of another build, thread t is only given answers of a plain search. */
  ghost predicate AlwaysRight(s: State, t: nat) {
    forall steps: seq<Step>, q: State, st: Step ::
      Leads(s, steps, q) && NoBuild(steps) && Can(q, st) && OfTask(st, t) ==> AnswersRight(q, st)
  }

  lemma OneStep(s: State, st: Step, rest: seq<Step>, q: State)
    requires Can(s, st) && !st.Build? && Leads(Do(s, st), rest, q) && NoBuild(rest)
    ensures Leads(s, [st] + rest, q) && NoBuild([st] + rest)
  {
    StepOn(s, st, rest, q);
  }

  /** What a search from the end of the known prefix finds. */
  function Beyond(s: State, name: string): Answer
    requires |s.cache.known| <= |s.table|
  {
    match FirstMatch(s.table[|s.cache.known|..], name)
    case Some(sym) => Found(sym)
    case None => ParamRange
  }

  /** The next round of a lookup that runs alone and has fetched an index at or past the known prefix. */
  lemma RoundAlone(s: State, t: nat, name: string)
    requires AllFresh(s) && t in s.tasks && s.tasks[t].Holding? && s.tasks[t].name == Some(name)
    requires s.tasks[t].idx >= |s.cache.known|
    ensures var s' := Do(s, Resume(t));
      match AnswerOf(s, Resume(t))
      case Some(a) => a == Beyond(s, name)
      case None =>
        && AllFresh(s') && s'.table == s.table && Beyond(s', name) == Beyond(s, name)
        && s'.tasks == s.tasks[t := Asking(Some(name), |s'.cache.known|)]
        && |s.cache.known| <= |s'.cache.known| < |s.table|
        && (|s'.cache.known| == |s.cache.known| ==> s.tasks[t].idx > |s.cache.known|)
  {
    FreshKept(s, Resume(t));
    assert !Stale(s, t);
    var task, n := s.tasks[t], |s.cache.known|;
    var c' := Admit(s.cache, task.idx, task.sym);
    assert c'.known <= s.table && s.table[|s.table|..] == [];
    if task.idx == n {
      ScanIsSearch(c'.known, s.table, n, name);
    }
  }

  lemma {:induction false} LookupAlone(s: State, t: nat, name: string) returns (steps: seq<Step>, q: State)
    requires AllFresh(s) && t in s.tasks && s.tasks[t].Holding? && s.tasks[t].name == Some(name)
    requires s.tasks[t].idx >= |s.cache.known|
    ensures Leads(s, steps, q) && NoBuild(steps) && q.table == s.table && Can(q, Resume(t))
    ensures NameOf(q, Resume(t)) == Some(name) && AnswerOf(q, Resume(t)) == Some(Beyond(s, name))
    decreases |s.table| - |s.cache.known|, if s.tasks[t].idx > |s.cache.known| then 1 else 0
  {
    RoundAlone(s, t, name);
    if AnswerOf(s, Resume(t)).Some? {
      steps, q := [], s;
    } else {
      var s1 := Do(s, Resume(t));
      var s2 := Do(s1, Fetch(t, true));
      FreshKept(s1, Fetch(t, true));
      var rest;
      rest, q := LookupAlone(s2, t, name);
      OneStep(s1, Fetch(t, true), rest, q);
      OneStep(s, Resume(t), [Fetch(t, true)] + rest, q);
      steps := [Resume(t)] + ([Fetch(t, true)] + rest);
    }
  }

  /** A preload can fill the cache to any length. */
  lemma FillExactly(s: State, u: nat, n: nat) returns (steps: seq<Step>, q: State)
    requires AllFresh(s) && s.cache.known == [] && u !in s.tasks && n <= |s.table|
    ensures Leads(s, steps, q) && NoBuild(steps) && AllFresh(q)
    ensures q.table == s.table && |q.cache.known| == n && q.tasks - {u} == s.tasks
  {
    if n == 0 {
      steps, q := [], s;
      assert s.tasks - {u} == s.tasks;
    } else {
      var s1 := Do(s, Start(u, None));
      FreshKept(s, Start(u, None));
      assert s1.tasks - {u} == s.tasks;
      var fill, s2 := FillTo(s1, u, n - 1);
      FreshRun(s1, fill, s2);
      var s3 := Do(s2, Fetch(u, true));
      FreshKept(s2, Fetch(u, true));
      q := Do(s3, Resume(u));
      FreshKept(s3, Resume(u));
      var last := [Fetch(u, true)] + ([Resume(u)] + []);
      OneStep(s3, Resume(u), [], q);
      OneStep(s2, Fetch(u, true), [Resume(u)] + [], q);
      LeadsOn(s1, fill, s2, last, q);
      OneStep(s, Start(u, None), fill + last, q);
      steps := [Start(u, None)] + (fill + last);
      assert q.tasks - {u} == s2.tasks - {u};
    }
  }

  /** If some skippable part of the table matters, a run exists in which the lookup answers wrongly. */
  lemma SkipsInSomeRun(b: State, t: nat, u: nat, m: nat)
    requires AllFresh(b) && b.cache.known == [] && t in b.tasks && b.tasks[t].name.Some? && u !in b.tasks
    requires b.tasks[t].Asking? ==> b.tasks[t].idx < |b.table|
    requires m <= b.tasks[t].idx && m <= |b.table|
    requires FirstMatch(b.table[m..], b.tasks[t].name.value) != FirstMatch(b.table, b.tasks[t].name.value)
    ensures !AlwaysRight(b, t)
  {
    var name := b.tasks[t].name.value;
    var fill, s := FillExactly(b, u, m);
    assert s.tasks[t] == b.tasks[t] by {
      assert t in s.tasks - {u} && (s.tasks - {u})[t] == b.tasks[t];
    }
    var fetch, h := [], s;
    if s.tasks[t].Asking? {
      fetch, h := [Fetch(t, true)], Do(s, Fetch(t, true));
      FreshKept(s, Fetch(t, true));
      OneStep(s, Fetch(t, true), [], h);
      assert fetch == [Fetch(t, true)] + [];
    }
    var rest, q := LookupAlone(h, t, name);
    LeadsOn(b, fill, s, fetch, h);
    LeadsOn(b, fill + fetch, h, rest, q);
    assert Leads(b, fill + fetch + rest, q) && NoBuild(fill + fetch + rest);
    assert OfTask(Resume(t), t) && !AnswersRight(q, Resume(t));
  }

  /** A lookup that is waiting for a fetch when the table is rebuilt, with no stale symbol about, answers
      as a plain search of the new table does whatever follows, exactly when no entry it may skip
      matters, or its next fetch is bound to fail. */
  lemma InFlightExact(s: State, table: seq<Symbol>, t: nat, u: nat)
    requires Can(s, Build(table)) && t in s.tasks && s.tasks[t].name.Some? && u !in s.tasks
    requires AllFresh(Do(s, Build(table)))
    ensures AlwaysRight(Do(s, Build(table)), t) <==>
            SameFrom(table, s.tasks[t].idx, s.tasks[t].name.value)
            || (s.tasks[t].Asking? && s.tasks[t].idx >= |table|)
  {
    var b := Do(s, Build(table));
    if OnTrack(b, t) {
      forall steps: seq<Step>, q: State, st: Step | Leads(b, steps, q) && NoBuild(steps) && Can(q, st) && OfTask(st, t)
        ensures AnswersRight(q, st)
      {
        OnTrackRun(b, steps, q, t);
        OnTrackKept(q, st, t);
      }
    } else {
      var name := s.tasks[t].name.value;
      var m: nat :| m <= s.tasks[t].idx && m <= |table| && FirstMatch(table[m..], name) != FirstMatch(table, name);
      SkipsInSomeRun(b, t, u, m);
    }
  }

  /** In a table without duplicate names that means: the name is not among the entries below the lookup's
      index. */
  lemma SameFromIsAbsent(table: seq<Symbol>, from: nat, name: string)
    requires forall i, j :: 0 <= i < j < |table| ==> table[i].name != table[j].name
    ensures SameFrom(table, from, name) <==> Absent(table, 0, if from < |table| then from else |table|, name)
  {
    var top := if from < |table| then from else |table|;
    if Absent(table, 0, top, name) {
      forall m: nat | m <= from && m <= |table| ensures FirstMatch(table[m..], name) == FirstMatch(table, name) {
        SkipAbsent(table, 0, m, name);
        assert table[0..] == table;
      }
    } else {
      var i :| 0 <= i < top && table[i].name == name;
      FirstMatchAt(table, name, i);
      NoMatch(table[i + 1..], name);
      assert FirstMatch(table[i + 1..], name) != FirstMatch(table, name);
    }
  }

  const FIRST := Symbol("a", 0)
  const WANTED := Symbol("n", 0)
  const LAST := Symbol("c", 0)
  const SECOND := Symbol("b", 0)

  /** From the first moment on: a lookup of "n" has looked at one symbol when a build moves that name to the
      front.  No stale symbol is about, and yet the lookup can answer that there is no such name. */
  lemma BuildCanMislead() returns (steps: seq<Step>, s: State, b: State)
    ensures s.cache == EMPTY && s.tasks == map[] && !s.built && Leads(s, steps, b)
    ensures steps == [Build([FIRST, SECOND]), Start(1, Some("n")), Fetch(1, true), Resume(1), Build([WANTED, LAST])]
    ensures AllFresh(b) && b.tasks == map[1 := Asking(Some("n"), 1)] && FirstMatch(b.table, "n") == Some(WANTED)
    ensures !AlwaysRight(b, 1)
  {
    assert "a"[0] != "n"[0] && "b"[0] != "n"[0] && "c"[0] != "n"[0];
    s := State([], EMPTY, map[], false, 0);
    var s1 := Do(s, Build([FIRST, SECOND]));
    var s2 := Do(s1, Start(1, Some("n")));
    assert s2.tasks == map[1 := Asking(Some("n"), 0)];
    var s3 := Do(s2, Fetch(1, true));
    var s4 := Do(s3, Resume(1));
    assert s4.tasks == map[1 := Asking(Some("n"), 1)];
    b := Do(s4, Build([WANTED, LAST]));
    StepOn(s4, Build([WANTED, LAST]), [], b);
    StepOn(s3, Resume(1), [Build([WANTED, LAST])] + [], b);
    StepOn(s2, Fetch(1, true), [Resume(1)] + ([Build([WANTED, LAST])] + []), b);
    StepOn(s1, Start(1, Some("n")), [Fetch(1, true)] + ([Resume(1)] + ([Build([WANTED, LAST])] + [])), b);
    steps := [Start(1, Some("n"))] + ([Fetch(1, true)] + ([Resume(1)] + ([Build([WANTED, LAST])] + [])));
    StepOn(s, Build([FIRST, SECOND]), steps, b);
    steps := [Build([FIRST, SECOND])] + steps;
    assert b.table[1..] == [LAST];
    NoMatch([LAST], "n");
    FirstMatchAt(b.table, "n", 0);
    SkipsInSomeRun(b, 1, 2, 1);
  }

  lemma NoMatch(table: seq<Symbol>, name: string)
    requires Absent(table, 0, |table|, name)
    ensures FirstMatch(table, name) == None
  {
    FirstMatchAt(table, name, |table|);
  }
}
