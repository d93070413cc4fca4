/** The per-PLC symbol cache of c/src/tagcache.c: a lazily filled prefix of the engine's table,
    shared by lookups and preloads that drop the lock around every fetch. */
module TagCache {
  import opened Common

  datatype Symbol = Symbol(name: string, info: nat)

  /** known is symbols[0..known_count); a rebuild sets both counts to the table size. */
  datatype Cache = Cache(known: seq<Symbol>, cap: nat, total: nat)

  datatype Answer = Found(sym: Symbol) | ParamRange | Loaded | FetchFailed

  /** What a thread does when it gives up the lock: finish, or fetch the symbol at an index. */
  datatype Outcome = Done(a: Answer) | Ask(idx: nat)

  const EMPTY := Cache([], 0, 0)

  // ---------------------------------------------------------------- plain search

  function FirstMatch(table: seq<Symbol>, name: string): Option<Symbol> {
    if table == [] then None
    else if table[0].name == name then Some(table[0])
    else FirstMatch(table[1..], name)
  }

  ghost predicate Absent(table: seq<Symbol>, from: nat, to: nat, name: string)
    requires to <= |table|
  {
    forall i :: from <= i < to ==> table[i].name != name
  }

  lemma {:induction false} FirstMatchAt(table: seq<Symbol>, name: string, i: nat)
    requires i <= |table| && Absent(table, 0, i, name)
    ensures i < |table| && table[i].name == name ==> FirstMatch(table, name) == Some(table[i])
    ensures i == |table| ==> FirstMatch(table, name) == None
  {
    if i > 0 {
      assert Absent(table[1..], 0, i - 1, name) by {
        forall j | 0 <= j < i - 1 ensures table[1..][j].name != name {
          assert table[1..][j] == table[j + 1];
        }
      }
      FirstMatchAt(table[1..], name, i - 1);
    }
  }

  // ---------------------------------------------------------------- the critical sections

  function ScanFrom(known: seq<Symbol>, from: nat, name: string): (r: Option<Symbol>)
    requires from <= |known|
    ensures r.None? <==> forall i :: from <= i < |known| ==> known[i].name != name
    ensures r.Some? ==> exists i :: from <= i < |known| && r.value == known[i] && known[i].name == name
                                    && forall j :: from <= j < i ==> known[j].name != name
    decreases |known| - from
  {
    if from == |known| then None
    else if known[from].name == name then Some(known[from])
    else ScanFrom(known, from + 1, name)
  }

  function Begin(c: Cache, name: string): Outcome {
    if c.cap == 0 then Done(ParamRange)
    else match ScanFrom(c.known, 0, name)
      case Some(s) => Done(Found(s))
      case None => if |c.known| < c.total then Ask(|c.known|) else Done(ParamRange)
  }

  /** Keep a fetched symbol only if its index is still the next one. */
  function Admit(c: Cache, idx: nat, sym: Symbol): Cache {
    if idx == |c.known| && |c.known| < c.cap then c.(known := c.known + [sym]) else c
  }

  function ResumeLookup(c: Cache, idx: nat, sym: Symbol, name: string): (Cache, Outcome) {
    var c' := Admit(c, idx, sym);
    match if idx <= |c'.known| then ScanFrom(c'.known, idx, name) else None
    case Some(s) => (c', Done(Found(s)))
    case None => (c', if |c'.known| < c'.total then Ask(|c'.known|) else Done(ParamRange))
  }

  function BeginPreload(c: Cache): Outcome {
    if c.cap == 0 then Done(ParamRange) else if |c.known| < c.total then Ask(|c.known|) else Done(Loaded)
  }

  function ResumePreload(c: Cache, idx: nat, sym: Symbol): (Cache, Outcome) {
    var c' := Admit(c, idx, sym);
    (c', if |c'.known| < c'.total then Ask(|c'.known|) else Done(Loaded))
  }

  // ---------------------------------------------------------------- threads

  /** name is None for a preload. */
  datatype Task = Asking(name: Option<string>, idx: nat) | Holding(name: Option<string>, idx: nat, sym: Symbol)

  /** built and fetched are history: whether a build has filled in the counts, and how many fetches
      succeeded since. */
  datatype State = State(table: seq<Symbol>, cache: Cache, tasks: map<nat, Task>, built: bool, fetched: nat)

  datatype Step =
    | Start(t: nat, name: Option<string>)
    | Fetch(t: nat, ok: bool)
    | Resume(t: nat)
    | Build(table: seq<Symbol>)

  predicate Can(s: State, st: Step) {
    match st
    case Start(t, name) => t !in s.tasks
    case Fetch(t, ok) => t in s.tasks && s.tasks[t].Asking? && (ok ==> s.tasks[t].idx < |s.table|)
    case Resume(t) => t in s.tasks && s.tasks[t].Holding?
    case Build(table) => |table| < 0x1_0000
  }

  function Settle(s: State, t: nat, name: Option<string>, o: Outcome): State {
    match o
    case Done(a) => s.(tasks := s.tasks - {t})
    case Ask(idx) => s.(tasks := s.tasks[t := Asking(name, idx)])
  }

  function StartOutcome(s: State, name: Option<string>): Outcome {
    match name
    case None => BeginPreload(s.cache)
    case Some(n) => Begin(s.cache, n)
  }

  function ResumeOutcome(s: State, task: Task): (Cache, Outcome)
    requires task.Holding?
  {
    match task.name
    case None => ResumePreload(s.cache, task.idx, task.sym)
    case Some(n) => ResumeLookup(s.cache, task.idx, task.sym, n)
  }

  function Do(s: State, st: Step): State
    requires Can(s, st)
  {
    match st
    case Start(t, name) => Settle(s, t, name, StartOutcome(s, name))
    case Fetch(t, ok) =>
      var task := s.tasks[t];
      if ok then s.(tasks := s.tasks[t := Holding(task.name, task.idx, s.table[task.idx])], fetched := s.fetched + 1)
      else s.(tasks := s.tasks - {t})
    case Resume(t) =>
      var (c, o) := ResumeOutcome(s, s.tasks[t]);
      Settle(s.(cache := c), t, s.tasks[t].name, o)
    case Build(table) => s.(table := table, cache := Cache([], |table|, |table|), built := true, fetched := 0)
  }

  /** The code a call returns, if this step is its last. */
  function AnswerOf(s: State, st: Step): Option<Answer>
    requires Can(s, st)
  {
    match st
    case Start(t, name) => (match StartOutcome(s, name) case Done(a) => Some(a) case Ask(_) => None)
    case Fetch(t, ok) => if ok then None else Some(FetchFailed)
    case Resume(t) => (match ResumeOutcome(s, s.tasks[t]).1 case Done(a) => Some(a) case Ask(_) => None)
    case Build(_) => None
  }

  function NameOf(s: State, st: Step): Option<string>
    requires Can(s, st)
  {
    match st
    case Start(t, name) => name
    case Fetch(t, _) => s.tasks[t].name
    case Resume(t) => s.tasks[t].name
    case Build(_) => None
  }

  // ---------------------------------------------------------------- refinement of plain search

  ghost predicate TaskOk(s: State, task: Task) {
    && s.built && task.idx < |s.table| && task.idx <= |s.cache.known|
    && (task.name.Some? ==> Absent(s.table, 0, task.idx, task.name.value))
    && (task.Holding? ==> task.sym == s.table[task.idx])
  }

  ghost predicate Inv(s: State) {
    && s.cache.cap == s.cache.total
    && (if s.built then s.cache.total == |s.table| else s.cache == EMPTY)
    && s.cache.known <= s.table
    && (forall t :: t in s.tasks ==> TaskOk(s, s.tasks[t]))
  }

  /** A run in which no build happens while a lookup or preload is waiting for a fetch. */
  ghost predicate IsRun(run: seq<State>, steps: seq<Step>) {
    && |run| == |steps| + 1
    && run[0].cache == EMPTY && run[0].tasks == map[] && !run[0].built && run[0].fetched == 0
    && forall i :: 0 <= i < |steps| ==>
         Can(run[i], steps[i]) && run[i + 1] == Do(run[i], steps[i])
         && (steps[i].Build? ==> run[i].tasks == map[])
  }

  lemma AnswerExact(s: State, st: Step)
    requires Inv(s) && Can(s, st) && s.built && NameOf(s, st).Some? && AnswerOf(s, st).Some?
    ensures match AnswerOf(s, st).value
            case Found(sym) => FirstMatch(s.table, NameOf(s, st).value) == Some(sym)
            case ParamRange => FirstMatch(s.table, NameOf(s, st).value) == None
            case FetchFailed => st.Fetch?
            case Loaded => false
  {
    var name := NameOf(s, st).value;
    match st
    case Start(t, _) =>
      match ScanFrom(s.cache.known, 0, name) {
        case Some(sym) =>
          var i :| 0 <= i < |s.cache.known| && sym == s.cache.known[i] && sym.name == name
                   && forall j :: 0 <= j < i ==> s.cache.known[j].name != name;
          FirstMatchAt(s.table, name, i);
        case None => FirstMatchAt(s.table, name, |s.cache.known|);
      }
    case Resume(t) =>
      var task := s.tasks[t];
      var known := Admit(s.cache, task.idx, task.sym).known;
      assert known <= s.table;
      match ScanFrom(known, task.idx, name) {
        case Some(sym) =>
          var i :| task.idx <= i < |known| && sym == known[i] && sym.name == name
                   && forall j :: task.idx <= j < i ==> known[j].name != name;
          FirstMatchAt(s.table, name, i);
        case None => FirstMatchAt(s.table, name, |known|);
      }
    case _ =>
  }

  lemma StepKeeps(s: State, st: Step)
    requires Inv(s) && Can(s, st) && (st.Build? ==> s.tasks == map[])
    ensures Inv(Do(s, st))
  {
    var s' := Do(s, st);
    if st.Resume? {
      assert TaskOk(s, s.tasks[st.t]);
    }
    forall t | t in s'.tasks ensures TaskOk(s', s'.tasks[t]) {
      if t in s.tasks {
        assert TaskOk(s, s.tasks[t]);
      }
    }
  }

  lemma {:induction false} EveryRun(run: seq<State>, steps: seq<Step>, i: nat)
    requires IsRun(run, steps) && i < |run|
    ensures Inv(run[i])
  {
    if i > 0 {
      EveryRun(run, steps, i - 1);
      StepKeeps(run[i - 1], steps[i - 1]);
    }
  }

  /** In every interleaving the cache is a prefix of the engine's table, and a lookup whose fetches
      succeed answers what a plain search of that table answers. */
  lemma LookupRefinesSearch(run: seq<State>, steps: seq<Step>, i: nat)
    requires IsRun(run, steps) && i < |steps|
    ensures run[i].cache.known <= run[i].table
    ensures run[i].built && NameOf(run[i], steps[i]).Some? && AnswerOf(run[i], steps[i]).Some? ==>
            var name := NameOf(run[i], steps[i]).value;
            match AnswerOf(run[i], steps[i]).value
            case Found(sym) => FirstMatch(run[i].table, name) == Some(sym)
            case ParamRange => FirstMatch(run[i].table, name) == None
            case FetchFailed => steps[i].Fetch?
            case Loaded => false
  {
    EveryRun(run, steps, i);
    if run[i].built && NameOf(run[i], steps[i]).Some? && AnswerOf(run[i], steps[i]).Some? {
      AnswerExact(run[i], steps[i]);
    }
  }

  /** Each time round its loop a call asks for a later symbol, even when another thread did the append,
      so total_count - idx strictly falls. */
  lemma LoopsAdvance(run: seq<State>, steps: seq<Step>, i: nat)
    requires IsRun(run, steps) && i < |steps| && steps[i].Resume?
    ensures var t := steps[i].t;
            var before := run[i].tasks[t];
            t in run[i + 1].tasks ==>
              run[i + 1].tasks[t].Asking? && before.idx < run[i + 1].tasks[t].idx < run[i + 1].cache.total
  {
    EveryRun(run, steps, i);
    assert TaskOk(run[i], run[i].tasks[steps[i].t]);
  }

  /** At most one call is in progress. */
  ghost predicate Alone(s: State) {
    forall t, u :: t in s.tasks && u in s.tasks ==> t == u
  }

  ghost predicate AnyHolding(s: State) {
    exists t :: t in s.tasks && s.tasks[t].Holding?
  }

  ghost predicate Counted(s: State) {
    && s.fetched == |s.cache.known| + (if AnyHolding(s) then 1 else 0)
    && forall t :: t in s.tasks ==> s.tasks[t].idx == |s.cache.known|
  }

  lemma SequentialStep(s: State, st: Step)
    requires Inv(s) && Can(s, st) && (st.Build? ==> s.tasks == map[]) && Counted(s)
    requires Alone(s) && Alone(Do(s, st))
    ensures Counted(Do(s, st))
  {
    var s' := Do(s, st);
    match st
    case Start(t, name) =>
      if t in s'.tasks {
        assert forall u :: u in s.tasks ==> u in s'.tasks && u != t;
        assert !AnyHolding(s) && !AnyHolding(s');
      } else {
        assert s'.tasks == s.tasks;
      }
    case Fetch(t, ok) =>
      assert TaskOk(s, s.tasks[t]);
      assert !AnyHolding(s);
      assert ok ==> s'.tasks[t].Holding?;
    case Resume(t) =>
      assert TaskOk(s, s.tasks[t]);
      assert s.tasks[t].Holding? && AnyHolding(s);
      assert !AnyHolding(s');
    case Build(_) =>
  }

  /** With one call at a time, all the fetches since a build together are at most total_count. */
  lemma {:induction false} SequentialFetches(run: seq<State>, steps: seq<Step>, i: nat)
    requires IsRun(run, steps) && i < |run|
    requires forall j :: 0 <= j <= i ==> Alone(run[j])
    ensures Counted(run[i]) && run[i].fetched <= run[i].cache.total
  {
    EveryRun(run, steps, i);
    if i > 0 {
      SequentialFetches(run, steps, i - 1);
      EveryRun(run, steps, i - 1);
      SequentialStep(run[i - 1], steps[i - 1]);
    }
    if AnyHolding(run[i]) {
      var t :| t in run[i].tasks && run[i].tasks[t].Holding?;
      assert TaskOk(run[i], run[i].tasks[t]);
    }
  }

  // ---------------------------------------------------------------- updated in place

  const BLANK := Symbol("", 0)

  class SymbolCache {
    var symbols: array<Symbol>
    var knownCount: nat
    var totalCount: nat

    ghost predicate Valid()
      reads this, symbols
    {
      knownCount <= symbols.Length
    }

    ghost function View(): Cache
      reads this, symbols
      requires Valid()
    {
      Cache(symbols[..knownCount], symbols.Length, totalCount)
    }

    constructor ()
      ensures Valid() && View() == EMPTY
    {
      symbols := new Symbol[0];
      knownCount, totalCount := 0, 0;
    }

    /** bp_tag_cache_reset_after_build. */
    method Reset(total: nat)
      modifies this
      ensures Valid() && fresh(symbols) && View() == Cache([], total, total)
    {
      symbols := new Symbol[total](i => BLANK);
      knownCount := 0;
      totalCount := total;
    }

    method Scan(from: nat, name: string) returns (r: Option<Symbol>)
      requires Valid() && from <= knownCount
      ensures r == ScanFrom(View().known, from, name)
    {
      var i := from;
      while i < knownCount
        invariant from <= i <= knownCount
        invariant ScanFrom(View().known, from, name) == ScanFrom(View().known, i, name)
      {
        if symbols[i].name == name {
          return Some(symbols[i]);
        }
        i := i + 1;
      }
      return None;
    }

    /** The section bp_tagdb_lookup_symbol runs each time it gets the lock back with a symbol. */
    method Resume(idx: nat, sym: Symbol, name: string) returns (o: Outcome)
      requires Valid() && idx <= knownCount
      modifies this, symbols
      ensures Valid() && symbols == old(symbols)
      ensures (View(), o) == ResumeLookup(old(View()), idx, sym, name)
    {
      if idx == knownCount && knownCount < symbols.Length {
        symbols[knownCount] := sym;
        knownCount := knownCount + 1;
      }
      assert View() == Admit(old(View()), idx, sym);
      var hit := Scan(idx, name);
      if hit.Some? {
        return Done(Found(hit.value));
      }
      return if knownCount < totalCount then Ask(knownCount) else Done(ParamRange);
    }

    /** bp_tagdb_lookup_symbol from end to end with nobody else using the cache: it terminates, answers
        what a plain search answers, and asks only for symbols the cache does not have yet. */
    method Lookup(name: string, table: seq<Symbol>, reachable: seq<bool>) returns (a: Answer, fetches: nat)
      requires Valid() && View().known <= table && |reachable| == |table|
      requires symbols.Length == totalCount == |table|
      modifies this, symbols
      ensures Valid() && View().known <= table && symbols == old(symbols) && totalCount == old(totalCount)
      ensures a.Found? ==> FirstMatch(table, name) == Some(a.sym)
      ensures a.ParamRange? ==> FirstMatch(table, name) == None
      ensures a.FetchFailed? ==> exists i :: 0 <= i < |reachable| && !reachable[i]
      ensures !a.Loaded? && knownCount == old(knownCount) + fetches
    {
      fetches := 0;
      if symbols.Length == 0 {
        return ParamRange, fetches;
      }
      var hit := Scan(0, name);
      if hit.Some? {
        MatchInPrefix(table, View().known, 0, name);
        return Found(hit.value), fetches;
      }
      while knownCount < totalCount
        invariant Valid() && View().known <= table && symbols == old(symbols) && totalCount == old(totalCount)
        invariant knownCount <= totalCount && knownCount == old(knownCount) + fetches
        invariant Absent(table, 0, knownCount, name)
        decreases totalCount - knownCount
      {
        var idx := knownCount;
        if !reachable[idx] {
          return FetchFailed, fetches;
        }
        var o := Resume(idx, table[idx], name);
        fetches := fetches + 1;
        assert View().known <= table;
        if o.Done? && o.a.Found? {
          MatchInPrefix(table, View().known, idx, name);
          return o.a, fetches;
        }
      }
      FirstMatchAt(table, name, knownCount);
      return ParamRange, fetches;
    }
  }

  lemma MatchInPrefix(table: seq<Symbol>, known: seq<Symbol>, from: nat, name: string)
    requires known <= table && from <= |known| && Absent(table, 0, from, name)
    ensures ScanFrom(known, from, name).Some? ==> FirstMatch(table, name) == ScanFrom(known, from, name)
  {
    if ScanFrom(known, from, name).Some? {
      var i :| from <= i < |known| && ScanFrom(known, from, name).value == known[i] && known[i].name == name
               && forall j :: from <= j < i ==> known[j].name != name;
      FirstMatchAt(table, name, i);
    }
  }
}
