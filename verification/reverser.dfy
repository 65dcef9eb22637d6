/**
 * The reverse engineer's test-suite loop: one exploration batch, and after each of its
 * queries one follow-up batch; every query is searched, its sample stored, and the
 * strategy told about the response. The search endpoint, the clock and the random draws
 * come from an environment record.
 */
module Reverser {
  import opened Wrappers
  import opened Text
  import opened Responses
  import opened Samples
  import opened Aggregate
  import opened Catalog
  import opened Classify
  import opened Adaptive
  import opened Generation

  /**
   * The outside world: the endpoint (an empty list on any failure), the clock and the
   * timer read at the n-th search, and the draws of the n-th generation call.
   */
  datatype Env = Env(search: string -> seq<Hit>, stamp: nat -> real, timing: nat -> real, draws: nat -> Draws)

  ghost predicate EnvAdequate(env: Env) {
    forall n: nat :: Adequate(env.draws(n))
  }

  datatype Engineer = Engineer(database: Db, strategy: Strategy)

  /** A freshly constructed engineer: no samples and a fresh strategy. */
  function Fresh(): Engineer {
    Engineer([], Init())
  }

  /** What the loop does, in order: a generation call with the size of its batch, a sample stored, a response analysed. */
  datatype Event = Generated(size: nat) | Stored(query: string) | Analyzed(query: string)

  /** The loop's state: the engineer, the local results map, the searches so far, the generation calls so far, the event log. */
  datatype Run = Run(eng: Engineer, local: Db, issued: seq<string>, generations: nat, trace: seq<Event>)

  /** The merged record `run_test_suite` returns: the hypothesis plus the learning status. */
  datatype Report = Report(hypothesis: Hypothesis, learningStatus: Status)

  /** The query texts of a batch, in batch order. */
  function Queries(ps: seq<Probe>): (qs: seq<string>)
    ensures |qs| == |ps| && forall i :: 0 <= i < |ps| ==> qs[i] == ps[i].query
  {
    if |ps| == 0 then [] else [ps[0].query] + Queries(ps[1..])
  }

  /**
   * One search: ask the endpoint, store the sample in the database and under the same key
   * in the local map, then let the strategy learn from the response. The strategy's
   * KeyError for a query naming no catalog domain ends the whole run.
   */
  function Issue(r: Run, env: Env, q: string): (r': Result<Run, Fault>)
    ensures r'.Success? ==>
      && r'.value.issued == r.issued + [q]
      && r'.value.generations == r.generations
      && r'.value.trace == r.trace + [Stored(q), Analyzed(q)]
      && Keys(r'.value.local) == Keys(r.local) + {q}
      && Keys(r'.value.eng.database) == Keys(r.eng.database) + {q}
      && Lookup(r'.value.local, q).Some? && Lookup(r'.value.local, q).value.results == env.search(q)
      && (r.local == r.eng.database ==> r'.value.local == r'.value.eng.database)
    ensures WeightsInRange(r.eng.strategy.weights) ==> (r'.Success? <==> IdentifyDomain(q).Some?)
  {
    var k := |r.issued|;
    var results := env.search(q);
    var collected := CollectSample(r.eng.database, q, results, env.stamp(k), env.timing(k));
    var s :- AnalyzeResponse(r.eng.strategy, q, results);
    Success(Run(Engineer(collected.1, s), Put(r.local, q, collected.0), r.issued + [q], r.generations,
      r.trace + [Stored(q), Analyzed(q)]))
  }

  /** The searches of one batch, in batch order. */
  function IssueAll(r: Run, env: Env, ps: seq<Probe>): Result<Run, Fault>
    decreases |ps|
  {
    if |ps| == 0 then Success(r)
    else
      var r1 :- Issue(r, env, ps[0].query);
      IssueAll(r1, env, ps[1..])
  }

  /** `generate_next_queries` with the next draws, logged, followed by the searches of its batch. */
  function Step(r: Run, env: Env): Result<Run, Fault>
    requires EnvAdequate(env)
  {
    var g :- Generate(r.eng.strategy, env.draws(r.generations));
    Continue(r, env, g.0, g.1)
  }

  /** The rest of a step once `generate_next_queries` has returned `batch` and moved the strategy to `s`. */
  function Continue(r: Run, env: Env, batch: seq<Probe>, s: Strategy): Result<Run, Fault> {
    IssueAll(Logging(r, batch, s), env, batch)
  }

  /** The state just after a generation call: the new strategy, one more generation, the call logged. */
  function Logging(r: Run, batch: seq<Probe>, s: Strategy): Run {
    Run(r.eng.(strategy := s), r.local, r.issued, r.generations + 1, r.trace + [Generated(|batch|)])
  }

  /** The outer loop: each initial test is searched, then a follow-up batch is generated and searched. */
  function Outer(r: Run, env: Env, tests: seq<Probe>): Result<Run, Fault>
    requires EnvAdequate(env)
    decreases |tests|
  {
    if |tests| == 0 then Success(r)
    else
      var r' :- Round(r, env, tests[0].query);
      Outer(r', env, tests[1..])
  }

  /** One outer iteration: search the test query, then generate and search a follow-up batch. */
  function Round(r: Run, env: Env, q: string): Result<Run, Fault>
    requires EnvAdequate(env)
  {
    var r1 :- Issue(r, env, q);
    Step(r1, env)
  }

  /** Before anything happens: no local results, no searches, no generation calls, an empty log. */
  function Begin(eng: Engineer): Run {
    Run(eng, [], [], 0, [])
  }

  /** The whole loop of `run_test_suite`, starting from an empty local map. */
  function Suite(eng: Engineer, env: Env): Result<Run, Fault>
    requires EnvAdequate(env)
  {
    var g :- Generate(eng.strategy, env.draws(0));
    Outer(Logging(Begin(eng), g.0, g.1), env, g.0)
  }

  /** `run_test_suite`: the loop, then the hypothesis over the local map and the learning status. */
  function RunTestSuite(eng: Engineer, env: Env): Result<(Report, Engineer), Fault>
    requires EnvAdequate(env)
  {
    var r :- Suite(eng, env);
    Success((Report(GenerateHypothesis(r.local), LearningStatus(r.eng.strategy)), r.eng))
  }

  // The event log

  /** The stored queries, in log order. */
  function StoredQueries(t: seq<Event>): seq<string> {
    if |t| == 0 then [] else (if t[0].Stored? then [t[0].query] else []) + StoredQueries(t[1..])
  }

  function CountGenerated(t: seq<Event>): nat {
    if |t| == 0 then 0 else (if t[0].Generated? then 1 else 0) + CountGenerated(t[1..])
  }

  /** Every stored sample is analysed next, and nothing is analysed that was not stored just before. */
  predicate Paired(t: seq<Event>) {
    && (forall i :: 0 <= i < |t| && t[i].Stored? ==> i + 1 < |t| && t[i + 1] == Analyzed(t[i].query))
    && (forall i :: 0 <= i < |t| && t[i].Analyzed? ==> 0 < i && t[i - 1] == Stored(t[i].query))
  }

  lemma {:induction false} StoredQueriesAppend(a: seq<Event>, b: seq<Event>)
    ensures StoredQueries(a + b) == StoredQueries(a) + StoredQueries(b)
    decreases |a|
  {
    if |a| == 0 {
      assert a + b == b;
    } else {
      assert (a + b)[0] == a[0] && (a + b)[1..] == a[1..] + b;
      StoredQueriesAppend(a[1..], b);
    }
  }

  lemma {:induction false} CountGeneratedAppend(a: seq<Event>, b: seq<Event>)
    ensures CountGenerated(a + b) == CountGenerated(a) + CountGenerated(b)
    decreases |a|
  {
    if |a| == 0 {
      assert a + b == b;
    } else {
      assert (a + b)[0] == a[0] && (a + b)[1..] == a[1..] + b;
      CountGeneratedAppend(a[1..], b);
    }
  }

  /** The log records exactly the searches made and the generation calls counted, each search as a stored-analysed pair. */
  predicate TraceAgrees(trace: seq<Event>, issued: seq<string>, generations: nat) {
    && StoredQueries(trace) == issued
    && CountGenerated(trace) == generations
    && Paired(trace)
  }

  /** The local map holds exactly the searched queries, and the database holds at least those. */
  predicate KeysAgree(local: Db, database: Db, issued: seq<string>) {
    Keys(local) == Elements(issued) && Keys(local) <= Keys(database)
  }

  predicate Logged(r: Run) {
    TraceAgrees(r.trace, r.issued, r.generations) && KeysAgree(r.local, r.eng.database, r.issued)
  }

  /** What the loop keeps true of its own state. */
  predicate Inv(r: Run) {
    Valid(r.eng.strategy) && Logged(r)
  }

  /** Logging one search keeps the log in step with the run. */
  lemma {:induction false} LogSearch(t: seq<Event>, q: string)
    requires Paired(t)
    ensures Paired(t + [Stored(q), Analyzed(q)])
    ensures StoredQueries(t + [Stored(q), Analyzed(q)]) == StoredQueries(t) + [q]
    ensures CountGenerated(t + [Stored(q), Analyzed(q)]) == CountGenerated(t)
  {
    var e := [Stored(q), Analyzed(q)];
    StoredQueriesAppend(t, e);
    CountGeneratedAppend(t, e);
    assert e[1..] == [Analyzed(q)] && e[1..][1..] == [];
    assert StoredQueries(e[1..][1..]) == [] && CountGenerated(e[1..][1..]) == 0;
    assert StoredQueries(e[1..]) == [] && CountGenerated(e[1..]) == 0;
    assert StoredQueries(e) == [q];
    if |t| > 0 {
      assert !t[|t| - 1].Stored?;
    }
  }

  /** Logging a generation call keeps the log in step with the run. */
  lemma {:induction false} LogGeneration(t: seq<Event>, n: nat)
    requires Paired(t)
    ensures Paired(t + [Generated(n)])
    ensures StoredQueries(t + [Generated(n)]) == StoredQueries(t)
    ensures CountGenerated(t + [Generated(n)]) == CountGenerated(t) + 1
  {
    StoredQueriesAppend(t, [Generated(n)]);
    CountGeneratedAppend(t, [Generated(n)]);
    PairedThenGenerated(t, n);
  }

  /** A generation event after a paired log leaves it paired: nothing stored is left waiting for it. */
  lemma {:induction false} PairedThenGenerated(t: seq<Event>, n: nat)
    requires Paired(t)
    ensures Paired(t + [Generated(n)])
  {
    var u := t + [Generated(n)];
    forall i | 0 <= i < |u| && u[i].Stored? ensures i + 1 < |u| && u[i + 1] == Analyzed(u[i].query) {
      assert i < |t| && u[i] == t[i];
      assert i + 1 < |t| && u[i + 1] == t[i + 1];
    }
    forall i | 0 <= i < |u| && u[i].Analyzed? ensures 0 < i && u[i - 1] == Stored(u[i].query) {
      assert i < |t| && u[i] == t[i];
      assert 0 < i && u[i - 1] == t[i - 1];
    }
  }

  /** A successful search keeps the strategy valid and leaves its phase machine alone. */
  lemma {:induction false} IssueKeepsValid(r: Run, env: Env, q: string)
    requires Valid(r.eng.strategy)
    requires Issue(r, env, q).Success?
    ensures var s' := Issue(r, env, q).value.eng.strategy;
      Valid(s') && s'.phase == r.eng.strategy.phase && s'.rounds == r.eng.strategy.rounds
  {
    AnalyzeResponseKeepsValid(r.eng.strategy, q, env.search(q));
  }

  /** A successful search is logged as a stored and an analysed event and its query becomes a key. */
  lemma {:induction false} IssueKeepsLog(r: Run, env: Env, q: string)
    requires Logged(r)
    requires Issue(r, env, q).Success?
    ensures Logged(Issue(r, env, q).value)
  {
    var r' := Issue(r, env, q).value;
    LogSearch(r.trace, q);
    assert TraceAgrees(r'.trace, r'.issued, r'.generations);
    SearchedKeys(r.local, r.eng.database, r.issued, r'.local, r'.eng.database, q);
  }

  lemma {:induction false} SearchedKeys(local: Db, database: Db, issued: seq<string>, local': Db, database': Db, q: string)
    requires KeysAgree(local, database, issued)
    requires Keys(local') == Keys(local) + {q} && Keys(database') == Keys(database) + {q}
    ensures KeysAgree(local', database', issued + [q])
  {
    assert Elements(issued + [q]) == Elements(issued) + {q};
  }

  /** A successful search keeps the invariant. */
  lemma {:induction false} IssueKeepsInv(r: Run, env: Env, q: string)
    requires Inv(r)
    requires Issue(r, env, q).Success?
    ensures Inv(Issue(r, env, q).value)
    ensures var s' := Issue(r, env, q).value.eng.strategy;
      s'.phase == r.eng.strategy.phase && s'.rounds == r.eng.strategy.rounds
  {
    IssueKeepsValid(r, env, q);
    IssueKeepsLog(r, env, q);
  }

  /** The searches of a batch keep the invariant and leave the phase machine and the generation count alone. */
  lemma {:induction false} IssueAllKeepsInv(r: Run, env: Env, ps: seq<Probe>)
    requires Inv(r)
    requires IssueAll(r, env, ps).Success?
    ensures var r' := IssueAll(r, env, ps).value;
      && Inv(r')
      && r'.generations == r.generations
      && r'.eng.strategy.phase == r.eng.strategy.phase && r'.eng.strategy.rounds == r.eng.strategy.rounds
    decreases |ps|
  {
    if |ps| > 0 {
      var r1 := Issue(r, env, ps[0].query).value;
      IssueKeepsInv(r, env, ps[0].query);
      IssueAllKeepsInv(r1, env, ps[1..]);
    }
  }

  /** The searches of a batch are its queries, in batch order. */
  lemma {:induction false} IssueAllAppends(r: Run, env: Env, ps: seq<Probe>)
    requires IssueAll(r, env, ps).Success?
    ensures IssueAll(r, env, ps).value.issued == r.issued + Queries(ps)
    decreases |ps|
  {
    if |ps| > 0 {
      var r1 := Issue(r, env, ps[0].query).value;
      IssueAllAppends(r1, env, ps[1..]);
      QueriesCons(r.issued, ps);
    }
  }

  lemma {:induction false} QueriesCons(pre: seq<string>, ps: seq<Probe>)
    requires |ps| > 0
    ensures pre + Queries(ps) == (pre + [ps[0].query]) + Queries(ps[1..])
  {
  }

  /** When the local map starts as a copy of the database, the searches of a batch keep it one. */
  lemma {:induction false} IssueAllMirrors(r: Run, env: Env, ps: seq<Probe>)
    requires r.local == r.eng.database
    requires IssueAll(r, env, ps).Success?
    ensures IssueAll(r, env, ps).value.local == IssueAll(r, env, ps).value.eng.database
    decreases |ps|
  {
    if |ps| > 0 {
      IssueAllMirrors(Issue(r, env, ps[0].query).value, env, ps[1..]);
    }
  }

  /** A logged generation call keeps the log and the maps in step. */
  lemma {:induction false} LoggingKeepsLogged(r: Run, batch: seq<Probe>, s: Strategy)
    requires Logged(r)
    ensures Logged(Logging(r, batch, s))
  {
    LogGeneration(r.trace, |batch|);
  }

  /** Searching a generated batch keeps the invariant, counts one generation, and lands on the new strategy's round. */
  lemma {:induction false} ContinueKeepsInv(r: Run, env: Env, batch: seq<Probe>, s: Strategy)
    requires Logged(r) && Valid(s)
    requires Continue(r, env, batch, s).Success?
    ensures var r' := Continue(r, env, batch, s).value;
      Inv(r') && r'.generations == r.generations + 1 && r'.eng.strategy.rounds == s.rounds
  {
    LoggingKeepsLogged(r, batch, s);
    IssueAllKeepsInv(Logging(r, batch, s), env, batch);
  }

  /** Searching a generated batch makes one search per query of the batch. */
  lemma {:induction false} ContinueSearchesBatch(r: Run, env: Env, batch: seq<Probe>, s: Strategy)
    requires Continue(r, env, batch, s).Success?
    ensures Continue(r, env, batch, s).value.issued == r.issued + Queries(batch)
  {
    IssueAllAppends(Logging(r, batch, s), env, batch);
  }

  /** Searching a generated batch keeps the local map a copy of the database when it was one. */
  lemma {:induction false} ContinueMirrors(r: Run, env: Env, batch: seq<Probe>, s: Strategy)
    requires r.local == r.eng.database
    requires Continue(r, env, batch, s).Success?
    ensures Continue(r, env, batch, s).value.local == Continue(r, env, batch, s).value.eng.database
  {
    IssueAllMirrors(Logging(r, batch, s), env, batch);
  }

  /**
   * A step before optimisation keeps the invariant, counts one generation and one round,
   * and searches three domain queries below three rounds, one or two pattern queries from
   * three to five.
   */
  lemma {:induction false} StepKeepsInv(r: Run, env: Env)
    requires EnvAdequate(env) && Inv(r)
    requires r.eng.strategy.rounds < 2 * MaxExplorationRounds
    requires Step(r, env).Success?
    ensures var r' := Step(r, env).value;
      && Inv(r') && r'.generations == r.generations + 1 && r'.eng.strategy.rounds == r.eng.strategy.rounds + 1
      && (var n := |r'.issued| - |r.issued|;
          if r.eng.strategy.rounds < MaxExplorationRounds then n == QueriesPerRound else 1 <= n <= SampleSize)
      && (r.local == r.eng.database ==> r'.local == r'.eng.database)
  {
    var dr := env.draws(r.generations);
    var g := Generate(r.eng.strategy, dr).value;
    GenerateKeepsValid(r.eng.strategy, dr);
    if r.eng.strategy.rounds >= MaxExplorationRounds {
      PatternBatchSize(r.eng.strategy, dr);
    }
    ContinueKeepsInv(r, env, g.0, g.1);
    ContinueSearchesBatch(r, env, g.0, g.1);
    if r.local == r.eng.database {
      ContinueMirrors(r, env, g.0, g.1);
    }
  }

  /** The fewest searches `k` outer iterations starting at round `rounds` make: the test itself and the smallest batch. */
  function MinSearches(rounds: nat, k: nat): nat
    decreases k
  {
    if k == 0 then 0
    else 1 + (if rounds < MaxExplorationRounds then QueriesPerRound else 1) + MinSearches(rounds + 1, k - 1)
  }

  /** The most searches `k` outer iterations starting at round `rounds` make. */
  function MaxSearches(rounds: nat, k: nat): nat
    decreases k
  {
    if k == 0 then 0
    else 1 + (if rounds < MaxExplorationRounds then QueriesPerRound else SampleSize) + MaxSearches(rounds + 1, k - 1)
  }

  /**
   * One outer iteration before optimisation keeps the invariant, makes one generation call
   * and one round, and searches the test plus three domain queries below three rounds, or
   * plus one or two pattern queries from three to five.
   */
  lemma {:induction false} RoundKeepsInv(r: Run, env: Env, q: string)
    requires EnvAdequate(env) && Inv(r)
    requires r.eng.strategy.rounds < 2 * MaxExplorationRounds
    requires Round(r, env, q).Success?
    ensures var r' := Round(r, env, q).value;
      && Inv(r') && r'.generations == r.generations + 1 && r'.eng.strategy.rounds == r.eng.strategy.rounds + 1
      && (var n := |r'.issued| - |r.issued|;
          if r.eng.strategy.rounds < MaxExplorationRounds then n == 1 + QueriesPerRound else 2 <= n <= 1 + SampleSize)
      && (r.local == r.eng.database ==> r'.local == r'.eng.database)
  {
    IssueKeepsInv(r, env, q);
    StepKeepsInv(Issue(r, env, q).value, env);
  }

  /** The searches of one iteration at round `rounds` plus those of the next `k - 1` stay within the bounds for `k`. */
  lemma {:induction false} SearchBoundsStep(rounds: nat, k: nat, next: nat, left: nat, first: int, rest: int)
    requires next == rounds + 1 && k == left + 1
    requires if rounds < MaxExplorationRounds then first == 1 + QueriesPerRound else 2 <= first <= 1 + SampleSize
    requires MinSearches(next, left) <= rest <= MaxSearches(next, left)
    ensures MinSearches(rounds, k) <= first + rest <= MaxSearches(rounds, k)
  {
  }

  /**
   * The outer loop over `tests`, as long as it ends before optimisation, keeps the
   * invariant and makes one generation call and one round per test.
   */
  lemma {:induction false} OuterKeepsInv(r: Run, env: Env, tests: seq<Probe>)
    requires EnvAdequate(env) && Inv(r)
    requires r.eng.strategy.rounds + |tests| <= 2 * MaxExplorationRounds
    requires Outer(r, env, tests).Success?
    ensures var r' := Outer(r, env, tests).value;
      && Inv(r')
      && r'.generations == r.generations + |tests|
      && r'.eng.strategy.rounds == r.eng.strategy.rounds + |tests|
      && (r.local == r.eng.database ==> r'.local == r'.eng.database)
    decreases |tests|
  {
    if |tests| > 0 {
      RoundKeepsInv(r, env, tests[0].query);
      OuterKeepsInv(Round(r, env, tests[0].query).value, env, tests[1..]);
    }
  }

  /** The outer loop over `tests` searches between the least and the most the phases allow. */
  lemma {:induction false} OuterSearches(r: Run, env: Env, tests: seq<Probe>)
    requires EnvAdequate(env) && Inv(r)
    requires r.eng.strategy.rounds + |tests| <= 2 * MaxExplorationRounds
    requires Outer(r, env, tests).Success?
    ensures var n := |Outer(r, env, tests).value.issued| - |r.issued|;
      MinSearches(r.eng.strategy.rounds, |tests|) <= n <= MaxSearches(r.eng.strategy.rounds, |tests|)
    decreases |tests|
  {
    if |tests| > 0 {
      var r1 := Round(r, env, tests[0].query).value;
      RoundKeepsInv(r, env, tests[0].query);
      OuterSearches(r1, env, tests[1..]);
      var r' := Outer(r, env, tests).value;
      assert r' == Outer(r1, env, tests[1..]).value;
      SearchBoundsStep(r.eng.strategy.rounds, |tests|, r1.eng.strategy.rounds, |tests[1..]|,
        |r1.issued| - |r.issued|, |r'.issued| - |r1.issued|);
    }
  }

  /**
   * From a valid strategy at round 0, a run that completes makes four generation calls
   * (the initial one and one per initial test), ends in pattern exploration at round 4,
   * and searches ten or eleven queries: three tests with three domain queries after each
   * of the first two and one or two pattern queries after the third. Its log pairs each
   * stored sample with its analysis, the local map holds exactly the searched queries, and
   * from an empty database the local map and the database end up the same.
   */
  lemma {:induction false} SuiteOutcome(eng: Engineer, env: Env)
    requires EnvAdequate(env) && Valid(eng.strategy) && eng.strategy.rounds == 0
    requires Suite(eng, env).Success?
    ensures var r := Suite(eng, env).value;
      && r.generations == 1 + QueriesPerRound
      && r.eng.strategy.phase == PatternExploration && r.eng.strategy.rounds == 1 + QueriesPerRound
      && 10 <= |r.issued| <= 11
      && Valid(r.eng.strategy)
      && StoredQueries(r.trace) == r.issued && CountGenerated(r.trace) == r.generations && Paired(r.trace)
      && Keys(r.local) == Elements(r.issued)
      && (eng.database == [] ==> r.local == r.eng.database)
  {
    var g := Generate(eng.strategy, env.draws(0)).value;
    GenerateKeepsValid(eng.strategy, env.draws(0));
    LoggingKeepsLogged(Begin(eng), g.0, g.1);
    var start := Logging(Begin(eng), g.0, g.1);
    OuterKeepsInv(start, env, g.0);
    OuterSearches(start, env, g.0);
    assert MinSearches(1, 3) == 10 && MaxSearches(1, 3) == 11;
  }

  /**
   * What a completed run from round 0 reports: confidence 0.6 (there is always at least
   * one stored sample), phase "pattern_exploration", progress "4/3", and the engineer the
   * loop finished with.
   */
  lemma {:induction false} SuiteReport(eng: Engineer, env: Env)
    requires EnvAdequate(env) && Valid(eng.strategy) && eng.strategy.rounds == 0
    requires RunTestSuite(eng, env).Success?
    ensures var out := RunTestSuite(eng, env).value;
      && out.0.hypothesis.confidenceScore == 0.6
      && out.0.hypothesis.likelyAlgorithm in AlgorithmLabels
      && out.0.learningStatus.phase == "pattern_exploration"
      && out.0.learningStatus.progress == "4/3"
      && out.1 == Suite(eng, env).value.eng
  {
    var r := Suite(eng, env).value;
    SuiteOutcome(eng, env);
    ReportOfRound4(r);
  }

  /** The report over a run that searched something and stopped in pattern exploration at round 4. */
  lemma {:induction false} ReportOfRound4(r: Run)
    requires |r.issued| > 0 && Keys(r.local) == Elements(r.issued)
    requires r.eng.strategy.phase == PatternExploration && r.eng.strategy.rounds == 1 + QueriesPerRound
    ensures GenerateHypothesis(r.local).confidenceScore == 0.6
    ensures LearningStatus(r.eng.strategy).phase == "pattern_exploration"
    ensures LearningStatus(r.eng.strategy).progress == "4/3"
  {
    assert r.issued[0] in Keys(r.local);
    assert NatToString(4) == "4" && NatToString(3) == "3";
  }

  /** A freshly constructed engineer meets the conditions above, so a completed run from it reports the same. */
  lemma {:induction false} FreshSuiteReport(env: Env)
    requires EnvAdequate(env)
    requires RunTestSuite(Fresh(), env).Success?
    ensures var r := Suite(Fresh(), env).value;
      && r.local == r.eng.database && 10 <= |r.issued| <= 11
      && RunTestSuite(Fresh(), env).value.0.hypothesis.confidenceScore == 0.6
  {
    SuiteOutcome(Fresh(), env);
    SuiteReport(Fresh(), env);
  }

  /** A run stops with the strategy's KeyError as soon as an initial test names no catalog domain: the first one, say. */
  lemma {:induction false} SuiteStopsOnUnknownDomain(eng: Engineer, env: Env)
    requires EnvAdequate(env) && Valid(eng.strategy) && eng.strategy.phase != Optimization
    requires var tests := Generate(eng.strategy, env.draws(0)).value.0;
      |tests| > 0 && IdentifyDomain(tests[0].query).None?
    ensures Suite(eng, env).Failure?
  {
    var g := Generate(eng.strategy, env.draws(0)).value;
    var start := Logging(Begin(eng), g.0, g.1);
    assert Issue(start, env, g.0[0].query).Failure?;
  }
}
