/**
 * The learning state of the adaptive query strategy and its update after each search:
 * per-category success counters, effective and ineffective terms, the append-only lists
 * of successful categories and pattern labels, the set of successful domains and the
 * per-domain weights clamped to [0.1, 2.0].
 *
 * The update is the Python method with its instance mutation made explicit: it maps a
 * state, a query and the query's results to the next state. The method ends with a
 * lookup of the identified domain in the weight table; a query that matches no catalog
 * domain is labelled "general", which has no weight, and the lookup raises `KeyError`.
 * That outcome is `Failure(KeyError("general"))` here. The exception escapes the
 * profiling run, so the partially updated state it leaves behind is never read again
 * and the model does not keep it.
 */
module Adaptive {
  import opened Wrappers
  import opened Text
  import opened Catalog
  import opened Classify
  import opened Responses

  datatype Counts = Counts(success: nat, total: nat)

  datatype Phase = DomainExploration | PatternExploration | Optimization

  datatype Learned = Learned(
    effectiveTerms: set<string>,
    ineffectiveTerms: set<string>,
    optimalQueryLength: real,
    bestCategories: seq<string>,
    successfulDomains: set<Domain>,
    successfulPatterns: seq<string>)

  datatype Strategy = Strategy(
    rates: map<string, Counts>,
    learned: Learned,
    phase: Phase,
    rounds: nat,
    weights: map<Domain, real>)

  /** The Python `KeyError` raised by a dictionary lookup, with the missing key. */
  datatype Fault = KeyError(key: string)

  const MaxExplorationRounds: nat := 3
  const MinWeight: real := 0.1
  const MaxWeight: real := 2.0
  const InitialWeight: real := 1.0
  /** A result scoring above this marks the whole query as effective. */
  const HighScore: real := 0.7

  function AllDomains(): set<Domain> {
    set d | d in Domains
  }

  predicate WeightsInRange(w: map<Domain, real>) {
    && w.Keys == AllDomains()
    && forall d :: d in w ==> MinWeight <= w[d] <= MaxWeight
  }

  predicate RatesConsistent(rates: map<string, Counts>) {
    forall c :: c in rates ==> c in CategoryLabels && rates[c].success <= rates[c].total
  }

  /** The round counter pins the phase: below 3 explores domains, 3 to 5 explores patterns, 6 optimises. */
  predicate PhaseConsistent(phase: Phase, rounds: nat) {
    match phase
    case DomainExploration => rounds < MaxExplorationRounds
    case PatternExploration => MaxExplorationRounds <= rounds < 2 * MaxExplorationRounds
    case Optimization => rounds == 2 * MaxExplorationRounds
  }

  predicate LearnedConsistent(l: Learned) {
    && Distinct(l.bestCategories)
    && (forall i :: 0 <= i < |l.bestCategories| ==> l.bestCategories[i] in CategoryLabels)
    && Distinct(l.successfulPatterns)
    && (forall i :: 0 <= i < |l.successfulPatterns| ==> l.successfulPatterns[i] in ShapeLabels)
    && l.optimalQueryLength >= 0.0
  }

  /** What every state reachable from `Init` satisfies. */
  predicate Valid(s: Strategy) {
    && WeightsInRange(s.weights)
    && RatesConsistent(s.rates)
    && LearnedConsistent(s.learned)
    && PhaseConsistent(s.phase, s.rounds)
  }

  /** The state of a freshly constructed strategy: every domain weighs 1.0. */
  function Init(): (s: Strategy)
    ensures Valid(s)
    ensures s.phase == DomainExploration && s.rounds == 0
    ensures forall d :: d in s.weights ==> s.weights[d] == InitialWeight
  {
    Strategy(
      map[],
      Learned({}, {}, 0.0, [], {}, []),
      DomainExploration,
      0,
      map d | d in AllDomains() :: InitialWeight)
  }

  /** The `defaultdict` read: a category never seen counts zero of zero. */
  function RateOf(rates: map<string, Counts>, c: string): Counts {
    if c in rates then rates[c] else Counts(0, 0)
  }

  /** Counts one more query of category `c`, and one more success if it succeeded. */
  function Tally(rates: map<string, Counts>, c: string, success: bool): (r: map<string, Counts>)
    ensures RateOf(r, c).total == RateOf(rates, c).total + 1
    ensures RateOf(r, c).success == RateOf(rates, c).success + (if success then 1 else 0)
    ensures forall other :: other != c ==> RateOf(r, other) == RateOf(rates, other)
    ensures r.Keys == rates.Keys + {c}
  {
    var was := RateOf(rates, c);
    rates[c := Counts(was.success + (if success then 1 else 0), was.total + 1)]
  }

  predicate IsHigh(h: Hit) {
    ScoreOrZero(h) > HighScore
  }

  predicate AnyHigh(hits: seq<Hit>) {
    exists i :: 0 <= i < |hits| && IsHigh(hits[i])
  }

  /** The lowercased whitespace tokens of a result title. */
  function TitleTerms(h: Hit): set<string> {
    set w | w in Words(Lower(h.title))
  }

  /** The query terms that occur in some result title: the union of the per-result intersections. */
  function MatchedTitleTerms(hits: seq<Hit>, queryTerms: set<string>): set<string> {
    if |hits| == 0 then {} else (TitleTerms(hits[0]) * queryTerms) + MatchedTitleTerms(hits[1..], queryTerms)
  }

  /**
   * The loop over the results of a successful query: each result adds the query terms its
   * title shares, and a result scoring above 0.7 adds every query term and records the
   * query's pattern label once.
   */
  function Harvest(hits: seq<Hit>, queryTerms: set<string>, shape: string, terms: set<string>, patterns: seq<string>)
    : (set<string>, seq<string>)
    decreases |hits|
  {
    if |hits| == 0 then (terms, patterns)
    else
      var h := hits[0];
      var terms' := terms + (TitleTerms(h) * queryTerms);
      if IsHigh(h) then
        var patterns' := if |shape| > 0 && shape !in patterns then patterns + [shape] else patterns;
        Harvest(hits[1..], queryTerms, shape, terms' + queryTerms, patterns')
      else
        Harvest(hits[1..], queryTerms, shape, terms', patterns)
  }

  /**
   * The loop collects the shared title terms, plus all query terms when some result scores
   * above 0.7, and appends the label at most once, only then, and only if it is new.
   */
  lemma {:induction false} HarvestSpec(hits: seq<Hit>, queryTerms: set<string>, shape: string, terms: set<string>, patterns: seq<string>)
    requires |shape| > 0
    ensures Harvest(hits, queryTerms, shape, terms, patterns).0
      == terms + MatchedTitleTerms(hits, queryTerms) + (if AnyHigh(hits) then queryTerms else {})
    ensures Harvest(hits, queryTerms, shape, terms, patterns).1
      == if AnyHigh(hits) && shape !in patterns then patterns + [shape] else patterns
    decreases |hits|
  {
    if |hits| > 0 {
      var h := hits[0];
      var terms' := terms + (TitleTerms(h) * queryTerms);
      assert AnyHigh(hits) <==> IsHigh(h) || AnyHigh(hits[1..]) by {
        if AnyHigh(hits[1..]) {
          var i :| 0 <= i < |hits[1..]| && IsHigh(hits[1..][i]);
          assert hits[i + 1] == hits[1..][i];
        }
        if AnyHigh(hits) && !IsHigh(h) {
          var i :| 0 <= i < |hits| && IsHigh(hits[i]);
          assert i > 0 && hits[1..][i - 1] == hits[i];
        }
      }
      if IsHigh(h) {
        var patterns' := if shape !in patterns then patterns + [shape] else patterns;
        HarvestSpec(hits[1..], queryTerms, shape, terms' + queryTerms, patterns');
        assert shape in patterns';
      } else {
        HarvestSpec(hits[1..], queryTerms, shape, terms', patterns);
      }
    }
  }

  /** The tokens of a failed query worth blaming: alphanumeric, and not and/or/not in any case. */
  function CleanTerms(query: string): (terms: set<string>)
    ensures forall t :: t in terms ==> IsAlnumString(t) && Lower(t) !in {"and", "or", "not"}
  {
    set t | t in Words(query) && IsAlnumString(t) && Lower(t) !in {"and", "or", "not"}
  }

  /** What one search tells the strategy about its query, read off before any update. */
  datatype Reading = Reading(
    category: string,
    shape: string,
    domain: Option<Domain>,
    queryTerms: set<string>,
    wordCount: nat,
    clean: set<string>)

  function Read(query: string): Reading {
    Reading(Categorize(query), IdentifyPattern(query), IdentifyDomain(query), QueryTermSet(query), |Words(query)|, CleanTerms(query))
  }

  predicate WellFormed(rd: Reading) {
    rd.category in CategoryLabels && rd.shape in ShapeLabels
  }

  /** The category is one of the five category labels and the shape one of the five shape labels. */
  lemma {:induction false} ReadWellFormed(query: string)
    ensures WellFormed(Read(query))
  {
  }

  /** The learned-pattern updates of one analysed search; `d` is the identified domain. */
  function Learn(l: Learned, rd: Reading, results: seq<Hit>, d: Domain): (r: Learned)
    ensures |results| > 0 ==> r.ineffectiveTerms == l.ineffectiveTerms
    ensures |results| > 0 ==> r.optimalQueryLength == l.optimalQueryLength * 0.8 + (rd.wordCount as real) * 0.2
    ensures |results| == 0 ==>
      && r.effectiveTerms == l.effectiveTerms
      && r.bestCategories == l.bestCategories
      && r.successfulDomains == l.successfulDomains
      && r.successfulPatterns == l.successfulPatterns
      && r.optimalQueryLength == l.optimalQueryLength
  {
    var learned :=
      if |results| > 0 then
        var harvest := Harvest(results, rd.queryTerms, rd.shape, {}, l.successfulPatterns);
        l.(effectiveTerms := l.effectiveTerms + harvest.0,
           optimalQueryLength := l.optimalQueryLength * 0.8 + (rd.wordCount as real) * 0.2,
           successfulDomains := l.successfulDomains + {d},
           successfulPatterns := harvest.1)
      else
        l.(ineffectiveTerms := (l.ineffectiveTerms + rd.clean) - l.effectiveTerms);
    if |results| > 0 && rd.category !in learned.bestCategories then
      learned.(bestCategories := learned.bestCategories + [rd.category])
    else
      learned
  }

  /** Multiplies the domain's weight by 1.2 on success and 0.8 on failure, clamped to [0.1, 2.0]. */
  function Reweigh(w: map<Domain, real>, d: Domain, success: bool): (r: map<Domain, real>)
    requires d in w
    ensures r.Keys == w.Keys
    ensures success ==> r[d] == if w[d] * 1.2 < MaxWeight then w[d] * 1.2 else MaxWeight
    ensures !success ==> r[d] == if w[d] * 0.8 > MinWeight then w[d] * 0.8 else MinWeight
    ensures forall e :: e in w && e != d ==> r[e] == w[e]
    ensures MinWeight <= w[d] <= MaxWeight ==> MinWeight <= r[d] <= MaxWeight
  {
    var x := if success then w[d] * 1.2 else w[d] * 0.8;
    w[d := if success then (if x < MaxWeight then x else MaxWeight) else (if x > MinWeight then x else MinWeight)]
  }

  /**
   * The update for a search whose query reads as `rd`: counts it under its category,
   * updates the learned patterns and reweighs the identified domain. A query outside
   * every catalog domain fails with `KeyError("general")`.
   */
  function Update(s: Strategy, rd: Reading, results: seq<Hit>): (r: Result<Strategy, Fault>)
    ensures rd.domain.None? ==> r == Failure(KeyError("general"))
    ensures r.Failure? ==> r.error == KeyError(DomainLabel(rd.domain))
    ensures WeightsInRange(s.weights) ==> (r.Success? <==> rd.domain.Some?)
    ensures r.Success? ==> r.value.phase == s.phase && r.value.rounds == s.rounds
    ensures r.Success? ==>
      r.value.learned.optimalQueryLength ==
        (if |results| > 0 then s.learned.optimalQueryLength * 0.8 + (rd.wordCount as real) * 0.2
         else s.learned.optimalQueryLength)
    ensures r.Success? ==>
      && RateOf(r.value.rates, rd.category).total == RateOf(s.rates, rd.category).total + 1
      && RateOf(r.value.rates, rd.category).success == RateOf(s.rates, rd.category).success + (if |results| > 0 then 1 else 0)
      && forall other :: other != rd.category ==> RateOf(r.value.rates, other) == RateOf(s.rates, other)
    ensures r.Success? ==>
      var d := rd.domain.value;
      && d in s.weights
      && r.value.weights.Keys == s.weights.Keys
      && (forall e :: e in s.weights && e != d ==> r.value.weights[e] == s.weights[e])
      && (|results| > 0 ==> r.value.weights[d] == if s.weights[d] * 1.2 < 2.0 then s.weights[d] * 1.2 else 2.0)
      && (|results| == 0 ==> r.value.weights[d] == if s.weights[d] * 0.8 > 0.1 then s.weights[d] * 0.8 else 0.1)
  {
    if rd.domain.None? || rd.domain.value !in s.weights then Failure(KeyError(DomainLabel(rd.domain)))
    else
      var d := rd.domain.value;
      Success(Strategy(
        Tally(s.rates, rd.category, |results| > 0),
        Learn(s.learned, rd, results, d),
        s.phase,
        s.rounds,
        Reweigh(s.weights, d, |results| > 0)))
  }

  /** `analyze_response`: the update for the query's own reading. */
  function AnalyzeResponse(s: Strategy, query: string, results: seq<Hit>): (r: Result<Strategy, Fault>)
    ensures IdentifyDomain(query).None? ==> r == Failure(KeyError("general"))
    ensures WeightsInRange(s.weights) ==> (r.Success? <==> IdentifyDomain(query).Some?)
    ensures r.Success? ==> RateOf(r.value.rates, Categorize(query)).total == RateOf(s.rates, Categorize(query)).total + 1
  {
    Update(s, Read(query), results)
  }

  /**
   * A failed search blames the clean query terms that are not already effective, leaves the
   * effective terms alone, and so leaves the two sets disjoint.
   */
  lemma {:induction false} UpdateFailureTerms(s: Strategy, rd: Reading)
    requires Update(s, rd, []).Success?
    ensures var l := Update(s, rd, []).value.learned;
      && l.effectiveTerms == s.learned.effectiveTerms
      && l.ineffectiveTerms == (s.learned.ineffectiveTerms + rd.clean) - s.learned.effectiveTerms
      && l.ineffectiveTerms * l.effectiveTerms == {}
  {
    var l := Update(s, rd, []).value.learned;
    assert l.effectiveTerms == s.learned.effectiveTerms;
    assert l.ineffectiveTerms == (s.learned.ineffectiveTerms + rd.clean) - s.learned.effectiveTerms;
  }

  /**
   * A successful search only adds effective terms: the query terms some title shares, and
   * every query term when a result scores above 0.7. Terms blamed earlier stay blamed.
   */
  lemma {:induction false} UpdateSuccessTerms(s: Strategy, rd: Reading, results: seq<Hit>)
    requires WellFormed(rd)
    requires |results| > 0
    requires Update(s, rd, results).Success?
    ensures var l := Update(s, rd, results).value.learned;
      && l.ineffectiveTerms == s.learned.ineffectiveTerms
      && l.effectiveTerms == s.learned.effectiveTerms + MatchedTitleTerms(results, rd.queryTerms)
           + (if AnyHigh(results) then rd.queryTerms else {})
  {
    var l := Learn(s.learned, rd, results, rd.domain.value);
    assert Update(s, rd, results).value.learned == l;
    ShapeLabelsNonEmpty(rd.shape);
    HarvestSpec(results, rd.queryTerms, rd.shape, {}, s.learned.successfulPatterns);
    var harvest := Harvest(results, rd.queryTerms, rd.shape, {}, s.learned.successfulPatterns);
    assert l.effectiveTerms == s.learned.effectiveTerms + harvest.0;
  }

  /**
   * The two lists only grow at the end: a category is appended on a success when it is new,
   * and the query's shape label is appended when some result scores above 0.7 and the
   * label is new. The successful domains gain exactly the identified domain on a success.
   */
  lemma {:induction false} UpdateLists(s: Strategy, rd: Reading, results: seq<Hit>)
    requires WellFormed(rd)
    requires Update(s, rd, results).Success?
    ensures var l := Update(s, rd, results).value.learned;
      && l.bestCategories == (if |results| > 0 && rd.category !in s.learned.bestCategories then s.learned.bestCategories + [rd.category] else s.learned.bestCategories)
      && l.successfulPatterns == (if AnyHigh(results) && rd.shape !in s.learned.successfulPatterns then s.learned.successfulPatterns + [rd.shape] else s.learned.successfulPatterns)
      && l.successfulDomains == (if |results| > 0 then s.learned.successfulDomains + {rd.domain.value} else s.learned.successfulDomains)
  {
    if |results| > 0 {
      ShapeLabelsNonEmpty(rd.shape);
      HarvestSpec(results, rd.queryTerms, rd.shape, {}, s.learned.successfulPatterns);
    } else {
      assert !AnyHigh(results);
    }
  }

  /**
   * The optimal query length moves a fifth of the way towards the word count of each
   * successful query, so it stays between its old value and that count; a failure leaves it.
   */
  lemma {:induction false} UpdateLengthTowardsQuery(s: Strategy, rd: Reading, results: seq<Hit>)
    requires Update(s, rd, results).Success?
    ensures var before := s.learned.optimalQueryLength;
      var after := Update(s, rd, results).value.learned.optimalQueryLength;
      var n := rd.wordCount as real;
      && (|results| == 0 ==> after == before)
      && (|results| > 0 ==> (before <= n ==> before <= after <= n) && (n <= before ==> n <= after <= before))
      && (|results| > 0 && before != n ==> after != before)
  {
  }

  /** One search keeps the state valid: weights stay in [0.1, 2.0], successes never exceed totals, the lists stay duplicate-free. */
  lemma {:induction false} UpdateKeepsValid(s: Strategy, rd: Reading, results: seq<Hit>)
    requires Valid(s) && WellFormed(rd)
    requires Update(s, rd, results).Success?
    ensures Valid(Update(s, rd, results).value)
  {
    var s' := Update(s, rd, results).value;
    var d := rd.domain.value;
    UpdateLists(s, rd, results);
    forall k | k in s'.rates ensures k in CategoryLabels && s'.rates[k].success <= s'.rates[k].total {
      assert s'.rates[k] == RateOf(s'.rates, k);
      if k != rd.category {
        assert RateOf(s'.rates, k) == RateOf(s.rates, k);
      }
    }
    forall e | e in s'.weights ensures MinWeight <= s'.weights[e] <= MaxWeight {
      if e == d {
        assert MinWeight <= s.weights[d] <= MaxWeight;
      }
    }
  }

  /** The learning state after a sequence of searches, or the first fault. */
  function AnalyzeAll(s: Strategy, searches: seq<(string, seq<Hit>)>): Result<Strategy, Fault>
    decreases |searches|
  {
    if |searches| == 0 then Success(s)
    else
      var s' :- AnalyzeResponse(s, searches[0].0, searches[0].1);
      AnalyzeAll(s', searches[1..])
  }

  /** Any sequence of searches keeps every weight in [0.1, 2.0] and every success count within its total. */
  lemma {:induction false} AnalyzeAllKeepsValid(s: Strategy, searches: seq<(string, seq<Hit>)>)
    requires Valid(s)
    requires AnalyzeAll(s, searches).Success?
    ensures Valid(AnalyzeAll(s, searches).value)
    ensures AnalyzeAll(s, searches).value.phase == s.phase
    decreases |searches|
  {
    if |searches| > 0 {
      var r := AnalyzeResponse(s, searches[0].0, searches[0].1);
      ReadWellFormed(searches[0].0);
      UpdateKeepsValid(s, Read(searches[0].0), searches[0].1);
      AnalyzeAllKeepsValid(r.value, searches[1..]);
    }
  }

  /** A successful `analyze_response` keeps the strategy valid and leaves the phase machine alone. */
  lemma {:induction false} AnalyzeResponseKeepsValid(s: Strategy, query: string, results: seq<Hit>)
    requires Valid(s)
    requires AnalyzeResponse(s, query, results).Success?
    ensures var s' := AnalyzeResponse(s, query, results).value;
      Valid(s') && s'.phase == s.phase && s'.rounds == s.rounds
  {
    ReadWellFormed(query);
    UpdateKeepsValid(s, Read(query), results);
  }

  /**
   * A success does not restore disjointness: a query term blamed by an earlier failure
   * stays ineffective when a later search with a high-scoring result makes it effective.
   */
  lemma {:induction false} SuccessLeavesOverlap(s: Strategy, rd: Reading, results: seq<Hit>, t: string)
    requires WellFormed(rd)
    requires |results| > 0 && AnyHigh(results)
    requires Update(s, rd, results).Success?
    requires t in rd.queryTerms && t in s.learned.ineffectiveTerms
    ensures var l := Update(s, rd, results).value.learned;
      t in l.effectiveTerms * l.ineffectiveTerms
  {
    UpdateSuccessTerms(s, rd, results);
  }

  datatype Status = Status(phase: string, progress: string, learned: Learned, rates: map<string, Counts>)

  function PhaseName(p: Phase): string {
    match p
    case DomainExploration => "domain_exploration"
    case PatternExploration => "pattern_exploration"
    case Optimization => "optimization"
  }

  /** `get_learning_status`: the phase, "rounds/3", the learned patterns and the success table. */
  function LearningStatus(s: Strategy): (st: Status)
    ensures st.learned == s.learned && st.rates == s.rates
  {
    Status(PhaseName(s.phase), NatToString(s.rounds) + "/" + NatToString(MaxExplorationRounds), s.learned, s.rates)
  }

  /** The progress text reads back as the round counter, a slash, and the exploration bound 3. */
  lemma {:induction false} ProgressReadsBack(s: Strategy)
    ensures var p := LearningStatus(s).progress;
      var i := |NatToString(s.rounds)|;
      && i < |p| && p[i] == '/'
      && (forall k :: 0 <= k < i ==> IsDigit(p[k]))
      && (forall k :: i < k < |p| ==> IsDigit(p[k]))
      && ParseNat(p[..i]) == s.rounds
      && ParseNat(p[i + 1..]) == MaxExplorationRounds
  {
    var p := LearningStatus(s).progress;
    var i := |NatToString(s.rounds)|;
    assert p[..i] == NatToString(s.rounds);
    assert p[i + 1..] == NatToString(MaxExplorationRounds);
    ParseNatToString(s.rounds);
    ParseNatToString(MaxExplorationRounds);
  }
}
