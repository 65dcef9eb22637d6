/**
 * The query generator of the adaptive strategy, one step per call: three seed-term
 * queries for weighted domains while exploring domains, two pattern-shaped queries while
 * exploring patterns, and two queries from learned labels when optimising. The step
 * advances the round counter and the phase in the first two phases.
 *
 * Every `random` call is an input: the `Draws` record lists the outcomes in the order
 * they are drawn. The model fixes no distribution; `Adequate` only says that the draws
 * are in range and that there are enough of them to finish the step.
 */
module Generation {
  import opened Wrappers
  import opened Text
  import opened Catalog
  import opened Sorting
  import opened Classify
  import opened Adaptive

  /** One generated test: the query text, its type tag, a description and the domain it tests. */
  datatype Probe = Probe(query: string, kind: string, description: string, domain: Domain)

  /**
   * `coins` are the `random.random()` values, one per ranked domain; `fill` the domains
   * drawn to top up the selection; `sample` the positions `random.sample` takes; `term`,
   * `pattern` and `filler` the choices of seed term, pattern and pattern word per query.
   */
  datatype Draws = Draws(
    coins: seq<real>,
    fill: seq<Domain>,
    sample: seq<nat>,
    term: seq<nat>,
    pattern: seq<nat>,
    filler: seq<nat>)

  const QueriesPerRound: nat := 3
  const SampleSize: nat := 2

  function Elements<T>(s: seq<T>): set<T> {
    set x | x in s
  }

  /** Enough draws for one step: a coin in [0, 1) per domain and three distinct fill domains. */
  predicate Adequate(dr: Draws) {
    && |dr.coins| >= DomainCount
    && (forall i :: 0 <= i < |dr.coins| ==> 0.0 <= dr.coins[i] < 1.0)
    && |Elements(dr.fill)| >= QueriesPerRound
    && |dr.sample| >= SampleSize
    && |dr.term| >= QueriesPerRound
    && |dr.pattern| >= SampleSize
    && |dr.filler| >= SampleSize
  }

  /** The weight table's items in its insertion order, which is the catalog order. */
  function Entries(w: map<Domain, real>, ds: seq<Domain>): (r: seq<(Domain, real)>)
    ensures |r| <= |ds|
    ensures forall i :: 0 <= i < |r| ==> r[i].0 in w && r[i].1 == w[r[i].0] && r[i].0 in ds
  {
    if |ds| == 0 then []
    else (if ds[0] in w then [(ds[0], w[ds[0]])] else []) + Entries(w, ds[1..])
  }

  function Weight(p: (Domain, real)): real {
    p.1
  }

  /** The items sorted by descending weight, ties in catalog order. */
  function Ranked(w: map<Domain, real>): (r: seq<(Domain, real)>)
    ensures NonIncreasing(r, Weight)
    ensures |r| <= DomainCount
  {
    SortDesc(Entries(w, Domains), Weight)
  }

  /**
   * The weighted selection: walking the ranking, a domain is taken when its coin falls
   * below its weight, and the walk stops at the third taken domain.
   */
  function Accept(ranked: seq<(Domain, real)>, coins: seq<real>, i: nat, chosen: seq<Domain>): (r: seq<Domain>)
    requires i <= |ranked| <= |coins|
    requires |chosen| < QueriesPerRound
    ensures |r| <= QueriesPerRound
    ensures chosen <= r
    decreases |ranked| - i
  {
    if i == |ranked| then chosen
    else if coins[i] < ranked[i].1 then
      var chosen' := chosen + [ranked[i].0];
      if |chosen'| >= QueriesPerRound then chosen' else Accept(ranked, coins, i + 1, chosen')
    else
      Accept(ranked, coins, i + 1, chosen)
  }

  /** Every domain the walk takes had its coin fall below its weight. */
  lemma {:induction false} AcceptOnlyLowCoins(ranked: seq<(Domain, real)>, coins: seq<real>, i: nat, chosen: seq<Domain>, k: nat)
    requires i <= |ranked| <= |coins|
    requires |chosen| < QueriesPerRound
    requires |chosen| <= k < |Accept(ranked, coins, i, chosen)|
    ensures exists j :: i <= j < |ranked| && ranked[j].0 == Accept(ranked, coins, i, chosen)[k] && coins[j] < ranked[j].1
    decreases |ranked| - i
  {
    assert i < |ranked|;
    var r := Accept(ranked, coins, i, chosen);
    if coins[i] < ranked[i].1 {
      var chosen' := chosen + [ranked[i].0];
      if k == |chosen| {
        assert r[k] == chosen'[k] == ranked[i].0;
      } else {
        AcceptOnlyLowCoins(ranked, coins, i + 1, chosen', k);
      }
    } else {
      AcceptOnlyLowCoins(ranked, coins, i + 1, chosen, k);
    }
  }

  /** The top-up loop: drawn domains not yet selected are appended until there are three. */
  function TopUp(selected: seq<Domain>, fill: seq<Domain>): (r: seq<Domain>)
    ensures selected <= r
    ensures forall k :: |selected| <= k < |r| ==> r[k] in fill && r[k] !in selected
    decreases |fill|
  {
    if |selected| >= QueriesPerRound || |fill| == 0 then selected
    else if fill[0] in selected then TopUp(selected, fill[1..])
    else TopUp(selected + [fill[0]], fill[1..])
  }

  /** With enough distinct domains left to draw, the top-up ends with exactly three distinct domains. */
  lemma {:induction false} ElementsCons<T>(s: seq<T>)
    requires |s| > 0
    ensures Elements(s) == {s[0]} + Elements(s[1..])
  {
    assert s == [s[0]] + s[1..];
  }

  /** Drawing a not-yet-selected `x` removes exactly one candidate from those still to draw. */
  lemma {:induction false} DrawingOneLeavesOneFewer<T>(rest: set<T>, selected: set<T>, x: T)
    requires x !in selected
    ensures |({x} + rest) - selected| == |rest - (selected + {x})| + 1
  {
    var left := ({x} + rest) - selected;
    var left' := rest - (selected + {x});
    assert left == left' + {x};
  }

  lemma {:induction false} TopUpReachesThree(selected: seq<Domain>, fill: seq<Domain>)
    requires |selected| <= QueriesPerRound && Distinct(selected)
    requires |Elements(fill) - Elements(selected)| + |selected| >= QueriesPerRound
    ensures |TopUp(selected, fill)| == QueriesPerRound
    ensures Distinct(TopUp(selected, fill))
    decreases |fill|
  {
    if |selected| < QueriesPerRound {
      assert |fill| > 0;
      if fill[0] in selected {
        SkipDrawLeavesCandidates(selected, fill);
        TopUpReachesThree(selected, fill[1..]);
      } else {
        TakeDrawLeavesCandidates(selected, fill);
        TopUpReachesThree(selected + [fill[0]], fill[1..]);
      }
    }
  }

  /** A draw already selected leaves the candidates still to draw as they were. */
  lemma {:induction false} SkipDrawLeavesCandidates(selected: seq<Domain>, fill: seq<Domain>)
    requires |fill| > 0 && fill[0] in selected
    ensures Elements(fill) - Elements(selected) == Elements(fill[1..]) - Elements(selected)
  {
    ElementsCons(fill);
  }

  /** A fresh draw joins the selection, which stays duplicate-free, and leaves one candidate fewer. */
  lemma {:induction false} TakeDrawLeavesCandidates(selected: seq<Domain>, fill: seq<Domain>)
    requires |fill| > 0 && fill[0] !in selected && Distinct(selected)
    ensures Distinct(selected + [fill[0]])
    ensures |Elements(fill) - Elements(selected)| == |Elements(fill[1..]) - Elements(selected + [fill[0]])| + 1
  {
    var x := fill[0];
    ElementsCons(fill);
    assert Elements(selected + [x]) == Elements(selected) + {x};
    DrawingOneLeavesOneFewer(Elements(fill[1..]), Elements(selected), x);
    var s' := selected + [x];
    forall i, j | 0 <= i < j < |s'| ensures s'[i] != s'[j] {
      if j == |selected| {
        assert s'[i] == selected[i] && s'[i] in selected;
      } else {
        assert s'[i] == selected[i] && s'[j] == selected[j];
      }
    }
  }

  lemma {:induction false} AcceptDistinct(ranked: seq<(Domain, real)>, coins: seq<real>, i: nat, chosen: seq<Domain>)
    requires i <= |ranked| <= |coins|
    requires |chosen| < QueriesPerRound
    requires Distinct(chosen)
    requires forall j, k :: 0 <= j < k < |ranked| ==> ranked[j].0 != ranked[k].0
    requires forall j, k :: 0 <= k < |chosen| && i <= j < |ranked| ==> ranked[j].0 != chosen[k]
    ensures Distinct(Accept(ranked, coins, i, chosen))
    decreases |ranked| - i
  {
    if i < |ranked| {
      if coins[i] < ranked[i].1 {
        var chosen' := chosen + [ranked[i].0];
        if |chosen'| < QueriesPerRound {
          AcceptDistinct(ranked, coins, i + 1, chosen');
        }
      } else {
        AcceptDistinct(ranked, coins, i + 1, chosen);
      }
    }
  }

  lemma {:induction false} EntriesDistinct(w: map<Domain, real>, ds: seq<Domain>)
    requires Distinct(ds)
    ensures forall j, k :: 0 <= j < k < |Entries(w, ds)| ==> Entries(w, ds)[j].0 != Entries(w, ds)[k].0
    decreases |ds|
  {
    if |ds| > 0 {
      EntriesDistinct(w, ds[1..]);
      HeadNotInTail(ds);
    }
  }

  /** Sorting keeps the names of the items distinct. */
  lemma {:induction false} RankedDistinct(w: map<Domain, real>)
    ensures forall j, k :: 0 <= j < k < |Ranked(w)| ==> Ranked(w)[j].0 != Ranked(w)[k].0
  {
    var es := Entries(w, Domains);
    DomainsDistinct();
    EntriesDistinct(w, Domains);
    var r := Ranked(w);
    forall j, k | 0 <= j < k < |r| ensures r[j].0 != r[k].0 {
      if r[j].0 == r[k].0 {
        assert r[j] in multiset(es) && r[k] in multiset(es);
        var a :| 0 <= a < |es| && es[a] == r[j];
        var b :| 0 <= b < |es| && es[b] == r[k];
        assert a == b;
        MultiplicityOfDistinct(es, r[j]);
        MultiplicityOfRepeat(r, j, k);
      }
    }
  }

  lemma {:induction false} MultiplicityOfDistinct(es: seq<(Domain, real)>, x: (Domain, real))
    requires forall j, k :: 0 <= j < k < |es| ==> es[j].0 != es[k].0
    ensures multiset(es)[x] <= 1
    decreases |es|
  {
    if |es| > 0 {
      assert es == [es[0]] + es[1..];
      MultiplicityOfDistinct(es[1..], x);
      if es[0] == x {
        forall k | 0 <= k < |es| - 1 ensures es[1..][k] != x {
          assert es[1..][k] == es[k + 1];
        }
        assert x !in es[1..];
      }
    }
  }

  lemma {:induction false} MultiplicityOfRepeat<T>(s: seq<T>, j: nat, k: nat)
    requires 0 <= j < k < |s| && s[j] == s[k]
    ensures multiset(s)[s[j]] >= 2
  {
    assert s == s[..k] + s[k..];
    assert s[j] in s[..k];
    assert s[k] in s[k..];
    assert multiset(s) == multiset(s[..k]) + multiset(s[k..]);
  }

  /** The domains a domain-exploration round tests: the weighted selection topped up to three. */
  function ExplorationDomains(w: map<Domain, real>, dr: Draws): (ds: seq<Domain>)
    requires Adequate(dr)
    ensures |ds| == QueriesPerRound && Distinct(ds)
  {
    var ranked := Ranked(w);
    var accepted := Accept(ranked, dr.coins, 0, []);
    RankedDistinct(w);
    AcceptDistinct(ranked, dr.coins, 0, []);
    assert |Elements(dr.fill) - Elements(accepted)| >= |Elements(dr.fill)| - |Elements(accepted)|;
    CardinalityOfElements(accepted);
    TopUpReachesThree(accepted, dr.fill);
    TopUp(accepted, dr.fill)
  }

  lemma {:induction false} CardinalityOfElements<T>(s: seq<T>)
    ensures |Elements(s)| <= |s|
    decreases |s|
  {
    if |s| > 0 {
      CardinalityOfElements(s[1..]);
      assert Elements(s) == {s[0]} + Elements(s[1..]);
    }
  }

  /** `_generate_domain_exploration_queries`: one seed-term query per selected domain. */
  function DomainQueries(w: map<Domain, real>, dr: Draws): (ps: seq<Probe>)
    requires Adequate(dr)
    ensures |ps| == QueriesPerRound
  {
    var ds := ExplorationDomains(w, dr);
    seq(|ds|, i requires 0 <= i < |ds| => SeedProbe(ds[i], dr.term[i]))
  }

  /** One exploration probe: a seed term of `d`, drawn with `n`, as the whole query. */
  function SeedProbe(d: Domain, n: nat): (p: Probe)
    ensures p.query in Seeds(d) && p.domain == d && p.kind == "domain_exploration"
  {
    Probe(Pick(Seeds(d), n), "domain_exploration", "Testing " + DomainName(d) + " domain", d)
  }

  /** The round tests three different domains, each with one of its own seed terms as the whole query. */
  lemma {:induction false} DomainQueriesShape(w: map<Domain, real>, dr: Draws)
    requires Adequate(dr)
    ensures var ps := DomainQueries(w, dr);
      && (forall i :: 0 <= i < |ps| ==> ps[i].domain == ExplorationDomains(w, dr)[i])
      && (forall i :: 0 <= i < |ps| ==> ps[i].query in Seeds(ps[i].domain) && ps[i].kind == "domain_exploration")
      && (forall i, j :: 0 <= i < j < |ps| ==> ps[i].domain != ps[j].domain)
  {
    var ds := ExplorationDomains(w, dr);
    var ps := DomainQueries(w, dr);
    forall i | 0 <= i < |ps| ensures ps[i].domain == ds[i] && ps[i].query in Seeds(ds[i]) && ps[i].kind == "domain_exploration" {
      var p := SeedProbe(ds[i], dr.term[i]);
      assert ps[i] == p;
    }
  }

  /** The catalog domains that belong to `s`, in catalog order. */
  function Members(s: set<Domain>, ds: seq<Domain>): (r: seq<Domain>)
    ensures forall i :: 0 <= i < |r| ==> r[i] in s && r[i] in ds
    decreases |ds|
  {
    if |ds| == 0 then []
    else if ds[0] in s then [ds[0]] + Members(s - {ds[0]}, ds[1..])
    else Members(s, ds[1..])
  }

  /** Listing a set through a duplicate-free catalog that covers it lists each member once. */
  lemma {:induction false} MembersListsSet(s: set<Domain>, ds: seq<Domain>)
    requires Distinct(ds)
    requires forall d :: d in s ==> d in ds
    ensures Distinct(Members(s, ds))
    ensures |Members(s, ds)| == |s|
    decreases |ds|
  {
    if |ds| > 0 {
      HeadNotInTail(ds);
      if ds[0] in s {
        MembersListsSet(s - {ds[0]}, ds[1..]);
      } else {
        MembersListsSet(s, ds[1..]);
      }
    }
  }

  /** Removing position `i` keeps every other element, and keeps a duplicate-free sequence so without `s[i]`. */
  lemma {:induction false} RemoveAt<T>(s: seq<T>, i: nat)
    requires i < |s|
    ensures forall e :: e in s[..i] + s[i + 1..] ==> e in s
    ensures Distinct(s) ==> Distinct(s[..i] + s[i + 1..]) && s[i] !in s[..i] + s[i + 1..]
  {
    var rest := s[..i] + s[i + 1..];
    forall a | 0 <= a < |rest| ensures rest[a] == s[if a < i then a else a + 1] {
    }
  }

  /** `random.sample(population, k)`: each draw takes one of the remaining elements. */
  function SampleFrom<T>(pop: seq<T>, k: nat, draws: seq<nat>): (r: seq<T>)
    requires k <= |pop| && k <= |draws|
    ensures |r| == k
    ensures forall i :: 0 <= i < |r| ==> r[i] in pop
    ensures Distinct(pop) ==> Distinct(r)
    decreases k
  {
    if k == 0 then []
    else
      var i := draws[0] % |pop|;
      var rest := pop[..i] + pop[i + 1..];
      RemoveAt(pop, i);
      [pop[i]] + SampleFrom(rest, k - 1, draws[1..])
  }

  /** The sampling population: the successful domains in catalog order, or every domain if none succeeded. */
  function Population(s: Strategy): seq<Domain> {
    if s.learned.successfulDomains != {} then Members(s.learned.successfulDomains, Domains) else Domains
  }

  /** The domains sampled in the two later phases: two of the population, or all of it if smaller. */
  function SampledDomains(s: Strategy, dr: Draws): (ds: seq<Domain>)
    requires Adequate(dr)
    ensures forall i :: 0 <= i < |ds| ==> ds[i] in Population(s)
  {
    var pop := Population(s);
    SampleFrom(pop, if |pop| < SampleSize then |pop| else SampleSize, dr.sample)
  }

  /** Two distinct domains are sampled, or one when exactly one domain has succeeded; all successful if any succeeded. */
  lemma {:induction false} SampledDomainsShape(s: Strategy, dr: Draws)
    requires Adequate(dr)
    ensures var ds := SampledDomains(s, dr);
      && |ds| == (if |s.learned.successfulDomains| == 1 then 1 else SampleSize)
      && Distinct(ds)
      && (s.learned.successfulDomains != {} ==> forall i :: 0 <= i < |ds| ==> ds[i] in s.learned.successfulDomains)
  {
    DomainsDistinct();
    if s.learned.successfulDomains != {} {
      forall d | d in s.learned.successfulDomains ensures d in Domains {
        DomainListed(d);
      }
      MembersListsSet(s.learned.successfulDomains, Domains);
    }
  }

  /** `_generate_pattern_exploration_queries`: a random pattern applied to a seed of each sampled domain. */
  function PatternQueries(s: Strategy, dr: Draws): (ps: seq<Probe>)
    requires Adequate(dr)
    ensures |ps| == |SampledDomains(s, dr)|
  {
    var ds := SampledDomains(s, dr);
    seq(|ds|, i requires 0 <= i < |ds| =>
      var p := Pick(Patterns, dr.pattern[i]);
      Probe(Apply(p, Pick(Seeds(ds[i]), dr.term[i]), dr.filler[i]), PatternName(p),
        "Testing " + PatternName(p) + " pattern in " + DomainName(ds[i]), ds[i]))
  }

  /** Each pattern query is tagged with a catalog pattern key and keeps a seed term of its domain verbatim. */
  lemma {:induction false} PatternQueriesShape(s: Strategy, dr: Draws)
    requires Adequate(dr)
    ensures var ps := PatternQueries(s, dr);
      forall i :: 0 <= i < |ps| ==>
        && PatternByName(ps[i].kind).Some?
        && Pick(Seeds(ps[i].domain), dr.term[i]) in Seeds(ps[i].domain)
        && Contains(ps[i].query, Pick(Seeds(ps[i].domain), dr.term[i]))
  {
    var ps := PatternQueries(s, dr);
    forall i | 0 <= i < |ps|
      ensures PatternByName(ps[i].kind).Some? && Contains(ps[i].query, Pick(Seeds(ps[i].domain), dr.term[i]))
    {
      var p := Pick(Patterns, dr.pattern[i]);
      PatternByNameOfName(p);
      ApplyKeepsTerm(p, Pick(Seeds(ps[i].domain), dr.term[i]), dr.filler[i]);
    }
  }

  /** The labels optimisation draws from: the learned pattern labels, or every catalog key if none. */
  function OptimizationLabels(s: Strategy): (labels: seq<string>)
    ensures |labels| > 0
  {
    if |s.learned.successfulPatterns| > 0 then s.learned.successfulPatterns else PatternNames
  }

  /** The drawn label for query `j` names a catalog pattern. */
  predicate Resolves(labels: seq<string>, dr: Draws, j: nat)
    requires |labels| > 0 && j < |dr.pattern|
  {
    PatternByName(Pick(labels, dr.pattern[j])).Some?
  }

  /**
   * The patterns named by the labels drawn for queries `i` to `n - 1`, each with its label;
   * the first label that names no pattern is a `KeyError`.
   */
  function ResolveFrom(labels: seq<string>, dr: Draws, i: nat, n: nat): (r: Result<seq<(Pattern, string)>, Fault>)
    requires |labels| > 0
    requires i <= n <= |dr.pattern|
    decreases n - i
  {
    if i == n then Success([])
    else
      var name := Pick(labels, dr.pattern[i]);
      match PatternByName(name)
      case None => Failure(KeyError(name))
      case Some(p) =>
        var rest :- ResolveFrom(labels, dr, i + 1, n);
        Success([(p, name)] + rest)
  }

  /**
   * Resolution succeeds exactly when every drawn label names a pattern, and then pairs each
   * label with the pattern it names; otherwise it fails on a label that names none.
   */
  lemma {:induction false} ResolveFromOutcome(labels: seq<string>, dr: Draws, i: nat, n: nat)
    requires |labels| > 0
    requires i <= n <= |dr.pattern|
    ensures var r := ResolveFrom(labels, dr, i, n);
      && (r.Success? <==> forall j :: i <= j < n ==> Resolves(labels, dr, j))
      && (r.Success? ==> |r.value| == n - i && forall j :: 0 <= j < |r.value| ==>
            r.value[j].1 == Pick(labels, dr.pattern[i + j]) && PatternByName(r.value[j].1) == Some(r.value[j].0))
      && (r.Failure? ==> exists j :: i <= j < n && !Resolves(labels, dr, j) && r.error == KeyError(Pick(labels, dr.pattern[j])))
    decreases n - i
  {
    if i < n && Resolves(labels, dr, i) {
      ResolveFromOutcome(labels, dr, i + 1, n);
    }
  }

  /** `_generate_optimized_queries`: a learned (or any) pattern applied to a seed of each sampled domain. */
  function OptimizedQueries(s: Strategy, dr: Draws): (r: Result<seq<Probe>, Fault>)
    requires Adequate(dr)
    ensures r.Success? ==> |r.value| == |SampledDomains(s, dr)|
  {
    var ds := SampledDomains(s, dr);
    var resolved :- ResolveFrom(OptimizationLabels(s), dr, 0, |ds|);
    ResolveFromOutcome(OptimizationLabels(s), dr, 0, |ds|);
    Success(seq(|ds|, i requires 0 <= i < |ds| =>
      var (p, name) := resolved[i];
      Probe(Apply(p, Pick(Seeds(ds[i]), dr.term[i]), dr.filler[i]), "optimized",
        "Optimized " + name + " query for " + DomainName(ds[i]), ds[i])))
  }

  /**
   * Optimisation succeeds exactly when every drawn label names a pattern; it then tags
   * each query "optimized" and keeps the sampled domains in order, and otherwise fails
   * with a `KeyError` naming a drawn label that names no pattern.
   */
  lemma {:induction false} OptimizedQueriesOutcome(s: Strategy, dr: Draws)
    requires Adequate(dr)
    ensures var r := OptimizedQueries(s, dr);
      var ds := SampledDomains(s, dr);
      var labels := OptimizationLabels(s);
      && (r.Success? <==> forall j :: 0 <= j < |ds| ==> Resolves(labels, dr, j))
      && (r.Success? ==> forall j :: 0 <= j < |ds| ==> r.value[j].kind == "optimized" && r.value[j].domain == ds[j])
      && (r.Failure? ==> exists j :: 0 <= j < |ds| && !Resolves(labels, dr, j) && r.error == KeyError(Pick(labels, dr.pattern[j])))
  {
    ResolveFromOutcome(OptimizationLabels(s), dr, 0, |SampledDomains(s, dr)|);
  }

  /**
   * `generate_next_queries`: the phase's queries, with the round counter advanced and the
   * phase moved on at three and six rounds; optimisation leaves the state as it is.
   */
  function Generate(s: Strategy, dr: Draws): (r: Result<(seq<Probe>, Strategy), Fault>)
    requires Adequate(dr)
    ensures s.phase != Optimization ==> r.Success?
    ensures r.Success? ==> r.value.1.learned == s.learned && r.value.1.rates == s.rates && r.value.1.weights == s.weights
    ensures r.Success? ==> r.value.1.rounds == if s.phase == Optimization then s.rounds else s.rounds + 1
    ensures s.phase == DomainExploration ==> |r.value.0| == QueriesPerRound
  {
    match s.phase
    case DomainExploration =>
      var rounds := s.rounds + 1;
      Success((DomainQueries(s.weights, dr),
        s.(rounds := rounds, phase := if rounds >= MaxExplorationRounds then PatternExploration else DomainExploration)))
    case PatternExploration =>
      var rounds := s.rounds + 1;
      Success((PatternQueries(s, dr),
        s.(rounds := rounds, phase := if rounds >= 2 * MaxExplorationRounds then Optimization else PatternExploration)))
    case Optimization =>
      var probes :- OptimizedQueries(s, dr);
      Success((probes, s))
  }

  /** A generation step keeps the state valid: the phase stays in step with the round counter. */
  lemma {:induction false} GenerateKeepsValid(s: Strategy, dr: Draws)
    requires Adequate(dr) && Valid(s)
    requires Generate(s, dr).Success?
    ensures Valid(Generate(s, dr).value.1)
    ensures Generate(s, dr).value.1.phase == match s.phase
      case DomainExploration => if s.rounds + 1 >= MaxExplorationRounds then PatternExploration else DomainExploration
      case PatternExploration => if s.rounds + 1 >= 2 * MaxExplorationRounds then Optimization else PatternExploration
      case Optimization => Optimization
  {
  }

  /** A pattern-exploration batch holds one query or two. */
  lemma {:induction false} PatternBatchSize(s: Strategy, dr: Draws)
    requires Adequate(dr) && s.phase == PatternExploration
    ensures 1 <= |Generate(s, dr).value.0| <= SampleSize
  {
    SampledDomainsShape(s, dr);
    assert Generate(s, dr).value.0 == PatternQueries(s, dr);
  }

  /**
   * Once some pattern label has been learned, optimisation draws only learned labels, and
   * of the five labels only "simple" names a pattern: the step fails unless every draw
   * lands on "simple".
   */
  lemma {:induction false} OptimizationNeedsSimple(s: Strategy, dr: Draws)
    requires Adequate(dr) && Valid(s)
    requires s.phase == Optimization && |s.learned.successfulPatterns| > 0
    ensures Generate(s, dr).Success? <==>
      forall j :: 0 <= j < |SampledDomains(s, dr)| ==> Pick(s.learned.successfulPatterns, dr.pattern[j]) == "simple"
  {
    var labels := s.learned.successfulPatterns;
    OptimizedQueriesOutcome(s, dr);
    forall j | 0 <= j < |SampledDomains(s, dr)|
      ensures Resolves(labels, dr, j) <==> Pick(labels, dr.pattern[j]) == "simple"
    {
      ShapeLabelsResolve(Pick(labels, dr.pattern[j]));
    }
  }

  /** The items of a table holding every listed domain are the listed domains with their weights. */
  lemma {:induction false} EntriesFull(w: map<Domain, real>, ds: seq<Domain>)
    requires forall i :: 0 <= i < |ds| ==> ds[i] in w
    ensures |Entries(w, ds)| == |ds|
    ensures forall i :: 0 <= i < |ds| ==> Entries(w, ds)[i] == (ds[i], w[ds[i]])
    decreases |ds|
  {
    if |ds| > 0 {
      EntriesFull(w, ds[1..]);
    }
  }

  /** A walk whose first three coins all fall below their weights takes the first three ranked domains. */
  lemma {:induction false} AcceptTakesFirstThree(ranked: seq<(Domain, real)>, coins: seq<real>)
    requires QueriesPerRound <= |ranked| <= |coins|
    requires forall j | 0 <= j < QueriesPerRound :: coins[j] < ranked[j].1
    ensures Accept(ranked, coins, 0, []) == [ranked[0].0, ranked[1].0, ranked[2].0]
  {
    var a, b, c := ranked[0].0, ranked[1].0, ranked[2].0;
    assert coins[2] < ranked[2].1;
    assert Accept(ranked, coins, 2, [a, b]) == [a, b, c];
    assert coins[1] < ranked[1].1;
    assert [a] + [b] == [a, b];
    assert Accept(ranked, coins, 1, [a]) == [a, b, c];
    assert coins[0] < ranked[0].1;
    assert [] + [a] == [a];
  }

  /**
   * When every domain weighs the same 1.0, as in a fresh strategy, every coin below 1.0
   * accepts: the round tests the first three catalog domains, whatever the top-up draws.
   */
  lemma {:induction false} UniformWeightsTakeCatalogHead(w: map<Domain, real>, dr: Draws)
    requires Adequate(dr)
    requires w.Keys == AllDomains()
    requires forall d :: d in w ==> w[d] == InitialWeight
    ensures ExplorationDomains(w, dr) == [GeneralAcademic, Science, Mathematics]
  {
    var es := Ranked(w);
    UniformRanking(w);
    AcceptTakesFirstThree(es, dr.coins);
  }

  /** With every domain weighing 1.0 the ranking is the catalog itself, in declaration order. */
  lemma {:induction false} UniformRanking(w: map<Domain, real>)
    requires w.Keys == AllDomains()
    requires forall d :: d in w ==> w[d] == InitialWeight
    ensures |Ranked(w)| == |Domains|
    ensures forall i :: 0 <= i < |Domains| ==> Ranked(w)[i] == (Domains[i], InitialWeight)
    ensures Ranked(w)[0] == (GeneralAcademic, InitialWeight) && Ranked(w)[1] == (Science, InitialWeight)
      && Ranked(w)[2] == (Mathematics, InitialWeight)
  {
    var ds := Domains;
    forall i | 0 <= i < |ds| ensures ds[i] in w && w[ds[i]] == InitialWeight {
      assert ds[i] in AllDomains();
    }
    UniformEntriesSorted(w, ds);
    DomainsHead();
  }

  /** Items that all weigh the same are already sorted: they stay in list order. */
  lemma {:induction false} UniformEntriesSorted(w: map<Domain, real>, ds: seq<Domain>)
    requires forall i :: 0 <= i < |ds| ==> ds[i] in w && w[ds[i]] == InitialWeight
    ensures SortDesc(Entries(w, ds), Weight) == Entries(w, ds)
    ensures |Entries(w, ds)| == |ds|
    ensures forall i :: 0 <= i < |ds| ==> Entries(w, ds)[i] == (ds[i], InitialWeight)
  {
    EntriesFull(w, ds);
    var es := Entries(w, ds);
    forall i | 0 <= i < |es| ensures Weight(es[i]) == InitialWeight {
      assert es[i] == (ds[i], w[ds[i]]);
    }
    SortDescOfEqualKeys(es, Weight, InitialWeight);
  }
}
