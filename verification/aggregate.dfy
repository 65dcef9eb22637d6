/**
 * The aggregate half of the result analyzer: ratios over a map of stored samples, the
 * threshold verdict on the search algorithm, the confidence score, and the hypothesis
 * record the engineer reports.
 */
module Aggregate {
  import opened Analyzer
  import opened Samples

  datatype Patterns = Patterns(fuzzyMatchRatio: real, exactMatchRatio: real, averageResponseTime: real)

  datatype Hypothesis = Hypothesis(likelyAlgorithm: string, confidenceScore: real, observedPatterns: Patterns)

  const AlgorithmLabels: set<string> := {"fuzzy_search", "exact_match", "hybrid"}

  const Consistency: real := 0.8

  /** The number of stored samples whose matching type is "fuzzy". */
  function CountFuzzy(db: Db): (n: nat)
    ensures n <= |db|
  {
    if |db| == 0 then 0
    else (if db[0].1.characteristics.matchingType == "fuzzy" then 1 else 0) + CountFuzzy(db[1..])
  }

  lemma {:induction false} NoFuzzyCountsZero(db: Db)
    requires forall i :: 0 <= i < |db| ==> db[i].1.characteristics.matchingType != "fuzzy"
    ensures CountFuzzy(db) == 0
    decreases |db|
  {
    if |db| > 0 {
      NoFuzzyCountsZero(db[1..]);
    }
  }

  /** The total of the stored samples' response times. */
  function SumTiming(db: Db): real {
    if |db| == 0 then 0.0 else db[0].1.timing + SumTiming(db[1..])
  }

  /** Timings that all lie in `[lo, hi]` total between `|db|` times each bound. */
  lemma {:induction false} SumTimingBounds(db: Db, lo: real, hi: real)
    requires forall i :: 0 <= i < |db| ==> lo <= db[i].1.timing <= hi
    ensures lo * (|db| as real) <= SumTiming(db) <= hi * (|db| as real)
    decreases |db|
  {
    if |db| > 0 {
      SumTimingBounds(db[1..], lo, hi);
      assert lo * (|db| as real) == lo + lo * ((|db| - 1) as real);
      assert hi * (|db| as real) == hi + hi * ((|db| - 1) as real);
    }
  }

  /** `x / n` for a count `x` out of `n`. */
  function Ratio(x: nat, n: nat): (r: real)
    requires 0 < n
    ensures r * (n as real) == x as real
    ensures 0.0 <= r && (x <= n ==> r <= 1.0)
  {
    (x as real) / (n as real)
  }

  /** Two ratios over the same total add up like their counts. */
  lemma {:induction false} RatioSum(x: nat, y: nat, n: nat)
    requires 0 < n
    ensures Ratio(x, n) + Ratio(y, n) == Ratio(x + y, n)
  {
    var a, b, c := Ratio(x, n), Ratio(y, n), Ratio(x + y, n);
    var m := n as real;
    calc {
      (a + b) * m;
    == { Distributes(a, b, m); }
      a * m + b * m;
    == // each ratio multiplies back to its count
      (x as real) + (y as real);
    == // and so does the ratio of the sum
      c * m;
    }
    ScaleCancels(a + b, c, m);
  }

  lemma {:induction false} Distributes(a: real, b: real, n: real)
    ensures (a + b) * n == a * n + b * n
  {
  }

  lemma {:induction false} ScaleCancels(a: real, b: real, n: real)
    requires n > 0.0 && a * n == b * n
    ensures a == b
  {
    assert (a - b) * n == 0.0;
  }

  /**
   * `analyze_patterns`: zeros for no samples; otherwise the share of "fuzzy" samples, the
   * share of all others (so "exact" and "unknown" alike), and the mean timing.
   */
  function AnalyzePatterns(db: Db): (p: Patterns)
    ensures |db| == 0 ==> p == Patterns(0.0, 0.0, 0.0)
    ensures 0.0 <= p.fuzzyMatchRatio <= 1.0 && 0.0 <= p.exactMatchRatio <= 1.0
    ensures |db| > 0 ==>
      && p.fuzzyMatchRatio * (|db| as real) == CountFuzzy(db) as real
      && p.exactMatchRatio * (|db| as real) == (|db| - CountFuzzy(db)) as real
      && p.averageResponseTime * (|db| as real) == SumTiming(db)
  {
    if |db| == 0 then Patterns(0.0, 0.0, 0.0)
    else
      var n := |db|;
      var fuzzy := CountFuzzy(db);
      Patterns(Ratio(fuzzy, n), Ratio(n - fuzzy, n), SumTiming(db) / (n as real))
  }

  /** For any samples at all, the fuzzy and the exact share make up the whole. */
  lemma {:induction false} RatiosMakeWhole(db: Db)
    requires |db| > 0
    ensures AnalyzePatterns(db).fuzzyMatchRatio + AnalyzePatterns(db).exactMatchRatio == 1.0
  {
    var n := |db|;
    var f := CountFuzzy(db);
    RatioSum(f, n - f, n);
    RatioOfWhole(n);
  }

  /** All of a total is a ratio of one. */
  lemma {:induction false} RatioOfWhole(n: nat)
    requires 0 < n
    ensures Ratio(n, n) == 1.0
  {
    var m := n as real;
    var r := Ratio(n, n);
    assert r * m == 1.0 * m;
    ScaleCancels(r, 1.0, m);
  }

  /** The mean response time lies within the range of the stored timings. */
  lemma {:induction false} MeanTimingWithin(db: Db, lo: real, hi: real)
    requires |db| > 0
    requires forall i :: 0 <= i < |db| ==> lo <= db[i].1.timing <= hi
    ensures lo <= AnalyzePatterns(db).averageResponseTime <= hi
  {
    var m := |db| as real;
    var t := AnalyzePatterns(db).averageResponseTime;
    SumTimingBounds(db, lo, hi);
    ScaleDown(lo, t, m);
    ScaleDown(t, hi, m);
  }

  /** Samples whose matching type is not "fuzzy", "unknown" included, all count as exact matches. */
  lemma {:induction false} NoFuzzyIsAllExact(db: Db)
    requires |db| > 0
    requires forall i :: 0 <= i < |db| ==> db[i].1.characteristics.matchingType != "fuzzy"
    ensures AnalyzePatterns(db).exactMatchRatio == 1.0 && AnalyzePatterns(db).fuzzyMatchRatio == 0.0
  {
    NoFuzzyCountsZero(db);
  }

  /** `determine_algorithm_type`: over 0.8 fuzzy is fuzzy search, else over 0.9 exact is exact match, else hybrid. */
  function DetermineAlgorithmType(db: Db): (t: string)
    ensures t in AlgorithmLabels
  {
    var p := AnalyzePatterns(db);
    if p.fuzzyMatchRatio > 0.8 then "fuzzy_search"
    else if p.exactMatchRatio > 0.9 then "exact_match"
    else "hybrid"
  }

  /**
   * The verdict in whole numbers: fuzzy search when more than four in five samples are
   * fuzzy, exact match when fewer than one in ten is, hybrid otherwise and for no samples.
   */
  lemma {:induction false} AlgorithmTypeByCounts(db: Db)
    ensures DetermineAlgorithmType(db) == "fuzzy_search" <==> |db| > 0 && 5 * CountFuzzy(db) > 4 * |db|
    ensures DetermineAlgorithmType(db) == "exact_match" <==> |db| > 0 && 10 * CountFuzzy(db) < |db|
    ensures DetermineAlgorithmType(db) == "hybrid" <==> |db| == 0 || (10 * CountFuzzy(db) >= |db| && 5 * CountFuzzy(db) <= 4 * |db|)
  {
    if |db| > 0 {
      var m := |db|;
      var f := CountFuzzy(db);
      assert AnalyzePatterns(db).fuzzyMatchRatio == Ratio(f, m);
      assert AnalyzePatterns(db).exactMatchRatio == Ratio(m - f, m);
      RatioAbove(f, m, 0.8);
      RatioAbove(m - f, m, 0.9);
    }
  }

  /** A share `x / n` is above `c` exactly when `x` is above `c * n`. */
  lemma {:induction false} RatioAbove(x: nat, n: nat, c: real)
    requires 0 < n
    ensures Ratio(x, n) > c <==> x as real > c * (n as real)
  {
    ScaleKeepsOrder(Ratio(x, n), c, n as real);
  }

  lemma {:induction false} ScaleKeepsOrder(a: real, b: real, n: real)
    requires n > 0.0
    ensures a > b <==> a * n > b * n
  {
    if a > b {
      assert (a - b) * n > 0.0;
    } else {
      assert (b - a) * n >= 0.0;
    }
  }

  /** `_check_result_consistency`: a fixed 0.8 whenever there is something to check. */
  function ResultConsistency(db: Db): real {
    if |db| == 0 then 0.0 else Consistency
  }

  /**
   * `calculate_confidence`: the mean of the two ratios and the consistency score. As the
   * ratios always sum to one, it is 0.6 on any non-empty map and 0.0 on an empty one.
   */
  function CalculateConfidence(db: Db): (c: real)
    ensures c == if |db| == 0 then 0.0 else 0.6
  {
    if |db| == 0 then 0.0
    else
      RatiosMakeWhole(db);
      var p := AnalyzePatterns(db);
      (p.fuzzyMatchRatio + p.exactMatchRatio + ResultConsistency(db)) / 3.0
  }

  /** `generate_hypothesis`: the verdict, the confidence and the ratios of one sample map. */
  function GenerateHypothesis(db: Db): (h: Hypothesis)
    ensures h.likelyAlgorithm in AlgorithmLabels
    ensures h.confidenceScore == if |db| == 0 then 0.0 else 0.6
    ensures |db| == 0 ==> h == Hypothesis("hybrid", 0.0, Patterns(0.0, 0.0, 0.0))
  {
    Hypothesis(DetermineAlgorithmType(db), CalculateConfidence(db), AnalyzePatterns(db))
  }
}
