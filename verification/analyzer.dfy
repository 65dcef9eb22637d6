/**
 * The per-response half of the result analyzer: what one list of search results says
 * about ranking, matching and tokenization. Most detectors are fixed answers; the two that
 * read the results are the majority vote over the `matched` labels and the mean score.
 */
module Analyzer {
  import opened Wrappers
  import opened Responses

  datatype RankingFactors = RankingFactors(dateInfluenced: bool, popularitySignals: bool, textRelevance: real)

  datatype Tokenization = Tokenization(splitsOnSpace: bool, removesStopwords: bool, usesStemming: bool)

  datatype Characteristics = Characteristics(rankingFactors: RankingFactors, matchingType: string, tokenization: Tokenization)

  const MatchingLabels: set<string> := {"fuzzy", "exact", "unknown"}

  /** The record `analyze_results` returns for an empty result list. */
  const Neutral: Characteristics :=
    Characteristics(RankingFactors(false, false, 0.0), "unknown", Tokenization(false, false, false))

  /** The number of results whose `matched` field is `tag`; a missing field matches no tag. */
  function CountMatched(results: seq<Hit>, tag: string): (n: nat)
    ensures n <= |results|
  {
    if |results| == 0 then 0
    else (if results[0].matched == Some(tag) then 1 else 0) + CountMatched(results[1..], tag)
  }

  lemma {:induction false} CountMatchedAppend(a: seq<Hit>, b: seq<Hit>, tag: string)
    ensures CountMatched(a + b, tag) == CountMatched(a, tag) + CountMatched(b, tag)
    decreases |a|
  {
    if |a| == 0 {
      assert a + b == b;
    } else {
      assert (a + b)[1..] == a[1..] + b;
      CountMatchedAppend(a[1..], b, tag);
    }
  }

  /** Taking out the result at `j` takes out its vote. */
  lemma {:induction false} CountMatchedRemove(b: seq<Hit>, j: nat, tag: string)
    requires j < |b|
    ensures CountMatched(b, tag) == CountMatched(b[..j] + b[j + 1..], tag) + CountMatched([b[j]], tag)
  {
    assert b == b[..j] + [b[j]] + b[j + 1..];
    CountMatchedAppend(b[..j] + [b[j]], b[j + 1..], tag);
    CountMatchedAppend(b[..j], [b[j]], tag);
    CountMatchedAppend(b[..j], b[j + 1..], tag);
  }

  /** Counting does not depend on the order of the results. */
  lemma {:induction false} CountMatchedPermutation(a: seq<Hit>, b: seq<Hit>, tag: string)
    requires multiset(a) == multiset(b)
    ensures CountMatched(a, tag) == CountMatched(b, tag)
    decreases |a|
  {
    if |a| > 0 {
      assert a[0] in multiset(b);
      var j :| 0 <= j < |b| && b[j] == a[0];
      MultisetOfRemoved(a, b, j);
      CountMatchedPermutation(a[1..], b[..j] + b[j + 1..], tag);
      CountMatchedRemove(b, j, tag);
    }
  }

  /** Removing the same element from two permutations of each other leaves permutations. */
  lemma {:induction false} MultisetOfRemoved(a: seq<Hit>, b: seq<Hit>, j: nat)
    requires multiset(a) == multiset(b) && |a| > 0 && j < |b| && b[j] == a[0]
    ensures multiset(a[1..]) == multiset(b[..j] + b[j + 1..])
  {
    assert b == b[..j] + [b[j]] + b[j + 1..];
    assert a == [a[0]] + a[1..];
    assert multiset(b[..j] + b[j + 1..]) == multiset(b) - multiset{a[0]};
  }

  /**
   * `detect_matching_algorithm`: "fuzzy" when fuzzy results outnumber exact ones, else
   * "exact" when there is some exact result, else "unknown".
   */
  function DetectMatchingAlgorithm(results: seq<Hit>): (m: string)
    ensures m in MatchingLabels
    ensures m == "fuzzy" <==> CountMatched(results, "fuzzy") > CountMatched(results, "exact")
    ensures m == "exact" <==> 0 < CountMatched(results, "exact") && CountMatched(results, "fuzzy") <= CountMatched(results, "exact")
    ensures m == "unknown" <==> CountMatched(results, "fuzzy") == 0 && CountMatched(results, "exact") == 0
  {
    if |results| == 0 then "unknown"
    else
      var fuzzy := CountMatched(results, "fuzzy");
      var exact := CountMatched(results, "exact");
      if fuzzy > exact then "fuzzy"
      else if exact > 0 then "exact"
      else "unknown"
  }

  /** The vote is a count: reordering the results never changes it. */
  lemma {:induction false} DetectIgnoresOrder(a: seq<Hit>, b: seq<Hit>)
    requires multiset(a) == multiset(b)
    ensures DetectMatchingAlgorithm(a) == DetectMatchingAlgorithm(b)
  {
    CountMatchedPermutation(a, b, "fuzzy");
    CountMatchedPermutation(a, b, "exact");
  }

  /** A result labelled neither "fuzzy" nor "exact", or not labelled at all, does not vote. */
  lemma {:induction false} DetectIgnoresOtherLabels(results: seq<Hit>, h: Hit)
    requires h.matched != Some("fuzzy") && h.matched != Some("exact")
    ensures DetectMatchingAlgorithm(results + [h]) == DetectMatchingAlgorithm(results)
  {
    CountMatchedAppend(results, [h], "fuzzy");
    CountMatchedAppend(results, [h], "exact");
  }

  /** The sum of the scores, a missing score counting 0. */
  function SumScores(results: seq<Hit>): real {
    if |results| == 0 then 0.0 else ScoreOrZero(results[0]) + SumScores(results[1..])
  }

  /** `_analyze_text_relevance`: the mean score, 0.0 for no results. */
  function TextRelevance(results: seq<Hit>): real {
    if |results| == 0 then 0.0 else SumScores(results) / (|results| as real)
  }

  lemma {:induction false} SumScoresBounds(results: seq<Hit>, lo: real, hi: real)
    requires forall i :: 0 <= i < |results| ==> lo <= ScoreOrZero(results[i]) <= hi
    ensures (|results| as real) * lo <= SumScores(results) <= (|results| as real) * hi
    decreases |results|
  {
    if |results| > 0 {
      SumScoresBounds(results[1..], lo, hi);
      assert lo <= ScoreOrZero(results[0]) <= hi;
      var k := |results[1..]| as real;
      assert |results| as real == k + 1.0;
      OneMore(k, lo);
      OneMore(k, hi);
    }
  }

  lemma {:induction false} OneMore(k: real, c: real)
    ensures (k + 1.0) * c == c + k * c
  {
  }

  /** The mean lies between the smallest and the largest score. */
  lemma {:induction false} TextRelevanceWithin(results: seq<Hit>, lo: real, hi: real)
    requires |results| > 0
    requires forall i :: 0 <= i < |results| ==> lo <= ScoreOrZero(results[i]) <= hi
    ensures lo <= TextRelevance(results) <= hi
  {
    SumScoresBounds(results, lo, hi);
    var n := |results| as real;
    var m := TextRelevance(results);
    assert m * n == SumScores(results);
    ScaleDown(lo, m, n);
    ScaleDown(m, hi, n);
  }

  /** Dividing both sides by a positive count keeps the order. */
  lemma {:induction false} ScaleDown(a: real, b: real, n: real)
    requires n > 0.0 && a * n <= b * n
    ensures a <= b
  {
    assert (b - a) * n >= 0.0;
  }

  /** `detect_ranking_factors`: the date and popularity detectors always answer false. */
  function DetectRankingFactors(results: seq<Hit>): (f: RankingFactors)
    ensures !f.dateInfluenced && !f.popularitySignals
  {
    RankingFactors(false, false, TextRelevance(results))
  }

  /** `detect_tokenization_method`: space splitting and stop-word removal are "some result came back". */
  function DetectTokenization(results: seq<Hit>): (t: Tokenization)
    ensures t.splitsOnSpace <==> |results| > 0
    ensures t.removesStopwords <==> |results| > 0
    ensures !t.usesStemming
  {
    Tokenization(|results| > 0, |results| > 0, false)
  }

  /** `analyze_results`: the neutral record for no results, else the three detectors' findings. */
  function AnalyzeResults(results: seq<Hit>): (c: Characteristics)
    ensures results == [] ==> c == Neutral
    ensures c.matchingType in MatchingLabels
    ensures c.tokenization.splitsOnSpace <==> |results| > 0
  {
    if |results| == 0 then Neutral
    else Characteristics(DetectRankingFactors(results), DetectMatchingAlgorithm(results), DetectTokenization(results))
  }

  /** The early return for no results agrees with what the detectors would have said anyway. */
  lemma {:induction false} EmptyGuardAgrees(results: seq<Hit>)
    ensures AnalyzeResults(results)
      == Characteristics(DetectRankingFactors(results), DetectMatchingAlgorithm(results), DetectTokenization(results))
  {
  }

  /** The matching type is "unknown" exactly when no result is labelled "fuzzy" or "exact". */
  lemma {:induction false} UnknownIffNoVotes(results: seq<Hit>)
    ensures AnalyzeResults(results).matchingType == "unknown"
      <==> CountMatched(results, "fuzzy") == 0 && CountMatched(results, "exact") == 0
  {
  }
}
