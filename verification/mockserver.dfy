/**
 * The mock search endpoint the engineer is tested against: query normalisation, stop-word
 * filtering, the additive document score with its fuzzy bonus and popularity boost, the
 * "fuzzy"/"exact" label, the sort on the rounded score, the cap of twenty results, and the
 * guard that answers a missing or empty query with nothing.
 */
module MockServer {
  import opened Wrappers
  import opened Text
  import opened Sorting

  /**
   * One corpus document. `rating` is `popularity.average_rating` when the document has a
   * popularity record, `published` its publication date when it has one.
   */
  datatype Doc = Doc(id: int, title: string, content: string, rating: Option<real>, published: Option<string>)

  /** One reported result: `score` is the rounded score, `matched` is decided on the raw one. */
  datatype Found = Found(id: int, title: string, score: real, matched: string, published: string, rating: Option<real>)

  const StopWords: set<string> := {"the", "is", "at", "which", "on", "a", "an", "and", "or", "but"}

  const MaxResults: nat := 20

  // Rounding

  /** Python's `round(x, 2)` on an exact value: the nearest hundredth, ties to the even hundredth. */
  function Round2(x: real): (r: real)
    ensures x - 0.005 <= r <= x + 0.005
  {
    var y := x * 100.0;
    var f := y.Floor;
    var d := y - f as real;
    var n := if d < 0.5 then f else if d > 0.5 then f + 1 else if f % 2 == 0 then f else f + 1;
    n as real / 100.0
  }

  /** Rounding never reverses an order, so sorting on rounded scores never puts a lower raw score strictly first. */
  lemma {:induction false} Round2Monotone(x: real, y: real)
    requires x <= y
    ensures Round2(x) <= Round2(y)
  {
    var fx, fy := (x * 100.0).Floor, (y * 100.0).Floor;
    assert fx <= fy;
    if fx == fy {
      var dx, dy := x * 100.0 - fx as real, y * 100.0 - fx as real;
      assert dx <= dy;
    } else {
      assert fx + 1 <= fy;
    }
  }

  /** A whole number of hundredths is left alone: rounding twice is rounding once. */
  lemma {:induction false} Round2Hundredths(n: int)
    ensures Round2(n as real / 100.0) == n as real / 100.0
  {
    var y := (n as real / 100.0) * 100.0;
    assert y == n as real;
    assert y.Floor == n;
  }

  lemma {:induction false} Round2Idempotent(x: real)
    ensures Round2(Round2(x)) == Round2(x)
  {
    var y := x * 100.0;
    var f := y.Floor;
    var d := y - f as real;
    var n := if d < 0.5 then f else if d > 0.5 then f + 1 else if f % 2 == 0 then f else f + 1;
    assert Round2(x) == n as real / 100.0;
    Round2Hundredths(n);
  }

  // Query normalisation

  predicate Kept(c: char) {
    IsAlnum(c) || IsSpace(c)
  }

  /** The characters of `s` that are alphanumeric or whitespace, in order. */
  function KeepAlnumSpace(s: string): (r: string)
    ensures |r| <= |s|
    ensures forall i :: 0 <= i < |r| ==> Kept(r[i])
    ensures HasNoUpper(s) ==> HasNoUpper(r)
  {
    if |s| == 0 then []
    else (if Kept(s[0]) then [s[0]] else []) + KeepAlnumSpace(s[1..])
  }

  /** Filtering a string that has nothing to drop changes nothing. */
  lemma {:induction false} KeepAllKept(s: string)
    requires forall i :: 0 <= i < |s| ==> Kept(s[i])
    ensures KeepAlnumSpace(s) == s
    decreases |s|
  {
    if |s| > 0 {
      KeepAllKept(s[1..]);
      assert s == [s[0]] + s[1..];
    }
  }

  /** A string with no alphanumeric or whitespace character filters to nothing. */
  lemma {:induction false} KeepNoneKept(s: string)
    requires forall i :: 0 <= i < |s| ==> !Kept(s[i])
    ensures KeepAlnumSpace(s) == ""
    decreases |s|
  {
    if |s| > 0 {
      KeepNoneKept(s[1..]);
    }
  }

  /** `query.lower()` followed by dropping every character that is neither alphanumeric nor whitespace. */
  function Normalize(q: string): (r: string)
    ensures |r| <= |q|
    ensures HasNoUpper(r) && forall i :: 0 <= i < |r| ==> Kept(r[i])
  {
    KeepAlnumSpace(Lower(q))
  }

  /** Normalising a normalised query changes nothing. */
  lemma {:induction false} NormalizeIdempotent(q: string)
    ensures Normalize(Normalize(q)) == Normalize(q)
  {
    var r := Normalize(q);
    LowerFixesLowercase(r);
    KeepAllKept(r);
  }

  // Terms

  /** The words not in the stop list, in order, repeats kept. */
  function DropStopWords(ws: seq<string>): (ts: seq<string>)
    ensures |ts| <= |ws|
    ensures forall i :: 0 <= i < |ts| ==> ts[i] !in StopWords
  {
    if |ws| == 0 then []
    else (if ws[0] in StopWords then [] else [ws[0]]) + DropStopWords(ws[1..])
  }

  /** A word survives the stop list exactly when it is not a stop word. */
  lemma {:induction false} DropStopWordsMembers(ws: seq<string>, t: string)
    ensures t in DropStopWords(ws) <==> t in ws && t !in StopWords
    decreases |ws|
  {
    if |ws| > 0 {
      DropStopWordsMembers(ws[1..], t);
      assert ws == [ws[0]] + ws[1..];
    }
  }

  function Terms(query: string): (ts: seq<string>)
    ensures forall i :: 0 <= i < |ts| ==> IsWord(ts[i]) && ts[i] !in StopWords
  {
    var ws := Words(query);
    var ts := DropStopWords(ws);
    assert forall i :: 0 <= i < |ts| ==> IsWord(ts[i]) by {
      forall i | 0 <= i < |ts| ensures IsWord(ts[i]) {
        DropStopWordsMembers(ws, ts[i]);
        var k :| 0 <= k < |ws| && ws[k] == ts[i];
      }
    }
    ts
  }

  /** The terms are the words of the query that are not stop words. */
  lemma {:induction false} TermsMembers(query: string, t: string)
    ensures t in Terms(query) <==> t in Words(query) && t !in StopWords
  {
    DropStopWordsMembers(Words(query), t);
  }

  // Fuzzy matching

  /** The positions where `a` and `b` differ, counted over the shorter length as `zip` does. */
  function Mismatches(a: string, b: string): (n: nat)
    ensures n <= |a| && n <= |b|
  {
    if |a| == 0 || |b| == 0 then 0
    else (if a[0] != b[0] then 1 else 0) + Mismatches(a[1..], b[1..])
  }

  /** `word` is within one character of `term`: lengths at most one apart and at most one differing position. */
  predicate Close(term: string, word: string) {
    -1 <= |word| - |term| <= 1 && Mismatches(term, word) <= 1
  }

  /** `_fuzzy_match`: some whitespace-separated word of `text` is close to `term`. */
  predicate FuzzyMatch(term: string, text: string) {
    var ws := Words(text);
    exists i :: 0 <= i < |ws| && Close(term, ws[i])
  }

  lemma {:induction false} MismatchesSelf(w: string)
    ensures Mismatches(w, w) == 0
    decreases |w|
  {
    if |w| > 0 {
      MismatchesSelf(w[1..]);
    }
  }

  /** One substituted character is one mismatch. */
  lemma {:induction false} MismatchesOneTypo(a: string, c: char, d: char, b: string)
    ensures Mismatches(a + [c] + b, a + [d] + b) == if c == d then 0 else 1
    decreases |a|
  {
    if |a| == 0 {
      assert a + [c] + b == [c] + b && a + [d] + b == [d] + b;
      assert ([c] + b)[1..] == b && ([d] + b)[1..] == b;
      MismatchesSelf(b);
    } else {
      assert (a + [c] + b)[1..] == a[1..] + [c] + b;
      assert (a + [d] + b)[1..] == a[1..] + [d] + b;
      MismatchesOneTypo(a[1..], c, d, b);
    }
  }

  /** One extra character at the end is invisible to `zip`. */
  lemma {:induction false} MismatchesPrefix(w: string, tail: string)
    ensures Mismatches(w, w + tail) == 0
    decreases |w|
  {
    if |w| > 0 {
      assert (w + tail)[1..] == w[1..] + tail;
      MismatchesPrefix(w[1..], tail);
    }
  }

  /** A word is close to itself, to itself with one character replaced, and to itself with one character appended. */
  lemma {:induction false} CloseCases(w: string, a: string, c: char, d: char, b: string, e: char)
    ensures Close(w, w)
    ensures Close(a + [c] + b, a + [d] + b)
    ensures Close(w, w + [e]) && Close(w + [e], w)
  {
    MismatchesSelf(w);
    MismatchesOneTypo(a, c, d, b);
    MismatchesPrefix(w, [e]);
    MismatchesSymmetric(w + [e], w);
  }

  lemma {:induction false} MismatchesSymmetric(a: string, b: string)
    ensures Mismatches(a, b) == Mismatches(b, a)
    decreases |a|
  {
    if |a| > 0 && |b| > 0 {
      MismatchesSymmetric(a[1..], b[1..]);
    }
  }

  /** Words two or more characters longer or shorter never match. */
  lemma {:induction false} FarLengthsNeverClose(term: string, word: string)
    requires |word| >= |term| + 2 || |term| >= |word| + 2
    ensures !Close(term, word)
  {
  }

  /** A term that is itself a word of the text always fuzzy-matches it. */
  lemma {:induction false} WordsFuzzyMatch(term: string, text: string)
    requires term in Words(text)
    ensures FuzzyMatch(term, text)
  {
    var ws := Words(text);
    var i :| 0 <= i < |ws| && ws[i] == term;
    MismatchesSelf(term);
    assert Close(term, ws[i]);
  }

  // Scoring

  /** 0.7 for every term found in the title, 0.3 for every term found in the content, repeats counted again. */
  function TermScore(terms: seq<string>, title: string, content: string): (s: real)
    ensures 0.0 <= s <= (|terms| as real) * 1.0
  {
    if |terms| == 0 then 0.0
    else
      (if Contains(title, terms[0]) then 0.7 else 0.0) + (if Contains(content, terms[0]) then 0.3 else 0.0)
      + TermScore(terms[1..], title, content)
  }

  /** Some term fuzzy-matches the title and content joined by a space. */
  predicate AnyFuzzy(terms: seq<string>, text: string) {
    exists i :: 0 <= i < |terms| && FuzzyMatch(terms[i], text)
  }

  /** The score before the popularity boost. */
  function BaseScore(doc: Doc, query: string, terms: seq<string>): (s: real)
    ensures s >= 0.0
    ensures Contains(Lower(doc.title), query) ==> s >= 2.0
    ensures Contains(Lower(doc.content), query) ==> s >= 1.0
  {
    var title := Lower(doc.title);
    var content := Lower(doc.content);
    (if Contains(title, query) then 2.0 else 0.0)
    + (if Contains(content, query) then 1.0 else 0.0)
    + TermScore(terms, title, content)
    + (if AnyFuzzy(terms, title + " " + content) then 0.3 else 0.0)
  }

  /** The document's score: the base score, plus a tenth of the rating when the base is positive and there is a rating. */
  function Score(doc: Doc, query: string, terms: seq<string>): (s: real)
    ensures doc.rating.None? ==> s == BaseScore(doc, query, terms)
    ensures doc.rating.Some? && doc.rating.value >= 0.0 ==> s >= BaseScore(doc, query, terms)
    ensures BaseScore(doc, query, terms) == 0.0 ==> s == 0.0
  {
    var base := BaseScore(doc, query, terms);
    if base > 0.0 && doc.rating.Some? then base + (doc.rating.value / 5.0) * 0.5 else base
  }

  /** A reported score and label agree: a "fuzzy" result never shows above 1.0, an "exact" one never below. */
  predicate Labelled(f: Found) {
    (f.matched == "fuzzy" && f.score <= 1.0) || (f.matched == "exact" && f.score >= 1.0)
  }

  /** Rounding keeps a score on its side of 1.0, the threshold between the two labels (1.0 itself included). */
  lemma {:induction false} RoundedSideOfOne(raw: real)
    ensures raw < 1.0 ==> Round2(raw) <= 1.0
    ensures raw >= 1.0 ==> Round2(raw) >= 1.0
  {
    Round2Hundredths(100);
    if raw < 1.0 {
      Round2Monotone(raw, 1.0);
    } else {
      Round2Monotone(1.0, raw);
    }
  }

  /** The record reported for a document whose raw score is `raw`. */
  function Reported(doc: Doc, raw: real): (f: Found)
    ensures f.matched == (if raw < 1.0 then "fuzzy" else "exact")
    ensures Labelled(f)
    ensures f.id == doc.id && f.title == doc.title
  {
    RoundedSideOfOne(raw);
    Found(doc.id, doc.title, Round2(raw), if raw < 1.0 then "fuzzy" else "exact", doc.published.GetOr(""), doc.rating)
  }

  /** One record per document with a positive score, in corpus order. */
  function Collect(docs: seq<Doc>, query: string, terms: seq<string>): (fs: seq<Found>)
    ensures |fs| <= |docs|
    ensures forall i :: 0 <= i < |fs| ==> Labelled(fs[i])
  {
    if |docs| == 0 then []
    else
      var raw := Score(docs[0], query, terms);
      (if raw > 0.0 then [Reported(docs[0], raw)] else []) + Collect(docs[1..], query, terms)
  }

  /** A record is collected exactly when it reports a document of the corpus with a positive score. */
  lemma {:induction false} CollectMembers(docs: seq<Doc>, query: string, terms: seq<string>, f: Found)
    ensures f in Collect(docs, query, terms)
      <==> exists d :: d in docs && Score(d, query, terms) > 0.0 && f == Reported(d, Score(d, query, terms))
    decreases |docs|
  {
    if |docs| > 0 {
      CollectMembers(docs[1..], query, terms, f);
      assert docs == [docs[0]] + docs[1..];
      if f in Collect(docs[1..], query, terms) {
        var d :| d in docs[1..] && Score(d, query, terms) > 0.0 && f == Reported(d, Score(d, query, terms));
        assert d in docs;
      }
    }
  }

  function ScoreKey(f: Found): real {
    f.score
  }

  /** `search_documents`: score every document, keep the positive ones, sort on the rounded score, keep the first twenty. */
  function SearchDocuments(docs: seq<Doc>, q: string): (rs: seq<Found>)
    ensures |rs| <= MaxResults
    ensures NonIncreasing(rs, ScoreKey)
    ensures forall i :: 0 <= i < |rs| ==> Labelled(rs[i]) && rs[i] in Collect(docs, Normalize(q), Terms(Normalize(q)))
    ensures var found := Collect(docs, Normalize(q), Terms(Normalize(q)));
      && |rs| == (if |found| < MaxResults then |found| else MaxResults)
      && multiset(rs) <= multiset(found)
      && forall f, i :: f in found && f !in rs && 0 <= i < |rs| ==> ScoreKey(f) <= ScoreKey(rs[i])
  {
    var query := Normalize(q);
    var found := Collect(docs, query, Terms(query));
    var sorted := SortDesc(found, ScoreKey);
    SameMembers(sorted, found);
    TakeKeeps(sorted, MaxResults, ScoreKey, found);
    TakeBest(sorted, MaxResults, ScoreKey, found);
    Take(sorted, MaxResults)
  }

  lemma {:induction false} SameMembers<T>(a: seq<T>, b: seq<T>)
    requires multiset(a) == multiset(b)
    ensures forall i :: 0 <= i < |a| ==> a[i] in b
  {
    forall i | 0 <= i < |a| ensures a[i] in b {
      assert a[i] in multiset(a);
    }
  }

  /** A prefix of a sorted list is sorted and draws from the same pool. */
  lemma {:induction false} TakeKeeps<T>(s: seq<T>, n: nat, key: T -> real, pool: seq<T>)
    requires NonIncreasing(s, key)
    requires forall i :: 0 <= i < |s| ==> s[i] in pool
    ensures NonIncreasing(Take(s, n), key)
    ensures forall i :: 0 <= i < |Take(s, n)| ==> Take(s, n)[i] in pool
  {
  }

  /** When at most twenty documents score, every one of them is reported. */
  lemma {:induction false} FewScoringAllReported(docs: seq<Doc>, q: string, d: Doc)
    requires |Collect(docs, Normalize(q), Terms(Normalize(q)))| <= MaxResults
    requires d in docs && Score(d, Normalize(q), Terms(Normalize(q))) > 0.0
    ensures Reported(d, Score(d, Normalize(q), Terms(Normalize(q)))) in SearchDocuments(docs, q)
  {
    var query := Normalize(q);
    var f := Reported(d, Score(d, query, Terms(query)));
    CollectMembers(docs, query, Terms(query), f);
    var sorted := SortDesc(Collect(docs, query, Terms(query)), ScoreKey);
    assert f in multiset(sorted);
  }

  /** The `/search` endpoint: a missing or empty `q` gets an empty list without searching. */
  function Search(docs: seq<Doc>, q: Option<string>): (rs: seq<Found>)
    ensures q.None? || q == Some("") ==> rs == []
  {
    if q.None? || q.value == "" then [] else SearchDocuments(docs, q.value)
  }

  /** Nothing scores for a term that neither the title nor the content contains. */
  lemma {:induction false} TermScoreAbsent(terms: seq<string>, title: string, content: string)
    requires forall i :: 0 <= i < |terms| ==> !Contains(title, terms[i]) && !Contains(content, terms[i])
    ensures TermScore(terms, title, content) == 0.0
    decreases |terms|
  {
    if |terms| > 0 {
      TermScoreAbsent(terms[1..], title, content);
    }
  }

  lemma {:induction false} ContainsEmpty(s: string)
    ensures Contains(s, "")
  {
    assert StartsWith(s[0..], "");
  }

  /**
   * A non-empty query made only of punctuation passes the endpoint's guard but normalises
   * to the empty string, which every title and content contains: every document without
   * a negative rating scores at least 3.0 and is collected as "exact".
   */
  lemma {:induction false} PunctuationMatchesEverything(docs: seq<Doc>, q: string, d: Doc)
    requires q != "" && forall i :: 0 <= i < |q| ==> !Kept(q[i])
    requires d in docs && (d.rating.None? || d.rating.value >= 0.0)
    ensures Normalize(q) == "" && Terms(Normalize(q)) == []
    ensures Score(d, Normalize(q), Terms(Normalize(q))) >= 3.0
    ensures Reported(d, Score(d, "", [])) in Collect(docs, "", []) && Reported(d, Score(d, "", [])).matched == "exact"
  {
    KeepNoneKept(Lower(q));
    assert Words("") == [];
    ContainsEmpty(Lower(d.title));
    ContainsEmpty(Lower(d.content));
    CollectMembers(docs, "", [], Reported(d, Score(d, "", [])));
  }

  /**
   * A document that only a typo reaches (no phrase hit, no term in the title or the content,
   * one term within one character of a word, no rating) scores 0.3 and is reported "fuzzy".
   */
  lemma {:induction false} TypoOnlyIsFuzzy(doc: Doc, query: string, terms: seq<string>)
    requires !Contains(Lower(doc.title), query) && !Contains(Lower(doc.content), query)
    requires forall i :: 0 <= i < |terms| ==> !Contains(Lower(doc.title), terms[i]) && !Contains(Lower(doc.content), terms[i])
    requires AnyFuzzy(terms, Lower(doc.title) + " " + Lower(doc.content))
    requires doc.rating.None?
    ensures Score(doc, query, terms) == 0.3
    ensures Reported(doc, 0.3).matched == "fuzzy" && Reported(doc, 0.3).score == 0.3
  {
    TermScoreAbsent(terms, Lower(doc.title), Lower(doc.content));
    Round2Hundredths(30);
  }

  /** The label is decided before rounding: a raw 0.996 is "fuzzy" yet shows as 1.0. */
  lemma {:induction false} FuzzyCanShowOne(doc: Doc)
    ensures Reported(doc, 0.996).matched == "fuzzy" && Reported(doc, 0.996).score == 1.0
  {
    assert (0.996 * 100.0).Floor == 99;
  }
}
