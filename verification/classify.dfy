/**
 * The three first-rule-wins classifiers of the adaptive strategy: the query category
 * that keys the success-rate table, the post-hoc pattern label recorded for
 * high-scoring queries, and the catalog domain a query belongs to.
 */
module Classify {
  import opened Wrappers
  import opened Text
  import opened Catalog

  const CategoryLabels: set<string> := {"exact", "partial", "fuzzy", "compound", "general"}

  /** Some character is neither alphanumeric nor whitespace. */
  predicate HasSymbol(q: string) {
    exists i | 0 <= i < |q| :: !IsAlnum(q[i]) && !IsSpace(q[i])
  }

  /**
   * The query category: more than two tokens is `exact`, one token is `partial`, then a
   * symbol makes it `fuzzy`, then a literal " AND " or " OR " makes it `compound`.
   */
  function Categorize(q: string): (c: string)
    ensures c in CategoryLabels
    ensures c == "exact" <==> |Words(q)| > 2
    ensures c == "partial" <==> |Words(q)| == 1
    ensures c == "fuzzy" <==> |Words(q)| <= 2 && |Words(q)| != 1 && HasSymbol(q)
    ensures c == "compound" <==> |Words(q)| <= 2 && |Words(q)| != 1 && !HasSymbol(q) && (Contains(q, " AND ") || Contains(q, " OR "))
    ensures c == "general" <==> |Words(q)| <= 2 && |Words(q)| != 1 && !HasSymbol(q) && !Contains(q, " AND ") && !Contains(q, " OR ")
  {
    var n := |Words(q)|;
    if n > 2 then "exact"
    else if n == 1 then "partial"
    else if HasSymbol(q) then "fuzzy"
    else if Contains(q, " AND ") || Contains(q, " OR ") then "compound"
    else "general"
  }

  /** A string holding a non-whitespace character is not blank. */
  lemma {:induction false} ContainedNonSpace(q: string, sub: string, k: nat)
    requires Contains(q, sub)
    requires k < |sub| && !IsSpace(sub[k])
    ensures !AllSpace(q)
  {
    var i :| 0 <= i <= |q| - |sub| && StartsWith(q[i..], sub);
    assert q[i + k] == q[i..][..|sub|][k];
  }

  /** The earlier rules shadow the later ones: `fuzzy` and `compound` need exactly two tokens. */
  lemma {:induction false} CategorizeTwoTokens(q: string)
    ensures Categorize(q) in {"fuzzy", "compound"} ==> |Words(q)| == 2
    ensures Categorize(q) == "general" ==> |Words(q)| != 1 && |Words(q)| <= 2
  {
    if |Words(q)| == 0 {
      WordsEmptyIffBlank(q);
      if Contains(q, " AND ") {
        ContainedNonSpace(q, " AND ", 1);
      }
      if Contains(q, " OR ") {
        ContainedNonSpace(q, " OR ", 1);
      }
    }
  }

  /** Three tokens or more are `exact` whatever they hold. */
  lemma {:induction false} CategorizeManyWords(ws: seq<string>)
    requires |ws| > 2
    requires forall k :: 0 <= k < |ws| ==> IsWord(ws[k])
    ensures Categorize(Unwords(ws)) == "exact"
  {
    WordsUnwords(ws);
  }

  /**
   * Two words joined by " AND " make three tokens, so the query is `exact` and never
   * reaches the `compound` rule.
   */
  lemma {:induction false} AndBetweenWordsIsExact(a: string, b: string)
    requires IsWord(a) && IsWord(b)
    ensures Categorize(a + " AND " + b) == "exact"
  {
    var ws := [a, "AND", b];
    assert Unwords(ws) == a + " " + Unwords(ws[1..]);
    assert Unwords(ws[1..]) == "AND" + " " + b;
    assert a + " AND " + b == a + " " + ("AND" + " " + b);
    CategorizeManyWords(ws);
  }

  /** One token is `partial` whatever it holds: "weird!!" never reaches the `fuzzy` rule. */
  lemma CategorizePartialExamples()
    ensures Categorize("solo") == "partial"
    ensures Categorize("weird!!") == "partial"
  {
    WordsSingle("solo");
    WordsSingle("weird!!");
  }

  lemma CategorizeEmpty()
    ensures Categorize("") == "general"
  {
  }

  lemma WordsCppCode()
    ensures Words("c++ code") == ["c++", "code"]
  {
    WordsCons("c++", "code");
    WordsSingle("code");
    assert "c++ code" == "c++" + " " + "code";
  }

  /** Two tokens with a symbol are `fuzzy`. */
  lemma CategorizeFuzzyExample()
    ensures Categorize("c++ code") == "fuzzy"
  {
    WordsCppCode();
    assert !IsAlnum("c++ code"[1]) && !IsSpace("c++ code"[1]);
  }

  lemma WordsXAnd()
    ensures Words("x AND ") == ["x", "AND"]
  {
    WordsCons("AND", "");
    assert Words("") == [];
    assert "AND " == "AND" + " " + "";
    WordsCons("x", "AND ");
    assert "x AND " == "x" + " " + "AND ";
  }

  /** Two tokens around a spaced " AND " are `compound`. */
  lemma CategorizeCompoundExample()
    ensures Categorize("x AND ") == "compound"
  {
    WordsXAnd();
    assert !HasSymbol("x AND ");
    assert StartsWith("x AND "[1..], " AND ");
  }

  const ShapeLabels: set<string> := {"phrase", "compound", "broad", "specific", "simple"}

  /**
   * The post-hoc label of an issued query, on its lowercased text: a quote is `phrase`,
   * " and " is `compound`, " or " is `broad`, a leading "advanced " is `specific`.
   */
  function IdentifyPattern(query: string): (shape: string)
    ensures shape in ShapeLabels
    ensures shape == "phrase" <==> ContainsChar(Lower(query), '"')
    ensures shape == "compound" <==> !ContainsChar(Lower(query), '"') && Contains(Lower(query), " and ")
    ensures shape == "broad" <==>
      !ContainsChar(Lower(query), '"') && !Contains(Lower(query), " and ") && Contains(Lower(query), " or ")
    ensures shape == "specific" <==>
      && !ContainsChar(Lower(query), '"') && !Contains(Lower(query), " and ") && !Contains(Lower(query), " or ")
      && StartsWith(Lower(query), "advanced ")
    ensures shape == "simple" <==>
      && !ContainsChar(Lower(query), '"') && !Contains(Lower(query), " and ") && !Contains(Lower(query), " or ")
      && !StartsWith(Lower(query), "advanced ")
  {
    var q := Lower(query);
    if ContainsChar(q, '"') then "phrase"
    else if Contains(q, " and ") then "compound"
    else if Contains(q, " or ") then "broad"
    else if StartsWith(q, "advanced ") then "specific"
    else "simple"
  }

  /** Every shape label is a non-empty string, so the `if pattern` guard always passes. */
  lemma {:induction false} ShapeLabelsNonEmpty(shape: string)
    requires shape in ShapeLabels
    ensures |shape| > 0
  {
    assert shape == "phrase" || shape == "compound" || shape == "broad" || shape == "specific" || shape == "simple";
  }

  /** Of the five labels only `simple` names a catalog pattern. */
  lemma {:induction false} ShapeLabelsResolve(shape: string)
    requires shape in ShapeLabels
    ensures PatternByName(shape).Some? <==> shape == "simple"
  {
  }

  /** A quote anywhere makes a `phrase`. */
  lemma IdentifyPhraseExample()
    ensures IdentifyPattern("\"x\"") == "phrase"
  {
    assert Lower("\"x\"")[0] == '"';
  }

  /** A spaced "and", in any case, makes a `compound`. */
  lemma IdentifyCompoundExample()
    ensures IdentifyPattern("x and y") == "compound"
  {
    LowerFixesLowercase("x and y");
    assert !ContainsChar("x and y", '"');
    assert StartsWith("x and y"[1..], " and ");
  }

  /** A spaced "or" makes `broad`. */
  lemma IdentifyBroadExample()
    ensures IdentifyPattern("x or y") == "broad"
  {
    LowerFixesLowercase("x or y");
    assert !ContainsChar("x or y", '"');
    assert "x or y"[0..][..5][1] == ' ' && "x or y"[1..][..5][1] == 'o';
    assert StartsWith("x or y"[1..], " or ");
  }

  /** A leading "advanced " makes `specific`. */
  lemma IdentifySpecificExample()
    ensures IdentifyPattern("advanced x") == "specific"
  {
    LowerFixesLowercase("advanced x");
    assert !ContainsChar("advanced x", '"');
    NotContainsByFirst("advanced x", " and ");
    NotContainsByFirst("advanced x", " or ");
  }

  /** A quoted query is a `phrase` whatever its term. */
  lemma {:induction false} QuotedIsPhrase(term: string, filler: nat)
    ensures IdentifyPattern(Apply(Quoted, term, filler)) == "phrase"
  {
    assert Lower(Apply(Quoted, term, filler))[0] == '"';
  }

  /** The domain's seed terms, lowercased. */
  function SeedSet(d: Domain): set<string> {
    set t | t in Seeds(d) :: Lower(t)
  }

  /** The query's lowercased whitespace tokens. */
  function QueryTermSet(q: string): set<string> {
    set w | w in Words(Lower(q))
  }

  predicate Overlaps(terms: set<string>, d: Domain) {
    terms * SeedSet(d) != {}
  }

  /** The position of the first element of `xs` satisfying `p`, or `|xs|`. */
  function FirstWhere<T>(p: T -> bool, xs: seq<T>): (i: nat)
    ensures i <= |xs|
    ensures i < |xs| ==> p(xs[i])
    ensures forall j :: 0 <= j < i ==> !p(xs[j])
  {
    if |xs| == 0 then 0
    else if p(xs[0]) then 0
    else
      var k := FirstWhere(p, xs[1..]);
      assert forall j :: 0 < j <= k ==> xs[j] == xs[1..][j - 1];
      1 + k
  }

  /** The position of the first domain of `ds` whose seeds share a term with `terms`, or `|ds|`. */
  function FirstOverlap(terms: set<string>, ds: seq<Domain>): (i: nat)
    ensures i <= |ds|
    ensures i < |ds| ==> Overlaps(terms, ds[i])
    ensures forall j :: 0 <= j < i ==> !Overlaps(terms, ds[j])
  {
    FirstWhere(d => Overlaps(terms, d), ds)
  }

  /** No catalog domain before position `i` overlaps `terms`. */
  predicate FirstOverlapping(terms: set<string>, i: nat) {
    forall j :: 0 <= j < i && j < |Domains| ==> !Overlaps(terms, Domains[j])
  }

  /** `_identify_domain`: the first catalog domain sharing a token with the query; `None` is "general". */
  function IdentifyDomain(q: string): (r: Option<Domain>)
    ensures r.None? <==> forall d :: d in Domains ==> !Overlaps(QueryTermSet(q), d)
    ensures r.Some? ==> Overlaps(QueryTermSet(q), r.value)
    ensures r.Some? ==> (exists i :: 0 <= i < |Domains| && Domains[i] == r.value && FirstOverlapping(QueryTermSet(q), i))
  {
    var i := FirstOverlap(QueryTermSet(q), Domains);
    if i < |Domains| then Some(Domains[i]) else None
  }

  /** The name `analyze_response` would use for the identified domain. */
  function DomainLabel(r: Option<Domain>): string {
    match r
    case Some(d) => DomainName(d)
    case None => "general"
  }

  /** A seed containing a space can never equal a whitespace token of any query. */
  lemma {:induction false} MultiWordSeedsNeverMatch(q: string, d: Domain, t: string)
    requires t in Seeds(d)
    requires ContainsChar(t, ' ')
    ensures Lower(t) !in QueryTermSet(q)
  {
    var i :| 0 <= i < |t| && t[i] == ' ';
    assert Lower(t)[i] == ' ';
  }

  /** The query `a b`, for two lowercase words, has exactly the tokens `a` and `b`. */
  lemma {:induction false} TwoWordTerms(a: string, b: string)
    requires IsWord(a) && IsWord(b) && HasNoUpper(a) && HasNoUpper(b)
    ensures QueryTermSet(a + " " + b) == {a, b}
  {
    assert HasNoUpper(a + " " + b) by {
      forall i | 0 <= i < |a + " " + b| ensures !IsUpper((a + " " + b)[i]) {
        if i < |a| {
          assert (a + " " + b)[i] == a[i];
        } else if i > |a| {
          assert (a + " " + b)[i] == b[i - |a| - 1];
        }
      }
    }
    LowerFixesLowercase(a + " " + b);
    WordsCons(a, b);
    WordsSingle(b);
  }

  /**
   * The tokens of the four multi-word seeds "data mining", "big data", "social media" and
   * "technical writing".
   */
  predicate OrphanToken(w: string) {
    w == "data" || w == "mining" || w == "big" || w == "social" || w == "media" || w == "technical" || w == "writing"
  }

  /**
   * What the catalog's seeds have in common: they neither begin nor end with a double
   * quote, and none is, lowercased, a token of the four multi-word seeds.
   */
  predicate PlainSeed(t: string) {
    |t| > 0 && t[0] != '"' && t[|t| - 1] != '"' && !OrphanToken(Lower(t))
  }

  lemma {:induction false} PlainSeedsAcademic(d: Domain)
    requires d in {GeneralAcademic, Science}
    ensures forall i :: 0 <= i < |Seeds(d)| ==> PlainSeed(Seeds(d)[i])
  {
    forall i | 0 <= i < |Seeds(d)| ensures PlainSeed(Seeds(d)[i]) {
      var t := Seeds(d)[i];
      assert Lower(t)[0] == LowerChar(t[0]) && Lower(t)[1] == LowerChar(t[1]);
    }
  }

  lemma {:induction false} PlainSeedsMathTech(d: Domain)
    requires d in {Mathematics, GeneralTech}
    ensures forall i :: 0 <= i < |Seeds(d)| ==> PlainSeed(Seeds(d)[i])
  {
    forall i | 0 <= i < |Seeds(d)| ensures PlainSeed(Seeds(d)[i]) {
      var t := Seeds(d)[i];
      assert Lower(t)[0] == LowerChar(t[0]) && Lower(t)[1] == LowerChar(t[1]);
    }
  }

  lemma {:induction false} PlainSeedsProgramming(d: Domain)
    requires d in {Programming, Languages}
    ensures forall i :: 0 <= i < |Seeds(d)| ==> PlainSeed(Seeds(d)[i])
  {
    forall i | 0 <= i < |Seeds(d)| ensures PlainSeed(Seeds(d)[i]) {
      var t := Seeds(d)[i];
      assert Lower(t)[0] == LowerChar(t[0]) && Lower(t)[1] == LowerChar(t[1]);
    }
  }

  lemma {:induction false} PlainSeedsWebData(d: Domain)
    requires d in {WebDev, DataScience}
    ensures forall i :: 0 <= i < |Seeds(d)| ==> PlainSeed(Seeds(d)[i])
  {
    forall i | 0 <= i < |Seeds(d)| ensures PlainSeed(Seeds(d)[i]) {
      var t := Seeds(d)[i];
      assert Lower(t)[0] == LowerChar(t[0]) && Lower(t)[1] == LowerChar(t[1]);
    }
  }

  lemma {:induction false} PlainSeedsBusiness(d: Domain)
    requires d in {Business, Marketing}
    ensures forall i :: 0 <= i < |Seeds(d)| ==> PlainSeed(Seeds(d)[i])
  {
    forall i | 0 <= i < |Seeds(d)| ensures PlainSeed(Seeds(d)[i]) {
      var t := Seeds(d)[i];
      assert Lower(t)[0] == LowerChar(t[0]) && Lower(t)[1] == LowerChar(t[1]);
    }
  }

  lemma {:induction false} PlainSeedsFinanceDesign(d: Domain)
    requires d in {Finance, Design}
    ensures forall i :: 0 <= i < |Seeds(d)| ==> PlainSeed(Seeds(d)[i])
  {
    forall i | 0 <= i < |Seeds(d)| ensures PlainSeed(Seeds(d)[i]) {
      var t := Seeds(d)[i];
      assert Lower(t)[0] == LowerChar(t[0]) && Lower(t)[1] == LowerChar(t[1]);
    }
  }

  lemma {:induction false} PlainSeedsMediaWriting(d: Domain)
    requires d in {Media, Writing}
    ensures forall i :: 0 <= i < |Seeds(d)| ==> PlainSeed(Seeds(d)[i])
  {
    forall i | 0 <= i < |Seeds(d)| ensures PlainSeed(Seeds(d)[i]) {
      var t := Seeds(d)[i];
      assert Lower(t)[0] == LowerChar(t[0]) && Lower(t)[1] == LowerChar(t[1]);
    }
  }

  lemma {:induction false} PlainSeedsEngineering(d: Domain)
    requires d in {Engineering, Healthcare}
    ensures forall i :: 0 <= i < |Seeds(d)| ==> PlainSeed(Seeds(d)[i])
  {
    forall i | 0 <= i < |Seeds(d)| ensures PlainSeed(Seeds(d)[i]) {
      var t := Seeds(d)[i];
      assert Lower(t)[0] == LowerChar(t[0]) && Lower(t)[1] == LowerChar(t[1]);
    }
  }

  lemma {:induction false} PlainSeedsManufacturing(d: Domain)
    requires d == Manufacturing
    ensures forall i :: 0 <= i < |Seeds(d)| ==> PlainSeed(Seeds(d)[i])
  {
    forall i | 0 <= i < |Seeds(d)| ensures PlainSeed(Seeds(d)[i]) {
      var t := Seeds(d)[i];
      assert Lower(t)[0] == LowerChar(t[0]) && Lower(t)[1] == LowerChar(t[1]);
    }
  }

  /** Every seed of the catalog is plain, checked two domains at a time. */
  lemma {:induction false} SeedsPlain(d: Domain)
    ensures forall i :: 0 <= i < |Seeds(d)| ==> PlainSeed(Seeds(d)[i])
  {
    if d in {GeneralAcademic, Science} {
      PlainSeedsAcademic(d);
    } else if d in {Mathematics, GeneralTech} {
      PlainSeedsMathTech(d);
    } else if d in {Programming, Languages} {
      PlainSeedsProgramming(d);
    } else if d in {WebDev, DataScience} {
      PlainSeedsWebData(d);
    } else if d in {Business, Marketing} {
      PlainSeedsBusiness(d);
    } else if d in {Finance, Design} {
      PlainSeedsFinanceDesign(d);
    } else if d in {Media, Writing} {
      PlainSeedsMediaWriting(d);
    } else if d in {Engineering, Healthcare} {
      PlainSeedsEngineering(d);
    } else {
      PlainSeedsManufacturing(d);
    }
  }

  /** No domain's lowercased seeds include a token of the four multi-word seeds. */
  lemma {:induction false} OrphanTokenUnseeded(w: string, d: Domain)
    requires OrphanToken(w)
    ensures w !in SeedSet(d)
  {
    SeedsPlain(d);
  }

  /** A token that begins or ends with a double quote is a seed of no domain. */
  lemma {:induction false} QuotedTokenUnseeded(w: string, d: Domain)
    requires |w| > 0 && (w[0] == '"' || w[|w| - 1] == '"')
    ensures w !in SeedSet(d)
  {
    SeedsPlain(d);
    QuotedNotPlain(w, Seeds(d));
  }

  /** Lowercasing a plain seed never produces a quote at either end. */
  lemma {:induction false} QuotedNotPlain(w: string, ts: seq<string>)
    requires |w| > 0 && (w[0] == '"' || w[|w| - 1] == '"')
    requires forall i :: 0 <= i < |ts| ==> PlainSeed(ts[i])
    ensures forall i :: 0 <= i < |ts| ==> Lower(ts[i]) != w
  {
    forall i | 0 <= i < |ts| ensures Lower(ts[i]) != w {
      var t := ts[i];
      if |t| == |w| {
        assert Lower(t)[0] == LowerChar(t[0]) && Lower(t)[|t| - 1] == LowerChar(t[|t| - 1]);
      }
    }
  }

  /**
   * Quoting a one-word term gives a query of no domain: its one token keeps both quotes,
   * so `analyze_response` raises on every "quoted" probe of a one-word seed.
   */
  lemma {:induction false} QuotedWordUnknown(t: string, filler: nat)
    requires IsWord(t)
    ensures IdentifyDomain(Apply(Quoted, t, filler)) == None
  {
    var q := Lower(Apply(Quoted, t, filler));
    QuotedWordTokens(t, filler);
    forall d | d in Domains ensures !Overlaps(QueryTermSet(Apply(Quoted, t, filler)), d) {
      QuotedTokenUnseeded(q, d);
    }
  }

  /**
   * Quoting a two-word term gives a query of no domain too: one token opens with the quote
   * and the other closes with it, so the "quoted" probe of a two-word seed raises as well.
   */
  lemma {:induction false} QuotedPairUnknown(a: string, b: string, filler: nat)
    requires IsWord(a) && IsWord(b)
    ensures IdentifyDomain(Apply(Quoted, a + " " + b, filler)) == None
  {
    QuotedPairTokens(a, b, filler);
    var first, second := "\"" + Lower(a), Lower(b) + "\"";
    assert QueryTermSet(Apply(Quoted, a + " " + b, filler)) == {first, second};
    forall d | d in Domains ensures !Overlaps(QueryTermSet(Apply(Quoted, a + " " + b, filler)), d) {
      QuotedTokenUnseeded(first, d);
      QuotedTokenUnseeded(second, d);
    }
  }

  /** Two lowercase words, each a token of those seeds, make a query of no domain. */
  lemma {:induction false} OrphanPairUnknown(a: string, b: string)
    requires IsWord(a) && IsWord(b) && HasNoUpper(a) && HasNoUpper(b)
    requires OrphanToken(a) && OrphanToken(b)
    ensures IdentifyDomain(a + " " + b) == None
  {
    TwoWordTerms(a, b);
    forall d | d in Domains ensures !Overlaps(QueryTermSet(a + " " + b), d) {
      OrphanTokenUnseeded(a, d);
      OrphanTokenUnseeded(b, d);
    }
  }

  /** The query `a b` for two lowercase words that are tokens of those seeds is of no domain. */
  lemma {:induction false} OrphanWordsUnknown(a: string, b: string)
    requires (a, b) in {("data", "mining"), ("big", "data"), ("social", "media"), ("technical", "writing")}
    ensures IdentifyDomain(a + " " + b) == None
  {
    assert IsWord(a) && IsWord(b) && HasNoUpper(a) && HasNoUpper(b);
    OrphanPairUnknown(a, b);
  }

  /**
   * Four of the five multi-word seeds, "data mining", "big data", "social media" and
   * "technical writing", share no token with any seed, so the exploration probe that draws
   * one of them is identified as "general", on which `analyze_response` raises.
   */
  lemma {:induction false} OrphanSeedsUnknown(d: Domain, i: nat)
    requires (d, i) in {(DataScience, 2), (DataScience, 3), (Marketing, 3), (Writing, 2)}
    ensures i < |Seeds(d)| && ContainsChar(Seeds(d)[i], ' ')
    ensures IdentifyDomain(Seeds(d)[i]) == None
  {
    var t := Seeds(d)[i];
    if d == DataScience && i == 2 {
      assert t == "data" + " " + "mining" && t[4] == ' ';
      OrphanWordsUnknown("data", "mining");
    } else if d == DataScience {
      assert t == "big" + " " + "data" && t[3] == ' ';
      OrphanWordsUnknown("big", "data");
    } else if d == Marketing {
      assert t == "social" + " " + "media" && t[6] == ' ';
      OrphanWordsUnknown("social", "media");
    } else {
      assert t == "technical" + " " + "writing" && t[9] == ' ';
      OrphanWordsUnknown("technical", "writing");
    }
  }

  /** "learning" is a general_academic seed. */
  lemma {:induction false} LearningIsAcademic(terms: set<string>)
    requires "learning" in terms
    ensures Overlaps(terms, GeneralAcademic)
  {
    var t := Seeds(GeneralAcademic)[1];
    LowerFixesLowercase(t);
    assert t in Seeds(GeneralAcademic) && Lower(t) == "learning";
    assert "learning" in terms * SeedSet(GeneralAcademic);
  }

  /**
   * A lowercase word followed by "learning" is identified as general_academic, the first
   * domain of the catalog, whatever the first word is.
   */
  lemma {:induction false} ThenLearningIsAcademic(a: string)
    requires IsWord(a) && HasNoUpper(a)
    ensures IdentifyDomain(a + " " + "learning") == Some(GeneralAcademic)
  {
    assert IsWord("learning") && HasNoUpper("learning");
    TwoWordTerms(a, "learning");
    LearningIsAcademic(QueryTermSet(a + " " + "learning"));
    DomainsHead();
    FirstOverlapAt(QueryTermSet(a + " " + "learning"), Domains, 0);
  }

  /**
   * Of the catalog's multi-word seeds, "machine learning" is identified at all only through
   * its token "learning", which puts the data_science probe in general_academic.
   */
  lemma {:induction false} MachineLearningIsAcademic(q: string)
    requires q == "machine learning"
    ensures q in Seeds(DataScience)
    ensures IdentifyDomain(q) == Some(GeneralAcademic)
  {
    assert Seeds(DataScience)[1] == q;
    var a := "machine";
    assert IsWord(a) && HasNoUpper(a);
    assert q == a + " " + "learning";
    ThenLearningIsAcademic(a);
  }

  /**
   * The "quoted" pattern keeps its quotes on the tokens: quoting a one-word term gives a
   * single token that begins and ends with a double quote.
   */
  lemma {:induction false} QuotedWordTokens(t: string, filler: nat)
    requires IsWord(t)
    ensures var q := Lower(Apply(Quoted, t, filler));
      Words(q) == [q] && q[0] == '"' && q[|q| - 1] == '"'
  {
    var q := Lower(Apply(Quoted, t, filler));
    assert IsWord(q) by {
      forall k | 0 <= k < |q| ensures !IsSpace(q[k]) {
        if 0 < k < |q| - 1 {
          assert Apply(Quoted, t, filler)[k] == t[k - 1];
        }
      }
    }
    WordsSingle(q);
  }

  /**
   * Quoting a two-word term gives two tokens, the first opening with the quote and the
   * second closing with it: neither is the bare word.
   */
  lemma {:induction false} QuotedPairTokens(a: string, b: string, filler: nat)
    requires IsWord(a) && IsWord(b)
    ensures Words(Lower(Apply(Quoted, a + " " + b, filler))) == ["\"" + Lower(a), Lower(b) + "\""]
  {
    var raw := Apply(Quoted, a + " " + b, filler);
    var first, second := "\"" + Lower(a), Lower(b) + "\"";
    assert Lower(raw) == first + " " + second by {
      assert raw == ("\"" + a) + " " + (b + "\"");
    }
    assert IsWord(first) by {
      forall k | 0 < k < |first| ensures !IsSpace(first[k]) {
        assert first[k] == LowerChar(a[k - 1]);
      }
    }
    assert IsWord(second) by {
      forall k | 0 <= k < |second| - 1 ensures !IsSpace(second[k]) {
        assert second[k] == LowerChar(b[k]);
      }
    }
    WordsCons(first, second);
    WordsSingle(second);
  }

  /** "software" is not a seed of the first three catalog domains... */
  lemma SoftwareNotAcademic()
    ensures !Overlaps({"software"}, GeneralAcademic)
  {
    forall t | t in Seeds(GeneralAcademic) ensures Lower(t) != "software" {
      if |t| == 8 { assert Lower(t)[0] == LowerChar(t[0]); }
    }
  }

  lemma SoftwareNotScience()
    ensures !Overlaps({"software"}, Science)
  {
    forall t | t in Seeds(Science) ensures Lower(t) != "software" {
      if |t| == 8 { assert Lower(t)[0] == LowerChar(t[0]); }
    }
  }

  lemma SoftwareNotMathematics()
    ensures !Overlaps({"software"}, Mathematics)
  {
    forall t | t in Seeds(Mathematics) ensures Lower(t) != "software" {
      if |t| == 8 { assert Lower(t)[0] == LowerChar(t[0]); }
    }
  }

  /** ...but is one of general_tech, the fourth (and of programming, further on). */
  lemma SoftwareInGeneralTech()
    ensures Overlaps({"software"}, GeneralTech)
  {
    var t := Seeds(GeneralTech)[3];
    LowerFixesLowercase(t);
    assert t in Seeds(GeneralTech) && Lower(t) == "software";
    assert "software" in SeedSet(GeneralTech);
    assert "software" in {"software"} * SeedSet(GeneralTech);
  }

  lemma DomainsHead()
    ensures Domains[0] == GeneralAcademic && Domains[1] == Science && Domains[2] == Mathematics && Domains[3] == GeneralTech
  {
  }

  /** Declaration order breaks ties: the shared seed "software" goes to the earlier domain. */
  lemma {:induction false} SoftwareOverlapsFirstAtGeneralTech(terms: set<string>)
    requires terms == {"software"}
    ensures FirstOverlap(terms, Domains) == 3
  {
    SoftwareNotAcademic();
    SoftwareNotScience();
    SoftwareNotMathematics();
    SoftwareInGeneralTech();
    DomainsHead();
    var ds := Domains;
    assert forall j :: 0 <= j < 3 ==> !Overlaps(terms, ds[j]);
    FirstOverlapAt(terms, ds, 3);
  }

  /** The first overlap is at `k` when `k` overlaps and nothing before it does. */
  lemma {:induction false} FirstOverlapAt(terms: set<string>, ds: seq<Domain>, k: nat)
    requires k < |ds| && Overlaps(terms, ds[k])
    requires forall j :: 0 <= j < k ==> !Overlaps(terms, ds[j])
    ensures FirstOverlap(terms, ds) == k
  {
  }

  lemma SoftwareTerms()
    ensures QueryTermSet("software") == {"software"}
  {
    LowerFixesLowercase("software");
    WordsSingle("software");
  }

  /** The query "software" is identified as general_tech. */
  lemma IdentifySoftware()
    ensures IdentifyDomain("software") == Some(GeneralTech)
  {
    SoftwareTerms();
    SoftwareOverlapsFirstAtGeneralTech(QueryTermSet("software"));
    DomainsHead();
  }
}
