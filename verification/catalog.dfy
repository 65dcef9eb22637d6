/**
 * The static knowledge of the adaptive strategy: seventeen named domains, each with
 * its seed terms in declaration order, and twelve named query patterns that turn a
 * seed term into a query. The patterns that draw a random word take the draw as the
 * `filler` index; every index is a possible outcome of `random.choice`.
 */
module Catalog {
  import opened Wrappers
  import opened Text

  datatype Domain =
    | GeneralAcademic | Science | Mathematics
    | GeneralTech | Programming | Languages | WebDev | DataScience
    | Business | Marketing | Finance
    | Design | Media | Writing
    | Engineering | Healthcare | Manufacturing

  /** The domains in the order the catalog declares them. */
  const Domains: seq<Domain> := [
    GeneralAcademic, Science, Mathematics,
    GeneralTech, Programming, Languages, WebDev, DataScience,
    Business, Marketing, Finance,
    Design, Media, Writing,
    Engineering, Healthcare, Manufacturing
  ]

  const DomainCount: nat := 17

  function DomainName(d: Domain): string {
    match d
    case GeneralAcademic => "general_academic"
    case Science => "science"
    case Mathematics => "mathematics"
    case GeneralTech => "general_tech"
    case Programming => "programming"
    case Languages => "languages"
    case WebDev => "web_dev"
    case DataScience => "data_science"
    case Business => "business"
    case Marketing => "marketing"
    case Finance => "finance"
    case Design => "design"
    case Media => "media"
    case Writing => "writing"
    case Engineering => "engineering"
    case Healthcare => "healthcare"
    case Manufacturing => "manufacturing"
  }

  function Seeds(d: Domain): (terms: seq<string>)
    ensures |terms| > 0
  {
    match d
    case GeneralAcademic => ["education", "learning", "study", "course", "tutorial", "guide", "introduction"]
    case Science => ["research", "experiment", "theory", "analysis", "methodology", "scientific"]
    case Mathematics => ["math", "calculus", "algebra", "statistics", "probability", "equations"]
    case GeneralTech => ["technology", "digital", "computer", "software", "hardware", "system", "platform"]
    case Programming => ["coding", "development", "software", "algorithm", "debugging", "implementation"]
    case Languages => ["python", "javascript", "java", "cpp", "rust", "golang", "ruby", "php"]
    case WebDev => ["frontend", "backend", "fullstack", "web", "html", "css", "api", "rest"]
    case DataScience => ["analytics", "machine learning", "data mining", "big data", "visualization", "prediction"]
    case Business => ["management", "strategy", "planning", "organization", "leadership", "innovation"]
    case Marketing => ["advertising", "branding", "marketing", "social media", "content", "seo"]
    case Finance => ["investment", "trading", "economics", "financial", "accounting", "market"]
    case Design => ["design", "creative", "art", "visual", "graphic", "typography", "layout"]
    case Media => ["video", "audio", "multimedia", "animation", "production", "editing"]
    case Writing => ["content", "documentation", "technical writing", "blogging", "copywriting"]
    case Engineering => ["mechanical", "electrical", "civil", "chemical", "industrial", "engineering"]
    case Healthcare => ["medical", "health", "clinical", "patient", "diagnosis", "treatment"]
    case Manufacturing => ["production", "assembly", "quality", "automation", "industrial", "process"]
  }

  predicate Distinct<T(==)>(s: seq<T>) {
    forall i, j :: 0 <= i < j < |s| ==> s[i] != s[j]
  }

  /** The first element of a duplicate-free sequence does not occur again. */
  lemma {:induction false} HeadNotInTail<T>(s: seq<T>)
    requires |s| > 0 && Distinct(s)
    ensures s[0] !in s[1..]
  {
    forall k | 0 <= k < |s| - 1 ensures s[1..][k] != s[0] {
      assert s[1..][k] == s[k + 1];
    }
  }

  /** The catalog lists every domain. */
  lemma {:induction false} DomainListed(d: Domain)
    ensures d in Domains
  {
  }

  /** The catalog lists each of its seventeen domains once. */
  lemma DomainsDistinct()
    ensures Distinct(Domains)
    ensures |Domains| == DomainCount
  {
  }

  /** `random.choice(xs)` with the draw `n`. */
  function Pick<T>(xs: seq<T>, n: nat): (x: T)
    requires |xs| > 0
    ensures x in xs
  {
    xs[n % |xs|]
  }

  datatype Pattern =
    | Simple | Quoted | AndCombo | OrCombo
    | Beginner | Advanced | Learn
    | With | For
    | Course | Tutorial | Guide

  /** The patterns in the order the catalog declares them. */
  const Patterns: seq<Pattern> := [Simple, Quoted, AndCombo, OrCombo, Beginner, Advanced, Learn, With, For, Course, Tutorial, Guide]

  function PatternName(p: Pattern): string {
    match p
    case Simple => "simple"
    case Quoted => "quoted"
    case AndCombo => "and_combo"
    case OrCombo => "or_combo"
    case Beginner => "beginner"
    case Advanced => "advanced"
    case Learn => "learn"
    case With => "with"
    case For => "for"
    case Course => "course"
    case Tutorial => "tutorial"
    case Guide => "guide"
  }

  /** The catalog's keys, in declaration order. */
  const PatternNames: seq<string> := [
    "simple", "quoted", "and_combo", "or_combo", "beginner", "advanced",
    "learn", "with", "for", "course", "tutorial", "guide"
  ]

  /** The lookup `query_patterns[name]`; `None` is the `KeyError`. */
  function PatternByName(name: string): Option<Pattern> {
    if name == "simple" then Some(Simple)
    else if name == "quoted" then Some(Quoted)
    else if name == "and_combo" then Some(AndCombo)
    else if name == "or_combo" then Some(OrCombo)
    else if name == "beginner" then Some(Beginner)
    else if name == "advanced" then Some(Advanced)
    else if name == "learn" then Some(Learn)
    else if name == "with" then Some(With)
    else if name == "for" then Some(For)
    else if name == "course" then Some(Course)
    else if name == "tutorial" then Some(Tutorial)
    else if name == "guide" then Some(Guide)
    else None
  }

  /** Names and lookups are inverse: looking up a pattern's name gives the pattern back. */
  lemma {:induction false} PatternByNameOfName(p: Pattern)
    ensures PatternByName(PatternName(p)) == Some(p)
  {
  }

  /** A name resolves only to the pattern so named. */
  lemma {:induction false} PatternByNameNamed(p: Pattern, name: string)
    requires PatternByName(name) == Some(p)
    ensures PatternName(p) == name
  {
  }

  /** A name resolves exactly when it is one of the catalog's keys, listed in catalog order. */
  lemma {:induction false} PatternNamesListed(name: string)
    ensures PatternByName(name).Some? <==> name in PatternNames
    ensures |PatternNames| == |Patterns|
    ensures forall i :: 0 <= i < |Patterns| ==> PatternNames[i] == PatternName(Patterns[i])
  {
  }

  const AndFillers: seq<string> := ["guide", "tutorial", "introduction"]
  const OrFillers: seq<string> := ["course", "training", "learning"]
  const WithFillers: seq<string> := ["examples", "practice", "exercises"]
  const ForFillers: seq<string> := ["beginners", "professionals", "students"]

  /** Applies a pattern to a seed term; `filler` is the draw for patterns that pick a word. */
  function Apply(p: Pattern, term: string, filler: nat): string {
    match p
    case Simple => term
    case Quoted => "\"" + term + "\""
    case AndCombo => term + " AND " + Pick(AndFillers, filler)
    case OrCombo => term + " OR " + Pick(OrFillers, filler)
    case Beginner => "beginner " + term
    case Advanced => "advanced " + term
    case Learn => "learn " + term
    case With => term + " with " + Pick(WithFillers, filler)
    case For => term + " for " + Pick(ForFillers, filler)
    case Course => term + " course"
    case Tutorial => term + " tutorial"
    case Guide => "complete " + term + " guide"
  }

  /** Every pattern keeps its seed term verbatim inside the query. */
  lemma {:induction false} ApplyKeepsTerm(p: Pattern, term: string, filler: nat)
    ensures Contains(Apply(p, term, filler), term)
  {
    var q := Apply(p, term, filler);
    var at: nat := match p
      case Quoted => 1
      case Beginner => 9
      case Advanced => 9
      case Learn => 6
      case Guide => 9
      case _ => 0;
    assert q[at..][..|term|] == term;
    assert StartsWith(q[at..], term);
  }
}
