# Search engine reverse engineer — a Dafny model

This project models the core of `search_reverser`. That tool probes a search endpoint with generated queries and reports a hypothesis about the endpoint's matching algorithm. The project has four parts:

- **The adaptive query strategy** (`AdaptiveQueryStrategy`). It covers:
  - a catalog of seventeen domains with seed terms and twelve query patterns;
  - per-category success counts;
  - the learned terms, categories, domains and patterns;
  - domain weights clamped to [0.1, 2.0];
  - three phases: domain exploration, pattern exploration and optimisation.

  `analyze_response` learns from one response. `generate_next_queries` produces the next batch and advances the phase.
- **The result analyzer** (`ResultAnalyzer`). It covers:
  - the per-response characteristics: the matching-type vote, text relevance and the constant detectors;
  - the aggregate over a map of stored samples: the fuzzy and exact ratios, the algorithm verdict, the confidence score and the hypothesis.
- **The engineer** (`SearchReverseEngineer`). `collect_sample` stores an analysed sample under its query. `run_test_suite` runs the outer loop: each initial test is searched, then a follow-up batch is generated and searched. At the end it reports the hypothesis with the learning status.
- **The mock search endpoint** (`mock_search_server.py`). It covers:
  - query normalisation and stop words;
  - the additive score with its fuzzy bonus and popularity boost;
  - the label of a result as "fuzzy" or "exact";
  - rounding to hundredths, the sort, and the cap of twenty results;
  - the guard that answers a missing or empty query with nothing.

Modules, one per file:

- **Infrastructure:**
  - `Wrappers`: `Option`, and `Result` with a `Fault` for Python's `KeyError`.
  - `Text`: ASCII `lower`, `split`, `in` on strings, and number formatting.
  - `Sorting`: a stable descending sort and list slicing.
- **The strategy:**
  - `Catalog`: domains, seeds and patterns.
  - `Classify`: categorising a query, its pattern shape and its domain.
  - `Responses`: one search hit.
  - `Adaptive`: the strategy state and `analyze_response`.
  - `Generation`: `generate_next_queries`.
- **The analyzer:**
  - `Analyzer`: per-response analysis.
  - `Samples`: the insertion-ordered results dictionary.
  - `Aggregate`: ratios, verdict, confidence and hypothesis.
- **The engineer and the endpoint:**
  - `Reverser`: `collect_sample` and `run_test_suite`.
  - `MockServer`: the endpoint.

Randomness, the network and the clock are parameters.

- **Random draws.** Every call of `generate_next_queries` takes one `Draws` record. It holds:
  - a coin in [0, 1) per domain, which stands for `random.random()`;
  - draws for `random.choice`, as indices;
  - draws for `random.sample`, as indices of a sampling without replacement.

  `Adequate` states what the code needs for a call to finish. The top-up loop terminates only if at least three distinct domains are drawn.
- **The environment.** `Reverser.Env` supplies the search results for a query and the timestamp and timing of the k-th search.

The key behaviours of the code are proved as they are:

- **The KeyError on the "general" domain.** `analyze_response` raises `KeyError('general')` when no domain's seed is a token of the query. A seed with a space never equals a whitespace token itself (`Classify.MultiWordSeedsNeverMatch`), so a seed probe is identified only through its single words. Of the five multi-word seeds, "machine learning" is still identified, as general_academic, through its token "learning" (`Classify.MachineLearningIsAcademic`). The other four ("data mining", "big data", "social media", "technical writing") share no token with any seed, so their exploration probes always raise (`Classify.OrphanSeedsUnknown`). So does every "quoted" pattern probe: every seed is one word or two, and quoting either keeps the quotes on its tokens (`Classify.QuotedWordUnknown`, `Classify.QuotedPairUnknown`). The model ends the run with that fault (`Reverser.SuiteStopsOnUnknownDomain`).
- **Confidence is always 0.6.** The two ratios always sum to one, so the confidence of any non-empty sample map is 0.6.
- **Only "simple" names a pattern in optimisation.** During optimisation the learned pattern labels are looked up as pattern names, and only "simple" is one.
- **A punctuation-only query matches everything.** Such a query passes the endpoint's guard but normalises to the empty string, which every document contains.
- **A "fuzzy" result can show 1.0.** The label is decided on the raw score and the reported score is rounded, so a "fuzzy" result can show a score of 1.0.

Three facts about the catalog and the category rules that are easy to get wrong:

- The catalog has seventeen domains.
- `_categorize_query("weird!!")` is "partial", because the one-token rule comes before the symbol rule.
- `_categorize_query("a AND b")` is "exact", because the more-than-two-tokens rule comes before the " AND " rule.

## Model

| member | source | states |
|---|---|---|
| Catalog.DomainsDistinct | search_reverser/adaptive.py:22-45 | the catalog lists each of its seventeen domains exactly once |
| Catalog.PatternNamesListed | search_reverser/adaptive.py:48-66 | a name resolves to a pattern exactly when it is one of the twelve pattern keys, listed in declaration order |
| Catalog.PatternByNameOfName | search_reverser/adaptive.py:48-66 | pattern names and the `query_patterns[name]` lookup are inverse |
| Catalog.ApplyKeepsTerm | search_reverser/adaptive.py:48-66 | every pattern keeps its seed term verbatim inside the query it builds |
| Classify.Categorize | search_reverser/adaptive.py:211-223 | first rule wins, each as an if-and-only-if: "exact" iff more than two tokens; "partial" iff one token; "fuzzy" iff neither and a symbol; "compound" iff none of these and a literal " AND " or " OR "; "general" iff none of the four |
| Classify.CategorizeTwoTokens | search_reverser/adaptive.py:211-223 | the earlier rules shadow the later ones: "fuzzy" and "compound" need exactly two tokens |
| Classify.CategorizeManyWords | search_reverser/adaptive.py:214 | any three or more words are "exact", whatever they contain |
| Classify.AndBetweenWordsIsExact | search_reverser/adaptive.py:214-217 | two words joined by " AND " are "exact" and never reach the "compound" rule |
| Classify.IdentifyPattern | search_reverser/adaptive.py:198-209 | first rule wins on the lowercased query, each as an if-and-only-if: "phrase" iff it holds a quote; "compound" iff no quote and " and "; "broad" iff neither and " or "; "specific" iff none of these and a leading "advanced "; "simple" otherwise |
| Classify.QuotedIsPhrase | search_reverser/adaptive.py:200-202 | a query built by the quoting pattern is a "phrase", whatever its term |
| Classify.IdentifyDomain | search_reverser/adaptive.py:190-196 | no domain ("general") iff no catalog domain shares a lowercased token with the query; otherwise the domain shares one and is the first in catalog order that does |
| Classify.FirstOverlapAt | search_reverser/adaptive.py:193-195 | the first overlapping domain is at position k when k overlaps and nothing before it does |
| Classify.MultiWordSeedsNeverMatch | search_reverser/adaptive.py:192-194 | a seed containing a space never equals a whitespace token of any query |
| Classify.ThenLearningIsAcademic | search_reverser/adaptive.py:190-196 | any lowercase word followed by "learning" is identified as general_academic, the first domain |
| Classify.MachineLearningIsAcademic | search_reverser/adaptive.py:190-196 | the data_science seed "machine learning" is identified as general_academic |
| Classify.OrphanTokenUnseeded | search_reverser/adaptive.py:22-45 | no domain has "data", "mining", "big", "social", "media", "technical" or "writing" among its lowercased seeds |
| Classify.OrphanSeedsUnknown | search_reverser/adaptive.py:190-196 | the seeds "data mining", "big data", "social media" and "technical writing" are identified as no domain |
| Classify.QuotedWordTokens | search_reverser/adaptive.py:51 | quoting a one-word term gives a single token that begins and ends with a quote |
| Classify.QuotedPairTokens | search_reverser/adaptive.py:51 | quoting a two-word term gives two tokens, the first opening with the quote and the second closing with it |
| Classify.QuotedTokenUnseeded | search_reverser/adaptive.py:22-45 | no lowercased seed begins or ends with a quote, so no such token is a seed |
| Classify.QuotedWordUnknown | search_reverser/adaptive.py:190-196 | the quoted probe of any one-word term is identified as no domain |
| Classify.QuotedPairUnknown | search_reverser/adaptive.py:190-196 | the quoted probe of any two-word term is identified as no domain |
| Adaptive.Init | search_reverser/adaptive.py:7-69 | a fresh strategy is valid, in domain exploration at round 0, with every domain weighing 1.0 |
| Adaptive.Tally | search_reverser/adaptive.py:78-80 | one more query of the category is counted, and one more success exactly when it succeeded; other categories are untouched |
| Adaptive.Reweigh | search_reverser/adaptive.py:111-114 | success multiplies the domain weight by 1.2, capped at 2.0; failure multiplies it by 0.8, floored at 0.1; other domains and the key set are unchanged, and the range [0.1, 2.0] is kept |
| Adaptive.Update | search_reverser/adaptive.py:71-114 | fails with `KeyError('general')` exactly when the query names no domain, and any failure names the domain key that was looked up; otherwise it counts the query, reweighs only its domain, keeps phase and rounds, and on a success sets the optimal query length to 0.8 times the old value plus 0.2 times the query's word count |
| Adaptive.UpdateLengthTowardsQuery | search_reverser/adaptive.py:99-100 | a success moves the optimal query length towards the query's word count without passing it, and strictly when they differ; a failure leaves it |
| Adaptive.AnalyzeResponse | search_reverser/adaptive.py:71-114 | on a valid weight table, `analyze_response` succeeds iff the query identifies a domain, and it counts one more query of its category |
| Adaptive.HarvestSpec | search_reverser/adaptive.py:84-96 | the result loop adds the query terms shared with each title, adds all query terms if some score exceeds 0.7, and records the shape once |
| Adaptive.UpdateSuccessTerms | search_reverser/adaptive.py:84-98 | after a success the effective terms grow by the matched title terms, plus all query terms when some score exceeds 0.7; the ineffective terms are unchanged |
| Adaptive.UpdateFailureTerms | search_reverser/adaptive.py:101-105 | after a failure the clean terms join the ineffective terms, minus the effective ones, so the two sets are disjoint |
| Adaptive.UpdateLists | search_reverser/adaptive.py:79-108 | categories, shapes and domains are appended only on success and only if not already present |
| Adaptive.UpdateKeepsValid | search_reverser/adaptive.py:71-114 | a successful update keeps the weights in range, counts consistent, lists duplicate-free and the phase in step with the rounds |
| Adaptive.AnalyzeResponseKeepsValid | search_reverser/adaptive.py:71-114 | `analyze_response` keeps the strategy valid and leaves phase and round counter alone |
| Adaptive.AnalyzeAllKeepsValid | search_reverser/adaptive.py:71-114 | any sequence of successful analyses keeps the strategy valid and the phase unchanged |
| Adaptive.SuccessLeavesOverlap | search_reverser/adaptive.py:98-105 | a success does not remove a term from the ineffective set, so a term can become both effective and ineffective |
| Adaptive.ReadWellFormed | search_reverser/adaptive.py:198-223 | the category and shape read off a query are always among their labels |
| Adaptive.LearningStatus | search_reverser/adaptive.py:236-243 | the status reports the learned patterns and success counts as they are |
| Adaptive.ProgressReadsBack | search_reverser/adaptive.py:240 | the progress string is the round count, a slash and 3, each part parsing back to its number |
| Generation.Entries | search_reverser/adaptive.py:136 | the weight items are listed domains with their current weights |
| Generation.Ranked | search_reverser/adaptive.py:136 | the items sorted by descending weight |
| Generation.AcceptOnlyLowCoins | search_reverser/adaptive.py:140-144 | every domain the weighted walk selects had a coin below its weight |
| Generation.AcceptDistinct | search_reverser/adaptive.py:140-144 | the weighted walk selects distinct domains |
| Generation.TopUpReachesThree | search_reverser/adaptive.py:146-150 | with enough distinct draws the top-up loop reaches exactly three distinct domains |
| Generation.ExplorationDomains | search_reverser/adaptive.py:136-150 | a domain-exploration round picks exactly three distinct domains |
| Generation.UniformWeightsTakeCatalogHead | search_reverser/adaptive.py:136-144 | when all weights are 1.0, every coin accepts, and the round tests the first three catalog domains |
| Generation.DomainQueriesShape | search_reverser/adaptive.py:152-158 | one "domain_exploration" probe per picked domain, its query a seed of that domain, domains distinct |
| Generation.SampleFrom | search_reverser/adaptive.py:165 | sampling k of a population gives k members of it, distinct when the population is |
| Generation.SampledDomainsShape | search_reverser/adaptive.py:163-165 | the later phases sample two domains (one when only one has succeeded), distinct, and from the successful ones when there are any |
| Generation.PatternQueriesShape | search_reverser/adaptive.py:165-171 | each pattern probe is tagged with a real pattern name and contains a seed term of its domain |
| Generation.ResolveFromOutcome | search_reverser/adaptive.py:177-184 | resolving drawn labels succeeds iff every label names a pattern; otherwise it is a KeyError naming a drawn label that names none |
| Generation.OptimizedQueriesOutcome | search_reverser/adaptive.py:174-188 | optimisation succeeds iff every drawn label names a pattern, then tags the probes "optimized" on the sampled domains; otherwise it is a KeyError |
| Generation.OptimizationNeedsSimple | search_reverser/adaptive.py:174-188 | with learned patterns, optimisation succeeds iff every draw lands on "simple" |
| Generation.Generate | search_reverser/adaptive.py:116-130 | the learned state, counts and weights are unchanged; the round counter advances outside optimisation; domain exploration yields three probes; only optimisation can fail |
| Generation.GenerateKeepsValid | search_reverser/adaptive.py:116-130 | generation keeps the strategy valid and moves to pattern exploration at 3 rounds and to optimisation at 6 |
| Generation.PatternBatchSize | search_reverser/adaptive.py:160-172 | a pattern-exploration batch holds one or two probes |
| Analyzer.CountMatchedPermutation | search_reverser/analyzers.py:36-37 | the label counts do not depend on the order of the results |
| Analyzer.DetectMatchingAlgorithm | search_reverser/analyzers.py:31-43 | "fuzzy" iff more fuzzy than exact labels, "exact" iff some exact and at least as many exact as fuzzy, "unknown" iff neither label occurs |
| Analyzer.DetectIgnoresOrder | search_reverser/analyzers.py:31-43 | reordering the results never changes the vote |
| Analyzer.DetectIgnoresOtherLabels | search_reverser/analyzers.py:36-37 | a result labelled neither "fuzzy" nor "exact" does not vote |
| Analyzer.TextRelevanceWithin | search_reverser/analyzers.py:106-110 | the text relevance lies between the smallest and largest score, a missing score counting 0 |
| Analyzer.DetectRankingFactors | search_reverser/analyzers.py:22-29 | the date and popularity detectors never fire |
| Analyzer.DetectTokenization | search_reverser/analyzers.py:45-51 | space splitting and stop-word removal are reported iff there are results; stemming never |
| Analyzer.AnalyzeResults | search_reverser/analyzers.py:7-20 | no results give the neutral record; the matching type is always a known label |
| Analyzer.UnknownIffNoVotes | search_reverser/analyzers.py:7-43 | the matching type is "unknown" iff no result is labelled "fuzzy" or "exact" |
| Samples.Lookup | search_reverser/search_reverser.py:24 | a key reads back a sample iff it is stored |
| Samples.Put | search_reverser/search_reverser.py:24 | storing a key makes it read back the value and leaves every other key alone; an existing key keeps its place; keys stay unique |
| Samples.PutNewAppends | search_reverser/search_reverser.py:24 | a new key goes at the end, so the dictionary keeps first-insertion order |
| Samples.CollectSample | search_reverser/search_reverser.py:16-25 | the stored sample holds the results, their analysis, the stamp and the timing, and is what the query now reads back |
| Aggregate.Ratio | search_reverser/analyzers.py:72-73 | a count ratio times the total is the count, and lies in [0, 1] |
| Aggregate.RatioSum | search_reverser/analyzers.py:72-73 | ratios over the same total add like their counts |
| Aggregate.AnalyzePatterns | search_reverser/analyzers.py:63-75 | zeros for no samples; otherwise the fuzzy ratio times the sample count is the number of "fuzzy" samples, the exact ratio times it is the number of all others, and the mean response time times it is the total timing; both ratios lie in [0, 1] |
| Aggregate.MeanTimingWithin | search_reverser/analyzers.py:74 | when every stored timing lies in [lo, hi], so does the average response time |
| Aggregate.RatiosMakeWhole | search_reverser/analyzers.py:68-73 | for a non-empty map the fuzzy and exact ratios sum to exactly 1 |
| Aggregate.NoFuzzyIsAllExact | search_reverser/analyzers.py:69-73 | with no "fuzzy" sample, "unknown" samples included, the exact ratio is 1 |
| Aggregate.DetermineAlgorithmType | search_reverser/analyzers.py:53-61 | the verdict is one of the three algorithm labels |
| Aggregate.AlgorithmTypeByCounts | search_reverser/analyzers.py:53-61 | in whole numbers: fuzzy search iff more than 4/5 fuzzy, exact match iff fewer than 1/10 fuzzy, hybrid otherwise or for no samples |
| Aggregate.CalculateConfidence | search_reverser/analyzers.py:77-84 | the confidence is 0.0 for no samples and exactly 0.6 otherwise |
| Aggregate.GenerateHypothesis | search_reverser/search_reverser.py:53-59 | the hypothesis has a known verdict and confidence 0.6 (0.0 with the all-zero record when empty) |
| Reverser.Issue | search_reverser/search_reverser.py:34-40 | a search appends its query to the log and to both maps, stores exactly the endpoint's results, and succeeds iff the strategy identifies a domain |
| Reverser.IssueAllAppends | search_reverser/search_reverser.py:45-49 | a batch's queries are searched in batch order |
| Reverser.IssueKeepsInv | search_reverser/search_reverser.py:34-40 | one search keeps the run invariant: valid strategy, paired log, local keys are the searched queries |
| Reverser.StepKeepsInv | search_reverser/search_reverser.py:43-49 | a follow-up step keeps the invariant, makes one generation, and searches 3 queries before round 3 or 1–2 after |
| Reverser.RoundKeepsInv | search_reverser/search_reverser.py:34-49 | one outer iteration keeps the invariant and searches the test plus its batch |
| Reverser.OuterKeepsInv | search_reverser/search_reverser.py:34-49 | the outer loop keeps the invariant with one generation and one round per test |
| Reverser.OuterSearches | search_reverser/search_reverser.py:34-49 | the outer loop's search count lies between the phase-determined bounds |
| Reverser.SuiteOutcome | search_reverser/search_reverser.py:27-51 | a completed run from round 0 makes 4 generation calls, ends in pattern exploration at round 4, searches 10 or 11 queries, and keys the local map by them |
| Reverser.SuiteReport | search_reverser/search_reverser.py:51 | a completed run reports confidence 0.6, phase "pattern_exploration" and progress "4/3" |
| Reverser.FreshSuiteReport | search_reverser/search_reverser.py:9-51 | from a fresh engineer the local map equals the database and the confidence is 0.6 |
| MockServer.Round2 | mock_search_server.py:112 | rounding to two places moves a score by at most 0.005 |
| MockServer.Round2Monotone | mock_search_server.py:112-119 | rounding never reverses an order |
| MockServer.Round2Idempotent | mock_search_server.py:112 | rounding twice is rounding once |
| MockServer.NormalizeIdempotent | mock_search_server.py:71-72 | normalising a normalised query changes nothing |
| MockServer.TermsMembers | mock_search_server.py:74-75 | the terms are exactly the query's words that are not stop words |
| MockServer.CloseCases | mock_search_server.py:123-125 | a word is close to itself, to one substitution of itself, and to itself with one character appended |
| MockServer.WordsFuzzyMatch | mock_search_server.py:123-125 | a term that is a word of the text always fuzzy-matches it |
| MockServer.BaseScore | mock_search_server.py:79-101 | the score is non-negative; a title phrase hit gives at least 2, a content hit at least 1 |
| MockServer.Score | mock_search_server.py:103-105 | the popularity boost applies only to a positive score with a rating, and never lowers it |
| MockServer.Reported | mock_search_server.py:107-117 | the label is "fuzzy" iff the raw score is below 1; a fuzzy result never shows above 1.0 and an exact one never below |
| MockServer.CollectMembers | mock_search_server.py:77-117 | a record is collected iff it reports some document with a positive score |
| MockServer.SearchDocuments | mock_search_server.py:67-120 | exactly min(20, number of scoring documents) results, drawn without repetition from the scoring records, in non-increasing rounded score, each labelled consistently; a scoring record left out scores no higher than any reported one |
| Sorting.TakeBest | mock_search_server.py:119-120 | a prefix of a sorted permutation is a sub-multiset of the pool, and every element of the pool outside it has a key no greater than every element in it |
| MockServer.FewScoringAllReported | mock_search_server.py:119-120 | with at most 20 scoring documents, every one is reported |
| MockServer.Search | mock_search_server.py:128-144 | a missing or empty query returns no results |
| MockServer.PunctuationMatchesEverything | mock_search_server.py:71-90 | a non-empty punctuation-only query normalises to "" and reports every document as "exact" with a score of at least 3 |
| MockServer.TypoOnlyIsFuzzy | mock_search_server.py:93-113 | a document reached only by a typo scores 0.3 and is "fuzzy" |
| MockServer.FuzzyCanShowOne | mock_search_server.py:112-113 | a raw 0.996 is labelled "fuzzy" yet shown as 1.0 |
| Sorting.SortDescStable | mock_search_server.py:119 | the descending sort keeps equal-keyed elements in their original order |
| Text.WordsUnwords | search_reverser/adaptive.py:214 | splitting words joined by single spaces gives the words back |

## Left out

- **I/O and timing.** HTTP, `time.sleep`, `time.time()` and `measure_timing` are not modelled. Search results, timestamps and timings come from the `Env` parameter.
- **Probability distributions.** Random draws are arbitrary oracle values, so no claim is made about their distribution.
- **The order of random.sample's population.** The population is taken in catalog order. In Python it is a set's iteration order, which the model does not fix.
- **Floating point.** Scores, weights and ratios are exact reals. Binary floating-point rounding is not modelled; in particular 0.6 is exact here.
- **Non-ASCII text.** Case folding, `isalnum` and `isspace` cover ASCII only.
- **The state left behind by a KeyError.** Before `analyze_response` raises, Python has already stored the sample and counted the query. With results it has also added "general" to the successful domains, merged the effective terms and patterns, smoothed the optimal query length and recorded the category as a best performer. Without results it has instead added the clean query terms to the ineffective terms. The model discards the whole run with the fault, since the exception escapes `run_test_suite`.
- **A missing title.** A result without a "title" raises a KeyError in `analyze_response`. Every hit in the model has a title.
- **A popularity record without `average_rating`.** Such a record raises in the mock server. The model's `Doc` carries an optional rating, and the returned `popularity` dictionary is reduced to that rating.
- **The mock data loader and the fallback corpus.** The corpus is a parameter of the search.
- **Modules outside the core.** `collectors.py`, `utils.py`, `data_generator.py`, the test file and the FastAPI application setup are not part of this model.
- **Unused code.** `_update_effective_patterns`, `_update_ineffective_patterns`, `_check_fuzzy_matching`, `_check_exact_matching` and the Levenshtein import are never called.
- **Optimisation inside a run.** A run from round 0 stops at round 4, so it never reaches optimisation. Generation in that phase is modelled on its own, but `Reverser.StepKeepsInv` requires a round before 6.
- Generation.Ranked: the contract states only the sort order and the size bound. It does not state that the items are a permutation of the weight table; `Sorting.SortDesc` states that instead.
- Classify.QuotedWordUnknown: it and `Classify.QuotedPairUnknown` cover one-word and two-word terms. That every seed of the catalog is one or the other is read off the table, not proved. Character-level facts about all the seed literals at once are too costly for the verifier, so only the two facts the proofs need (`Classify.PlainSeed`) are checked, two domains at a time.
- Reverser.SuiteOutcome: the bounds hold only for a completed run. A run that stops with a KeyError is covered by `Reverser.Issue` and `Reverser.SuiteStopsOnUnknownDomain`, not by these bounds.
