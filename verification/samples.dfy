/**
 * The engineer's sample store: a dictionary from query text to the analysed sample,
 * kept as an insertion-ordered list of entries with distinct keys, as a Python dict is.
 */
module Samples {
  import opened Wrappers
  import opened Responses
  import opened Analyzer

  /** One stored record: the results, when they arrived, what they showed, how long they took. */
  datatype Sample = Sample(results: seq<Hit>, timestamp: real, characteristics: Characteristics, timing: real)

  type Db = seq<(string, Sample)>

  function Keys(db: Db): set<string> {
    if |db| == 0 then {} else {db[0].0} + Keys(db[1..])
  }

  /** No key is stored twice. */
  predicate UniqueKeys(db: Db) {
    |db| == 0 || (db[0].0 !in Keys(db[1..]) && UniqueKeys(db[1..]))
  }

  /** `db.get(k)`. */
  function Lookup(db: Db, k: string): (r: Option<Sample>)
    ensures r.Some? <==> k in Keys(db)
  {
    if |db| == 0 then None
    else if db[0].0 == k then Some(db[0].1)
    else Lookup(db[1..], k)
  }

  /**
   * `db[k] = v`: an existing key keeps its place and takes the new value, a new key goes
   * at the end. Afterwards `k` reads back `v` and every other key reads what it read before.
   */
  function Put(db: Db, k: string, v: Sample): (r: Db)
    ensures Keys(r) == Keys(db) + {k}
    ensures UniqueKeys(db) ==> UniqueKeys(r)
    ensures Lookup(r, k) == Some(v)
    ensures forall k' :: k' != k ==> Lookup(r, k') == Lookup(db, k')
    ensures |r| == if k in Keys(db) then |db| else |db| + 1
    ensures forall i :: 0 <= i < |db| ==> r[i].0 == db[i].0
  {
    if |db| == 0 then [(k, v)]
    else if db[0].0 == k then [(k, v)] + db[1..]
    else [db[0]] + Put(db[1..], k, v)
  }

  /** A new key is appended: insertion order is the order in which keys were first stored. */
  lemma {:induction false} PutNewAppends(db: Db, k: string, v: Sample)
    requires k !in Keys(db)
    ensures Put(db, k, v) == db + [(k, v)]
    decreases |db|
  {
    if |db| > 0 {
      PutNewAppends(db[1..], k, v);
      assert db == [db[0]] + db[1..];
    }
  }

  /** `collect_sample`: analyse the results, store the record under the query, return it. */
  function CollectSample(db: Db, query: string, results: seq<Hit>, stamp: real, timing: real): (r: (Sample, Db))
    ensures r.0.results == results && r.0.characteristics == AnalyzeResults(results)
    ensures r.0.timestamp == stamp && r.0.timing == timing
    ensures Lookup(r.1, query) == Some(r.0)
    ensures forall k :: k != query ==> Lookup(r.1, k) == Lookup(db, k)
    ensures Keys(r.1) == Keys(db) + {query}
    ensures UniqueKeys(db) ==> UniqueKeys(r.1)
  {
    var sample := Sample(results, stamp, AnalyzeResults(results), timing);
    (sample, Put(db, query, sample))
  }

  /** Storing the same query twice keeps only the later record. */
  lemma {:induction false} CollectOverwrites(db: Db, query: string, a: seq<Hit>, b: seq<Hit>, s1: real, t1: real, s2: real, t2: real)
    ensures var first := CollectSample(db, query, a, s1, t1);
      var second := CollectSample(first.1, query, b, s2, t2);
      Lookup(second.1, query) == Some(second.0) && second.0.results == b
      && Keys(second.1) == Keys(first.1)
  {
  }
}
