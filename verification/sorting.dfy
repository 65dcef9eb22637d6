/**
 * Python's `sorted(xs, key=k, reverse=True)` and `list.sort(key=k, reverse=True)`:
 * a stable sort into non-increasing key order. Stability means that elements with
 * equal keys keep their original relative order, which is stated through
 * `KeyFilter`: for every key value, the subsequence carrying that key is unchanged.
 */
module Sorting {

  predicate NonIncreasing<T>(s: seq<T>, key: T -> real) {
    forall i, j :: 0 <= i < j < |s| ==> key(s[i]) >= key(s[j])
  }

  /** The elements of `s` whose key is exactly `k`, in their order in `s`. */
  function KeyFilter<T>(s: seq<T>, key: T -> real, k: real): seq<T> {
    if |s| == 0 then []
    else (if key(s[0]) == k then [s[0]] else []) + KeyFilter(s[1..], key, k)
  }

  /** Puts `x` in front of the first element whose key does not exceed its own. */
  function Insert<T>(x: T, s: seq<T>, key: T -> real): (r: seq<T>)
    requires NonIncreasing(s, key)
    ensures NonIncreasing(r, key)
    ensures multiset(r) == multiset(s) + multiset{x}
    ensures |r| == |s| + 1
  {
    if |s| == 0 || key(s[0]) <= key(x) then
      [x] + s
    else
      var tail := Insert(x, s[1..], key);
      assert s == [s[0]] + s[1..];
      InsertBelowHead(s[0], s[1..], x, tail, key);
      [s[0]] + tail
  }

  /** An element that bounds both the rest and the inserted value still bounds their merge. */
  lemma {:induction false} InsertBelowHead<T>(h: T, rest: seq<T>, x: T, tail: seq<T>, key: T -> real)
    requires NonIncreasing([h] + rest, key) && key(x) < key(h)
    requires NonIncreasing(tail, key) && multiset(tail) == multiset(rest) + multiset{x}
    ensures NonIncreasing([h] + tail, key)
  {
    forall e | e in tail ensures key(e) <= key(h) {
      assert e in multiset(tail);
      if e != x {
        assert e in multiset(rest);
        var i :| 0 <= i < |rest| && rest[i] == e;
        assert ([h] + rest)[0] == h && ([h] + rest)[i + 1] == e;
        assert key(([h] + rest)[0]) >= key(([h] + rest)[i + 1]);
      }
    }
    forall i, j | 0 <= i < j < |[h] + tail| ensures key(([h] + tail)[i]) >= key(([h] + tail)[j]) {
      if i == 0 {
        assert ([h] + tail)[j] == tail[j - 1];
        assert tail[j - 1] in tail;
      } else {
        assert ([h] + tail)[i] == tail[i - 1] && ([h] + tail)[j] == tail[j - 1];
      }
    }
  }

  /** Insertion sort from the back, so that earlier elements go first among equal keys. */
  function SortDesc<T>(s: seq<T>, key: T -> real): (r: seq<T>)
    ensures NonIncreasing(r, key)
    ensures multiset(r) == multiset(s)
    ensures |r| == |s|
  {
    if |s| == 0 then []
    else
      assert s == [s[0]] + s[1..];
      Insert(s[0], SortDesc(s[1..], key), key)
  }

  lemma {:induction false} KeyFilterInsert<T>(x: T, s: seq<T>, key: T -> real, k: real)
    requires NonIncreasing(s, key)
    ensures KeyFilter(Insert(x, s, key), key, k) == (if key(x) == k then [x] else []) + KeyFilter(s, key, k)
    decreases |s|
  {
    if |s| == 0 || key(s[0]) <= key(x) {
      KeyFilterCons(x, s, key, k);
    } else {
      var tail := Insert(x, s[1..], key);
      assert Insert(x, s, key) == [s[0]] + tail;
      KeyFilterInsert(x, s[1..], key, k);
      KeyFilterCons(s[0], tail, key, k);
      KeyFilterCons(s[0], s[1..], key, k);
      assert s == [s[0]] + s[1..];
    }
  }

  lemma {:induction false} KeyFilterCons<T>(h: T, t: seq<T>, key: T -> real, k: real)
    ensures KeyFilter([h] + t, key, k) == (if key(h) == k then [h] else []) + KeyFilter(t, key, k)
  {
    assert ([h] + t)[0] == h && ([h] + t)[1..] == t;
  }

  /** The sort is stable: for every key value the elements carrying it keep their order. */
  lemma {:induction false} SortDescStable<T>(s: seq<T>, key: T -> real, k: real)
    ensures KeyFilter(SortDesc(s, key), key, k) == KeyFilter(s, key, k)
    decreases |s|
  {
    if |s| > 0 {
      SortDescStable(s[1..], key, k);
      KeyFilterInsert(s[0], SortDesc(s[1..], key), key, k);
    }
  }

  /** With every key equal the sort changes nothing. */
  lemma {:induction false} SortDescOfEqualKeys<T>(s: seq<T>, key: T -> real, k: real)
    requires forall i :: 0 <= i < |s| ==> key(s[i]) == k
    ensures SortDesc(s, key) == s
    decreases |s|
  {
    if |s| > 0 {
      SortDescOfEqualKeys(s[1..], key, k);
      assert s == [s[0]] + s[1..];
    }
  }

  /**
   * Cutting a sorted list keeps the best: the prefix draws on the pool without
   * repetition, and an element of the pool that did not make the cut scores no higher
   * than any element that did.
   */
  lemma {:induction false} TakeBest<T>(s: seq<T>, n: nat, key: T -> real, pool: seq<T>)
    requires NonIncreasing(s, key) && multiset(s) == multiset(pool)
    ensures multiset(Take(s, n)) <= multiset(pool)
    ensures forall x, i :: x in pool && x !in Take(s, n) && 0 <= i < |Take(s, n)| ==> key(x) <= key(Take(s, n)[i])
  {
    var t := Take(s, n);
    assert s == t + s[|t|..];
    forall x, i | x in pool && x !in t && 0 <= i < |t| ensures key(x) <= key(t[i]) {
      assert x in multiset(s);
      var j :| 0 <= j < |s| && s[j] == x;
      assert t[i] == s[i];
    }
  }

  /** The first `n` elements, or all of them: Python's `xs[:n]`. */
  function Take<T>(s: seq<T>, n: nat): (r: seq<T>)
    ensures |r| == if |s| < n then |s| else n
    ensures r == s[..|r|]
  {
    if |s| <= n then s else s[..n]
  }
}
