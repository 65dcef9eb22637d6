/**
 * Character classes, case folding, substring tests and whitespace splitting over
 * `string`, restricted to ASCII. These are the Python `str` methods the profiler and
 * the mock endpoint rely on: `isspace`, `isalnum`, `lower`, `in`, `startswith` and
 * `split()` without a separator.
 */
module Text {

  /** `str.isspace()` on one ASCII character: tab, LF, VT, FF, CR, the separators 0x1C-0x1F and space. */
  predicate IsSpace(c: char) {
    (9 <= c as int <= 13) || (28 <= c as int <= 32)
  }

  predicate IsDigit(c: char) {
    '0' <= c <= '9'
  }

  predicate IsUpper(c: char) {
    'A' <= c <= 'Z'
  }

  predicate IsLowerLetter(c: char) {
    'a' <= c <= 'z'
  }

  /** `str.isalnum()` on one ASCII character. */
  predicate IsAlnum(c: char) {
    IsDigit(c) || IsUpper(c) || IsLowerLetter(c)
  }

  /** `str.isalnum()` on a whole string: it must be non-empty. */
  predicate IsAlnumString(s: string) {
    |s| > 0 && forall i :: 0 <= i < |s| ==> IsAlnum(s[i])
  }

  function LowerChar(c: char): (r: char)
    ensures !IsUpper(r)
    ensures !IsUpper(c) ==> r == c
    ensures IsAlnum(r) <==> IsAlnum(c)
    ensures IsSpace(r) <==> IsSpace(c)
  {
    if IsUpper(c) then (c as int + 32) as char else c
  }

  /** `str.lower()`: folds A-Z and leaves every other character alone. */
  function Lower(s: string): (r: string)
    ensures |r| == |s|
    ensures forall i :: 0 <= i < |s| ==> r[i] == LowerChar(s[i])
  {
    seq(|s|, i requires 0 <= i < |s| => LowerChar(s[i]))
  }

  predicate HasNoUpper(s: string) {
    forall i :: 0 <= i < |s| ==> !IsUpper(s[i])
  }

  lemma {:induction false} LowerFixesLowercase(s: string)
    requires HasNoUpper(s)
    ensures Lower(s) == s
  {
  }

  predicate StartsWith(s: string, prefix: string) {
    |prefix| <= |s| && s[..|prefix|] == prefix
  }

  /** Python's `sub in s`. */
  predicate Contains(s: string, sub: string) {
    exists i | 0 <= i <= |s| - |sub| :: StartsWith(s[i..], sub)
  }

  predicate ContainsChar(s: string, c: char) {
    exists i | 0 <= i < |s| :: s[i] == c
  }

  /** No occurrence is possible where the first character never appears in a starting position. */
  lemma {:induction false} NotContainsByFirst(s: string, sub: string)
    requires |sub| > 0
    requires forall i | 0 <= i <= |s| - |sub| :: s[i] != sub[0]
    ensures !Contains(s, sub)
  {
    forall i | 0 <= i <= |s| - |sub| ensures !StartsWith(s[i..], sub) {
      assert s[i..][..|sub|][0] == s[i];
    }
  }

  /** A token produced by `split()`: non-empty, with no whitespace in it. */
  predicate IsWord(w: string) {
    |w| > 0 && forall k :: 0 <= k < |w| ==> !IsSpace(w[k])
  }

  /** The first whitespace position at or after `i`, or `|s|`. */
  function WordEnd(s: string, i: nat): (j: nat)
    requires i <= |s|
    ensures i <= j <= |s|
    ensures forall k :: i <= k < j ==> !IsSpace(s[k])
    ensures j == |s| || IsSpace(s[j])
    decreases |s| - i
  {
    if i == |s| || IsSpace(s[i]) then i else WordEnd(s, i + 1)
  }

  /** `str.split()` with no separator: the maximal runs of non-whitespace, in order. */
  function Words(s: string): (ws: seq<string>)
    ensures forall k :: 0 <= k < |ws| ==> IsWord(ws[k])
    decreases |s|
  {
    if |s| == 0 then []
    else if IsSpace(s[0]) then Words(s[1..])
    else
      var j := WordEnd(s, 0);
      [s[..j]] + Words(s[j..])
  }

  /** `" ".join(ws)`. */
  function Unwords(ws: seq<string>): string {
    if |ws| == 0 then ""
    else if |ws| == 1 then ws[0]
    else ws[0] + " " + Unwords(ws[1..])
  }

  predicate AllSpace(s: string) {
    forall i :: 0 <= i < |s| ==> IsSpace(s[i])
  }

  /** `split()` returns nothing exactly when the string is blank. */
  lemma {:induction false} WordsEmptyIffBlank(s: string)
    ensures Words(s) == [] <==> AllSpace(s)
    decreases |s|
  {
    if |s| == 0 {
    } else if IsSpace(s[0]) {
      WordsEmptyIffBlank(s[1..]);
      assert AllSpace(s) <==> AllSpace(s[1..]) by {
        if AllSpace(s[1..]) {
          forall i | 0 <= i < |s| ensures IsSpace(s[i]) {
            if i > 0 { assert s[i] == s[1..][i - 1]; }
          }
        }
      }
    } else {
      assert !AllSpace(s);
    }
  }

  lemma {:induction false} WordEndOfWord(w: string, rest: string, i: nat)
    requires IsWord(w)
    requires rest == [] || IsSpace(rest[0])
    requires i <= |w|
    ensures WordEnd(w + rest, i) == |w|
    decreases |w| - i
  {
    var s := w + rest;
    if i < |w| {
      assert s[i] == w[i];
      WordEndOfWord(w, rest, i + 1);
    } else if rest != [] {
      assert s[i] == rest[0];
    }
  }

  /** A word followed by whitespace or the end splits off as the first token. */
  lemma {:induction false} WordsOfWordThen(w: string, rest: string)
    requires IsWord(w)
    requires rest == [] || IsSpace(rest[0])
    ensures Words(w + rest) == [w] + Words(rest)
  {
    var s := w + rest;
    assert s[0] == w[0];
    WordEndOfWord(w, rest, 0);
    assert s[..|w|] == w;
    assert s[|w|..] == rest;
  }

  /** A word and a single space split off as the first token. */
  lemma {:induction false} WordsCons(w: string, rest: string)
    requires IsWord(w)
    ensures Words(w + " " + rest) == [w] + Words(rest)
  {
    WordsOfWordThen(w, " " + rest);
    assert w + " " + rest == w + (" " + rest);
    assert (" " + rest)[1..] == rest;
  }

  lemma {:induction false} WordsSingle(w: string)
    requires IsWord(w)
    ensures Words(w) == [w]
  {
    WordsOfWordThen(w, "");
    assert w + "" == w;
  }

  /** Splitting a single-space join of words gives the words back. */
  lemma {:induction false} WordsUnwords(ws: seq<string>)
    requires forall k :: 0 <= k < |ws| ==> IsWord(ws[k])
    ensures Words(Unwords(ws)) == ws
    decreases |ws|
  {
    if |ws| == 0 {
    } else if |ws| == 1 {
      WordsOfWordThen(ws[0], "");
      assert ws[0] + "" == ws[0];
    } else {
      var tail := Unwords(ws[1..]);
      assert Unwords(ws) == ws[0] + (" " + tail);
      WordsOfWordThen(ws[0], " " + tail);
      assert (" " + tail)[1..] == tail;
      WordsUnwords(ws[1..]);
      assert ws == [ws[0]] + ws[1..];
    }
  }

  /** Every token of `split()` is a contiguous run of the input. */
  lemma {:induction false} WordsAreInfixes(s: string, w: string)
    requires w in Words(s)
    ensures Contains(s, w)
    decreases |s|
  {
    if IsSpace(s[0]) {
      WordsAreInfixes(s[1..], w);
      var i :| 0 <= i <= |s[1..]| - |w| && StartsWith(s[1..][i..], w);
      assert s[1..][i..] == s[i + 1..];
    } else {
      var j := WordEnd(s, 0);
      if w == s[..j] {
        assert StartsWith(s[0..], w);
      } else {
        WordsAreInfixes(s[j..], w);
        var i :| 0 <= i <= |s[j..]| - |w| && StartsWith(s[j..][i..], w);
        assert s[j..][i..] == s[i + j..];
      }
    }
  }

  function Digit(n: nat): (c: char)
    requires n < 10
    ensures IsDigit(c)
  {
    "0123456789"[n]
  }

  function DigitValue(c: char): (n: nat)
    requires IsDigit(c)
    ensures n < 10
  {
    c as int - '0' as int
  }

  /** Decimal rendering of a natural number, as in an f-string. */
  function NatToString(n: nat): (s: string)
    ensures |s| > 0
    ensures forall i :: 0 <= i < |s| ==> IsDigit(s[i])
    ensures |s| > 1 ==> s[0] != '0'
  {
    if n < 10 then [Digit(n)] else NatToString(n / 10) + [Digit(n % 10)]
  }

  function ParseNat(s: string): nat
    requires forall i :: 0 <= i < |s| ==> IsDigit(s[i])
  {
    if |s| == 0 then 0 else 10 * ParseNat(s[..|s| - 1]) + DigitValue(s[|s| - 1])
  }

  /** Reading the decimal rendering back gives the number. */
  lemma {:induction false} ParseNatToString(n: nat)
    ensures ParseNat(NatToString(n)) == n
  {
    var s := NatToString(n);
    if n < 10 {
      assert DigitValue(Digit(n)) == n;
    } else {
      ParseNatToString(n / 10);
      assert s[..|s| - 1] == NatToString(n / 10);
      assert DigitValue(Digit(n % 10)) == n % 10;
    }
  }
}
