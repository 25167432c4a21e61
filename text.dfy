/**
 * The Python string operations the core relies on, over `string` (a sequence of
 * characters): `str.strip`/`lstrip`/`rstrip`, `str.split` with a literal separator
 * (which is also what `re.split` does for a pattern without metacharacters),
 * `str.join`, `str.replace`, `str.lower`, `startswith`/`endswith` and `str(int)`.
 */
module Text {
  import opened Wrappers

  /** The characters Python's `str.isspace` accepts, i.e. what `strip()` removes. */
  predicate IsSpace(c: char) {
    c == ' ' || ('\t' <= c <= '\r') || ('\U{1C}' <= c <= '\U{1F}')
    || c == '\U{85}' || c == '\U{A0}' || c == '\U{1680}'
    || ('\U{2000}' <= c <= '\U{200A}') || c == '\U{2028}' || c == '\U{2029}'
    || c == '\U{202F}' || c == '\U{205F}' || c == '\U{3000}'
  }

  predicate AllSpace(s: string) {
    forall i :: 0 <= i < |s| ==> IsSpace(s[i])
  }

  /** No leading and no trailing whitespace. */
  predicate Trimmed(s: string) {
    s == [] || (!IsSpace(s[0]) && !IsSpace(s[|s| - 1]))
  }

  /** The end of the run of whitespace that starts at index `i`. */
  function LeadingEnd(s: string, i: nat): (k: nat)
    requires i <= |s|
    ensures i <= k <= |s|
    ensures forall j :: i <= j < k ==> IsSpace(s[j])
    ensures k < |s| ==> !IsSpace(s[k])
    decreases |s| - i
  {
    if i < |s| && IsSpace(s[i]) then LeadingEnd(s, i + 1) else i
  }

  /** The start of the run of whitespace that ends just before index `j`. */
  function TrailingStart(s: string, j: nat): (k: nat)
    requires j <= |s|
    ensures k <= j
    ensures forall i :: k <= i < j ==> IsSpace(s[i])
    ensures k > 0 ==> !IsSpace(s[k - 1])
  {
    if j > 0 && IsSpace(s[j - 1]) then TrailingStart(s, j - 1) else j
  }

  /** `s.lstrip()`: the longest suffix of `s` that does not start with whitespace. */
  function LStrip(s: string): (r: string)
    ensures |r| <= |s| && r == s[|s| - |r|..]
    ensures AllSpace(s[..|s| - |r|])
    ensures r == [] || !IsSpace(r[0])
  {
    s[LeadingEnd(s, 0)..]
  }

  /** `s.rstrip()`: the longest prefix of `s` that does not end with whitespace. */
  function RStrip(s: string): (r: string)
    ensures |r| <= |s| && r == s[..|r|]
    ensures AllSpace(s[|r|..])
    ensures r == [] || !IsSpace(r[|r| - 1])
  {
    s[..TrailingStart(s, |s|)]
  }

  /** `s.strip()`: `s` without its surrounding whitespace. */
  function Strip(s: string): (r: string)
    ensures Trimmed(r)
    ensures |r| <= |s|
  {
    LStrip(RStrip(s))
  }

  /** `strip()` removes whitespace, and only whitespace, from both ends. */
  lemma StripIsInfix(s: string)
    ensures var r := Strip(s);
      exists k :: 0 <= k <= |s| - |r| && s[k..k + |r|] == r && AllSpace(s[..k]) && AllSpace(s[k + |r|..])
  {
    var t := RStrip(s);
    var r := LStrip(t);
    var k := |t| - |r|;
    assert s[k..k + |r|] == r;
    assert s[..k] == t[..k] && AllSpace(t[..k]);
    assert s[k + |r|..] == s[|t|..] && AllSpace(s[|t|..]);
    assert 0 <= k <= |s| - |r| && s[k..k + |r|] == r && AllSpace(s[..k]) && AllSpace(s[k + |r|..]);
  }

  /** Removing trailing whitespace from `x + w` gives back `x` when `x` does not end in whitespace. */
  lemma RStripPadded(x: string, w: string)
    requires AllSpace(w)
    requires x == [] || !IsSpace(x[|x| - 1])
    ensures RStrip(x + w) == x
  {
    var s := x + w;
    assert s[..|x|] == x;
  }

  /** Removing leading whitespace from `w + x` gives back `x` when `x` does not start with whitespace. */
  lemma LStripPadded(w: string, x: string)
    requires AllSpace(w)
    requires x == [] || !IsSpace(x[0])
    ensures LStrip(w + x) == x
  {
    var s := w + x;
    assert s[|w|..] == x;
  }

  /** `strip()` undoes any whitespace padding of a trimmed string. */
  lemma StripPadded(w1: string, c: string, w2: string)
    requires AllSpace(w1) && AllSpace(w2) && Trimmed(c)
    ensures Strip(w1 + c + w2) == c
  {
    if c == [] {
      assert w1 + c + w2 == w1 + w2;
      assert AllSpace(w1 + w2);
      RStripPadded([], w1 + w2);
      assert [] + (w1 + w2) == w1 + w2;
    } else {
      assert (w1 + c) + w2 == w1 + c + w2;
      RStripPadded(w1 + c, w2);
      LStripPadded(w1, c);
    }
  }


  predicate StartsWith(s: string, p: string) {
    |p| <= |s| && s[..|p|] == p
  }

  predicate EndsWith(s: string, p: string) {
    |p| <= |s| && s[|s| - |p|..] == p
  }

  /** `d` occurs in `s` at index `i`. */
  predicate OccursAt(s: string, d: string, i: nat) {
    i + |d| <= |s| && s[i..i + |d|] == d
  }

  predicate Contains(s: string, d: string) {
    exists i: nat :: i <= |s| && OccursAt(s, d, i)
  }

  /** `s.find(d, i)`: the first occurrence of `d` in `s` at or after `i`, if any. */
  function FindFrom(s: string, d: string, i: nat): (r: Option<nat>)
    requires i <= |s|
    ensures r.Some? ==> i <= r.value && r.value + |d| <= |s|
    decreases |s| - i
  {
    if i + |d| > |s| then None
    else if s[i..i + |d|] == d then Some(i)
    else FindFrom(s, d, i + 1)
  }

  /** `FindFrom` finds an occurrence, the first one at or after `i`, and finds none only when there is none. */
  lemma {:induction false} FindFromIsFirst(s: string, d: string, i: nat)
    requires i <= |s|
    ensures FindFrom(s, d, i).Some? ==> OccursAt(s, d, FindFrom(s, d, i).value)
    ensures FindFrom(s, d, i).Some? ==> forall j: nat :: i <= j < FindFrom(s, d, i).value ==> !OccursAt(s, d, j)
    ensures FindFrom(s, d, i).None? ==> forall j: nat :: i <= j ==> !OccursAt(s, d, j)
    decreases |s| - i
  {
    if i + |d| <= |s| && s[i..i + |d|] != d {
      FindFromIsFirst(s, d, i + 1);
    }
  }

  /** The first occurrence of `d` in `s`, if any. */
  function Find(s: string, d: string): (r: Option<nat>)
    ensures r.Some? ==> r.value + |d| <= |s|
  {
    FindFrom(s, d, 0)
  }

  /** `Find` reports nothing exactly when `d` does not occur, and otherwise its first occurrence. */
  lemma FindIsFirst(s: string, d: string)
    ensures Find(s, d).None? <==> !Contains(s, d)
    ensures Find(s, d).Some? ==> OccursAt(s, d, Find(s, d).value)
    ensures Find(s, d).Some? ==> forall j: nat :: j < Find(s, d).value ==> !OccursAt(s, d, j)
  {
    FindFromIsFirst(s, d, 0);
  }

  /** An occurrence inside a prefix is an occurrence in the whole string. */
  lemma OccursInPrefix(s: string, d: string, i: nat, j: nat)
    requires i <= |s| && OccursAt(s[..i], d, j)
    ensures OccursAt(s, d, j)
  {
    assert s[..i][j..j + |d|] == s[j..j + |d|];
  }

  /** The part of `s` before the first occurrence of `d` does not contain `d`. */
  lemma PrefixBeforeFind(s: string, d: string)
    requires |d| > 0 && Find(s, d).Some?
    ensures !Contains(s[..Find(s, d).value], d)
  {
    var i := Find(s, d).value;
    FindIsFirst(s, d);
    forall j: nat | OccursAt(s[..i], d, j) ensures false {
      OccursInPrefix(s, d, i, j);
    }
  }

  /**
   * `s.split(d)` for a non-empty literal separator: the pieces between the
   * non-overlapping occurrences of `d`, scanning from the left; none of them
   * contains `d`.
   */
  function Split(s: string, d: string): (r: seq<string>)
    requires |d| > 0
    ensures |r| >= 1
    decreases |s|
  {
    match Find(s, d)
    case None => [s]
    case Some(i) => [s[..i]] + Split(s[i + |d|..], d)
  }

  /** No piece of a split contains the separator. */
  lemma {:induction false} SplitPiecesAvoid(s: string, d: string)
    requires |d| > 0
    ensures forall k :: 0 <= k < |Split(s, d)| ==> !Contains(Split(s, d)[k], d)
    decreases |s|
  {
    FindIsFirst(s, d);
    match Find(s, d)
    case None =>
    case Some(i) =>
      PrefixBeforeFind(s, d);
      SplitPiecesAvoid(s[i + |d|..], d);
      assert Split(s, d) == [s[..i]] + Split(s[i + |d|..], d);
  }

  /** Splitting on a character the string lacks gives the whole string. */
  lemma SplitWithout(s: string, c: char)
    requires c !in s
    ensures Split(s, [c]) == [s]
  {
    FindIsFirst(s, [c]);
    ContainsChar(s, [c][0]);
  }

  /** Splitting on a character cuts at its first occurrence. */
  lemma SplitAtChar(a: string, c: char, b: string)
    requires c !in a
    ensures Split(a + [c] + b, [c]) == [a] + Split(b, [c])
  {
    var s := a + [c] + b;
    FindIsFirst(s, [c]);
    assert OccursAt(s, [c], |a|);
    forall j | 0 <= j < |a| ensures !OccursAt(s, [c], j) {
      assert s[j..j + 1] == [a[j]];
    }
    var i := Find(s, [c]).value;
    assert i == |a|;
    assert s[..i] == a && s[i + 1..] == b;
  }

  /** Splitting on a character gives one piece more than it has occurrences. */
  lemma {:induction false} SplitCountChar(s: string, c: char)
    ensures |Split(s, [c])| == multiset(s)[c] + 1
    decreases |s|
  {
    FindIsFirst(s, [c]);
    ContainsChar(s, c);
    match Find(s, [c])
    case None =>
    case Some(i) =>
      PrefixBeforeFind(s, [c]);
      ContainsChar(s[..i], c);
      assert s[i..i + 1][0] == s[i];
      assert s == s[..i] + [c] + s[i + 1..];
      SplitAtChar(s[..i], c, s[i + 1..]);
      SplitCountChar(s[i + 1..], c);
  }

  /** `sep.join(parts)`. */
  function Join(sep: string, parts: seq<string>): string {
    if |parts| == 0 then ""
    else if |parts| == 1 then parts[0]
    else parts[0] + sep + Join(sep, parts[1..])
  }

  /** Splitting on a separator and joining with it gives the original string back. */
  lemma {:induction false} JoinSplit(s: string, d: string)
    requires |d| > 0
    ensures Join(d, Split(s, d)) == s
    decreases |s|
  {
    match Find(s, d)
    case None =>
    case Some(i) =>
      FindIsFirst(s, d);
      var rest := Split(s[i + |d|..], d);
      JoinSplit(s[i + |d|..], d);
      assert Split(s, d) == [s[..i]] + rest;
      assert ([s[..i]] + rest)[1..] == rest;
      assert s == s[..i] + d + s[i + |d|..];
  }

  /** Joining pieces none of which contains a character never produces that character. */
  lemma {:induction false} JoinAvoids(sep: string, parts: seq<string>, c: char)
    requires c !in sep
    requires forall k :: 0 <= k < |parts| ==> c !in parts[k]
    ensures c !in Join(sep, parts)
  {
    if |parts| > 1 {
      JoinAvoids(sep, parts[1..], c);
    }
  }

  /** A single character does not occur as a one-character string exactly when it is not an element. */
  lemma ContainsChar(s: string, c: char)
    ensures Contains(s, [c]) <==> c in s
  {
    if c in s {
      var i :| 0 <= i < |s| && s[i] == c;
      assert OccursAt(s, [c], i);
    }
    if Contains(s, [c]) {
      var i: nat :| i <= |s| && OccursAt(s, [c], i);
      assert s[i..i + 1][0] == s[i];
    }
  }

  /** `s.replace(pattern, replacement)` for a non-empty `pattern`: every non-overlapping occurrence, from the left, replaced. */
  function Replace(s: string, pattern: string, replacement: string): string
    requires |pattern| > 0
  {
    Join(replacement, Split(s, pattern))
  }

  /** Replacing a character by text that lacks it leaves no occurrence of it. */
  lemma ReplaceRemovesChar(s: string, c: char, replacement: string)
    requires c !in replacement
    ensures c !in Replace(s, [c], replacement)
  {
    var parts := Split(s, [c]);
    SplitPiecesAvoid(s, [c]);
    forall k | 0 <= k < |parts| ensures c !in parts[k] {
      ContainsChar(parts[k], c);
    }
    JoinAvoids(replacement, parts, c);
  }

  /** `c.lower()` for ASCII and Latin-1 letters. */
  function LowerChar(c: char): (r: char)
    ensures 'A' <= c <= 'Z' ==> 'a' <= r <= 'z'
    ensures !('A' <= c <= 'Z') && !('\U{C0}' <= c <= '\U{DE}') ==> r == c
  {
    if 'A' <= c <= 'Z' || ('\U{C0}' <= c <= '\U{DE}' && c != '\U{D7}') then (c as int + 32) as char else c
  }

  /** `s.lower()`, character by character. */
  function Lower(s: string): (r: string)
    ensures |r| == |s|
  {
    if s == [] then [] else [LowerChar(s[0])] + Lower(s[1..])
  }


  function DigitChar(d: nat): (c: char)
    requires d < 10
    ensures '0' <= c <= '9'
  {
    ('0' as int + d) as char
  }

  /** The decimal value of a string of digits. */
  function DecimalValue(s: string): nat
    requires forall i :: 0 <= i < |s| ==> '0' <= s[i] <= '9'
  {
    if s == [] then 0 else DecimalValue(s[..|s| - 1]) * 10 + (s[|s| - 1] as int - '0' as int)
  }

  /** `str(n)` for a natural number: decimal digits without leading zeros. */
  function NatToString(n: nat): (r: string)
    ensures |r| >= 1
    ensures forall i :: 0 <= i < |r| ==> '0' <= r[i] <= '9'
    ensures r[0] == '0' ==> r == "0"
  {
    if n < 10 then [DigitChar(n)] else NatToString(n / 10) + [DigitChar(n % 10)]
  }

  /** Reading back the digits of `str(n)` gives `n`. */
  lemma {:induction false} NatToStringRoundTrip(n: nat)
    ensures DecimalValue(NatToString(n)) == n
  {
    var r := NatToString(n);
    if n >= 10 {
      NatToStringRoundTrip(n / 10);
      assert r[..|r| - 1] == NatToString(n / 10);
    }
  }

  /** `str(i)` for any integer. */
  function IntToString(i: int): (r: string)
    ensures i < 0 <==> |r| > 0 && r[0] == '-'
    ensures i >= 0 ==> forall k :: 0 <= k < |r| ==> '0' <= r[k] <= '9'
  {
    if i < 0 then "-" + NatToString(-i) else NatToString(i)
  }

  /** Text `int` accepts as `str` writes it: an optional minus sign followed by decimal digits. */
  predicate IntText(s: string) {
    |s| > 0 && (forall k :: 0 < k < |s| ==> '0' <= s[k] <= '9') && (s[0] == '-' || '0' <= s[0] <= '9')
  }

  /** `int(s)` for the text `str` produces: an optional minus sign followed by decimal digits. */
  function ParseInt(s: string): int
    requires IntText(s)
  {
    if s[0] == '-' then -(DecimalValue(s[1..]) as int) else DecimalValue(s)
  }

  /** A minus sign followed by the digits of `n` reads back as `-n`. */
  lemma SignedRoundTrip(n: nat)
    ensures IntText("-" + NatToString(n)) && ParseInt("-" + NatToString(n)) == -(n as int)
  {
    var s := "-" + NatToString(n);
    assert forall k :: 0 < k < |s| ==> s[k] == NatToString(n)[k - 1];
    assert s[1..] == NatToString(n);
    NatToStringRoundTrip(n);
  }

  /** Reading back `str(i)` gives `i`. */
  lemma IntToStringRoundTrip(i: int)
    ensures IntText(IntToString(i)) && ParseInt(IntToString(i)) == i
  {
    if i < 0 {
      SignedRoundTrip(-i);
    } else {
      NatToStringRoundTrip(i);
    }
  }
}
