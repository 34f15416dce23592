/** Character classes and string helpers shared by the route handlers and hooks:
    JavaScript's `\d`, `\w` and `\s`, `String.prototype.trim`, `startsWith`,
    `endsWith`, `includes`, `split` with a one-character separator, `padStart(2, '0')`
    and decimal rendering of numbers. Strings are sequences of UTF-16 code units,
    which Dafny's `char` stands for here. */
module Text {

  /** `\d` in a JavaScript regular expression without the `u` flag: ASCII digits only. */
  predicate IsDigit(c: char)
  {
    '0' <= c <= '9'
  }

  /** `\w` without the `u` flag: ASCII letters, digits and underscore. Vietnamese
      letters such as 'đ' or 'ố' are not word characters. */
  predicate IsWordChar(c: char)
  {
    'a' <= c <= 'z' || 'A' <= c <= 'Z' || IsDigit(c) || c == '_'
  }

  /** `\s`, and what `trim()` removes: ECMAScript white space and line terminators. */
  predicate IsSpace(c: char)
  {
    c == '\t' || c == '\n' || c == '\U{000B}' || c == '\U{000C}' || c == '\r' || c == ' '
    || c == '\U{00A0}' || c == '\U{1680}' || ('\U{2000}' <= c <= '\U{200A}')
    || c == '\U{2028}' || c == '\U{2029}' || c == '\U{202F}' || c == '\U{205F}'
    || c == '\U{3000}' || c == '\U{FEFF}'
  }

  lemma SpaceNotDigit(c: char)
    ensures IsSpace(c) ==> !IsDigit(c) && !IsWordChar(c)
  {
  }

  predicate AllDigits(s: string)
  {
    forall i :: 0 <= i < |s| ==> IsDigit(s[i])
  }

  /** A string of digits holds no other character. */
  lemma DigitsExclude(s: string, c: char)
    requires AllDigits(s) && !IsDigit(c)
    ensures c !in s
  {
  }

  /** The end of the longest run of characters satisfying `p` that starts at `i`. */
  function Span(s: string, i: nat, p: char -> bool): (j: nat)
    requires i <= |s|
    ensures i <= j <= |s|
    ensures forall k :: i <= k < j ==> p(s[k])
    ensures j == |s| || !p(s[j])
    decreases |s| - i
  {
    if i < |s| && p(s[i]) then Span(s, i + 1, p) else i
  }

  /** A run that ends where `p` first fails is the one `Span` finds. */
  lemma {:induction false} SpanIs(s: string, i: nat, j: nat, p: char -> bool)
    requires i <= j <= |s|
    requires forall k :: i <= k < j ==> p(s[k])
    requires j == |s| || !p(s[j])
    ensures Span(s, i, p) == j
    decreases j - i
  {
    if i < j {
      SpanIs(s, i + 1, j, p);
    }
  }

  /** The start of the longest run of characters satisfying `p` that ends at `j`,
      not going below `lo`. */
  function SpanBack(s: string, lo: nat, j: nat, p: char -> bool): (i: nat)
    requires lo <= j <= |s|
    ensures lo <= i <= j
    ensures forall k :: i <= k < j ==> p(s[k])
    ensures i == lo || !p(s[i - 1])
    decreases j
  {
    if lo < j && p(s[j - 1]) then SpanBack(s, lo, j - 1, p) else j
  }

  /** `s` occurs in `t` at some position. */
  ghost predicate IsSubstring(s: string, t: string)
  {
    exists i, j :: 0 <= i <= j <= |t| && s == t[i..j]
  }

  lemma SubstringTrans(r: string, s: string, t: string)
    requires IsSubstring(r, s) && IsSubstring(s, t)
    ensures IsSubstring(r, t)
  {
    var i1, j1 :| 0 <= i1 <= j1 <= |t| && s == t[i1..j1];
    var i2, j2 :| 0 <= i2 <= j2 <= |s| && r == s[i2..j2];
    forall k | 0 <= k < |r|
      ensures r[k] == t[i1 + i2 + k]
    {
      assert r[k] == s[i2 + k];
    }
    assert r == t[i1 + i2..i1 + j2];
  }

  /** `s.trim()`: the input without its leading and trailing white space. */
  function Trim(s: string): (r: string)
    ensures r == [] || (!IsSpace(r[0]) && !IsSpace(r[|r| - 1]))
  {
    var i := Span(s, 0, IsSpace);
    var j := SpanBack(s, i, |s|, IsSpace);
    assert i < j ==> !IsSpace(s[j - 1]);
    s[i..j]
  }

  /** What `trim()` removes is white space at either end, and only that. */
  lemma TrimInside(s: string)
    ensures exists i, j :: 0 <= i <= j <= |s| && Trim(s) == s[i..j]
              && (forall k :: 0 <= k < i ==> IsSpace(s[k]))
              && (forall k :: j <= k < |s| ==> IsSpace(s[k]))
  {
    var i := Span(s, 0, IsSpace);
    var j := SpanBack(s, i, |s|, IsSpace);
    assert Trim(s) == s[i..j];
  }

  /** Trimming a string that has no surrounding white space changes nothing. */
  lemma TrimNoOp(s: string)
    requires s == [] || (!IsSpace(s[0]) && !IsSpace(s[|s| - 1]))
    ensures Trim(s) == s
  {
    var i := Span(s, 0, IsSpace);
    assert i == 0;
    var j := SpanBack(s, i, |s|, IsSpace);
    assert j == |s|;
  }

  predicate StartsWith(s: string, prefix: string)
  {
    |prefix| <= |s| && s[..|prefix|] == prefix
  }

  predicate EndsWith(s: string, suffix: string)
  {
    |suffix| <= |s| && s[|s| - |suffix|..] == suffix
  }

  /** `pattern` occurs in `s` starting at index `i`. */
  predicate OccursAt(s: string, pattern: string, i: int)
  {
    0 <= i && i + |pattern| <= |s| && s[i..i + |pattern|] == pattern
  }

  /** `s.includes(pattern)`. */
  function Contains(s: string, pattern: string): (b: bool)
    ensures b <==> exists i :: OccursAt(s, pattern, i)
    decreases |s|
  {
    if StartsWith(s, pattern) then
      assert OccursAt(s, pattern, 0);
      true
    else if s == [] then
      assert forall i :: !OccursAt(s, pattern, i);
      false
    else
      var b := Contains(s[1..], pattern);
      assert forall i :: 1 <= i ==> (OccursAt(s, pattern, i) <==> OccursAt(s[1..], pattern, i - 1));
      if b then
        var i :| OccursAt(s[1..], pattern, i);
        assert OccursAt(s, pattern, i + 1);
        true
      else
        assert !OccursAt(s, pattern, 0);
        false
  }

  /** `s.split(sep)` for a one-character separator: the pieces between the
      separators, including empty ones; there is always at least one piece. */
  function SplitOn(s: string, sep: char): (r: seq<string>)
    ensures |r| >= 1
    ensures forall k :: 0 <= k < |r| ==> sep !in r[k]
    decreases |s|
  {
    var i := Span(s, 0, c => c != sep);
    if i == |s| then
      assert forall k :: 0 <= k < |s| ==> s[k] != sep;
      [s]
    else
      assert forall k :: 0 <= k < i ==> s[..i][k] != sep;
      [s[..i]] + SplitOn(s[i + 1..], sep)
  }

  /** `xs.join(sep)`. */
  function JoinWith(xs: seq<string>, sep: char): string
  {
    if xs == [] then "" else if |xs| == 1 then xs[0] else xs[0] + [sep] + JoinWith(xs[1..], sep)
  }

  /** Splitting undoes joining when no piece contains the separator. */
  lemma {:induction false} SplitJoin(xs: seq<string>, sep: char)
    requires xs != []
    requires forall k :: 0 <= k < |xs| ==> sep !in xs[k]
    ensures SplitOn(JoinWith(xs, sep), sep) == xs
    decreases |xs|
  {
    var s := JoinWith(xs, sep);
    var a := xs[0];
    var i := Span(s, 0, c => c != sep);
    if |xs| == 1 {
      assert s == a;
      assert forall k :: 0 <= k < |s| ==> s[k] in a;
      assert i == |s|;
    } else {
      var rest := JoinWith(xs[1..], sep);
      assert s == a + [sep] + rest;
      assert forall k :: 0 <= k < |a| ==> s[k] == a[k] && s[k] in a;
      assert s[|a|] == sep;
      assert i == |a|;
      assert s[..i] == a;
      assert s[i + 1..] == rest;
      SplitJoin(xs[1..], sep);
    }
  }

  /** Joining the pieces of a split with the separator gives the string back. */
  lemma {:induction false} JoinSplit(s: string, sep: char)
    ensures JoinWith(SplitOn(s, sep), sep) == s
    decreases |s|
  {
    var i := Span(s, 0, c => c != sep);
    if i < |s| {
      var rest := SplitOn(s[i + 1..], sep);
      JoinSplit(s[i + 1..], sep);
      assert ([s[..i]] + rest)[1..] == rest;
      assert s == s[..i] + [sep] + s[i + 1..];
    }
  }

  function DigitChar(d: nat): (c: char)
    requires d < 10
    ensures IsDigit(c)
  {
    (48 + d) as char
  }

  function DigitValue(c: char): (d: nat)
    requires IsDigit(c)
    ensures d < 10 && DigitChar(d) == c
  {
    c as int - 48
  }

  /** `n.toString()` for a non-negative integer. */
  function NatToString(n: nat): (r: string)
    ensures |r| >= 1 && AllDigits(r)
    ensures n >= 10 <==> |r| >= 2
    decreases n
  {
    if n < 10 then [DigitChar(n)] else NatToString(n / 10) + [DigitChar(n % 10)]
  }

  /** The number a string of decimal digits denotes. */
  function DecimalValue(s: string): nat
    requires AllDigits(s)
    decreases |s|
  {
    if s == [] then 0 else 10 * DecimalValue(s[..|s| - 1]) + DigitValue(s[|s| - 1])
  }

  lemma {:induction false} DecimalRoundTrip(n: nat)
    ensures DecimalValue(NatToString(n)) == n
    decreases n
  {
    if n >= 10 {
      var r := NatToString(n);
      assert r[..|r| - 1] == NatToString(n / 10);
      DecimalRoundTrip(n / 10);
    }
  }

  /** A leading zero does not change the value. */
  lemma {:induction false} LeadingZero(s: string)
    ensures AllDigits(s) ==> AllDigits("0" + s) && DecimalValue("0" + s) == DecimalValue(s)
    decreases |s|
  {
    if s != [] && AllDigits(s) {
      var t := "0" + s;
      assert t[..|t| - 1] == "0" + s[..|s| - 1];
      LeadingZero(s[..|s| - 1]);
    }
  }

  /** `s.padStart(2, '0')`. */
  function PadStart2(s: string): (r: string)
    ensures |r| == if |s| < 2 then 2 else |s|
    ensures AllDigits(s) ==> AllDigits(r) && DecimalValue(r) == DecimalValue(s)
  {
    if |s| == 0 then
      LeadingZero("0"); LeadingZero("");
      "00"
    else if |s| == 1 then
      LeadingZero(s);
      "0" + s
    else s
  }
}
