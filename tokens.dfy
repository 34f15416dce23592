/** The two regular-expression tokenisers of the source, written as scanners.

    `s.match(/\b\d{lo,hi}\b/g)` (route.ts, real/route.ts, useOCR.ts, the Gemini
    fallback): `\b` sits between a word and a non-word character, and `\d` and `\w`
    are ASCII-only, so a match is exactly a maximal run of word characters that
    consists of digits only and has between `lo` and `hi` of them. A longer digit
    run, or one glued to a letter or `_`, yields nothing: after backtracking, every
    shorter prefix is followed by a digit, which is no boundary.

    `s.match(/>\s*(\d{2,6})\s*</g)` (prefetch/route.ts): a `>`, white space, a
    run of 2 to 6 digits, white space and a `<`; the scan resumes after the `<`. */
module Tokens {
  import opened Base
  import opened Text

  /** `s[i..j]` is a maximal run of word characters. */
  predicate WordAt(s: string, i: int, j: int)
  {
    && 0 <= i < j <= |s|
    && (forall k :: i <= k < j ==> IsWordChar(s[k]))
    && (i == 0 || !IsWordChar(s[i - 1]))
    && (j == |s| || !IsWordChar(s[j]))
  }

  /** No word run straddles index `k`. */
  predicate AtBoundary(s: string, k: nat)
    requires k <= |s|
  {
    k == 0 || k == |s| || !IsWordChar(s[k - 1]) || !IsWordChar(s[k])
  }

  /** The maximal word runs of `s` that start at or after index `k`, left to right. */
  function WordsFrom(s: string, k: nat): seq<string>
    requires k <= |s|
    decreases |s| - k
  {
    if k == |s| then []
    else if !IsWordChar(s[k]) then WordsFrom(s, k + 1)
    else
      var j := Span(s, k, IsWordChar);
      [s[k..j]] + WordsFrom(s, j)
  }

  function Words(s: string): seq<string>
  {
    WordsFrom(s, 0)
  }

  lemma {:induction false} WordsFromSound(s: string, k: nat, w: string)
    requires k <= |s| && AtBoundary(s, k)
    requires w in WordsFrom(s, k)
    ensures exists i, j :: WordAt(s, i, j) && w == s[i..j]
    decreases |s| - k
  {
    if !IsWordChar(s[k]) {
      WordsFromSound(s, k + 1, w);
    } else {
      var j := Span(s, k, IsWordChar);
      if w == s[k..j] {
        assert WordAt(s, k, j);
      } else {
        WordsFromSound(s, j, w);
      }
    }
  }

  lemma {:induction false} WordsFromComplete(s: string, k: nat, i: int, j: int)
    requires k <= |s| && AtBoundary(s, k)
    requires WordAt(s, i, j) && k <= i
    ensures s[i..j] in WordsFrom(s, k)
    decreases |s| - k
  {
    if !IsWordChar(s[k]) {
      WordsFromComplete(s, k + 1, i, j);
    } else {
      var e := Span(s, k, IsWordChar);
      if k == i {
        assert e == j;
      } else {
        assert !IsWordChar(s[i - 1]);
        assert e <= i;
        WordsFromComplete(s, e, i, j);
      }
    }
  }

  /** The runs found by the scanner are exactly the maximal word runs of `s`. */
  lemma WordsExact(s: string, w: string)
    ensures w in Words(s) <==> exists i, j :: WordAt(s, i, j) && w == s[i..j]
  {
    if w in Words(s) {
      WordsFromSound(s, 0, w);
    }
    if exists i, j :: WordAt(s, i, j) && w == s[i..j] {
      var i, j :| WordAt(s, i, j) && w == s[i..j];
      WordsFromComplete(s, 0, i, j);
    }
  }

  /** `t` is a word-bounded run of `lo` to `hi` digits somewhere in `s`. */
  ghost predicate IsDigitToken(s: string, t: string, lo: nat, hi: nat)
  {
    && AllDigits(t) && lo <= |t| <= hi
    && exists i, j :: WordAt(s, i, j) && t == s[i..j]
  }

  predicate DigitsInRange(w: string, lo: nat, hi: nat)
  {
    AllDigits(w) && lo <= |w| <= hi
  }

  /** `s.match(/\b\d{lo,hi}\b/g) || []`, in order of occurrence, repeats included. */
  function DigitWords(s: string, lo: nat, hi: nat): (r: seq<string>)
    ensures forall t :: t in r ==> AllDigits(t) && lo <= |t| <= hi
  {
    Filter(Words(s), w => DigitsInRange(w, lo, hi))
  }

  /** A string is matched by `/\b\d{lo,hi}\b/` exactly when it is a word-bounded
      digit run of the right length in `s`. */
  lemma DigitWordsExact(s: string, lo: nat, hi: nat, t: string)
    ensures t in DigitWords(s, lo, hi) <==> IsDigitToken(s, t, lo, hi)
  {
    WordsExact(s, t);
  }

  /** A bucket `s.match(/\b\d{n}\b/g)` is the `n`-digit part of the 2-to-6 digit list. */
  lemma DigitWordsBucket(s: string, n: nat)
    requires 2 <= n <= 6
    ensures DigitWords(s, n, n) == Filter(DigitWords(s, 2, 6), (w: string) => |w| == n)
  {
    FilterTwice(Words(s), w => DigitsInRange(w, 2, 6), (w: string) => |w| == n,
                w => DigitsInRange(w, n, n));
  }

  /** A `>` at index `p`, white space up to `a`, `n` further characters, white
      space up to `c` and a `<` at `c`. */
  predicate TagFrame(s: string, p: int, a: int, c: int, n: nat)
  {
    && 0 <= p < a && a + n <= c < |s|
    && s[p] == '>' && s[c] == '<'
    && (forall k :: p < k < a ==> IsSpace(s[k]))
    && (forall k :: a + n <= k < c ==> IsSpace(s[k]))
  }

  /** `>`, white space, the digits `t`, white space, `<`, with the `>` at index `p`. */
  ghost predicate TagDelimited(s: string, p: int, t: string)
  {
    exists a, c :: TagFrame(s, p, a, c, |t|) && s[a..a + |t|] == t
  }

  /** One attempt of `/>\s*(\d{2,6})\s*</` at index `p`: the digits and the index
      just past the closing `<`. */
  function TagMatchAt(s: string, p: nat): Option<(string, nat)>
    requires p < |s|
  {
    if s[p] != '>' then None
    else
      var a := Span(s, p + 1, IsSpace);
      var b := Span(s, a, IsDigit);
      var c := Span(s, b, IsSpace);
      if 2 <= b - a <= 6 && c < |s| && s[c] == '<' then Some((s[a..b], c + 1)) else None
  }

  /** The digit groups of all matches starting at or after `p`, each one with its
      `>`, `<` and white space stripped. */
  function TagTokensFrom(s: string, p: nat): (r: seq<string>)
    requires p <= |s|
    ensures forall t :: t in r ==> AllDigits(t) && 2 <= |t| <= 6
    decreases |s| - p
  {
    if p == |s| then []
    else match TagMatchAt(s, p)
      case Some((t, next)) => [t] + TagTokensFrom(s, next)
      case None => TagTokensFrom(s, p + 1)
  }

  function TagTokens(s: string): seq<string>
  {
    TagTokensFrom(s, 0)
  }

  lemma TagMatchSound(s: string, p: nat)
    requires p < |s| && TagMatchAt(s, p).Some?
    ensures p < TagMatchAt(s, p).value.1 <= |s|
    ensures TagDelimited(s, p, TagMatchAt(s, p).value.0)
    ensures forall k :: p < k < TagMatchAt(s, p).value.1 ==> s[k] != '>'
  {
    var a := Span(s, p + 1, IsSpace);
    var b := Span(s, a, IsDigit);
    var c := Span(s, b, IsSpace);
    assert TagFrame(s, p, a, c, b - a) && s[a..a + (b - a)] == s[a..b];
  }

  lemma TagMatchComplete(s: string, p: nat, t: string)
    requires p < |s| && AllDigits(t) && 2 <= |t| <= 6
    requires TagDelimited(s, p, t)
    ensures TagMatchAt(s, p).Some? && TagMatchAt(s, p).value.0 == t
  {
    var a0, c0 :| TagFrame(s, p, a0, c0, |t|) && s[a0..a0 + |t|] == t;
    SliceDigits(s, a0, a0 + |t|);
    TagSpans(s, p, a0, a0 + |t|, c0);
    TagMatchFrame(s, p, a0, a0 + |t|, c0);
  }

  /** A frame around two to six digits is what the match at its `>` finds. */
  lemma TagMatchFrame(s: string, p: nat, a: nat, b: nat, c: nat)
    requires p < |s| && a + 2 <= b <= a + 6 && c + 1 <= |s| && s[p] == '>' && s[c] == '<'
    requires Span(s, p + 1, IsSpace) == a && Span(s, a, IsDigit) == b && Span(s, b, IsSpace) == c
    ensures TagMatchAt(s, p) == Some((s[a..b], c + 1))
  {
  }

  lemma SliceDigits(s: string, a: nat, b: nat)
    requires a <= b <= |s| && AllDigits(s[a..b])
    ensures forall k :: a <= k < b ==> IsDigit(s[k])
  {
    forall k | a <= k < b
      ensures IsDigit(s[k])
    {
      assert s[k] == s[a..b][k - a];
    }
  }

  /** The three scans of a match stop at the ends of the white space, the digits
      and the white space of a frame. */
  lemma TagSpans(s: string, p: nat, a: nat, b: nat, c: nat)
    requires a < b && TagFrame(s, p, a, c, b - a)
    requires forall k :: a <= k < b ==> IsDigit(s[k])
    ensures Span(s, p + 1, IsSpace) == a && Span(s, a, IsDigit) == b && Span(s, b, IsSpace) == c
  {
    assert !IsSpace(s[a]) by {
      assert IsDigit(s[a]);
    }
    SpanIs(s, p + 1, a, IsSpace);
    assert !IsDigit(s[b]) by {
      if b < c { assert IsSpace(s[b]); } else { assert s[b] == '<'; }
    }
    SpanIs(s, a, b, IsDigit);
    SpanIs(s, b, c, IsSpace);
  }

  lemma {:induction false} TagTokensFromSound(s: string, p: nat, t: string)
    requires p <= |s| && t in TagTokensFrom(s, p)
    ensures exists q :: p <= q < |s| && TagDelimited(s, q, t)
    decreases |s| - p
  {
    match TagMatchAt(s, p)
    case Some((u, next)) =>
      TagMatchSound(s, p);
      if t != u {
        TagTokensFromSound(s, next, t);
      }
    case None =>
      TagTokensFromSound(s, p + 1, t);
  }

  lemma {:induction false} TagTokensFromComplete(s: string, p: nat, q: nat, t: string)
    requires p <= q < |s| && AllDigits(t) && 2 <= |t| <= 6 && TagDelimited(s, q, t)
    ensures t in TagTokensFrom(s, p)
    decreases |s| - p
  {
    if p == q {
      TagMatchComplete(s, q, t);
    } else {
      match TagMatchAt(s, p)
      case Some((u, next)) =>
        TagMatchSound(s, p);
        assert s[q] == '>';
        if t != u {
          TagTokensFromComplete(s, next, q, t);
        }
      case None =>
        TagTokensFromComplete(s, p + 1, q, t);
    }
  }

  /** The scanner finds exactly the 2-to-6 digit groups between a `>` and a `<`. */
  lemma TagTokensExact(s: string, t: string)
    ensures t in TagTokens(s) <==> AllDigits(t) && 2 <= |t| <= 6 && exists q :: TagDelimited(s, q, t)
  {
    if t in TagTokens(s) {
      TagTokensFromSound(s, 0, t);
    }
    if AllDigits(t) && 2 <= |t| <= 6 && exists q :: TagDelimited(s, q, t) {
      var q :| TagDelimited(s, q, t);
      assert 0 <= q < |s|;
      TagTokensFromComplete(s, 0, q, t);
    }
  }
}
