/** Sequence operations that the TypeScript source gets from its standard library:
    `Array.prototype.filter`, `[...new Set(xs)]`, `Array.prototype.slice` and `map`. */
module Base {

  datatype Option<+T> = None | Some(value: T)

  /** `xs.filter(keep)`: the elements that satisfy `keep`, in their original order. */
  function Filter<T(!new)>(xs: seq<T>, keep: T -> bool): (r: seq<T>)
    ensures |r| <= |xs|
    ensures forall x :: x in r <==> x in xs && keep(x)
    decreases |xs|
  {
    if xs == [] then [] else (if keep(xs[0]) then [xs[0]] else []) + Filter(xs[1..], keep)
  }

  /** `a` is `b` with some elements left out (a subsequence, in the same order). */
  predicate Embeds<T(==)>(a: seq<T>, b: seq<T>)
    decreases |b|
  {
    if a == [] then true
    else if b == [] then false
    else if a[0] == b[0] then Embeds(a[1..], b[1..])
    else Embeds(a, b[1..])
  }

  /** Filtering keeps the survivors in the order they had. */
  lemma {:induction false} FilterEmbeds<T(!new)>(xs: seq<T>, keep: T -> bool)
    ensures Embeds(Filter(xs, keep), xs)
    decreases |xs|
  {
    if xs != [] {
      FilterEmbeds(xs[1..], keep);
      var rest := Filter(xs[1..], keep);
      if keep(xs[0]) {
        assert Filter(xs, keep) == [xs[0]] + rest;
        assert ([xs[0]] + rest)[1..] == rest;
      } else {
        assert Filter(xs, keep) == rest;
        if rest != [] {
          assert rest[0] in rest;
        }
      }
    }
  }

  /** Filtering distributes over concatenation. */
  lemma {:induction false} FilterAppend<T(!new)>(a: seq<T>, b: seq<T>, keep: T -> bool)
    ensures Filter(a + b, keep) == Filter(a, keep) + Filter(b, keep)
    decreases |a|
  {
    if a != [] {
      assert (a + b)[0] == a[0];
      assert (a + b)[1..] == a[1..] + b;
      FilterAppend(a[1..], b, keep);
    } else {
      assert a + b == b;
    }
  }

  /** Two filters in a row are one filter by the conjunction. */
  lemma {:induction false} FilterTwice<T(!new)>(xs: seq<T>, p: T -> bool, q: T -> bool, pq: T -> bool)
    requires forall x :: pq(x) == (p(x) && q(x))
    ensures Filter(Filter(xs, p), q) == Filter(xs, pq)
    decreases |xs|
  {
    if xs != [] {
      FilterTwice(xs[1..], p, q, pq);
      FilterAppend(if p(xs[0]) then [xs[0]] else [], Filter(xs[1..], p), q);
    }
  }

  /** The elements of `xs` other than `x`. */
  function Remove<T(==,!new)>(xs: seq<T>, x: T): (r: seq<T>)
    ensures |r| <= |xs|
    ensures forall y :: y in r <==> y in xs && y != x
  {
    Filter(xs, y => y != x)
  }

  /** No element occurs twice. */
  predicate Distinct<T(==)>(xs: seq<T>)
  {
    forall i, j :: 0 <= i < j < |xs| ==> xs[i] != xs[j]
  }

  /** `[...new Set(xs)]`: every element once, at the place where it is first seen. */
  function Dedupe<T(==,!new)>(xs: seq<T>): (r: seq<T>)
    ensures Distinct(r)
    ensures forall x :: x in r <==> x in xs
    ensures |r| <= |xs|
    ensures xs != [] ==> r != [] && r[0] == xs[0]
    decreases |xs|
  {
    if xs == [] then []
    else
      var tail := Dedupe(Remove(xs[1..], xs[0]));
      assert forall i :: 0 <= i < |tail| ==> tail[i] in tail;
      [xs[0]] + tail
  }

  /** Removing two different values can be done in either order. */
  lemma {:induction false} FiltersCommute<T(!new)>(xs: seq<T>, p: T -> bool, q: T -> bool)
    ensures Filter(Filter(xs, p), q) == Filter(Filter(xs, q), p)
    decreases |xs|
  {
    if xs != [] {
      FiltersCommute(xs[1..], p, q);
      var x := xs[0];
      FilterAppend(if p(x) then [x] else [], Filter(xs[1..], p), q);
      FilterAppend(if q(x) then [x] else [], Filter(xs[1..], q), p);
      if p(x) { assert Filter([x], q) == (if q(x) then [x] else []); }
      if q(x) { assert Filter([x], p) == (if p(x) then [x] else []); }
    }
  }

  lemma FilterNoOp<T(!new)>(xs: seq<T>, keep: T -> bool)
    requires forall x :: x in xs ==> keep(x)
    ensures Filter(xs, keep) == xs
    decreases |xs|
  {
    if xs != [] {
      assert forall x :: x in xs[1..] ==> x in xs;
      FilterNoOp(xs[1..], keep);
    }
  }

  /** Deduplicating and then bucketing gives the same list as bucketing and then
      deduplicating: a bucket of `[...new Set(xs)]` lists the bucket's values in
      the order they are first seen in `xs`. */
  lemma {:induction false} FilterDedupe<T(!new)>(xs: seq<T>, keep: T -> bool)
    ensures Filter(Dedupe(xs), keep) == Dedupe(Filter(xs, keep))
    decreases |xs|
  {
    if xs != [] {
      var x, rest := xs[0], xs[1..];
      var notX := (y: T) => y != x;
      FilterDedupe(Remove(rest, x), keep);
      FiltersCommute(rest, notX, keep);
      assert Filter(Dedupe(xs), keep)
          == (if keep(x) then [x] else []) + Filter(Dedupe(Remove(rest, x)), keep);
      if keep(x) {
        assert Filter(xs, keep) == [x] + Filter(rest, keep);
        assert ([x] + Filter(rest, keep))[1..] == Filter(rest, keep);
      } else {
        assert Filter(xs, keep) == Filter(rest, keep);
        FilterNoOp(Filter(rest, keep), notX);
      }
    }
  }

  /** Order of first appearance: the distinct values of a prefix come first, and
      keep their order, in the distinct values of the whole list. */
  lemma {:induction false} DedupePrefix<T(!new)>(xs: seq<T>, ys: seq<T>)
    ensures Dedupe(xs) <= Dedupe(xs + ys)
    decreases |xs|
  {
    if xs != [] {
      var x := xs[0];
      assert (xs + ys)[0] == x;
      assert (xs + ys)[1..] == xs[1..] + ys;
      FilterAppend(xs[1..], ys, y => y != x);
      DedupePrefix(Remove(xs[1..], x), Remove(ys, x));
    } else {
      assert xs + ys == ys;
    }
  }

  /** Nothing kept, nothing left. */
  lemma {:induction false} FilterNone<T(!new)>(xs: seq<T>, keep: T -> bool)
    requires forall k :: 0 <= k < |xs| ==> !keep(xs[k])
    ensures Filter(xs, keep) == []
    decreases |xs|
  {
    if xs != [] {
      FilterNone(xs[1..], keep);
    }
  }

  /** Filtering a list without repeats gives a list without repeats. */
  lemma {:induction false} FilterDistinct<T(!new)>(xs: seq<T>, keep: T -> bool)
    requires Distinct(xs)
    ensures Distinct(Filter(xs, keep))
    decreases |xs|
  {
    if xs != [] {
      assert forall i :: 1 <= i < |xs| ==> xs[i] == xs[1..][i - 1];
      FilterDistinct(xs[1..], keep);
      var rest := Filter(xs[1..], keep);
      assert xs[0] !in xs[1..];
      assert forall i :: 0 <= i < |rest| ==> rest[i] in rest;
    }
  }

  /** The first element a filter keeps is the first element of the list that
      passes it. */
  lemma {:induction false} FilterFirst<T(!new)>(xs: seq<T>, keep: T -> bool)
    requires Filter(xs, keep) != []
    ensures exists k :: 0 <= k < |xs| && keep(xs[k]) && Filter(xs, keep)[0] == xs[k]
              && forall m :: 0 <= m < k ==> !keep(xs[m])
    decreases |xs|
  {
    if !keep(xs[0]) {
      var rest := xs[1..];
      assert Filter(xs, keep) == Filter(rest, keep);
      FilterFirst(rest, keep);
      var k :| 0 <= k < |rest| && keep(rest[k]) && Filter(rest, keep)[0] == rest[k]
               && forall m :: 0 <= m < k ==> !keep(rest[m]);
      ShiftedPrefix(xs, k, keep);
    } else {
      assert Filter(xs, keep)[0] == xs[0];
    }
  }

  lemma ShiftedPrefix<T>(xs: seq<T>, k: nat, keep: T -> bool)
    requires k < |xs| - 1 && !keep(xs[0])
    requires forall m :: 0 <= m < k ==> !keep(xs[1..][m])
    ensures forall m :: 0 <= m < k + 1 ==> !keep(xs[m])
  {
    forall m | 0 < m < k + 1
      ensures !keep(xs[m])
    {
      assert xs[m] == xs[1..][m - 1];
    }
  }

  /** The first of `f(p)`, ..., `f(n)` that is present, scanning upward. */
  function FirstSome<T(==)>(f: nat -> Option<T>, p: nat, n: nat): (r: Option<T>)
    requires p <= n
    ensures r.None? <==> forall q :: p <= q <= n ==> f(q).None?
    ensures r.Some? ==> exists q :: p <= q <= n && f(q) == r
                          && forall q' :: p <= q' < q ==> f(q').None?
    decreases n - p
  {
    if f(p).Some? || p == n then f(p) else FirstSome(f, p + 1, n)
  }

  /** `xs.slice(lo, hi)` for `0 <= lo <= hi`: indices past the end are clamped. */
  function Slice<T>(xs: seq<T>, lo: nat, hi: nat): (r: seq<T>)
    requires lo <= hi
    ensures |r| <= hi - lo
    ensures hi <= |xs| ==> |r| == hi - lo
    ensures forall i :: 0 <= i < |r| ==> lo + i < |xs| && r[i] == xs[lo + i]
  {
    var a := if lo < |xs| then lo else |xs|;
    var b := if hi < |xs| then hi else |xs|;
    xs[a..b]
  }

  lemma SliceMembers<T>(xs: seq<T>, lo: nat, hi: nat, x: T)
    requires lo <= hi
    requires x in Slice(xs, lo, hi)
    ensures x in xs
  {
  }

  /** Slices of a duplicate-free list taken over non-overlapping index windows
      share no element. */
  lemma {:induction false} DisjointWindows<T>(xs: seq<T>, a: nat, b: nat, c: nat, d: nat)
    requires Distinct(xs)
    requires a <= b <= c <= d
    ensures forall x :: x in Slice(xs, a, b) ==> x !in Slice(xs, c, d)
  {
    var s, t := Slice(xs, a, b), Slice(xs, c, d);
    forall i, j | 0 <= i < |s| && 0 <= j < |t|
      ensures s[i] != t[j]
    {
      assert a + i < c + j;
    }
  }
}
