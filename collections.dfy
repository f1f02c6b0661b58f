/**
 * The list operations the pages apply to their data: JavaScript's
 * `Array.prototype.filter`, the `filter(...).length` counts built on it, and
 * the "all or one value" filter controls of the list pages.
 */
module Collections {

  /** A filter control: `'all'`, or one particular value. */
  datatype Selection<T> = All | Only(value: T)

  /** Whether the control lets `x` through. */
  predicate Selects<T(==)>(f: Selection<T>, x: T)
  {
    f.All? || f.value == x
  }

  /** `a` is obtained from `b` by deleting elements (order is kept). */
  predicate IsSubsequence<T(==)>(a: seq<T>, b: seq<T>)
    decreases |b|
  {
    if a == [] then true
    else if b == [] then false
    else if a[0] == b[0] then IsSubsequence(a[1..], b[1..])
    else IsSubsequence(a, b[1..])
  }

  /** `s.filter(p)`: the elements of `s` that satisfy `p`, in their order in `s`. */
  function Filter<T(==, !new)>(s: seq<T>, p: T -> bool): (r: seq<T>)
    ensures |r| <= |s|
    ensures forall x :: x in r <==> x in s && p(x)
    ensures IsSubsequence(r, s)
  {
    if s == [] then []
    else if p(s[0]) then [s[0]] + Filter(s[1..], p)
    else Filter(s[1..], p)
  }

  /** `s.filter(p).length`. */
  function Count<T(==, !new)>(s: seq<T>, p: T -> bool): nat
  {
    |Filter(s, p)|
  }

  /** A filter that every element passes returns the list itself. */
  lemma {:induction false} FilterKeepsAll<T(!new)>(s: seq<T>, p: T -> bool)
    requires forall x :: x in s ==> p(x)
    ensures Filter(s, p) == s
  {
    if s != [] {
      FilterKeepsAll(s[1..], p);
    }
  }

  /** Nothing passes a filter that rejects every element. */
  lemma {:induction false} FilterKeepsNone<T(!new)>(s: seq<T>, p: T -> bool)
    requires forall x :: x in s ==> !p(x)
    ensures Filter(s, p) == []
  {
    if s != [] {
      FilterKeepsNone(s[1..], p);
    }
  }

  /**
   * Each element occurs in the result exactly as often as in `s` when it
   * passes, and not at all otherwise; with `IsSubsequence` this pins the
   * result down completely.
   */
  lemma {:induction false} FilterMultiplicity<T(!new)>(s: seq<T>, p: T -> bool)
    ensures forall x :: multiset(Filter(s, p))[x] == if p(x) then multiset(s)[x] else 0
  {
    if s != [] {
      FilterMultiplicity(s[1..], p);
      assert s == [s[0]] + s[1..];
      assert multiset(s) == multiset([s[0]]) + multiset(s[1..]);
      if p(s[0]) {
        assert multiset(Filter(s, p)) == multiset([s[0]]) + multiset(Filter(s[1..], p));
      }
    }
  }

  /**
   * Narrowing a filter (every element `q` accepts is accepted by `p`) is the
   * same as filtering the wider result again, so the narrower result is an
   * order-preserving subsequence, and a subset, of the wider one.
   */
  lemma {:induction false} FilterNarrows<T(!new)>(s: seq<T>, p: T -> bool, q: T -> bool)
    requires forall x :: q(x) ==> p(x)
    ensures Filter(s, q) == Filter(Filter(s, p), q)
    ensures IsSubsequence(Filter(s, q), Filter(s, p))
    ensures Count(s, q) <= Count(s, p)
  {
    if s != [] {
      FilterNarrows(s[1..], p, q);
    }
  }
}
