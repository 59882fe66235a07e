/**
 * The two array operations every store and screen relies on: `Array.prototype.filter`
 * and a summing `Array.prototype.reduce`, as recursive functions over sequences.
 */
module Seqs {

  /** `s.filter(f)`: the elements of `s` for which `f` holds, in their original order. */
  function Filter<T(!new)>(f: T -> bool, s: seq<T>): (r: seq<T>)
    ensures |r| <= |s|
    ensures forall x :: x in r <==> x in s && f(x)
    ensures multiset(r) <= multiset(s)
  {
    if s == [] then []
    else
      assert s == [s[0]] + s[1..];
      (if f(s[0]) then [s[0]] else []) + Filter(f, s[1..])
  }

  /** Filtering distributes over concatenation, so the relative order of kept elements is preserved. */
  lemma {:induction false} FilterConcat<T(!new)>(f: T -> bool, a: seq<T>, b: seq<T>)
    ensures Filter(f, a + b) == Filter(f, a) + Filter(f, b)
  {
    if a == [] {
      assert a + b == b;
    } else {
      assert (a + b)[0] == a[0];
      assert (a + b)[1..] == a[1..] + b;
      FilterConcat(f, a[1..], b);
    }
  }

  /** Putting the same head in front of two sequences keeps an equation between their filters. */
  lemma FilterConsEq<T(!new)>(f: T -> bool, h: T, a: seq<T>, b: seq<T>, tail: seq<T>)
    requires Filter(f, a) == Filter(f, b) + tail
    ensures Filter(f, [h] + a) == Filter(f, [h] + b) + tail
  {
    FilterConcat(f, [h], a);
    FilterConcat(f, [h], b);
    AppendAssoc(Filter(f, [h]), Filter(f, b), tail);
  }

  /** A filter that ends with what `x` contributes is the filter of the sequence extended by `x`. */
  lemma FilterSnocEq<T(!new)>(f: T -> bool, a: seq<T>, b: seq<T>, x: T)
    requires Filter(f, a) == Filter(f, b) + (if f(x) then [x] else [])
    ensures Filter(f, a) == Filter(f, b + [x])
  {
    FilterConcat(f, b, [x]);
    FilterSingle(f, x);
  }

  /** Filtering a sequence with a head: the head's contribution, then the rest's. */
  lemma FilterCons<T(!new)>(f: T -> bool, x: T, t: seq<T>)
    ensures Filter(f, [x] + t) == (if f(x) then [x] else []) + Filter(f, t)
  {
    FilterConcat(f, [x], t);
    FilterSingle(f, x);
  }

  /** The filter of a one-element sequence. */
  lemma FilterSingle<T(!new)>(f: T -> bool, x: T)
    ensures Filter(f, [x]) == if f(x) then [x] else []
  {
    assert [x][0] == x;
    assert [x][1..] == [];
  }

  /** A filter that rejects nothing returns its input unchanged. */
  lemma {:induction false} FilterKeepsAll<T(!new)>(f: T -> bool, s: seq<T>)
    requires forall x :: x in s ==> f(x)
    ensures Filter(f, s) == s
  {
    if s != [] {
      assert s[0] in s;
      forall x | x in s[1..] ensures f(x) {
        assert x in s;
      }
      FilterKeepsAll(f, s[1..]);
      assert s == [s[0]] + s[1..];
    }
  }

  /** A filter that keeps nothing returns the empty sequence. */
  lemma {:induction false} FilterDropsAll<T(!new)>(f: T -> bool, s: seq<T>)
    requires forall x :: x in s ==> !f(x)
    ensures Filter(f, s) == []
  {
    if s != [] {
      assert s[0] in s;
      forall x | x in s[1..] ensures !f(x) {
        assert x in s;
      }
      FilterDropsAll(f, s[1..]);
    }
  }

  /** Filtering twice with the same predicate is the same as filtering once. */
  lemma FilterIdempotent<T(!new)>(f: T -> bool, s: seq<T>)
    ensures Filter(f, Filter(f, s)) == Filter(f, s)
  {
    FilterKeepsAll(f, Filter(f, s));
  }

  /** Two predicates that agree on every element of `s` filter it alike. */
  lemma {:induction false} FilterSameOn<T(!new)>(f: T -> bool, g: T -> bool, s: seq<T>)
    requires forall x :: x in s ==> f(x) == g(x)
    ensures Filter(f, s) == Filter(g, s)
  {
    if s != [] {
      assert s[0] in s;
      forall x | x in s[1..] ensures f(x) == g(x) {
        assert x in s;
      }
      FilterSameOn(f, g, s[1..]);
    }
  }

  /** `s.reduce((total, x) => total + f(x), 0)`. */
  function Sum<T>(f: T -> int, s: seq<T>): int
  {
    if s == [] then 0 else f(s[0]) + Sum(f, s[1..])
  }

  /** The sum of a concatenation is the sum of its parts. */
  lemma {:induction false} SumConcat<T>(f: T -> int, a: seq<T>, b: seq<T>)
    ensures Sum(f, a + b) == Sum(f, a) + Sum(f, b)
  {
    if a == [] {
      assert a + b == b;
    } else {
      assert (a + b)[0] == a[0];
      assert (a + b)[1..] == a[1..] + b;
      SumConcat(f, a[1..], b);
    }
  }

  /** A sum of non-negative terms is non-negative. */
  lemma {:induction false} SumNonNegative<T>(f: T -> int, s: seq<T>)
    requires forall x :: x in s ==> f(x) >= 0
    ensures Sum(f, s) >= 0
  {
    if s != [] {
      assert s[0] in s;
      forall x | x in s[1..] ensures f(x) >= 0 {
        assert x in s;
      }
      SumNonNegative(f, s[1..]);
    }
  }

  /** A non-empty sequence is its first element followed by the rest. */
  lemma SplitFirst<T>(s: seq<T>)
    requires s != []
    ensures s == [s[0]] + s[1..]
  {
  }

  /** A non-empty sequence is its prefix followed by its last element. */
  lemma SplitLast<T>(s: seq<T>)
    requires s != []
    ensures s == s[..|s| - 1] + [s[|s| - 1]]
  {
  }

  /** Concatenation regroups freely. */
  lemma AppendAssoc<T>(a: seq<T>, b: seq<T>, c: seq<T>)
    ensures a + b + c == a + (b + c)
  {
  }
}
