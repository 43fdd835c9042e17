/**
 * The four-field calories/protein/carbs/fat record shared by targets, running totals,
 * meal totals and the remaining gap, and the `reduce` that sums it over a list.
 */
module Nutrition {

  datatype Macros = Macros(calories: real, protein: real, carbs: real, fat: real)

  /** The fold's start value `{ calories: 0, protein: 0, carbs: 0, fat: 0 }`. */
  const Zero := Macros(0.0, 0.0, 0.0, 0.0)

  /** Field-wise addition, the body of each `reduce` callback. */
  function Add(a: Macros, b: Macros): Macros {
    Macros(a.calories + b.calories, a.protein + b.protein, a.carbs + b.carbs, a.fat + b.fat)
  }

  /** Every field is at least zero. */
  predicate NonNegative(m: Macros) {
    m.calories >= 0.0 && m.protein >= 0.0 && m.carbs >= 0.0 && m.fat >= 0.0
  }

  /**
   * `s.reduce((total, x) => add(total, f(x)), Zero)`: a left fold, so the last element
   * is added last.
   */
  function Sum<T>(s: seq<T>, f: T -> Macros): Macros {
    if |s| == 0 then Zero else Add(Sum(s[..|s| - 1], f), f(s[|s| - 1]))
  }

  /** Summing a concatenation adds the sums of its parts. */
  lemma {:induction false} SumAppend<T>(a: seq<T>, b: seq<T>, f: T -> Macros)
    ensures Sum(a + b, f) == Add(Sum(a, f), Sum(b, f))
  {
    if |b| == 0 {
      assert a + b == a;
    } else {
      var b' := b[..|b| - 1];
      SumAppend(a, b', f);
      assert (a + b)[..|a + b| - 1] == a + b';
    }
  }

  /** A sum of non-negative records is non-negative. */
  lemma {:induction false} SumNonNegative<T>(s: seq<T>, f: T -> Macros)
    requires forall i :: 0 <= i < |s| ==> NonNegative(f(s[i]))
    ensures NonNegative(Sum(s, f))
  {
    if |s| > 0 {
      SumNonNegative(s[..|s| - 1], f);
    }
  }

  /** Moving one element to the end of the list leaves the sum unchanged. */
  lemma SumMoveToEnd<T>(before: seq<T>, x: T, after: seq<T>, f: T -> Macros)
    ensures Sum(before + [x] + after, f) == Add(Sum(before + after, f), f(x))
  {
    SumAppend(before + [x], after, f);
    SumAppend(before, [x], f);
    SumAppend(before, after, f);
    SumSingleton(x, f);
    AddSwap(Sum(before, f), f(x), Sum(after, f));
  }

  /** The sum of one element is that element's record. */
  lemma SumSingleton<T>(x: T, f: T -> Macros)
    ensures Sum([x], f) == f(x)
  {
    assert [x][..0] == [];
  }

  /** Adding `b` and then `c` is adding `c` and then `b`. */
  lemma AddSwap(a: Macros, b: Macros, c: Macros)
    ensures Add(Add(a, b), c) == Add(Add(a, c), b)
  {
  }

  /**
   * The `reduce` callback is commutative and associative with the start value as its unit,
   * so a running total does not depend on how the additions are grouped or ordered.
   */
  lemma AddLaws(a: Macros, b: Macros, c: Macros)
    ensures Add(a, b) == Add(b, a)
    ensures Add(Add(a, b), c) == Add(a, Add(b, c))
    ensures Add(Zero, a) == a && Add(a, Zero) == a
  {
  }

  /** The sum does not depend on the order of the list. */
  lemma {:induction false} SumPermutation<T>(a: seq<T>, b: seq<T>, f: T -> Macros)
    requires multiset(a) == multiset(b)
    ensures Sum(a, f) == Sum(b, f)
    decreases |a|
  {
    if |a| > 0 {
      var n := |a| - 1;
      var x := a[n];
      assert x in multiset(b);
      var j :| 0 <= j < |b| && b[j] == x;
      var b' := b[..j] + b[j + 1..];
      assert a == a[..n] + [x];
      assert b == b[..j] + [x] + b[j + 1..];
      calc {
        multiset(a[..n]);
        multiset(a) - multiset{x};
        multiset(b) - multiset{x};
        { assert multiset(b) == multiset(b[..j]) + multiset{x} + multiset(b[j + 1..]); }
        multiset(b');
      }
      SumPermutation(a[..n], b', f);
      SumMoveToEnd(b[..j], x, b[j + 1..], f);
    } else {
      assert |b| == |multiset(b)| == 0;
    }
  }
}
