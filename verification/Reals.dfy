/** Arithmetic on reals shared by every module: absolute value, extrema and finite sums. */
module Reals {

  datatype Option<+T> = None | Some(value: T)

  datatype Result<+T, +E> = Ok(value: T) | Err(error: E)

  function Abs(x: real): real {
    if x < 0.0 then -x else x
  }

  function Max(x: real, y: real): real {
    if x >= y then x else y
  }

  function Min(x: real, y: real): real {
    if x <= y then x else y
  }

  function Sum(xs: seq<real>): real {
    if xs == [] then 0.0 else Sum(xs[..|xs| - 1]) + xs[|xs| - 1]
  }

  /** A product under a name, so that a proof can take it as a unit. */
  function Times(x: real, y: real): real {
    x * y
  }

  /** Arithmetic mean; zero for no values. */
  function Mean(xs: seq<real>): real {
    if xs == [] then 0.0 else Sum(xs) / |xs| as real
  }

  lemma SumAppend(xs: seq<real>, x: real)
    ensures Sum(xs + [x]) == Sum(xs) + x
  {}

  lemma SumPrefix(xs: seq<real>, i: nat)
    requires i < |xs|
    ensures Sum(xs[..i + 1]) == Sum(xs[..i]) + xs[i]
  {
    assert xs[..i + 1][..i] == xs[..i];
  }

  lemma SumOfOne(xs: seq<real>, x: real)
    requires xs == [x]
    ensures Sum(xs) == x
  {}

  lemma SumOfTwo(xs: seq<real>, x: real, y: real)
    requires xs == [x, y]
    ensures Sum(xs) == x + y
  {
    assert xs[..1] == [x];
    SumOfOne([x], x);
  }

  lemma {:induction false} SumConcat(xs: seq<real>, ys: seq<real>)
    ensures Sum(xs + ys) == Sum(xs) + Sum(ys)
  {
    if ys == [] {
      assert xs + ys == xs;
    } else {
      assert (xs + ys)[..|xs + ys| - 1] == xs + ys[..|ys| - 1];
      SumConcat(xs, ys[..|ys| - 1]);
    }
  }

  lemma {:induction false} SumUpdate(xs: seq<real>, i: nat, x: real)
    requires i < |xs|
    ensures Sum(xs[i := x]) == Sum(xs) - xs[i] + x
  {
    var n := |xs| - 1;
    if i == n {
      assert xs[i := x][..n] == xs[..n];
    } else {
      assert xs[i := x][..n] == xs[..n][i := x];
      SumUpdate(xs[..n], i, x);
    }
  }

  lemma SameElementsSameLength(xs: seq<real>, ys: seq<real>)
    requires multiset(xs) == multiset(ys)
    ensures |xs| == |ys|
  {
    assert |multiset(xs)| == |xs| && |multiset(ys)| == |ys|;
  }

  /** `root` behaves as the square root on the non-negative reals; on the others it is unconstrained. */
  ghost predicate IsRoot(root: real -> real) {
    forall x: real :: x >= 0.0 ==> root(x) >= 0.0 && root(x) * root(x) == x
  }

  lemma RootIsPositive(root: real -> real, x: real)
    requires IsRoot(root) && x > 0.0
    ensures root(x) > 0.0 && root(x) * root(x) == x
  {}

  lemma ProductOfNonNegatives(x: real, y: real)
    requires x >= 0.0 && y >= 0.0
    ensures x * y >= 0.0
  {}

  lemma ScaleKeepsOrder(k: real, x: real, y: real)
    requires k >= 0.0 && x <= y
    ensures k * x <= k * y
  {}

  /** Substitution inside a product, which the solver does not always do by itself. */
  lemma SameProduct(x: real, x': real, y: real, y': real)
    requires x == x' && y == y'
    ensures x * y == x' * y'
  {}

  lemma QuotientTimesDivisor(x: real, y: real)
    requires y != 0.0
    ensures x / y * y == x
  {}

  lemma ProductOfPositives(x: real, y: real)
    requires x > 0.0 && y > 0.0
    ensures x * y > 0.0
  {}

  lemma TimesIsPositive(x: real, y: real)
    requires x > 0.0 && y > 0.0
    ensures Times(x, y) > 0.0
  {}

  lemma TimesZero(x: real, y: real)
    requires x == 0.0 || y == 0.0
    ensures Times(x, y) == 0.0
  {}

  lemma TimesKeepsOrder(k: real, x: real, y: real)
    requires k >= 0.0
    ensures x <= y ==> Times(k, x) <= Times(k, y)
    ensures x < y && k > 0.0 ==> Times(k, x) < Times(k, y)
    ensures Times(x, k) == Times(k, x) && Times(y, k) == Times(k, y)
  {}

  lemma CancelFactor(k: real, x: real, y: real)
    requires k > 0.0 && k * x <= k * y
    ensures x <= y
  {}

  lemma CancelStrictly(k: real, x: real, y: real)
    requires k > 0.0 && k * x < k * y
    ensures x < y
  {}

  lemma QuotientInUnit(x: real, y: real)
    requires y > 0.0 && 0.0 <= x <= y
    ensures 0.0 <= x / y <= 1.0 && x / y * y == x
  {}

  lemma NonNegativeQuotient(x: real, y: real)
    requires x >= 0.0 && y > 0.0
    ensures x / y >= 0.0
  {}

  /** Squares order non-negative numbers. */
  lemma SquareOrder(x: real, y: real)
    requires y >= 0.0
    requires x * x <= y * y
    ensures -y <= x <= y
  {
    if x > y {
      ProductOfPositives(x - y, x + y);
    } else if x < -y {
      ProductOfPositives(-x - y, y - x);
    }
  }
}
