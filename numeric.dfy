/** Reductions over flat tensors, with tensor elements idealised as reals:
    torch.sum / torch.mean / torch.min / torch.max on a one-dimensional tensor. */
module Numeric {
  /** The sum of the terms, accumulated left to right as Python's `sum` does; over reals the
      order is immaterial. */
  function Sum(s: seq<real>): real
  {
    if |s| == 0 then 0.0 else Sum(s[..|s| - 1]) + s[|s| - 1]
  }

  /** `torch.mean` of a non-empty tensor (the mean of an empty tensor is NaN). */
  function Mean(s: seq<real>): real
    requires |s| > 0
  {
    Sum(s) / |s| as real
  }

  /** `torch.min` of a non-empty tensor. */
  function Minimum(s: seq<real>): (m: real)
    requires |s| > 0
    ensures m in s
    ensures forall i | 0 <= i < |s| :: m <= s[i]
  {
    if |s| == 1 then s[0]
    else
      var m' := Minimum(s[..|s| - 1]);
      if s[|s| - 1] < m' then s[|s| - 1] else m'
  }

  /** `torch.max` of a non-empty tensor. */
  function Maximum(s: seq<real>): (m: real)
    requires |s| > 0
    ensures m in s
    ensures forall i | 0 <= i < |s| :: s[i] <= m
  {
    if |s| == 1 then s[0]
    else
      var m' := Maximum(s[..|s| - 1]);
      if m' < s[|s| - 1] then s[|s| - 1] else m'
  }

  lemma {:induction false} SumNonnegative(s: seq<real>)
    requires forall i | 0 <= i < |s| :: 0.0 <= s[i]
    ensures 0.0 <= Sum(s)
  {
    if |s| > 0 {
      SumNonnegative(s[..|s| - 1]);
    }
  }

  /** A sum of non-negative terms vanishes exactly when every term does. */
  lemma {:induction false} SumZeroIff(s: seq<real>)
    requires forall i | 0 <= i < |s| :: 0.0 <= s[i]
    ensures Sum(s) == 0.0 <==> forall i | 0 <= i < |s| :: s[i] == 0.0
  {
    if |s| > 0 {
      var p := s[..|s| - 1];
      SumZeroIff(p);
      SumNonnegative(p);
      assert forall i | 0 <= i < |p| :: p[i] == s[i];
    }
  }

  /** Scaling every term scales the sum. */
  lemma {:induction false} SumScaled(s: seq<real>, t: seq<real>, c: real)
    requires |t| == |s|
    requires forall i | 0 <= i < |s| :: t[i] == c * s[i]
    ensures Sum(t) == c * Sum(s)
  {
    if |s| > 0 {
      SumScaled(s[..|s| - 1], t[..|t| - 1], c);
    }
  }

  /** Replacing one term changes the sum by exactly the difference. */
  lemma {:induction false} SumUpdate(s: seq<real>, j: nat, x: real)
    requires j < |s|
    ensures Sum(s[j := x]) == Sum(s) - s[j] + x
  {
    var n := |s| - 1;
    if j == n {
      assert s[j := x][..n] == s[..n];
    } else {
      SumUpdate(s[..n], j, x);
      assert s[j := x][..n] == s[..n][j := x];
    }
  }

  // ---------------------------------------------------------------- products

  /** Real multiplication, named so that its sign facts below are stated once and applied
      by call: the solver's nonlinear reasoning is not relied upon anywhere else. */
  function Mul(a: real, b: real): real
  {
    a * b
  }

  lemma MulPositive(a: real, b: real)
    requires 0.0 < a && 0.0 < b
    ensures 0.0 < Mul(a, b)
  {
  }

  lemma MulOfNegatives(a: real, b: real)
    requires a < 0.0 && b < 0.0
    ensures 0.0 < Mul(a, b)
  {
  }

  lemma MulNonnegative(a: real, b: real)
    requires 0.0 <= a && 0.0 <= b
    ensures 0.0 <= Mul(a, b)
  {
  }

  lemma MulNonpositive(a: real, b: real)
    requires 0.0 <= a && b <= 0.0
    ensures Mul(a, b) <= 0.0
  {
  }

  /** A non-negative factor keeps the sign of what it multiplies. */
  lemma MulSigns()
    ensures forall a: real, b: real | 0.0 <= a :: (b <= 0.0 ==> Mul(a, b) <= 0.0) && (0.0 <= b ==> 0.0 <= Mul(a, b))
  {
    forall a: real, b: real | 0.0 <= a
      ensures (b <= 0.0 ==> Mul(a, b) <= 0.0) && (0.0 <= b ==> 0.0 <= Mul(a, b))
    {
      if b <= 0.0 {
        MulNonpositive(a, b);
      }
      if 0.0 <= b {
        MulNonnegative(a, b);
      }
    }
  }

  /** Multiplying by a positive factor preserves strict order. */
  lemma MulStrictlyMonotone(a: real, b: real, c: real)
    requires 0.0 < c && a < b
    ensures Mul(a, c) < Mul(b, c)
  {
    MulPositive(b - a, c);
  }

  lemma SquareNonnegative(d: real)
    ensures 0.0 <= Mul(d, d)
  {
    if d < 0.0 {
      MulOfNegatives(d, d);
    } else {
      MulNonnegative(d, d);
    }
  }

  /** Scaling by a positive factor preserves strict order. */
  lemma ScaleStrictlyMonotone(c: real, a: real, b: real)
    requires 0.0 < c && a < b
    ensures Mul(c, a) < Mul(c, b)
  {
    MulPositive(c, b - a);
  }

  /** A square vanishes exactly when its base does. */
  lemma SquareZeroIff(d: real)
    ensures Mul(d, d) == 0.0 <==> d == 0.0
  {
    if 0.0 < d {
      MulPositive(d, d);
    } else if d < 0.0 {
      MulOfNegatives(d, d);
    }
  }

  /** A positively weighted square vanishes exactly when its base does. */
  lemma ScaledSquareZeroIff(c: real, d: real)
    requires 0.0 < c
    ensures Mul(c, Mul(d, d)) == 0.0 <==> d == 0.0
  {
    SquareZeroIff(d);
    if d != 0.0 {
      SquareNonnegative(d);
      MulPositive(c, Mul(d, d));
    }
  }

  /** Dividing by a positive count preserves strict order, so a larger sum has a larger mean. */
  lemma MeanStrictlyMonotone(s: seq<real>, t: seq<real>)
    requires |s| == |t| > 0 && Sum(s) < Sum(t)
    ensures Mean(s) < Mean(t)
  {
    var n := |s| as real;
    assert Mean(t) - Mean(s) == (Sum(t) - Sum(s)) / n;
    QuotientPositive(Sum(t) - Sum(s), n);
  }

  /** A positive quotient of positives. */
  lemma QuotientPositive(a: real, n: real)
    requires 0.0 < a && 0.0 < n
    ensures 0.0 < a / n
  {
    assert Mul(n, a / n) == a;
    if a / n <= 0.0 {
      MulNonpositive(n, a / n);
    }
  }

  // ---------------------------------------------------------------- bounds on means

  /** Every term at least `m` makes the sum at least `|s| * m`. */
  lemma {:induction false} SumLowerBound(s: seq<real>, m: real)
    requires forall i | 0 <= i < |s| :: m <= s[i]
    ensures Mul(|s| as real, m) <= Sum(s)
  {
    if |s| > 0 {
      SumLowerBound(s[..|s| - 1], m);
    }
  }

  /** Every term at most `m` makes the sum at most `|s| * m`. */
  lemma {:induction false} SumUpperBound(s: seq<real>, m: real)
    requires forall i | 0 <= i < |s| :: s[i] <= m
    ensures Sum(s) <= Mul(|s| as real, m)
  {
    if |s| > 0 {
      SumUpperBound(s[..|s| - 1], m);
    }
  }

  lemma QuotientLowerBound(a: real, n: real, m: real)
    requires 0.0 < n && Mul(n, m) <= a
    ensures m <= a / n
  {
    assert Mul(n, a / n) == a;
  }

  lemma QuotientUpperBound(a: real, n: real, m: real)
    requires 0.0 < n && a <= Mul(n, m)
    ensures a / n <= m
  {
    assert Mul(n, a / n) == a;
  }

  /** A mean lies between the smallest and the largest term. */
  lemma MeanBetweenExtremes(s: seq<real>)
    requires |s| > 0
    ensures Minimum(s) <= Mean(s) <= Maximum(s)
  {
    SumLowerBound(s, Minimum(s));
    SumUpperBound(s, Maximum(s));
    QuotientLowerBound(Sum(s), |s| as real, Minimum(s));
    QuotientUpperBound(Sum(s), |s| as real, Maximum(s));
  }

  /** The mean of copies of one value is that value. */
  lemma MeanOfConstant(s: seq<real>, c: real)
    requires |s| > 0
    requires forall i | 0 <= i < |s| :: s[i] == c
    ensures Mean(s) == c
  {
    SumLowerBound(s, c);
    SumUpperBound(s, c);
    QuotientLowerBound(Sum(s), |s| as real, c);
    QuotientUpperBound(Sum(s), |s| as real, c);
  }
}
