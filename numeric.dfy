/** Sums, means and extremes over a column of WPM values, as pandas computes them on floats
    (here over exact reals). */
module Numeric {

  /** Sum of a column, from the front. */
  function Sum(s: seq<real>): real
  {
    if |s| == 0 then 0.0 else s[0] + Sum(s[1..])
  }

  /** Arithmetic mean of a non-empty column. */
  function Mean(s: seq<real>): real
    requires |s| > 0
  {
    Sum(s) / (|s| as real)
  }

  /** Largest value of a non-empty column. */
  function Max(s: seq<real>): (m: real)
    requires |s| > 0
    ensures m in s
    ensures forall x :: x in s ==> x <= m
  {
    if |s| == 1 then s[0]
    else
      var rest := Max(s[1..]);
      assert forall x :: x in s ==> x == s[0] || x in s[1..];
      if s[0] >= rest then s[0] else rest
  }

  /** Smallest value of a non-empty column. */
  function Min(s: seq<real>): (m: real)
    requires |s| > 0
    ensures m in s
    ensures forall x :: x in s ==> m <= x
  {
    if |s| == 1 then s[0]
    else
      var rest := Min(s[1..]);
      assert forall x :: x in s ==> x == s[0] || x in s[1..];
      if s[0] <= rest then s[0] else rest
  }

  /** A lower bound on every element bounds the sum from below by the length times it. */
  lemma {:induction false} SumAtLeast(s: seq<real>, lo: real)
    requires forall x :: x in s ==> lo <= x
    ensures (|s| as real) * lo <= Sum(s)
  {
    if |s| > 0 {
      assert forall x :: x in s[1..] ==> x in s;
      SumAtLeast(s[1..], lo);
      assert s[0] in s;
      MulSucc(|s| as real, |s[1..]| as real, lo);
    }
  }

  /** An upper bound on every element bounds the sum from above by the length times it. */
  lemma {:induction false} SumAtMost(s: seq<real>, hi: real)
    requires forall x :: x in s ==> x <= hi
    ensures Sum(s) <= (|s| as real) * hi
  {
    if |s| > 0 {
      assert forall x :: x in s[1..] ==> x in s;
      SumAtMost(s[1..], hi);
      assert s[0] in s;
      MulSucc(|s| as real, |s[1..]| as real, hi);
    }
  }

  /** One more element adds one more copy of the bound: (m + 1) * x == m * x + x. */
  lemma MulSucc(n: real, m: real, x: real)
    requires n == m + 1.0
    ensures n * x == m * x + x
  {
  }

  /** The mean lies between any lower and upper bound of the column. */
  lemma MeanBounds(s: seq<real>, lo: real, hi: real)
    requires |s| > 0
    requires forall x :: x in s ==> lo <= x <= hi
    ensures lo <= Mean(s) <= hi
  {
    SumAtLeast(s, lo);
    SumAtMost(s, hi);
    var n := |s| as real;
    assert n * lo <= Sum(s) <= n * hi;
    assert Mean(s) * n == Sum(s);
  }

  /** The mean lies between the column's minimum and maximum. */
  lemma MeanBetweenExtremes(s: seq<real>)
    requires |s| > 0
    ensures Min(s) <= Mean(s) <= Max(s)
  {
    MeanBounds(s, Min(s), Max(s));
  }

  /** The sum of a constant column is its length times the constant. */
  lemma {:induction false} SumConstant(s: seq<real>, c: real)
    requires forall x :: x in s ==> x == c
    ensures Sum(s) == (|s| as real) * c
  {
    if |s| > 0 {
      assert forall x :: x in s[1..] ==> x in s;
      SumConstant(s[1..], c);
      assert s[0] in s && Sum(s) == s[0] + Sum(s[1..]);
      assert (|s| as real) * c == c + (|s[1..]| as real) * c;
    }
  }

  /** The mean of a constant column is that constant. */
  lemma MeanConstant(s: seq<real>, c: real)
    requires |s| > 0
    requires forall x :: x in s ==> x == c
    ensures Mean(s) == c
  {
    SumConstant(s, c);
  }

  /** Columns holding the same values have the same extremes. */
  lemma ExtremesOfSameValues(a: seq<real>, b: seq<real>)
    requires |a| > 0 && |b| > 0
    requires forall x :: x in a ==> x in b
    requires forall x :: x in b ==> x in a
    ensures Max(a) == Max(b) && Min(a) == Min(b)
  {
    assert Max(a) in b && Max(b) in a;
    assert Min(a) in b && Min(b) in a;
  }

  /** Summing a concatenation sums the parts. */
  lemma {:induction false} SumAppend(a: seq<real>, b: seq<real>)
    ensures Sum(a + b) == Sum(a) + Sum(b)
  {
    if |a| > 0 {
      assert (a + b)[1..] == a[1..] + b;
      SumAppend(a[1..], b);
    } else {
      assert a + b == b;
    }
  }

  /** x lies between a and b, whichever of the two is larger. */
  predicate Between(x: real, a: real, b: real)
  {
    (a <= x <= b) || (b <= x <= a)
  }

  /** The product of two non-negative reals is non-negative. */
  lemma MulNonnegative(x: real, y: real)
    requires x >= 0.0 && y >= 0.0
    ensures x * y >= 0.0
  {
  }

  /** The point at `offset` on the straight line that has value a at 0 and b at width:
      numpy's `interp` between two neighbouring known points, positions being whole steps. */
  function LinePoint(a: real, b: real, width: int, offset: int): real
    requires width != 0
  {
    a + (b - a) / (width as real) * (offset as real)
  }

  /** The line passes through its two known points. */
  lemma LinePointEnds(a: real, b: real, width: int)
    requires width != 0
    ensures LinePoint(a, b, width, 0) == a
    ensures LinePoint(a, b, width, width) == b
  {
    var w := width as real;
    assert (b - a) / w * w == b - a;
  }

  /** When the far end lies a whole number of equal steps away, each offset adds one step. */
  lemma LinePointEvenSteps(a: real, step: real, width: int, offset: int)
    requires width != 0
    ensures LinePoint(a, a + step * (width as real), width, offset) == a + step * (offset as real)
  {
    var w := width as real;
    assert (a + step * w - a) / w == step;
  }

  /** A point strictly inside the segment has a value between a and b. */
  lemma LinearStepBetween(a: real, b: real, width: int, offset: int)
    requires 0 < offset < width
    ensures Between(LinePoint(a, b, width, offset), a, b)
  {
    var w, o := width as real, offset as real;
    var slope := (b - a) / w;
    assert slope * w == b - a;
    assert slope * w - slope * o == slope * (w - o);
    if a <= b {
      MulNonnegative(slope, o);
      MulNonnegative(slope, w - o);
    } else {
      MulNonnegative(-slope, o);
      MulNonnegative(-slope, w - o);
    }
  }
}
