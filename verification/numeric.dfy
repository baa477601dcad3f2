/** Real-valued arithmetic over sequences: absolute value, sums and means,
    the vocabulary the metrics are written in. Values are exact reals, so
    floating-point rounding, infinities and NaN never arise here; where the
    numeric library would produce a non-finite value the callers say so with
    an explicit `Option`. */
module Numeric {

  /** Absolute value (`np.abs` on one element). */
  function Abs(x: real): (r: real)
    ensures r >= 0.0
    ensures r == x || r == -x
  {
    if x < 0.0 then -x else x
  }

  /** The triangle inequality for `Abs`, in the form the sMAPE bound needs. */
  lemma AbsDifferenceBound(a: real, b: real)
    ensures Abs(a - b) <= Abs(a) + Abs(b)
  {
  }

  /** `x ** 2`. */
  function Square(d: real): (r: real)
  {
    d * d
  }

  /** A square is never negative, is positive away from zero and is zero at
      zero. */
  lemma SquareFacts(d: real)
    ensures Square(d) >= 0.0
    ensures d != 0.0 ==> Square(d) > 0.0
    ensures d == 0.0 ==> Square(d) == 0.0
  {
    if d > 0.0 {
      calc { Square(d); == d * d; > 0.0; }
    } else if d < 0.0 {
      calc { Square(d); == d * d; > 0.0; }
    } else {
      calc { Square(d); == d * d; == 0.0; }
    }
  }

  /** Squaring forgets the sign. */
  lemma SquareOfNegation(d: real)
    ensures Square(-d) == Square(d)
  {
    calc {
      Square(-d);
    ==
      (-d) * (-d);
    ==
      d * d;
    ==
      Square(d);
    }
  }

  /** Dividing by a positive number and multiplying back is the identity,
      and keeps the sign. */
  lemma QuotientFacts(m: real, s: real)
    requires s > 0.0
    ensures (m / s) * s == m
    ensures m >= 0.0 ==> m / s >= 0.0
  {
  }

  /** A non-negative quantity at most `c` times a positive divisor gives a
      quotient in `[0, c]`. */
  lemma QuotientAtMost(m: real, s: real, c: real)
    requires s > 0.0
    requires 0.0 <= m <= c * s
    ensures 0.0 <= m / s <= c
  {
    var q := m / s;
    assert q * s == m;
    if q > c {
      assert q * s > c * s;
    }
  }

  /** Sum of a sequence, first element first. */
  function Sum(xs: seq<real>): (s: real)
  {
    if |xs| == 0 then 0.0 else xs[0] + Sum(xs[1..])
  }

  /** Arithmetic mean of a non-empty sequence (`np.mean`). */
  function Mean(xs: seq<real>): (m: real)
    requires |xs| > 0
  {
    Sum(xs) / (|xs| as real)
  }

  ghost predicate AllNonNegative(xs: seq<real>)
  {
    forall i :: 0 <= i < |xs| ==> xs[i] >= 0.0
  }

  ghost predicate AllZero(xs: seq<real>)
  {
    forall i :: 0 <= i < |xs| ==> xs[i] == 0.0
  }

  ghost predicate AllAtMost(xs: seq<real>, c: real)
  {
    forall i :: 0 <= i < |xs| ==> xs[i] <= c
  }

  /** A sum of non-negative terms is non-negative, and it is zero exactly
      when every term is zero. */
  lemma {:induction false} SumOfNonNegatives(xs: seq<real>)
    requires AllNonNegative(xs)
    ensures Sum(xs) >= 0.0
    ensures Sum(xs) == 0.0 <==> AllZero(xs)
  {
    if |xs| > 0 {
      assert AllNonNegative(xs[1..]) by {
        forall i | 0 <= i < |xs[1..]| ensures xs[1..][i] >= 0.0 {
          assert xs[1..][i] == xs[i + 1];
        }
      }
      SumOfNonNegatives(xs[1..]);
      if AllZero(xs) {
        assert AllZero(xs[1..]) by {
          forall i | 0 <= i < |xs[1..]| ensures xs[1..][i] == 0.0 {
            assert xs[1..][i] == xs[i + 1];
          }
        }
      }
      if Sum(xs) == 0.0 {
        assert xs[0] == 0.0 && Sum(xs[1..]) == 0.0;
        forall i | 0 <= i < |xs| ensures xs[i] == 0.0 {
          if i > 0 {
            assert xs[i] == xs[1..][i - 1];
          }
        }
      }
    }
  }

  /** A sum of terms each at most `c` is at most `c` times their number. */
  lemma {:induction false} SumOfBounded(xs: seq<real>, c: real)
    requires AllAtMost(xs, c)
    ensures Sum(xs) <= c * (|xs| as real)
  {
    if |xs| > 0 {
      assert AllAtMost(xs[1..], c) by {
        forall i | 0 <= i < |xs[1..]| ensures xs[1..][i] <= c {
          assert xs[1..][i] == xs[i + 1];
        }
      }
      SumOfBounded(xs[1..], c);
      assert c * (|xs| as real) == c + c * (|xs[1..]| as real);
    }
  }

  /** The mean of non-negative terms is non-negative and is zero exactly when
      every term is zero. */
  lemma MeanOfNonNegatives(xs: seq<real>)
    requires |xs| > 0
    requires AllNonNegative(xs)
    ensures Mean(xs) >= 0.0
    ensures Mean(xs) == 0.0 <==> AllZero(xs)
  {
    SumOfNonNegatives(xs);
  }

  /** The mean of terms in `[0, c]` lies in `[0, c]`. */
  lemma MeanOfBounded(xs: seq<real>, c: real)
    requires |xs| > 0
    requires AllNonNegative(xs) && AllAtMost(xs, c)
    ensures 0.0 <= Mean(xs) <= c
  {
    SumOfNonNegatives(xs);
    SumOfBounded(xs, c);
    var n := |xs| as real;
    assert Mean(xs) * n == Sum(xs);
  }
}
