/** Forecast cells. A forecast column may contain numbers or NaN (pandas
    marks positions that `shift` moved past the start of the series with
    NaN); the actual values of a cleaned series never do. */
module Cells {

  datatype Value = Num(x: real) | NaN

  ghost predicate AllNumbers(vs: seq<Value>)
  {
    forall i :: 0 <= i < |vs| ==> vs[i].Num?
  }

  /** A column of plain numbers as forecast cells. */
  function Lift(xs: seq<real>): (vs: seq<Value>)
    ensures |vs| == |xs|
    ensures AllNumbers(vs)
  {
    seq(|xs|, i requires 0 <= i < |xs| => Num(xs[i]))
  }

  /** The numbers of a column that holds no NaN. */
  function Numbers(vs: seq<Value>): (xs: seq<real>)
    requires AllNumbers(vs)
    ensures |xs| == |vs|
  {
    seq(|vs|, i requires 0 <= i < |vs| => vs[i].x)
  }

  /** Reading back a lifted column gives the original numbers. */
  lemma NumbersOfLift(xs: seq<real>)
    ensures Numbers(Lift(xs)) == xs
  {
  }

  /** A column without NaN is the lift of its numbers. */
  lemma LiftOfNumbers(vs: seq<Value>)
    requires AllNumbers(vs)
    ensures Lift(Numbers(vs)) == vs
  {
  }
}
