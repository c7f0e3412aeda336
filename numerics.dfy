/**
 * Arithmetic shared by the whole model.
 *
 * Every f64 of the monitor is a Dafny `real` (exact arithmetic). Two things
 * of f64 still matter to the behaviour and are kept here:
 *  - the square root, which the model leaves abstract: `sqrt` is some
 *    function that is non-negative, 0 at 0 and monotone, and nothing else
 *    is known about it;
 *  - what an f64 division by zero yields (an infinity or NaN) and how such a
 *    value compares, for the few divisions the source does not guard.
 */
module Numerics {

  /** The three facts about the square root that the model relies on. */
  ghost predicate IsSquareRoot(f: real -> real) {
    f(0.0) == 0.0 &&
    (forall x :: f(x) >= 0.0) &&
    (forall x, y :: 0.0 <= x <= y ==> f(x) <= f(y))
  }

  type SquareRoot = f: real -> real | IsSquareRoot(f)
    witness (x: real) => if x <= 0.0 then 0.0 else x

  /** Left without a value: the verifier knows only that it is a SquareRoot. */
  const sqrt: SquareRoot

  function Sqrt(x: real): (r: real)
    ensures r >= 0.0
    ensures x == 0.0 ==> r == 0.0
  {
    sqrt(x)
  }

  lemma SqrtMonotone(x: real, y: real)
    requires 0.0 <= x <= y
    ensures Sqrt(x) <= Sqrt(y)
  {
  }

  function Abs(x: real): real {
    if x < 0.0 then -x else x
  }

  /** f64::max on finite values. */
  function Max(a: real, b: real): real {
    if a >= b then a else b
  }

  /** f64::min on finite values. */
  function Min(a: real, b: real): real {
    if a <= b then a else b
  }

  /** The sum of a sequence, folded from the front as `iter().sum()` does. */
  function Sum(s: seq<real>): real {
    if s == [] then 0.0 else Sum(s[..|s| - 1]) + s[|s| - 1]
  }

  function Square(x: real): real {
    x * x
  }

  function SumSquares(s: seq<real>): real {
    if s == [] then 0.0 else SumSquares(s[..|s| - 1]) + Square(s[|s| - 1])
  }

  /** The squared distances of the values from `m`. */
  function Deviations(xs: seq<real>, m: real): (r: seq<real>)
    ensures |r| == |xs|
    ensures forall i :: 0 <= i < |xs| ==> r[i] == Square(xs[i] - m)
  {
    seq(|xs|, i requires 0 <= i < |xs| => Square(xs[i] - m))
  }

  lemma {:induction false} SumAppend(s: seq<real>, t: seq<real>)
    ensures Sum(s + t) == Sum(s) + Sum(t)
    ensures SumSquares(s + t) == SumSquares(s) + SumSquares(t)
  {
    if t == [] {
      assert s + t == s;
    } else {
      assert (s + t)[..|s + t| - 1] == s + t[..|t| - 1];
      SumAppend(s, t[..|t| - 1]);
    }
  }

  lemma SumCons(x: real, s: seq<real>)
    ensures Sum([x] + s) == x + Sum(s)
    ensures SumSquares([x] + s) == Square(x) + SumSquares(s)
  {
    SumAppend([x], s);
    assert Sum([x]) == x by { assert [x][..0] == []; }
    assert SumSquares([x]) == Square(x) by { assert [x][..0] == []; }
  }

  /** Every element at least `lo` puts the sum at least `lo * |s|`. */
  lemma {:induction false} SumLowerBound(s: seq<real>, lo: real)
    requires forall i :: 0 <= i < |s| ==> lo <= s[i]
    ensures lo * |s| as real <= Sum(s)
  {
    if s != [] {
      SumLowerBound(s[..|s| - 1], lo);
    }
  }

  lemma {:induction false} SumUpperBound(s: seq<real>, hi: real)
    requires forall i :: 0 <= i < |s| ==> s[i] <= hi
    ensures Sum(s) <= hi * |s| as real
  {
    if s != [] {
      SumUpperBound(s[..|s| - 1], hi);
    }
  }

  /** The value of an f64 that may be infinite or NaN (signed zero is ignored). */
  datatype Float = Finite(value: real) | PosInf | NegInf | NaN {

    /** `self > c` for a finite c: false for NaN. */
    predicate Greater(c: real) {
      match this
      case Finite(v) => v > c
      case PosInf => true
      case NegInf => false
      case NaN => false
    }

    /** `self < c` for a finite c: false for NaN. */
    predicate Less(c: real) {
      match this
      case Finite(v) => v < c
      case PosInf => false
      case NegInf => true
      case NaN => false
    }

    function Abs(): Float {
      match this
      case Finite(v) => Finite(if v < 0.0 then -v else v)
      case PosInf => PosInf
      case NegInf => PosInf
      case NaN => NaN
    }

    function Negate(): Float {
      match this
      case Finite(v) => Finite(-v)
      case PosInf => NegInf
      case NegInf => PosInf
      case NaN => NaN
    }

    /** `self * k` for a finite k (an infinity times zero is NaN). */
    function Scale(k: real): Float {
      match this
      case Finite(v) => Finite(v * k)
      case PosInf => if k > 0.0 then PosInf else if k < 0.0 then NegInf else NaN
      case NegInf => if k > 0.0 then NegInf else if k < 0.0 then PosInf else NaN
      case NaN => NaN
    }

    /** `self - c` for a finite c. */
    function Minus(c: real): Float {
      match this
      case Finite(v) => Finite(v - c)
      case _ => this
    }
  }

  /** The f64 quotient `a / b`: a division by zero gives an infinity, or NaN for 0 / 0. */
  function Div(a: real, b: real): (q: Float)
    ensures b != 0.0 ==> q == Finite(a / b)
    ensures b == 0.0 ==> (q.Greater(0.0) <==> a > 0.0) && (q.Less(0.0) <==> a < 0.0)
    ensures b == 0.0 && a == 0.0 ==> q == NaN
  {
    if b != 0.0 then Finite(a / b)
    else if a > 0.0 then PosInf
    else if a < 0.0 then NegInf
    else NaN
  }
}
