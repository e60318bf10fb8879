/** Real-number helpers shared by the stick conversion, the deadzone and
    the track mixing: magnitude, sign, maximum, and the facts about real
    division those computations rely on. */
module RealArith {

  function Abs(x: real): real { if x < 0.0 then -x else x }

  function Max(a: real, b: real): real { if a >= b then a else b }

  function Sign(x: real): real { if x > 0.0 then 1.0 else if x < 0.0 then -1.0 else 0.0 }

  /** The quotient by a positive number has the dividend's sign. */
  lemma QuotientSign(n: real, d: real)
    requires d != 0.0
    ensures d > 0.0 ==> (n / d > 0.0 <==> n > 0.0)
    ensures d > 0.0 ==> (n / d < 0.0 <==> n < 0.0)
  {
  }

  /** Dividing by a number at least as large in magnitude lands in
      `[-1, 1]`. */
  lemma QuotientBound(n: real, d: real)
    requires d != 0.0
    ensures d > 0.0 && Abs(n) <= d ==> Abs(n / d) <= 1.0
  {
  }

  /** Dividing by a number at least one never grows the magnitude. */
  lemma QuotientShrinks(n: real, d: real)
    requires d != 0.0
    ensures d >= 1.0 ==> Abs(n / d) <= Abs(n)
  {
  }

  /** Division by a positive number keeps order. */
  lemma QuotientMonotone(a: real, b: real, d: real)
    requires d > 0.0 && a <= b
    ensures a / d <= b / d
  {
  }

  /** A number divided by its own magnitude has magnitude one. */
  lemma QuotientUnit(n: real, d: real)
    requires d > 0.0 && Abs(n) == d
    ensures Abs(n / d) == 1.0
  {
    if n > 0.0 {
      assert n / d == d / d;
    } else {
      var m := -n;
      assert m == d && m / d == 1.0;
      assert n / d == -(m / d);
    }
  }
}
