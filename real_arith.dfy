/**
 * Small facts about real arithmetic shared by the drive and constraint
 * models. Multiplication facts take plain variables so that the solver does
 * not have to rediscover them under larger terms.
 */
module RealArith {

  function Abs(x: real): real {
    if x < 0.0 then -x else x
  }

  lemma MulNonNeg(a: real, c: real)
    requires a >= 0.0 && c >= 0.0
    ensures a * c >= 0.0
  {
  }

  lemma MulLeRight(a: real, b: real, c: real)
    requires a <= b && c >= 0.0
    ensures a * c <= b * c
  {
    assert b * c - a * c == (b - a) * c;
  }

  lemma MulLtRight(a: real, b: real, c: real)
    requires a < b && c > 0.0
    ensures a * c < b * c
  {
    assert b * c - a * c == (b - a) * c;
  }
}
