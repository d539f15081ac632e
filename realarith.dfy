/** Facts about division of reals that the solver does not find unaided. */
module RealArith {
  lemma DivBounds(a: real, b: real)
    requires b > 0.0
    ensures a <= b ==> a / b <= 1.0
    ensures 0.0 <= a ==> 0.0 <= a / b
    ensures a / b == 1.0 <==> a == b
    ensures a == 0.0 ==> a / b == 0.0
  {
    var x := a / b;
    assert x * b == a;
    if a <= b { assert (1.0 - x) * b == b - a; }
    if 0.0 <= a { assert x * b >= 0.0; }
    if x == 1.0 { assert a == 1.0 * b; }
    if a == b { assert b / b == 1.0; }
  }

  lemma DivMonotone(a1: real, a2: real, b: real)
    requires b > 0.0
    ensures a1 <= a2 <==> a1 / b <= a2 / b
  {
    assert (a2 / b - a1 / b) * b == a2 - a1;
  }
}
