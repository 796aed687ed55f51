/** Facts about multiplication, division and remainder that the solver does not find by itself. */
module Arithmetic {

  lemma MulMono(d: int, a: int, b: int)
    ensures d > 0 && a <= b ==> d * a <= d * b
  {
    if d > 0 && a <= b {
      assert d * (b - a) >= 0;
    }
  }

  lemma MulNext(d: int, q: int)
    ensures d * (q + 1) == d * q + d
  {
  }

  lemma Division(x: int, d: int)
    requires d > 0
    ensures d * (x / d) <= x < d * (x / d + 1)
    ensures x == d * (x / d) + x % d
  {
    MulNext(d, x / d);
  }

  lemma DivAtLeast(x: int, d: int, q: int)
    requires d > 0 && d * q <= x
    ensures q <= x / d
  {
    Division(x, d);
    MulMono(d, x / d + 1, q);
  }

  lemma DivBelow(x: int, d: int, q: int)
    requires d > 0 && x < d * q
    ensures x / d < q
  {
    Division(x, d);
    MulMono(d, q, x / d);
  }

  lemma ModUnique(x: int, d: int, q: int, r: int)
    requires d > 0 && 0 <= r < d && x == d * q + r
    ensures x / d == q && x % d == r
  {
    MulNext(d, q);
    DivAtLeast(x, d, q);
    DivBelow(x, d, q + 1);
    Division(x, d);
  }
}
