/** Facts about multiples, remainders and sequences that the solver does not find by itself. */
module Facts {
  lemma NotSmall(t: int, d: int)
    requires d > 0 && t != 0
    ensures t * d >= d || t * d <= -d
  {
  }

  /** A quotient and a remainder are unique. */
  lemma DivisionIs(x: int, d: int, q: int, r: int)
    requires 0 <= r < d && x == q * d + r
    ensures x / d == q && x % d == r
  {
    var t := x / d - q;
    assert t * d == r - x % d;
    if t != 0 {
      NotSmall(t, d);
      assert false;
    }
  }

  lemma MultipleLeq(a: int, b: int, d: int)
    requires a <= b && d >= 0
    ensures a * d <= b * d
  {
  }

  lemma Distribute(a: int, b: int, c: int)
    ensures a * c + b * c == (a + b) * c
    ensures c * a + c * b == c * (a + b)
  {
  }

  lemma Associate<T>(a: seq<T>, b: seq<T>, c: seq<T>)
    ensures (a + b) + c == a + (b + c)
  {
  }
}
