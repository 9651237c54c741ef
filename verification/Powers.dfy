/** Powers of two, for the two exponential backoffs. */
module Powers {

  function Pow2(n: nat): (r: int)
    ensures r >= 1
  {
    if n == 0 then 1 else 2 * Pow2(n - 1)
  }

  lemma {:induction false} Pow2Grows(m: nat, n: nat)
    requires m <= n
    ensures Pow2(m) <= Pow2(n)
  {
    if m < n { Pow2Grows(m, n - 1); }
  }

  lemma ScaleGrows(base: int, p: int, q: int)
    requires 1 <= base && 1 <= p <= q
    ensures base <= base * p <= base * q
  {
    assert base * q - base * p == base * (q - p);
    assert base * p - base == base * (p - 1);
  }

  lemma ScaleDoubles(base: int, n: nat)
    ensures base * Pow2(n + 1) == 2 * (base * Pow2(n))
  {
    assert Pow2(n + 1) == 2 * Pow2(n);
    assert base * (2 * Pow2(n)) == 2 * (base * Pow2(n));
  }
}
