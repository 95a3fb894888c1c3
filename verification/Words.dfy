/** Machine words, 32 bits and unsigned, and division with remainder. */
module Words {
  const WORD: nat := 0x1_0000_0000

  type Word = w: int | 0 <= w < WORD

  lemma MulAtLeast(k: int, y: nat)
    requires k >= 1
    ensures k * y >= y
  {
    if k > 1 {
      MulAtLeast(k - 1, y);
      assert k * y == (k - 1) * y + y;
    }
  }

  lemma DivModUnique(y: nat, r: nat, c: nat)
    requires y >= 1 && c < y
    ensures (r * y + c) / y == r && (r * y + c) % y == c
  {
    var n := r * y + c;
    var q, m := n / y, n % y;
    assert n == q * y + m;
    QuotientUnique(y, q, m, r, c);
  }

  lemma QuotientUnique(y: nat, q: nat, m: nat, r: nat, c: nat)
    requires c < y && m < y && q * y + m == r * y + c
    ensures q == r && m == c
  {
    assert (q - r) * y == c - m;
    if q > r {
      MulAtLeast(q - r, y);
    } else if q < r {
      MulAtLeast(r - q, y);
    }
  }
}
