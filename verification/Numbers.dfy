/** The number helpers the packages share: larger, smaller, clamped, and powers of two. */
module Numbers {

  function MaxInt(a: int, b: int): int {
    if b > a then b else a
  }

  function MinInt(a: int, b: int): int {
    if b < a then b else a
  }

  function MaxReal(a: real, b: real): real {
    if b > a then b else a
  }

  function MinReal(a: real, b: real): real {
    if b < a then b else a
  }

  function Clamp01(v: real): real {
    if v < 0.0 then 0.0 else if v > 1.0 then 1.0 else v
  }

  function Pow2(k: nat): (p: nat)
    ensures p >= 1
  {
    if k == 0 then 1 else 2 * Pow2(k - 1)
  }

  lemma {:induction false} Pow2Monotone(j: nat, k: nat)
    requires j <= k
    ensures Pow2(j) <= Pow2(k)
    decreases k
  {
    if j < k { Pow2Monotone(j, k - 1); }
  }

  lemma Pow2Values()
    ensures Pow2(8) == 256 && Pow2(16) == 65536 && Pow2(17) == 131072 && Pow2(30) == 0x4000_0000
            && Pow2(32) == 0x1_0000_0000
  {
    assert Pow2(4) == 16;
    assert Pow2(12) == 4096;
    assert Pow2(20) == 0x10_0000;
    assert Pow2(24) == 0x100_0000;
    assert Pow2(28) == 0x1000_0000;
  }
}
