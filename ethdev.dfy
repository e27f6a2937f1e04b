/**
 * Descriptor-ring sizing helpers of the Ethernet bring-up code
 * (DaaS/PoCPhase3/tm10/tmEthdev.c:28-77): both are if-chains over a 16-bit
 * size that return a power of two no larger than 32768.
 */
module Ethdev {
  import opened TmDefs

  const POW2_LIMIT: nat := 32768

  /** n is 2^k for some k. */
  predicate IsPowerOfTwo(n: nat)
    decreases n
  {
    n == 1 || (n >= 2 && n % 2 == 0 && IsPowerOfTwo(n / 2))
  }

  /** Two distinct powers of two are at least a factor of two apart. */
  lemma {:induction false} PowerGap(p: nat, q: nat)
    requires IsPowerOfTwo(p) && IsPowerOfTwo(q) && p < q
    ensures 2 * p <= q
    decreases p
  {
    if p != 1 {
      PowerGap(p / 2, q / 2);
    }
  }

  /** The sixteen powers of two a 16-bit size can be rounded to. */
  lemma {:induction false} SmallPowers()
    ensures IsPowerOfTwo(1) && IsPowerOfTwo(2) && IsPowerOfTwo(4) && IsPowerOfTwo(8)
    ensures IsPowerOfTwo(16) && IsPowerOfTwo(32) && IsPowerOfTwo(64) && IsPowerOfTwo(128)
    ensures IsPowerOfTwo(256) && IsPowerOfTwo(512) && IsPowerOfTwo(1024) && IsPowerOfTwo(2048)
    ensures IsPowerOfTwo(4096) && IsPowerOfTwo(8192) && IsPowerOfTwo(16384) && IsPowerOfTwo(32768)
  {
    assert IsPowerOfTwo(1);
    assert IsPowerOfTwo(2);
    assert IsPowerOfTwo(4);
    assert IsPowerOfTwo(8);
    assert IsPowerOfTwo(16);
    assert IsPowerOfTwo(32);
    assert IsPowerOfTwo(64);
    assert IsPowerOfTwo(128);
    assert IsPowerOfTwo(256);
    assert IsPowerOfTwo(512);
    assert IsPowerOfTwo(1024);
    assert IsPowerOfTwo(2048);
    assert IsPowerOfTwo(4096);
    assert IsPowerOfTwo(8192);
    assert IsPowerOfTwo(16384);
  }

  /**
   * RoundUpToPowerOf2: sizes above 32768 are limited to 32768 (with a
   * warning); 0 and 1 give 1; otherwise the next power of two at or above
   * size.
   */
  function RoundUpToPowerOf2(size: U16): (r: U16)
    ensures IsPowerOfTwo(r) && 1 <= r <= POW2_LIMIT
    ensures 1 <= size <= POW2_LIMIT ==> size <= r < 2 * size
    ensures size == 0 ==> r == 1
    ensures size > POW2_LIMIT ==> r == POW2_LIMIT
  {
    SmallPowers();
    if size > 32768 then 32768
    else if size > 16384 then 32768
    else if size > 8192 then 16384
    else if size > 4096 then 8192
    else if size > 2048 then 4096
    else if size > 1024 then 2048
    else if size > 512 then 1024
    else if size > 256 then 512
    else if size > 128 then 256
    else if size > 64 then 128
    else if size > 32 then 64
    else if size > 16 then 32
    else if size > 8 then 16
    else if size > 4 then 8
    else if size > 2 then 4
    else if size > 1 then 2
    else 1
  }

  /**
   * RoundDownToPowerOf2: 0 and 1 give 1; sizes above 32768 are limited to
   * 32768 (with a warning); otherwise the largest power of two at or below
   * size. The chain tests `size < 8192` twice; the second, dead test is left out.
   */
  function RoundDownToPowerOf2(size: U16): (r: U16)
    ensures IsPowerOfTwo(r) && 1 <= r <= POW2_LIMIT
    ensures 1 <= size <= POW2_LIMIT ==> r <= size < 2 * r
    ensures size == 0 ==> r == 1
    ensures size > POW2_LIMIT ==> r == POW2_LIMIT
  {
    SmallPowers();
    if size < 2 then 1
    else if size < 4 then 2
    else if size < 8 then 4
    else if size < 16 then 8
    else if size < 32 then 16
    else if size < 64 then 32
    else if size < 128 then 64
    else if size < 256 then 128
    else if size < 512 then 256
    else if size < 1024 then 512
    else if size < 2048 then 1024
    else if size < 4096 then 2048
    else if size < 8192 then 4096
    else if size < 16384 then 8192
    else if size < 32768 then 16384
    else if size == 32768 then 32768
    else 32768
  }

  /** Rounding up gives the least power of two that is not below size. */
  lemma RoundUpIsLeast(size: U16, p: nat)
    requires 1 <= size <= POW2_LIMIT && IsPowerOfTwo(p) && size <= p
    ensures RoundUpToPowerOf2(size) <= p
  {
    var r := RoundUpToPowerOf2(size);
    if p < r {
      PowerGap(p, r);
    }
  }

  /** Rounding down gives the greatest power of two that is not above size. */
  lemma RoundDownIsGreatest(size: U16, p: nat)
    requires 1 <= size <= POW2_LIMIT && IsPowerOfTwo(p) && p <= size
    ensures p <= RoundDownToPowerOf2(size)
  {
    var r := RoundDownToPowerOf2(size);
    if r < p {
      PowerGap(r, p);
    }
  }

  /** Powers of two in range are fixed points of both roundings. */
  lemma RoundingFixesPowers(size: U16)
    requires 1 <= size <= POW2_LIMIT && IsPowerOfTwo(size)
    ensures RoundUpToPowerOf2(size) == size && RoundDownToPowerOf2(size) == size
  {
    RoundUpIsLeast(size, size);
    RoundDownIsGreatest(size, size);
  }
}
