/** The bit-level view of natural numbers that the configuration index is
    built in: bit i of c, 2^i, and `c | (1 << i)`. */
module Bits {

  /** A positive natural number. */
  type Positive = k: nat | k >= 1 witness 1

  /** 2^n. */
  function Pow2(n: nat): Positive {
    if n == 0 then 1 else 2 * Pow2(n - 1)
  }

  /** Bit i of c is 1 (bit 0 is the least significant). */
  predicate BitSet(c: nat, i: nat) {
    if i == 0 then c % 2 == 1 else BitSet(c / 2, i - 1)
  }

  /** A number below 2^n has every bit from n upward clear. */
  lemma {:induction false} HighBitsClear(c: nat, n: nat, j: nat)
    requires c < Pow2(n) && n <= j
    ensures !BitSet(c, j)
  {
    if j == 0 {
      assert c == 0;
    } else if n == 0 {
      HighBitsClear(c / 2, 0, j - 1);
    } else {
      HighBitsClear(c / 2, n - 1, j - 1);
    }
  }

  /** The bits of 2^n - 1 below n are all set. */
  lemma {:induction false} LowBitsSet(n: nat, j: nat)
    requires j < n
    ensures BitSet(Pow2(n) - 1, j)
  {
    assert (Pow2(n) - 1) / 2 == Pow2(n - 1) - 1;
    if j > 0 {
      LowBitsSet(n - 1, j - 1);
    }
  }

  /** Adding 2^i to a number whose bit i is clear sets bit i and leaves every other bit as it was. */
  lemma {:induction false} AddClearBit(c: nat, i: nat, j: nat)
    requires !BitSet(c, i)
    ensures BitSet(c + Pow2(i), j) <==> (j == i || BitSet(c, j))
  {
    if i == 0 {
      if j > 0 {
        assert (c + 1) / 2 == c / 2;
      }
    } else {
      assert (c + Pow2(i)) / 2 == c / 2 + Pow2(i - 1);
      if j > 0 {
        AddClearBit(c / 2, i - 1, j - 1);
      }
    }
  }

  lemma AddClearBitAll(c: nat, i: nat)
    requires !BitSet(c, i)
    ensures forall j: nat :: BitSet(c + Pow2(i), j) <==> (j == i || BitSet(c, j))
  {
    forall j: nat ensures BitSet(c + Pow2(i), j) <==> (j == i || BitSet(c, j)) {
      AddClearBit(c, i, j);
    }
  }

  /** `c | (1 << i)`: bit i becomes set, every other bit is kept. */
  function SetBit(c: nat, i: nat): (r: nat)
    ensures BitSet(r, i)
    ensures forall j: nat :: j != i ==> (BitSet(r, j) <==> BitSet(c, j))
    ensures c <= r <= c + Pow2(i)
  {
    if BitSet(c, i) then c else (AddClearBitAll(c, i); c + Pow2(i))
  }

  /** Two numbers below 2^n with the same n low bits are equal. */
  lemma {:induction false} BitsDetermine(a: nat, b: nat, n: nat)
    requires a < Pow2(n) && b < Pow2(n)
    requires forall i: nat :: i < n ==> (BitSet(a, i) <==> BitSet(b, i))
    ensures a == b
  {
    if n > 0 {
      forall i: nat | i < n - 1 ensures BitSet(a / 2, i) <==> BitSet(b / 2, i) {
        assert BitSet(a, i + 1) <==> BitSet(b, i + 1);
      }
      BitsDetermine(a / 2, b / 2, n - 1);
      assert BitSet(a, 0) <==> BitSet(b, 0);
    }
  }

  /** 2^i grows with i. */
  lemma {:induction false} Pow2Below(i: nat, n: nat)
    requires i < n
    ensures Pow2(i) < Pow2(n)
  {
    if i < n - 1 {
      Pow2Below(i, n - 1);
    }
  }

  lemma Pow2Eight()
    ensures Pow2(8) == 256
  {
  }
}
