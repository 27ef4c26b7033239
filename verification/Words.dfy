/** The bits of a machine word, as the kernel's flag and mask operations use them. */
module Words {
  const UINT32 := 0x1_0000_0000

  // ----- Bits -----

  predicate Bit(m: nat, p: nat) { if p == 0 then m % 2 == 1 else Bit(m / 2, p - 1) }

  /** Or with a single bit. */
  function SetBit(m: nat, p: nat): nat {
    if p == 0 then (if m % 2 == 1 then m else m + 1) else 2 * SetBit(m / 2, p - 1) + m % 2
  }

  /** And with the complement of a single bit. */
  function ClearBit(m: nat, p: nat): nat {
    if p == 0 then m - m % 2 else 2 * ClearBit(m / 2, p - 1) + m % 2
  }

  /** The number of trailing zeros. */
  function TrailingZeros(m: nat): nat
    requires m > 0
  {
    if m % 2 == 1 then 0 else 1 + TrailingZeros(m / 2)
  }

  lemma {:induction false} SetBitBits(m: nat, p: nat, i: nat)
    ensures Bit(SetBit(m, p), i) <==> i == p || Bit(m, i)
  {
    if p > 0 && i > 0 {
      SetBitBits(m / 2, p - 1, i - 1);
      assert SetBit(m, p) / 2 == SetBit(m / 2, p - 1);
    }
  }

  lemma {:induction false} ClearBitBits(m: nat, p: nat, i: nat)
    ensures Bit(ClearBit(m, p), i) <==> i != p && Bit(m, i)
  {
    if p > 0 && i > 0 {
      ClearBitBits(m / 2, p - 1, i - 1);
      assert ClearBit(m, p) / 2 == ClearBit(m / 2, p - 1);
    }
  }

  lemma {:induction false} LowestBit(m: nat, i: nat)
    requires m > 0
    ensures Bit(m, TrailingZeros(m)) && (i < TrailingZeros(m) ==> !Bit(m, i))
  {
    if m % 2 == 0 {
      LowestBit(m / 2, if i == 0 then 0 else i - 1);
    }
  }

  lemma {:induction false} ZeroBits(i: nat)
    ensures !Bit(0, i)
  {
    if i > 0 {
      ZeroBits(i - 1);
    }
  }

  lemma SetBits(m: nat, p: nat)
    ensures forall i: nat :: Bit(SetBit(m, p), i) <==> i == p || Bit(m, i)
  {
    forall i: nat ensures Bit(SetBit(m, p), i) <==> i == p || Bit(m, i) {
      SetBitBits(m, p, i);
    }
  }

  lemma ClearBits(m: nat, p: nat)
    ensures forall i: nat :: Bit(ClearBit(m, p), i) <==> i != p && Bit(m, i)
  {
    forall i: nat ensures Bit(ClearBit(m, p), i) <==> i != p && Bit(m, i) {
      ClearBitBits(m, p, i);
    }
  }

  /** A word with one bit set or cleared. */
  function Put(m: nat, bit: nat, b: bool): (r: nat)
    ensures forall i: nat :: Bit(r, i) == if i == bit then b else Bit(m, i)
  {
    SetBits(m, bit);
    ClearBits(m, bit);
    if b then SetBit(m, bit) else ClearBit(m, bit)
  }

  lemma NoBits()
    ensures forall i: nat :: !Bit(0, i)
  {
    forall i: nat ensures !Bit(0, i) {
      ZeroBits(i);
    }
  }

  function Weight(b: bool, value: nat): nat { if b then value else 0 }

  lemma Quarter(m: nat)
    ensures m % 4 == m % 2 + 2 * (m / 2 % 2)
  {
  }

  lemma Eighth(m: nat)
    ensures m % 8 == m % 2 + 2 * (m / 2 % 4)
  {
    var q, c := m / 8, m % 8;
    assert m / 2 == 4 * q + c / 2;
  }

  lemma Sixteenth(m: nat)
    ensures m % 16 == m % 2 + 2 * (m / 2 % 8)
  {
    var q, c := m / 16, m % 16;
    assert m / 2 == 8 * q + c / 2;
  }

  lemma Halfway(m: nat, p: nat)
    ensures Bit(m, 0) <==> m % 2 == 1
    ensures Bit(m, p + 1) <==> Bit(m / 2, p)
  {
  }

  /** Bit `p` by halving `p` times. */
  lemma BitHalves(m: nat)
    ensures Bit(m, 0) <==> m % 2 == 1
    ensures Bit(m, 1) <==> m / 2 % 2 == 1
    ensures Bit(m, 2) <==> m / 2 / 2 % 2 == 1
    ensures Bit(m, 3) <==> m / 2 / 2 / 2 % 2 == 1
  {
    hide Bit;
    Halfway(m, 0);
    Halfway(m, 1);
    Halfway(m, 2);
    Halfway(m / 2, 0);
    Halfway(m / 2, 1);
    Halfway(m / 2 / 2, 0);
    Halfway(m / 2 / 2 / 2, 0);
  }

  /** The four lowest bits as a number. */
  lemma LowFour(m: nat)
    ensures m % 16 == Weight(Bit(m, 0), 1) + Weight(Bit(m, 1), 2) + Weight(Bit(m, 2), 4) + Weight(Bit(m, 3), 8)
  {
    hide Bit;
    BitHalves(m);
    var m1: nat := m / 2;
    var m2: nat := m1 / 2;
    Sixteenth(m);
    Eighth(m1);
    Quarter(m2);
    var a, b, c, d := m % 2, m1 % 2, m2 % 2, m2 / 2 % 2;
    assert m % 16 == a + 2 * b + 4 * c + 8 * d;
  }

  /** A word is what its bits say. */
  lemma {:induction false} SameBits(m: nat, n: nat)
    requires forall i: nat :: Bit(m, i) <==> Bit(n, i)
    ensures m == n
    decreases m + n
  {
    if m + n > 0 {
      assert Bit(m, 0) <==> Bit(n, 0);
      forall i: nat ensures Bit(m / 2, i) <==> Bit(n / 2, i) {
        assert Bit(m, i + 1) <==> Bit(n, i + 1);
      }
      SameBits(m / 2, n / 2);
    }
  }

  /** The bits of 16. */
  lemma Sixteen(i: nat)
    ensures Bit(16, i) <==> i == 4
  {
    SetBitBits(0, 4, i);
    ZeroBits(i);
    assert SetBit(0, 4) == 16;
  }
}
