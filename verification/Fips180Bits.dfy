/** The functions of section 4.1.2 bit by bit: what each output bit is, in terms of the
    input's bits alone. */
module Fips180Bits {
  import opened Fips180

  /** Bit i of x, bit 0 being the least significant. */
  function Bit(x: nat, i: nat): (b: nat)
    ensures b < 2
  {
    if i == 0 then x % 2 else Bit(x / 2, i - 1)
  }

  lemma {:induction false} BitwiseBit(op: BitOp, x: nat, y: nat, i: nat)
    ensures Bit(Bitwise(op, x, y), i) == OnBits(op, Bit(x, i), Bit(y, i))
  {
    if i > 0 {
      BitwiseBit(op, x / 2, y / 2, i - 1);
    }
  }

  lemma {:induction false} NoHighBits(x: nat, width: nat, i: nat)
    requires x < Pow2(width) <= Pow2(i)
    ensures Bit(x, i) == 0
    decreases i
  {
    if i > 0 && width > 0 {
      NoHighBits(x / 2, width - 1, i - 1);
    } else if i > 0 {
      ZeroBits(i);
    }
  }

  lemma {:induction false} ZeroBits(i: nat)
    ensures Bit(0, i) == 0
  {
    if i > 0 {
      ZeroBits(i - 1);
    }
  }

  lemma {:induction false} PowersGrow(a: nat, b: nat)
    requires a <= b
    ensures Pow2(a) <= Pow2(b)
  {
    if a < b {
      PowersGrow(a, b - 1);
    }
  }

  lemma WordBits(x: Word, i: nat)
    requires i >= 32
    ensures Bit(x, i) == 0
  {
    Pow2Word();
    PowersGrow(32, i);
    NoHighBits(x, 32, i);
  }

  // ---- shifts and rotations ---------------------------------------------------------------

  lemma {:induction false} ShrBit(x: Word, n: nat, i: nat)
    ensures Bit(Shr(x, n), i) == Bit(x, i + n)
    decreases n
  {
    if n > 0 {
      ShrBit(x / 2, n - 1, i);
    }
  }

  lemma {:induction false} AddHigh(x: nat, width: nat, i: nat)
    requires i < width
    ensures Bit(x + Pow2(width), i) == Bit(x, i)
  {
    if i > 0 {
      AddHigh(x / 2, width - 1, i - 1);
      assert (x + Pow2(width)) / 2 == x / 2 + Pow2(width - 1);
    }
  }

  lemma DoubleBit(x: Word, i: nat)
    requires i < 32
    ensures Bit(Add(x, x), i) == if i == 0 then 0 else Bit(x, i - 1)
  {
    if x + x >= WORD {
      Pow2Word();
      AddHigh(Add(x, x), 32, i);
    }
  }

  lemma {:induction false} ShlBit(x: Word, n: nat, i: nat)
    requires i < 32
    ensures Bit(Shl(x, n), i) == if i < n then 0 else Bit(x, i - n)
    decreases n
  {
    if n > 0 {
      ShlBit(Add(x, x), n - 1, i);
      if i >= n - 1 {
        DoubleBit(x, i - (n - 1));
      }
    }
  }

  /** A rotation moves bit (i + n) mod 32 to place i. */
  lemma RotrBit(x: Word, n: nat, i: nat)
    requires 0 < n < 32 && i < 32
    ensures Bit(Rotr(x, n), i) == Bit(x, (i + n) % 32)
  {
    BitwiseBit(OrOp, Shr(x, n), Shl(x, 32 - n), i);
    ShrBit(x, n, i);
    ShlBit(x, 32 - n, i);
    if i + n >= 32 {
      WordBits(x, i + n);
      assert (i + n) % 32 == i + n - 32;
    }
  }

  // ---- the six functions ----------------------------------------------------------------

  function Parity(a: nat, b: nat, c: nat): nat {
    (a + b + c) % 2
  }

  lemma XorThree(x: Word, y: Word, z: Word, i: nat)
    ensures Bit(Xor(Xor(x, y), z), i) == Parity(Bit(x, i), Bit(y, i), Bit(z, i))
  {
    hide Bit, Bitwise;
    BitwiseBit(XorOp, x, y, i);
    BitwiseBit(XorOp, Xor(x, y), z, i);
  }

  /** Rotations by 2, 13 and 22; by 6, 11 and 25. */
  lemma BigSigmaBits(x: Word, i: nat)
    requires i < 32
    ensures Bit(BigSigma0(x), i) == Parity(Bit(x, (i + 2) % 32), Bit(x, (i + 13) % 32), Bit(x, (i + 22) % 32))
    ensures Bit(BigSigma1(x), i) == Parity(Bit(x, (i + 6) % 32), Bit(x, (i + 11) % 32), Bit(x, (i + 25) % 32))
  {
    hide Bit, Rotr, Xor;
    RotrBit(x, 2, i);
    RotrBit(x, 13, i);
    RotrBit(x, 22, i);
    XorThree(Rotr(x, 2), Rotr(x, 13), Rotr(x, 22), i);
    RotrBit(x, 6, i);
    RotrBit(x, 11, i);
    RotrBit(x, 25, i);
    XorThree(Rotr(x, 6), Rotr(x, 11), Rotr(x, 25), i);
  }

  /** Rotations by 7 and 18 and a shift by 3; by 17 and 19 and a shift by 10, which bring
      in zeros from above. */
  lemma SmallSigmaBits(x: Word, i: nat)
    requires i < 32
    ensures Bit(SmallSigma0(x), i)
            == Parity(Bit(x, (i + 7) % 32), Bit(x, (i + 18) % 32), if i + 3 < 32 then Bit(x, i + 3) else 0)
    ensures Bit(SmallSigma1(x), i)
            == Parity(Bit(x, (i + 17) % 32), Bit(x, (i + 19) % 32), if i + 10 < 32 then Bit(x, i + 10) else 0)
  {
    hide Bit, Rotr, Xor, Shr;
    RotrBit(x, 7, i);
    RotrBit(x, 18, i);
    ShiftedIn(x, 3, i);
    XorThree(Rotr(x, 7), Rotr(x, 18), Shr(x, 3), i);
    RotrBit(x, 17, i);
    RotrBit(x, 19, i);
    ShiftedIn(x, 10, i);
    XorThree(Rotr(x, 17), Rotr(x, 19), Shr(x, 10), i);
  }

  lemma ShiftedIn(x: Word, n: nat, i: nat)
    ensures Bit(Shr(x, n), i) == if i + n < 32 then Bit(x, i + n) else 0
  {
    ShrBit(x, n, i);
    if i + n >= 32 {
      WordBits(x, i + n);
    }
  }

  lemma {:induction false} ComplementBit(x: nat, width: nat, i: nat)
    requires x < Pow2(width) && i < width
    ensures Bit(Pow2(width) - 1 - x, i) == 1 - Bit(x, i)
  {
    if i > 0 {
      ComplementBit(x / 2, width - 1, i - 1);
      assert (Pow2(width) - 1 - x) / 2 == Pow2(width - 1) - 1 - x / 2;
    }
  }

  /** Choice: y's bit where x has a one, z's where it has a zero. */
  lemma ChBit(x: Word, y: Word, z: Word, i: nat)
    requires i < 32
    ensures Bit(Ch(x, y, z), i) == if Bit(x, i) == 1 then Bit(y, i) else Bit(z, i)
  {
    Pow2Word();
    ComplementBit(x, 32, i);
    BitwiseBit(AndOp, x, y, i);
    BitwiseBit(AndOp, Not(x), z, i);
    BitwiseBit(XorOp, And(x, y), And(Not(x), z), i);
  }

  /** Majority: a one where at least two of the three have one. */
  lemma MajBit(x: Word, y: Word, z: Word, i: nat)
    ensures Bit(Maj(x, y, z), i) == if Bit(x, i) + Bit(y, i) + Bit(z, i) >= 2 then 1 else 0
  {
    BitwiseBit(AndOp, x, y, i);
    BitwiseBit(AndOp, x, z, i);
    BitwiseBit(AndOp, y, z, i);
    XorThree(And(x, y), And(x, z), And(y, z), i);
  }
}
