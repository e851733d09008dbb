/** Words as bit-vectors, where their functions can be computed, tied to the same functions
    on numbers. The vectors are boxed so that proofs about numbers do not see into them. */
module Fips180Vectors {
  import opened Fips180
  import opened Fips180Bits

  datatype Bits = Bits(v: bv32)

  // ---- the number a vector stands for, by halves -------------------------------------------

  function LowBit(v: bv32): (l: nat)
    ensures l < 2
  {
    if v & 1 == 1 then 1 else 0
  }

  function LowPair(v: bv32): nat { LowBit(v) + 2 * LowBit(v >> 1) }

  function LowNibble(v: bv32): nat {
    (if v & 1 == 1 then 1 else 0) + (if v & 2 == 2 then 2 else 0)
    + (if v & 4 == 4 then 4 else 0) + (if v & 8 == 8 then 8 else 0)
  }

  lemma NibbleIs(v: bv32)
    ensures LowNibble(v) == LowPair(v) + 4 * LowPair(v >> 2)
  {
  }

  function LowByte(v: bv32): nat { LowNibble(v) + 0x10 * LowNibble(v >> 4) }
  function LowShort(v: bv32): nat { LowByte(v) + 0x100 * LowByte(v >> 8) }
  function Number(v: bv32): nat { LowShort(v) + 0x1_0000 * LowShort(v >> 16) }

  lemma TurnedNumber(v: bv32)
    ensures Number(v.RotateRight(1)) == Number(v >> 1) + 0x8000_0000 * LowBit(v)
  {
  }

  // ---- boxed --------------------------------------------------------------------------------

  function Low(b: Bits): (l: nat)
    ensures l < 2
  {
    LowBit(b.v)
  }

  function Half(b: Bits): Bits { Bits(b.v >> 1) }
  function Down2(b: Bits): Bits { Bits(b.v >> 2) }
  function Down4(b: Bits): Bits { Bits(b.v >> 4) }
  function Down8(b: Bits): Bits { Bits(b.v >> 8) }
  function Down16(b: Bits): Bits { Bits(b.v >> 16) }
  function Val(b: Bits): nat { Number(b.v) }

  /** The number in the n lowest bits. */
  function LowBits(b: Bits, n: nat): nat
    decreases n
  {
    if n == 0 then 0 else Low(b) + 2 * LowBits(Half(b), n - 1)
  }

  lemma Next1(b: Bits, n: nat)
    ensures LowBits(b, n + 1) == LowBit(b.v) + 2 * LowBits(Half(b), n)
  {
  }

  lemma Twice(b: Bits)
    ensures Half(Half(b)) == Down2(b)
  {
  }

  lemma Twice2(b: Bits)
    ensures Down2(Down2(b)) == Down4(b)
  {
  }

  lemma Twice4(b: Bits)
    ensures Down4(Down4(b)) == Down8(b)
  {
  }

  lemma Twice8(b: Bits)
    ensures Down8(Down8(b)) == Down16(b)
  {
  }

  lemma Twice16(b: Bits)
    ensures Down16(Down16(b)) == Bits(0)
  {
  }

  lemma Next2(b: Bits, n: nat)
    ensures LowBits(b, n + 2) == LowPair(b.v) + 4 * LowBits(Down2(b), n)
  {
    hide LowBits, Down2;
    Twice(b);
    Next1(b, n + 1);
    Next1(Half(b), n);
  }

  lemma Next4(b: Bits, n: nat)
    ensures LowBits(b, n + 4) == LowNibble(b.v) + 0x10 * LowBits(Down4(b), n)
  {
    NibbleIs(b.v);
    hide LowBits, Down4, LowPair, LowNibble;
    Twice2(b);
    Next2(b, n + 2);
    Next2(Down2(b), n);
  }

  lemma Next8(b: Bits, n: nat)
    ensures LowBits(b, n + 8) == LowByte(b.v) + 0x100 * LowBits(Down8(b), n)
  {
    hide LowBits, Down8, LowNibble;
    Twice4(b);
    Next4(b, n + 4);
    Next4(Down4(b), n);
  }

  lemma Next16(b: Bits, n: nat)
    ensures LowBits(b, n + 16) == LowShort(b.v) + 0x1_0000 * LowBits(Down16(b), n)
  {
    hide LowBits, Down16, LowByte;
    Twice8(b);
    Next8(b, n + 8);
    Next8(Down8(b), n);
  }

  lemma {:induction false} NoBits(n: nat)
    ensures LowBits(Bits(0), n) == 0
    decreases n
  {
    if n > 0 {
      assert Half(Bits(0)) == Bits(0) && Low(Bits(0)) == 0;
      NoBits(n - 1);
    }
  }

  lemma HighShort(b: Bits)
    ensures LowShort(Down16(b).v) == LowShort(b.v >> 16)
  {
    hide LowShort;
  }

  lemma ValSplit(b: Bits)
    ensures Val(b) == LowShort(b.v) + 0x1_0000 * LowShort(Down16(b).v)
  {
    hide LowShort, Down16;
    HighShort(b);
  }

  lemma ValIs(b: Bits, n: nat)
    ensures LowBits(b, n + 32) == Val(b)
  {
    hide LowBits, LowShort, Val, Down16;
    ValSplit(b);
    Next16(b, n + 16);
    Next16(Down16(b), n);
    Twice16(b);
    NoBits(n);
  }

  lemma {:induction false} LowBitsBound(b: Bits, n: nat)
    ensures LowBits(b, n) < Pow2(n)
    decreases n
  {
    if n > 0 {
      LowBitsBound(Half(b), n - 1);
    }
  }

  lemma WordBound(b: Bits)
    ensures LowBits(b, 32) < WORD
  {
    hide LowBits;
    LowBitsBound(b, 32);
    Pow2Word();
  }

  lemma ValHalf(b: Bits)
    ensures Val(b) == 2 * Val(Half(b)) + Low(b)
  {
    hide Val, LowBit, LowBits, Half;
    ValIs(b, 1);
    ValIs(Half(b), 0);
    Next1(b, 32);
  }
  /** The vector as a word. */
  function WordOf32(b: Bits): Word {
    WordBound(b);
    LowBits(b, 32)
  }

  lemma WordIs(b: Bits)
    ensures WordOf32(b) == Val(b)
  {
    hide Val, LowBits;
    ValIs(b, 0);
  }

  // ---- and, exclusive or, complement -----------------------------------------------------------

  function XorOf(x: Bits, y: Bits): Bits { Bits(x.v ^ y.v) }
  function AndOf(x: Bits, y: Bits): Bits { Bits(x.v & y.v) }

  lemma XorHalf(x: Bits, y: Bits)
    ensures Half(XorOf(x, y)) == XorOf(Half(x), Half(y))
    ensures LowBit(XorOf(x, y).v) == OnBits(XorOp, LowBit(x.v), LowBit(y.v))
  {
  }

  lemma AndHalf(x: Bits, y: Bits)
    ensures Half(AndOf(x, y)) == AndOf(Half(x), Half(y))
    ensures LowBit(AndOf(x, y).v) == OnBits(AndOp, LowBit(x.v), LowBit(y.v))
  {
  }

  lemma BitwiseNext(op: BitOp, a: nat, b: nat, l: nat, m: nat)
    requires l < 2 && m < 2
    ensures Bitwise(op, l + 2 * a, m + 2 * b) == OnBits(op, l, m) + 2 * Bitwise(op, a, b)
  {
    if l + 2 * a == 0 && m + 2 * b == 0 {
      assert Bitwise(op, 0, 0) == 0;
    }
  }

  lemma XorNext(x: Bits, y: Bits, n: nat)
    requires LowBits(XorOf(Half(x), Half(y)), n) == Bitwise(XorOp, LowBits(Half(x), n), LowBits(Half(y), n))
    ensures LowBits(XorOf(x, y), n + 1) == Bitwise(XorOp, LowBits(x, n + 1), LowBits(y, n + 1))
  {
    hide LowBits, Bitwise, Half, XorOf, LowBit, OnBits;
    XorHalf(x, y);
    Next1(x, n);
    Next1(y, n);
    Next1(XorOf(x, y), n);
    BitwiseNext(XorOp, LowBits(Half(x), n), LowBits(Half(y), n), LowBit(x.v), LowBit(y.v));
  }

  lemma {:induction false} XorLowBits(x: Bits, y: Bits, n: nat)
    ensures LowBits(XorOf(x, y), n) == Bitwise(XorOp, LowBits(x, n), LowBits(y, n))
    decreases n
  {
    hide Half, XorOf, Low;
    if n > 0 {
      hide LowBits, Bitwise;
      XorLowBits(Half(x), Half(y), n - 1);
      XorNext(x, y, n - 1);
    }
  }

  lemma AndNext(x: Bits, y: Bits, n: nat)
    requires LowBits(AndOf(Half(x), Half(y)), n) == Bitwise(AndOp, LowBits(Half(x), n), LowBits(Half(y), n))
    ensures LowBits(AndOf(x, y), n + 1) == Bitwise(AndOp, LowBits(x, n + 1), LowBits(y, n + 1))
  {
    hide LowBits, Bitwise, Half, AndOf, LowBit, OnBits;
    AndHalf(x, y);
    Next1(x, n);
    Next1(y, n);
    Next1(AndOf(x, y), n);
    BitwiseNext(AndOp, LowBits(Half(x), n), LowBits(Half(y), n), LowBit(x.v), LowBit(y.v));
  }

  lemma {:induction false} AndLowBits(x: Bits, y: Bits, n: nat)
    ensures LowBits(AndOf(x, y), n) == Bitwise(AndOp, LowBits(x, n), LowBits(y, n))
    decreases n
  {
    hide Half, AndOf, Low;
    if n > 0 {
      hide LowBits, Bitwise;
      AndLowBits(Half(x), Half(y), n - 1);
      AndNext(x, y, n - 1);
    }
  }

  lemma XorIs(x: Bits, y: Bits)
    ensures Xor(WordOf32(x), WordOf32(y)) == WordOf32(XorOf(x, y))
  {
    hide Bitwise, LowBits, XorOf;
    XorLowBits(x, y, 32);
  }

  lemma AndIs(x: Bits, y: Bits)
    ensures And(WordOf32(x), WordOf32(y)) == WordOf32(AndOf(x, y))
  {
    hide Bitwise, LowBits, AndOf;
    AndLowBits(x, y, 32);
  }

  function NotOf(x: Bits): Bits { Bits(!x.v) }

  lemma NotNibbles(v: bv32)
    ensures LowNibble(!v) == 15 - LowNibble(v) && LowNibble((!v) >> 4) == 15 - LowNibble(v >> 4)
  {
  }

  lemma NotNibbles8(v: bv32)
    ensures LowNibble((!v) >> 8) == 15 - LowNibble(v >> 8)
    ensures LowNibble((!v) >> 8 >> 4) == 15 - LowNibble(v >> 8 >> 4)
  {
  }

  lemma NotNibbles16(v: bv32)
    ensures LowNibble((!v) >> 16) == 15 - LowNibble(v >> 16)
    ensures LowNibble((!v) >> 16 >> 4) == 15 - LowNibble(v >> 16 >> 4)
  {
  }

  lemma NotNibbles24(v: bv32)
    ensures LowNibble((!v) >> 16 >> 8) == 15 - LowNibble(v >> 16 >> 8)
    ensures LowNibble((!v) >> 16 >> 8 >> 4) == 15 - LowNibble(v >> 16 >> 8 >> 4)
  {
  }

  lemma NotNumber(v: bv32)
    ensures Number(!v) == 0xffff_ffff - Number(v)
  {
    hide LowNibble;
    NotNibbles(v);
    NotNibbles8(v);
    NotNibbles16(v);
    NotNibbles24(v);
  }

  lemma NotBoxed(v: bv32)
    ensures Val(Bits(!v)) == 0xffff_ffff - Val(Bits(v)) && NotOf(Bits(v)) == Bits(!v)
  {
    hide Number;
    NotNumber(v);
  }

  lemma NotIs(x: Bits)
    ensures Not(WordOf32(x)) == WordOf32(NotOf(x))
  {
    hide Val, NotOf, WordOf32;
    WordIs(x);
    WordIs(NotOf(x));
    match x
    case Bits(v) => NotBoxed(v);
  }

  // ---- shifts and rotations ------------------------------------------------------------------

  /** A rotation by one place. */
  function TurnWord(x: Word): Word { x / 2 + (if x % 2 == 1 then 0x8000_0000 else 0) }

  function Turns(x: Word, n: nat): Word {
    if n == 0 then x else TurnWord(Turns(x, n - 1))
  }

  function Turn(b: Bits): Bits { Bits(b.v.RotateRight(1)) }

  lemma TurnedBoxed(v: bv32)
    ensures Val(Bits(v.RotateRight(1))) == Val(Bits(v >> 1)) + 0x8000_0000 * LowBit(v)
  {
    TurnedNumber(v);
    hide *;
    ValOf(v.RotateRight(1));
    ValOf(v >> 1);
  }

  lemma ValOf(v: bv32)
    ensures Val(Bits(v)) == Number(v)
  {
    hide Number;
  }

  lemma TurnBox(v: bv32)
    ensures Turn(Bits(v)) == Bits(v.RotateRight(1))
  {
  }

  lemma HalfBox(v: bv32)
    ensures Half(Bits(v)) == Bits(v >> 1) && Low(Bits(v)) == LowBit(v)
  {
  }

  lemma TurnedVal(b: Bits)
    ensures Val(Turn(b)) == Val(Half(b)) + 0x8000_0000 * Low(b)
  {
    hide Val, Turn, Half, Low, LowBit;
    match b
    case Bits(v) =>
      TurnBox(v);
      HalfBox(v);
      TurnedBoxed(v);
  }

  lemma TurnIs(b: Bits)
    ensures TurnWord(WordOf32(b)) == WordOf32(Turn(b))
  {
    hide Val, Turn, Half, Low, WordOf32;
    WordIs(b);
    WordIs(Turn(b));
    TurnedVal(b);
    ValHalf(b);
  }

  lemma ShiftIs(b: Bits)
    ensures WordOf32(b) / 2 == WordOf32(Half(b))
  {
    hide Val, Half, Low, WordOf32;
    WordIs(b);
    WordIs(Half(b));
    ValHalf(b);
  }

  lemma {:induction false} TopBit(y: nat, width: nat)
    requires y < Pow2(width)
    ensures Bit(y + Pow2(width), width) == 1 && Bit(y, width) == 0
  {
    if width > 0 {
      TopBit(y / 2, width - 1);
      assert (y + Pow2(width)) / 2 == y / 2 + Pow2(width - 1);
    }
  }

  lemma Pow31()
    ensures Pow2(31) == 0x8000_0000
  {
    Pow2Word();
    assert Pow2(32) == 2 * Pow2(31);
  }

  lemma TurnBit(x: Word, i: nat)
    requires i < 32
    ensures Bit(TurnWord(x), i) == Bit(x, (i + 1) % 32)
  {
    Pow31();
    var h := x / 2;
    assert Bit(x, i + 1) == Bit(h, i);
    TopBit(h, 31);
    if i < 31 {
      AddHigh(h, 31, i);
    }
    hide Pow2, Bit;
    BitZero(x);
  }

  lemma BitZero(x: nat)
    ensures Bit(x, 0) == x % 2
  {
  }

  lemma {:induction false} TurnsBit(x: Word, n: nat, i: nat)
    requires i < 32
    ensures Bit(Turns(x, n), i) == Bit(x, (i + n) % 32)
    decreases n
  {
    if n > 0 {
      TurnBit(Turns(x, n - 1), i);
      TurnsBit(x, n - 1, (i + 1) % 32);
      assert ((i + 1) % 32 + (n - 1)) % 32 == (i + n) % 32;
      hide Bit, TurnWord;
    }
  }

  lemma {:induction false} SameBits(x: nat, y: nat, width: nat)
    requires x < Pow2(width) && y < Pow2(width)
    requires forall i :: 0 <= i < width ==> Bit(x, i) == Bit(y, i)
    ensures x == y
  {
    if width > 0 {
      forall i | 0 <= i < width - 1
        ensures Bit(x / 2, i) == Bit(y / 2, i)
      {
        assert Bit(x, i + 1) == Bit(y, i + 1);
      }
      assert Bit(x, 0) == Bit(y, 0);
      SameBits(x / 2, y / 2, width - 1);
    }
  }

  lemma RotrTurns(x: Word, n: nat)
    requires 0 < n < 32
    ensures Rotr(x, n) == Turns(x, n)
  {
    Pow2Word();
    forall i | 0 <= i < 32
      ensures Bit(Rotr(x, n), i) == Bit(Turns(x, n), i)
    {
      RotrBit(x, n, i);
      TurnsBit(x, n, i);
    }
    hide Rotr, Turns, Bit, Pow2;
    SameBits(Rotr(x, n), Turns(x, n), 32);
  }

  /** n single turns, or n halvings. */
  function TurnsOf(b: Bits, n: nat): Bits {
    if n == 0 then b else Turn(TurnsOf(b, n - 1))
  }

  function HalvesOf(b: Bits, n: nat): Bits
    decreases n
  {
    if n == 0 then b else HalvesOf(Half(b), n - 1)
  }

  lemma {:induction false} TurnsAre(b: Bits, n: nat)
    ensures Turns(WordOf32(b), n) == WordOf32(TurnsOf(b, n))
    decreases n
  {
    hide TurnWord, WordOf32, Turn;
    if n > 0 {
      TurnsAre(b, n - 1);
      TurnIs(TurnsOf(b, n - 1));
    }
  }

  lemma {:induction false} HalvesAre(b: Bits, n: nat)
    ensures Shr(WordOf32(b), n) == WordOf32(HalvesOf(b, n))
    decreases n
  {
    hide WordOf32, Half;
    if n > 0 {
      ShiftIs(b);
      HalvesAre(Half(b), n - 1);
    }
  }

  lemma {:induction false} TurnsSplit(b: Bits, m: nat, n: nat)
    ensures TurnsOf(b, m + n) == TurnsOf(TurnsOf(b, m), n)
    decreases n
  {
    hide Turn;
    if n > 0 {
      TurnsSplit(b, m, n - 1);
    }
  }

  lemma {:induction false} HalvesSplit(b: Bits, m: nat, n: nat)
    ensures HalvesOf(b, m + n) == HalvesOf(HalvesOf(b, m), n)
    decreases m
  {
    hide Half;
    if m > 0 {
      HalvesSplit(Half(b), m - 1, n);
    }
  }

  // ---- rotations by the numbers needed, from powers of two ---------------------------------------

  function Turn2(b: Bits): Bits { Bits(b.v.RotateRight(2)) }
  function Turn4(b: Bits): Bits { Bits(b.v.RotateRight(4)) }
  function Turn8(b: Bits): Bits { Bits(b.v.RotateRight(8)) }
  function Turn16(b: Bits): Bits { Bits(b.v.RotateRight(16)) }

  lemma TwoTurns(b: Bits)
    ensures Turn(Turn(b)) == Turn2(b)
  {
  }

  lemma FourTurns(b: Bits)
    ensures Turn2(Turn2(b)) == Turn4(b)
  {
  }

  lemma EightTurns(b: Bits)
    ensures Turn4(Turn4(b)) == Turn8(b)
  {
  }

  lemma SixteenTurns(b: Bits)
    ensures Turn8(Turn8(b)) == Turn16(b)
  {
  }

  lemma TurnPowers(b: Bits)
    ensures TurnsOf(b, 1) == Turn(b) && TurnsOf(b, 2) == Turn2(b)
  {
    hide Turn, Turn2;
    TwoTurns(b);
  }

  lemma Turn4Is(b: Bits)
    ensures TurnsOf(b, 4) == Turn4(b)
  {
    TurnsSplit(b, 2, 2);
    hide Turn, Turn2, Turn4, TurnsOf;
    TurnPowers(b);
    TurnPowers(Turn2(b));
    FourTurns(b);
  }

  lemma Turn8Is(b: Bits)
    ensures TurnsOf(b, 8) == Turn8(b)
  {
    TurnsSplit(b, 4, 4);
    hide Turn4, Turn8, TurnsOf;
    Turn4Is(b);
    Turn4Is(Turn4(b));
    EightTurns(b);
  }

  lemma Turn16Is(b: Bits)
    ensures TurnsOf(b, 16) == Turn16(b)
  {
    TurnsSplit(b, 8, 8);
    hide Turn8, Turn16, TurnsOf;
    Turn8Is(b);
    Turn8Is(Turn8(b));
    SixteenTurns(b);
  }

  /** A rotation by n from one by m and one by n - m. */
  lemma Composed(b: Bits, m: nat, k: nat, once: Bits, twice: Bits)
    requires TurnsOf(b, m) == once && TurnsOf(once, k) == twice
    ensures TurnsOf(b, m + k) == twice
  {
    hide TurnsOf;
    TurnsSplit(b, m, k);
  }

  lemma RotatesTo(b: Bits, n: nat, r: Bits)
    requires 0 < n < 32 && TurnsOf(b, n) == r
    ensures Rotr(WordOf32(b), n) == WordOf32(r)
  {
    hide TurnsOf, WordOf32, Rotr, Turns;
    RotrTurns(WordOf32(b), n);
    TurnsAre(b, n);
  }

  // ---- the six functions on vectors ------------------------------------------------------------

  function Turn6(b: Bits): Bits { Turn2(Turn4(b)) }
  function Turn3(b: Bits): Bits { Turn(Turn2(b)) }

  function Big0(b: Bits): Bits { XorOf(XorOf(Turn2(b), Turn(Turn4(Turn8(b)))), Turn6(Turn16(b))) }
  function Big1(b: Bits): Bits { XorOf(XorOf(Turn6(b), Turn3(Turn8(b))), Turn(Turn8(Turn16(b)))) }
  function Small0(b: Bits): Bits { XorOf(XorOf(Turn(Turn6(b)), Turn2(Turn16(b))), Half(Down2(b))) }
  function Small1(b: Bits): Bits { XorOf(XorOf(Turn(Turn16(b)), Turn3(Turn16(b))), Down2(Down8(b))) }
  function Choice(x: Bits, y: Bits, z: Bits): Bits { XorOf(AndOf(x, y), AndOf(NotOf(x), z)) }
  function Majority(x: Bits, y: Bits, z: Bits): Bits { XorOf(XorOf(AndOf(x, y), AndOf(x, z)), AndOf(y, z)) }

  lemma TurnOne(b: Bits)
    ensures TurnsOf(b, 1) == Turn(b)
  {
    hide Turn;
  }

  lemma Turn3Is(b: Bits)
    ensures TurnsOf(b, 3) == Turn3(b)
  {
    hide Turn, Turn2, TurnsOf;
    TurnPowers(b);
    TurnPowers(Turn2(b));
    Composed(b, 2, 1, Turn2(b), Turn3(b));
  }

  lemma Turn6Is(b: Bits)
    ensures TurnsOf(b, 6) == Turn6(b)
  {
    hide Turn, Turn2, Turn4, TurnsOf;
    Turn4Is(b);
    TurnPowers(Turn4(b));
    Composed(b, 4, 2, Turn4(b), Turn6(b));
  }

  lemma Big0Is(b: Bits)
    ensures BigSigma0(WordOf32(b)) == WordOf32(Big0(b))
  {
    hide Turn, Turn2, Turn4, Turn8, Turn16, Turn6, TurnsOf, WordOf32, XorOf, Rotr, Xor;
    TurnPowers(b);
    RotatesTo(b, 2, Turn2(b));
    Turn8Is(b);
    Turn4Is(Turn8(b));
    Composed(b, 8, 4, Turn8(b), Turn4(Turn8(b)));
    TurnPowers(Turn4(Turn8(b)));
    Composed(b, 12, 1, Turn4(Turn8(b)), Turn(Turn4(Turn8(b))));
    RotatesTo(b, 13, Turn(Turn4(Turn8(b))));
    Turn16Is(b);
    Turn6Is(Turn16(b));
    Composed(b, 16, 6, Turn16(b), Turn6(Turn16(b)));
    RotatesTo(b, 22, Turn6(Turn16(b)));
    XorIs(Turn2(b), Turn(Turn4(Turn8(b))));
    XorIs(XorOf(Turn2(b), Turn(Turn4(Turn8(b)))), Turn6(Turn16(b)));
  }

  lemma Big1Is(b: Bits)
    ensures BigSigma1(WordOf32(b)) == WordOf32(Big1(b))
  {
    hide Turn, Turn8, Turn16, Turn6, Turn3, TurnsOf, WordOf32, XorOf, Rotr, Xor;
    Turn6Is(b);
    RotatesTo(b, 6, Turn6(b));
    Turn8Is(b);
    Turn3Is(Turn8(b));
    Composed(b, 8, 3, Turn8(b), Turn3(Turn8(b)));
    RotatesTo(b, 11, Turn3(Turn8(b)));
    Turn16Is(b);
    Turn8Is(Turn16(b));
    Composed(b, 16, 8, Turn16(b), Turn8(Turn16(b)));
    TurnOne(Turn8(Turn16(b)));
    Composed(b, 24, 1, Turn8(Turn16(b)), Turn(Turn8(Turn16(b))));
    RotatesTo(b, 25, Turn(Turn8(Turn16(b))));
    XorIs(Turn6(b), Turn3(Turn8(b)));
    XorIs(XorOf(Turn6(b), Turn3(Turn8(b))), Turn(Turn8(Turn16(b))));
  }

  lemma DownThree(b: Bits)
    ensures HalvesOf(b, 3) == Half(Down2(b))
  {
    HalvesSplit(b, 2, 1);
    Twice(b);
    hide Half, Down2;
  }

  lemma Down2Halves(b: Bits)
    ensures HalvesOf(b, 2) == Down2(b)
  {
    Twice(b);
    hide Half, Down2;
  }

  lemma Down8Halves(b: Bits)
    ensures HalvesOf(b, 8) == Down8(b)
  {
    HalvesSplit(b, 4, 4);
    HalvesSplit(b, 2, 2);
    HalvesSplit(Down4(b), 2, 2);
    hide HalvesOf, Half, Down2, Down4, Down8;
    Down2Halves(b);
    Down2Halves(Down2(b));
    Down2Halves(Down4(b));
    Down2Halves(Down2(Down4(b)));
    Twice2(b);
    Twice2(Down4(b));
    Twice4(b);
  }

  lemma DownTen(b: Bits)
    ensures HalvesOf(b, 10) == Down2(Down8(b))
  {
    HalvesSplit(b, 8, 2);
    hide HalvesOf, Half, Down2, Down8;
    Down8Halves(b);
    Down2Halves(Down8(b));
  }

  lemma Small0Is(b: Bits)
    ensures SmallSigma0(WordOf32(b)) == WordOf32(Small0(b))
  {
    hide Turn, Turn2, Turn16, Turn6, TurnsOf, WordOf32, XorOf, Rotr, Xor, Shr, Half, Down2, HalvesOf;
    Turn6Is(b);
    TurnOne(Turn6(b));
    Composed(b, 6, 1, Turn6(b), Turn(Turn6(b)));
    RotatesTo(b, 7, Turn(Turn6(b)));
    Turn16Is(b);
    TurnPowers(Turn16(b));
    Composed(b, 16, 2, Turn16(b), Turn2(Turn16(b)));
    RotatesTo(b, 18, Turn2(Turn16(b)));
    DownThree(b);
    HalvesAre(b, 3);
    XorIs(Turn(Turn6(b)), Turn2(Turn16(b)));
    XorIs(XorOf(Turn(Turn6(b)), Turn2(Turn16(b))), Half(Down2(b)));
  }

  lemma Small1Is(b: Bits)
    ensures SmallSigma1(WordOf32(b)) == WordOf32(Small1(b))
  {
    hide Turn, Turn16, Turn3, TurnsOf, WordOf32, XorOf, Rotr, Xor, Shr, Down2, Down8, HalvesOf;
    Turn16Is(b);
    TurnOne(Turn16(b));
    Composed(b, 16, 1, Turn16(b), Turn(Turn16(b)));
    RotatesTo(b, 17, Turn(Turn16(b)));
    Turn3Is(Turn16(b));
    Composed(b, 16, 3, Turn16(b), Turn3(Turn16(b)));
    RotatesTo(b, 19, Turn3(Turn16(b)));
    DownTen(b);
    HalvesAre(b, 10);
    XorIs(Turn(Turn16(b)), Turn3(Turn16(b)));
    XorIs(XorOf(Turn(Turn16(b)), Turn3(Turn16(b))), Down2(Down8(b)));
  }

  lemma ChoiceIs(x: Bits, y: Bits, z: Bits)
    ensures Ch(WordOf32(x), WordOf32(y), WordOf32(z)) == WordOf32(Choice(x, y, z))
  {
    hide WordOf32, XorOf, AndOf, NotOf, Xor, And, Not;
    AndIs(x, y);
    NotIs(x);
    AndIs(NotOf(x), z);
    XorIs(AndOf(x, y), AndOf(NotOf(x), z));
  }

  lemma MajorityIs(x: Bits, y: Bits, z: Bits)
    ensures Maj(WordOf32(x), WordOf32(y), WordOf32(z)) == WordOf32(Majority(x, y, z))
  {
    hide WordOf32, XorOf, AndOf, Xor, And;
    AndIs(x, y);
    AndIs(x, z);
    AndIs(y, z);
    XorIs(AndOf(x, y), AndOf(x, z));
    XorIs(XorOf(AndOf(x, y), AndOf(x, z)), AndOf(y, z));
  }

  // ---- computing ------------------------------------------------------------------------------

  lemma NibbleNumber(v: bv32)
    ensures (v & 0xf) as int == LowNibble(v)
  {
  }

  lemma ByteNumber(v: bv32)
    ensures (v & 0xff) as int == (v & 0xf) as int + 0x10 * (((v >> 4) & 0xf) as int)
  {
  }

  lemma ShortNumber(v: bv32)
    ensures (v & 0xffff) as int == (v & 0xff) as int + 0x100 * (((v >> 8) & 0xff) as int)
  {
  }

  lemma LowByteIs(v: bv32)
    ensures LowByte(v) == (v & 0xff) as int
  {
    hide LowNibble;
    ByteNumber(v);
    NibbleNumber(v);
    NibbleNumber(v >> 4);
  }

  lemma LowShortIs(v: bv32)
    ensures LowShort(v) == (v & 0xffff) as int
  {
    hide LowByte;
    ShortNumber(v);
    LowByteIs(v);
    LowByteIs(v >> 8);
  }

  /** The number from the vector's two halves, quick to work out for a given vector. */
  function Sum(v: bv32): nat {
    (v & 0xffff) as nat + 0x1_0000 * (((v >> 16) & 0xffff) as nat)
  }

  lemma NumberIs(v: bv32)
    ensures Number(v) == Sum(v)
  {
    hide LowShort;
    LowShortIs(v);
    LowShortIs(v >> 16);
  }

  lemma SumIs(b: Bits)
    ensures WordOf32(b) == Sum(b.v)
  {
    hide Number, Sum, WordOf32;
    WordIs(b);
    match b
    case Bits(v) => NumberIs(v);
  }

  // ---- the functions on plain vectors -----------------------------------------------------------

  function Xor32(x: bv32, y: bv32): bv32 { x ^ y }
  function And32(x: bv32, y: bv32): bv32 { x & y }
  function Not32(x: bv32): bv32 { !x }
  function Shr3(v: bv32): bv32 { v >> 3 }
  function Shr10(v: bv32): bv32 { v >> 10 }
  function Rotr2(v: bv32): bv32 { v.RotateRight(2) }
  function Rotr3(v: bv32): bv32 { v.RotateRight(3) }
  function Rotr4(v: bv32): bv32 { v.RotateRight(4) }
  function Rotr6(v: bv32): bv32 { v.RotateRight(6) }
  function Rotr7(v: bv32): bv32 { v.RotateRight(7) }
  function Rotr8(v: bv32): bv32 { v.RotateRight(8) }
  function Rotr11(v: bv32): bv32 { v.RotateRight(11) }
  function Rotr12(v: bv32): bv32 { v.RotateRight(12) }
  function Rotr13(v: bv32): bv32 { v.RotateRight(13) }
  function Rotr16(v: bv32): bv32 { v.RotateRight(16) }
  function Rotr17(v: bv32): bv32 { v.RotateRight(17) }
  function Rotr18(v: bv32): bv32 { v.RotateRight(18) }
  function Rotr19(v: bv32): bv32 { v.RotateRight(19) }
  function Rotr22(v: bv32): bv32 { v.RotateRight(22) }
  function Rotr24(v: bv32): bv32 { v.RotateRight(24) }
  function Rotr25(v: bv32): bv32 { v.RotateRight(25) }

  function RawBig0(v: bv32): bv32 { Xor32(Xor32(Rotr2(v), Rotr13(v)), Rotr22(v)) }
  function RawBig1(v: bv32): bv32 { Xor32(Xor32(Rotr6(v), Rotr11(v)), Rotr25(v)) }
  function RawSmall0(v: bv32): bv32 { Xor32(Xor32(Rotr7(v), Rotr18(v)), Shr3(v)) }
  function RawSmall1(v: bv32): bv32 { Xor32(Xor32(Rotr17(v), Rotr19(v)), Shr10(v)) }
  function RawChoice(x: bv32, y: bv32, z: bv32): bv32 { Xor32(And32(x, y), And32(Not32(x), z)) }
  function RawMajority(x: bv32, y: bv32, z: bv32): bv32 {
    Xor32(Xor32(And32(x, y), And32(x, z)), And32(y, z))
  }

  lemma Raw2(v: bv32)
    ensures Turn2(Bits(v)) == Bits(Rotr2(v))
  {
  }

  lemma Raw4(v: bv32)
    ensures Turn4(Bits(v)) == Bits(Rotr4(v))
  {
  }

  lemma Raw8(v: bv32)
    ensures Turn8(Bits(v)) == Bits(Rotr8(v))
  {
  }

  lemma Raw16(v: bv32)
    ensures Turn16(Bits(v)) == Bits(Rotr16(v))
  {
  }

  lemma Raw3(v: bv32)
    ensures Turn3(Bits(v)) == Bits(Rotr3(v))
  {
    hide Turn2;
    Raw2(v);
  }

  lemma Raw6(v: bv32)
    ensures Turn6(Bits(v)) == Bits(Rotr6(v))
  {
    hide Turn4;
    Raw4(v);
  }

  lemma Raw7(v: bv32)
    ensures Turn(Turn6(Bits(v))) == Bits(Rotr7(v))
  {
    hide Turn6;
    Raw6(v);
  }

  lemma Raw11(v: bv32)
    ensures Turn3(Turn8(Bits(v))) == Bits(Rotr11(v))
  {
    hide Turn8, Turn3;
    Raw8(v);
    Raw3(Rotr8(v));
  }

  lemma Raw12(v: bv32)
    ensures Turn4(Turn8(Bits(v))) == Bits(Rotr12(v))
  {
    hide Turn8;
    Raw8(v);
  }

  lemma Raw13(v: bv32)
    ensures Turn(Turn4(Turn8(Bits(v)))) == Bits(Rotr13(v))
  {
    hide Turn4, Turn8;
    Raw12(v);
  }

  lemma Raw17(v: bv32)
    ensures Turn(Turn16(Bits(v))) == Bits(Rotr17(v))
  {
    hide Turn16;
    Raw16(v);
  }

  lemma Raw18(v: bv32)
    ensures Turn2(Turn16(Bits(v))) == Bits(Rotr18(v))
  {
    hide Turn16;
    Raw16(v);
  }

  lemma Raw19(v: bv32)
    ensures Turn3(Turn16(Bits(v))) == Bits(Rotr19(v))
  {
    hide Turn16, Turn3;
    Raw16(v);
    Raw3(Rotr16(v));
  }

  lemma Raw22(v: bv32)
    ensures Turn6(Turn16(Bits(v))) == Bits(Rotr22(v))
  {
    hide Turn16, Turn6;
    Raw16(v);
    Raw6(Rotr16(v));
  }

  lemma Raw24(v: bv32)
    ensures Turn8(Turn16(Bits(v))) == Bits(Rotr24(v))
  {
    hide Turn16;
    Raw16(v);
  }

  lemma Raw25(v: bv32)
    ensures Turn(Turn8(Turn16(Bits(v)))) == Bits(Rotr25(v))
  {
    hide Turn8, Turn16;
    Raw24(v);
  }

  lemma RawDown3(v: bv32)
    ensures Half(Down2(Bits(v))) == Bits(Shr3(v))
  {
  }

  lemma RawDown10(v: bv32)
    ensures Down2(Down8(Bits(v))) == Bits(Shr10(v))
  {
  }

  lemma RawXor(x: bv32, y: bv32)
    ensures XorOf(Bits(x), Bits(y)) == Bits(Xor32(x, y))
  {
  }

  lemma RawAnd(x: bv32, y: bv32)
    ensures AndOf(Bits(x), Bits(y)) == Bits(And32(x, y))
  {
  }

  lemma RawNot(x: bv32)
    ensures NotOf(Bits(x)) == Bits(Not32(x))
  {
  }

  lemma RawBig0Is(v: bv32)
    ensures Big0(Bits(v)) == Bits(RawBig0(v))
  {
    hide Turn, Turn2, Turn4, Turn8, Turn16, Turn6;
    hide XorOf, Xor32, Rotr2, Rotr13, Rotr22;
    Raw2(v);
    Raw13(v);
    Raw22(v);
    RawXor(Rotr2(v), Rotr13(v));
    RawXor(Xor32(Rotr2(v), Rotr13(v)), Rotr22(v));
  }

  lemma RawBig1Is(v: bv32)
    ensures Big1(Bits(v)) == Bits(RawBig1(v))
  {
    hide Turn, Turn3, Turn8, Turn16, Turn6;
    hide XorOf, Xor32, Rotr6, Rotr11, Rotr25;
    Raw6(v);
    Raw11(v);
    Raw25(v);
    RawXor(Rotr6(v), Rotr11(v));
    RawXor(Xor32(Rotr6(v), Rotr11(v)), Rotr25(v));
  }

  lemma RawSmall0Is(v: bv32)
    ensures Small0(Bits(v)) == Bits(RawSmall0(v))
  {
    hide Turn, Turn2, Turn16, Turn6, Half, Down2;
    hide XorOf, Xor32, Rotr7, Rotr18, Shr3;
    Raw7(v);
    Raw18(v);
    RawDown3(v);
    RawXor(Rotr7(v), Rotr18(v));
    RawXor(Xor32(Rotr7(v), Rotr18(v)), Shr3(v));
  }

  lemma RawSmall1Is(v: bv32)
    ensures Small1(Bits(v)) == Bits(RawSmall1(v))
  {
    hide Turn, Turn3, Turn16, Down2, Down8;
    hide XorOf, Xor32, Rotr17, Rotr19, Shr10;
    Raw17(v);
    Raw19(v);
    RawDown10(v);
    RawXor(Rotr17(v), Rotr19(v));
    RawXor(Xor32(Rotr17(v), Rotr19(v)), Shr10(v));
  }

  lemma RawChoiceIs(x: bv32, y: bv32, z: bv32)
    ensures Choice(Bits(x), Bits(y), Bits(z)) == Bits(RawChoice(x, y, z))
  {
    hide XorOf, AndOf, NotOf, Xor32, And32, Not32;
    RawAnd(x, y);
    RawNot(x);
    RawAnd(Not32(x), z);
    RawXor(And32(x, y), And32(Not32(x), z));
  }

  lemma RawMajorityIs(x: bv32, y: bv32, z: bv32)
    ensures Majority(Bits(x), Bits(y), Bits(z)) == Bits(RawMajority(x, y, z))
  {
    hide XorOf, AndOf, Xor32, And32;
    RawAnd(x, y);
    RawAnd(x, z);
    RawAnd(y, z);
    RawXor(And32(x, y), And32(x, z));
    RawXor(Xor32(And32(x, y), And32(x, z)), And32(y, z));
  }
}
