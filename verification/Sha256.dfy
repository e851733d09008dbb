/** SHA-256 as FIPS 180-4 states it, over bytes and 32-bit words held as integers. */
module Fips180 {

  const WORD: int := 0x1_0000_0000

  type Byte = x: int | 0 <= x < 0x100
  type Word = x: int | 0 <= x < 0x1_0000_0000
  type Block = b: seq<Byte> | |b| == 64 witness seq(64, _ => 0)
  type Chain = c: seq<Word> | |c| == 8 witness seq(8, _ => 0)

  // ---- operations on words (section 3.2) -------------------------------------------

  function Pow2(n: nat): (p: nat)
    ensures p > 0
  {
    if n == 0 then 1 else 2 * Pow2(n - 1)
  }

  lemma Pow2Word()
    ensures Pow2(32) == WORD
  {
    assert Pow2(8) == 0x100 && Pow2(16) == 0x1_0000 && Pow2(24) == 0x100_0000;
  }

  datatype BitOp = AndOp | OrOp | XorOp

  function OnBits(op: BitOp, a: nat, b: nat): nat
    requires a < 2 && b < 2
  {
    match op
    case AndOp => if a + b == 2 then 1 else 0
    case OrOp => if a + b > 0 then 1 else 0
    case XorOp => (a + b) % 2
  }

  function Bitwise(op: BitOp, x: nat, y: nat): nat
    decreases x + y
  {
    if x == 0 && y == 0 then 0
    else 2 * Bitwise(op, x / 2, y / 2) + OnBits(op, x % 2, y % 2)
  }

  lemma {:induction false} BitwiseBound(op: BitOp, x: nat, y: nat, width: nat)
    requires x < Pow2(width) && y < Pow2(width)
    ensures Bitwise(op, x, y) < Pow2(width)
  {
    if width > 0 {
      BitwiseBound(op, x / 2, y / 2, width - 1);
    }
  }

  function OnWords(op: BitOp, x: Word, y: Word): Word {
    Pow2Word();
    BitwiseBound(op, x, y, 32);
    Bitwise(op, x, y)
  }

  function And(x: Word, y: Word): Word { OnWords(AndOp, x, y) }
  function Or(x: Word, y: Word): Word { OnWords(OrOp, x, y) }
  function Xor(x: Word, y: Word): Word { OnWords(XorOp, x, y) }
  function Not(x: Word): Word { WORD - 1 - x }

  /** Addition modulo 2^32. */
  function Add(x: Word, y: Word): Word {
    if x + y < WORD then x + y else x + y - WORD
  }

  /** Shifts, one position at a time. */
  function Shr(x: Word, n: nat): Word
    decreases n
  {
    if n == 0 then x else Shr(x / 2, n - 1)
  }

  function Shl(x: Word, n: nat): Word
    decreases n
  {
    if n == 0 then x else Shl(Add(x, x), n - 1)
  }

  function Rotr(x: Word, n: nat): Word
    requires 0 < n < 32
  {
    Or(Shr(x, n), Shl(x, 32 - n))
  }

  // ---- functions and constants (sections 4.1.2, 4.2.2, 5.3.3) ----------------------

  function Ch(x: Word, y: Word, z: Word): Word { Xor(And(x, y), And(Not(x), z)) }
  function Maj(x: Word, y: Word, z: Word): Word { Xor(Xor(And(x, y), And(x, z)), And(y, z)) }
  function BigSigma0(x: Word): Word { Xor(Xor(Rotr(x, 2), Rotr(x, 13)), Rotr(x, 22)) }
  function BigSigma1(x: Word): Word { Xor(Xor(Rotr(x, 6), Rotr(x, 11)), Rotr(x, 25)) }
  function SmallSigma0(x: Word): Word { Xor(Xor(Rotr(x, 7), Rotr(x, 18)), Shr(x, 3)) }
  function SmallSigma1(x: Word): Word { Xor(Xor(Rotr(x, 17), Rotr(x, 19)), Shr(x, 10)) }

  const K0: seq<Word> :=
    [0x428a2f98, 0x71374491, 0xb5c0fbcf, 0xe9b5dba5, 0x3956c25b, 0x59f111f1, 0x923f82a4, 0xab1c5ed5]
  const K1: seq<Word> :=
    [0xd807aa98, 0x12835b01, 0x243185be, 0x550c7dc3, 0x72be5d74, 0x80deb1fe, 0x9bdc06a7, 0xc19bf174]
  const K2: seq<Word> :=
    [0xe49b69c1, 0xefbe4786, 0x0fc19dc6, 0x240ca1cc, 0x2de92c6f, 0x4a7484aa, 0x5cb0a9dc, 0x76f988da]
  const K3: seq<Word> :=
    [0x983e5152, 0xa831c66d, 0xb00327c8, 0xbf597fc7, 0xc6e00bf3, 0xd5a79147, 0x06ca6351, 0x14292967]
  const K4: seq<Word> :=
    [0x27b70a85, 0x2e1b2138, 0x4d2c6dfc, 0x53380d13, 0x650a7354, 0x766a0abb, 0x81c2c92e, 0x92722c85]
  const K5: seq<Word> :=
    [0xa2bfe8a1, 0xa81a664b, 0xc24b8b70, 0xc76c51a3, 0xd192e819, 0xd6990624, 0xf40e3585, 0x106aa070]
  const K6: seq<Word> :=
    [0x19a4c116, 0x1e376c08, 0x2748774c, 0x34b0bcb5, 0x391c0cb3, 0x4ed8aa4a, 0x5b9cca4f, 0x682e6ff3]
  const K7: seq<Word> :=
    [0x748f82ee, 0x78a5636f, 0x84c87814, 0x8cc70208, 0x90befffa, 0xa4506ceb, 0xbef9a3f7, 0xc67178f2]

  function K(t: nat): Word
    requires t < 64
  {
    var row := if t < 8 then K0 else if t < 16 then K1 else if t < 24 then K2 else if t < 32 then K3
               else if t < 40 then K4 else if t < 48 then K5 else if t < 56 then K6 else K7;
    row[t % 8]
  }

  // Section 5.3.3
  const H0: Chain := [
    0x6a09e667, 0xbb67ae85, 0x3c6ef372, 0xa54ff53a, 0x510e527f, 0x9b05688c, 0x1f83d9ab, 0x5be0cd19]

  // ---- the hash computation (section 6.2.2) ------------------------------------------

  /** Big-endian reading of four bytes (section 3.1). */
  function WordOf(b0: Byte, b1: Byte, b2: Byte, b3: Byte): Word {
    ((b0 * 256 + b1) * 256 + b2) * 256 + b3
  }

  /** Step 1: the message schedule. */
  function W(block: Block, t: nat): Word
    requires t < 64
  {
    if t < 16 then WordOf(block[4 * t], block[4 * t + 1], block[4 * t + 2], block[4 * t + 3])
    else
      Add(Add(Add(SmallSigma1(W(block, t - 2)), W(block, t - 7)), SmallSigma0(W(block, t - 15))),
          W(block, t - 16))
  }

  /** Step 3: one round on the working variables a..h. */
  function Round(v: Chain, k: Word, w: Word): Chain {
    var t1 := Add(Add(Add(Add(v[7], BigSigma1(v[4])), Ch(v[4], v[5], v[6])), k), w);
    var t2 := Add(BigSigma0(v[0]), Maj(v[0], v[1], v[2]));
    [Add(t1, t2), v[0], v[1], v[2], Add(v[3], t1), v[4], v[5], v[6]]
  }

  function Schedule(block: Block): seq<Word> {
    seq(64, t requires 0 <= t < 64 => W(block, t))
  }

  function Rounds(v: Chain, schedule: seq<Word>): Chain
    requires |schedule| <= 64
  {
    if schedule == [] then v
    else
      var t := |schedule| - 1;
      Round(Rounds(v, schedule[..t]), K(t), schedule[t])
  }

  /** Steps 2 to 4: the intermediate hash value after one block. */
  function Compress(h: Chain, block: Block): Chain {
    var v := Rounds(h, Schedule(block));
    seq(8, i requires 0 <= i < 8 => Add(h[i], v[i]))
  }

  // ---- padding and the digest (sections 5.1.1, 5.2.1, 6.2.2) -----------------------

  function Zeros(n: nat): seq<Byte> { seq(n, _ => 0) }

  /** The n-byte big-endian notation of x. */
  function BigEndian(x: nat, n: nat): (b: seq<Byte>)
    ensures |b| == n
  {
    if n == 0 then [] else BigEndian(x / 256, n - 1) + [x % 256]
  }

  /** The least k >= 0 with length + 1 + k = 56 modulo 64, counting bytes. */
  function PadZeros(length: nat): (k: nat)
    ensures (length + 1 + k) % 64 == 56 && k < 64
  {
    (119 - length % 64) % 64
  }

  function PadWith(message: seq<Byte>, length: seq<Byte>): (m: seq<Byte>)
    requires |length| == 8
    ensures |m| % 64 == 0
  {
    message + [0x80] + Zeros(PadZeros(|message|)) + length
  }

  function Padded(message: seq<Byte>): (m: seq<Byte>)
    ensures |m| % 64 == 0
  {
    PadWith(message, BigEndian(8 * |message|, 8))
  }

  /** Left fold over the 64-byte blocks of m. */
  function Fold(step: (Chain, Block) -> Chain, h: Chain, m: seq<Byte>): Chain
    requires |m| % 64 == 0
    decreases |m|
  {
    if m == [] then h else Fold(step, step(h, m[..64]), m[64..])
  }

  /** One compression per block, in order. */
  function FoldBlocks(h: Chain, m: seq<Byte>): Chain
    requires |m| % 64 == 0
  {
    Fold(Compress, h, m)
  }

  function Digest(message: seq<Byte>): Chain {
    FoldBlocks(H0, Padded(message))
  }

  function HexDigit(n: nat): char
    requires n < 16
  {
    "0123456789abcdef"[n]
  }

  function ByteHex(b: Byte): string {
    [HexDigit(b / 16), HexDigit(b % 16)]
  }

  /** The digest as its 32 bytes, most significant byte of each word first. */
  function DigestBytes(h: Chain): (b: seq<Byte>)
    ensures |b| == 32
  {
    BigEndian(h[0], 4) + BigEndian(h[1], 4) + BigEndian(h[2], 4) + BigEndian(h[3], 4)
    + BigEndian(h[4], 4) + BigEndian(h[5], 4) + BigEndian(h[6], 4) + BigEndian(h[7], 4)
  }

  function Hex(bytes: seq<Byte>): string {
    if bytes == [] then "" else ByteHex(bytes[0]) + Hex(bytes[1..])
  }

  // ---- the constants are the ones the standard derives ---------------------------

  const P0: seq<nat> := [2, 3, 5, 7, 11, 13, 17, 19]
  const P1: seq<nat> := [23, 29, 31, 37, 41, 43, 47, 53]
  const P2: seq<nat> := [59, 61, 67, 71, 73, 79, 83, 89]
  const P3: seq<nat> := [97, 101, 103, 107, 109, 113, 127, 131]
  const P4: seq<nat> := [137, 139, 149, 151, 157, 163, 167, 173]
  const P5: seq<nat> := [179, 181, 191, 193, 197, 199, 211, 223]
  const P6: seq<nat> := [227, 229, 233, 239, 241, 251, 257, 263]
  const P7: seq<nat> := [269, 271, 277, 281, 283, 293, 307, 311]

  /** The first 64 primes. */
  function Prime(t: nat): nat
    requires t < 64
  {
    var row := if t < 8 then P0 else if t < 16 then P1 else if t < 24 then P2 else if t < 32 then P3
               else if t < 40 then P4 else if t < 48 then P5 else if t < 56 then P6 else P7;
    row[t % 8]
  }

  /** w is the first 32 bits of the fractional part of the cube root of p, whose
      integer part is a: the real root lies in [c, c + 1) / 2^32 for c = a * 2^32 + w. */
  ghost predicate CubeRootBits(w: Word, a: nat, p: nat) {
    var c := a * WORD + w;
    c * c * c <= p * 0x1_0000_0000_0000_0000_0000_0000 < (c + 1) * (c + 1) * (c + 1)
  }

  ghost predicate SquareRootBits(w: Word, a: nat, p: nat) {
    var c := a * WORD + w;
    c * c <= p * 0x1_0000_0000_0000_0000 < (c + 1) * (c + 1)
  }

  ghost predicate DerivedRow(k: seq<Word>, p: seq<nat>) {
    |k| == |p| == 8 && forall i :: 0 <= i < 8 ==> exists a :: CubeRootBits(k[i], a, p[i])
  }

  lemma Row0Derived()
    ensures DerivedRow(K0, P0)
  {
    assert CubeRootBits(K0[0], 1, P0[0]);
    assert CubeRootBits(K0[1], 1, P0[1]);
    assert CubeRootBits(K0[2], 1, P0[2]);
    assert CubeRootBits(K0[3], 1, P0[3]);
    assert CubeRootBits(K0[4], 2, P0[4]);
    assert CubeRootBits(K0[5], 2, P0[5]);
    assert CubeRootBits(K0[6], 2, P0[6]);
    assert CubeRootBits(K0[7], 2, P0[7]);
  }

  lemma Row1Derived()
    ensures DerivedRow(K1, P1)
  {
    assert CubeRootBits(K1[0], 2, P1[0]);
    assert CubeRootBits(K1[1], 3, P1[1]);
    assert CubeRootBits(K1[2], 3, P1[2]);
    assert CubeRootBits(K1[3], 3, P1[3]);
    assert CubeRootBits(K1[4], 3, P1[4]);
    assert CubeRootBits(K1[5], 3, P1[5]);
    assert CubeRootBits(K1[6], 3, P1[6]);
    assert CubeRootBits(K1[7], 3, P1[7]);
  }

  lemma Row2Derived()
    ensures DerivedRow(K2, P2)
  {
    assert CubeRootBits(K2[0], 3, P2[0]);
    assert CubeRootBits(K2[1], 3, P2[1]);
    assert CubeRootBits(K2[2], 4, P2[2]);
    assert CubeRootBits(K2[3], 4, P2[3]);
    assert CubeRootBits(K2[4], 4, P2[4]);
    assert CubeRootBits(K2[5], 4, P2[5]);
    assert CubeRootBits(K2[6], 4, P2[6]);
    assert CubeRootBits(K2[7], 4, P2[7]);
  }

  lemma Row3Derived()
    ensures DerivedRow(K3, P3)
  {
    assert CubeRootBits(K3[0], 4, P3[0]);
    assert CubeRootBits(K3[1], 4, P3[1]);
    assert CubeRootBits(K3[2], 4, P3[2]);
    assert CubeRootBits(K3[3], 4, P3[3]);
    assert CubeRootBits(K3[4], 4, P3[4]);
    assert CubeRootBits(K3[5], 4, P3[5]);
    assert CubeRootBits(K3[6], 5, P3[6]);
    assert CubeRootBits(K3[7], 5, P3[7]);
  }

  lemma Row4Derived()
    ensures DerivedRow(K4, P4)
  {
    assert CubeRootBits(K4[0], 5, P4[0]);
    assert CubeRootBits(K4[1], 5, P4[1]);
    assert CubeRootBits(K4[2], 5, P4[2]);
    assert CubeRootBits(K4[3], 5, P4[3]);
    assert CubeRootBits(K4[4], 5, P4[4]);
    assert CubeRootBits(K4[5], 5, P4[5]);
    assert CubeRootBits(K4[6], 5, P4[6]);
    assert CubeRootBits(K4[7], 5, P4[7]);
  }

  lemma Row5Derived()
    ensures DerivedRow(K5, P5)
  {
    assert CubeRootBits(K5[0], 5, P5[0]);
    assert CubeRootBits(K5[1], 5, P5[1]);
    assert CubeRootBits(K5[2], 5, P5[2]);
    assert CubeRootBits(K5[3], 5, P5[3]);
    assert CubeRootBits(K5[4], 5, P5[4]);
    assert CubeRootBits(K5[5], 5, P5[5]);
    assert CubeRootBits(K5[6], 5, P5[6]);
    assert CubeRootBits(K5[7], 6, P5[7]);
  }

  lemma Row6Derived()
    ensures DerivedRow(K6, P6)
  {
    assert CubeRootBits(K6[0], 6, P6[0]);
    assert CubeRootBits(K6[1], 6, P6[1]);
    assert CubeRootBits(K6[2], 6, P6[2]);
    assert CubeRootBits(K6[3], 6, P6[3]);
    assert CubeRootBits(K6[4], 6, P6[4]);
    assert CubeRootBits(K6[5], 6, P6[5]);
    assert CubeRootBits(K6[6], 6, P6[6]);
    assert CubeRootBits(K6[7], 6, P6[7]);
  }

  lemma Row7Derived()
    ensures DerivedRow(K7, P7)
  {
    assert CubeRootBits(K7[0], 6, P7[0]);
    assert CubeRootBits(K7[1], 6, P7[1]);
    assert CubeRootBits(K7[2], 6, P7[2]);
    assert CubeRootBits(K7[3], 6, P7[3]);
    assert CubeRootBits(K7[4], 6, P7[4]);
    assert CubeRootBits(K7[5], 6, P7[5]);
    assert CubeRootBits(K7[6], 6, P7[6]);
    assert CubeRootBits(K7[7], 6, P7[7]);
  }

  /** Section 4.2.2: K(t) is the first 32 bits of the fractional part of the cube
      root of the t-th prime. */
  lemma RoundConstants(t: nat)
    requires t < 64
    ensures exists a :: CubeRootBits(K(t), a, Prime(t))
  {
    var i := t % 8;
    if t < 8 { Row0Derived(); assert K(t) == K0[i] && Prime(t) == P0[i]; }
    else if t < 16 { Row1Derived(); assert K(t) == K1[i] && Prime(t) == P1[i]; }
    else if t < 24 { Row2Derived(); assert K(t) == K2[i] && Prime(t) == P2[i]; }
    else if t < 32 { Row3Derived(); assert K(t) == K3[i] && Prime(t) == P3[i]; }
    else if t < 40 { Row4Derived(); assert K(t) == K4[i] && Prime(t) == P4[i]; }
    else if t < 48 { Row5Derived(); assert K(t) == K5[i] && Prime(t) == P5[i]; }
    else if t < 56 { Row6Derived(); assert K(t) == K6[i] && Prime(t) == P6[i]; }
    else { Row7Derived(); assert K(t) == K7[i] && Prime(t) == P7[i]; }
  }

  /** Section 5.3.3: likewise with square roots and the first eight primes. */
  lemma InitialValues(i: nat)
    requires i < 8
    ensures exists a :: SquareRootBits(H0[i], a, Prime(i))
  {
    if
    case i == 0 => assert SquareRootBits(H0[0], 1, Prime(0));
    case i == 1 => assert SquareRootBits(H0[1], 1, Prime(1));
    case i == 2 => assert SquareRootBits(H0[2], 2, Prime(2));
    case i == 3 => assert SquareRootBits(H0[3], 2, Prime(3));
    case i == 4 => assert SquareRootBits(H0[4], 3, Prime(4));
    case i == 5 => assert SquareRootBits(H0[5], 3, Prime(5));
    case i == 6 => assert SquareRootBits(H0[6], 4, Prime(6));
    case i == 7 => assert SquareRootBits(H0[7], 4, Prime(7));
  }
}

/** The miner's own SHA-256: one in-place block transform, a block loop over the
    input, and a tail of one or two blocks built in a scratch buffer. */
module Sha256 {
  import opened Fips180

  lemma AddAssociates(a: Word, b: Word, c: Word)
    ensures Add(Add(a, b), c) == Add(a, Add(b, c))
  {
  }

  lemma AddCommutes(a: Word, b: Word)
    ensures Add(a, b) == Add(b, a)
  {
  }

  lemma AddReversed(a: Word, b: Word, c: Word, d: Word)
    ensures Add(Add(Add(a, b), c), d) == Add(Add(Add(d, c), b), a)
  {
    hide Add;
    AddCommutes(Add(Add(a, b), c), d);
    AddCommutes(Add(a, b), c);
    AddCommutes(a, b);
    AddAssociates(d, c, Add(b, a));
    AddAssociates(Add(d, c), b, a);
  }

  /** The schedule word in the order the code adds it up. */
  lemma ScheduleSum(block: Block, t: nat)
    requires 16 <= t < 64
    ensures W(block, t)
            == Add(Add(Add(W(block, t - 16), SmallSigma0(W(block, t - 15))), W(block, t - 7)),
                   SmallSigma1(W(block, t - 2)))
  {
    hide Add, SmallSigma0, SmallSigma1;
    AddReversed(SmallSigma1(W(block, t - 2)), W(block, t - 7), SmallSigma0(W(block, t - 15)), W(block, t - 16));
  }

  /** The schedule loop: fills w[0..64]. */
  method FillSchedule(w: array<Word>, bytes: seq<Byte>)
    requires w.Length == 64 && |bytes| == 64
    modifies w
    ensures w[..] == Schedule(bytes)
  {
    hide Add, Xor, And, Not, Shr, Rotr, WordOf;
    for i := 0 to 16
      invariant forall j :: 0 <= j < i ==> w[j] == W(bytes, j)
    {
      w[i] := WordOf(bytes[i * 4], bytes[i * 4 + 1], bytes[i * 4 + 2], bytes[i * 4 + 3]);
    }
    for i := 16 to 64
      invariant forall j :: 0 <= j < i ==> w[j] == W(bytes, j)
    {
      var s0 := Xor(Xor(Rotr(w[i - 15], 7), Rotr(w[i - 15], 18)), Shr(w[i - 15], 3));
      var s1 := Xor(Xor(Rotr(w[i - 2], 17), Rotr(w[i - 2], 19)), Shr(w[i - 2], 10));
      ScheduleSum(bytes, i);
      w[i] := Add(Add(Add(w[i - 16], s0), w[i - 7]), s1);
    }
  }

  method RunRounds(h0: Chain, w: array<Word>) returns (v: Chain)
    requires w.Length == 64
    ensures v == Rounds(h0, w[..])
  {
    hide Add, Xor, And, Not, Rotr, K;
    ghost var ws := w[..];
    var a, b, c, d := h0[0], h0[1], h0[2], h0[3];
    var e, f, g, h := h0[4], h0[5], h0[6], h0[7];
    for i := 0 to 64
      invariant [a, b, c, d, e, f, g, h] == Rounds(h0, ws[..i])
    {
      assert ws[..i + 1][..i] == ws[..i];
      var S1 := Xor(Xor(Rotr(e, 6), Rotr(e, 11)), Rotr(e, 25));
      var ch := Xor(And(e, f), And(Not(e), g));
      var t1 := Add(Add(Add(Add(h, S1), ch), K(i)), w[i]);
      var S0 := Xor(Xor(Rotr(a, 2), Rotr(a, 13)), Rotr(a, 22));
      var maj := Xor(Xor(And(a, b), And(a, c)), And(b, c));
      var t2 := Add(S0, maj);
      h := g;
      g := f;
      f := e;
      e := Add(d, t1);
      d := c;
      c := b;
      b := a;
      a := Add(t1, t2);
    }
    assert ws[..64] == ws;
    v := [a, b, c, d, e, f, g, h];
  }

  method Transform(state: array<Word>, bytes: seq<Byte>)
    requires state.Length == 8 && |bytes| == 64
    modifies state
    ensures state[..] == Compress(old(state[..]), bytes)
  {
    hide Add, Rounds, W;
    var w := new Word[64];
    FillSchedule(w, bytes);
    var v := RunRounds(state[..], w);
    for i := 0 to 8
      invariant forall j :: 0 <= j < 8 ==> state[j] == if j < i then Add(old(state[j]), v[j]) else old(state[j])
    {
      state[i] := Add(state[i], v[i]);
    }
  }

  // ---- padding as the code lays it out ----------------------------------------------

  lemma {:induction false} FoldAppend(step: (Chain, Block) -> Chain, h: Chain, m: seq<Byte>, n: seq<Byte>)
    requires |m| % 64 == 0 && |n| % 64 == 0
    ensures Fold(step, h, m + n) == Fold(step, Fold(step, h, m), n)
    decreases |m|
  {
    if m == [] {
      assert m + n == n;
    } else {
      assert (m + n)[..64] == m[..64] && (m + n)[64..] == m[64..] + n;
      FoldAppend(step, step(h, m[..64]), m[64..], n);
    }
  }

  lemma {:induction false} FoldOne(h: Chain, m: seq<Byte>, b: Block)
    requires |m| % 64 == 0
    ensures FoldBlocks(h, m + b) == Compress(FoldBlocks(h, m), b)
  {
    hide Compress;
    FoldAppend(Compress, h, m, b);
    assert b[..64] == b && b[64..] == [];
  }

  /** Fewer than 56 bytes left over: marker and length fit in the same block. */
  lemma ShortTail(data: seq<Byte>, offset: nat, length: seq<Byte>)
    requires offset <= |data| < offset + 56 && offset % 64 == 0 && |length| == 8
    ensures PadWith(data, length)
            == data[..offset] + (data[offset..] + [0x80] + Zeros(55 - (|data| - offset)) + length)
  {
    var rem := |data| - offset;
    assert |data| % 64 == rem;
    assert PadZeros(|data|) == 55 - rem;
    assert data == data[..offset] + data[offset..];
  }

  /** Otherwise the marker closes one block and the length has the next to itself. */
  lemma LongTail(data: seq<Byte>, offset: nat, length: seq<Byte>)
    requires offset + 56 <= |data| < offset + 64 && offset % 64 == 0 && |length| == 8
    ensures PadWith(data, length)
            == data[..offset] + (data[offset..] + [0x80] + Zeros(63 - (|data| - offset)))
               + (Zeros(56) + length)
  {
    var rem := |data| - offset;
    assert |data| % 64 == rem;
    assert PadZeros(|data|) == 119 - rem;
    assert data == data[..offset] + data[offset..];
    assert Zeros(119 - rem) == Zeros(63 - rem) + Zeros(56);
  }

  function Pow256(n: nat): (p: nat)
    ensures p > 0
  {
    if n == 0 then 1 else 256 * Pow256(n - 1)
  }

  lemma MulStep(b: nat, x: nat, y: nat)
    requires x < y
    ensures b * x + b <= b * y
  {
    hide *;
    var d := y - x - 1;
    assert y == x + 1 + d;
    assert b * y == b * x + b + b * d;
  }

  lemma QuotientUnique(b: nat, q: nat, r: nat)
    requires r < b
    ensures (b * q + r) / b == q
  {
    hide *;
    var z := b * q + r;
    var p := z / b;
    assert z == b * p + z % b;
    if p < q {
      MulStep(b, p, q);
    } else if q < p {
      MulStep(b, q, p);
    }
  }

  lemma DivDiv(x: nat, a: nat, b: nat)
    requires a > 0 && b > 0
    ensures a * b > 0 && (x / a) / b == x / (a * b)
  {
    hide *;
    var u, t := x / a, x % a;
    var q, s := u / b, u % b;
    assert x == a * u + t;
    assert u == b * q + s;
    Assemble(a, b, q, s, t);
    QuotientUnique(a * b, q, a * s + t);
  }

  lemma Assemble(a: nat, b: nat, q: nat, s: nat, t: nat)
    requires s < b && t < a
    ensures a * (b * q + s) + t == a * b * q + (a * s + t)
    ensures a * s + t < a * b
  {
    hide *;
    MulStep(a, s, b);
    Spread(a, b, q, s);
  }

  lemma Spread(a: nat, b: nat, q: nat, s: nat)
    ensures a * (b * q + s) == a * b * q + a * s
  {
    hide *;
  }

  /** Byte i from the low end, as the code extracts it by shifting. */
  lemma {:induction false} BigEndianAt(x: nat, n: nat, i: nat)
    requires i < n
    ensures BigEndian(x, n)[n - 1 - i] == (x / Pow256(i)) % 256
  {
    if i > 0 {
      BigEndianAt(x / 256, n - 1, i - 1);
      DivDiv(x, 256, Pow256(i - 1));
    }
  }

  // ---- sha256_hex ------------------------------------------------------------------

  method StoreLength(block: array<Byte>, bitLen: nat)
    requires block.Length == 64
    modifies block
    ensures block[..] == old(block[..56]) + BigEndian(bitLen, 8)
  {
    for i := 0 to 8
      invariant forall j :: 0 <= j < 64 - i ==> block[j] == old(block[j])
      invariant forall j :: 64 - i <= j < 64 ==> block[j] == BigEndian(bitLen, 8)[j - 56]
    {
      BigEndianAt(bitLen, 8, i);
      block[63 - i] := (bitLen / Pow256(i)) % 256;
    }
  }

  method Finish(state: array<Word>, data: seq<Byte>, offset: nat)
    requires state.Length == 8
    requires offset <= |data| < offset + 64 && offset % 64 == 0
    requires state[..] == FoldBlocks(H0, data[..offset])
    modifies state
    ensures state[..] == Digest(data)
  {
    hide Compress, PadWith, BigEndian, Fold;
    var rem := |data| - offset;
    ghost var head, h := data[..offset], state[..];
    var block := new Byte[64](_ => 0);
    forall i | 0 <= i < rem {
      block[i] := data[offset + i];
    }
    block[rem] := 0x80;
    assert state[..] == h;
    if rem >= 56 {
      LongTail(data, offset, BigEndian(8 * |data|, 8));
      ghost var full := block[..];
      assert full == data[offset..] + [0x80] + Zeros(63 - rem);
      Transform(state, block[..]);
      assert state[..] == Compress(h, full);
      FoldOne(H0, head, full);
      assert state[..] == FoldBlocks(H0, head + full);
      head := head + full;
      forall i | 0 <= i < 64 {
        block[i] := 0;
      }
      assert block[..56] == Zeros(56);
    } else {
      ShortTail(data, offset, BigEndian(8 * |data|, 8));
      assert block[..56] == data[offset..] + [0x80] + Zeros(55 - rem);
    }
    h := state[..];
    assert h == FoldBlocks(H0, head);
    StoreLength(block, 8 * |data|);
    ghost var last := block[..];
    assert Padded(data) == head + last;
    FoldOne(H0, head, last);
    Transform(state, block[..]);
    assert state[..] == Compress(h, last);
  }

  /** sha256_hex: the first prefixBytes bytes of the digest in hexadecimal; 0 and
      anything above 32 mean all 32. */
  method Sha256Hex(data: seq<Byte>, prefixBytes: nat) returns (hex: string)
    requires 8 * |data| < 0x1_0000_0000_0000_0000
    ensures hex == Hex(DigestBytes(Digest(data))[..if prefixBytes == 0 || prefixBytes > 32 then 32 else prefixBytes])
  {
    hide Compress, DigestBytes, Digest, Hex, Pow256;
    NothingYet(data);
    var state := new Word[8](i requires 0 <= i < 8 => H0[i]);
    assert state[..] == H0;
    var offset := 0;
    while offset + 64 <= |data|
      invariant offset <= |data| && offset % 64 == 0
      invariant state[..] == FoldBlocks(H0, data[..offset])
    {
      FoldOne(H0, data[..offset], data[offset..offset + 64]);
      assert data[..offset + 64] == data[..offset] + data[offset..offset + 64];
      Transform(state, data[offset..offset + 64]);
      offset := offset + 64;
    }
    Finish(state, data, offset);
    ghost var digest := DigestBytes(Digest(data));
    var count := if prefixBytes == 0 || prefixBytes > 32 then 32 else prefixBytes;
    hex := "";
    for i := 0 to count
      invariant state[..] == Digest(data)
      invariant hex == Hex(digest[..i])
    {
      var b := (state[i / 4] / Pow256(3 - i % 4)) % 256;
      DigestSnoc(state[..], i);
      hex := hex + ByteHex(b);
    }
  }

  lemma NothingYet(data: seq<Byte>)
    ensures FoldBlocks(H0, data[..0]) == H0
    ensures forall h: Chain :: Hex(DigestBytes(h)[..0]) == ""
  {
    assert data[..0] == [];
  }

  lemma DigestSnoc(h: Chain, i: nat)
    requires i < 32
    ensures var b := (h[i / 4] / Pow256(3 - i % 4)) % 256;
            Hex(DigestBytes(h)[..i + 1]) == Hex(DigestBytes(h)[..i]) + ByteHex(b)
  {
    hide Hex, DigestBytes, Pow256, ByteHex;
    DigestByteAt(h, i);
    var digest := DigestBytes(h);
    assert digest[..i + 1] == digest[..i] + [digest[i]];
    HexAppend(digest[..i], digest[i]);
  }

  lemma DigestByteAt(h: Chain, i: nat)
    requires i < 32
    ensures |DigestBytes(h)| == 32 && DigestBytes(h)[i] == (h[i / 4] / Pow256(3 - i % 4)) % 256
  {
    BigEndianAt(h[i / 4], 4, 3 - i % 4);
  }

  lemma {:induction false} HexAppend(bytes: seq<Byte>, b: Byte)
    ensures Hex(bytes + [b]) == Hex(bytes) + ByteHex(b)
  {
    if bytes == [] {
      assert bytes + [b] == [b];
    } else {
      assert (bytes + [b])[1..] == bytes[1..] + [b];
      HexAppend(bytes[1..], b);
    }
  }
}
