/** The one-block example of FIPS 180-2, appendix B.1, the message "abc": its schedule and the
    working variables after every eighth round, down to the digest the standard prints. */
module Fips180Example {
  import opened Fips180
  import opened Fips180Vectors

  // ---- one step, computed on vectors --------------------------------------------------

  /** The word a vector stands for. */
  function X(v: bv32): Word { WordOf32(Bits(v)) }

  function Words(a: bv32, b: bv32, c: bv32, d: bv32, e: bv32, f: bv32, g: bv32, h: bv32): Chain {
    [X(a), X(b), X(c), X(d), X(e), X(f), X(g), X(h)]
  }

  lemma XIs(v: bv32)
    ensures X(v) == Sum(v)
  {
    hide WordOf32, Sum;
    SumIs(Bits(v));
  }

  lemma Reduced(a: Word, b: Word)
    ensures Add(a, b) == (a + b) % WORD
  {
  }

  lemma FourReduced(a: Word, b: Word, c: Word, d: Word)
    ensures Add(Add(Add(a, b), c), d) == (a + b + c + d) % WORD
  {
  }

  lemma FiveReduced(a: Word, b: Word, c: Word, d: Word, e: Word)
    ensures Add(Add(Add(Add(a, b), c), d), e) == (a + b + c + d + e) % WORD
  {
  }

  lemma AddReduced(a: Word, n: nat)
    ensures Add(a, n % WORD) == (a + n) % WORD
  {
  }

  lemma AddBoth(m: nat, n: nat)
    ensures Add(m % WORD, n % WORD) == (m + n) % WORD
  {
  }

  function FirstSum(e: bv32, f: bv32, g: bv32, h: bv32, k: Word, w: bv32): nat {
    Sum(h) + Sum(RawBig1(e)) + Sum(RawChoice(e, f, g)) + k + Sum(w)
  }

  function SecondSum(a: bv32, b: bv32, c: bv32): nat {
    Sum(RawBig0(a)) + Sum(RawMajority(a, b, c))
  }

  lemma FirstSumIs(e: bv32, f: bv32, g: bv32, h: bv32, k: Word, w: bv32)
    ensures Add(Add(Add(Add(X(h), BigSigma1(X(e))), Ch(X(e), X(f), X(g))), k), X(w))
            == FirstSum(e, f, g, h, k, w) % WORD
  {
    hide WordOf32, Sum, RawBig1, RawChoice, Big1, Choice, BigSigma1, Ch, Add;
    Big1Is(Bits(e));
    RawBig1Is(e);
    ChoiceIs(Bits(e), Bits(f), Bits(g));
    RawChoiceIs(e, f, g);
    XIs(h);
    XIs(w);
    XIs(RawBig1(e));
    XIs(RawChoice(e, f, g));
    FiveReduced(X(h), X(RawBig1(e)), X(RawChoice(e, f, g)), k, X(w));
  }

  lemma SecondSumIs(a: bv32, b: bv32, c: bv32)
    ensures Add(BigSigma0(X(a)), Maj(X(a), X(b), X(c))) == SecondSum(a, b, c) % WORD
  {
    hide WordOf32, Sum, RawBig0, RawMajority, Big0, Majority, BigSigma0, Maj, Add;
    Big0Is(Bits(a));
    RawBig0Is(a);
    MajorityIs(Bits(a), Bits(b), Bits(c));
    RawMajorityIs(a, b, c);
    XIs(RawBig0(a));
    XIs(RawMajority(a, b, c));
    Reduced(X(RawBig0(a)), X(RawMajority(a, b, c)));
  }

  lemma RoundIs(a: bv32, b: bv32, c: bv32, d: bv32, e: bv32, f: bv32, g: bv32, h: bv32, k: Word, w: bv32,
                a2: bv32, e2: bv32)
    requires (FirstSum(e, f, g, h, k, w) + SecondSum(a, b, c)) % WORD == Sum(a2)
    requires (Sum(d) + FirstSum(e, f, g, h, k, w)) % WORD == Sum(e2)
    ensures Round(Words(a, b, c, d, e, f, g, h), k, X(w)) == Words(a2, a, b, c, e2, e, f, g)
  {
    hide X, Sum, FirstSum, SecondSum, BigSigma0, BigSigma1, Ch, Maj, Add;
    FirstSumIs(e, f, g, h, k, w);
    SecondSumIs(a, b, c);
    XIs(d);
    XIs(a2);
    XIs(e2);
    AddBoth(FirstSum(e, f, g, h, k, w), SecondSum(a, b, c));
    AddReduced(X(d), FirstSum(e, f, g, h, k, w));
  }

  /** The working variables of the first t rounds on a block. */
  function After(b: Block, t: nat): Chain
    requires t <= 64
  {
    Rounds(H0, Schedule(b)[..t])
  }

  lemma Step(m: Block, t: nat, a: bv32, b: bv32, c: bv32, d: bv32, e: bv32, f: bv32, g: bv32, h: bv32,
             k: Word, w: bv32, a2: bv32, e2: bv32)
    requires t < 64
    requires After(m, t) == Words(a, b, c, d, e, f, g, h)
    requires K(t) == k && W(m, t) == X(w)
    requires (FirstSum(e, f, g, h, k, w) + SecondSum(a, b, c)) % WORD == Sum(a2)
    requires (Sum(d) + FirstSum(e, f, g, h, k, w)) % WORD == Sum(e2)
    ensures After(m, t + 1) == Words(a2, a, b, c, e2, e, f, g)
  {
    hide X, Sum, FirstSum, SecondSum, Round, K, W, Words;
    assert Schedule(m)[..t + 1][..t] == Schedule(m)[..t];
    RoundIs(a, b, c, d, e, f, g, h, k, w, a2, e2);
  }

  /** Word t of the schedule, from the four it is made of. */
  lemma NextWord(m: Block, t: nat, w2: bv32, w7: bv32, w15: bv32, w16: bv32, w: bv32)
    requires 16 <= t < 64
    requires W(m, t - 2) == X(w2) && W(m, t - 7) == X(w7) && W(m, t - 15) == X(w15) && W(m, t - 16) == X(w16)
    requires (Sum(RawSmall1(w2)) + Sum(w7) + Sum(RawSmall0(w15)) + Sum(w16)) % WORD == Sum(w)
    ensures W(m, t) == X(w)
  {
    hide WordOf32, Sum, RawSmall0, RawSmall1, Small0, Small1, SmallSigma0, SmallSigma1, Add;
    Small1Is(Bits(w2));
    RawSmall1Is(w2);
    Small0Is(Bits(w15));
    RawSmall0Is(w15);
    XIs(RawSmall1(w2));
    XIs(RawSmall0(w15));
    XIs(w7);
    XIs(w16);
    XIs(w);
    FourReduced(X(RawSmall1(w2)), X(w7), X(RawSmall0(w15)), X(w16));
  }

  // ---- the message schedule -----------------------------------------------------------

  /** Words 8i to 8i + 7 of the schedule. */
  ghost predicate Row(m: Block, i: nat, w0: bv32, w1: bv32, w2: bv32, w3: bv32, w4: bv32, w5: bv32, w6: bv32, w7: bv32)
    requires i < 8
  {
    W(m, 8 * i) == X(w0) && W(m, 8 * i + 1) == X(w1) && W(m, 8 * i + 2) == X(w2) && W(m, 8 * i + 3) == X(w3)
    && W(m, 8 * i + 4) == X(w4) && W(m, 8 * i + 5) == X(w5) && W(m, 8 * i + 6) == X(w6) && W(m, 8 * i + 7) == X(w7)
  }

  ghost predicate Row0(m: Block) {
    Row(m, 0, 0x61626380, 0x00000000, 0x00000000, 0x00000000, 0x00000000, 0x00000000, 0x00000000, 0x00000000)
  }

  ghost predicate Row1(m: Block) {
    Row(m, 1, 0x00000000, 0x00000000, 0x00000000, 0x00000000, 0x00000000, 0x00000000, 0x00000000, 0x00000018)
  }

  ghost predicate Row2(m: Block) {
    Row(m, 2, 0x61626380, 0x000f0000, 0x7da86405, 0x600003c6, 0x3e9d7b78, 0x0183fc00, 0x12dcbfdb, 0xe2e2c38e)
  }

  ghost predicate Row3(m: Block) {
    Row(m, 3, 0xc8215c1a, 0xb73679a2, 0xe5bc3909, 0x32663c5b, 0x9d209d67, 0xec8726cb, 0x702138a4, 0xd3b7973b)
  }

  ghost predicate Row4(m: Block) {
    Row(m, 4, 0x93f5997f, 0x3b68ba73, 0xaff4ffc1, 0xf10a5c62, 0x0a8b3996, 0x72af830a, 0x9409e33e, 0x24641522)
  }

  ghost predicate Row5(m: Block) {
    Row(m, 5, 0x9f47bf94, 0xf0a64f5a, 0x3e246a79, 0x27333ba3, 0x0c4763f2, 0x840abf27, 0x7a290d5d, 0x065c43da)
  }

  ghost predicate Row6(m: Block) {
    Row(m, 6, 0xfb3e89cb, 0xcc7617db, 0xb9e66c34, 0xa9993667, 0x84badedd, 0xc21462bc, 0x1487472c, 0xb20f7a99)
  }

  ghost predicate Row7(m: Block) {
    Row(m, 7, 0xef57b9cd, 0xebe6b238, 0x9fe3095e, 0x78bc8d4b, 0xa43fcf15, 0x668b2ff8, 0xeeaba2cc, 0x12b1edeb)
  }

  lemma ScheduleRow2(m: Block)
    requires Row0(m) && Row1(m)
    ensures Row2(m)
  {
    hide W, X;
    NextWord(m, 16, 0x00000000, 0x00000000, 0x00000000, 0x61626380, 0x61626380);
    NextWord(m, 17, 0x00000018, 0x00000000, 0x00000000, 0x00000000, 0x000f0000);
    NextWord(m, 18, 0x61626380, 0x00000000, 0x00000000, 0x00000000, 0x7da86405);
    NextWord(m, 19, 0x000f0000, 0x00000000, 0x00000000, 0x00000000, 0x600003c6);
    NextWord(m, 20, 0x7da86405, 0x00000000, 0x00000000, 0x00000000, 0x3e9d7b78);
    NextWord(m, 21, 0x600003c6, 0x00000000, 0x00000000, 0x00000000, 0x0183fc00);
    NextWord(m, 22, 0x3e9d7b78, 0x00000018, 0x00000000, 0x00000000, 0x12dcbfdb);
    NextWord(m, 23, 0x0183fc00, 0x61626380, 0x00000000, 0x00000000, 0xe2e2c38e);
  }

  lemma ScheduleRow3(m: Block)
    requires Row1(m) && Row2(m)
    ensures Row3(m)
  {
    hide W, X;
    NextWord(m, 24, 0x12dcbfdb, 0x000f0000, 0x00000000, 0x00000000, 0xc8215c1a);
    NextWord(m, 25, 0xe2e2c38e, 0x7da86405, 0x00000000, 0x00000000, 0xb73679a2);
    NextWord(m, 26, 0xc8215c1a, 0x600003c6, 0x00000000, 0x00000000, 0xe5bc3909);
    NextWord(m, 27, 0xb73679a2, 0x3e9d7b78, 0x00000000, 0x00000000, 0x32663c5b);
    NextWord(m, 28, 0xe5bc3909, 0x0183fc00, 0x00000000, 0x00000000, 0x9d209d67);
    NextWord(m, 29, 0x32663c5b, 0x12dcbfdb, 0x00000000, 0x00000000, 0xec8726cb);
    NextWord(m, 30, 0x9d209d67, 0xe2e2c38e, 0x00000018, 0x00000000, 0x702138a4);
    NextWord(m, 31, 0xec8726cb, 0xc8215c1a, 0x61626380, 0x00000018, 0xd3b7973b);
  }

  lemma ScheduleRow4(m: Block)
    requires Row2(m) && Row3(m)
    ensures Row4(m)
  {
    hide W, X;
    NextWord(m, 32, 0x702138a4, 0xb73679a2, 0x000f0000, 0x61626380, 0x93f5997f);
    NextWord(m, 33, 0xd3b7973b, 0xe5bc3909, 0x7da86405, 0x000f0000, 0x3b68ba73);
    NextWord(m, 34, 0x93f5997f, 0x32663c5b, 0x600003c6, 0x7da86405, 0xaff4ffc1);
    NextWord(m, 35, 0x3b68ba73, 0x9d209d67, 0x3e9d7b78, 0x600003c6, 0xf10a5c62);
    NextWord(m, 36, 0xaff4ffc1, 0xec8726cb, 0x0183fc00, 0x3e9d7b78, 0x0a8b3996);
    NextWord(m, 37, 0xf10a5c62, 0x702138a4, 0x12dcbfdb, 0x0183fc00, 0x72af830a);
    NextWord(m, 38, 0x0a8b3996, 0xd3b7973b, 0xe2e2c38e, 0x12dcbfdb, 0x9409e33e);
    NextWord(m, 39, 0x72af830a, 0x93f5997f, 0xc8215c1a, 0xe2e2c38e, 0x24641522);
  }

  lemma ScheduleRow5(m: Block)
    requires Row3(m) && Row4(m)
    ensures Row5(m)
  {
    hide W, X;
    NextWord(m, 40, 0x9409e33e, 0x3b68ba73, 0xb73679a2, 0xc8215c1a, 0x9f47bf94);
    NextWord(m, 41, 0x24641522, 0xaff4ffc1, 0xe5bc3909, 0xb73679a2, 0xf0a64f5a);
    NextWord(m, 42, 0x9f47bf94, 0xf10a5c62, 0x32663c5b, 0xe5bc3909, 0x3e246a79);
    NextWord(m, 43, 0xf0a64f5a, 0x0a8b3996, 0x9d209d67, 0x32663c5b, 0x27333ba3);
    NextWord(m, 44, 0x3e246a79, 0x72af830a, 0xec8726cb, 0x9d209d67, 0x0c4763f2);
    NextWord(m, 45, 0x27333ba3, 0x9409e33e, 0x702138a4, 0xec8726cb, 0x840abf27);
    NextWord(m, 46, 0x0c4763f2, 0x24641522, 0xd3b7973b, 0x702138a4, 0x7a290d5d);
    NextWord(m, 47, 0x840abf27, 0x9f47bf94, 0x93f5997f, 0xd3b7973b, 0x065c43da);
  }

  lemma ScheduleRow6(m: Block)
    requires Row4(m) && Row5(m)
    ensures Row6(m)
  {
    hide W, X;
    NextWord(m, 48, 0x7a290d5d, 0xf0a64f5a, 0x3b68ba73, 0x93f5997f, 0xfb3e89cb);
    NextWord(m, 49, 0x065c43da, 0x3e246a79, 0xaff4ffc1, 0x3b68ba73, 0xcc7617db);
    NextWord(m, 50, 0xfb3e89cb, 0x27333ba3, 0xf10a5c62, 0xaff4ffc1, 0xb9e66c34);
    NextWord(m, 51, 0xcc7617db, 0x0c4763f2, 0x0a8b3996, 0xf10a5c62, 0xa9993667);
    NextWord(m, 52, 0xb9e66c34, 0x840abf27, 0x72af830a, 0x0a8b3996, 0x84badedd);
    NextWord(m, 53, 0xa9993667, 0x7a290d5d, 0x9409e33e, 0x72af830a, 0xc21462bc);
    NextWord(m, 54, 0x84badedd, 0x065c43da, 0x24641522, 0x9409e33e, 0x1487472c);
    NextWord(m, 55, 0xc21462bc, 0xfb3e89cb, 0x9f47bf94, 0x24641522, 0xb20f7a99);
  }

  lemma ScheduleRow7(m: Block)
    requires Row5(m) && Row6(m)
    ensures Row7(m)
  {
    hide W, X;
    NextWord(m, 56, 0x1487472c, 0xcc7617db, 0xf0a64f5a, 0x9f47bf94, 0xef57b9cd);
    NextWord(m, 57, 0xb20f7a99, 0xb9e66c34, 0x3e246a79, 0xf0a64f5a, 0xebe6b238);
    NextWord(m, 58, 0xef57b9cd, 0xa9993667, 0x27333ba3, 0x3e246a79, 0x9fe3095e);
    NextWord(m, 59, 0xebe6b238, 0x84badedd, 0x0c4763f2, 0x27333ba3, 0x78bc8d4b);
    NextWord(m, 60, 0x9fe3095e, 0xc21462bc, 0x840abf27, 0x0c4763f2, 0xa43fcf15);
    NextWord(m, 61, 0x78bc8d4b, 0x1487472c, 0x7a290d5d, 0x840abf27, 0x668b2ff8);
    NextWord(m, 62, 0xa43fcf15, 0xb20f7a99, 0x065c43da, 0x7a290d5d, 0xeeaba2cc);
    NextWord(m, 63, 0x668b2ff8, 0xef57b9cd, 0xfb3e89cb, 0x065c43da, 0x12b1edeb);
  }

  // ---- the rounds ---------------------------------------------------------------------

  ghost predicate After0(m: Block) {
    After(m, 0) == Words(0x6a09e667, 0xbb67ae85, 0x3c6ef372, 0xa54ff53a,
                         0x510e527f, 0x9b05688c, 0x1f83d9ab, 0x5be0cd19)
  }

  ghost predicate After4(m: Block) {
    After(m, 4) == Words(0xd550f666, 0xc8c347a7, 0x5a6ad9ad, 0x5d6aebcd,
                         0x24e00850, 0xf92939eb, 0x78ce7989, 0xfa2a4622)
  }

  ghost predicate After8(m: Block) {
    After(m, 8) == Words(0x85a07b5f, 0xe5030380, 0x2b4209f5, 0x04409a6a,
                         0x0c657a79, 0x9b27a401, 0x714260ad, 0x43ada245)
  }

  ghost predicate After12(m: Block) {
    After(m, 12) == Words(0xf71fc5a9, 0x4798a3f4, 0x8c87346b, 0x8e04ecb9,
                         0x816fd6e9, 0x436b23e8, 0x1cc92596, 0x32ca2d8c)
  }

  ghost predicate After16(m: Block) {
    After(m, 16) == Words(0xb0fa238e, 0xc0645fde, 0xd932eb16, 0x87912990,
                         0x07590dcd, 0x0b92f20c, 0x745a48de, 0x1e578218)
  }

  ghost predicate After20(m: Block) {
    After(m, 20) == Words(0xe1f20c33, 0xfe777bbf, 0xc2fbd9d1, 0x21da9a9b,
                         0xb0638179, 0xcc899961, 0x846ee454, 0x8034229c)
  }

  ghost predicate After24(m: Block) {
    After(m, 24) == Words(0xc5d53d8d, 0xa7a3623f, 0xc2606d6d, 0x9dc68b63,
                         0xaa47c347, 0x49f5114a, 0xe1257970, 0x8ada8930)
  }

  ghost predicate After28(m: Block) {
    After(m, 28) == Words(0x77d37528, 0xb62ec4bc, 0xcde8037d, 0x1c2c2838,
                         0xedffbff8, 0xc74c6516, 0x14383d8e, 0x2823ef91)
  }

  ghost predicate After32(m: Block) {
    After(m, 32) == Words(0x73b33bf5, 0xea992a22, 0xa0060b30, 0x363482c9,
                         0xba591112, 0x0109ab3a, 0xade79437, 0x6112a3b7)
  }

  ghost predicate After36(m: Block) {
    After(m, 36) == Words(0x65a0cfe4, 0xa9a7738c, 0xfe604df5, 0x98e12507,
                         0xf4b002d6, 0x085f3833, 0x59249dd3, 0x9cd9f5f6)
  }

  ghost predicate After40(m: Block) {
    After(m, 40) == Words(0x79ea687a, 0x6dc57a8a, 0x34df1604, 0x41a65cb1,
                         0x1efbc0a0, 0xf0781bc8, 0xa507a53d, 0x0772a26b)
  }

  ghost predicate After44(m: Block) {
    After(m, 44) == Words(0x9d4baf93, 0x17aa0dfe, 0xdf46652f, 0xd6670766,
                         0xfda24c2e, 0xdecd4715, 0x838b2711, 0x26352d63)
  }

  ghost predicate After48(m: Block) {
    After(m, 48) == Words(0x4172328d, 0xa14c14b0, 0x72ab4b91, 0x26628815,
                         0xfecf0bc6, 0xd57b94a9, 0xb7755da1, 0xa80f11f0)
  }

  ghost predicate After52(m: Block) {
    After(m, 52) == Words(0x886e7a22, 0x7a0508a1, 0xf11bfaa8, 0x05757ceb,
                         0x49231c1e, 0x52f1ccf7, 0x6e5c390c, 0xbd714038)
  }

  ghost predicate After56(m: Block) {
    After(m, 56) == Words(0x38cc9913, 0x3ec45cdb, 0xf5702fdb, 0x101fd28f,
                         0x54cb266b, 0xe50e1b4f, 0x9f4787c3, 0x529e7d00)
  }

  ghost predicate After60(m: Block) {
    After(m, 60) == Words(0xb6ae8fff, 0xffb70472, 0xc062d46f, 0xfcd1887b,
                         0xb21bad3d, 0x6d83bfc6, 0x7e44008e, 0x9b5e906c)
  }

  ghost predicate After64(m: Block) {
    After(m, 64) == Words(0x506e3058, 0xd39a2165, 0x04d24d6c, 0xb85e2ce9,
                         0x5ef50f24, 0xfb121210, 0x948d25b6, 0x961f4894)
  }

  lemma KRow0()
    ensures K(0) == 0x428a2f98 && K(1) == 0x71374491 && K(2) == 0xb5c0fbcf && K(3) == 0xe9b5dba5
    ensures K(4) == 0x3956c25b && K(5) == 0x59f111f1 && K(6) == 0x923f82a4 && K(7) == 0xab1c5ed5
  {
  }

  lemma KRow1()
    ensures K(8) == 0xd807aa98 && K(9) == 0x12835b01 && K(10) == 0x243185be && K(11) == 0x550c7dc3
    ensures K(12) == 0x72be5d74 && K(13) == 0x80deb1fe && K(14) == 0x9bdc06a7 && K(15) == 0xc19bf174
  {
  }

  lemma KRow2()
    ensures K(16) == 0xe49b69c1 && K(17) == 0xefbe4786 && K(18) == 0x0fc19dc6 && K(19) == 0x240ca1cc
    ensures K(20) == 0x2de92c6f && K(21) == 0x4a7484aa && K(22) == 0x5cb0a9dc && K(23) == 0x76f988da
  {
  }

  lemma KRow3()
    ensures K(24) == 0x983e5152 && K(25) == 0xa831c66d && K(26) == 0xb00327c8 && K(27) == 0xbf597fc7
    ensures K(28) == 0xc6e00bf3 && K(29) == 0xd5a79147 && K(30) == 0x06ca6351 && K(31) == 0x14292967
  {
  }

  lemma KRow4()
    ensures K(32) == 0x27b70a85 && K(33) == 0x2e1b2138 && K(34) == 0x4d2c6dfc && K(35) == 0x53380d13
    ensures K(36) == 0x650a7354 && K(37) == 0x766a0abb && K(38) == 0x81c2c92e && K(39) == 0x92722c85
  {
  }

  lemma KRow5()
    ensures K(40) == 0xa2bfe8a1 && K(41) == 0xa81a664b && K(42) == 0xc24b8b70 && K(43) == 0xc76c51a3
    ensures K(44) == 0xd192e819 && K(45) == 0xd6990624 && K(46) == 0xf40e3585 && K(47) == 0x106aa070
  {
  }

  lemma KRow6()
    ensures K(48) == 0x19a4c116 && K(49) == 0x1e376c08 && K(50) == 0x2748774c && K(51) == 0x34b0bcb5
    ensures K(52) == 0x391c0cb3 && K(53) == 0x4ed8aa4a && K(54) == 0x5b9cca4f && K(55) == 0x682e6ff3
  {
  }

  lemma KRow7()
    ensures K(56) == 0x748f82ee && K(57) == 0x78a5636f && K(58) == 0x84c87814 && K(59) == 0x8cc70208
    ensures K(60) == 0x90befffa && K(61) == 0xa4506ceb && K(62) == 0xbef9a3f7 && K(63) == 0xc67178f2
  {
  }

  lemma Rounds0(m: Block)
    requires Row0(m) && After0(m)
    ensures After4(m)
  {
    hide W, X, After, Words, K;
    KRow0();
    Step(m, 0, 0x6a09e667, 0xbb67ae85, 0x3c6ef372, 0xa54ff53a,
         0x510e527f, 0x9b05688c, 0x1f83d9ab, 0x5be0cd19, 0x428a2f98,
         0x61626380, 0x5d6aebcd, 0xfa2a4622);
    Step(m, 1, 0x5d6aebcd, 0x6a09e667, 0xbb67ae85, 0x3c6ef372,
         0xfa2a4622, 0x510e527f, 0x9b05688c, 0x1f83d9ab, 0x71374491,
         0x00000000, 0x5a6ad9ad, 0x78ce7989);
    Step(m, 2, 0x5a6ad9ad, 0x5d6aebcd, 0x6a09e667, 0xbb67ae85,
         0x78ce7989, 0xfa2a4622, 0x510e527f, 0x9b05688c, 0xb5c0fbcf,
         0x00000000, 0xc8c347a7, 0xf92939eb);
    Step(m, 3, 0xc8c347a7, 0x5a6ad9ad, 0x5d6aebcd, 0x6a09e667,
         0xf92939eb, 0x78ce7989, 0xfa2a4622, 0x510e527f, 0xe9b5dba5,
         0x00000000, 0xd550f666, 0x24e00850);
  }

  lemma Rounds4(m: Block)
    requires Row0(m) && After4(m)
    ensures After8(m)
  {
    hide W, X, After, Words, K;
    KRow0();
    Step(m, 4, 0xd550f666, 0xc8c347a7, 0x5a6ad9ad, 0x5d6aebcd,
         0x24e00850, 0xf92939eb, 0x78ce7989, 0xfa2a4622, 0x3956c25b,
         0x00000000, 0x04409a6a, 0x43ada245);
    Step(m, 5, 0x04409a6a, 0xd550f666, 0xc8c347a7, 0x5a6ad9ad,
         0x43ada245, 0x24e00850, 0xf92939eb, 0x78ce7989, 0x59f111f1,
         0x00000000, 0x2b4209f5, 0x714260ad);
    Step(m, 6, 0x2b4209f5, 0x04409a6a, 0xd550f666, 0xc8c347a7,
         0x714260ad, 0x43ada245, 0x24e00850, 0xf92939eb, 0x923f82a4,
         0x00000000, 0xe5030380, 0x9b27a401);
    Step(m, 7, 0xe5030380, 0x2b4209f5, 0x04409a6a, 0xd550f666,
         0x9b27a401, 0x714260ad, 0x43ada245, 0x24e00850, 0xab1c5ed5,
         0x00000000, 0x85a07b5f, 0x0c657a79);
  }

  lemma Rounds8(m: Block)
    requires Row1(m) && After8(m)
    ensures After12(m)
  {
    hide W, X, After, Words, K;
    KRow1();
    Step(m, 8, 0x85a07b5f, 0xe5030380, 0x2b4209f5, 0x04409a6a,
         0x0c657a79, 0x9b27a401, 0x714260ad, 0x43ada245, 0xd807aa98,
         0x00000000, 0x8e04ecb9, 0x32ca2d8c);
    Step(m, 9, 0x8e04ecb9, 0x85a07b5f, 0xe5030380, 0x2b4209f5,
         0x32ca2d8c, 0x0c657a79, 0x9b27a401, 0x714260ad, 0x12835b01,
         0x00000000, 0x8c87346b, 0x1cc92596);
    Step(m, 10, 0x8c87346b, 0x8e04ecb9, 0x85a07b5f, 0xe5030380,
         0x1cc92596, 0x32ca2d8c, 0x0c657a79, 0x9b27a401, 0x243185be,
         0x00000000, 0x4798a3f4, 0x436b23e8);
    Step(m, 11, 0x4798a3f4, 0x8c87346b, 0x8e04ecb9, 0x85a07b5f,
         0x436b23e8, 0x1cc92596, 0x32ca2d8c, 0x0c657a79, 0x550c7dc3,
         0x00000000, 0xf71fc5a9, 0x816fd6e9);
  }

  lemma Rounds12(m: Block)
    requires Row1(m) && After12(m)
    ensures After16(m)
  {
    hide W, X, After, Words, K;
    KRow1();
    Step(m, 12, 0xf71fc5a9, 0x4798a3f4, 0x8c87346b, 0x8e04ecb9,
         0x816fd6e9, 0x436b23e8, 0x1cc92596, 0x32ca2d8c, 0x72be5d74,
         0x00000000, 0x87912990, 0x1e578218);
    Step(m, 13, 0x87912990, 0xf71fc5a9, 0x4798a3f4, 0x8c87346b,
         0x1e578218, 0x816fd6e9, 0x436b23e8, 0x1cc92596, 0x80deb1fe,
         0x00000000, 0xd932eb16, 0x745a48de);
    Step(m, 14, 0xd932eb16, 0x87912990, 0xf71fc5a9, 0x4798a3f4,
         0x745a48de, 0x1e578218, 0x816fd6e9, 0x436b23e8, 0x9bdc06a7,
         0x00000000, 0xc0645fde, 0x0b92f20c);
    Step(m, 15, 0xc0645fde, 0xd932eb16, 0x87912990, 0xf71fc5a9,
         0x0b92f20c, 0x745a48de, 0x1e578218, 0x816fd6e9, 0xc19bf174,
         0x00000018, 0xb0fa238e, 0x07590dcd);
  }

  lemma Rounds16(m: Block)
    requires Row2(m) && After16(m)
    ensures After20(m)
  {
    hide W, X, After, Words, K;
    KRow2();
    Step(m, 16, 0xb0fa238e, 0xc0645fde, 0xd932eb16, 0x87912990,
         0x07590dcd, 0x0b92f20c, 0x745a48de, 0x1e578218, 0xe49b69c1,
         0x61626380, 0x21da9a9b, 0x8034229c);
    Step(m, 17, 0x21da9a9b, 0xb0fa238e, 0xc0645fde, 0xd932eb16,
         0x8034229c, 0x07590dcd, 0x0b92f20c, 0x745a48de, 0xefbe4786,
         0x000f0000, 0xc2fbd9d1, 0x846ee454);
    Step(m, 18, 0xc2fbd9d1, 0x21da9a9b, 0xb0fa238e, 0xc0645fde,
         0x846ee454, 0x8034229c, 0x07590dcd, 0x0b92f20c, 0x0fc19dc6,
         0x7da86405, 0xfe777bbf, 0xcc899961);
    Step(m, 19, 0xfe777bbf, 0xc2fbd9d1, 0x21da9a9b, 0xb0fa238e,
         0xcc899961, 0x846ee454, 0x8034229c, 0x07590dcd, 0x240ca1cc,
         0x600003c6, 0xe1f20c33, 0xb0638179);
  }

  lemma Rounds20(m: Block)
    requires Row2(m) && After20(m)
    ensures After24(m)
  {
    hide W, X, After, Words, K;
    KRow2();
    Step(m, 20, 0xe1f20c33, 0xfe777bbf, 0xc2fbd9d1, 0x21da9a9b,
         0xb0638179, 0xcc899961, 0x846ee454, 0x8034229c, 0x2de92c6f,
         0x3e9d7b78, 0x9dc68b63, 0x8ada8930);
    Step(m, 21, 0x9dc68b63, 0xe1f20c33, 0xfe777bbf, 0xc2fbd9d1,
         0x8ada8930, 0xb0638179, 0xcc899961, 0x846ee454, 0x4a7484aa,
         0x0183fc00, 0xc2606d6d, 0xe1257970);
    Step(m, 22, 0xc2606d6d, 0x9dc68b63, 0xe1f20c33, 0xfe777bbf,
         0xe1257970, 0x8ada8930, 0xb0638179, 0xcc899961, 0x5cb0a9dc,
         0x12dcbfdb, 0xa7a3623f, 0x49f5114a);
    Step(m, 23, 0xa7a3623f, 0xc2606d6d, 0x9dc68b63, 0xe1f20c33,
         0x49f5114a, 0xe1257970, 0x8ada8930, 0xb0638179, 0x76f988da,
         0xe2e2c38e, 0xc5d53d8d, 0xaa47c347);
  }

  lemma Rounds24(m: Block)
    requires Row3(m) && After24(m)
    ensures After28(m)
  {
    hide W, X, After, Words, K;
    KRow3();
    Step(m, 24, 0xc5d53d8d, 0xa7a3623f, 0xc2606d6d, 0x9dc68b63,
         0xaa47c347, 0x49f5114a, 0xe1257970, 0x8ada8930, 0x983e5152,
         0xc8215c1a, 0x1c2c2838, 0x2823ef91);
    Step(m, 25, 0x1c2c2838, 0xc5d53d8d, 0xa7a3623f, 0xc2606d6d,
         0x2823ef91, 0xaa47c347, 0x49f5114a, 0xe1257970, 0xa831c66d,
         0xb73679a2, 0xcde8037d, 0x14383d8e);
    Step(m, 26, 0xcde8037d, 0x1c2c2838, 0xc5d53d8d, 0xa7a3623f,
         0x14383d8e, 0x2823ef91, 0xaa47c347, 0x49f5114a, 0xb00327c8,
         0xe5bc3909, 0xb62ec4bc, 0xc74c6516);
    Step(m, 27, 0xb62ec4bc, 0xcde8037d, 0x1c2c2838, 0xc5d53d8d,
         0xc74c6516, 0x14383d8e, 0x2823ef91, 0xaa47c347, 0xbf597fc7,
         0x32663c5b, 0x77d37528, 0xedffbff8);
  }

  lemma Rounds28(m: Block)
    requires Row3(m) && After28(m)
    ensures After32(m)
  {
    hide W, X, After, Words, K;
    KRow3();
    Step(m, 28, 0x77d37528, 0xb62ec4bc, 0xcde8037d, 0x1c2c2838,
         0xedffbff8, 0xc74c6516, 0x14383d8e, 0x2823ef91, 0xc6e00bf3,
         0x9d209d67, 0x363482c9, 0x6112a3b7);
    Step(m, 29, 0x363482c9, 0x77d37528, 0xb62ec4bc, 0xcde8037d,
         0x6112a3b7, 0xedffbff8, 0xc74c6516, 0x14383d8e, 0xd5a79147,
         0xec8726cb, 0xa0060b30, 0xade79437);
    Step(m, 30, 0xa0060b30, 0x363482c9, 0x77d37528, 0xb62ec4bc,
         0xade79437, 0x6112a3b7, 0xedffbff8, 0xc74c6516, 0x06ca6351,
         0x702138a4, 0xea992a22, 0x0109ab3a);
    Step(m, 31, 0xea992a22, 0xa0060b30, 0x363482c9, 0x77d37528,
         0x0109ab3a, 0xade79437, 0x6112a3b7, 0xedffbff8, 0x14292967,
         0xd3b7973b, 0x73b33bf5, 0xba591112);
  }

  lemma Rounds32(m: Block)
    requires Row4(m) && After32(m)
    ensures After36(m)
  {
    hide W, X, After, Words, K;
    KRow4();
    Step(m, 32, 0x73b33bf5, 0xea992a22, 0xa0060b30, 0x363482c9,
         0xba591112, 0x0109ab3a, 0xade79437, 0x6112a3b7, 0x27b70a85,
         0x93f5997f, 0x98e12507, 0x9cd9f5f6);
    Step(m, 33, 0x98e12507, 0x73b33bf5, 0xea992a22, 0xa0060b30,
         0x9cd9f5f6, 0xba591112, 0x0109ab3a, 0xade79437, 0x2e1b2138,
         0x3b68ba73, 0xfe604df5, 0x59249dd3);
    Step(m, 34, 0xfe604df5, 0x98e12507, 0x73b33bf5, 0xea992a22,
         0x59249dd3, 0x9cd9f5f6, 0xba591112, 0x0109ab3a, 0x4d2c6dfc,
         0xaff4ffc1, 0xa9a7738c, 0x085f3833);
    Step(m, 35, 0xa9a7738c, 0xfe604df5, 0x98e12507, 0x73b33bf5,
         0x085f3833, 0x59249dd3, 0x9cd9f5f6, 0xba591112, 0x53380d13,
         0xf10a5c62, 0x65a0cfe4, 0xf4b002d6);
  }

  lemma Rounds36(m: Block)
    requires Row4(m) && After36(m)
    ensures After40(m)
  {
    hide W, X, After, Words, K;
    KRow4();
    Step(m, 36, 0x65a0cfe4, 0xa9a7738c, 0xfe604df5, 0x98e12507,
         0xf4b002d6, 0x085f3833, 0x59249dd3, 0x9cd9f5f6, 0x650a7354,
         0x0a8b3996, 0x41a65cb1, 0x0772a26b);
    Step(m, 37, 0x41a65cb1, 0x65a0cfe4, 0xa9a7738c, 0xfe604df5,
         0x0772a26b, 0xf4b002d6, 0x085f3833, 0x59249dd3, 0x766a0abb,
         0x72af830a, 0x34df1604, 0xa507a53d);
    Step(m, 38, 0x34df1604, 0x41a65cb1, 0x65a0cfe4, 0xa9a7738c,
         0xa507a53d, 0x0772a26b, 0xf4b002d6, 0x085f3833, 0x81c2c92e,
         0x9409e33e, 0x6dc57a8a, 0xf0781bc8);
    Step(m, 39, 0x6dc57a8a, 0x34df1604, 0x41a65cb1, 0x65a0cfe4,
         0xf0781bc8, 0xa507a53d, 0x0772a26b, 0xf4b002d6, 0x92722c85,
         0x24641522, 0x79ea687a, 0x1efbc0a0);
  }

  lemma Rounds40(m: Block)
    requires Row5(m) && After40(m)
    ensures After44(m)
  {
    hide W, X, After, Words, K;
    KRow5();
    Step(m, 40, 0x79ea687a, 0x6dc57a8a, 0x34df1604, 0x41a65cb1,
         0x1efbc0a0, 0xf0781bc8, 0xa507a53d, 0x0772a26b, 0xa2bfe8a1,
         0x9f47bf94, 0xd6670766, 0x26352d63);
    Step(m, 41, 0xd6670766, 0x79ea687a, 0x6dc57a8a, 0x34df1604,
         0x26352d63, 0x1efbc0a0, 0xf0781bc8, 0xa507a53d, 0xa81a664b,
         0xf0a64f5a, 0xdf46652f, 0x838b2711);
    Step(m, 42, 0xdf46652f, 0xd6670766, 0x79ea687a, 0x6dc57a8a,
         0x838b2711, 0x26352d63, 0x1efbc0a0, 0xf0781bc8, 0xc24b8b70,
         0x3e246a79, 0x17aa0dfe, 0xdecd4715);
    Step(m, 43, 0x17aa0dfe, 0xdf46652f, 0xd6670766, 0x79ea687a,
         0xdecd4715, 0x838b2711, 0x26352d63, 0x1efbc0a0, 0xc76c51a3,
         0x27333ba3, 0x9d4baf93, 0xfda24c2e);
  }

  lemma Rounds44(m: Block)
    requires Row5(m) && After44(m)
    ensures After48(m)
  {
    hide W, X, After, Words, K;
    KRow5();
    Step(m, 44, 0x9d4baf93, 0x17aa0dfe, 0xdf46652f, 0xd6670766,
         0xfda24c2e, 0xdecd4715, 0x838b2711, 0x26352d63, 0xd192e819,
         0x0c4763f2, 0x26628815, 0xa80f11f0);
    Step(m, 45, 0x26628815, 0x9d4baf93, 0x17aa0dfe, 0xdf46652f,
         0xa80f11f0, 0xfda24c2e, 0xdecd4715, 0x838b2711, 0xd6990624,
         0x840abf27, 0x72ab4b91, 0xb7755da1);
    Step(m, 46, 0x72ab4b91, 0x26628815, 0x9d4baf93, 0x17aa0dfe,
         0xb7755da1, 0xa80f11f0, 0xfda24c2e, 0xdecd4715, 0xf40e3585,
         0x7a290d5d, 0xa14c14b0, 0xd57b94a9);
    Step(m, 47, 0xa14c14b0, 0x72ab4b91, 0x26628815, 0x9d4baf93,
         0xd57b94a9, 0xb7755da1, 0xa80f11f0, 0xfda24c2e, 0x106aa070,
         0x065c43da, 0x4172328d, 0xfecf0bc6);
  }

  lemma Rounds48(m: Block)
    requires Row6(m) && After48(m)
    ensures After52(m)
  {
    hide W, X, After, Words, K;
    KRow6();
    Step(m, 48, 0x4172328d, 0xa14c14b0, 0x72ab4b91, 0x26628815,
         0xfecf0bc6, 0xd57b94a9, 0xb7755da1, 0xa80f11f0, 0x19a4c116,
         0xfb3e89cb, 0x05757ceb, 0xbd714038);
    Step(m, 49, 0x05757ceb, 0x4172328d, 0xa14c14b0, 0x72ab4b91,
         0xbd714038, 0xfecf0bc6, 0xd57b94a9, 0xb7755da1, 0x1e376c08,
         0xcc7617db, 0xf11bfaa8, 0x6e5c390c);
    Step(m, 50, 0xf11bfaa8, 0x05757ceb, 0x4172328d, 0xa14c14b0,
         0x6e5c390c, 0xbd714038, 0xfecf0bc6, 0xd57b94a9, 0x2748774c,
         0xb9e66c34, 0x7a0508a1, 0x52f1ccf7);
    Step(m, 51, 0x7a0508a1, 0xf11bfaa8, 0x05757ceb, 0x4172328d,
         0x52f1ccf7, 0x6e5c390c, 0xbd714038, 0xfecf0bc6, 0x34b0bcb5,
         0xa9993667, 0x886e7a22, 0x49231c1e);
  }

  lemma Rounds52(m: Block)
    requires Row6(m) && After52(m)
    ensures After56(m)
  {
    hide W, X, After, Words, K;
    KRow6();
    Step(m, 52, 0x886e7a22, 0x7a0508a1, 0xf11bfaa8, 0x05757ceb,
         0x49231c1e, 0x52f1ccf7, 0x6e5c390c, 0xbd714038, 0x391c0cb3,
         0x84badedd, 0x101fd28f, 0x529e7d00);
    Step(m, 53, 0x101fd28f, 0x886e7a22, 0x7a0508a1, 0xf11bfaa8,
         0x529e7d00, 0x49231c1e, 0x52f1ccf7, 0x6e5c390c, 0x4ed8aa4a,
         0xc21462bc, 0xf5702fdb, 0x9f4787c3);
    Step(m, 54, 0xf5702fdb, 0x101fd28f, 0x886e7a22, 0x7a0508a1,
         0x9f4787c3, 0x529e7d00, 0x49231c1e, 0x52f1ccf7, 0x5b9cca4f,
         0x1487472c, 0x3ec45cdb, 0xe50e1b4f);
    Step(m, 55, 0x3ec45cdb, 0xf5702fdb, 0x101fd28f, 0x886e7a22,
         0xe50e1b4f, 0x9f4787c3, 0x529e7d00, 0x49231c1e, 0x682e6ff3,
         0xb20f7a99, 0x38cc9913, 0x54cb266b);
  }

  lemma Rounds56(m: Block)
    requires Row7(m) && After56(m)
    ensures After60(m)
  {
    hide W, X, After, Words, K;
    KRow7();
    Step(m, 56, 0x38cc9913, 0x3ec45cdb, 0xf5702fdb, 0x101fd28f,
         0x54cb266b, 0xe50e1b4f, 0x9f4787c3, 0x529e7d00, 0x748f82ee,
         0xef57b9cd, 0xfcd1887b, 0x9b5e906c);
    Step(m, 57, 0xfcd1887b, 0x38cc9913, 0x3ec45cdb, 0xf5702fdb,
         0x9b5e906c, 0x54cb266b, 0xe50e1b4f, 0x9f4787c3, 0x78a5636f,
         0xebe6b238, 0xc062d46f, 0x7e44008e);
    Step(m, 58, 0xc062d46f, 0xfcd1887b, 0x38cc9913, 0x3ec45cdb,
         0x7e44008e, 0x9b5e906c, 0x54cb266b, 0xe50e1b4f, 0x84c87814,
         0x9fe3095e, 0xffb70472, 0x6d83bfc6);
    Step(m, 59, 0xffb70472, 0xc062d46f, 0xfcd1887b, 0x38cc9913,
         0x6d83bfc6, 0x7e44008e, 0x9b5e906c, 0x54cb266b, 0x8cc70208,
         0x78bc8d4b, 0xb6ae8fff, 0xb21bad3d);
  }

  lemma Rounds60(m: Block)
    requires Row7(m) && After60(m)
    ensures After64(m)
  {
    hide W, X, After, Words, K;
    KRow7();
    Step(m, 60, 0xb6ae8fff, 0xffb70472, 0xc062d46f, 0xfcd1887b,
         0xb21bad3d, 0x6d83bfc6, 0x7e44008e, 0x9b5e906c, 0x90befffa,
         0xa43fcf15, 0xb85e2ce9, 0x961f4894);
    Step(m, 61, 0xb85e2ce9, 0xb6ae8fff, 0xffb70472, 0xc062d46f,
         0x961f4894, 0xb21bad3d, 0x6d83bfc6, 0x7e44008e, 0xa4506ceb,
         0x668b2ff8, 0x04d24d6c, 0x948d25b6);
    Step(m, 62, 0x04d24d6c, 0xb85e2ce9, 0xb6ae8fff, 0xffb70472,
         0x948d25b6, 0x961f4894, 0xb21bad3d, 0x6d83bfc6, 0xbef9a3f7,
         0xeeaba2cc, 0xd39a2165, 0xfb121210);
    Step(m, 63, 0xd39a2165, 0x04d24d6c, 0xb85e2ce9, 0xb6ae8fff,
         0xfb121210, 0x948d25b6, 0x961f4894, 0xb21bad3d, 0xc67178f2,
         0x12b1edeb, 0x506e3058, 0x5ef50f24);
  }

  // ---- the message "abc" ----------------------------------------------------------------

  const ABC: seq<Byte> := [0x61, 0x62, 0x63]
  const LENGTH: seq<Byte> := [0, 0, 0, 0, 0, 0, 0, 24]
  const ABC_BLOCK: Block := [0x61, 0x62, 0x63, 0x80] + Zeros(52) + LENGTH

  lemma AbcPadded()
    ensures Padded(ABC) == ABC_BLOCK
  {
    assert BigEndian(24, 8) == LENGTH by {
      assert BigEndian(24, 1) == [24] by { assert BigEndian(24 / 256, 0) == []; }
      assert forall n: nat | n < 8 :: BigEndian(0, n + 1) == BigEndian(0, n) + [0];
    }
  }

  lemma FirstRows()
    ensures Row0(ABC_BLOCK) && Row1(ABC_BLOCK)
  {
    var m := ABC_BLOCK;
    assert forall i | 4 <= i < 63 :: m[i] == 0;
    assert W(m, 0) == X(0x61626380) by { XIs(0x61626380); }
    assert W(m, 15) == X(0x00000018) by { XIs(0x00000018); }
    XIs(0x00000000);
    hide X;
  }

  lemma Start(m: Block)
    ensures After0(m)
  {
    assert Schedule(m)[..0] == [];
    XIs(0x6a09e667);
    XIs(0xbb67ae85);
    XIs(0x3c6ef372);
    XIs(0xa54ff53a);
    XIs(0x510e527f);
    XIs(0x9b05688c);
    XIs(0x1f83d9ab);
    XIs(0x5be0cd19);
    hide X;
  }

  /** The whole schedule and all 64 rounds. */
  lemma AllRounds()
    ensures After64(ABC_BLOCK)
  {
    hide Row0, Row1, Row2, Row3, Row4, Row5, Row6, Row7;
    hide After0, After4, After8, After12, After16, After20, After24, After28, After32,
         After36, After40, After44, After48, After52, After56, After60, After64;
    var m := ABC_BLOCK;
    FirstRows();
    Start(m);
    ScheduleRow2(m);
    ScheduleRow3(m);
    ScheduleRow4(m);
    ScheduleRow5(m);
    ScheduleRow6(m);
    ScheduleRow7(m);
    Rounds0(m);
    Rounds4(m);
    Rounds8(m);
    Rounds12(m);
    Rounds16(m);
    Rounds20(m);
    Rounds24(m);
    Rounds28(m);
    Rounds32(m);
    Rounds36(m);
    Rounds40(m);
    Rounds44(m);
    Rounds48(m);
    Rounds52(m);
    Rounds56(m);
    Rounds60(m);
  }

  /** The words of a vector chain, as numbers. */
  lemma WordsAre(a: bv32, b: bv32, c: bv32, d: bv32, e: bv32, f: bv32, g: bv32, h: bv32)
    ensures Words(a, b, c, d, e, f, g, h) == [Sum(a), Sum(b), Sum(c), Sum(d), Sum(e), Sum(f), Sum(g), Sum(h)]
  {
    XIs(a);
    XIs(b);
    XIs(c);
    XIs(d);
    XIs(e);
    XIs(f);
    XIs(g);
    XIs(h);
    hide X, Sum;
  }

  lemma OneBlock(m: Block)
    ensures FoldBlocks(H0, m) == Compress(H0, m)
  {
    hide Compress, H0;
    assert m[..64] == m && m[64..] == [];
    assert Fold(Compress, Compress(H0, m), m[64..]) == Compress(H0, m);
  }

  lemma AfterAll(m: Block)
    ensures Rounds(H0, Schedule(m)) == After(m, 64)
  {
    assert Schedule(m)[..64] == Schedule(m) by { hide W; }
    hide Rounds, Schedule, H0;
  }

  /** Step 4 of the only block. */
  lemma Out(m: Block)
    ensures |FoldBlocks(H0, m)| == 8
    ensures forall i | 0 <= i < 8 :: FoldBlocks(H0, m)[i] == (H0[i] + After(m, 64)[i]) % WORD
  {
    hide FoldBlocks, Schedule, Rounds, After, Add, H0;
    OneBlock(m);
    AfterAll(m);
    forall i | 0 <= i < 8
      ensures Compress(H0, m)[i] == (H0[i] + After(m, 64)[i]) % WORD
    {
      Reduced(H0[i], After(m, 64)[i]);
    }
  }

  /** The digest of "abc". */
  lemma AbcDigest()
    ensures Digest(ABC) == [0xba7816bf, 0x8f01cfea, 0x414140de, 0x5dae2223,
                            0xb00361a3, 0x96177a9c, 0xb410ff61, 0xf20015ad]
  {
    hide Padded, FoldBlocks, After, Words, X;
    AbcPadded();
    AllRounds();
    Out(ABC_BLOCK);
    WordsAre(0x506e3058, 0xd39a2165, 0x04d24d6c, 0xb85e2ce9,
        0x5ef50f24, 0xfb121210, 0x948d25b6, 0x961f4894);
  }

  lemma {:induction false} HexJoin(a: seq<Byte>, b: seq<Byte>)
    ensures Hex(a + b) == Hex(a) + Hex(b)
  {
    if a == [] {
      assert a + b == b;
    } else {
      assert (a + b)[1..] == a[1..] + b;
      HexJoin(a[1..], b);
    }
  }

  lemma FourBytes(b0: Byte, b1: Byte, b2: Byte, b3: Byte)
    ensures BigEndian(WordOf(b0, b1, b2, b3), 4) == [b0, b1, b2, b3]
    ensures Hex(BigEndian(WordOf(b0, b1, b2, b3), 4)) == ByteHex(b0) + ByteHex(b1) + ByteHex(b2) + ByteHex(b3)
  {
    var x := WordOf(b0, b1, b2, b3);
    assert x / 256 == (b0 * 256 + b1) * 256 + b2;
    assert x / 256 / 256 == b0 * 256 + b1;
    assert BigEndian(x / 256 / 256, 2) == [b0, b1] by {
      assert BigEndian(b0, 1) == [b0] by { assert BigEndian(b0 / 256, 0) == []; }
    }
    HexFour(b0, b1, b2, b3);
  }

  lemma HexFour(b0: Byte, b1: Byte, b2: Byte, b3: Byte)
    ensures Hex([b0, b1, b2, b3]) == ByteHex(b0) + ByteHex(b1) + ByteHex(b2) + ByteHex(b3)
  {
    var b := [b0, b1, b2, b3];
    assert b[1..] == [b1, b2, b3] && b[2..] == [b2, b3] && b[3..] == [b3];
    assert b[1..][1..] == b[2..] && b[2..][1..] == b[3..] && b[3..][1..] == [];
    assert Hex(b[3..]) == ByteHex(b3) + Hex([]) == ByteHex(b3);
    assert Hex(b[2..]) == ByteHex(b2) + ByteHex(b3);
    hide ByteHex;
  }

  lemma WordText(b0: Byte, b1: Byte, b2: Byte, b3: Byte, w: Word, text: string)
    requires WordOf(b0, b1, b2, b3) == w
    requires |text| == 8
    requires HexDigit(b0 / 16) == text[0] && HexDigit(b0 % 16) == text[1]
    requires HexDigit(b1 / 16) == text[2] && HexDigit(b1 % 16) == text[3]
    requires HexDigit(b2 / 16) == text[4] && HexDigit(b2 % 16) == text[5]
    requires HexDigit(b3 / 16) == text[6] && HexDigit(b3 % 16) == text[7]
    ensures Hex(BigEndian(w, 4)) == text
  {
    hide WordOf, HexDigit, Hex, BigEndian;
    FourBytes(b0, b1, b2, b3);
  }

  lemma WordsText(h: Chain)
    ensures Hex(DigestBytes(h))
            == Hex(BigEndian(h[0], 4)) + Hex(BigEndian(h[1], 4)) + Hex(BigEndian(h[2], 4)) + Hex(BigEndian(h[3], 4))
               + Hex(BigEndian(h[4], 4)) + Hex(BigEndian(h[5], 4)) + Hex(BigEndian(h[6], 4)) + Hex(BigEndian(h[7], 4))
  {
    hide Hex, BigEndian;
    var b1 := BigEndian(h[0], 4) + BigEndian(h[1], 4);
    var b2 := b1 + BigEndian(h[2], 4);
    var b3 := b2 + BigEndian(h[3], 4);
    var b4 := b3 + BigEndian(h[4], 4);
    var b5 := b4 + BigEndian(h[5], 4);
    var b6 := b5 + BigEndian(h[6], 4);
    HexJoin(BigEndian(h[0], 4), BigEndian(h[1], 4));
    HexJoin(b1, BigEndian(h[2], 4));
    HexJoin(b2, BigEndian(h[3], 4));
    HexJoin(b3, BigEndian(h[4], 4));
    HexJoin(b4, BigEndian(h[5], 4));
    HexJoin(b5, BigEndian(h[6], 4));
    HexJoin(b6, BigEndian(h[7], 4));
  }

  lemma Text0()
    ensures Hex(BigEndian(0xba7816bf, 4)) == "ba7816bf"
  {
    hide Hex, BigEndian;
    WordText(0xba, 0x78, 0x16, 0xbf, 0xba7816bf, "ba7816bf");
  }

  lemma Text1()
    ensures Hex(BigEndian(0x8f01cfea, 4)) == "8f01cfea"
  {
    hide Hex, BigEndian;
    WordText(0x8f, 0x01, 0xcf, 0xea, 0x8f01cfea, "8f01cfea");
  }

  lemma Text2()
    ensures Hex(BigEndian(0x414140de, 4)) == "414140de"
  {
    hide Hex, BigEndian;
    WordText(0x41, 0x41, 0x40, 0xde, 0x414140de, "414140de");
  }

  lemma Text3()
    ensures Hex(BigEndian(0x5dae2223, 4)) == "5dae2223"
  {
    hide Hex, BigEndian;
    WordText(0x5d, 0xae, 0x22, 0x23, 0x5dae2223, "5dae2223");
  }

  lemma Text4()
    ensures Hex(BigEndian(0xb00361a3, 4)) == "b00361a3"
  {
    hide Hex, BigEndian;
    WordText(0xb0, 0x03, 0x61, 0xa3, 0xb00361a3, "b00361a3");
  }

  lemma Text5()
    ensures Hex(BigEndian(0x96177a9c, 4)) == "96177a9c"
  {
    hide Hex, BigEndian;
    WordText(0x96, 0x17, 0x7a, 0x9c, 0x96177a9c, "96177a9c");
  }

  lemma Text6()
    ensures Hex(BigEndian(0xb410ff61, 4)) == "b410ff61"
  {
    hide Hex, BigEndian;
    WordText(0xb4, 0x10, 0xff, 0x61, 0xb410ff61, "b410ff61");
  }

  lemma Text7()
    ensures Hex(BigEndian(0xf20015ad, 4)) == "f20015ad"
  {
    hide Hex, BigEndian;
    WordText(0xf2, 0x00, 0x15, 0xad, 0xf20015ad, "f20015ad");
  }

  /** What the function returns on the bytes of "abc". */
  lemma AbcHex()
    ensures Hex(DigestBytes(Digest(ABC)))
            == "ba7816bf" + "8f01cfea" + "414140de" + "5dae2223" + "b00361a3" + "96177a9c" + "b410ff61" + "f20015ad"
  {
    hide Hex, BigEndian, DigestBytes, Digest;
    AbcDigest();
    WordsText(Digest(ABC));
    Text0();
    Text1();
    Text2();
    Text3();
    Text4();
    Text5();
    Text6();
    Text7();
  }
}
