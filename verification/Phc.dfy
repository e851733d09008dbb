/** Assembling a find's PHC string and taking it apart again: `encode_argon2id_phc`,
    `memory_cost_from_hash`, `hash_digest_for_superblock`, `classify_block` and
    `prepare_hit_for_submit`. The base64 text of the salt is a parameter. */
module Phc {
  import opened Hits

  const INT_MAX: nat := 0x7fff_ffff

  type UInt32 = x: int | 0 <= x < 0x1_0000_0000

  // ---- decimal numbers ---------------------------------------------------------------

  predicate IsDigit(c: char) { '0' <= c <= '9' }

  predicate AllDigits(s: string) {
    forall i :: 0 <= i < |s| ==> IsDigit(s[i])
  }

  function ToDecimal(n: nat): (s: string)
    ensures s != [] && AllDigits(s)
  {
    if n < 10 then [n as char + '0'] else ToDecimal(n / 10) + [(n % 10) as char + '0']
  }

  function FromDecimal(s: string): nat
    requires AllDigits(s)
  {
    if s == [] then 0
    else 10 * FromDecimal(s[..|s| - 1]) + (s[|s| - 1] - '0') as nat
  }

  lemma {:induction false} DecimalRoundTrip(n: nat)
    ensures FromDecimal(ToDecimal(n)) == n
  {
    if n < 10 {
      assert ToDecimal(n)[..0] == [];
    } else {
      DecimalRoundTrip(n / 10);
      assert ToDecimal(n)[..|ToDecimal(n)| - 1] == ToDecimal(n / 10);
    }
  }

  // ---- the encoded form and its readers ------------------------------------------------

  predicate IsArgon2Encoded(hashStr: string) {
    "$argon2" <= hashStr
  }

  const PHC_HEAD := "$argon2id$v=19"

  function Encode(salt: string, memoryCost: UInt32, timeCost: UInt32, parallelism: UInt32, digest: string): string {
    PHC_HEAD + "$m=" + ToDecimal(memoryCost) + ",t=" + ToDecimal(timeCost) + ",p=" + ToDecimal(parallelism)
    + "$" + salt + "$" + digest
  }

  /** Length of the run of digits starting at i. */
  function DigitRun(s: string, i: nat): (n: nat)
    requires i <= |s|
    ensures i + n <= |s| && AllDigits(s[i..i + n])
    ensures i + n < |s| ==> !IsDigit(s[i + n])
    decreases |s| - i
  {
    if i < |s| && IsDigit(s[i]) then
      var n := DigitRun(s, i + 1);
      assert s[i..i + 1 + n] == [s[i]] + s[i + 1..i + 1 + n];
      1 + n
    else 0
  }

  /** The pattern "$m=", digits, ",": a match at i, if there is one, ends the digits
      at the end of their run. */
  predicate CostAt(s: string, i: nat) {
    && OccursAt(s, "$m=", i)
    && DigitRun(s, i + 3) > 0
    && i + 3 + DigitRun(s, i + 3) < |s| && s[i + 3 + DigitRun(s, i + 3)] == ','
  }

  /** Leftmost match from i on. */
  function FindCost(s: string, i: nat): (digits: Option<string>)
    ensures digits.Some? ==> AllDigits(digits.value)
    decreases |s| - i
  {
    if i >= |s| then None
    else if CostAt(s, i) then Some(s[i + 3..i + 3 + DigitRun(s, i + 3)])
    else FindCost(s, i + 1)
  }

  /** `memory_cost_from_hash`: none as well when `std::stoi` is out of range. */
  function MemoryCostFromHash(hashStr: string): Option<Int32> {
    if !IsArgon2Encoded(hashStr) then None
    else
      match FindCost(hashStr, 0)
      case None => None
      case Some(digits) =>
        if FromDecimal(digits) > INT_MAX then None else Some(FromDecimal(digits))
  }

  function CountDollars(s: string): nat {
    if s == [] then 0 else (if s[0] == '$' then 1 else 0) + CountDollars(s[1..])
  }

  /** What follows the last '$'; all of s if there is none. */
  function AfterLastDollar(s: string): string {
    if '$' !in s then s else AfterLastDollar(s[1..])
  }

  function HashDigestForSuperblock(hashStr: string): string {
    if hashStr == [] then []
    else if hashStr[0] == '$' || CountDollars(hashStr) >= 4 then AfterLastDollar(hashStr)
    else hashStr
  }

  // ---- classification ------------------------------------------------------------------

  function UppercaseCount(text: string): nat {
    if text == [] then 0 else (if 'A' <= text[0] <= 'Z' then 1 else 0) + UppercaseCount(text[1..])
  }

  method CountUppercase(text: string) returns (n: nat)
    ensures n == UppercaseCount(text)
  {
    n := 0;
    for i := 0 to |text|
      invariant n + UppercaseCount(text[i..]) == UppercaseCount(text)
    {
      if 'A' <= text[i] <= 'Z' {
        n := n + 1;
      }
    }
  }

  const MIN_UPPER: nat := 50

  predicate IsSuperblock(hashStr: string) {
    UppercaseCount(HashDigestForSuperblock(hashStr)) >= MIN_UPPER
  }

  predicate HasXuniMark(s: string) {
    exists i :: 0 <= i < |s| && OccursAt(s, "XUNI", i) && i + 4 < |s| && IsDigit(s[i + 4])
  }

  function WithoutNulls(s: string): string {
    if s == [] then [] else (if s[0] == '\0' then [] else [s[0]]) + WithoutNulls(s[1..])
  }

  function NormalType(blockType: string): string {
    Trim(WithoutNulls(ToUpper(blockType)))
  }

  function ClassifyBlock(hashStr: string, blockType: string): string {
    var bt := NormalType(blockType);
    if bt == "XUNI" || HasXuniMark(hashStr) then "XUNI"
    else if bt == "XBLK" || (Contains(hashStr, "XEN11") && IsSuperblock(hashStr)) then "XBLK"
    else if Contains(hashStr, "XEN11") || bt == "XEN11" || bt == "NORMAL" || bt == "XNM" then "XNM"
    else "OTHER"
  }

  // ---- prepare_hit_for_submit ------------------------------------------------------------

  /** static_cast<uint32_t>. */
  function ToUInt32(x: int): UInt32 { x % 0x1_0000_0000 }

  function PrepareHit(hit: BlockHit, salt: string, memoryCost: Int32, timeCost: int, parallelism: int)
    : Option<BlockHit>
  {
    if IsArgon2Encoded(hit.hashStr) then
      var m := MemoryCostFromHash(hit.hashStr);
      if m.Some? && m.value != memoryCost then None
      else Some(hit.(blockType := ClassifyBlock(hit.hashStr, hit.blockType)))
    else
      var encoded := Encode(salt, ToUInt32(memoryCost), ToUInt32(timeCost), ToUInt32(parallelism), hit.hashStr);
      if !Contains(encoded, hit.hashStr) then None
      else
        Some(hit.(hashStr := encoded, blockType := ClassifyBlock(encoded, hit.blockType),
                  memoryCost := Some(memoryCost)))
  }

  // ---- properties ------------------------------------------------------------------------

  lemma {:induction false} SkipNonMatches(s: string, i: nat, k: nat)
    requires i <= k <= |s|
    requires forall j :: i <= j < k ==> !CostAt(s, j)
    ensures FindCost(s, i) == FindCost(s, k)
    decreases k - i
  {
    if i < k {
      SkipNonMatches(s, i + 1, k);
    }
  }

  lemma DigitRunIs(s: string, i: nat, digits: string)
    requires AllDigits(digits)
    requires i + |digits| < |s| && s[i..i + |digits|] == digits && !IsDigit(s[i + |digits|])
    ensures DigitRun(s, i) == |digits|
    decreases |digits|
  {
    if digits != [] {
      assert s[i] == digits[0];
      assert s[i + 1..i + 1 + |digits[1..]|] == digits[1..];
      DigitRunIs(s, i + 1, digits[1..]);
    }
  }

  /** Nothing before the real "m=" field can be taken for it. */
  lemma CostFieldFound(digits: string, rest: string)
    requires AllDigits(digits) && digits != [] && rest != [] && rest[0] == ','
    ensures FindCost(PHC_HEAD + "$m=" + digits + rest, 0) == Some(digits)
  {
    var s := PHC_HEAD + "$m=" + digits + rest;
    forall j | 0 <= j < 14
      ensures !CostAt(s, j)
    {
      assert s[j] == PHC_HEAD[j] && s[j + 1] == (PHC_HEAD + "$")[j + 1];
      assert s[j..j + 3][0] == s[j] && s[j..j + 3][1] == s[j + 1];
    }
    SkipNonMatches(s, 0, 14);
    assert s[14..17] == "$m=";
    assert s[17..17 + |digits|] == digits && s[17 + |digits|] == ',';
    DigitRunIs(s, 17, digits);
  }

  /** The cost put in is the cost read out, exactly when it is an `int`. */
  lemma CostRoundTrip(salt: string, memoryCost: UInt32, timeCost: UInt32, parallelism: UInt32, digest: string)
    ensures MemoryCostFromHash(Encode(salt, memoryCost, timeCost, parallelism, digest))
            == if memoryCost <= INT_MAX then Some(memoryCost) else None
  {
    var rest := ",t=" + ToDecimal(timeCost) + ",p=" + ToDecimal(parallelism) + "$" + salt + "$" + digest;
    var s := Encode(salt, memoryCost, timeCost, parallelism, digest);
    assert s == PHC_HEAD + "$m=" + ToDecimal(memoryCost) + rest;
    assert s[..7] == "$argon2";
    CostFieldFound(ToDecimal(memoryCost), rest);
    DecimalRoundTrip(memoryCost);
  }

  lemma {:induction false} AfterLastDollarSplits(front: string, back: string)
    requires front != [] && front[|front| - 1] == '$'
    ensures AfterLastDollar(front + back) == AfterLastDollar(back)
  {
    assert (front + back)[|front| - 1] == '$';
    assert (front + back)[1..] == front[1..] + back;
    if |front| > 1 {
      AfterLastDollarSplits(front[1..], back);
    }
  }

  lemma {:induction false} AfterLastDollarClean(s: string)
    ensures '$' !in AfterLastDollar(s)
  {
    if '$' in s {
      AfterLastDollarClean(s[1..]);
    }
  }

  /** The digest comes back exactly when it holds no '$'. */
  lemma DigestRoundTrip(salt: string, memoryCost: UInt32, timeCost: UInt32, parallelism: UInt32, digest: string)
    ensures HashDigestForSuperblock(Encode(salt, memoryCost, timeCost, parallelism, digest)) == digest
            <==> '$' !in digest
  {
    var front := PHC_HEAD + "$m=" + ToDecimal(memoryCost) + ",t=" + ToDecimal(timeCost) + ",p="
                 + ToDecimal(parallelism) + "$" + salt + "$";
    var s := Encode(salt, memoryCost, timeCost, parallelism, digest);
    assert s == front + digest;
    assert s[0] == PHC_HEAD[0];
    AfterLastDollarSplits(front, digest);
    AfterLastDollarClean(digest);
  }

  /** The pieces between separators. */
  function SplitOn(s: string, c: char): (pieces: seq<string>)
    ensures pieces != []
  {
    if s == [] then [[]]
    else
      var rest := SplitOn(s[1..], c);
      if s[0] == c then [[]] + rest else [[s[0]] + rest[0]] + rest[1..]
  }

  lemma {:induction false} SplitPiece(piece: string, rest: string, c: char)
    requires c !in piece
    ensures SplitOn(piece + [c] + rest, c) == [piece] + SplitOn(rest, c)
  {
    var s := piece + [c] + rest;
    if piece == [] {
      assert s[1..] == rest;
    } else {
      assert s[1..] == piece[1..] + [c] + rest;
      SplitPiece(piece[1..], rest, c);
      assert s[0] == piece[0] && [piece[0]] + piece[1..] == piece;
    }
  }

  lemma {:induction false} SplitLast(piece: string, c: char)
    requires c !in piece
    ensures SplitOn(piece, c) == [piece]
  {
    if piece != [] {
      SplitLast(piece[1..], c);
      assert [piece[0]] + piece[1..] == piece;
    }
  }

  lemma {:induction false} SplitThree(x: string, y: string, z: string, c: char)
    requires c !in x && c !in y && c !in z
    ensures SplitOn(x + ([c] + y + ([c] + z)), c) == [x, y, z]
  {
    hide SplitOn;
    SplitPiece(x, y + [c] + z, c);
    SplitPiece(y, z, c);
    SplitLast(z, c);
    assert x + ([c] + y + ([c] + z)) == x + [c] + (y + [c] + z);
  }

  /** A PHC string read by its own grammar: six fields, the fourth of them the costs in
      the order memory, time, parallelism. */
  lemma {:induction false} EncodedFields(salt: string, memoryCost: UInt32, timeCost: UInt32, parallelism: UInt32,
                                         digest: string)
    requires '$' !in salt && '$' !in digest
    ensures var costs := Costs(memoryCost, timeCost, parallelism);
            && SplitOn(Encode(salt, memoryCost, timeCost, parallelism, digest), '$')
               == ["", "argon2id", "v=19", costs, salt, digest]
            && SplitOn(costs, ',')
               == ["m=" + ToDecimal(memoryCost), "t=" + ToDecimal(timeCost), "p=" + ToDecimal(parallelism)]
  {
    hide ToDecimal, SplitOn;
    var m, t, p := ToDecimal(memoryCost), ToDecimal(timeCost), ToDecimal(parallelism);
    var costs := Costs(memoryCost, timeCost, parallelism);
    SplitThree("m=" + m, "t=" + t, "p=" + p, ',');
    CostsGroup(m, t, p);
    SplitThree(costs, salt, digest, '$');
    var tail := costs + (['$'] + salt + (['$'] + digest));
    SplitPiece("v=19", tail, '$');
    SplitPiece("argon2id", "v=19" + ['$'] + tail, '$');
    SplitPiece("", "argon2id" + ['$'] + ("v=19" + ['$'] + tail), '$');
    EncodeGroups(m, t, p, salt, digest);
  }

  function Costs(memoryCost: UInt32, timeCost: UInt32, parallelism: UInt32): string {
    "m=" + ToDecimal(memoryCost) + ",t=" + ToDecimal(timeCost) + ",p=" + ToDecimal(parallelism)
  }

  lemma CostsGroup(m: string, t: string, p: string)
    ensures "m=" + m + ",t=" + t + ",p=" + p == "m=" + m + ([','] + ("t=" + t) + ([','] + ("p=" + p)))
  {
  }

  lemma EncodeGroups(m: string, t: string, p: string, salt: string, digest: string)
    ensures PHC_HEAD + "$m=" + m + ",t=" + t + ",p=" + p + "$" + salt + "$" + digest
            == "" + ['$'] + ("argon2id" + ['$'] + ("v=19" + ['$']
               + (("m=" + m + ",t=" + t + ",p=" + p) + (['$'] + salt + (['$'] + digest)))))
  {
  }

  predicate PlainType(s: string) {
    forall i :: 0 <= i < |s| ==> 'A' <= s[i] <= 'Z'
  }

  lemma {:induction false} WithoutNullsPlain(s: string)
    requires PlainType(s)
    ensures WithoutNulls(s) == s
  {
    if s != [] {
      WithoutNullsPlain(s[1..]);
    }
  }

  lemma NormalTypePlain(s: string)
    requires PlainType(s)
    ensures NormalType(s) == s
  {
    assert ToUpper(s) == s;
    WithoutNullsPlain(s);
  }

  lemma ClassifyIdempotent(hashStr: string, blockType: string)
    ensures ClassifyBlock(hashStr, ClassifyBlock(hashStr, blockType)) == ClassifyBlock(hashStr, blockType)
  {
    NormalTypePlain(ClassifyBlock(hashStr, blockType));
  }

  /** The filter for bare digests never fires: assembling one always succeeds. */
  lemma PrepareBareSucceeds(hit: BlockHit, salt: string, memoryCost: Int32, timeCost: int, parallelism: int)
    requires !IsArgon2Encoded(hit.hashStr)
    ensures PrepareHit(hit, salt, memoryCost, timeCost, parallelism).Some?
  {
    var encoded := Encode(salt, ToUInt32(memoryCost), ToUInt32(timeCost), ToUInt32(parallelism), hit.hashStr);
    assert OccursAt(encoded, hit.hashStr, |encoded| - |hit.hashStr|);
  }

  /** Preparing refuses a find exactly when it is already encoded for another cost. */
  lemma PrepareRefuses(hit: BlockHit, salt: string, memoryCost: Int32, timeCost: int, parallelism: int)
    ensures PrepareHit(hit, salt, memoryCost, timeCost, parallelism).None?
            <==> IsArgon2Encoded(hit.hashStr) && MemoryCostFromHash(hit.hashStr).Some?
                 && MemoryCostFromHash(hit.hashStr).value != memoryCost
  {
    if !IsArgon2Encoded(hit.hashStr) {
      PrepareBareSucceeds(hit, salt, memoryCost, timeCost, parallelism);
    }
  }

  lemma EncodedIsEncoded(salt: string, memoryCost: UInt32, timeCost: UInt32, parallelism: UInt32, digest: string)
    ensures IsArgon2Encoded(Encode(salt, memoryCost, timeCost, parallelism, digest))
  {
    assert Encode(salt, memoryCost, timeCost, parallelism, digest)[..7] == "$argon2";
  }

  /** Preparing a prepared find at the same cost changes nothing. */
  lemma PrepareIdempotent(hit: BlockHit, salt: string, memoryCost: Int32, timeCost: int, parallelism: int)
    ensures var once := PrepareHit(hit, salt, memoryCost, timeCost, parallelism);
            once.Some? ==>
              && IsArgon2Encoded(once.value.hashStr)
              && PrepareHit(once.value, salt, memoryCost, timeCost, parallelism) == once
  {
    hide ClassifyBlock, Encode, MemoryCostFromHash, IsArgon2Encoded, Contains;
    ClassifyIdempotent(hit.hashStr, hit.blockType);
    if !IsArgon2Encoded(hit.hashStr) {
      var m, t, p := ToUInt32(memoryCost), ToUInt32(timeCost), ToUInt32(parallelism);
      CostRoundTrip(salt, m, t, p, hit.hashStr);
      EncodedIsEncoded(salt, m, t, p, hit.hashStr);
      ClassifyIdempotent(Encode(salt, m, t, p, hit.hashStr), hit.blockType);
    }
  }

  // ---- classification, from the text itself ------------------------------------------------

  lemma {:induction false} CountsLast(text: string, last: char)
    ensures UppercaseCount(text + [last]) == UppercaseCount(text) + if 'A' <= last <= 'Z' then 1 else 0
    ensures CountDollars(text + [last]) == CountDollars(text) + if last == '$' then 1 else 0
  {
    if text == [] {
      assert [last][1..] == [];
    } else {
      assert (text + [last])[1..] == text[1..] + [last];
      CountsLast(text[1..], last);
    }
  }

  lemma {:induction false} UppercaseCounted(text: string)
    ensures UppercaseCount(text) == |set i | 0 <= i < |text| && 'A' <= text[i] <= 'Z'|
  {
    if text != [] {
      var front, k := text[..|text| - 1], |text| - 1;
      assert text == front + [text[k]];
      CountsLast(front, text[k]);
      UppercaseCounted(front);
      var u, u' := set i | 0 <= i < k && 'A' <= front[i] <= 'Z', set i | 0 <= i < |text| && 'A' <= text[i] <= 'Z';
      assert u' == if 'A' <= text[k] <= 'Z' then u + {k} else u;
    }
  }

  lemma {:induction false} DollarsCounted(text: string)
    ensures CountDollars(text) == |set i | 0 <= i < |text| && text[i] == '$'|
  {
    if text != [] {
      var front, k := text[..|text| - 1], |text| - 1;
      assert text == front + [text[k]];
      CountsLast(front, text[k]);
      DollarsCounted(front);
      var d, d' := set i | 0 <= i < k && front[i] == '$', set i | 0 <= i < |text| && text[i] == '$';
      assert d' == if text[k] == '$' then d + {k} else d;
    }
  }

  lemma {:induction false} AfterLastDollarIs(s: string, d: string)
    requires d == AfterLastDollar(s)
    ensures '$' !in d && |d| <= |s| && s[|s| - |d|..] == d
    ensures '$' in s ==> |d| < |s| && s[|s| - |d| - 1] == '$'
    ensures '$' !in s ==> d == s
  {
    if '$' in s {
      AfterLastDollarIs(s[1..], d);
      if '$' in s[1..] {
        assert s[1..][|s[1..]| - |d| - 1] == '$';
      } else {
        assert s[0] == '$';
      }
    }
  }

  lemma {:induction false} DollarsSome(s: string)
    ensures CountDollars(s) > 0 <==> '$' in s
  {
    if s != [] {
      DollarsSome(s[1..]);
    }
  }

  /** The digest part: what follows the last '$' of a text that starts with one or holds
      four, and otherwise the text itself. */
  lemma DigestPart(h: string)
    ensures var d := HashDigestForSuperblock(h);
            if h != "" && (h[0] == '$' || |set i | 0 <= i < |h| && h[i] == '$'| >= 4)
            then exists front :: h == front + "$" + d && '$' !in d
            else d == h
  {
    var d := HashDigestForSuperblock(h);
    DollarsCounted(h);
    if h != "" && (h[0] == '$' || CountDollars(h) >= 4) {
      AfterLastDollarIs(h, d);
      DollarsSome(h);
      assert h == h[..|h| - |d| - 1] + "$" + d;
    }
  }

  predicate XuniAt(h: string, i: nat) {
    i + 4 < |h|
    && h[i] == 'X' && h[i + 1] == 'U' && h[i + 2] == 'N' && h[i + 3] == 'I' && '0' <= h[i + 4] <= '9'
  }

  predicate XuniMarked(h: string) {
    exists i: nat :: i < |h| && XuniAt(h, i)
  }

  /** A digest part with at least fifty capital letters. */
  predicate Capital(h: string) {
    var d := HashDigestForSuperblock(h);
    |set i | 0 <= i < |d| && 'A' <= d[i] <= 'Z'| >= 50
  }

  lemma MarkAt(h: string, i: nat)
    ensures OccursAt(h, "XUNI", i) && i + 4 < |h| && IsDigit(h[i + 4]) <==> XuniAt(h, i)
  {
    if i + 4 < |h| {
      var part := h[i..i + 4];
      assert part[0] == h[i] && part[1] == h[i + 1] && part[2] == h[i + 2] && part[3] == h[i + 3];
    }
  }

  lemma MarkIs(h: string)
    ensures HasXuniMark(h) <==> XuniMarked(h)
  {
    hide OccursAt, XuniAt;
    forall i: nat
      ensures OccursAt(h, "XUNI", i) && i + 4 < |h| && IsDigit(h[i + 4]) <==> XuniAt(h, i)
    {
      MarkAt(h, i);
    }
  }

  /** The kind of a find from its hash and a type in plain capitals. */
  lemma ClassifyExactly(h: string, t: string)
    requires PlainType(t)
    ensures var kind := ClassifyBlock(h, t);
            && (kind == "XUNI" <==> t == "XUNI" || XuniMarked(h))
            && (kind == "XBLK" <==> !(t == "XUNI" || XuniMarked(h))
                                    && (t == "XBLK" || (Contains(h, "XEN11") && Capital(h))))
            && (kind == "XNM" <==> !(t == "XUNI" || XuniMarked(h)) && t != "XBLK"
                                   && (if Contains(h, "XEN11") then !Capital(h) else t in {"XEN11", "NORMAL", "XNM"}))
            && kind in {"XUNI", "XBLK", "XNM", "OTHER"}
  {
    hide HasXuniMark, XuniMarked, Contains, HashDigestForSuperblock, NormalType;
    NormalTypePlain(t);
    MarkIs(h);
    UppercaseCounted(HashDigestForSuperblock(h));
  }

  /** Preparing keeps what the miner reported. A bare digest becomes the encoded form that
      holds it, at the cost asked for, which is then recorded; an encoded one stays. */
  lemma PreparedFields(hit: BlockHit, salt: string, memoryCost: Int32, timeCost: int, parallelism: int)
    ensures var r := PrepareHit(hit, salt, memoryCost, timeCost, parallelism);
            r.Some? ==>
              var h := r.value;
              && h.key == hit.key && h.attempts == hit.attempts && h.strategy == hit.strategy && h.hps == hit.hps
              && h.foundAt == hit.foundAt && h.blockType in {"XUNI", "XBLK", "XNM", "OTHER"}
              && (IsArgon2Encoded(hit.hashStr) ==> h.hashStr == hit.hashStr && h.memoryCost == hit.memoryCost)
              && (!IsArgon2Encoded(hit.hashStr) ==>
                    && h.memoryCost == Some(memoryCost)
                    && (memoryCost >= 0 ==> MemoryCostFromHash(h.hashStr) == Some(memoryCost))
                    && ('$' !in hit.hashStr ==> HashDigestForSuperblock(h.hashStr) == hit.hashStr))
  {
    hide Encode, MemoryCostFromHash, HashDigestForSuperblock, IsArgon2Encoded, NormalType, HasXuniMark, IsSuperblock;
    hide Contains;
    if !IsArgon2Encoded(hit.hashStr) {
      CostRoundTrip(salt, ToUInt32(memoryCost), ToUInt32(timeCost), ToUInt32(parallelism), hit.hashStr);
      DigestRoundTrip(salt, ToUInt32(memoryCost), ToUInt32(timeCost), ToUInt32(parallelism), hit.hashStr);
    }
  }
}
