/** The values the miner's components pass to one another. */
module Hits {

  datatype Option<+T> = None | Some(value: T) {
    function GetOr(default: T): T {
      if Some? then value else default
    }
  }

  /** The range of the source's `int`. */
  type Int32 = x: int | -0x8000_0000 <= x < 0x8000_0000

  /** `BlockHit`: one find. hashStr is its digest, bare or in encoded form. */
  datatype BlockHit = BlockHit(
    key: string,
    hashStr: string,
    blockType: string,
    attempts: int,
    strategy: string,
    hps: real,
    foundAt: string,
    memoryCost: Option<Int32>)

  /** `PendingBlock`: a find waiting in the bag. */
  datatype PendingBlock = PendingBlock(
    id: int,
    hit: BlockHit,
    queueReason: string,
    rejectCount: Int32,
    forwarded: bool)

  function Max(a: int, b: int): int { if a >= b then a else b }
  function Min(a: int, b: int): int { if a <= b then a else b }

  // ---- C-locale text helpers ---------------------------------------------------------

  predicate IsSpace(c: char) {
    c == ' ' || '\t' <= c <= '\r'
  }

  function TrimLeft(s: string): string {
    if s != [] && IsSpace(s[0]) then TrimLeft(s[1..]) else s
  }

  function TrimRight(s: string): string {
    if s != [] && IsSpace(s[|s| - 1]) then TrimRight(s[..|s| - 1]) else s
  }

  function Trim(s: string): string {
    TrimRight(TrimLeft(s))
  }

  function LowerChar(c: char): char {
    if 'A' <= c <= 'Z' then c - 'A' + 'a' else c
  }

  function ToLower(s: string): string {
    seq(|s|, i requires 0 <= i < |s| => LowerChar(s[i]))
  }

  function UpperChar(c: char): char {
    if 'a' <= c <= 'z' then c - 'a' + 'A' else c
  }

  function ToUpper(s: string): string {
    seq(|s|, i requires 0 <= i < |s| => UpperChar(s[i]))
  }

  predicate OccursAt(s: string, pattern: string, i: nat) {
    i + |pattern| <= |s| && s[i..i + |pattern|] == pattern
  }

  /** `s.find(pattern) != npos`. */
  predicate Contains(s: string, pattern: string) {
    exists i :: 0 <= i <= |s| && OccursAt(s, pattern, i)
  }

  /** The same character, or the same ASCII letter in either case. */
  predicate SameLetter(a: char, b: char) {
    || a == b
    || ('A' <= a <= 'Z' && b as int == a as int + 32)
    || ('A' <= b <= 'Z' && a as int == b as int + 32)
  }

  /** Equal up to the case of ASCII letters. */
  predicate SameText(a: string, b: string) {
    |a| == |b| && forall i :: 0 <= i < |a| ==> SameLetter(a[i], b[i])
  }

  lemma UpperIs(s: string, text: string)
    requires forall i :: 0 <= i < |text| ==> !('a' <= text[i] <= 'z')
    ensures ToUpper(s) == text <==> SameText(s, text)
  {
    var up := ToUpper(s);
    assert forall i :: 0 <= i < |up| && |up| == |text| ==> (up[i] == text[i] <==> SameLetter(s[i], text[i]));
  }
}
