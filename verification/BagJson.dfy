/** The bag's JSON, at the level of JSON values. Member names are an enumeration; text
    syntax is not modelled. Reading a member of the wrong type throws. */
module BagJson {
  import opened Hits

  datatype Name =
    | NKey | NHashStr | NBlockType | NStrategy | NAttempts | NHps | NFoundAt | NMemoryCost
    | NId | NQueueReason | NReason | NRejectCount | NForwarded | NQueuedAt
    | NNextId | NPending | NHits | NWorker | NSource

  datatype Json =
    | JNull
    | JBool(b: bool)
    | JInt(n: int)
    | JReal(x: real)
    | JStr(s: string)
    | JArr(items: seq<Json>)
    | JObj(members: map<Name, Json>)

  /** The outcome of a read that may throw. */
  datatype Read<+T> = Ok(value: T) | Threw {
    predicate IsFailure() { Threw? }
    function PropagateFailure<U>(): Read<U>
      requires Threw?
    {
      Threw
    }
    function Extract(): T
      requires Ok?
    {
      value
    }
  }

  /** Conversion of a 64-bit number to `int`. */
  function ToInt32(n: int): Int32 {
    (n + 0x8000_0000) % 0x1_0000_0000 - 0x8000_0000
  }

  function Truncate(x: real): int {
    if x >= 0.0 then x.Floor else -((-x).Floor)
  }

  // ---- json::value(name, default), by the type of the default -------------------------

  function StrAt(j: Json, name: Name, default: string): Read<string> {
    if !j.JObj? then Threw
    else if name !in j.members then Ok(default)
    else if j.members[name].JStr? then Ok(j.members[name].s)
    else Threw
  }

  function GetInt(v: Json): Read<Int32> {
    match v
    case JInt(n) => Ok(ToInt32(n))
    case JReal(x) => Ok(ToInt32(Truncate(x)))
    case JBool(b) => Ok(if b then 1 else 0)
    case _ => Threw
  }

  function IntAt(j: Json, name: Name, default: Int32): Read<Int32> {
    if !j.JObj? then Threw else if name !in j.members then Ok(default) else GetInt(j.members[name])
  }

  function Int64At(j: Json, name: Name, default: int): Read<int> {
    if !j.JObj? then Threw
    else if name !in j.members then Ok(default)
    else
      match j.members[name]
      case JInt(n) => Ok(n)
      case JReal(x) => Ok(Truncate(x))
      case _ => Threw
  }

  function RealAt(j: Json, name: Name, default: real): Read<real> {
    if !j.JObj? then Threw
    else if name !in j.members then Ok(default)
    else
      match j.members[name]
      case JReal(x) => Ok(x)
      case JInt(n) => Ok(n as real)
      case _ => Threw
  }

  function BoolAt(j: Json, name: Name, default: bool): Read<bool> {
    if !j.JObj? then Threw
    else if name !in j.members then Ok(default)
    else if j.members[name].JBool? then Ok(j.members[name].b)
    else Threw
  }

  // ---- one hit --------------------------------------------------------------------------

  function HitMembers(hit: BlockHit): map<Name, Json> {
    map[NKey := JStr(hit.key), NHashStr := JStr(hit.hashStr), NBlockType := JStr(hit.blockType),
        NStrategy := JStr(hit.strategy), NAttempts := JInt(hit.attempts), NHps := JReal(hit.hps),
        NFoundAt := JStr(hit.foundAt)]
    + if hit.memoryCost.Some? then map[NMemoryCost := JInt(hit.memoryCost.value)] else map[]
  }

  function HitToJson(hit: BlockHit): Json {
    JObj(HitMembers(hit))
  }

  function MemoryCostOf(j: Json): Read<Option<Int32>> {
    if j.JObj? && NMemoryCost in j.members && !j.members[NMemoryCost].JNull? then
      var m :- GetInt(j.members[NMemoryCost]);
      Ok(Some(m))
    else Ok(None)
  }

  function HitFromJson(j: Json): Read<BlockHit> {
    var key :- StrAt(j, NKey, "");
    var hashStr :- StrAt(j, NHashStr, "");
    var blockType :- StrAt(j, NBlockType, "XNM");
    var strategy :- StrAt(j, NStrategy, "random");
    var attempts :- IntAt(j, NAttempts, 0);
    var hps :- RealAt(j, NHps, 0.0);
    var foundAt :- StrAt(j, NFoundAt, "");
    var memoryCost :- MemoryCostOf(j);
    Ok(BlockHit(key, hashStr, blockType, attempts, strategy, hps, foundAt, memoryCost))
  }

  /** What is left of a hit after a trip through JSON: attempts is a 64-bit count that
      is read back as an `int`. */
  function Reread(hit: BlockHit): BlockHit {
    hit.(attempts := ToInt32(hit.attempts))
  }

  /** Object members that carry a hit, possibly among others. */
  ghost predicate Carries(members: map<Name, Json>, hit: BlockHit) {
    && (forall n :: n in HitMembers(hit) ==> n in members && members[n] == HitMembers(hit)[n])
    && (hit.memoryCost.None? ==> NMemoryCost !in members)
  }

  lemma CarriedHitReads(members: map<Name, Json>, hit: BlockHit)
    requires Carries(members, hit)
    ensures HitFromJson(JObj(members)) == Ok(Reread(hit))
  {
    var m := HitMembers(hit);
    assert NKey in m && NHashStr in m && NBlockType in m && NStrategy in m;
    assert NAttempts in m && NHps in m && NFoundAt in m;
    assert hit.memoryCost.Some? ==> NMemoryCost in m;
  }

  const HIT_NAMES: set<Name> := {NKey, NHashStr, NBlockType, NStrategy, NAttempts, NHps, NFoundAt, NMemoryCost}

  /** Members added beside a hit do not disturb it, and are read as they are. */
  lemma HitWithExtras(hit: BlockHit, extra: map<Name, Json>)
    requires extra.Keys !! HIT_NAMES
    ensures var j := JObj(HitMembers(hit) + extra);
            && HitFromJson(j) == Ok(Reread(hit))
            && (forall n :: n !in HIT_NAMES ==> (n in j.members <==> n in extra))
            && (forall n :: n in extra ==> j.members[n] == extra[n])
  {
    assert HitMembers(hit).Keys <= HIT_NAMES;
    assert Carries(HitMembers(hit) + extra, hit);
    CarriedHitReads(HitMembers(hit) + extra, hit);
  }

  /** A hit survives the trip exactly when its attempts fit an `int`. */
  lemma HitRoundTrip(hit: BlockHit)
    ensures HitFromJson(HitToJson(hit)) == Ok(Reread(hit))
    ensures Reread(hit) == hit <==> -0x8000_0000 <= hit.attempts < 0x8000_0000
  {
    CarriedHitReads(HitMembers(hit), hit);
  }

  /** The member names by which other programs know a hit's parts, and what one of their
      hits that has only a key and a digest is taken for. */
  lemma HitNames(hit: BlockHit, j: Json)
    ensures HitToJson(hit).members[NKey] == JStr(hit.key)
    ensures HitToJson(hit).members[NHashStr] == JStr(hit.hashStr)
    ensures HitToJson(hit).members[NBlockType] == JStr(hit.blockType)
    ensures HitToJson(hit).members[NFoundAt] == JStr(hit.foundAt)
    ensures HitToJson(hit).members[NStrategy] == JStr(hit.strategy)
    ensures NMemoryCost in HitToJson(hit).members <==> hit.memoryCost.Some?
    ensures HitFromJson(JObj(map[NKey := JStr(hit.key), NHashStr := JStr(hit.hashStr)]))
            == Ok(BlockHit(hit.key, hit.hashStr, "XNM", 0, "random", 0.0, "", None))
    ensures HitFromJson(j).Ok? && j.JObj? && NHashStr in j.members ==>
              j.members[NHashStr] == JStr(HitFromJson(j).value.hashStr)
    ensures HitFromJson(j).Ok? && j.JObj? && NKey in j.members ==> j.members[NKey] == JStr(HitFromJson(j).value.key)
  {
  }

  /** What a member of another number type is taken for: the int of a 64-bit number is the
      one congruent to it, a fraction loses what is behind the point, true counts one. */
  lemma NumbersRead(n: int, x: real, b: bool)
    ensures GetInt(JInt(n)).Ok? && (GetInt(JInt(n)).value - n) % 0x1_0000_0000 == 0
    ensures GetInt(JReal(x)) == GetInt(JInt(Truncate(x)))
    ensures if x >= 0.0 then Truncate(x) as real <= x < Truncate(x) as real + 1.0
            else Truncate(x) as real - 1.0 < x <= Truncate(x) as real
    ensures GetInt(JBool(true)) == Ok(1) && GetInt(JBool(false)) == Ok(0)
  {
  }

  /** A body without a list is a single hit if it has a digest or a key, and nothing else. */
  lemma LoneHit(members: map<Name, Json>)
    requires NHits in members ==> !members[NHits].JArr?
    requires NPending in members ==> !members[NPending].JArr?
    ensures TakeHits(BagItems(JObj(members)))
            == if NHashStr !in members && NKey !in members then Ok([]) else TakeHits([JObj(members)])
  {
  }

  // ---- the forwarded bag ------------------------------------------------------------------

  function HitArray(hits: seq<BlockHit>): seq<Json> {
    seq(|hits|, i requires 0 <= i < |hits| => HitToJson(hits[i]))
  }

  function BagToJson(hits: seq<BlockHit>, worker: string): Json {
    JObj(map[NWorker := JStr(worker), NHits := JArr(HitArray(hits))])
  }

  predicate Nameless(hit: BlockHit) {
    hit.hashStr == "" && hit.key == ""
  }

  /** The hits taken from an array: objects only, and only those with a digest or a key. */
  function TakeHits(items: seq<Json>): Read<seq<BlockHit>> {
    if items == [] then Ok([])
    else
      var front :- TakeHits(items[..|items| - 1]);
      var last := items[|items| - 1];
      if !last.JObj? then Ok(front)
      else
        var hit :- HitFromJson(last);
        Ok(if Nameless(hit) then front else front + [hit])
  }

  predicate HasArray(root: Json, name: Name) {
    root.JObj? && name in root.members && root.members[name].JArr?
  }

  predicate HasMember(root: Json, name: Name) {
    root.JObj? && name in root.members
  }

  /** The array hits_from_bag_json goes through: "hits", else "pending", else the root
      itself when it looks like a hit. */
  function BagItems(root: Json): seq<Json> {
    if HasArray(root, NHits) then root.members[NHits].items
    else if HasArray(root, NPending) then root.members[NPending].items
    else if HasMember(root, NHashStr) || HasMember(root, NKey) then [root]
    else []
  }

  function BagWorker(root: Json, known: string): Read<string> {
    if HasMember(root, NWorker) then StrAt(root, NWorker, "")
    else if HasMember(root, NSource) then StrAt(root, NSource, "")
    else Ok(known)
  }

  /** hits_from_bag_json; body is None when the text is not JSON. */
  method HitsFromBagJson(body: Option<Json>, known: string) returns (r: Read<(seq<BlockHit>, string)>)
    ensures body.None? ==> r == Ok(([], known))
    ensures body.Some? ==>
              var worker, hits := BagWorker(body.value, known), TakeHits(BagItems(body.value));
              r == if worker.Threw? || hits.Threw? then Threw else Ok((hits.value, worker.value))
  {
    if body.None? {
      return Ok(([], known));
    }
    var root := body.value;
    var worker := BagWorker(root, known);
    if worker.Threw? {
      return Threw;
    }
    var items := BagItems(root);
    var out: seq<BlockHit> := [];
    for i := 0 to |items|
      invariant TakeHits(items[..i]) == Ok(out)
    {
      assert items[..i + 1][..i] == items[..i];
      if items[i].JObj? {
        var hit := HitFromJson(items[i]);
        if hit.Threw? {
          TakeHitsThrows(items, i + 1);
          return Threw;
        }
        if !Nameless(hit.value) {
          out := out + [hit.value];
        }
      }
    }
    assert items[..|items|] == items;
    return Ok((out, worker.value));
  }

  lemma {:induction false} TakeHitsThrows(items: seq<Json>, n: nat)
    requires n <= |items| && TakeHits(items[..n]).Threw?
    ensures TakeHits(items).Threw?
    decreases |items|
  {
    if n == |items| {
      assert items[..n] == items;
    } else {
      assert items[..|items| - 1][..n] == items[..n];
      TakeHitsThrows(items[..|items| - 1], n);
    }
  }

  function RereadNamed(hits: seq<BlockHit>): seq<BlockHit> {
    if hits == [] then []
    else
      var front, last := RereadNamed(hits[..|hits| - 1]), hits[|hits| - 1];
      if Nameless(last) then front else front + [Reread(last)]
  }

  lemma {:induction false} TakeWritten(hits: seq<BlockHit>)
    ensures TakeHits(HitArray(hits)) == Ok(RereadNamed(hits))
  {
    hide HitFromJson, HitMembers, ToInt32;
    if hits != [] {
      var front := hits[..|hits| - 1];
      TakeWritten(front);
      assert HitArray(hits)[..|hits| - 1] == HitArray(front);
      HitRoundTrip(hits[|hits| - 1]);
    }
  }

  ghost predicate Faithful(hits: seq<BlockHit>) {
    forall i :: 0 <= i < |hits| ==> !Nameless(hits[i]) && -0x8000_0000 <= hits[i].attempts < 0x8000_0000
  }

  lemma {:induction false} RereadNamedIs(hits: seq<BlockHit>)
    ensures |RereadNamed(hits)| <= |hits|
    ensures RereadNamed(hits) == hits <==> Faithful(hits)
  {
    if hits != [] {
      var front, last := hits[..|hits| - 1], hits[|hits| - 1];
      RereadNamedIs(front);
      HitRoundTrip(last);
      assert hits == front + [last];
      if RereadNamed(hits) == hits {
        assert RereadNamed(hits)[..|hits| - 1] == front;
      }
    }
  }

  /** Bag round trip: the reader returns the hits written that have a key or a digest,
      attempts wrapped to an `int`; so it inverts the writer exactly on bags whose hits
      all have one and whose attempts all fit. */
  lemma {:induction false} BagRoundTrip(hits: seq<BlockHit>, worker: string, known: string)
    ensures TakeHits(BagItems(BagToJson(hits, worker))) == Ok(RereadNamed(hits))
    ensures BagWorker(BagToJson(hits, worker), known) == Ok(worker)
    ensures TakeHits(BagItems(BagToJson(hits, worker))) == Ok(hits) <==> Faithful(hits)
  {
    TakeWritten(hits);
    RereadNamedIs(hits);
  }
}
