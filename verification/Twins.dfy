/** When conservation of the finds themselves can fail: exactly when two of them, or one
    of them and a bagged one, have the same hash. */
module Twins {
  import opened Hits
  import opened Phc
  import opened Store
  import opened BagRuns
  import opened Lifecycle
  import opened Finds
  import opened HitPaths

  /** A find as it comes from the GPU, and what it is prepared with. */
  datatype Raw = Raw(hit: BlockHit, salt: string, mineM: Int32, timeCost: int, parallelism: int)

  function PreparedOf(x: Raw): Option<BlockHit> {
    PrepareHit(x.hit, x.salt, x.mineM, x.timeCost, x.parallelism)
  }

  ghost predicate Yields(x: Raw, hit: BlockHit) {
    IsHex64Key(x.hit.key) && PreparedOf(x) == Some(hit)
  }

  ghost predicate Preparable(hit: BlockHit) {
    exists x :: Yields(x, hit)
  }

  function FindAndQueue(x: Raw): seq<Step> {
    [Find(x.hit, x.salt, x.mineM, x.timeCost, x.parallelism), SeeRunning, QueueFind("", "")]
  }

  /** The mining thread bagging these finds in turn. */
  function Queueing(xs: seq<Raw>): seq<(Thread, Step)> {
    if xs == [] then [(MiningThread, StartMining)]
    else Queueing(xs[..|xs| - 1]) + By(MiningThread, FindAndQueue(xs[|xs| - 1]))
  }

  ghost predicate ReadyToFind(y: Sys) {
    y.main == Working(Empty, false) && !y.shuttingDown && y.accepted == {}
    && y.live == [] && y.worker == Waiting && y.handler == Idle
  }

  lemma StartReady(s: StoreState)
    ensures var y := Lifecycle.Run(Begin(s), Queueing([]));
            ReadyToFind(y) && y.store == s && y.prepared == {}
  {
    assert [(MiningThread, StartMining)][..0] == [];
  }

  lemma QueueOne(s: StoreState, xs: seq<Raw>, x: Raw, hit: BlockHit)
    requires ReadyToFind(Lifecycle.Run(Begin(s), Queueing(xs))) && Yields(x, hit)
    ensures var y, z := Lifecycle.Run(Begin(s), Queueing(xs)), Lifecycle.Run(Begin(s), Queueing(xs + [x]));
            && ReadyToFind(z) && z.prepared == y.prepared + {hit}
            && z.store == Enqueue(y.store, hit, "", "").0
  {
    hide Lifecycle.Run, By, Enqueue, PrepareHit, IsHex64Key;
    assert (xs + [x])[..|xs|] == xs;
    var y := Lifecycle.Run(Begin(s), Queueing(xs));
    RunAppend(Begin(s), Queueing(xs), By(MiningThread, FindAndQueue(x)));
    HandleIsSteps(y, x.hit, x.salt, x.mineM, x.timeCost, x.parallelism, Bag(""), "", false);
  }

  lemma ReadyHoldsNothing(y: Sys, hit: BlockHit)
    requires ReadyToFind(y)
    ensures Kept(y, hit) <==> hit in BagHits(y.store)
  {
  }

  lemma BagHitsAppend(s: StoreState, t: StoreState, p: PendingBlock)
    requires t.pending == s.pending + [p]
    ensures BagHits(t) == BagHits(s) + {p.hit}
  {
    assert p in t.pending && forall q :: q in s.pending ==> q in t.pending;
  }

  lemma EnqueueBags(s: StoreState, hit: BlockHit)
    requires Inv(s) && hit.hashStr != ""
    ensures var t := Enqueue(s, hit, "", "").0;
            && Inv(t) && hit.hashStr in t.index
            && BagHits(t) == BagHits(s) + (if hit.hashStr in s.index then {} else {hit})
  {
    hide Inv;
    EnqueueGrows(s, hit, "", "");
    if hit.hashStr !in s.index {
      var p := PendingBlock(s.nextId, hit, "", 0, false);
      BagHitsAppend(s, Enqueue(s, hit, "", "").0, p);
    }
  }

  lemma YieldsEncoded(x: Raw, hit: BlockHit)
    requires Yields(x, hit)
    ensures hit.hashStr != ""
  {
    PrepareIdempotent(x.hit, x.salt, x.mineM, x.timeCost, x.parallelism);
  }

  /** A find whose hash the bag already holds for another find is lost. */
  lemma LostToBag(s: StoreState, x: Raw, hit: BlockHit)
    requires Inv(s) && Yields(x, hit) && hit.hashStr in s.index && hit !in BagHits(s)
    ensures var y := Lifecycle.Run(Begin(s), Queueing([x]));
            y.prepared == {hit} && !Kept(y, hit)
  {
    hide Inv, Lifecycle.Run, Queueing, Yields, Enqueue, BagHits, Kept;
    StartReady(s);
    QueueOne(s, [], x, hit);
    assert [] + [x] == [x];
    YieldsEncoded(x, hit);
    EnqueueBags(s, hit);
    ReadyHoldsNothing(Lifecycle.Run(Begin(s), Queueing([x])), hit);
  }

  /** Of two finds with the same hash, new to the bag, the second is lost. */
  lemma LostToFirst(s: StoreState, x1: Raw, first: BlockHit, x2: Raw, second: BlockHit)
    requires Inv(s) && Yields(x1, first) && Yields(x2, second)
    requires first != second && first.hashStr == second.hashStr && second.hashStr !in s.index
    ensures var y := Lifecycle.Run(Begin(s), Queueing([x1, x2]));
            y.prepared == {first, second} && Kept(y, first) && !Kept(y, second)
  {
    hide Inv, Lifecycle.Run, Queueing, Yields, Enqueue, BagHits, Kept;
    StartReady(s);
    QueueOne(s, [], x1, first);
    assert [] + [x1] == [x1] && [x1] + [x2] == [x1, x2];
    QueueOne(s, [x1], x2, second);
    YieldsEncoded(x1, first);
    var mid := Enqueue(s, first, "", "").0;
    EnqueueBags(s, first);
    EnqueueBags(mid, second);
    NotBagged(s, second);
    ReadyHoldsNothing(Lifecycle.Run(Begin(s), Queueing([x1, x2])), first);
    ReadyHoldsNothing(Lifecycle.Run(Begin(s), Queueing([x1, x2])), second);
  }

  lemma NotBagged(s: StoreState, hit: BlockHit)
    requires Inv(s) && hit.hashStr != ""
    ensures hit.hashStr !in s.index ==> hit !in BagHits(s)
  {
  }

  lemma OnePerHash(s: StoreState, g: BlockHit, h: BlockHit)
    requires Inv(s) && g.hashStr != "" && g.hashStr == h.hashStr && g in BagHits(s) && h in BagHits(s)
    ensures g == h
  {
    var p :| p in s.pending && p.hit == g;
    var q :| q in s.pending && q.hit == h;
  }

  /** No run that prepares only these finds loses one. */
  ghost predicate AllKept(s: StoreState, finds: set<BlockHit>) {
    forall steps, hit ::
      hit in Lifecycle.Run(Begin(s), steps).prepared && Lifecycle.Run(Begin(s), steps).prepared <= finds ==>
        Kept(Lifecycle.Run(Begin(s), steps), hit)
  }

  lemma {:induction false} TwinLoses(s: StoreState, finds: set<BlockHit>, h: BlockHit, g: BlockHit)
    requires Inv(s) && h in finds && Preparable(h) && g != h && g.hashStr == h.hashStr
    requires g in BagHits(s) || (g in finds && Preparable(g))
    ensures !AllKept(s, finds)
  {
    hide Inv, Lifecycle.Run, Queueing, Yields, BagHits, Kept;
    var x :| Yields(x, h);
    YieldsEncoded(x, h);
    if h.hashStr !in s.index {
      NotBagged(s, g);
      var w :| Yields(w, g);
      LostToFirst(s, w, g, x, h);
    } else if h !in BagHits(s) {
      LostToBag(s, x, h);
    } else {
      if g in BagHits(s) {
        OnePerHash(s, g, h);
      }
      var w :| Yields(w, g);
      LostToBag(s, w, g);
    }
  }

  /** The exact condition: whatever the threads do, all finds are kept, if and only if no
      two of them, and none of them and a bagged one, have the same hash. */
  lemma {:induction false} TwinsDecide(s: StoreState, finds: set<BlockHit>)
    requires Inv(s) && forall h :: h in finds ==> Preparable(h)
    ensures AllKept(s, finds) <==> NoTwins(finds, BagHits(s))
  {
    hide Inv, Lifecycle.Run, BagHits, Kept, Preparable;
    if NoTwins(finds, BagHits(s)) {
      forall steps, hit |
        hit in Lifecycle.Run(Begin(s), steps).prepared && Lifecycle.Run(Begin(s), steps).prepared <= finds
        ensures Kept(Lifecycle.Run(Begin(s), steps), hit)
      {
        FindsThemselves(s, steps, hit);
      }
    } else {
      var h, g :| h in finds && g in finds + BagHits(s) && g.hashStr == h.hashStr && g != h;
      TwinLoses(s, finds, h, g);
    }
  }

  // ---- a concrete pair ------------------------------------------------------------------------

  /** A key of 64 equal digits. */
  function KeyOf(digit: char): (key: string)
    ensures |key| == 64 && forall i :: 0 <= i < 64 ==> key[i] == digit
  {
    seq(64, _ => digit)
  }

  function RawWithKey(key: string): Raw {
    Raw(BlockHit(key, "c2FsdA/XEN11", "XNM", 1, "cuda", 0.0, "", None), "c2FsdA", 100, 1, 1)
  }

  lemma BareDigest(key: string)
    ensures !IsArgon2Encoded(RawWithKey(key).hit.hashStr)
  {
    assert "$argon2"[0] == '$';
  }

  function HitWithKey(key: string): BlockHit {
    BareDigest(key);
    PrepareBareSucceeds(RawWithKey(key).hit, "c2FsdA", 100, 1, 1);
    PreparedOf(RawWithKey(key)).value
  }

  lemma HitWithKeyIs(digit: char)
    requires IsHexDigit(digit)
    ensures var hit := HitWithKey(KeyOf(digit));
            && Yields(RawWithKey(KeyOf(digit)), hit)
            && hit.key == KeyOf(digit) && hit.hashStr == Encode("c2FsdA", 100, 1, 1, "c2FsdA/XEN11")
  {
    hide Encode, Contains, ClassifyBlock, MemoryCostFromHash;
    BareDigest(KeyOf(digit));
    PrepareBareSucceeds(RawWithKey(KeyOf(digit)).hit, "c2FsdA", 100, 1, 1);
  }

  /** Two finds with the same digest and different keys: both are prepared, only the first
      is kept. */
  lemma ConcreteTwin()
    ensures var y := Lifecycle.Run(Begin(EMPTY), Queueing([RawWithKey(KeyOf('0')), RawWithKey(KeyOf('1'))]));
            && y.prepared == {HitWithKey(KeyOf('0')), HitWithKey(KeyOf('1'))} && |y.prepared| == 2
            && HitWithKey(KeyOf('0')).key == KeyOf('0') && HitWithKey(KeyOf('1')).key == KeyOf('1')
            && Kept(y, HitWithKey(KeyOf('0'))) && !Kept(y, HitWithKey(KeyOf('1')))
  {
    hide HitWithKey, RawWithKey, Yields, Kept, Encode, Queueing, Lifecycle.Run;
    HitWithKeyIs('0');
    HitWithKeyIs('1');
    assert KeyOf('0')[0] != KeyOf('1')[0];
    EmptyBag();
    LostToFirst(EMPTY, RawWithKey(KeyOf('0')), HitWithKey(KeyOf('0')), RawWithKey(KeyOf('1')), HitWithKey(KeyOf('1')));
  }

  lemma EmptyBag()
    ensures Inv(EMPTY) && EMPTY.index == {}
  {
  }
}
