/** `try_flush_pending` from the selected batch on: building the work list, sending it in
    parallel waves, and settling each answer with the bag. */
module FlushWave {
  import opened Hits
  import opened Policy
  import opened Phc
  import opened Store
  import opened BagRuns
  import opened FlushBatch
  import opened BlockStores
  import opened Submit
  import Net = MatchWindow

  datatype WorkItem = WorkItem(id: int, hit: BlockHit)

  datatype View = View(
    netM: int, bagM: int, mineM: Int32, salt: string, timeCost: int, parallelism: int, minute: int,
    onShutdown: bool, draining: bool, drainParallel: int, drainBatch: int, skipBefore: int)

  /** Items per flush; 0 means the whole batch. */
  function WaveSize(v: View): (n: int)
    ensures n >= 0 && (n == 0 <==> v.onShutdown) && n <= 4096
    ensures !v.onShutdown && !v.draining ==> n == 64
    ensures !v.onShutdown && v.draining ==>
              && (v.drainBatch > 0 ==> n <= v.drainBatch)
              && (n == v.drainBatch || (n >= 256 && n >= 16 * Parallel(v) && (n == 256 || n == 16 * Parallel(v))))
  {
    if v.onShutdown then 0
    else if v.draining then
      var full := Max(256, Max(1, Min(256, v.drainParallel)) * 16);
      if v.drainBatch > 0 then Min(full, v.drainBatch) else full
    else 64
  }

  /** Submissions in flight at once. */
  function Parallel(v: View): (n: nat)
    ensures 1 <= n <= 256
    ensures v.onShutdown ==> n == 1
    ensures !v.onShutdown && !v.draining ==> n == 4
    ensures !v.onShutdown && v.draining ==>
              if 1 <= v.drainParallel <= 256 then n == v.drainParallel else n == 1 || n == 256
    ensures !v.onShutdown && v.draining && v.drainParallel > 256 ==> n == 256
    ensures !v.onShutdown && v.draining && v.drainParallel < 1 ==> n == 1
  {
    if v.onShutdown then 1 else if v.draining then Max(1, Min(256, v.drainParallel)) else 4
  }

  // ---- the work list ------------------------------------------------------------------------

  function HitCost(v: View, hit: BlockHit): Int32 {
    if hit.memoryCost.Some? then hit.memoryCost.value else v.mineM
  }

  predicate Workable(v: View, p: PendingBlock) {
    ReadyToFlush(p.hit.blockType, v.minute) && HitCost(v, p.hit) >= v.netM
  }

  /** The hit as submitted: encoded ones as they are, bare ones prepared at their cost. */
  function Submitted(v: View, hit: BlockHit): BlockHit {
    if IsArgon2Encoded(hit.hashStr) then hit
    else
      PrepareBareSucceeds(hit, v.salt, HitCost(v, hit), v.timeCost, v.parallelism);
      PrepareHit(hit, v.salt, HitCost(v, hit), v.timeCost, v.parallelism).value
  }

  function AllWork(v: View, ps: seq<PendingBlock>): seq<WorkItem> {
    if ps == [] then []
    else
      var front, p := AllWork(v, ps[..|ps| - 1]), ps[|ps| - 1];
      if Workable(v, p) then front + [WorkItem(p.id, Submitted(v, p.hit))] else front
  }

  function WorkOf(v: View, ps: seq<PendingBlock>): seq<WorkItem> {
    var all := AllWork(v, ps);
    if 0 < WaveSize(v) < |all| then all[..WaveSize(v)] else all
  }

  lemma {:induction false} AllWorkPrefix(v: View, ps: seq<PendingBlock>, n: nat)
    requires n <= |ps|
    ensures AllWork(v, ps[..n]) <= AllWork(v, ps)
    decreases |ps|
  {
    if n == |ps| {
      assert ps[..n] == ps;
    } else {
      assert ps[..|ps| - 1][..n] == ps[..n];
      AllWorkPrefix(v, ps[..|ps| - 1], n);
    }
  }

  ghost predicate ComesFrom(v: View, ps: seq<PendingBlock>, w: WorkItem) {
    exists p :: p in ps && p.id == w.id && Workable(v, p) && w.hit == Submitted(v, p.hit)
  }

  lemma {:induction false} AllWorkMembers(v: View, ps: seq<PendingBlock>)
    ensures forall k :: 0 <= k < |AllWork(v, ps)| ==> ComesFrom(v, ps, AllWork(v, ps)[k])
  {
    hide Workable, Submitted;
    if ps != [] {
      var front, p := ps[..|ps| - 1], ps[|ps| - 1];
      AllWorkMembers(v, front);
      assert forall q :: q in front ==> q in ps;
      assert forall w :: ComesFrom(v, front, w) ==> ComesFrom(v, ps, w);
      assert p in ps;
    }
  }

  ghost predicate DistinctWork(work: seq<WorkItem>) {
    forall j, k :: 0 <= j < k < |work| ==> work[j].id != work[k].id
  }

  lemma {:induction false} AllWorkDistinct(v: View, ps: seq<PendingBlock>)
    requires DistinctIds(ps)
    ensures DistinctWork(AllWork(v, ps))
  {
    hide Workable, Submitted;
    if ps != [] {
      var front, p := ps[..|ps| - 1], ps[|ps| - 1];
      AllWorkDistinct(v, front);
      AllWorkMembers(v, front);
      var work := AllWork(v, front);
      assert forall i :: 0 <= i < |front| ==> front[i] == ps[i] && ps[i].id != p.id;
      forall k | 0 <= k < |work|
        ensures work[k].id != p.id
      {
        assert ComesFrom(v, front, work[k]);
        var q :| q in front && q.id == work[k].id;
      }
      var all := AllWork(v, ps);
      forall j, k | 0 <= j < k < |all|
        ensures all[j].id != all[k].id
      {
        assert all[j] == work[j];
        assert if k < |work| then all[k] == work[k] else all[k].id == p.id;
      }
    }
  }

  /** Which blocks of a batch that a wave holds are sent: those whose cost, or the one
      mined at where they have none, reaches the network's, XUNI only in its window. */
  lemma WorkExactly(v: View, ps: seq<PendingBlock>, p: PendingBlock)
    requires DistinctIds(ps) && p in ps && 0 <= v.minute < 60
    requires v.onShutdown || |ps| <= WaveSize(v)
    ensures (exists k :: 0 <= k < |WorkOf(v, ps)| && WorkOf(v, ps)[k].id == p.id)
            <==> && (match p.hit.memoryCost case Some(m) => m >= v.netM case None => v.mineM >= v.netM)
                 && (Xuni(p) ==> (v.minute + 5) % 60 < 10)
  {
    hide Submitted, Xuni, Workable;
    WorkableExactly(v, p);
    AllWorkLength(v, ps);
    AllWorkMembers(v, ps);
    var work := WorkOf(v, ps);
    assert work == AllWork(v, ps);
    if Workable(v, p) {
      AllWorkHolds(v, ps, p);
    }
    if k :| 0 <= k < |work| && work[k].id == p.id {
      assert ComesFrom(v, ps, work[k]);
      var q :| q in ps && q.id == work[k].id && Workable(v, q);
      SameBlock(ps, p, q);
    }
  }

  lemma SameBlock(ps: seq<PendingBlock>, p: PendingBlock, q: PendingBlock)
    requires DistinctIds(ps) && p in ps && q in ps && p.id == q.id
    ensures p == q
  {
    var i :| 0 <= i < |ps| && ps[i] == p;
    var j :| 0 <= j < |ps| && ps[j] == q;
    assert i == j;
  }

  lemma WorkableExactly(v: View, p: PendingBlock)
    requires 0 <= v.minute < 60
    ensures Workable(v, p)
            <==> && (match p.hit.memoryCost case Some(m) => m >= v.netM case None => v.mineM >= v.netM)
                 && (Xuni(p) ==> (v.minute + 5) % 60 < 10)
  {
    TypesUpper(p);
    hide ToUpper, Xuni;
  }

  lemma {:induction false} AllWorkHolds(v: View, ps: seq<PendingBlock>, p: PendingBlock)
    requires p in ps && Workable(v, p)
    ensures exists k :: 0 <= k < |AllWork(v, ps)| && AllWork(v, ps)[k].id == p.id
  {
    hide Submitted, Workable;
    var front, all := ps[..|ps| - 1], AllWork(v, ps);
    assert ps == front + [ps[|ps| - 1]];
    if p in front {
      AllWorkHolds(v, front, p);
      var k :| 0 <= k < |AllWork(v, front)| && AllWork(v, front)[k].id == p.id;
      assert all[k].id == p.id;
    } else {
      assert all[|all| - 1].id == p.id;
    }
  }

  lemma {:induction false} AllWorkLength(v: View, ps: seq<PendingBlock>)
    ensures |AllWork(v, ps)| <= |ps|
  {
    hide Submitted, Workable;
    if ps != [] {
      AllWorkLength(v, ps[..|ps| - 1]);
    }
  }

  /** The prepare-failed branch, which would remove the block from the bag unsent, is
      never taken: `PrepareBareSucceeds`. */
  method BuildWork(v: View, ps: seq<PendingBlock>) returns (work: seq<WorkItem>)
    ensures work == WorkOf(v, ps)
  {
    hide Encode, HitCost;
    work := [];
    for i := 0 to |ps|
      invariant work == AllWork(v, ps[..i])
      invariant WaveSize(v) > 0 ==> |work| < WaveSize(v)
    {
      assert ps[..i + 1][..i] == ps[..i];
      var p := ps[i];
      if !ReadyToFlush(p.hit.blockType, v.minute) {
        continue;
      }
      var hit, cost := p.hit, HitCost(v, p.hit);
      if cost < v.netM {
        continue;
      }
      if !IsArgon2Encoded(hit.hashStr) {
        PrepareBareSucceeds(hit, v.salt, cost, v.timeCost, v.parallelism);
        var prepared := PrepareHit(hit, v.salt, cost, v.timeCost, v.parallelism);
        if prepared.None? {
          assert false;
        }
        hit := prepared.value;
      }
      work := work + [WorkItem(p.id, hit)];
      if WaveSize(v) > 0 && |work| >= WaveSize(v) {
        AllWorkPrefix(v, ps, i + 1);
        return;
      }
    }
    assert ps[..|ps|] == ps;
  }

  // ---- what the answers do to the bag ---------------------------------------------------------

  predicate HasTransport(replies: seq<Reply>) {
    exists k :: 0 <= k < |replies| && Judge(replies[k]).Transport?
  }

  /** How many items are sent: up to the end of the first wave with a transport failure;
      on shutdown, all. */
  function SentCount(replies: seq<Reply>, base: nat, parallel: nat, onShutdown: bool): (n: nat)
    requires base <= |replies| && parallel > 0
    ensures base <= n <= |replies|
    decreases |replies| - base
  {
    if base == |replies| then base
    else
      var end := Min(base + parallel, |replies|);
      if !onShutdown && HasTransport(replies[base..end]) then end
      else SentCount(replies, end, parallel, onShutdown)
  }

  /** Ids accepted among the first n items, in order. */
  function AcceptedIds(work: seq<WorkItem>, replies: seq<Reply>, n: nat): seq<int>
    requires n <= |work| == |replies|
  {
    if n == 0 then []
    else
      var front := AcceptedIds(work, replies, n - 1);
      if Judge(replies[n - 1]).Accept? then front + [work[n - 1].id] else front
  }

  function ReasonAfter(verdict: Verdict, onShutdown: bool, reason: string): string {
    match verdict
    case Accept => reason
    case Transport => if onShutdown then reason else NETWORK_DOWN
    case Hold(parked) => if parked then "parked" else reason
    case Reject => "resubmission"
  }

  /** The bag with the reasons the first n answers leave on their blocks. */
  function Labelled(ps: seq<PendingBlock>, work: seq<WorkItem>, replies: seq<Reply>, n: nat, onShutdown: bool)
    : (r: seq<PendingBlock>)
    requires n <= |work| == |replies|
    ensures |r| == |ps|
    ensures forall i :: 0 <= i < |ps| ==> r[i].id == ps[i].id && r[i].hit == ps[i].hit
  {
    if n == 0 then ps
    else Relabel(Labelled(ps, work, replies, n - 1, onShutdown), work[n - 1].id, Judge(replies[n - 1]), onShutdown)
  }

  function Relabel(ps: seq<PendingBlock>, id: int, verdict: Verdict, onShutdown: bool): seq<PendingBlock> {
    seq(|ps|, i requires 0 <= i < |ps| =>
          if ps[i].id == id then ps[i].(queueReason := ReasonAfter(verdict, onShutdown, ps[i].queueReason)) else ps[i])
  }

  /** The bag after n answers. */
  function Settled(ps: seq<PendingBlock>, work: seq<WorkItem>, replies: seq<Reply>, n: nat, onShutdown: bool)
    : seq<PendingBlock>
    requires n <= |work| == |replies|
  {
    Without(Labelled(ps, work, replies, n, onShutdown), IdSet(AcceptedIds(work, replies, n)))
  }

  // ---- what the answers do to the network view ------------------------------------------------

  function NetAnswer(c: Net.Config, v: Net.View, reply: Reply, onShutdown: bool, now: real): Net.View {
    match Judge(reply)
    case Accept => v.(backoffUntil := 0.0, networkOk := true)
    case Transport => if onShutdown then v else Net.AfterTransportFailure(c, v, reply.status, now)
    case _ => v
  }

  /** The view after n answers; clock(k) is when answer k is read. */
  function NetAfter(c: Net.Config, v: Net.View, replies: seq<Reply>, n: nat, onShutdown: bool, clock: nat -> real)
    : Net.View
    requires n <= |replies|
  {
    if n == 0 then v
    else NetAnswer(c, NetAfter(c, v, replies, n - 1, onShutdown, clock), replies[n - 1], onShutdown, clock(n - 1))
  }

  function HoldCount(replies: seq<Reply>, n: nat): nat
    requires n <= |replies|
  {
    if n == 0 then 0 else HoldCount(replies, n - 1) + (if Judge(replies[n - 1]).Hold? then 1 else 0)
  }

  /** The answers of a flush never close an open match window, and leave submits paused
      for at most the 3 seconds after the last transport failure. */
  lemma {:induction false} AnswersKeepWindow(c: Net.Config, v: Net.View, replies: seq<Reply>, n: nat, onShutdown: bool,
                                             clock: nat -> real)
    requires n <= |replies| && Net.Hybrid(c) && Net.Open(c, v)
    ensures var w := NetAfter(c, v, replies, n, onShutdown, clock);
            && Net.Open(c, w)
            && (w.backoffUntil == v.backoffUntil || w.backoffUntil == 0.0
                || exists k :: 0 <= k < n && Judge(replies[k]).Transport? && w.backoffUntil == clock(k) + 3.0)
  {
    hide Judge;
    if n > 0 {
      AnswersKeepWindow(c, v, replies, n - 1, onShutdown, clock);
    }
  }

  ghost predicate InBag(work: seq<WorkItem>, ps: seq<PendingBlock>) {
    (forall k :: 0 <= k < |work| ==> UsesId(ps, work[k].id)) && DistinctWork(work)
  }

  /** Sends wave after wave. replies[k] is what the pool answers if item k is sent. */
  method SendWaves(store: BlockStore, oracle: Net.Oracle, work: seq<WorkItem>, replies: seq<Reply>, parallel: nat,
                   onShutdown: bool, clock: nat -> real)
    returns (flushed: nat, sent: nat, holds: nat, transportFail: bool)
    requires store.Valid() && parallel > 0 && |replies| == |work| && InBag(work, store.pending)
    modifies store, oracle
    ensures store.Valid() && store.queueLog == old(store.queueLog)
    ensures sent == SentCount(replies, 0, parallel, onShutdown)
    ensures oracle.State() == NetAfter(oracle.c, old(oracle.State()), replies, sent, onShutdown, clock)
    ensures holds == HoldCount(replies, sent)
    ensures store.pending == Settled(old(store.pending), work, replies, sent, onShutdown)
    ensures flushed == |AcceptedIds(work, replies, sent)| == |old(store.pending)| - |store.pending|
    ensures transportFail <==> !onShutdown && HasTransport(replies[..sent])
  {
    hide Judge, Inv, Without, Labelled, HasTransport, IdSet, NetAnswer;
    ghost var net := oracle.State();
    flushed, holds, transportFail, sent := 0, 0, false, 0;
    ghost var bag := store.pending;
    ValidDistinct(store.State());
    SettledNone(bag, work, replies, onShutdown);
    NoTransport(replies, 0);
    while sent < |work| && !transportFail
      invariant sent <= |work| && store.Valid() && store.queueLog == old(store.queueLog)
      invariant SentCount(replies, 0, parallel, onShutdown)
                == if transportFail then sent else SentCount(replies, sent, parallel, onShutdown)
      invariant store.pending == Settled(bag, work, replies, sent, onShutdown)
      invariant oracle.State() == NetAfter(oracle.c, net, replies, sent, onShutdown, clock)
      invariant holds == HoldCount(replies, sent)
      invariant flushed == |AcceptedIds(work, replies, sent)|
      invariant transportFail <==> !onShutdown && HasTransport(replies[..sent])
      decreases |work| - sent, if transportFail then 0 else 1
    {
      var end := Min(sent + parallel, |work|);
      WaveTransport(replies, sent, end);
      var accepted: seq<int>;
      flushed, holds, transportFail, accepted :=
        SettleWave(store, oracle, work, replies, sent, end, onShutdown, clock, flushed, holds, bag, net);
      SettledNext(bag, work, replies, sent, end, onShutdown, accepted, store.pending);
      store.MarkSubmittedMany(accepted);
      sent := end;
    }
    SettledLength(bag, work, replies, sent, onShutdown);
  }

  lemma ValidDistinct(s: StoreState)
    requires Inv(s)
    ensures DistinctIds(s.pending)
  {
  }

  lemma SettledNone(bag: seq<PendingBlock>, work: seq<WorkItem>, replies: seq<Reply>, onShutdown: bool)
    requires |work| == |replies|
    ensures Settled(bag, work, replies, 0, onShutdown) == bag
  {
    WithoutNone(bag);
    assert IdSet([]) == {};
  }

  lemma NoTransport(replies: seq<Reply>, base: nat)
    requires base <= |replies|
    ensures !HasTransport(replies[base..base])
    ensures replies[0..0] == replies[..0]
  {
  }

  /** Removing the wave's accepted blocks completes the wave. */
  lemma SettledNext(bag: seq<PendingBlock>, work: seq<WorkItem>, replies: seq<Reply>, base: nat, end: nat,
                    onShutdown: bool, accepted: seq<int>, now: seq<PendingBlock>)
    requires base <= end <= |work| == |replies|
    requires AcceptedIds(work, replies, end) == AcceptedIds(work, replies, base) + accepted
    requires now == Without(Labelled(bag, work, replies, end, onShutdown), IdSet(AcceptedIds(work, replies, base)))
    ensures Settled(bag, work, replies, end, onShutdown) == Without(now, IdSet(accepted))
    ensures accepted == [] ==> Without(now, IdSet(accepted)) == now
  {
    hide Labelled;
    AcceptedSplit(work, replies, base, end, accepted);
    WithoutTwice(Labelled(bag, work, replies, end, onShutdown), IdSet(AcceptedIds(work, replies, base)),
                 IdSet(accepted));
    if accepted == [] {
      assert IdSet(accepted) == {};
      WithoutNone(now);
    }
  }

  /** One wave's answers, in order; the accepted blocks are removed by the caller. */
  method SettleWave(store: BlockStore, oracle: Net.Oracle, work: seq<WorkItem>, replies: seq<Reply>,
                    base: nat, end: nat, onShutdown: bool, clock: nat -> real, flushed0: nat, holds0: nat,
                    ghost bag: seq<PendingBlock>, ghost net: Net.View)
    returns (flushed: nat, holds: nat, transportFail: bool, accepted: seq<int>)
    requires store.Valid() && base <= end <= |work| == |replies|
    requires store.pending == Settled(bag, work, replies, base, onShutdown)
    requires flushed0 == |AcceptedIds(work, replies, base)| && holds0 == HoldCount(replies, base)
    requires oracle.State() == NetAfter(oracle.c, net, replies, base, onShutdown, clock)
    modifies store, oracle
    ensures oracle.State() == NetAfter(oracle.c, net, replies, end, onShutdown, clock)
    ensures holds == HoldCount(replies, end)
    ensures store.Valid() && store.queueLog == old(store.queueLog)
    ensures store.pending
            == Without(Labelled(bag, work, replies, end, onShutdown), IdSet(AcceptedIds(work, replies, base)))
    ensures AcceptedIds(work, replies, end) == AcceptedIds(work, replies, base) + accepted
    ensures flushed == |AcceptedIds(work, replies, end)|
    ensures transportFail <==> !onShutdown && HasTransport(replies[base..end])
  {
    hide Judge, Inv, Without, Relabel, HasTransport, NetAnswer;
    flushed, holds, transportFail, accepted := flushed0, holds0, false, [];
    ghost var gone := IdSet(AcceptedIds(work, replies, base));
    NoTransport(replies, base);
    for k := base to end
      invariant store.Valid() && store.queueLog == old(store.queueLog)
      invariant store.pending == Without(Labelled(bag, work, replies, k, onShutdown), gone)
      invariant AcceptedIds(work, replies, k) == AcceptedIds(work, replies, base) + accepted
      invariant flushed == |AcceptedIds(work, replies, k)| && holds == HoldCount(replies, k)
      invariant oracle.State() == NetAfter(oracle.c, net, replies, k, onShutdown, clock)
      invariant transportFail <==> !onShutdown && HasTransport(replies[base..k])
    {
      TransportStep(replies, base, k);
      var verdict := Judge(replies[k]);
      RelabelWithout(Labelled(bag, work, replies, k, onShutdown), gone, work[k].id, verdict, onShutdown);
      SettleOne(store, oracle, work[k].id, replies[k], onShutdown, clock(k));
      match verdict
      case Accept =>
        accepted := accepted + [work[k].id];
        flushed := flushed + 1;
      case Transport => transportFail := transportFail || !onShutdown;
      case Hold(_) => holds := holds + 1;
      case Reject =>
    }
  }

  /** What one answer does to its block's reason and to the network view. */
  method SettleOne(store: BlockStore, oracle: Net.Oracle, id: int, reply: Reply, onShutdown: bool, now: real)
    requires store.Valid()
    modifies store, oracle
    ensures store.Valid() && store.queueLog == old(store.queueLog)
    ensures store.pending == Relabel(old(store.pending), id, Judge(reply), onShutdown)
    ensures oracle.State() == NetAnswer(oracle.c, old(oracle.State()), reply, onShutdown, now)
  {
    hide Inv, Says, Net.AfterTransportFailure;
    if SubmitAccepted(reply) {
      oracle.NoteAccepted();
    } else if reply.status == 0 || IsTransient(reply) {
      if !onShutdown {
        oracle.NoteTransportFailure(reply.status, now);
        store.MarkPendingReason(id, NETWORK_DOWN);
      }
    } else if IsPoolHold(reply) || IsDifficultyMismatch(reply) || IsXuniWindowReject(reply) {
      if IsDifficultyMismatch(reply) {
        store.MarkPendingReason(id, "parked");
      }
    } else {
      store.MarkPendingReason(id, "resubmission");
    }
  }

  // ---- lemmas -----------------------------------------------------------------------------------

  lemma TransportStep(replies: seq<Reply>, base: nat, k: nat)
    requires base <= k < |replies|
    ensures HasTransport(replies[base..k + 1]) <==> HasTransport(replies[base..k]) || Judge(replies[k]).Transport?
    ensures !HasTransport(replies[base..base])
  {
    hide Judge;
    var a, b := replies[base..k], replies[base..k + 1];
    assert b == a + [replies[k]];
    if HasTransport(a) {
      var i :| 0 <= i < |a| && Judge(a[i]).Transport?;
      assert b[i] == a[i];
    }
    assert b[|a|] == replies[k];
  }

  lemma WaveTransport(replies: seq<Reply>, base: nat, end: nat)
    requires base <= end <= |replies|
    ensures HasTransport(replies[..end]) <==> HasTransport(replies[..base]) || HasTransport(replies[base..end])
  {
    hide Judge;
    var a, b, c := replies[..base], replies[base..end], replies[..end];
    assert c == a + b;
    if HasTransport(a) {
      var i :| 0 <= i < |a| && Judge(a[i]).Transport?;
      assert c[i] == a[i];
    }
    if HasTransport(b) {
      var i :| 0 <= i < |b| && Judge(b[i]).Transport?;
      assert c[|a| + i] == b[i];
    }
  }

  /** Where the wave that item k belongs to starts; waves begin at base. */
  function WaveStart(base: nat, parallel: nat, k: nat): (start: nat)
    requires parallel > 0 && base <= k
    ensures base <= start <= k < start + parallel
    decreases k - base
  {
    if k < base + parallel then base else WaveStart(base + parallel, parallel, k)
  }

  /** Which items are sent: on shutdown all; otherwise an item is sent exactly when no
      earlier wave had a transport failure. */
  lemma SentExactly(replies: seq<Reply>, parallel: nat, onShutdown: bool, k: nat)
    requires parallel > 0 && k < |replies|
    ensures k < SentCount(replies, 0, parallel, onShutdown)
            <==> onShutdown || !HasTransport(replies[..WaveStart(0, parallel, k)])
  {
    hide HasTransport;
    NoTransport(replies, 0);
    SentFrom(replies, 0, parallel, onShutdown, k);
  }

  lemma {:induction false} SentFrom(replies: seq<Reply>, base: nat, parallel: nat, onShutdown: bool, k: nat)
    requires parallel > 0 && base <= k < |replies|
    requires onShutdown || !HasTransport(replies[..base])
    ensures k < SentCount(replies, base, parallel, onShutdown)
            <==> onShutdown || !HasTransport(replies[..WaveStart(base, parallel, k)])
    decreases |replies| - base
  {
    hide HasTransport;
    var end := Min(base + parallel, |replies|);
    WaveTransport(replies, base, end);
    if k >= end {
      if !onShutdown && HasTransport(replies[base..end]) {
        TransportStays(replies, end, WaveStart(base, parallel, k));
      } else {
        SentFrom(replies, end, parallel, onShutdown, k);
      }
    }
  }

  lemma TransportStays(replies: seq<Reply>, a: nat, b: nat)
    requires a <= b <= |replies| && HasTransport(replies[..a])
    ensures HasTransport(replies[..b])
  {
    WaveTransport(replies, a, b);
  }

  lemma {:induction false} RelabelWithout(ps: seq<PendingBlock>, gone: set<int>, id: int, verdict: Verdict,
                                          onShutdown: bool)
    ensures Without(Relabel(ps, id, verdict, onShutdown), gone) == Relabel(Without(ps, gone), id, verdict, onShutdown)
  {
    hide ReasonAfter;
    if ps != [] {
      var front, last := ps[..|ps| - 1], ps[|ps| - 1];
      RelabelWithout(front, gone, id, verdict, onShutdown);
      assert Relabel(ps, id, verdict, onShutdown)[..|ps| - 1] == Relabel(front, id, verdict, onShutdown);
      assert Relabel(Without(front, gone) + [last], id, verdict, onShutdown)
          == Relabel(Without(front, gone), id, verdict, onShutdown) + Relabel([last], id, verdict, onShutdown);
    }
  }

  lemma AcceptedSplit(work: seq<WorkItem>, replies: seq<Reply>, base: nat, end: nat, accepted: seq<int>)
    requires base <= end <= |work| == |replies|
    requires AcceptedIds(work, replies, end) == AcceptedIds(work, replies, base) + accepted
    ensures IdSet(AcceptedIds(work, replies, end)) == IdSet(AcceptedIds(work, replies, base)) + IdSet(accepted)
  {
  }

  lemma {:induction false} AcceptedFrom(work: seq<WorkItem>, replies: seq<Reply>, n: nat)
    requires n <= |work| == |replies|
    requires DistinctWork(work)
    ensures var ids := AcceptedIds(work, replies, n);
            && (forall id :: id in ids <==> exists k :: 0 <= k < n && Judge(replies[k]).Accept? && work[k].id == id)
            && |IdSet(ids)| == |ids|
  {
    if n > 0 {
      hide Judge;
      AcceptedFrom(work, replies, n - 1);
      var front := AcceptedIds(work, replies, n - 1);
      if Judge(replies[n - 1]).Accept? {
        assert work[n - 1].id !in front;
        assert IdSet(front + [work[n - 1].id]) == IdSet(front) + {work[n - 1].id};
      }
    }
  }

  lemma UsedInSome(ps: seq<PendingBlock>, id: int)
    requires UsesId(ps, id)
    ensures ps != []
  {
  }

  lemma {:induction false} WithoutLength(ps: seq<PendingBlock>, ids: set<int>)
    requires DistinctIds(ps) && forall id :: id in ids ==> UsesId(ps, id)
    ensures |Without(ps, ids)| == |ps| - |ids|
  {
    if ps == [] {
      forall id
        ensures id !in ids
      {
        if id in ids {
          UsedInSome(ps, id);
        }
      }
      assert ids == {};
    } else {
      var front, last := ps[..|ps| - 1], ps[|ps| - 1];
      var rest := ids - {last.id};
      forall id | id in rest
        ensures UsesId(front, id)
      {
        var i :| 0 <= i < |ps| && ps[i].id == id;
        assert front[i].id == id;
      }
      WithoutLength(front, rest);
      WithoutOther(front, ids, last.id);
    }
  }

  /** An id not in the list makes no difference. */
  lemma {:induction false} WithoutOther(ps: seq<PendingBlock>, ids: set<int>, id: int)
    requires forall i :: 0 <= i < |ps| ==> ps[i].id != id
    ensures Without(ps, ids) == Without(ps, ids - {id})
  {
    if ps != [] {
      WithoutOther(ps[..|ps| - 1], ids, id);
    }
  }

  lemma SettledLength(bag: seq<PendingBlock>, work: seq<WorkItem>, replies: seq<Reply>, n: nat, onShutdown: bool)
    requires n <= |work| == |replies| && DistinctIds(bag) && InBag(work, bag)
    ensures |Settled(bag, work, replies, n, onShutdown)| == |bag| - |AcceptedIds(work, replies, n)|
  {
    hide Judge;
    AcceptedFrom(work, replies, n);
    var l, ids := Labelled(bag, work, replies, n, onShutdown), IdSet(AcceptedIds(work, replies, n));
    forall id | id in ids
      ensures UsesId(l, id)
    {
      var k :| 0 <= k < n && work[k].id == id;
      assert UsesId(bag, work[k].id);
      var i :| 0 <= i < |bag| && bag[i].id == id;
      assert l[i].id == id;
    }
    WithoutLength(l, ids);
  }

  // ---- the whole flush ---------------------------------------------------------------------------

  /** The pool's answers to the first n items sent. */
  function Answers(answer: nat -> Reply, n: nat): seq<Reply> {
    seq(n, k requires 0 <= k < n => answer(k))
  }

  /** After a flush that got only holds the pool is left alone for a moment. */
  predicate Resting(v: View, replies: seq<Reply>, work: seq<WorkItem>, sent: nat)
    requires sent <= |work| == |replies|
  {
    && AcceptedIds(work, replies, sent) == [] && !v.onShutdown && HoldCount(replies, sent) > 0
    && !HasTransport(replies[..sent])
  }

  function PauseS(v: View): real { if v.draining then 1.0 else 2.0 }

  /** Where the next batch starts: past this one if nothing in it could be sent, past the
      work if it was only held. */
  function SkipAfter(v: View, batch: seq<PendingBlock>, work: seq<WorkItem>, resting: bool): int {
    if batch == [] then v.skipBefore
    else if work == [] then batch[|batch| - 1].id + 1
    else if resting then work[|work| - 1].id + 1
    else v.skipBefore
  }

  /** try_flush_pending once the gates are passed; answer(k) is what the pool says to
      item k if it is sent, read at clock(k). The result is the number of blocks that left
      the bag, all of them accepted; skip is where the next batch starts. */
  method TryFlush(store: BlockStore, oracle: Net.Oracle, v: View, answer: nat -> Reply, clock: nat -> real)
    returns (flushed: nat, skip: int, ghost work: seq<WorkItem>, ghost sent: nat)
    requires store.Valid()
    modifies store, oracle
    ensures store.Valid() && store.queueLog == old(store.queueLog)
    ensures var batch := Sorted(Chosen(old(store.pending), v.netM, v.bagM, WaveSize(v) * 2, v.skipBefore, v.minute));
            var replies := Answers(answer, |work|);
            && work == WorkOf(v, batch) && InBag(work, old(store.pending))
            && sent == SentCount(replies, 0, Parallel(v), v.onShutdown)
            && store.pending == Settled(old(store.pending), work, replies, sent, v.onShutdown)
            && flushed == |AcceptedIds(work, replies, sent)| == |old(store.pending)| - |store.pending|
            && var net := NetAfter(oracle.c, old(oracle.State()), replies, sent, v.onShutdown, clock);
               var resting := Resting(v, replies, work, sent);
               var pause := if v.draining then 1.0 else 2.0;
               && oracle.State() == (if resting then net.(backoffUntil := clock(sent) + pause) else net)
               && skip == (if batch == [] then v.skipBefore
                           else if work == [] then batch[|batch| - 1].id + 1
                           else if resting then work[|work| - 1].id + 1
                           else v.skipBefore)
    ensures GoneAsAnswered(old(store.pending), store.pending, work, answer, sent)
  {
    hide GoneAsAnswered, WorkOf, Sorted, Chosen, Settled, SentCount, DistinctDigests, Digests, LogDigests, HasTransport;
    hide NetAnswer, Judge;
    skip := v.skipBefore;
    var batch := store.ListFlushBatch(v.netM, v.bagM, WaveSize(v) * 2, v.skipBefore, v.minute);
    BatchContents(store.pending, v.netM, v.bagM, WaveSize(v) * 2, v.skipBefore, v.minute);
    var items := BuildWork(v, batch);
    work := items;
    WorkInBag(v, batch, store.pending);
    NoWork(v, batch);
    NothingSent(answer);
    var n, holds, transportFail;
    flushed, n, holds, transportFail :=
      SendWaves(store, oracle, items, Answers(answer, |items|), Parallel(v), v.onShutdown, clock);
    sent := n;
    if batch == [] {
    } else if items == [] {
      skip := batch[|batch| - 1].id + 1;
    } else if flushed == 0 && !v.onShutdown && holds > 0 && !transportFail {
      oracle.PauseSubmits(clock(n) + PauseS(v));
      skip := items[|items| - 1].id + 1;
    }
    FlushGone(old(store.pending), items, answer, n, v.onShutdown);
  }

  /** Of the blocks of a bag, those are gone whose own item was sent and answered with a
      status from 200 to 299 or a body holding "already exists", and no others. */
  ghost predicate GoneAsAnswered(before: seq<PendingBlock>, after: seq<PendingBlock>, work: seq<WorkItem>,
                                 answer: nat -> Reply, sent: nat) {
    forall p :: p in before ==>
      ((forall q :: q in after ==> q.id != p.id)
       <==> exists k :: 0 <= k < sent && k < |work| && work[k].id == p.id
                        && (200 <= answer(k).status <= 299 || HoldsAnyCase(answer(k).body, "already exists")))
  }

  lemma FlushGone(bag: seq<PendingBlock>, work: seq<WorkItem>, answer: nat -> Reply, n: nat, onShutdown: bool)
    requires n <= |work| && DistinctIds(bag) && InBag(work, bag)
    ensures GoneAsAnswered(bag, Settled(bag, work, Answers(answer, |work|), n, onShutdown), work, answer, n)
  {
    hide Settled, HoldsAnyCase, DistinctIds, InBag;
    forall p | p in bag
      ensures (forall q :: q in Settled(bag, work, Answers(answer, |work|), n, onShutdown) ==> q.id != p.id)
               <==> exists k :: 0 <= k < n && k < |work| && work[k].id == p.id
                                && (200 <= answer(k).status <= 299
                                    || HoldsAnyCase(answer(k).body, "already exists"))
    {
      GoneExactly(bag, work, Answers(answer, |work|), n, onShutdown, p);
    }
  }

  lemma NoWork(v: View, batch: seq<PendingBlock>)
    ensures batch == [] ==> WorkOf(v, batch) == []
  {
  }

  lemma NothingSent(answer: nat -> Reply)
    ensures Answers(answer, 0) == [] && HoldCount(Answers(answer, 0), 0) == 0
  {
  }

  lemma WorkInBag(v: View, batch: seq<PendingBlock>, bag: seq<PendingBlock>)
    requires DistinctIds(batch) && forall p :: p in batch ==> p in bag
    ensures InBag(WorkOf(v, batch), bag)
  {
    hide Workable, Submitted;
    AllWorkMembers(v, batch);
    AllWorkDistinct(v, batch);
    var work := WorkOf(v, batch);
    assert work == AllWork(v, batch)[..|work|];
    forall k | 0 <= k < |work|
      ensures UsesId(bag, work[k].id)
    {
      assert work[k] == AllWork(v, batch)[k] && ComesFrom(v, batch, work[k]);
      var p :| p in batch && p.id == work[k].id;
      assert p in bag;
    }
  }

  // ---- what becomes of each block, from the pool's answers --------------------------------------

  /** The reason an answer that did not take the find leaves on its block. */
  function ReasonLeft(r: Reply, onShutdown: bool, reason: string): string {
    if LineBroke(r) then (if onShutdown then reason else "network_down")
    else if WrongM(r) then "parked"
    else if r.status in {401, 403, 429} || WrongTime(r) then reason
    else "resubmission"
  }

  lemma ReasonLeftIs(r: Reply, onShutdown: bool, reason: string)
    requires !Took(r)
    ensures ReasonAfter(Judge(r), onShutdown, reason) == ReasonLeft(r, onShutdown, reason)
  {
    hide Judge, Took, LineBroke, WrongM, WrongTime;
    JudgeExactly(r);
  }

  lemma {:induction false} LabelledAt(bag: seq<PendingBlock>, work: seq<WorkItem>, replies: seq<Reply>, n: nat,
                                      onShutdown: bool, i: nat)
    requires n <= |work| == |replies| && DistinctWork(work) && i < |bag|
    ensures forall k :: 0 <= k < n && work[k].id == bag[i].id ==>
              Labelled(bag, work, replies, n, onShutdown)[i].queueReason
              == ReasonAfter(Judge(replies[k]), onShutdown, bag[i].queueReason)
    ensures (forall k :: 0 <= k < n ==> work[k].id != bag[i].id) ==>
              Labelled(bag, work, replies, n, onShutdown)[i] == bag[i]
    ensures Labelled(bag, work, replies, n, onShutdown)[i].rejectCount == bag[i].rejectCount
    ensures Labelled(bag, work, replies, n, onShutdown)[i].forwarded == bag[i].forwarded
  {
    hide Judge, ReasonAfter;
    if n > 0 {
      LabelledAt(bag, work, replies, n - 1, onShutdown, i);
    }
  }

  /** Each of the first n items goes out once. Its block leaves the bag exactly if the
      answer's status is 200 to 299 or its body holds "already exists"; otherwise the block
      stays with the reason the answer leaves. Every other block stays as it is. */
  lemma AcceptedLeave(bag: seq<PendingBlock>, work: seq<WorkItem>, replies: seq<Reply>, n: nat, onShutdown: bool,
                      p: PendingBlock)
    requires n <= |work| == |replies| && DistinctIds(bag) && InBag(work, bag) && p in bag
    ensures var after := Settled(bag, work, replies, n, onShutdown);
            && (forall k :: 0 <= k < n && work[k].id == p.id ==>
                  if Took(replies[k]) then forall q :: q in after ==> q.id != p.id
                  else p.(queueReason := ReasonLeft(replies[k], onShutdown, p.queueReason)) in after)
            && ((forall k :: 0 <= k < n ==> work[k].id != p.id) ==> p in after)
  {
    hide Judge, ReasonAfter, ReasonLeft, Took, Labelled, Without, AcceptedIds;
    AcceptedFrom(work, replies, n);
    var l, ids := Labelled(bag, work, replies, n, onShutdown), IdSet(AcceptedIds(work, replies, n));
    WithoutMembers(l, ids);
    var i :| 0 <= i < |bag| && bag[i] == p;
    LabelledAt(bag, work, replies, n, onShutdown, i);
    assert l[i] in l;
    forall k | 0 <= k < n && work[k].id == p.id
      ensures p.id in ids <==> Took(replies[k])
      ensures !Took(replies[k]) ==> l[i] == p.(queueReason := ReasonLeft(replies[k], onShutdown, p.queueReason))
    {
      hide DistinctIds, UsesId, Settled;
      JudgeExactly(replies[k]);
      if !Took(replies[k]) {
        ReasonLeftIs(replies[k], onShutdown, p.queueReason);
      }
    }
  }

  /** The blocks gone, by the answers alone. */
  lemma GoneExactly(bag: seq<PendingBlock>, work: seq<WorkItem>, replies: seq<Reply>, n: nat, onShutdown: bool,
                    p: PendingBlock)
    requires n <= |work| == |replies| && DistinctIds(bag) && InBag(work, bag) && p in bag
    ensures (forall q :: q in Settled(bag, work, replies, n, onShutdown) ==> q.id != p.id)
            <==> exists k :: 0 <= k < n && work[k].id == p.id && Took(replies[k])
  {
    hide Settled, ReasonLeft, Took;
    AcceptedLeave(bag, work, replies, n, onShutdown, p);
    var after := Settled(bag, work, replies, n, onShutdown);
    if forall k :: 0 <= k < n ==> work[k].id != p.id {
      assert p in after;
    } else {
      var k :| 0 <= k < n && work[k].id == p.id;
      if !Took(replies[k]) {
        assert p.(queueReason := ReasonLeft(replies[k], onShutdown, p.queueReason)) in after;
      }
    }
  }

  /** A hold: the find is neither taken nor refused for good, and the line is up. */
  predicate Held(r: Reply) {
    !Took(r) && !LineBroke(r) && (r.status in {401, 403, 429} || WrongM(r) || WrongTime(r))
  }

  lemma HeldIs(r: Reply)
    ensures Judge(r).Hold? <==> Held(r)
  {
    hide Judge, Took, LineBroke, WrongM, WrongTime;
    JudgeExactly(r);
  }

  /** The holds counted are the answers that are holds. */
  lemma {:induction false} HoldsCounted(replies: seq<Reply>, n: nat)
    requires n <= |replies|
    ensures HoldCount(replies, n) == |set k | 0 <= k < n && Held(replies[k])|
  {
    hide Judge, Held;
    if n > 0 {
      HoldsCounted(replies, n - 1);
      HeldIs(replies[n - 1]);
      var before, now := set k | 0 <= k < n - 1 && Held(replies[k]), set k | 0 <= k < n && Held(replies[k]);
      assert now == if Held(replies[n - 1]) then before + {n - 1} else before;
    }
  }

  /** A flush rests afterwards exactly if it is not the last one and its answers were holds,
      one at least, and refusals only. */
  lemma RestsExactly(v: View, replies: seq<Reply>, work: seq<WorkItem>, sent: nat)
    requires sent <= |work| == |replies|
    ensures Resting(v, replies, work, sent)
            <==> && !v.onShutdown && (exists k :: 0 <= k < sent && Held(replies[k]))
                 && forall k :: 0 <= k < sent ==> !Took(replies[k]) && !LineBroke(replies[k])
  {
    hide Judge, Took, LineBroke, Held, WrongM, WrongTime;
    NoneTaken(work, replies, sent);
    TransportExactly(replies[..sent]);
    HoldsCounted(replies, sent);
    var held := set k | 0 <= k < sent && Held(replies[k]);
    assert |held| > 0 <==> exists k :: 0 <= k < sent && Held(replies[k]) by {
      if k :| 0 <= k < sent && Held(replies[k]) {
        assert k in held;
      }
    }
    assert HasTransport(replies[..sent]) <==> exists k :: 0 <= k < sent && !Took(replies[k]) && LineBroke(replies[k])
    by {
      hide HasTransport;
      if k :| 0 <= k < sent && !Took(replies[k]) && LineBroke(replies[k]) {
        assert replies[..sent][k] == replies[k];
      }
    }
  }

  lemma {:induction false} NoneTaken(work: seq<WorkItem>, replies: seq<Reply>, n: nat)
    requires n <= |work| == |replies|
    ensures AcceptedIds(work, replies, n) == [] <==> forall k :: 0 <= k < n ==> !Took(replies[k])
  {
    hide Judge, Took;
    if n > 0 {
      NoneTaken(work, replies, n - 1);
      JudgeExactly(replies[n - 1]);
    }
  }

  /** A flush breaks off exactly after an answer that did not take the find and speaks of
      the connection or has status 0. */
  lemma TransportExactly(replies: seq<Reply>)
    ensures HasTransport(replies) <==> exists k :: 0 <= k < |replies| && !Took(replies[k]) && LineBroke(replies[k])
  {
    hide Judge, Took, LineBroke;
    forall k | 0 <= k < |replies|
      ensures Judge(replies[k]).Transport? <==> !Took(replies[k]) && LineBroke(replies[k])
    {
      JudgeExactly(replies[k]);
    }
  }
}
