/** Whole runs of the bag: any operations in any order, with restarts and crashes at any
    point, including in the middle of rewriting the snapshot. */
module BagRuns {
  import opened Hits
  import opened BagJson
  import opened Store

  datatype Op =
    | OpEnqueue(hit: BlockHit, reason: string, at: string)
    | OpMarkForwarded(ids: seq<int>)
    | OpMarkSubmitted(ids: seq<int>)
    | OpMarkReason(id: int, reason: string)
    | OpFlush
    | OpDeferAll(minute: int)
    | OpRestart                                                             // clean exit, then load
    | OpCrash(torn: bool)                                                   // then load
    | OpCrashInEnqueue(hit: BlockHit, reason: string, at: string, torn: bool) // logged, not yet saved

  function Bagged(s: StoreState, hit: BlockHit): bool {
    hit.hashStr != "" && hit.hashStr in s.index
  }

  function Crashed(s: StoreState, torn: bool): StoreState {
    if torn then s.(snapshot := Torn) else s
  }

  function Logged(s: StoreState, hit: BlockHit, reason: string, at: string): StoreState {
    if Bagged(s, hit) then s
    else s.(log := s.log + [LogEntry(PendingBlock(s.nextId, hit, reason, 0, false), at)])
  }

  /** A load that threw would leave no store; `LoadRestores` rules it out. */
  function Reloaded(s: StoreState): StoreState {
    if Load(s).Ok? then Load(s).value else s
  }

  function Apply(s: StoreState, op: Op): StoreState {
    match op
    case OpEnqueue(hit, reason, at) => Enqueue(s, hit, reason, at).0
    case OpMarkForwarded(ids) => MarkForwarded(s, ids)
    case OpMarkSubmitted(ids) => MarkSubmitted(s, ids)
    case OpMarkReason(id, reason) => MarkReason(s, id, reason)
    case OpFlush => Flush(s)
    case OpDeferAll(minute) => DeferAll(s, minute)
    case OpRestart => Reloaded(Flush(s))
    case OpCrash(torn) => Reloaded(Crashed(s, torn))
    case OpCrashInEnqueue(hit, reason, at, torn) => Reloaded(Crashed(Logged(s, hit, reason, at), torn))
  }

  predicate Loads(op: Op) {
    op.OpRestart? || op.OpCrash? || op.OpCrashInEnqueue?
  }

  function Run(ops: seq<Op>): StoreState {
    if ops == [] then EMPTY else Apply(Run(ops[..|ops| - 1]), ops[|ops| - 1])
  }

  /** The digests one operation passes to enqueue. */
  function Offered(op: Op): set<string> {
    if (op.OpEnqueue? || op.OpCrashInEnqueue?) && op.hit.hashStr != "" then {op.hit.hashStr} else {}
  }

  function EverEnqueued(ops: seq<Op>): set<string> {
    if ops == [] then {} else EverEnqueued(ops[..|ops| - 1]) + Offered(ops[|ops| - 1])
  }

  // ---- each operation keeps the invariant -----------------------------------------------------

  lemma {:induction false} WithoutMembers(ps: seq<PendingBlock>, ids: set<int>)
    ensures forall p :: p in Without(ps, ids) <==> p in ps && p.id !in ids
  {
    if ps != [] {
      WithoutMembers(ps[..|ps| - 1], ids);
      assert ps == ps[..|ps| - 1] + [ps[|ps| - 1]];
    }
  }

  lemma {:induction false} WithoutDistinct(ps: seq<PendingBlock>, ids: set<int>)
    requires DistinctIds(ps) && DistinctDigests(ps)
    ensures DistinctIds(Without(ps, ids)) && DistinctDigests(Without(ps, ids))
  {
    if ps != [] {
      var front, last := ps[..|ps| - 1], ps[|ps| - 1];
      WithoutDistinct(front, ids);
      WithoutMembers(front, ids);
      var k := Without(front, ids);
      forall i | 0 <= i < |k|
        ensures k[i].id != last.id
        ensures k[i].hit.hashStr != "" ==> k[i].hit.hashStr != last.hit.hashStr
      {
        assert k[i] in front;
      }
    }
  }

  /** Operations that only rewrite flags or reasons. */
  lemma RelabelKeeps(ps: seq<PendingBlock>, qs: seq<PendingBlock>, index: set<string>, nextId: int)
    requires Well(ps, index, nextId) && |ps| == |qs|
    requires forall i :: 0 <= i < |ps| ==> qs[i].id == ps[i].id && qs[i].hit == ps[i].hit
    ensures Well(qs, index, nextId)
  {
    forall d | d in Digests(ps)
      ensures d in Digests(qs)
    {
      var i :| 0 <= i < |ps| && ps[i].hit.hashStr == d;
      assert qs[i] in qs;
    }
    forall d | d in Digests(qs)
      ensures d in Digests(ps)
    {
      var i :| 0 <= i < |ps| && qs[i].hit.hashStr == d;
      assert ps[i] in ps;
    }
  }

  lemma SubmittedKeeps(s: StoreState, ids: seq<int>)
    requires Inv(s)
    ensures Inv(MarkSubmitted(s, ids))
  {
    WithoutMembers(s.pending, IdSet(ids));
    WithoutDistinct(s.pending, IdSet(ids));
    var k := Without(s.pending, IdSet(ids));
    forall i | 0 <= i < |k|
      ensures k[i].id < s.nextId
    {
      assert k[i] in s.pending;
    }
    assert Digests(k) <= Digests(s.pending);
  }

  lemma {:induction false} EnqueueKeeps(s: StoreState, hit: BlockHit, reason: string, at: string)
    requires Inv(s)
    ensures var t := Enqueue(s, hit, reason, at).0;
            Inv(t) && LogDigests(t.log) == LogDigests(s.log) + (if hit.hashStr == "" then {} else {hit.hashStr})
  {
    if !Bagged(s, hit) {
      hide Digests, LogDigests;
      var p := PendingBlock(s.nextId, hit, reason, 0, false);
      LogDigestsAppend(s.log, LogEntry(p, at));
      WellAppend(Loading(s.pending, s.index, s.nextId), p);
    }
  }

  lemma LoggedKeeps(s: StoreState, hit: BlockHit, reason: string, at: string)
    requires Inv(s)
    ensures var t := Logged(s, hit, reason, at);
            Inv(t) && LogDigests(t.log) == LogDigests(s.log) + (if hit.hashStr == "" then {} else {hit.hashStr})
  {
    hide Digests;
    LogDigestsAppend(s.log, LogEntry(PendingBlock(s.nextId, hit, reason, 0, false), at));
  }

  lemma LabelOpsKeep(s: StoreState, op: Op)
    requires Inv(s) && (op.OpMarkForwarded? || op.OpMarkReason? || op.OpDeferAll? || op.OpFlush?)
    ensures Inv(Apply(s, op)) && Apply(s, op).log == s.log
  {
    match op
    case OpMarkForwarded(ids) => RelabelKeeps(s.pending, Forwarded(s.pending, IdSet(ids)), s.index, s.nextId);
    case OpMarkReason(id, reason) => RelabelKeeps(s.pending, WithReason(s.pending, id, reason), s.index, s.nextId);
    case OpDeferAll(minute) => RelabelKeeps(s.pending, Deferred(s.pending, minute), s.index, s.nextId);
    case OpFlush =>
  }

  lemma ApplyKeeps(s: StoreState, op: Op)
    requires Inv(s)
    ensures var t := Apply(s, op);
            && Inv(t)
            && LogDigests(t.log) == LogDigests(s.log) + Offered(op)
            && (Loads(op) ==> Digests(t.pending) == LogDigests(t.log))
  {
    hide Load, MarkSubmitted, Well, LogDigests, Digests;
    match op
    case OpEnqueue(hit, reason, at) =>
      EnqueueKeeps(s, hit, reason, at);
    case OpMarkSubmitted(ids) =>
      SubmittedKeeps(s, ids);
      SubmittedLog(s, ids);
    case OpRestart =>
      LabelOpsKeep(s, OpFlush);
      LoadRestores(Flush(s));
    case OpCrash(torn) =>
      LoadRestores(Crashed(s, torn));
    case OpCrashInEnqueue(hit, reason, at, torn) =>
      LoggedKeeps(s, hit, reason, at);
      LoadRestores(Crashed(Logged(s, hit, reason, at), torn));
    case _ =>
      LabelOpsKeep(s, op);
  }

  lemma SubmittedLog(s: StoreState, ids: seq<int>)
    ensures MarkSubmitted(s, ids).log == s.log
  {
  }

  // ---- the results ---------------------------------------------------------------------------

  /** Representation invariant over all operations, restarts and crashes; and the log
      holds exactly the digests ever passed to enqueue. */
  lemma {:induction false} RunKeepsInv(ops: seq<Op>)
    ensures Inv(Run(ops)) && LogDigests(Run(ops).log) == EverEnqueued(ops)
  {
    if ops != [] {
      hide Apply, Inv, LogDigests;
      RunKeepsInv(ops[..|ops| - 1]);
      ApplyKeeps(Run(ops[..|ops| - 1]), ops[|ops| - 1]);
    } else {
      assert LogDigests(EMPTY.log) == {};
    }
  }

  lemma ApplyDirty(s: StoreState, op: Op)
    requires s.dirty < 8
    ensures Apply(s, op).dirty < 8
  {
    hide RecoverLog, Base, LogJson, Without;
  }

  /** The snapshot is never more than seven operations behind. */
  lemma {:induction false} RunDirty(ops: seq<Op>)
    ensures Run(ops).dirty < 8
  {
    if ops != [] {
      hide Apply;
      RunDirty(ops[..|ops| - 1]);
      ApplyDirty(Run(ops[..|ops| - 1]), ops[|ops| - 1]);
    }
  }

  /** The invariant spelled out. */
  lemma RunWellFormed(ops: seq<Op>)
    ensures var s := Run(ops);
            && (forall i, j :: 0 <= i < j < |s.pending| ==> s.pending[i].id != s.pending[j].id)
            && (forall i :: 0 <= i < |s.pending| ==> s.pending[i].id < s.nextId)
            && (forall i, j :: 0 <= i < j < |s.pending| && s.pending[i].hit.hashStr != "" ==>
                  s.pending[i].hit.hashStr != s.pending[j].hit.hashStr)
            && (forall d :: d in s.index <==> d != "" && exists p :: p in s.pending && p.hit.hashStr == d)
  {
    RunKeepsInv(ops);
  }

  /** Crash durability: after any load, whatever came before, however stale or torn the
      snapshot, the digests in the bag are exactly those ever passed to enqueue. */
  lemma {:induction false} CrashDurability(ops: seq<Op>, op: Op)
    requires Loads(op)
    ensures Digests(Run(ops + [op]).pending) == EverEnqueued(ops + [op])
  {
    hide Apply, Inv, LogDigests, Digests;
    assert (ops + [op])[..|ops|] == ops;
    RunKeepsInv(ops);
    ApplyKeeps(Run(ops), op);
    RunKeepsInv(ops + [op]);
  }

  lemma SubmittedGone(s: StoreState, id: int, p: PendingBlock)
    requires Inv(s) && p in s.pending && p.id == id && p.hit.hashStr != ""
    ensures p.hit.hashStr !in Digests(MarkSubmitted(s, [id]).pending)
    ensures p.hit.hashStr in LogDigests(s.log)
  {
    WithoutMembers(s.pending, IdSet([id]));
    assert id in IdSet([id]);
    assert p.hit.hashStr in s.index;
  }

  /** The other side of never truncating the log: a hit that was submitted and removed
      is back after the next load, to be submitted again. */
  lemma {:induction false} SubmittedHitReturns(ops: seq<Op>, p: PendingBlock, torn: bool)
    requires p in Run(ops).pending && p.hit.hashStr != ""
    ensures var removed := ops + [OpMarkSubmitted([p.id])];
            && p.hit.hashStr !in Digests(Run(removed).pending)
            && p.hit.hashStr in Digests(Run(removed + [OpCrash(torn)]).pending)
  {
    hide Inv, LogDigests, Digests, MarkSubmitted, Reloaded;
    var removed := ops + [OpMarkSubmitted([p.id])];
    assert removed[..|ops|] == ops;
    RunKeepsInv(ops);
    SubmittedGone(Run(ops), p.id, p);
    CrashDurability(removed, OpCrash(torn));
    assert (removed + [OpCrash(torn)])[..|removed|] == removed;
    assert EverEnqueued(removed + [OpCrash(torn)]) == EverEnqueued(ops);
  }

  /** Between loads, a digest leaves the bag only through mark_submitted of its block. */
  lemma OnlySubmittedLeaves(ops: seq<Op>, op: Op, d: string)
    requires d in Digests(Run(ops).pending) && d !in Digests(Run(ops + [op]).pending)
    ensures op.OpMarkSubmitted? && exists p :: p in Run(ops).pending && p.hit.hashStr == d && p.id in op.ids
  {
    var s := Run(ops);
    assert (ops + [op])[..|ops|] == ops;
    RunKeepsInv(ops);
    if Loads(op) {
      CrashDurability(ops, op);
    } else if op.OpMarkSubmitted? {
      WithoutMembers(s.pending, IdSet(op.ids));
    } else if op.OpEnqueue? {
      if !Bagged(s, op.hit) {
        DigestsAppend(s.pending, PendingBlock(s.nextId, op.hit, op.reason, 0, false));
      }
    } else {
      SameDigests(s, op);
    }
  }

  lemma SameDigests(s: StoreState, op: Op)
    requires Inv(s) && (op.OpMarkForwarded? || op.OpMarkReason? || op.OpDeferAll? || op.OpFlush?)
    ensures Digests(Apply(s, op).pending) == Digests(s.pending)
  {
    LabelOpsKeep(s, op);
    assert Apply(s, op).index == s.index;
  }

  /** With nothing dirty the snapshot holds the pending list, up to what a trip through
      JSON does to it. */
  ghost predicate Synced(s: StoreState) {
    s.dirty == 0 ==>
      RereadAll(s.pending) == if s.snapshot.Written? then RereadAll(s.snapshot.pending) else []
  }

  lemma RereadTwice(ps: seq<PendingBlock>)
    ensures RereadAll(RereadAll(ps)) == RereadAll(ps)
  {
  }

  lemma {:induction false} LoadSynced(s: StoreState)
    requires Inv(s)
    ensures Synced(Reloaded(s))
  {
    hide RereadBlock, Base, RecoverLog, RecoverEntries, LogJson;
    BaseWell(s);
    LogReads(Base(s.snapshot), s.log);
    RecoverWell(Base(s.snapshot), s.log);
    if s.snapshot.Written? {
      RereadTwice(s.snapshot.pending);
    }
  }

  lemma {:induction false} ApplySynced(s: StoreState, op: Op)
    requires Inv(s) && Synced(s)
    ensures Synced(Apply(s, op))
  {
    hide Inv, RereadAll, Reloaded, Without;
    match op
    case OpRestart =>
      LabelOpsKeep(s, OpFlush);
      LoadSynced(Flush(s));
    case OpCrash(torn) =>
      CrashedKeeps(s, torn);
      LoadSynced(Crashed(s, torn));
    case OpCrashInEnqueue(hit, reason, at, torn) =>
      LoggedKeeps(s, hit, reason, at);
      CrashedKeeps(Logged(s, hit, reason, at), torn);
      LoadSynced(Crashed(Logged(s, hit, reason, at), torn));
    case _ =>
  }

  lemma CrashedKeeps(s: StoreState, torn: bool)
    requires Inv(s)
    ensures Inv(Crashed(s, torn))
  {
  }

  lemma {:induction false} RunSynced(ops: seq<Op>)
    ensures Synced(Run(ops))
  {
    if ops != [] {
      hide Apply, Inv, Synced;
      RunSynced(ops[..|ops| - 1]);
      RunKeepsInv(ops[..|ops| - 1]);
      ApplySynced(Run(ops[..|ops| - 1]), ops[|ops| - 1]);
    } else {
      assert RereadAll([]) == [];
    }
  }

  /** Snapshot round trip: a clean restart brings the pending list back in place and in
      order, attempts wrapped to an `int`, before anything the log adds; and the list
      comes back unchanged exactly when all attempts fit. */
  lemma {:induction false} RestartRoundTrip(ops: seq<Op>)
    ensures var s, t := Run(ops), Run(ops + [OpRestart]);
            && |s.pending| <= |t.pending|
            && t.pending[..|s.pending|] == RereadAll(s.pending)
            && Digests(t.pending[|s.pending|..]) == EverEnqueued(ops) - Digests(s.pending)
            && (t.pending[..|s.pending|] == s.pending <==>
                  forall i :: 0 <= i < |s.pending| ==> -0x8000_0000 <= s.pending[i].hit.attempts < 0x8000_0000)
  {
    hide Inv, LogDigests, Digests, Load, RereadBlock, RereadAll;
    var s := Run(ops);
    assert (ops + [OpRestart])[..|ops|] == ops;
    RunKeepsInv(ops);
    RunSynced(ops);
    LabelOpsKeep(s, OpFlush);
    LoadRestores(Flush(s));
    RereadUnchanged(s.pending);
    var t := Load(Flush(s)).value;
    FlushedSnapshot(s);
    if Flush(s).snapshot.Written? {
      assert |RereadAll(s.pending)| == |s.pending| by { RereadLength(s.pending); }
    } else {
      RereadLength(s.pending);
      assert s.pending == [] && t.pending[..0] == [] && t.pending[0..] == t.pending;
      NoDigests();
    }
  }

  lemma NoDigests()
    ensures Digests([]) == {}
  {
  }

  lemma RereadLength(ps: seq<PendingBlock>)
    ensures |RereadAll(ps)| == |ps| && Digests(RereadAll(ps)) == Digests(ps)
  {
    RereadDigests(ps);
  }

  /** What the flush leaves for the next process is the pending list, reread. */
  lemma FlushedSnapshot(s: StoreState)
    requires Synced(s)
    ensures var snap := Flush(s).snapshot;
            && RereadAll(s.pending) == (if snap.Written? then RereadAll(snap.pending) else [])
            && (snap.Written? ==> |snap.pending| == |s.pending| && Digests(snap.pending) == Digests(s.pending))
  {
    if Flush(s).snapshot.Written? {
      RereadLength(s.pending);
      RereadLength(Flush(s).snapshot.pending);
    }
  }

  lemma RereadUnchanged(ps: seq<PendingBlock>)
    ensures RereadAll(ps) == ps <==>
              forall i :: 0 <= i < |ps| ==> -0x8000_0000 <= ps[i].hit.attempts < 0x8000_0000
  {
    forall i | 0 <= i < |ps|
      ensures RereadBlock(ps[i]) == ps[i] <==> -0x8000_0000 <= ps[i].hit.attempts < 0x8000_0000
    {
      HitRoundTrip(ps[i].hit);
    }
    if RereadAll(ps) == ps {
      assert forall i :: 0 <= i < |ps| ==> RereadAll(ps)[i] == RereadBlock(ps[i]);
    }
  }
}
