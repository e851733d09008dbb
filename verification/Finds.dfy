/** Conservation of the finds themselves, not only of their hashes: where every find in
    memory, in the bag and in its files comes from. */
module Finds {
  import opened Hits
  import opened BagJson
  import opened Policy
  import opened Phc
  import opened Store
  import opened BagRuns
  import opened Submit
  import opened FlushWave
  import opened Lifecycle

  function BagHits(s: StoreState): set<BlockHit> {
    set p | p in s.pending :: p.hit
  }

  /** Finds in the bag or in either of its files. */
  function FileHits(s: StoreState): set<BlockHit> {
    BagHits(s)
    + (if s.snapshot.Written? then set p | p in s.snapshot.pending :: p.hit else {})
    + (set e | e in s.log :: e.block.hit)
  }

  /** The finds among these are told apart by their hashes, from each other and from the
      finds already there. */
  ghost predicate NoTwins(finds: set<BlockHit>, there: set<BlockHit>) {
    forall h, g :: h in finds && g in finds + there && g.hashStr == h.hashStr ==> g == h
  }

  /** The find itself is in memory or in the bag, or was accepted. */
  ghost predicate Kept(y: Sys, hit: BlockHit) {
    InMemory(y, hit) || hit in BagHits(y.store) || hit in y.accepted
  }

  /** Where the finds in memory and in the bag come from. */
  ghost predicate Traced(y: Sys, bag: set<BlockHit>, files: set<BlockHit>) {
    && (forall hit :: InMemory(y, hit) ==> hit in y.prepared)
    && BagHits(y.store) <= y.prepared + bag
    && y.accepted <= y.prepared + bag
    && FileHits(y.store) <= y.prepared + files
  }

  /** An operation brings in no find but these. */
  ghost predicate Brings(s: StoreState, t: StoreState, finds: set<BlockHit>) {
    BagHits(t) <= BagHits(s) + finds && FileHits(t) <= FileHits(s) + finds
  }

  lemma EnqueueBrings(s: StoreState, hit: BlockHit, reason: string, at: string)
    ensures Brings(s, Enqueue(s, hit, reason, at).0, {hit})
  {
    var t := Enqueue(s, hit, reason, at).0;
    var p := PendingBlock(s.nextId, hit, reason, 0, false);
    forall h | h in BagHits(t)
      ensures h in BagHits(s) + {hit}
    {
      var q :| q in t.pending && q.hit == h;
    }
    forall h | h in FileHits(t)
      ensures h in FileHits(s) + {hit}
    {
      if h !in BagHits(t) && !(exists e :: e in t.log && e.block.hit == h) {
        var q :| q in t.snapshot.pending && q.hit == h;
        assert q in t.pending || q in s.snapshot.pending;
      } else if h !in BagHits(t) {
        var e :| e in t.log && e.block.hit == h;
        assert e in s.log || e.block == p;
      }
    }
  }

  /** Saving or not, an operation whose blocks are the old ones brings in nothing. */
  lemma OldBlocksBring(s: StoreState, t: StoreState)
    requires BagHits(t) <= BagHits(s) && t.log == s.log
    requires t.snapshot == s.snapshot || t.snapshot == Written(t.nextId, t.pending)
    ensures Brings(s, t, {})
  {
  }

  lemma LabelBrings(s: StoreState, op: Op)
    requires Inv(s) && (op.OpMarkForwarded? || op.OpMarkReason? || op.OpDeferAll? || op.OpFlush?)
    ensures Brings(s, Apply(s, op), {})
  {
    var t := Apply(s, op);
    LabelOpsKeep(s, op);
    forall h | h in BagHits(t)
      ensures h in BagHits(s)
    {
      var i :| 0 <= i < |t.pending| && t.pending[i].hit == h;
      assert s.pending[i] in s.pending && s.pending[i].hit == h;
    }
    OldBlocksBring(s, t);
  }

  lemma RemovalBrings(s: StoreState, ids: seq<int>)
    ensures Brings(s, MarkSubmitted(s, ids), {})
  {
    WithoutMembers(s.pending, IdSet(ids));
    OldBlocksBring(s, MarkSubmitted(s, ids));
  }

  lemma NotedBrings(s: StoreState, id: int, verdict: Verdict, last: bool)
    requires Inv(s)
    ensures Brings(s, Noted(s, id, verdict, last), {})
  {
    hide Inv, MarkReason, BagHits, FileHits;
    LabelBrings(s, OpMarkReason(id, NETWORK_DOWN));
    LabelBrings(s, OpMarkReason(id, "parked"));
    LabelBrings(s, OpMarkReason(id, "resubmission"));
  }

  /** A step takes finds from memory, or a newly prepared one, and puts them nowhere else;
      what is accepted in it was in memory or in the bag. */
  ghost predicate Traces(y: Sys, z: Sys) {
    && y.prepared <= z.prepared
    && (forall hit :: hit in z.accepted ==> hit in y.accepted || InMemory(y, hit) || hit in BagHits(y.store))
    && (forall hit :: InMemory(z, hit) ==> InMemory(y, hit) || hit in z.prepared)
    && (Brings(y.store, z.store, {}) || exists hit :: InMemory(y, hit) && Brings(y.store, z.store, {hit}))
  }

  lemma MainTraces(y: Sys, step: Step)
    requires Inv(y.store) && MainNext(y, step).Some? && (y.main.Starting? ==> y.worker.NotStarted?)
    ensures Traces(y, MainNext(y, step).value)
  {
    hide Inv, Brings, Enqueue, DeferAll, PrepareHit, IsHex64Key, BagHits;
    OldBlocksBring(y.store, y.store);
    match step
    case QueueFind(reason, at) =>
      assert InMemory(y, y.main.hand.hit);
      EnqueueBrings(y.store, y.main.hand.hit, reason, at);
    case MainBags(at) =>
      if y.main.rest != [] {
        assert InMemory(y, y.main.rest[0]);
        EnqueueBrings(y.store, y.main.rest[0], SHUTDOWN_PENDING, at);
      }
    case MainDefers(minute) =>
      LabelBrings(y.store, OpDeferAll(minute));
    case _ =>
  }

  lemma BaggedInBag(s: StoreState, id: int)
    ensures BaggedAs(s, id) <= BagHits(s)
  {
  }

  lemma WorkerTraces(y: Sys, step: Step)
    requires Inv(y.store) && WorkerNext(y, step).Some?
    ensures Traces(y, WorkerNext(y, step).value)
  {
    hide Inv, WorkerNext, Traces;
    if step.SubmitNext? || step.WorkerStores? {
      HandTraces(y, step);
    } else {
      FlushTraces(y, step);
    }
  }

  lemma HandTraces(y: Sys, step: Step)
    requires Inv(y.store) && WorkerNext(y, step).Some? && (step.SubmitNext? || step.WorkerStores?)
    ensures Traces(y, WorkerNext(y, step).value)
  {
    hide Inv, Brings, Enqueue, Judge, LiveReason, BagHits;
    OldBlocksBring(y.store, y.store);
    if y.worker.batch != [] {
      assert InMemory(y, y.worker.batch[0]);
      var reason := if step.WorkerStores? then SHUTDOWN_PENDING
                    else if step.outcome.Keep? then step.outcome.reason else LiveReason(step.outcome.reply);
      EnqueueBrings(y.store, y.worker.batch[0], reason, step.at);
    }
  }

  lemma FlushTraces(y: Sys, step: Step)
    requires Inv(y.store) && WorkerNext(y, step).Some? && !step.SubmitNext? && !step.WorkerStores?
    ensures Traces(y, WorkerNext(y, step).value)
  {
    hide Inv, Brings, Enqueue, DeferAll, MarkSubmitted, PrepareHit, Judge, LiveReason, Noted, StartFlush;
    hide BagHits, BaggedAs, IsArgon2Encoded;
    OldBlocksBring(y.store, y.store);
    match step
    case BeginFlush(v) =>
      StartFlushShape(y, v, y.worker.LastFlush?);
    case DropUnprepared(p, _, _, _, _) =>
      RemovalBrings(y.store, [p.id]);
    case FlushAnswer(reply) =>
      NotedBrings(y.store, y.worker.work[y.worker.next].id, Judge(reply), y.worker.last);
      BaggedInBag(y.store, y.worker.work[y.worker.next].id);
    case EndWave =>
      RemovalBrings(y.store, y.worker.ids);
    case WorkerDefers(minute) =>
      LabelBrings(y.store, OpDeferAll(minute));
    case _ =>
  }

  lemma HandlerTraces(y: Sys, step: Step)
    requires Inv(y.store) && HandlerNext(y, step).Some?
    ensures Traces(y, HandlerNext(y, step).value)
  {
    hide Inv, Brings, Enqueue, DeferAll;
    OldBlocksBring(y.store, y.store);
    match step
    case HandlerSaves(at) =>
      if y.handler.rest != [] {
        assert InMemory(y, y.handler.rest[0]);
        EnqueueBrings(y.store, y.handler.rest[0], SHUTDOWN_PENDING, at);
      }
    case HandlerDefers(minute) =>
      LabelBrings(y.store, OpDeferAll(minute));
    case _ =>
  }

  lemma OtherTraces(y: Sys, step: Step)
    requires Inv(y.store) && OtherNext(y, step).Some?
    ensures Traces(y, OtherNext(y, step).value)
  {
    hide Inv, Brings;
    match step
    case Forward(ids) => LabelBrings(y.store, OpMarkForwarded(ids));
    case FlushStore => LabelBrings(y.store, OpFlush);
    case _ =>
  }

  lemma TracesKeep(y: Sys, z: Sys, bag: set<BlockHit>, files: set<BlockHit>)
    requires Traced(y, bag, files) && Traces(y, z)
    ensures Traced(z, bag, files)
  {
    hide InMemory, BagHits, FileHits;
  }

  lemma {:induction false} RunTraced(s: StoreState, steps: seq<(Thread, Step)>)
    requires Inv(s)
    ensures Traced(Lifecycle.Run(Begin(s), steps), BagHits(s), FileHits(s))
  {
    if steps != [] {
      hide Inv, SysInv, Traced, Traces, MainNext, WorkerNext, HandlerNext, OtherNext;
      var front := steps[..|steps| - 1];
      var (t, step) := steps[|steps| - 1];
      var y := Lifecycle.Run(Begin(s), front);
      RunTraced(s, front);
      RunKeeps(s, front);
      FromSysInv(y);
      if NextBy(t, y, step).Some? {
        match t {
          case MiningThread => MainTraces(y, step);
          case SubmitWorker => WorkerTraces(y, step);
          case SignalHandler => HandlerTraces(y, step);
          case Others => OtherTraces(y, step);
        }
        TracesKeep(y, NextBy(t, y, step).value, BagHits(s), FileHits(s));
      }
    }
  }

  lemma FromSysInv(y: Sys)
    requires SysInv(y)
    ensures Inv(y.store) && (y.main.Starting? ==> y.worker.NotStarted?)
  {
  }

  lemma IndexedHit(s: StoreState, d: string)
    requires Inv(s) && d in s.index
    ensures exists p :: p in s.pending && p.hit.hashStr == d && p.hit in BagHits(s)
  {
    var p :| p in s.pending && p.hit.hashStr == d;
    assert p.hit in BagHits(s);
  }

  /** Conservation of the finds themselves, over every interleaving: if no find prepared
      so far shares its hash with another, prepared or in the bag the session began with,
      each of them is in memory or in the bag, or was itself accepted. */
  lemma {:induction false} FindsThemselves(s: StoreState, steps: seq<(Thread, Step)>, hit: BlockHit)
    requires Inv(s) && hit in Lifecycle.Run(Begin(s), steps).prepared
    requires NoTwins(Lifecycle.Run(Begin(s), steps).prepared, BagHits(s))
    ensures Kept(Lifecycle.Run(Begin(s), steps), hit)
  {
    hide Inv, InMemory, BagHits, FileHits;
    var y := Lifecycle.Run(Begin(s), steps);
    FindsConserved(s, steps, hit);
    RunTraced(s, steps);
    RunKeeps(s, steps);
    if hit.hashStr in y.store.index {
      IndexedHit(y.store, hit.hashStr);
    }
  }

  lemma {:induction false} RecoveredFrom(l: Loading, log: seq<LogEntry>, p: PendingBlock)
    requires p in RecoverEntries(l, log).pending
    ensures p in l.pending || exists e :: e in log && p.hit == Reread(e.block.hit)
    decreases |log|
  {
    if log != [] {
      hide RecoverEntry;
      RecoveredFrom(RecoverEntry(l, log[0]), log[1..], p);
      if p in RecoverEntry(l, log[0]).pending && p !in l.pending {
        NewlyRecovered(l, log[0], p);
        assert log[0] in log;
      }
    }
  }

  lemma NewlyRecovered(l: Loading, e: LogEntry, p: PendingBlock)
    requires p in RecoverEntry(l, e).pending && p !in l.pending
    ensures p.hit == Reread(e.block.hit)
  {
  }

  /** What a load finds was in the files, attempts wrapped to an `int`. */
  lemma LoadedFrom(s: StoreState, p: PendingBlock)
    requires Inv(s) && p in Reloaded(s).pending
    ensures exists g :: g in FileHits(s) && p.hit == Reread(g)
  {
    hide Inv, Base, RecoverLog, RecoverEntries, RereadBlock, Reread;
    LoadRestores(s);
    BaseWell(s);
    LogReads(Base(s.snapshot), s.log);
    RecoveredFrom(Base(s.snapshot), s.log, p);
    if p in Base(s.snapshot).pending {
      SnapshotHit(s, p);
    } else {
      var e :| e in s.log && p.hit == Reread(e.block.hit);
      assert e.block.hit in FileHits(s);
    }
  }

  lemma SnapshotHit(s: StoreState, p: PendingBlock)
    requires s.snapshot.Written? && p in RereadAll(s.snapshot.pending)
    ensures exists g :: g in FileHits(s) && p.hit == Reread(g)
  {
    var i :| 0 <= i < |s.snapshot.pending| && p == RereadBlock(s.snapshot.pending[i]);
    assert s.snapshot.pending[i] in s.snapshot.pending;
    assert s.snapshot.pending[i].hit in FileHits(s);
  }

  /** SessionEnd for the finds themselves: told apart by their hashes, also from what the
      files held, each is in the bag or was accepted when the session has ended, and the
      next load brings the bagged ones back. */
  lemma {:induction false} SessionEndThemselves(s: StoreState, steps: seq<(Thread, Step)>, hit: BlockHit)
    requires Inv(s) && Lifecycle.Run(Begin(s), steps).main.Ended? && Lifecycle.Run(Begin(s), steps).handler.Idle?
    requires hit in Lifecycle.Run(Begin(s), steps).prepared
    requires NoTwins(Lifecycle.Run(Begin(s), steps).prepared, FileHits(s))
    ensures var y := Lifecycle.Run(Begin(s), steps);
            || hit in y.accepted
            || (hit in BagHits(y.store) && exists p :: p in Reloaded(y.store).pending && p.hit == Reread(hit))
  {
    hide Inv, Reloaded, Safe, FileHits;
    var y := Lifecycle.Run(Begin(s), steps);
    InFiles(s);
    FindsThemselves(s, steps, hit);
    SessionEnd(s, steps);
    RunTraced(s, steps);
    RunKeeps(s, steps);
    if hit !in y.accepted {
      ReloadedInv(y.store);
      IndexedHit(Reloaded(y.store), hit.hashStr);
      var p :| p in Reloaded(y.store).pending && p.hit.hashStr == hit.hashStr;
      LoadedFrom(y.store, p);
    }
  }

  lemma InFiles(s: StoreState)
    ensures BagHits(s) <= FileHits(s)
  {
  }

  lemma ReloadedInv(s: StoreState)
    requires Inv(s)
    ensures Inv(Reloaded(s))
  {
    hide Inv, Load;
    LoadRestores(s);
  }
}
