/** How finds travel between threads: the mining thread, which also runs the shutdown
    path, the submit worker, the signal handler and the bag forwarder. Every lock-protected
    action is one step; the steps interleave freely. */
module Lifecycle {
  import opened Hits
  import opened Policy
  import opened Phc
  import opened Store
  import opened BagRuns
  import opened FlushBatch
  import opened Submit
  import opened FlushWave

  /** The mining thread between taking a find and handing it off; Open once it has seen
      that no shutdown is under way. */
  datatype Hand = Empty | Prepared(hit: BlockHit) | Open(hit: BlockHit)

  /** final is false in graceful_shutdown, true in finalize_session. */
  datatype Main =
    | Starting
    | Working(hand: Hand, draining: bool)
    | Bagging(rest: seq<BlockHit>, final: bool)
    | Deferring(final: bool)
    | Joining(final: bool)
    | Left
    | Closing
    | Ended

  /** last is true on the way out. */
  datatype Worker =
    | NotStarted
    | Waiting
    | Taken(batch: seq<BlockHit>)
    | Submitting(batch: seq<BlockHit>)
    | Storing(batch: seq<BlockHit>, last: bool)
    | Serving
    | Flushing(work: seq<WorkItem>, next: nat, ids: seq<int>, last: bool)
    | Checking
    | LastDefer
    | LastFlush
    | Exited

  datatype Handler = Idle | Flagged | Saving(rest: seq<BlockHit>) | Parking

  /** prepared: every find that passed prepare; accepted: every find, live or bagged, that
      the pool accepted. */
  datatype Sys = Sys(
    store: StoreState, live: seq<BlockHit>, main: Main, worker: Worker, handler: Handler,
    shuttingDown: bool, workerRunning: bool,
    prepared: set<BlockHit>, accepted: set<BlockHit>)

  predicate IsHexDigit(c: char) { '0' <= c <= '9' || 'a' <= c <= 'f' || 'A' <= c <= 'F' }

  predicate IsHex64Key(key: string) {
    |key| == 64 && forall i :: 0 <= i < |key| ==> IsHexDigit(key[i])
  }

  lemma HexKey(key: string)
    ensures IsHex64Key(key) <==> |key| == 64 && forall c :: c in key ==> c in "0123456789abcdefABCDEF"
  {
    forall c: char
      ensures IsHexDigit(c) <==> c in "0123456789abcdefABCDEF"
    {
      var digits := "0123456789abcdefABCDEF";
      if '0' <= c <= '9' {
        assert digits[c as int - '0' as int] == c;
      } else if 'a' <= c <= 'f' {
        assert digits[10 + c as int - 'a' as int] == c;
      } else if 'A' <= c <= 'F' {
        assert digits[16 + c as int - 'A' as int] == c;
      }
    }
  }

  /** What the worker does with one live find: bag it unsent, or send it. */
  datatype Outcome = Keep(reason: string) | Sent(reply: Reply)

  datatype Step =
    // mining thread
    | StartMining | StartFailed
    | Find(hit: BlockHit, salt: string, mineM: Int32, timeCost: int, parallelism: int)
    | SeeRunning
    | QueueFind(reason: string, at: string)
    | HandOver
    | Graceful | LeaveLoop | Close
    | TakeLive
    | MainBags(at: string)
    | MainDefers(minute: int)
    | Joined
    // submit worker
    | Take | Route
    | WorkerStores(at: string)
    | SubmitNext(outcome: Outcome, at: string)
    | BeginFlush(v: View)
    | DropUnprepared(p: PendingBlock, salt: string, timeCost: int, parallelism: int, mineM: Int32)
    | FlushAnswer(answer: Reply)
    | EndWave | EndFlush | NoFlush | Check
    | WorkerDefers(minute: int)
    // signal handler
    | Signal | HandlerTakes
    | HandlerSaves(at: string)
    | HandlerDefers(minute: int)
    // other users of the store
    | Forward(forwarded: seq<int>)
    | FlushStore

  // ---- one step: None when it cannot happen --------------------------------------------------

  function Put(y: Sys, hit: BlockHit, reason: string, at: string): Sys {
    y.(store := Enqueue(y.store, hit, reason, at).0)
  }

  function MainNext(y: Sys, step: Step): Option<Sys> {
    match (step, y.main)
    case (StartMining, Starting) =>
      Some(y.(main := Working(Empty, false), worker := Waiting, workerRunning := true))
    case (StartFailed, Starting) => Some(y.(main := Left))
    case (Find(raw, salt, mineM, timeCost, parallelism), Working(Empty, draining)) =>
      if !IsHex64Key(raw.key) then Some(y)
      else
        var hit := PrepareHit(raw, salt, mineM, timeCost, parallelism);
        if hit.None? then Some(y)
        else Some(y.(main := Working(Prepared(hit.value), draining), prepared := y.prepared + {hit.value}))
    case (SeeRunning, Working(Prepared(hit), draining)) =>
      if y.shuttingDown then None else Some(y.(main := Working(Open(hit), draining)))
    case (QueueFind(reason, at), Working(Prepared(hit), draining)) =>
      if y.shuttingDown then Some(Put(y, hit, reason, at).(main := Working(Empty, draining))) else None
    case (QueueFind(reason, at), Working(Open(hit), draining)) =>
      Some(Put(y, hit, reason, at).(main := Working(Empty, draining)))
    case (HandOver, Working(Open(hit), draining)) =>
      Some(y.(live := y.live + [hit], main := Working(Empty, draining)))
    case (Graceful, Working(Empty, false)) =>
      if y.shuttingDown then None else Some(y.(shuttingDown := true, main := Working(Empty, true)))
    case (LeaveLoop, Working(Empty, false)) =>
      if y.shuttingDown then Some(y.(main := Left)) else None
    case (Close, Left) => Some(y.(shuttingDown := true, main := Closing))
    case (TakeLive, Working(Empty, true)) => Some(y.(live := [], main := Bagging(y.live, false)))
    case (TakeLive, Closing) => Some(y.(live := [], main := Bagging(y.live, true)))
    case (MainBags(at), Bagging(rest, final)) =>
      if rest == [] then Some(y.(main := Deferring(final)))
      else Some(Put(y, rest[0], SHUTDOWN_PENDING, at).(main := Bagging(rest[1..], final)))
    case (MainDefers(minute), Deferring(final)) =>
      Some(y.(store := DeferAll(y.store, minute), workerRunning := false, main := Joining(final)))
    case (Joined, Joining(final)) =>
      if y.worker.NotStarted? || y.worker.Exited? then Some(y.(main := if final then Ended else Left)) else None
    case _ => None
  }

  /** The reason an answer leaves on its block. */
  function Noted(s: StoreState, id: int, verdict: Verdict, last: bool): StoreState {
    match verdict
    case Accept => s
    case Transport => if last then s else MarkReason(s, id, NETWORK_DOWN)
    case Hold(parked) => if parked then MarkReason(s, id, "parked") else s
    case Reject => MarkReason(s, id, "resubmission")
  }

  function LiveReason(reply: Reply): string {
    match Judge(reply)
    case Transport => NETWORK_DOWN
    case Hold(_) =>
      if IsPoolHold(reply) || IsDifficultyMismatch(reply) then DIFFICULTY_CHANGE else OUTSIDE_XUNI_WINDOW
    case _ => "resubmission"
  }

  /** The reason a live find is bagged with, from the answer's status and text. */
  lemma LiveReasonExactly(r: Reply)
    requires !Took(r)
    ensures LiveReason(r)
            == if LineBroke(r) then "network_down"
               else if r.status in {401, 403, 429} || WrongM(r) then "difficulty_change"
               else if WrongTime(r) then "outside_xuni_window"
               else "resubmission"
  {
    hide Judge, Took, HoldsAnyCase;
    JudgeExactly(r);
    if r.status != 0 {
      MismatchExactly(r);
    }
  }

  function WorkerNext(y: Sys, step: Step): Option<Sys> {
    match (step, y.worker)
    case (Take, Waiting) => Some(y.(live := [], worker := Taken(y.live)))
    case (Route, Taken(batch)) =>
      Some(y.(worker := if y.shuttingDown then Storing(batch, false) else Submitting(batch)))
    case (WorkerStores(at), Storing(batch, last)) =>
      if batch == [] then Some(y.(worker := if last then LastDefer else Checking))
      else Some(Put(y, batch[0], SHUTDOWN_PENDING, at).(worker := Storing(batch[1..], last)))
    case (SubmitNext(outcome, at), Submitting(batch)) =>
      if batch == [] then Some(y.(worker := Serving))
      else
        var next := y.(worker := Submitting(batch[1..]));
        (match outcome
         case Keep(reason) => Some(Put(next, batch[0], reason, at))
         case Sent(reply) =>
           if Judge(reply).Accept? then Some(next.(accepted := y.accepted + {batch[0]}))
           else Some(Put(next, batch[0], LiveReason(reply), at)))
    case (BeginFlush(v), Serving) => StartFlush(y, v, false)
    case (BeginFlush(v), LastFlush) => StartFlush(y, v, true)
    case (DropUnprepared(p, salt, timeCost, parallelism, mineM), _) =>
      if (y.worker.Serving? || y.worker.LastFlush?) && p in y.store.pending && !IsArgon2Encoded(p.hit.hashStr)
         && PrepareHit(p.hit, salt, p.hit.memoryCost.GetOr(mineM), timeCost, parallelism).None?
      then Some(y.(store := MarkSubmitted(y.store, [p.id]))) else None
    case (FlushAnswer(reply), Flushing(work, next, ids, last)) =>
      if next >= |work| then None
      else
        var item, verdict := work[next], Judge(reply);
        Some(y.(store := Noted(y.store, item.id, verdict, last),
                accepted := if verdict.Accept? then y.accepted + BaggedAs(y.store, item.id) else y.accepted,
                worker := Flushing(work, next + 1, if verdict.Accept? then ids + [item.id] else ids, last)))
    case (EndWave, Flushing(work, next, ids, last)) =>
      Some(y.(store := MarkSubmitted(y.store, ids), worker := Flushing(work, next, [], last)))
    case (EndFlush, Flushing(_, _, ids, last)) =>
      if ids == [] then Some(y.(worker := if last then Exited else Serving)) else None
    case (NoFlush, Serving) => Some(y.(worker := Checking))
    case (NoFlush, LastFlush) => Some(y.(worker := Exited))
    case (Check, Checking) =>
      if y.workerRunning then Some(y.(worker := Waiting)) else Some(y.(live := [], worker := Storing(y.live, true)))
    case (WorkerDefers(minute), LastDefer) => Some(y.(store := DeferAll(y.store, minute), worker := LastFlush))
    case (WorkerDefers(minute), LastFlush) => Some(y.(store := DeferAll(y.store, minute)))
    case _ => None
  }

  /** The find bagged under this id. */
  function BaggedAs(s: StoreState, id: int): set<BlockHit> {
    set p | p in s.pending && p.id == id :: p.hit
  }

  function StartFlush(y: Sys, v: View, last: bool): Option<Sys> {
    if v.onShutdown != last then None
    else
      var batch := Sorted(Chosen(y.store.pending, v.netM, v.bagM, WaveSize(v) * 2, v.skipBefore, v.minute));
      Some(y.(worker := Flushing(WorkOf(v, batch), 0, [], last)))
  }

  function HandlerNext(y: Sys, step: Step): Option<Sys> {
    match (step, y.handler)
    case (Signal, Idle) => Some(y.(shuttingDown := true, workerRunning := false, handler := Flagged))
    case (HandlerTakes, Flagged) => Some(y.(live := [], handler := Saving(y.live)))
    case (HandlerSaves(at), Saving(rest)) =>
      if rest == [] then Some(y.(handler := Parking))
      else Some(Put(y, rest[0], SHUTDOWN_PENDING, at).(handler := Saving(rest[1..])))
    case (HandlerDefers(minute), Parking) => Some(y.(store := DeferAll(y.store, minute), handler := Idle))
    case _ => None
  }

  function OtherNext(y: Sys, step: Step): Option<Sys> {
    match step
    case Forward(ids) => Some(y.(store := MarkForwarded(y.store, ids)))
    case FlushStore => Some(y.(store := Flush(y.store)))
    case _ => None
  }

  datatype Thread = MiningThread | SubmitWorker | SignalHandler | Others

  function NextBy(t: Thread, y: Sys, step: Step): Option<Sys> {
    match t
    case MiningThread => MainNext(y, step)
    case SubmitWorker => WorkerNext(y, step)
    case SignalHandler => HandlerNext(y, step)
    case Others => OtherNext(y, step)
  }

  /** Any interleaving; a step that cannot happen leaves things as they are. */
  function Run(y: Sys, steps: seq<(Thread, Step)>): Sys {
    if steps == [] then y
    else
      var before, (t, step) := Run(y, steps[..|steps| - 1]), steps[|steps| - 1];
      NextBy(t, before, step).GetOr(before)
  }

  lemma {:induction false} RunAppend(y: Sys, a: seq<(Thread, Step)>, b: seq<(Thread, Step)>)
    ensures Run(y, a + b) == Run(Run(y, a), b)
    decreases |b|
  {
    hide NextBy;
    if b == [] {
      assert a + b == a;
    } else {
      var n := |b| - 1;
      assert (a + b)[..|a + b| - 1] == a + b[..n];
      RunAppend(y, a, b[..n]);
    }
  }

  /** A session on a loaded bag. */
  function Begin(s: StoreState): Sys {
    Sys(s, [], Starting, NotStarted, Idle, false, false, {}, {})
  }

  // ---- where a find is --------------------------------------------------------------------------

  function MainHolds(m: Main): seq<BlockHit> {
    match m
    case Working(Prepared(hit), _) => [hit]
    case Working(Open(hit), _) => [hit]
    case Bagging(rest, _) => rest
    case _ => []
  }

  function WorkerHolds(w: Worker): seq<BlockHit> {
    if w.Taken? || w.Submitting? || w.Storing? then w.batch else []
  }

  function HandlerHolds(h: Handler): seq<BlockHit> {
    if h.Saving? then h.rest else []
  }

  predicate InMemory(y: Sys, hit: BlockHit) {
    hit in y.live || hit in MainHolds(y.main) || hit in WorkerHolds(y.worker) || hit in HandlerHolds(y.handler)
  }

  predicate HashAccepted(accepted: set<BlockHit>, hash: string) {
    exists g :: g in accepted && g.hashStr == hash
  }

  /** The find itself is in memory, or its digest is in the bag, or a find with its digest
      was accepted. */
  predicate Safe(y: Sys, hit: BlockHit) {
    InMemory(y, hit) || hit.hashStr in y.store.index || HashAccepted(y.accepted, hit.hashStr)
  }

  // ---- invariants -------------------------------------------------------------------------------

  ghost predicate Conserved(y: Sys) {
    forall hit :: hit in y.prepared ==> IsArgon2Encoded(hit.hashStr) && Safe(y, hit)
  }

  /** A flush's items are the bag's own blocks, and the ids it will remove are of blocks
      whose finds were accepted. */
  ghost predicate FlushOk(s: StoreState, w: Worker, accepted: set<BlockHit>) {
    w.Flushing? ==>
      && (forall k :: 0 <= k < |w.work| ==> ItemOk(s, w.work[k]))
      && (forall id :: id in w.ids ==> AcceptedId(s, id, accepted))
  }

  /** What is sent is the bagged find, as it is or prepared. */
  ghost predicate SentAs(sent: BlockHit, hit: BlockHit) {
    exists v :: sent == Submitted(v, hit)
  }

  ghost predicate ItemOk(s: StoreState, item: WorkItem) {
    item.id < s.nextId && forall p :: p in s.pending && p.id == item.id ==> SentAs(item.hit, p.hit)
  }

  ghost predicate AcceptedId(s: StoreState, id: int, accepted: set<BlockHit>) {
    id < s.nextId && forall p :: p in s.pending && p.id == id ==> p.hit in accepted
  }

  /** From finalize_session's bagging on, the live queue is and stays empty. */
  predicate CloseOk(y: Sys) {
    && (y.main.Starting? ==> y.worker.NotStarted?)
    && (y.main.Ended? ==> y.worker.NotStarted? || y.worker.Exited?)
    && (y.main.Ended? || ((y.main.Bagging? || y.main.Deferring? || y.main.Joining?) && y.main.final) ==> y.live == [])
  }

  ghost predicate SysInv(y: Sys) {
    Inv(y.store) && Conserved(y) && FlushOk(y.store, y.worker, y.accepted) && CloseOk(y)
  }

  /** What every store operation but a removal does: blocks keep their ids and finds, new
      blocks get new ids, no digest is lost. */
  ghost predicate Grows(s: StoreState, t: StoreState) {
    && Inv(t) && s.nextId <= t.nextId && s.index <= t.index && Carries(s, t)
  }

  ghost predicate Carries(s: StoreState, t: StoreState) {
    forall p :: p in t.pending ==>
      p.id >= s.nextId || exists q :: q in s.pending && q.id == p.id && q.hit == p.hit
  }

  // ---- the store under the steps ------------------------------------------------------------------

  lemma EnqueueGrows(s: StoreState, hit: BlockHit, reason: string, at: string)
    requires Inv(s)
    ensures var t := Enqueue(s, hit, reason, at).0;
            Grows(s, t) && (hit.hashStr != "" ==> hit.hashStr in t.index)
  {
    hide Inv;
    EnqueueKeeps(s, hit, reason, at);
  }

  lemma RelabelCarries(s: StoreState, t: StoreState)
    requires |t.pending| == |s.pending|
    requires forall i :: 0 <= i < |s.pending| ==>
               t.pending[i].id == s.pending[i].id && t.pending[i].hit == s.pending[i].hit
    ensures Carries(s, t)
  {
    forall p | p in t.pending
      ensures exists q :: q in s.pending && q.id == p.id && q.hit == p.hit
    {
      var i :| 0 <= i < |t.pending| && t.pending[i] == p;
      assert s.pending[i] in s.pending;
    }
  }

  lemma LabelGrows(s: StoreState, op: Op)
    requires Inv(s) && (op.OpMarkForwarded? || op.OpMarkReason? || op.OpDeferAll? || op.OpFlush?)
    ensures Grows(s, Apply(s, op))
  {
    hide Inv;
    LabelOpsKeep(s, op);
    RelabelCarries(s, Apply(s, op));
  }

  lemma RemovalCarries(s: StoreState, ids: seq<int>)
    requires Inv(s)
    ensures var t := MarkSubmitted(s, ids);
            Inv(t) && t.nextId == s.nextId && Carries(s, t)
  {
    SubmittedKeeps(s, ids);
    WithoutMembers(s.pending, IdSet(ids));
  }

  /** A digest that a removal takes out belonged to a block with a removed id. */
  lemma RemovalTakes(s: StoreState, ids: seq<int>, d: string)
    requires Inv(s) && d in s.index && d !in MarkSubmitted(s, ids).index
    ensures exists p :: p in s.pending && p.id in ids && p.hit.hashStr == d
  {
    var p :| p in s.pending && p.hit.hashStr == d;
    WithoutMembers(s.pending, IdSet(ids));
    SubmittedKeeps(s, ids);
  }

  lemma FlushOkStays(s: StoreState, t: StoreState, w: Worker, accepted: set<BlockHit>, more: set<BlockHit>)
    requires FlushOk(s, w, accepted) && s.nextId <= t.nextId && Carries(s, t) && accepted <= more
    ensures FlushOk(t, w, more)
  {
    if w.Flushing? {
      forall item | ItemOk(s, item)
        ensures ItemOk(t, item)
      {
      }
      forall id | AcceptedId(s, id, accepted)
        ensures AcceptedId(t, id, more)
      {
      }
    }
  }

  /** The drop of a block that fails to prepare cannot happen. */
  lemma NeverDrops(y: Sys, p: PendingBlock, salt: string, timeCost: int, parallelism: int, mineM: Int32)
    ensures WorkerNext(y, DropUnprepared(p, salt, timeCost, parallelism, mineM)).None?
  {
    if !IsArgon2Encoded(p.hit.hashStr) {
      PrepareBareSucceeds(p.hit, salt, p.hit.memoryCost.GetOr(mineM), timeCost, parallelism);
    }
  }

  // ---- nothing is lost on the way --------------------------------------------------------------

  /** Every find in memory before the step is safe after it. */
  ghost predicate Moves(y: Sys, z: Sys) {
    && y.accepted <= z.accepted
    && (forall hit: BlockHit :: IsArgon2Encoded(hit.hashStr) && InMemory(y, hit) ==> Safe(z, hit))
    && (forall hit: BlockHit :: hit in z.prepared - y.prepared ==> IsArgon2Encoded(hit.hashStr) && InMemory(z, hit))
  }

  lemma SameGrows(s: StoreState)
    requires Inv(s)
    ensures Grows(s, s)
  {
  }

  lemma {:induction false} MainMoves(y: Sys, step: Step)
    requires Inv(y.store) && MainNext(y, step).Some? && (y.main.Starting? ==> y.worker.NotStarted?)
    ensures var z := MainNext(y, step).value;
            && Grows(y.store, z.store) && Moves(y, z) && z.accepted == y.accepted
            && (z.worker == y.worker || z.worker == Waiting)
  {
    hide Inv, Grows, Enqueue, DeferAll, PrepareHit, IsHex64Key;
    SameGrows(y.store);
    match step
    case Find(raw, salt, mineM, timeCost, parallelism) =>
      PrepareIdempotent(raw, salt, mineM, timeCost, parallelism);
    case QueueFind(reason, at) =>
      EnqueueSaves(y.store, y.main.hand.hit, reason, at);
    case MainBags(at) =>
      if y.main.rest != [] {
        EnqueueSaves(y.store, y.main.rest[0], SHUTDOWN_PENDING, at);
      }
    case MainDefers(minute) =>
      LabelGrows(y.store, OpDeferAll(minute));
    case _ =>
  }

  lemma EnqueueSaves(s: StoreState, hit: BlockHit, reason: string, at: string)
    requires Inv(s)
    ensures var t := Enqueue(s, hit, reason, at).0;
            Grows(s, t) && s.index <= t.index && (IsArgon2Encoded(hit.hashStr) ==> hit.hashStr in t.index)
  {
    hide Inv, Enqueue;
    EnqueueGrows(s, hit, reason, at);
  }

  lemma NotedGrows(s: StoreState, id: int, verdict: Verdict, last: bool)
    requires Inv(s)
    ensures Grows(s, Noted(s, id, verdict, last))
  {
    hide Inv, Grows, MarkReason;
    SameGrows(s);
    LabelGrows(s, OpMarkReason(id, NETWORK_DOWN));
    LabelGrows(s, OpMarkReason(id, "parked"));
    LabelGrows(s, OpMarkReason(id, "resubmission"));
  }

  /** The worker's steps that remove nothing from the bag. */
  lemma {:induction false} WorkerMoves(y: Sys, step: Step)
    requires Inv(y.store) && WorkerNext(y, step).Some? && !step.EndWave? && !step.DropUnprepared?
    ensures var z := WorkerNext(y, step).value;
            Grows(y.store, z.store) && Moves(y, z)
  {
    hide Inv, Grows, Enqueue, DeferAll, PrepareHit, Judge, LiveReason, Noted, StartFlush, BaggedAs;
    SameGrows(y.store);
    match step
    case WorkerStores(at) =>
      if y.worker.batch != [] {
        EnqueueSaves(y.store, y.worker.batch[0], SHUTDOWN_PENDING, at);
      }
    case SubmitNext(outcome, at) =>
      if y.worker.batch != [] {
        var reason := if outcome.Keep? then outcome.reason else LiveReason(outcome.reply);
        EnqueueSaves(y.store, y.worker.batch[0], reason, at);
      }
    case BeginFlush(v) =>
      StartFlushShape(y, v, y.worker.LastFlush?);
    case FlushAnswer(reply) =>
      NotedGrows(y.store, y.worker.work[y.worker.next].id, Judge(reply), y.worker.last);
    case WorkerDefers(minute) =>
      LabelGrows(y.store, OpDeferAll(minute));
    case _ =>
  }

  lemma StartFlushShape(y: Sys, v: View, last: bool)
    requires StartFlush(y, v, last).Some?
    ensures var z := StartFlush(y, v, last).value;
            z == y.(worker := z.worker) && z.worker.Flushing? && z.worker.ids == []
  {
  }

  lemma HandlerMoves(y: Sys, step: Step)
    requires Inv(y.store) && HandlerNext(y, step).Some?
    ensures var z := HandlerNext(y, step).value;
            && Grows(y.store, z.store) && Moves(y, z) && z.worker == y.worker
            && z.main == y.main && z.accepted == y.accepted
  {
    hide Inv, Grows, Enqueue, DeferAll;
    SameGrows(y.store);
    match step
    case HandlerSaves(at) =>
      if y.handler.rest != [] {
        EnqueueSaves(y.store, y.handler.rest[0], SHUTDOWN_PENDING, at);
      }
    case HandlerDefers(minute) =>
      LabelGrows(y.store, OpDeferAll(minute));
    case _ =>
  }

  lemma OtherMoves(y: Sys, step: Step)
    requires Inv(y.store) && OtherNext(y, step).Some?
    ensures var z := OtherNext(y, step).value;
            Grows(y.store, z.store) && z == y.(store := z.store) && Moves(y, z)
  {
    hide Inv, Grows;
    match step
    case Forward(ids) => LabelGrows(y.store, OpMarkForwarded(ids));
    case FlushStore => LabelGrows(y.store, OpFlush);
    case _ =>
  }

  lemma MovesConserve(y: Sys, z: Sys)
    requires Conserved(y) && Moves(y, z) && y.store.index <= z.store.index
    ensures Conserved(z)
  {
    hide InMemory;
    forall hit | hit in z.prepared
      ensures IsArgon2Encoded(hit.hashStr) && Safe(z, hit)
    {
      if hit in y.prepared {
        assert Safe(y, hit);
      }
    }
  }

  lemma SameMemory(y: Sys, z: Sys, hit: BlockHit)
    requires z.live == y.live && z.main == y.main && z.handler == y.handler
    requires WorkerHolds(z.worker) == WorkerHolds(y.worker)
    ensures InMemory(z, hit) == InMemory(y, hit)
  {
  }

  /** Removing a wave's accepted blocks. */
  lemma EndWaveKeeps(y: Sys)
    requires Inv(y.store) && Conserved(y) && FlushOk(y.store, y.worker, y.accepted) && y.worker.Flushing?
    ensures var z := WorkerNext(y, EndWave).value;
            Inv(z.store) && Conserved(z) && FlushOk(z.store, z.worker, z.accepted)
  {
    hide Inv, InMemory, MarkSubmitted, IsArgon2Encoded;
    var z := WorkerNext(y, EndWave).value;
    var ids := y.worker.ids;
    RemovalCarries(y.store, ids);
    FlushOkStays(y.store, z.store, y.worker, y.accepted, z.accepted);
    forall hit | hit in z.prepared
      ensures IsArgon2Encoded(hit.hashStr) && Safe(z, hit)
    {
      SameMemory(y, z, hit);
      if hit.hashStr in y.store.index && hit.hashStr !in z.store.index {
        RemovalTakes(y.store, ids, hit.hashStr);
        var p :| p in y.store.pending && p.id in ids && p.hit.hashStr == hit.hashStr;
        assert AcceptedId(y.store, p.id, y.accepted);
      }
    }
  }

  lemma ItemsFromBag(y: Sys, v: View, last: bool)
    requires Inv(y.store) && StartFlush(y, v, last).Some?
    ensures FlushOk(y.store, StartFlush(y, v, last).value.worker, y.accepted)
  {
    hide Inv, Sorted, Chosen, WorkOf;
    var ps := y.store.pending;
    var batch := Sorted(Chosen(ps, v.netM, v.bagM, WaveSize(v) * 2, v.skipBefore, v.minute));
    ValidDistinct(y.store);
    BatchContents(ps, v.netM, v.bagM, WaveSize(v) * 2, v.skipBefore, v.minute);
    WorkFromBatch(v, batch);
    var work := WorkOf(v, batch);
    forall k | 0 <= k < |work|
      ensures ItemOk(y.store, work[k])
    {
      assert ComesFrom(v, batch, work[k]);
      FromBag(y.store, v, batch, work[k]);
    }
  }

  lemma WorkFromBatch(v: View, batch: seq<PendingBlock>)
    ensures forall k :: 0 <= k < |WorkOf(v, batch)| ==> ComesFrom(v, batch, WorkOf(v, batch)[k])
  {
    hide ComesFrom;
    AllWorkMembers(v, batch);
    var work := WorkOf(v, batch);
    assert forall k :: 0 <= k < |work| ==> work[k] == AllWork(v, batch)[k];
  }

  lemma FromBag(s: StoreState, v: View, batch: seq<PendingBlock>, item: WorkItem)
    requires Inv(s) && ComesFrom(v, batch, item) && forall p :: p in batch ==> p in s.pending
    ensures ItemOk(s, item)
  {
    hide Workable;
    var p :| p in batch && p.id == item.id && item.hit == Submitted(v, p.hit);
    assert p in s.pending;
    assert SentAs(item.hit, p.hit);
    forall q | q in s.pending && q.id == item.id
      ensures q == p
    {
    }
  }

  lemma JustAccepted(s: StoreState, id: int, accepted: set<BlockHit>)
    requires id < s.nextId
    ensures AcceptedId(s, id, accepted + BaggedAs(s, id))
  {
    assert forall p :: p in s.pending && p.id == id ==> p.hit in BaggedAs(s, id);
  }

  lemma NotedAccept(s: StoreState, id: int, last: bool)
    ensures Noted(s, id, Accept, last) == s
  {
  }

  /** An answer keeps a flush's items and ids right. */
  lemma {:induction false} AnswerOk(y: Sys, reply: Reply)
    requires Inv(y.store) && FlushOk(y.store, y.worker, y.accepted) && WorkerNext(y, FlushAnswer(reply)).Some?
    ensures var z := WorkerNext(y, FlushAnswer(reply)).value;
            FlushOk(z.store, z.worker, z.accepted)
  {
    hide Inv, Judge, Noted, AcceptedId, ItemOk, BaggedAs, Carries;
    var z := WorkerNext(y, FlushAnswer(reply)).value;
    var item := y.worker.work[y.worker.next];
    NotedGrows(y.store, item.id, Judge(reply), y.worker.last);
    FlushOkStays(y.store, z.store, y.worker, y.accepted, z.accepted);
    if Judge(reply).Accept? {
      NotedAccept(y.store, item.id, y.worker.last);
      BelowNext(y.store, item);
      JustAccepted(y.store, item.id, y.accepted);
    }
  }

  lemma BelowNext(s: StoreState, item: WorkItem)
    requires ItemOk(s, item)
    ensures item.id < s.nextId
  {
  }

  lemma WorkerKeeps(y: Sys, step: Step)
    requires SysInv(y) && WorkerNext(y, step).Some?
    ensures SysInv(WorkerNext(y, step).value)
  {
    hide Inv, Conserved, FlushOk;
    var z := WorkerNext(y, step).value;
    WorkerCloseOk(y, step);
    if step.EndWave? {
      EndWaveKeeps(y);
    } else if step.DropUnprepared? {
      NeverDrops(y, step.p, step.salt, step.timeCost, step.parallelism, step.mineM);
    } else {
      WorkerMoves(y, step);
      MovesConserve(y, z);
      WorkerFlushOk(y, step);
    }
  }

  lemma WorkerFlushOk(y: Sys, step: Step)
    requires Inv(y.store) && FlushOk(y.store, y.worker, y.accepted)
    requires WorkerNext(y, step).Some? && !step.EndWave? && !step.DropUnprepared?
    ensures var z := WorkerNext(y, step).value;
            FlushOk(z.store, z.worker, z.accepted)
  {
    hide Inv, ItemOk, AcceptedId, Enqueue, DeferAll, StartFlush, Judge, LiveReason, Noted;
    match step
    case BeginFlush(v) =>
      StartFlushShape(y, v, y.worker.LastFlush?);
      ItemsFromBag(y, v, y.worker.LastFlush?);
    case FlushAnswer(reply) =>
      AnswerOk(y, reply);
    case _ =>
  }

  lemma WorkerCloseOk(y: Sys, step: Step)
    requires CloseOk(y) && WorkerNext(y, step).Some?
    ensures CloseOk(WorkerNext(y, step).value)
  {
    hide Enqueue, DeferAll, StartFlush, Judge, LiveReason, Noted, PrepareHit;
    if step.BeginFlush? {
      StartFlushShape(y, step.v, y.worker.LastFlush?);
    }
  }

  lemma MainKeeps(y: Sys, step: Step)
    requires SysInv(y) && MainNext(y, step).Some?
    ensures SysInv(MainNext(y, step).value)
  {
    hide Inv, Conserved, FlushOk, Moves;
    var z := MainNext(y, step).value;
    MainMoves(y, step);
    MovesConserve(y, z);
    FlushOkStays(y.store, z.store, y.worker, y.accepted, z.accepted);
    IdleFlushOk(z);
    MainCloseOk(y, step);
  }

  lemma IdleFlushOk(z: Sys)
    ensures !z.worker.Flushing? ==> FlushOk(z.store, z.worker, z.accepted)
  {
  }

  lemma MainCloseOk(y: Sys, step: Step)
    requires CloseOk(y) && MainNext(y, step).Some?
    ensures CloseOk(MainNext(y, step).value)
  {
    hide Enqueue, DeferAll, PrepareHit, IsHex64Key;
  }

  lemma HandlerKeeps(y: Sys, step: Step)
    requires SysInv(y) && HandlerNext(y, step).Some?
    ensures SysInv(HandlerNext(y, step).value)
  {
    hide Inv, Conserved, FlushOk, Moves, Enqueue, DeferAll;
    var z := HandlerNext(y, step).value;
    HandlerMoves(y, step);
    MovesConserve(y, z);
    FlushOkStays(y.store, z.store, y.worker, y.accepted, z.accepted);
  }

  lemma {:induction false} StepKeeps(y: Sys, t: Thread, step: Step)
    requires SysInv(y) && NextBy(t, y, step).Some?
    ensures SysInv(NextBy(t, y, step).value)
  {
    hide Inv, Conserved, FlushOk, Moves, MainNext, WorkerNext, HandlerNext, OtherNext;
    match t
    case MiningThread => MainKeeps(y, step);
    case SubmitWorker => WorkerKeeps(y, step);
    case SignalHandler => HandlerKeeps(y, step);
    case Others =>
      OtherMoves(y, step);
      var z := OtherNext(y, step).value;
      MovesConserve(y, z);
      FlushOkStays(y.store, z.store, y.worker, y.accepted, z.accepted);
  }

  lemma {:induction false} RunKeeps(s: StoreState, steps: seq<(Thread, Step)>)
    requires Inv(s)
    ensures SysInv(Run(Begin(s), steps))
  {
    if steps != [] {
      hide SysInv, NextBy;
      var front := steps[..|steps| - 1];
      var (t, step) := steps[|steps| - 1];
      RunKeeps(s, front);
      if NextBy(t, Run(Begin(s), front), step).Some? {
        StepKeeps(Run(Begin(s), front), t, step);
      }
    }
  }

  // ---- the results -------------------------------------------------------------------------------

  /** Conservation, over every interleaving: a find that passed prepare is itself in
      memory (live queue or a thread's hands), or its digest is in the bag, or the pool
      accepted it. */
  lemma FindsConserved(s: StoreState, steps: seq<(Thread, Step)>, hit: BlockHit)
    requires Inv(s) && hit in Run(Begin(s), steps).prepared
    ensures Safe(Run(Begin(s), steps), hit)
  {
    RunKeeps(s, steps);
  }

  /** After finalize_session nothing is left in the live queue or in the mining thread's
      or the worker's hands; once no signal handler is at work, every find is in the bag
      or was accepted, and the next session's load brings the bagged ones back. */
  lemma SessionEnd(s: StoreState, steps: seq<(Thread, Step)>)
    requires Inv(s) && Run(Begin(s), steps).main.Ended?
    ensures var y := Run(Begin(s), steps);
            && y.live == [] && MainHolds(y.main) == [] && WorkerHolds(y.worker) == []
            && (y.worker.NotStarted? || y.worker.Exited?)
            && (y.handler.Idle? ==> forall hit :: hit in y.prepared ==>
                  || HashAccepted(y.accepted, hit.hashStr)
                  || (hit.hashStr in y.store.index && hit.hashStr in Reloaded(y.store).index))
  {
    hide Inv, Load;
    var y := Run(Begin(s), steps);
    RunKeeps(s, steps);
    LoadRestores(y.store);
    IndexLogged(y.store);
    forall hit | hit in y.prepared && y.handler.Idle?
      ensures HashAccepted(y.accepted, hit.hashStr) || hit.hashStr in y.store.index
    {
      assert Safe(y, hit);
    }
  }

  lemma IndexLogged(s: StoreState)
    requires Inv(s)
    ensures s.index <= LogDigests(s.log)
  {
  }

  /** A hash leaves the bag only in the flush step that removes blocks, and only once the
      pool has accepted the very find bagged with it. */
  lemma {:induction false} OnlyAcceptedLeave(s: StoreState, steps: seq<(Thread, Step)>, t: Thread, step: Step,
                                             d: string)
    requires Inv(s)
    requires d in Run(Begin(s), steps).store.index && d !in Run(Begin(s), steps + [(t, step)]).store.index
    ensures var y := Run(Begin(s), steps);
            step.EndWave? && exists p :: p in y.store.pending && p.hit.hashStr == d && p.hit in y.accepted
  {
    hide Inv, MainNext, WorkerNext, HandlerNext, OtherNext, MarkSubmitted;
    var y := Run(Begin(s), steps);
    RunKeeps(s, steps);
    assert (steps + [(t, step)])[..|steps|] == steps;
    assert NextBy(t, y, step).Some?;
    match t
    case MiningThread => MainMoves(y, step);
    case SignalHandler => HandlerMoves(y, step);
    case Others => OtherMoves(y, step);
    case SubmitWorker =>
      if step.DropUnprepared? {
        NeverDrops(y, step.p, step.salt, step.timeCost, step.parallelism, step.mineM);
      } else if !step.EndWave? {
        WorkerMoves(y, step);
      } else {
        EndWaveAccepted(y, d);
      }
  }

  lemma EndWaveAccepted(y: Sys, d: string)
    requires SysInv(y) && WorkerNext(y, EndWave).Some?
    requires d in y.store.index && d !in WorkerNext(y, EndWave).value.store.index
    ensures exists p :: p in y.store.pending && p.hit.hashStr == d && p.hit in y.accepted
  {
    hide Inv, MarkSubmitted;
    RemovalTakes(y.store, y.worker.ids, d);
    var p :| p in y.store.pending && p.id in y.worker.ids && p.hit.hashStr == d;
    assert AcceptedId(y.store, p.id, y.accepted);
  }

  /** What identifies a find is its digest: enqueue bags the find itself exactly when its
      digest is not in the bag yet, or the block there already holds this very find. A
      second find with the same hash and another key is dropped. */
  lemma EnqueuedItself(s: StoreState, hit: BlockHit, reason: string, at: string)
    requires Inv(s) && hit.hashStr != ""
    ensures (exists p :: p in Enqueue(s, hit, reason, at).0.pending && p.hit == hit)
            <==> hit.hashStr !in s.index || exists p :: p in s.pending && p.hit == hit
  {
    if hit.hashStr !in s.index {
      var p := PendingBlock(s.nextId, hit, reason, 0, false);
      assert p in s.pending + [p];
    }
  }
}
