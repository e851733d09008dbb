/** The lane pipeline of `CudaEngine`: per lane a worker thread produces results into a
    four-slot ring and `mine_batch` takes one from every lane per call. The module has
    the mailbox as an object and the interleaved protocol as a state machine. */
module LaneRing {

  const RING: nat := 4

  /** What one `runBatch` returned; its contents are arbitrary. */
  datatype BatchResult = BatchResult(attempts: nat, matches: seq<string>)

  // ---- the mailbox ---------------------------------------------------------------------

  /** Ring positions from, from + 1, .. below to, oldest first. */
  ghost function Slots(ring: seq<BatchResult>, from: nat, to: nat): seq<BatchResult>
    requires |ring| == RING && from <= to
  {
    seq(to - from, k requires 0 <= k < to - from => ring[(from + k) % RING])
  }

  class Mailbox {
    const ring: array<BatchResult>
    var produced: nat
    var consumed: nat

    ghost predicate Valid()
      reads this
    {
      ring.Length == RING && consumed <= produced <= consumed + RING
    }

    /** The results waiting to be taken, in production order. */
    ghost function Unread(): seq<BatchResult>
      requires Valid()
      reads this, ring
    {
      Slots(ring[..], consumed, produced)
    }

    constructor ()
      ensures Valid() && fresh(ring) && Unread() == []
    {
      ring := new BatchResult[RING](_ => NOTHING);
      produced, consumed := 0, 0;
    }

    method Store(result: BatchResult)
      requires Valid() && |Unread()| < RING
      modifies this`produced, ring
      ensures Valid() && Unread() == old(Unread()) + [result]
    {
      ring[produced % RING] := result;
      produced := produced + 1;
    }

    method Take() returns (result: BatchResult)
      requires Valid() && Unread() != []
      modifies this`consumed
      ensures Valid() && [result] + Unread() == old(Unread())
    {
      result := ring[consumed % RING];
      consumed := consumed + 1;
    }
  }

  ghost predicate Separate(boxes: seq<Mailbox>)
    reads boxes
  {
    && (forall i :: 0 <= i < |boxes| ==> boxes[i].Valid())
    && (forall i, j :: 0 <= i < j < |boxes| ==> boxes[i] != boxes[j] && boxes[i].ring != boxes[j].ring)
  }

  /** The absorbing loop of `mine_batch`, once every lane has a result waiting. */
  method AbsorbOneEach(boxes: seq<Mailbox>) returns (results: seq<BatchResult>)
    requires Separate(boxes)
    requires forall i :: 0 <= i < |boxes| ==> boxes[i].Unread() != []
    modifies boxes
    ensures Separate(boxes) && |results| == |boxes|
    ensures forall i :: 0 <= i < |boxes| ==> [results[i]] + boxes[i].Unread() == old(boxes[i].Unread())
    ensures forall i :: 0 <= i < |boxes| ==> boxes[i].consumed == old(boxes[i].consumed) + 1
  {
    results := [];
    for i := 0 to |boxes|
      invariant Separate(boxes) && |results| == i
      invariant forall j :: 0 <= j < i ==> [results[j]] + boxes[j].Unread() == old(boxes[j].Unread())
      invariant forall j :: 0 <= j < i ==> boxes[j].consumed == old(boxes[j].consumed) + 1
      invariant forall j :: i <= j < |boxes| ==>
                  boxes[j].consumed == old(boxes[j].consumed) && boxes[j].Unread() == old(boxes[j].Unread())
    {
      var r := boxes[i].Take();
      results := results + [r];
    }
  }

  // ---- the interleaved protocol ----------------------------------------------------------

  /** Where a lane worker is. seen is the request number it is hashing for. */
  datatype WorkerPc =
    | AwaitRequest(seen: nat)
    | AwaitRoom(seen: nat)
    | Cleared(seen: nat)
    | Running(seen: nat)
    | Storing(seen: nat, result: BatchResult)
    | Stored(seen: nat, result: BatchResult)

  /** A result and the request it was computed for. */
  datatype Made = Made(request: nat, result: BatchResult)

  /** What was published: the cost to hash at, and how many results had been consumed then. */
  datatype Posted = Posted(cost: int, consumed: nat)

  /** How an absorbed result was labelled: with which cost, under which request. */
  datatype Label = Label(request: nat, cost: int)

  /** posted, made, absorbed and labels are history, request k being posted[k - 1]. usable
      says whether the published request has a batch, a difficulty and a salt. */
  datatype Lane = Lane(
    request: nat, usable: bool, produced: nat, consumed: nat, ring: seq<BatchResult>, pc: WorkerPc,
    posted: seq<Posted>, made: seq<Made>, absorbed: seq<BatchResult>, labels: seq<Label>)
  {
    function consumedAtPublish(): nat {
      if posted == [] then 0 else posted[|posted| - 1].consumed
    }
  }

  datatype ConsumerPc = Between | AwaitResults | Absorbing(lane: nat, read: bool)

  /** difficulty is what the engine is set to and labels its matches with. calls counts the
      calls since the workers were last restarted; ended keeps, as they were left, the
      lanes of all earlier sets of workers. */
  datatype Pipeline = Pipeline(
    lanes: seq<Lane>, consumer: ConsumerPc, calls: nat, difficulty: int, ended: seq<Lane>)

  datatype WorkerStep = TakeRequest | FindRoom | Recheck | Finish(result: BatchResult) | WriteSlot | Bump

  datatype Step =
    | Worker(lane: nat, step: WorkerStep)
    | Publish(changed: set<nat>, usable: bool)
    | AllReady
    | ReadSlot
    | Advance
    | Restart(lanes: nat)
    | SetDifficulty(difficulty: int)

  const NOTHING := BatchResult(0, [])
  const EMPTY_RING: seq<BatchResult> := [NOTHING, NOTHING, NOTHING, NOTHING]

  function NewLane(): Lane {
    Lane(0, false, 0, 0, EMPTY_RING, AwaitRequest(0), [], [], [], [])
  }

  function NewPipeline(n: nat, difficulty: int, ended: seq<Lane>): Pipeline {
    Pipeline(seq(n, _ => NewLane()), Between, 0, difficulty, ended)
  }

  predicate WorkerEnabled(l: Lane, step: WorkerStep) {
    match step
    case TakeRequest => l.pc.AwaitRequest? && l.request != l.pc.seen
    case FindRoom => l.pc.AwaitRoom? && (l.request != l.pc.seen || l.produced - l.consumed < RING)
    case Recheck => l.pc.Cleared?
    case Finish(_) => l.pc.Running?
    case WriteSlot => l.pc.Storing?
    case Bump => l.pc.Stored?
  }

  function WorkerMove(l: Lane, step: WorkerStep): Lane
    requires WorkerEnabled(l, step) && |l.ring| == RING
  {
    match step
    case TakeRequest => l.(pc := if l.usable then AwaitRoom(l.request) else AwaitRequest(l.request))
    case FindRoom => l.(pc := Cleared(l.pc.seen))
    case Recheck => l.(pc := if l.request != l.pc.seen then AwaitRequest(l.pc.seen) else Running(l.pc.seen))
    case Finish(result) => l.(pc := Storing(l.pc.seen, result))
    case WriteSlot => l.(ring := l.ring[l.produced % RING := l.pc.result], pc := Stored(l.pc.seen, l.pc.result))
    case Bump => l.(produced := l.produced + 1, made := l.made + [Made(l.pc.seen, l.pc.result)],
                    pc := AwaitRoom(l.pc.seen))
  }

  function Republish(l: Lane, cost: int, usable: bool): Lane {
    l.(request := l.request + 1, usable := usable, posted := l.posted + [Posted(cost, l.consumed)])
  }

  /** A lane that has to be published to: it has no request, or one at another cost. */
  predicate Changed(l: Lane, difficulty: int) {
    l.request == 0 || l.posted == [] || l.posted[|l.posted| - 1].cost != difficulty
  }

  ghost predicate Enabled(p: Pipeline, step: Step) {
    match step
    case Worker(i, s) => i < |p.lanes| && |p.lanes[i].ring| == RING && WorkerEnabled(p.lanes[i], s)
    case Publish(changed, _) =>
      p.consumer == Between && forall i :: 0 <= i < |p.lanes| && Changed(p.lanes[i], p.difficulty) ==> i in changed
    case AllReady =>
      p.consumer == AwaitResults
      && forall i :: 0 <= i < |p.lanes| ==> p.lanes[i].produced - p.lanes[i].consumed >= 1
    case ReadSlot =>
      p.consumer.Absorbing? && !p.consumer.read && p.consumer.lane < |p.lanes|
      && |p.lanes[p.consumer.lane].ring| == RING
    case Advance => p.consumer.Absorbing? && p.consumer.read && p.consumer.lane < |p.lanes|
    case Restart(_) => p.consumer == Between
    case SetDifficulty(_) => p.consumer == Between
  }

  function AfterLane(p: Pipeline, i: nat): Pipeline {
    if i < |p.lanes| then p.(consumer := Absorbing(i, false)) else p.(consumer := Between, calls := p.calls + 1)
  }

  /** One atomic step. Publishing happens for all changed lanes under one lock. */
  ghost function Move(p: Pipeline, step: Step): Pipeline
    requires Enabled(p, step)
  {
    match step
    case Worker(i, s) => p.(lanes := p.lanes[i := WorkerMove(p.lanes[i], s)])
    case Publish(changed, usable) =>
      p.(lanes := seq(|p.lanes|, i requires 0 <= i < |p.lanes| =>
                    if i in changed then Republish(p.lanes[i], p.difficulty, usable) else p.lanes[i]),
         consumer := AwaitResults)
    case AllReady => AfterLane(p, 0)
    case ReadSlot =>
      var i := p.consumer.lane;
      var l := p.lanes[i];
      p.(lanes := p.lanes[i := l.(absorbed := l.absorbed + [l.ring[l.consumed % RING]],
                                  labels := l.labels + [Label(l.request, p.difficulty)])],
         consumer := Absorbing(i, true))
    case Advance =>
      var i := p.consumer.lane;
      AfterLane(p.(lanes := p.lanes[i := p.lanes[i].(consumed := p.lanes[i].consumed + 1)]), i + 1)
    case Restart(n) => NewPipeline(n, p.difficulty, p.ended + p.lanes)
    case SetDifficulty(d) => p.(difficulty := d)
  }

  // ---- the invariant ---------------------------------------------------------------------

  ghost predicate Busy(pc: WorkerPc) { pc.Running? || pc.Storing? || pc.Stored? }

  /** reading: the consumer has read this lane's oldest slot but not yet counted it. */
  ghost predicate LaneSafe(l: Lane, reading: bool) {
    && |l.ring| == RING
    && l.produced == |l.made|
    && l.consumed <= l.produced <= l.consumed + RING
    && |l.absorbed| == l.consumed + (if reading then 1 else 0) <= l.produced
    && (forall k :: 0 <= k < |l.absorbed| ==> l.absorbed[k] == l.made[k].result)
    && (forall k :: l.consumed <= k < l.produced ==> l.ring[k % RING] == l.made[k].result)
    && (Busy(l.pc) ==> l.produced < l.consumed + RING)
    && (l.pc.Cleared? && l.pc.seen == l.request ==> l.produced < l.consumed + RING)
    && (l.pc.Stored? ==> l.ring[l.produced % RING] == l.pc.result)
  }

  /** Results of superseded requests are confined to the first four after the publish. */
  ghost predicate LaneFresh(l: Lane) {
    && |l.posted| == l.request && l.consumedAtPublish() <= l.consumed && l.pc.seen <= l.request
    && (forall k :: 0 <= k < |l.made| && l.made[k].request != l.request ==> k < l.consumedAtPublish() + RING)
    && (Busy(l.pc) && l.pc.seen != l.request ==> l.produced < l.consumedAtPublish() + RING)
  }

  /** A result absorbed under a request other than its own is one of the first four
      absorbed under it. */
  ghost predicate LaneLabelled(l: Lane) {
    && |l.labels| == |l.absorbed| <= |l.made| && |l.posted| == l.request
    && (forall k :: 0 <= k < |l.made| ==> 1 <= l.made[k].request <= l.request)
    && (Busy(l.pc) ==> 1 <= l.pc.seen)
    && (l.pc.AwaitRoom? || l.pc.Cleared? ==> 1 <= l.pc.seen)
    && (forall k :: 0 <= k < |l.labels| ==>
          && l.made[k].request <= l.labels[k].request <= l.request
          && l.labels[k].cost == l.posted[l.labels[k].request - 1].cost
          && (l.made[k].request != l.labels[k].request ==>
                l.posted[l.labels[k].request - 1].consumed <= k
                < l.posted[l.labels[k].request - 1].consumed + RING))
  }

  ghost predicate LaneInv(p: Pipeline, i: nat)
    requires i < |p.lanes|
  {
    var l, c := p.lanes[i], p.consumer;
    && LaneSafe(l, c.Absorbing? && c.read && c.lane == i)
    && LaneFresh(l) && LaneLabelled(l)
    && (c != Between ==> !Changed(l, p.difficulty))
    && l.consumed == p.calls + (if c.Absorbing? && i < c.lane then 1 else 0)
    && (c.Absorbing? && i >= c.lane ==> l.consumed < l.produced)
  }

  ghost predicate Inv(p: Pipeline) {
    && (p.consumer.Absorbing? ==> p.consumer.lane < |p.lanes|)
    && (forall i :: 0 <= i < |p.ended| ==>
          LaneSafe(p.ended[i], false) && LaneFresh(p.ended[i]) && LaneLabelled(p.ended[i]))
    && forall i :: 0 <= i < |p.lanes| ==> LaneInv(p, i)
  }

  lemma WriteMissesUnread(l: Lane, k: nat)
    requires l.consumed <= k < l.produced < l.consumed + RING
    ensures k % RING != l.produced % RING
  {
  }

  lemma WorkerKeeps(l: Lane, step: WorkerStep, reading: bool)
    requires LaneSafe(l, reading) && LaneFresh(l) && WorkerEnabled(l, step)
    ensures var m := WorkerMove(l, step);
            && LaneSafe(m, reading) && LaneFresh(m)
            && m.consumed == l.consumed && m.produced >= l.produced
            && m.request == l.request && m.posted == l.posted
  {
    var m := WorkerMove(l, step);
    if step.WriteSlot? {
      forall k | m.consumed <= k < m.produced
        ensures m.ring[k % RING] == m.made[k].result
      {
        WriteMissesUnread(l, k);
      }
    }
  }

  lemma WorkerKeepsLabels(l: Lane, step: WorkerStep)
    requires LaneLabelled(l) && WorkerEnabled(l, step) && |l.ring| == RING && l.pc.seen <= l.request
    ensures LaneLabelled(WorkerMove(l, step))
  {
  }

  lemma RepublishKeeps(l: Lane, cost: int, usable: bool)
    requires LaneSafe(l, false) && LaneFresh(l) && LaneLabelled(l)
    ensures var m := Republish(l, cost, usable);
            LaneSafe(m, false) && LaneFresh(m) && LaneLabelled(m) && !Changed(m, cost)
  {
    hide LaneLabelled;
    RepublishKeepsLabels(l, cost, usable);
  }

  lemma RepublishKeepsLabels(l: Lane, cost: int, usable: bool)
    requires LaneLabelled(l)
    ensures LaneLabelled(Republish(l, cost, usable))
  {
    var m := Republish(l, cost, usable);
    assert forall k :: 0 <= k < |l.posted| ==> m.posted[k] == l.posted[k];
  }

  /** Absorbing the oldest result labels it under the lane's current request. */
  lemma AbsorbKeepsLabels(l: Lane, result: BatchResult, difficulty: int)
    requires LaneSafe(l, false) && LaneFresh(l) && LaneLabelled(l) && l.consumed < l.produced
    requires !Changed(l, difficulty)
    ensures LaneLabelled(l.(absorbed := l.absorbed + [result], labels := l.labels + [Label(l.request, difficulty)]))
  {
  }

  lemma WorkerKeepsLane(l: Lane, step: WorkerStep, reading: bool)
    requires LaneSafe(l, reading) && LaneFresh(l) && LaneLabelled(l) && WorkerEnabled(l, step)
    ensures var m := WorkerMove(l, step);
            && LaneSafe(m, reading) && LaneFresh(m) && LaneLabelled(m)
            && m.consumed == l.consumed && m.produced >= l.produced
            && m.request == l.request && m.posted == l.posted
  {
    WorkerKeeps(l, step, reading);
    WorkerKeepsLabels(l, step);
    hide *;
  }

  lemma WorkerKeepsInv(p: Pipeline, j: nat, s: WorkerStep)
    requires Inv(p) && Enabled(p, Worker(j, s))
    ensures Inv(Move(p, Worker(j, s)))
  {
    hide LaneSafe, LaneFresh, LaneLabelled, WorkerMove, WorkerEnabled;
    var q := Move(p, Worker(j, s));
    assert LaneInv(p, j);
    LaneRingSize(p.lanes[j], p.consumer.Absorbing? && p.consumer.read && p.consumer.lane == j);
    WorkerKeepsLane(p.lanes[j], s, p.consumer.Absorbing? && p.consumer.read && p.consumer.lane == j);
    forall i | 0 <= i < |q.lanes|
      ensures LaneInv(q, i)
    {
      assert LaneInv(p, i);
    }
  }

  lemma LaneRingSize(l: Lane, reading: bool)
    requires LaneSafe(l, reading)
    ensures |l.ring| == RING
  {
  }

  lemma PublishKeepsInv(p: Pipeline, changed: set<nat>, usable: bool)
    requires Inv(p) && Enabled(p, Publish(changed, usable))
    ensures Inv(Move(p, Publish(changed, usable)))
  {
    hide LaneSafe, LaneFresh, LaneLabelled;
    var q := Move(p, Publish(changed, usable));
    forall i | 0 <= i < |q.lanes|
      ensures LaneInv(q, i)
    {
      assert LaneInv(p, i);
      hide Changed;
      RepublishKeeps(p.lanes[i], p.difficulty, usable);
    }
  }

  lemma ReadKeepsLane(l: Lane, difficulty: int)
    requires LaneSafe(l, false) && LaneFresh(l) && LaneLabelled(l) && l.consumed < l.produced
    requires !Changed(l, difficulty)
    ensures var m := l.(absorbed := l.absorbed + [l.ring[l.consumed % RING]],
                        labels := l.labels + [Label(l.request, difficulty)]);
            LaneSafe(m, true) && LaneFresh(m) && LaneLabelled(m) && !Changed(m, difficulty)
  {
    AbsorbKeepsLabels(l, l.ring[l.consumed % RING], difficulty);
    hide LaneLabelled;
  }

  lemma ReadKeepsInv(p: Pipeline)
    requires Inv(p) && Enabled(p, ReadSlot)
    ensures Inv(Move(p, ReadSlot))
  {
    var q, j := Move(p, ReadSlot), p.consumer.lane;
    assert LaneInv(p, j);
    ReadKeepsLane(p.lanes[j], p.difficulty);
    hide LaneSafe, LaneFresh, LaneLabelled, Changed;
    forall i | 0 <= i < |q.lanes|
      ensures LaneInv(q, i)
    {
      assert LaneInv(p, i);
    }
  }

  lemma AdvanceKeepsLane(l: Lane)
    requires LaneSafe(l, true) && LaneFresh(l) && LaneLabelled(l)
    ensures var m := l.(consumed := l.consumed + 1);
            LaneSafe(m, false) && LaneFresh(m) && LaneLabelled(m)
  {
  }

  lemma AdvanceKeepsInv(p: Pipeline)
    requires Inv(p) && Enabled(p, Advance)
    ensures Inv(Move(p, Advance))
  {
    var q, j := Move(p, Advance), p.consumer.lane;
    assert LaneInv(p, j);
    AdvanceKeepsLane(p.lanes[j]);
    hide LaneSafe, LaneFresh, LaneLabelled;
    forall i | 0 <= i < |q.lanes|
      ensures LaneInv(q, i)
    {
      assert LaneInv(p, i);
    }
  }

  lemma ReadyKeepsInv(p: Pipeline, step: Step)
    requires Inv(p) && Enabled(p, step) && (step.AllReady? || step.SetDifficulty?)
    ensures Inv(Move(p, step))
  {
    hide LaneSafe, LaneFresh, LaneLabelled, Changed;
    var q := Move(p, step);
    forall i | 0 <= i < |q.lanes|
      ensures LaneInv(q, i)
    {
      assert LaneInv(p, i);
    }
  }

  lemma MoveKeepsInv(p: Pipeline, step: Step)
    requires Inv(p) && Enabled(p, step)
    ensures Inv(Move(p, step))
  {
    hide Inv, Enabled, Move;
    match step
    case Worker(j, s) => WorkerKeepsInv(p, j, s);
    case Publish(changed, usable) => PublishKeepsInv(p, changed, usable);
    case Restart(n) => RestartInv(p, n);
    case ReadSlot => ReadKeepsInv(p);
    case Advance => AdvanceKeepsInv(p);
    case _ => ReadyKeepsInv(p, step);
  }

  lemma RestartInv(p: Pipeline, n: nat)
    requires Inv(p) && Enabled(p, Restart(n))
    ensures Inv(Move(p, Restart(n)))
  {
    var q := Move(p, Restart(n));
    hide LaneSafe, LaneFresh, LaneLabelled, NewLane;
    NewLaneOk();
    forall i | 0 <= i < |q.ended|
      ensures LaneSafe(q.ended[i], false) && LaneFresh(q.ended[i]) && LaneLabelled(q.ended[i])
    {
      if i >= |p.ended| {
        assert LaneInv(p, i - |p.ended|);
      }
    }
  }

  lemma NewLaneOk()
    ensures LaneSafe(NewLane(), false) && LaneFresh(NewLane()) && LaneLabelled(NewLane()) && NewLane().consumed == 0
  {
  }

  // ---- whole runs -------------------------------------------------------------------------

  /** p is reached from a new pipeline of n lanes by the steps, each enabled in turn. */
  ghost predicate Reaches(n: nat, steps: seq<Step>, p: Pipeline)
    decreases |steps|
  {
    if steps == [] then p == NewPipeline(n, p.difficulty, [])
    else
      var last := |steps| - 1;
      exists before ::
        Reaches(n, steps[..last], before) && Enabled(before, steps[last]) && p == Move(before, steps[last])
  }

  lemma {:induction false} ReachedInv(n: nat, steps: seq<Step>, p: Pipeline)
    requires Reaches(n, steps, p)
    ensures Inv(p)
    decreases |steps|
  {
    if steps != [] {
      var last := |steps| - 1;
      var before :|
        Reaches(n, steps[..last], before) && Enabled(before, steps[last]) && p == Move(before, steps[last]);
      ReachedInv(n, steps[..last], before);
      MoveKeepsInv(before, steps[last]);
    }
  }

  /** Ring safety, for every interleaving and any number of re-published requests and
      restarts: never more than four results wait on a lane, what has been absorbed is
      exactly a prefix of what was produced, in order, and what is unread is intact in
      its slot. */
  lemma {:induction false} RingSafety(n: nat, steps: seq<Step>, p: Pipeline, i: nat)
    requires Reaches(n, steps, p) && i < |p.lanes|
    ensures var l := p.lanes[i];
            && 0 <= l.produced - l.consumed <= 4 && l.produced == |l.made|
            && |l.absorbed| <= |l.made|
            && (forall k :: 0 <= k < |l.absorbed| ==> l.absorbed[k] == l.made[k].result)
            && |l.ring| == RING
            && (forall k :: l.consumed <= k < l.produced ==> l.ring[k % RING] == l.made[k].result)
  {
    ReachedInv(n, steps, p);
    assert LaneInv(p, i);
  }

  // ---- nobody waits for nothing ------------------------------------------------------------

  /** The worker has taken the published request and found nothing in it to do. */
  predicate Idle(l: Lane) { l.pc == AwaitRequest(l.request) }

  /** A worker can move unless it idles, or its four results are all unread and the request
      still stands. */
  lemma WaitsExactly(l: Lane)
    ensures (forall s :: !WorkerEnabled(l, s))
            <==> Idle(l) || (l.pc == AwaitRoom(l.request) && l.produced - l.consumed >= 4)
  {
    assert WorkerEnabled(l, TakeRequest) || WorkerEnabled(l, FindRoom) || WorkerEnabled(l, Recheck)
        || WorkerEnabled(l, Finish(NOTHING)) || WorkerEnabled(l, WriteSlot) || WorkerEnabled(l, Bump)
        || Idle(l) || (l.pc == AwaitRoom(l.request) && l.produced - l.consumed >= 4);
  }

  /** Only a request without a batch, a difficulty or a salt leaves a worker idle. */
  ghost predicate IdleForCause(p: Pipeline) {
    forall i :: 0 <= i < |p.lanes| && Idle(p.lanes[i]) && p.lanes[i].request > 0 ==> !p.lanes[i].usable
  }

  lemma IdleStep(p: Pipeline, step: Step)
    requires Inv(p) && Enabled(p, step) && IdleForCause(p)
    ensures IdleForCause(Move(p, step))
  {
    var q := Move(p, step);
    forall i | 0 <= i < |q.lanes| && Idle(q.lanes[i]) && q.lanes[i].request > 0
      ensures !q.lanes[i].usable
    {
      if i < |p.lanes| && !step.Restart? {
        assert LaneInv(p, i);
        hide LaneSafe, LaneLabelled;
      }
    }
  }

  lemma {:induction false} IdleReached(n: nat, steps: seq<Step>, p: Pipeline)
    requires Reaches(n, steps, p)
    ensures IdleForCause(p)
    decreases |steps|
  {
    if steps != [] {
      hide Inv, Enabled, Move;
      var last := |steps| - 1;
      var before :|
        Reaches(n, steps[..last], before) && Enabled(before, steps[last]) && p == Move(before, steps[last]);
      ReachedInv(n, steps[..last], before);
      IdleReached(n, steps[..last], before);
      IdleStep(before, steps[last]);
    }
  }

  predicate Empty(l: Lane) { l.produced == l.consumed }

  /** mine_batch never hangs in the middle of a call: whatever has happened before, either
      the supervisor's thread can go on, or a worker whose lane it waits for can, or that
      lane was given an unusable request. */
  lemma {:induction false} NoDeadlock(n: nat, steps: seq<Step>, p: Pipeline)
    requires Reaches(n, steps, p) && p.consumer != Between
    ensures || Enabled(p, AllReady) || Enabled(p, ReadSlot) || Enabled(p, Advance)
            || exists i :: 0 <= i < |p.lanes| && Empty(p.lanes[i])
                           && ((exists s :: Enabled(p, Worker(i, s)))
                               || (p.lanes[i].request > 0 && !p.lanes[i].usable))
  {
    ReachedInv(n, steps, p);
    IdleReached(n, steps, p);
    if p.consumer.Absorbing? {
      assert LaneInv(p, p.consumer.lane);
    } else if !Enabled(p, AllReady) {
      var i :| 0 <= i < |p.lanes| && p.lanes[i].produced - p.lanes[i].consumed < 1;
      assert LaneInv(p, i);
      assert Empty(p.lanes[i]);
      WaitsExactly(p.lanes[i]);
      if !Idle(p.lanes[i]) {
        var s :| WorkerEnabled(p.lanes[i], s);
        assert Enabled(p, Worker(i, s));
      }
    }
  }

  /** Results the lane has produced but nobody has absorbed, oldest first. */
  function Unabsorbed(l: Lane): seq<Made>
    requires |l.absorbed| <= |l.made|
  {
    l.made[|l.absorbed|..]
  }

  /** What a restart throws away, lane by lane: of a worker's results exactly the unread
      suffix, and the one it is computing or storing, never more than four in all. All
      others had been absorbed, each once and in order. */
  lemma {:induction false} RestartLoses(n: nat, steps: seq<Step>, p: Pipeline, i: nat)
    requires Reaches(n, steps, p) && i < |p.ended|
    ensures var l := p.ended[i];
            && |l.absorbed| <= |l.made|
            && (forall k :: 0 <= k < |l.absorbed| ==> l.absorbed[k] == l.made[k].result)
            && |Unabsorbed(l)| + (if Busy(l.pc) then 1 else 0) <= 4
  {
    ReachedInv(n, steps, p);
  }

  /** And a restart is the only thing that does: it files the lanes as they are. */
  lemma RestartFiles(p: Pipeline, step: Step)
    requires Enabled(p, step)
    ensures var q := Move(p, step);
            q.ended == if step.Restart? then p.ended + p.lanes else p.ended
  {
  }

  /** Between calls every lane has been drained equally often: once per call since the
      workers were started. */
  lemma LanesInStep(n: nat, steps: seq<Step>, p: Pipeline, i: nat)
    requires Reaches(n, steps, p) && i < |p.lanes| && !p.consumer.Absorbing?
    ensures p.lanes[i].consumed == |p.lanes[i].absorbed| == p.calls
  {
    ReachedInv(n, steps, p);
    assert LaneInv(p, i);
  }

  /** After a new request is published to a lane, at most four more results of earlier
      requests can ever be absorbed from it; everything later answers the new request. */
  lemma StaleResultsBounded(n: nat, steps: seq<Step>, p: Pipeline, i: nat, k: nat)
    requires Reaches(n, steps, p) && i < |p.lanes|
    requires p.lanes[i].consumedAtPublish() + RING <= k < |p.lanes[i].made|
    ensures p.lanes[i].made[k].request == p.lanes[i].request
  {
    ReachedInv(n, steps, p);
    assert LaneInv(p, i);
  }

  // ---- labelling with the current cost -----------------------------------------------------------

  /** The cost an absorbed result was computed at. */
  function OwnCost(l: Lane, k: nat): int
    requires k < |l.made| && 1 <= l.made[k].request <= |l.posted|
  {
    l.posted[l.made[k].request - 1].cost
  }

  /** Matches are labelled with the cost the engine is set to when they are absorbed. That
      is the cost they were computed at exactly when the result answers the request then
      current, or one at the same cost; and only the first four absorbed after a publish
      can answer an earlier one. */
  lemma {:induction false} LabelsExactly(n: nat, steps: seq<Step>, p: Pipeline, i: nat, k: nat)
    requires Reaches(n, steps, p) && i < |p.lanes| && k < |p.lanes[i].absorbed|
    ensures var l := p.lanes[i];
            && k < |l.made| && 1 <= l.made[k].request <= |l.posted| && k < |l.labels|
            && 1 <= l.labels[k].request <= |l.posted|
            && var under := l.posted[l.labels[k].request - 1];
               && (l.labels[k].cost == OwnCost(l, k)
                   <==> l.made[k].request == l.labels[k].request || under.cost == OwnCost(l, k))
               && (l.labels[k].cost != OwnCost(l, k) ==> under.consumed <= k < under.consumed + RING)
  {
    ReachedInv(n, steps, p);
    assert LaneInv(p, i);
  }

  lemma AbsorbedNext(l: Lane, d: int)
    requires LaneSafe(l, false) && LaneFresh(l) && LaneLabelled(l) && l.consumed < l.produced
    ensures var m := Republish(l, d, true);
            var r := m.(absorbed := m.absorbed + [m.ring[m.consumed % RING]],
                        labels := m.labels + [Label(m.request, d)]);
            var k := l.consumed;
            && k < |l.made| && 1 <= l.made[k].request <= |l.posted| && |r.labels| == k + 1
            && r.made == l.made && 1 <= r.made[k].request <= |r.posted|
            && r.labels[k].cost == d && OwnCost(r, k) == OwnCost(l, k)
  {
  }

  /** And it does happen: whenever every lane has a result waiting and the difficulty is
      changed, the next result absorbed is labelled with the new cost, whatever its own. */
  lemma {:induction false} StaleIsMislabelled(p: Pipeline, d: int, all: set<nat>)
    requires Inv(p) && p.consumer == Between && p.lanes != []
    requires forall i :: 0 <= i < |p.lanes| ==> i in all && p.lanes[i].consumed < p.lanes[i].produced
    ensures Enabled(p, SetDifficulty(d))
    ensures var a := Move(p, SetDifficulty(d));
            Enabled(a, Publish(all, true))
            && var b := Move(a, Publish(all, true));
               Enabled(b, AllReady)
               && var c := Move(b, AllReady);
                  Enabled(c, ReadSlot)
                  && var l, k := Move(c, ReadSlot).lanes[0], p.lanes[0].consumed;
                     && k < |l.made| && 1 <= l.made[k].request <= |l.posted| && |l.labels| == k + 1
                     && k < |p.lanes[0].made| && 1 <= p.lanes[0].made[k].request <= |p.lanes[0].posted|
                     && l.labels[k].cost == d && OwnCost(l, k) == OwnCost(p.lanes[0], k)
  {
    assert LaneInv(p, 0);
    AbsorbedNext(p.lanes[0], d);
    LaneRingSize(p.lanes[0], false);
    hide Inv, LaneSafe, LaneFresh, LaneLabelled, OwnCost;
    var a := Move(p, SetDifficulty(d));
    var b := Move(a, Publish(all, true));
    assert b.lanes[0] == Republish(p.lanes[0], d, true);
  }
}
