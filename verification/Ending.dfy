/** That a session can always be ended: no thread of `Lifecycle` ever waits for something
    that cannot come, and in particular the join on the submit worker returns. */
module Ending {
  import opened Hits
  import opened Policy
  import opened Phc
  import opened Store
  import opened BagRuns
  import opened Submit
  import opened Lifecycle

  // ---- the way out, thread by thread --------------------------------------------------------

  predicate WorkerGone(w: Worker) { w.NotStarted? || w.Exited? }

  /** The step that takes the mining thread closer to its end; in a join it waits. */
  function MainOut(y: Sys): Step
    requires !y.main.Ended? && !y.main.Joining?
  {
    match y.main
    case Starting => StartFailed
    case Working(Prepared(_), _) => if y.shuttingDown then QueueFind(SHUTDOWN_PENDING, "") else SeeRunning
    case Working(Open(_), _) => HandOver
    case Working(Empty, true) => TakeLive
    case Working(Empty, false) => if y.shuttingDown then LeaveLoop else Graceful
    case Bagging(_, _) => MainBags("")
    case Deferring(_) => MainDefers(0)
    case Left => Close
    case Closing => TakeLive
  }

  /** And the submit worker's, once it has been told to stop. */
  function WorkerOut(y: Sys): Step
    requires !WorkerGone(y.worker)
  {
    match y.worker
    case Waiting => Take
    case Taken(_) => Route
    case Submitting(_) => SubmitNext(Keep(SHUTDOWN_PENDING), "")
    case Storing(_, _) => WorkerStores("")
    case Serving => NoFlush
    case Flushing(_, _, ids, _) => if ids == [] then EndFlush else EndWave
    case Checking => Check
    case LastDefer => WorkerDefers(0)
    case LastFlush => NoFlush
  }

  /** How far the mining thread is from its end, as a stage and what it holds. */
  function MainStage(m: Main): nat {
    match m
    case Ended => 0
    case Joining(final) => if final then 1 else 6
    case Deferring(final) => if final then 2 else 7
    case Bagging(_, final) => if final then 3 else 8
    case Closing => 4
    case Left => 5
    case Starting => 6
    case Working(hand, draining) =>
      (if draining then 9 else 12) + (if hand.Empty? then 0 else if hand.Open? then 1 else 2)
  }

  function MainRest(m: Main): nat { if m.Bagging? then |m.rest| else 0 }

  function WorkerStage(w: Worker): nat {
    match w
    case NotStarted => 0
    case Exited => 0
    case LastFlush => 1
    case LastDefer => 2
    case Storing(_, last) => if last then 3 else 5
    case Checking => 4
    case Serving => 5
    case Submitting(_) => 6
    case Flushing(_, _, _, _) => 7
    case Taken(_) => 8
    case Waiting => 9
  }

  function WorkerRest(w: Worker): nat {
    if w.Storing? || w.Submitting? then |w.batch| else if w.Flushing? then |w.ids| else 0
  }

  lemma MainMoves(y: Sys)
    requires !y.main.Ended? && !y.main.Joining?
    ensures var z := MainNext(y, MainOut(y));
            && z.Some?
            && (|| MainStage(z.value.main) < MainStage(y.main)
                || (MainStage(z.value.main) == MainStage(y.main) && MainRest(z.value.main) < MainRest(y.main)))
  {
    hide Enqueue, DeferAll;
  }

  lemma JoinMoves(y: Sys)
    requires y.main.Joining? && WorkerGone(y.worker)
    ensures var z := MainNext(y, Joined);
            z.Some? && MainStage(z.value.main) < MainStage(y.main)
  {
  }

  lemma WorkerMoves(y: Sys)
    requires !WorkerGone(y.worker) && !y.workerRunning
    ensures var z := WorkerNext(y, WorkerOut(y));
            && z.Some? && z.value.main == y.main
            && (|| WorkerStage(z.value.worker) < WorkerStage(y.worker)
                || (WorkerStage(z.value.worker) == WorkerStage(y.worker)
                    && WorkerRest(z.value.worker) < WorkerRest(y.worker)))
  {
    hide Enqueue, DeferAll, MarkSubmitted;
  }

  // ---- a thread that joins the worker has told it to stop -------------------------------------

  predicate Told(y: Sys) { y.main.Joining? ==> !y.workerRunning }

  lemma MainFrame(y: Sys, step: Step)
    requires MainNext(y, step).Some? && Told(y)
    ensures var z := MainNext(y, step).value;
            Told(z) && z.handler == y.handler && y.prepared <= z.prepared
  {
    hide Enqueue, DeferAll, PrepareHit, IsHex64Key;
  }

  lemma WorkerFrame(y: Sys, step: Step)
    requires WorkerNext(y, step).Some?
    ensures var z := WorkerNext(y, step).value;
            && z.main == y.main && z.handler == y.handler && z.prepared == y.prepared
            && z.workerRunning == y.workerRunning
  {
    hide Enqueue, DeferAll, MarkSubmitted, PrepareHit, Noted, BaggedAs, Judge, LiveReason, IsArgon2Encoded;
  }

  lemma OtherFrame(y: Sys, t: Thread, step: Step)
    requires (t.SignalHandler? || t.Others?) && NextBy(t, y, step).Some?
    ensures var z := NextBy(t, y, step).value;
            z.main == y.main && z.prepared == y.prepared && (z.workerRunning ==> y.workerRunning)
  {
    hide Enqueue, DeferAll, MarkForwarded, Flush;
  }

  lemma ToldStep(y: Sys, t: Thread, step: Step)
    requires Told(y) && NextBy(t, y, step).Some?
    ensures var z := NextBy(t, y, step).value;
            && Told(z) && y.prepared <= z.prepared
            && (t.MiningThread? || t.SubmitWorker? ==> z.handler == y.handler)
  {
    hide MainNext, WorkerNext, HandlerNext, OtherNext;
    match t
    case MiningThread => MainFrame(y, step);
    case SubmitWorker => WorkerFrame(y, step);
    case SignalHandler => OtherFrame(y, t, step);
    case Others => OtherFrame(y, t, step);
  }

  lemma {:induction false} ToldRun(y: Sys, steps: seq<(Thread, Step)>)
    requires Told(y)
    ensures Told(Lifecycle.Run(y, steps))
  {
    if steps != [] {
      hide Told, NextBy;
      ToldRun(y, steps[..|steps| - 1]);
      var (t, step) := steps[|steps| - 1];
      var before := Lifecycle.Run(y, steps[..|steps| - 1]);
      if NextBy(t, before, step).Some? {
        ToldStep(before, t, step);
      }
    }
  }

  // ---- the end can be reached -------------------------------------------------------------------

  function HandlerOut(h: Handler): Step
    requires !h.Idle?
  {
    match h case Flagged => HandlerTakes case Saving(_) => HandlerSaves("") case Parking => HandlerDefers(0)
  }

  function HandlerStage(h: Handler): nat {
    match h case Idle => 0 case Parking => 1 case Saving(_) => 2 case Flagged => 3
  }

  function HandlerRest(h: Handler): nat { if h.Saving? then |h.rest| else 0 }

  lemma HandlerMoves(y: Sys)
    requires !y.handler.Idle?
    ensures var z := HandlerNext(y, HandlerOut(y.handler));
            && z.Some?
            && (|| HandlerStage(z.value.handler) < HandlerStage(y.handler)
                || (HandlerStage(z.value.handler) == HandlerStage(y.handler)
                    && HandlerRest(z.value.handler) < HandlerRest(y.handler)))
  {
    hide Enqueue, DeferAll;
  }

  predicate Over(y: Sys) { y.main.Ended? && y.handler.Idle? }

  /** The next step out of the session. */
  function Out(y: Sys): (Thread, Step)
    requires !Over(y)
  {
    if !y.handler.Idle? then (SignalHandler, HandlerOut(y.handler))
    else if !y.main.Joining? then (MiningThread, MainOut(y))
    else if WorkerGone(y.worker) then (MiningThread, Joined)
    else (SubmitWorker, WorkerOut(y))
  }

  predicate Closer(z: Sys, y: Sys) {
    var h, h' := HandlerStage(y.handler), HandlerStage(z.handler);
    var r, r' := HandlerRest(y.handler), HandlerRest(z.handler);
    var m, m', k, k' := MainStage(y.main), MainStage(z.main), MainRest(y.main), MainRest(z.main);
    var w, w', n, n' := WorkerStage(y.worker), WorkerStage(z.worker), WorkerRest(y.worker), WorkerRest(z.worker);
    || h' < h || (h' == h && r' < r)
    || (h' == h && r' == r
        && (|| m' < m || (m' == m && k' < k)
            || (m' == m && k' == k && (w' < w || (w' == w && n' < n)))))
  }

  lemma OutCloser(y: Sys)
    requires !Over(y) && Told(y)
    ensures var z := NextBy(Out(y).0, y, Out(y).1);
            z.Some? && Told(z.value) && Closer(z.value, y)
  {
    hide MainNext, WorkerNext, HandlerNext, MainOut, WorkerOut, HandlerOut;
    hide MainStage, WorkerStage, HandlerStage, MainRest, WorkerRest, HandlerRest;
    if !y.handler.Idle? {
      HandlerMoves(y);
    } else {
      if !y.main.Joining? {
        MainMoves(y);
      } else if WorkerGone(y.worker) {
        JoinMoves(y);
      } else {
        WorkerMoves(y);
      }
    }
    ToldStep(y, Out(y).0, Out(y).1);
  }

  lemma {:induction false} WayOut(y: Sys) returns (steps: seq<(Thread, Step)>)
    requires Told(y)
    ensures Over(Lifecycle.Run(y, steps))
    decreases HandlerStage(y.handler), HandlerRest(y.handler), MainStage(y.main), MainRest(y.main),
              WorkerStage(y.worker), WorkerRest(y.worker)
  {
    steps := [];
    if !Over(y) {
      OutCloser(y);
      var next := Out(y);
      var z := NextBy(next.0, y, next.1).value;
      RunOne(y, next);
      hide NextBy, Out, Told, Lifecycle.Run, Over;
      hide HandlerStage, MainStage, WorkerStage, HandlerRest, MainRest, WorkerRest;
      var rest := WayOut(z);
      RunAppend(y, [next], rest);
      steps := [next] + rest;
    }
  }

  lemma RunOne(y: Sys, step: (Thread, Step))
    ensures Lifecycle.Run(y, [step]) == NextBy(step.0, y, step.1).GetOr(y)
  {
    hide NextBy;
    assert [step][..0] == [];
  }

  /** Whatever the threads have done so far, the session can still be brought to its end,
      and there every find made so far is in the bag or was accepted: shutting down
      deadlocks nowhere. */
  lemma {:induction false} SessionCanEnd(s: StoreState, steps: seq<(Thread, Step)>)
    requires Inv(s)
    ensures exists more ::
              && Over(Lifecycle.Run(Begin(s), steps + more))
              && AllKept(Lifecycle.Run(Begin(s), steps), Lifecycle.Run(Begin(s), steps + more))
  {
    hide Inv, Lifecycle.Run, Told;
    var y := Lifecycle.Run(Begin(s), steps);
    assert Told(Begin(s)) by { ToldAtFirst(s); }
    ToldRun(Begin(s), steps);
    var more := WayOut(y);
    RunAppend(Begin(s), steps, more);
    SessionEnd(s, steps + more);
    PreparedGrows(y, more);
  }

  lemma ToldAtFirst(s: StoreState)
    ensures Told(Begin(s))
  {
  }

  ghost predicate AllKept(y: Sys, z: Sys) {
    forall hit :: hit in y.prepared ==> HashAccepted(z.accepted, hit.hashStr) || hit.hashStr in z.store.index
  }

  lemma {:induction false} PreparedGrows(y: Sys, steps: seq<(Thread, Step)>)
    requires Told(y)
    ensures y.prepared <= Lifecycle.Run(y, steps).prepared
  {
    if steps != [] {
      hide NextBy, Told;
      var (t, step) := steps[|steps| - 1];
      var before := Lifecycle.Run(y, steps[..|steps| - 1]);
      PreparedGrows(y, steps[..|steps| - 1]);
      ToldRun(y, steps[..|steps| - 1]);
      if NextBy(t, before, step).Some? {
        ToldStep(before, t, step);
      }
    }
  }
}
