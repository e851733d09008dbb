/** One find's way through the supervisor, call by call: `handle_hit` on the mining
    thread, `process_live_submit` on the worker, and bagging the live queue. */
module HitPaths {
  import opened Hits
  import opened Policy
  import opened Phc
  import opened Store
  import opened BagRuns
  import opened FlushBatch
  import opened BlockStores
  import opened Submit
  import opened MatchWindow
  import FlushWave
  import Lifecycle

  /** Where a find goes: into the bag with a reason, or on towards the pool. */
  datatype Route = Bag(reason: string) | Onward

  predicate OutsideXuni(hit: BlockHit, minute: int) {
    hit.blockType == "XUNI" && !InXuniSubmitWindow(minute)
  }

  /** What the mining thread's checks add up to. */
  function FindRoute(c: Config, v: View, hit: BlockHit, mineM: Int32, shuttingDown: bool, drainFlushed: nat,
                     minute: int, now: real): Route {
    var hitM := hit.memoryCost.GetOr(mineM);
    if OutsideXuni(hit, minute) then Bag(OUTSIDE_XUNI_WINDOW)
    else if shuttingDown then Bag(SHUTDOWN_PENDING)
    else if v.drainActive && drainFlushed > 0 then Bag(MATCH_WINDOW_NEW)
    else if CanSubmitHitM(c, v, hitM, now) then Onward
    else if (NetPositive(v) && v.difficulty.value != hitM) || (!Hybrid(c) && now < v.deferUntil) then
      Bag(DIFFICULTY_CHANGE)
    else Bag(NETWORK_DOWN)
  }

  /** What the worker's checks before sending add up to; v is the view after its refresh. */
  function LiveRoute(c: Config, v: View, hit: BlockHit, mineM: Int32, shuttingDown: bool, minute: int, now: real)
    : Route
  {
    var hitM := hit.memoryCost.GetOr(mineM);
    if shuttingDown then Bag(SHUTDOWN_PENDING)
    else if OutsideXuni(hit, minute) then Bag(OUTSIDE_XUNI_WINDOW)
    else if CanSubmitHitM(c, v, hitM, now) then Onward
    else if LiveSubmitAllowed(c, v, now) then Bag(DIFFICULTY_CHANGE)
    else Bag(NETWORK_DOWN)
  }

  function Routed(s: StoreState, hit: BlockHit, route: Route, at: string): StoreState {
    if route.Bag? then Enqueue(s, hit, route.reason, at).0 else s
  }

  function EnqueueAll(s: StoreState, hits: seq<BlockHit>, reason: string, at: string): StoreState {
    if hits == [] then s
    else Enqueue(EnqueueAll(s, hits[..|hits| - 1], reason, at), hits[|hits| - 1], reason, at).0
  }

  /** What try_flush_pending's gates lead to: no flush, all blocks deferred to the next
      start, or a flush at the submit target. */
  datatype Gate = Shut | Defer | Go

  function Gates(c: Config, v: View, st: NetworkStatus, paper: PaperStatus, onShutdown: bool, now: real): (View, Gate) {
    if !onShutdown && !FlushSubmitAllowed(c, v, now) then (v, Shut)
    else
      var polled := AfterNetwork(c, v, st, onShutdown, now);
      var w := AfterPaper(polled, paper, now);
      var refreshed := polled.networkOk && polled.difficulty.Some?;
      (w,
       if !refreshed && onShutdown then Defer
       else if !refreshed && !(FlushSubmitAllowed(c, w, now) && OracleSaysM(w, BagTargetM(c, w))) then Shut
       else if !onShutdown && !FlushSubmitAllowed(c, w, now) then Shut
       else if SubmitTargetM(w) <= 0 then Shut
       else Go)
  }

  /** The flush that an open gate starts: its target and the supervisor's own state filled in. */
  function FlushAt(setup: FlushWave.View, c: Config, v: View, skipBefore: int): FlushWave.View {
    setup.(netM := SubmitTargetM(v), bagM := BagTargetM(c, v), draining := v.drainActive, skipBefore := skipBefore)
  }

  /** What processing one live find meets: the poll, the pool's answer, minute and time. */
  datatype LiveInput = LiveInput(st: NetworkStatus, reply: Reply, minute: int, now: real, at: string)

  /** What it changes; accepted are the finds the pool took. */
  datatype World = World(store: StoreState, view: View, landed: nat, accepted: set<BlockHit>)

  /** The view processing goes by: polled, unless the find is bagged before that. */
  function Polled(c: Config, w: World, hit: BlockHit, x: LiveInput, shuttingDown: bool): View {
    if shuttingDown || OutsideXuni(hit, x.minute) then w.view else AfterNetwork(c, w.view, x.st, false, x.now)
  }

  function RouteOf(c: Config, w: World, hit: BlockHit, x: LiveInput, mineM: Int32, shuttingDown: bool): Route {
    LiveRoute(c, Polled(c, w, hit, x, shuttingDown), hit, mineM, shuttingDown, x.minute, x.now)
  }

  /** process_live_submit on values. */
  function ServeOne(c: Config, w: World, hit: BlockHit, x: LiveInput, mineM: Int32, shuttingDown: bool): World {
    var v, route := Polled(c, w, hit, x, shuttingDown), RouteOf(c, w, hit, x, mineM, shuttingDown);
    if route.Bag? then w.(view := v, store := Routed(w.store, hit, route, x.at))
    else if Judge(x.reply).Accept? then
      World(w.store, Step(c, v, Timed(Accepted, 0.0)), w.landed + (if v.drainActive then 1 else 0), w.accepted + {hit})
    else
      w.(view := if Judge(x.reply).Transport? then AfterTransportFailure(c, v, x.reply.status, x.now) else v,
         store := Routed(w.store, hit, Bag(Lifecycle.LiveReason(x.reply)), x.at))
  }

  /** The first n finds of a batch, one after the other. */
  function Served(c: Config, w: World, batch: seq<BlockHit>, inputs: seq<LiveInput>, n: nat, mineM: Int32,
                  shuttingDown: bool): World
    requires n <= |batch| == |inputs|
  {
    if n == 0 then w
    else ServeOne(c, Served(c, w, batch, inputs, n - 1, mineM, shuttingDown), batch[n - 1], inputs[n - 1], mineM,
                  shuttingDown)
  }

  class Supervisor {
    const c: Config
    const oracle: Oracle
    const store: BlockStore
    var live: seq<BlockHit>
    var shuttingDown: bool
    var drainFlushed: nat
    var flushSkip: int

    ghost predicate Valid()
      reads this, oracle, store
    {
      oracle.c == c && store.Valid()
    }

    constructor (oracle: Oracle, store: BlockStore)
      requires store.Valid()
      ensures this.oracle == oracle && this.store == store && Valid() && live == [] && !shuttingDown
    {
      c, this.oracle, this.store := oracle.c, oracle, store;
      live, shuttingDown, drainFlushed, flushSkip := [], false, 0, 0;
    }

    /** A find that is prepared ends up in exactly one place: in the bag, or at the back
        of the live queue. */
    method HandleHit(raw: BlockHit, salt: string, mineM: Int32, timeCost: int, parallelism: int,
                     minute: int, now: real, at: string)
      requires Valid()
      modifies this`live, store
      ensures Valid()
      ensures var hit := if Lifecycle.IsHex64Key(raw.key) then PrepareHit(raw, salt, mineM, timeCost, parallelism)
                         else None;
              if hit.None? then live == old(live) && store.State() == old(store.State())
              else
                var route := FindRoute(c, oracle.State(), hit.value, mineM, shuttingDown, drainFlushed, minute, now);
                && store.State() == Routed(old(store.State()), hit.value, route, at)
                && live == (if route.Onward? then old(live) + [hit.value] else old(live))
                && (hit.value in live || hit.value.hashStr in store.hashIndex)
    {
      hide Inv, Enqueue, PrepareHit, Lifecycle.IsHex64Key, IsArgon2Encoded;
      if !Lifecycle.IsHex64Key(raw.key) {
        return;
      }
      var prepared := PrepareHit(raw, salt, mineM, timeCost, parallelism);
      if prepared.None? {
        return;
      }
      var hit := prepared.value;
      PrepareIdempotent(raw, salt, mineM, timeCost, parallelism);
      var reason;
      if shuttingDown {
        reason := if OutsideXuni(hit, minute) then OUTSIDE_XUNI_WINDOW else SHUTDOWN_PENDING;
      } else if OutsideXuni(hit, minute) {
        reason := OUTSIDE_XUNI_WINDOW;
      } else if oracle.drainActive && drainFlushed > 0 {
        reason := MATCH_WINDOW_NEW;
      } else {
        var hitM := hit.memoryCost.GetOr(mineM);
        if oracle.CanSubmit(hitM, now) {
          live := live + [hit];
          return;
        }
        reason := NETWORK_DOWN;
        var netM := oracle.difficulty.GetOr(0);
        if oracle.networkOk && netM > 0 && netM != hitM {
          reason := DIFFICULTY_CHANGE;
        } else if !Hybrid(c) && now < oracle.deferUntil {
          reason := DIFFICULTY_CHANGE;
        }
      }
      Lifecycle.EnqueueSaves(store.State(), hit, reason, at);
      var _ := store.EnqueueHit(hit, reason, at);
    }

    /** The worker's turn: the find is accepted by the pool, or it is in the bag. */
    method ProcessLiveSubmit(hit: BlockHit, mineM: Int32, st: NetworkStatus, reply: Reply,
                             minute: int, now: real, at: string) returns (accepted: bool)
      requires Valid()
      modifies this`drainFlushed, oracle, store
      ensures Valid() && live == old(live)
      ensures var before := old(oracle.State());
              var early := shuttingDown || OutsideXuni(hit, minute);
              var v := if early then before else AfterNetwork(c, before, st, false, now);
              var route := LiveRoute(c, v, hit, mineM, shuttingDown, minute, now);
              && (accepted <==> route.Onward? && (200 <= reply.status <= 299
                                                  || HoldsAnyCase(reply.body, "already exists")))
              && store.State() == (if accepted then old(store.State())
                                   else Routed(old(store.State()), hit,
                                               if route.Onward? then Bag(Lifecycle.LiveReason(reply)) else route, at))
              && oracle.State() == (if route.Bag? then v
                                    else if accepted then Step(c, v, Timed(Accepted, 0.0))
                                    else if LineBroke(reply) then AfterTransportFailure(c, v, reply.status, now)
                                    else v)
              && drainFlushed == old(drainFlushed) + (if accepted && v.drainActive then 1 else 0)
      ensures accepted || hit.hashStr == "" || hit.hashStr in store.hashIndex
    {
      hide Inv, AfterNetwork, AfterTransportFailure, Says, HoldsAnyCase;
      JudgeExactly(reply);
      accepted := false;
      var reason;
      if shuttingDown {
        reason := SHUTDOWN_PENDING;
      } else if OutsideXuni(hit, minute) {
        reason := OUTSIDE_XUNI_WINDOW;
      } else {
        var _ := oracle.RefreshNetwork(st, false, now);
        var hitM := hit.memoryCost.GetOr(mineM);
        if !oracle.CanSubmit(hitM, now) {
          reason := if oracle.SubmitAllowed(now) && !oracle.SaysM(hitM) then DIFFICULTY_CHANGE else NETWORK_DOWN;
        } else if SubmitAccepted(reply) {
          oracle.NoteAccepted();
          if oracle.drainActive {
            drainFlushed := drainFlushed + 1;
          }
          return true;
        } else if reply.status == 0 || IsTransient(reply) {
          oracle.NoteTransportFailure(reply.status, now);
          reason := NETWORK_DOWN;
        } else if IsPoolHold(reply) {
          reason := DIFFICULTY_CHANGE;
        } else if IsDifficultyMismatch(reply) {
          reason := DIFFICULTY_CHANGE;
        } else if IsXuniWindowReject(reply) {
          reason := OUTSIDE_XUNI_WINDOW;
        } else {
          reason := "resubmission";
        }
      }
      EnqueueIndexes(store.State(), hit, reason, at);
      var _ := store.EnqueueHit(hit, reason, at);
    }

    /** The worker's loop over the finds it took, each processed in its turn. */
    method ServeLive(batch: seq<BlockHit>, mineM: Int32, inputs: seq<LiveInput>) returns (accepted: set<BlockHit>)
      requires Valid() && |inputs| == |batch|
      modifies this`drainFlushed, oracle, store
      ensures Valid() && live == old(live)
      ensures World(store.State(), oracle.State(), drainFlushed, accepted)
              == Served(c, old(World(store.State(), oracle.State(), drainFlushed, {})), batch, inputs, |batch|,
                        mineM, shuttingDown)
    {
      hide Inv, Routed, LiveRoute, AfterNetwork, AfterTransportFailure, Judge, LineBroke, WrongM, WrongTime;
      hide HoldsAnyCase;
      accepted := {};
      ghost var w := World(store.State(), oracle.State(), drainFlushed, {});
      for k := 0 to |batch|
        invariant Valid() && live == old(live) && shuttingDown == old(shuttingDown)
        invariant World(store.State(), oracle.State(), drainFlushed, accepted)
                  == Served(c, w, batch, inputs, k, mineM, shuttingDown)
      {
        var x := inputs[k];
        JudgeExactly(x.reply);
        var ok := ProcessLiveSubmit(batch[k], mineM, x.st, x.reply, x.minute, x.now, x.at);
        if ok {
          accepted := accepted + {batch[k]};
        }
      }
    }

    /** update_match_drain: a drain that starts counts from zero and from the oldest block;
        one that ends has the bag saved. */
    method UpdateDrain(now: real) returns (change: DrainChange)
      requires Valid()
      modifies this`drainFlushed, this`flushSkip, oracle, store
      ensures Valid()
      ensures var before := old(oracle.State());
              var bagM := BagTargetM(c, before);
              (oracle.State(), change) == AfterDrain(c, before, CountPayable(old(store.pending), bagM, bagM), now)
      ensures drainFlushed == (if change.Started? then 0 else old(drainFlushed))
      ensures flushSkip == (if change.Started? then 0 else old(flushSkip))
      ensures store.State() == (if change.Ended? && change.why != Disabled then Flush(old(store.State()))
                                else old(store.State()))
    {
      hide Inv, AfterDrain;
      var bagM := oracle.BagTarget();
      var bagQ := store.PendingEligible(bagM, bagM);
      change := oracle.UpdateMatchDrain(bagQ, now);
      if change.Started? {
        drainFlushed, flushSkip := 0, 0;
      } else if change.Ended? && change.why != Disabled {
        store.FlushDb();
      }
    }

    /** try_flush_pending, gates and all. */
    method TryFlushPending(setup: FlushWave.View, st: NetworkStatus, paper: PaperStatus, now: real,
                           answer: nat -> Reply, clock: nat -> real)
      returns (flushed: nat, ghost work: seq<FlushWave.WorkItem>, ghost sent: nat)
      requires Valid()
      modifies this`drainFlushed, this`flushSkip, oracle, store
      ensures Valid() && live == old(live)
      ensures var (v, gate) := Gates(c, old(oracle.State()), st, paper, setup.onShutdown, now);
              && (!gate.Go? ==>
                    && flushed == 0 && oracle.State() == v && flushSkip == old(flushSkip)
                    && store.State() == (if gate.Defer? then DeferAll(old(store.State()), setup.minute)
                                         else old(store.State())))
              && (gate.Go? ==>
                    var at := FlushAt(setup, c, v, old(flushSkip));
                    var replies := FlushWave.Answers(answer, |work|);
                    var batch := Sorted(Chosen(old(store.pending), at.netM, at.bagM, FlushWave.WaveSize(at) * 2,
                                               at.skipBefore, at.minute));
                    && work == FlushWave.WorkOf(at, batch)
                    && sent == FlushWave.SentCount(replies, 0, FlushWave.Parallel(at), at.onShutdown)
                    && store.pending == FlushWave.Settled(old(store.pending), work, replies, sent, at.onShutdown)
                    && flushed == |FlushWave.AcceptedIds(work, replies, sent)|
                    && var net := FlushWave.NetAfter(c, v, replies, sent, at.onShutdown, clock);
                       oracle.State() == (if FlushWave.Resting(at, replies, work, sent)
                                          then net.(backoffUntil := clock(sent) + FlushWave.PauseS(at)) else net)
                       && flushSkip == FlushWave.SkipAfter(at, batch, work, FlushWave.Resting(at, replies, work, sent)))
              && drainFlushed == old(drainFlushed) + (if v.drainActive then flushed else 0)
    {
      hide Inv, AfterNetwork, AfterPaper, Chosen, Sorted, FlushWave.WorkOf, FlushWave.SentCount, FlushWave.Settled;
      hide FlushWave.AcceptedIds, FlushWave.NetAfter, FlushWave.Resting, FlushWave.Answers, FlushWave.WaveSize;
      flushed, work, sent := 0, [], 0;
      var onShutdown := setup.onShutdown;
      if !onShutdown && !oracle.FlushAllowed(now) {
        return;
      }
      var refreshed := oracle.RefreshNetwork(st, onShutdown, now);
      oracle.RefreshPaper(paper, now);
      if !refreshed {
        if onShutdown {
          store.DeferAllToNextStart(setup.minute);
          return;
        }
        if !oracle.FlushAllowed(now) || !oracle.SaysM(oracle.BagTarget()) {
          return;
        }
      }
      if !onShutdown && !oracle.FlushAllowed(now) {
        return;
      }
      if oracle.SubmitTarget() <= 0 {
        return;
      }
      var at := setup.(netM := oracle.SubmitTarget(), bagM := oracle.BagTarget(), draining := oracle.drainActive,
                       skipBefore := flushSkip);
      flushed, flushSkip, work, sent := FlushWave.TryFlush(store, oracle, at, answer, clock);
      if at.draining {
        drainFlushed := drainFlushed + flushed;
      }
    }

    /** bag_live_queue_to_store. */
    method BagLiveQueue(reason: string, at: string) returns (n: nat)
      requires Valid()
      modifies this`live, store
      ensures Valid() && live == [] && n == |old(live)|
      ensures store.State() == EnqueueAll(old(store.State()), old(live), reason, at)
    {
      hide Inv, Enqueue;
      var batch := live;
      live, n := [], 0;
      while n < |batch|
        invariant n <= |batch| && Valid() && live == []
        invariant store.State() == EnqueueAll(old(store.State()), batch[..n], reason, at)
      {
        assert batch[..n + 1][..n] == batch[..n];
        var _ := store.EnqueueHit(batch[n], reason, at);
        n := n + 1;
      }
      assert batch[..n] == batch;
    }
  }

  lemma EnqueueIndexes(s: StoreState, hit: BlockHit, reason: string, at: string)
    requires Inv(s)
    ensures hit.hashStr == "" || hit.hashStr in Enqueue(s, hit, reason, at).0.index
  {
    hide Inv;
  }

  function HitDigests(hits: seq<BlockHit>): set<string> {
    set h | h in hits && h.hashStr != "" :: h.hashStr
  }

  /** Bagging a batch adds exactly its digests to the bag. */
  lemma {:induction false} EnqueueAllIndexes(s: StoreState, hits: seq<BlockHit>, reason: string, at: string)
    requires Inv(s)
    ensures var t := EnqueueAll(s, hits, reason, at);
            Inv(t) && t.index == s.index + HitDigests(hits)
  {
    hide Inv;
    if hits != [] {
      var front, last := hits[..|hits| - 1], hits[|hits| - 1];
      EnqueueAllIndexes(s, front, reason, at);
      EnqueueKeeps(EnqueueAll(s, front, reason, at), last, reason, at);
      assert hits == front + [last];
    }
  }

  /** In a match window (hybrid, network up at the forced m, no submit pause), a find
      mined at that m is bagged by neither thread, but for three reasons: shutdown, XUNI
      outside its window, or, on the mining thread only, a drain that has landed a block. */
  lemma WindowGoesOnward(c: Config, v: View, hit: BlockHit, shuttingDown: bool, drainFlushed: nat,
                         minute: int, now: real)
    requires Hybrid(c) && MatchWindow.Open(c, v) && now >= v.backoffUntil && -0x8000_0000 <= c.forcedM < 0x8000_0000
    requires hit.memoryCost.GetOr(c.forcedM) == c.forcedM
    ensures LiveRoute(c, v, hit, c.forcedM, shuttingDown, minute, now).Onward?
            <==> !shuttingDown && !OutsideXuni(hit, minute)
    ensures FindRoute(c, v, hit, c.forcedM, shuttingDown, drainFlushed, minute, now).Onward?
            <==> !shuttingDown && !OutsideXuni(hit, minute) && !(v.drainActive && drainFlushed > 0)
  {
  }

  /** A flaky poll does not stop a flush: in an open window without a submit pause the
      gates lead to a flush at the forced m exactly when the poll was within the window's
      budget, or the paper shows that m. */
  lemma {:induction false} FlushInWindow(c: Config, v: View, st: NetworkStatus, paper: PaperStatus, now: real)
    requires Hybrid(c) && MatchWindow.Open(c, v) && v.lastOkAt > 0.0 && now >= v.backoffUntil && now >= 0.0
    requires OnlyReports(c.forcedM, [Timed(Poll(st, false), now)])
    ensures var (w, gate) := Gates(c, v, st, paper, false, now);
            && (gate.Go? <==> WithinBudget(Start(v), Timed(Poll(st, false), now)) || PaperSays(w, c.forcedM))
            && (gate.Go? ==> SubmitTargetM(w) == c.forcedM == BagTargetM(c, w))
  {
    StepTracks(c, v, Start(v), Timed(Poll(st, false), now));
    PollKeepsPause(c, v, st, now);
    hide AfterNetwork, WithinBudget, OnlyReports;
  }

  /** The same outside a match, at a difficulty d that classic mode mines at and no
      deferral holds back: there a flush needs the poll to be good or bearable, or the
      paper to show d. */
  lemma {:induction false} FlushInClassic(c: Config, v: View, st: NetworkStatus, paper: PaperStatus, d: int, now: real)
    requires c.forcedM <= 0 && v.networkOk && Plain(c, v, d) && now >= 0.0
    requires now >= v.backoffUntil && now >= v.deferUntil
    requires OnlyReports(d, [Timed(Poll(st, false), now)])
    ensures var (w, gate) := Gates(c, v, st, paper, false, now);
            && (gate.Go? <==> Bearable(c, v, Start(v), Timed(Poll(st, false), now))
                              || (w.paperOk && w.paperM == Some(d)))
            && (gate.Go? ==> SubmitTargetM(w) == d == BagTargetM(c, w))
  {
    PlainStep(c, v, d, Timed(Poll(st, false), now));
    PollKeepsPause(c, v, st, now);
    PollKeepsDeferral(c, v, d, st, now);
    PollLeavesPaper(c, v, st, false, now);
    hide AfterNetwork, Bearable, OnlyReports;
  }

  lemma PollKeepsDeferral(c: Config, v: View, d: int, st: NetworkStatus, now: real)
    requires Plain(c, v, d) && OnlyReports(d, [Timed(Poll(st, false), now)])
    ensures AfterNetwork(c, v, st, false, now).deferUntil == v.deferUntil
  {
    assert Timed(Poll(st, false), now) in [Timed(Poll(st, false), now)];
    hide Age, MaxReal;
  }

  /** Paused or deferred, nothing is flushed and nothing is even polled. */
  lemma NoFlushPaused(c: Config, v: View, st: NetworkStatus, paper: PaperStatus, now: real)
    requires now < v.backoffUntil || (c.forcedM <= 0 && now < v.deferUntil)
    ensures Gates(c, v, st, paper, false, now) == (v, Shut)
  {
  }

  /** Why a find waits, on the mining thread and on the worker, in the words of the log. */
  lemma RoutesExactly(c: Config, v: View, hit: BlockHit, mineM: Int32, shuttingDown: bool, drainFlushed: nat,
                      minute: int, now: real)
    requires 0 <= minute < 60
    ensures var m := match hit.memoryCost case Some(x) => x case None => mineM;
            var outside := hit.blockType == "XUNI" && (minute + 5) % 60 >= 10;
            var held := now < v.backoffUntil || (c.forcedM <= 0 && now < v.deferUntil);
            var shown := m > 0 && (v.difficulty == Some(m) || (v.paperOk && v.paperM == Some(m)));
            var onward := v.networkOk && !held && shown;
            var find := FindRoute(c, v, hit, mineM, shuttingDown, drainFlushed, minute, now);
            var live := LiveRoute(c, v, hit, mineM, shuttingDown, minute, now);
            && (outside ==> find == Bag("outside_xuni_window"))
            && (!outside && shuttingDown ==> find == Bag("shutdown_pending"))
            && (!outside && !shuttingDown && v.drainActive && drainFlushed > 0 ==> find == Bag("match_window_new"))
            && (!outside && !shuttingDown && !(v.drainActive && drainFlushed > 0) ==>
                  find == if onward then Onward
                          else if (v.networkOk && v.difficulty.Some? && v.difficulty.value > 0
                                   && v.difficulty.value != m)
                                  || (c.forcedM <= 0 && now < v.deferUntil)
                          then Bag("difficulty_change") else Bag("network_down"))
            && (shuttingDown ==> live == Bag("shutdown_pending"))
            && (!shuttingDown && outside ==> live == Bag("outside_xuni_window"))
            && (!shuttingDown && !outside ==>
                  live == if onward then Onward
                          else if v.networkOk && !held then Bag("difficulty_change") else Bag("network_down"))
  {
  }

  lemma PollKeepsPause(c: Config, v: View, st: NetworkStatus, now: real)
    requires now >= v.backoffUntil && now >= 0.0
    ensures AfterNetwork(c, v, st, false, now).backoffUntil <= now
  {
    hide AcceptDifficulty, Age, MaxReal;
  }

  /** A find the mining thread hands over at once is not turned back by the worker, if
      neither the view, the clock nor the shutdown flag has changed. */
  lemma RoutesAgree(c: Config, v: View, hit: BlockHit, mineM: Int32, shuttingDown: bool, drainFlushed: nat,
                    minute: int, now: real)
    ensures FindRoute(c, v, hit, mineM, shuttingDown, drainFlushed, minute, now).Onward?
            <==> LiveRoute(c, v, hit, mineM, shuttingDown, minute, now).Onward? && !(v.drainActive && drainFlushed > 0)
  {
  }

  // ---- the calls are runs of the interleaved steps ------------------------------------------------

  function By(t: Lifecycle.Thread, steps: seq<Lifecycle.Step>): seq<(Lifecycle.Thread, Lifecycle.Step)> {
    seq(|steps|, i requires 0 <= i < |steps| => (t, steps[i]))
  }

  lemma RunOne(y: Lifecycle.Sys, t: Lifecycle.Thread, steps: seq<Lifecycle.Step>, step: Lifecycle.Step)
    ensures Lifecycle.Run(y, By(t, steps + [step])) == Then(Lifecycle.Run(y, By(t, steps)), t, step)
  {
    hide Lifecycle.NextBy;
    assert By(t, steps + [step])[..|steps|] == By(t, steps);
  }

  function Then(y: Lifecycle.Sys, t: Lifecycle.Thread, step: Lifecycle.Step): Lifecycle.Sys {
    Lifecycle.NextBy(t, y, step).GetOr(y)
  }

  lemma RunThree(y: Lifecycle.Sys, t: Lifecycle.Thread, a: Lifecycle.Step, b: Lifecycle.Step, c: Lifecycle.Step)
    ensures Lifecycle.Run(y, By(t, [a, b, c])) == Then(Then(Then(y, t, a), t, b), t, c)
  {
    hide Lifecycle.NextBy;
    RunOne(y, t, [], a);
    RunOne(y, t, [a], b);
    RunOne(y, t, [a, b], c);
    assert [] + [a] == [a] && [a] + [b] == [a, b] && [a, b] + [c] == [a, b, c];
  }

  /** What HandleHit does with a prepared find is what the mining thread's steps do. */
  lemma HandleIsSteps(y: Lifecycle.Sys, raw: BlockHit, salt: string, mineM: Int32, timeCost: int, parallelism: int,
                      route: Route, at: string, draining: bool)
    requires y.main == Lifecycle.Working(Lifecycle.Empty, draining)
    requires Lifecycle.IsHex64Key(raw.key) && PrepareHit(raw, salt, mineM, timeCost, parallelism).Some?
    requires route.Onward? ==> !y.shuttingDown
    ensures var hit := PrepareHit(raw, salt, mineM, timeCost, parallelism).value;
            var steps := [Lifecycle.Find(raw, salt, mineM, timeCost, parallelism), Lifecycle.SeeRunning,
                          if route.Onward? then Lifecycle.HandOver else Lifecycle.QueueFind(route.reason, at)];
            Lifecycle.Run(y, By(Lifecycle.MiningThread, steps))
            == y.(store := Routed(y.store, hit, route, at), prepared := y.prepared + {hit},
                  live := if route.Onward? then y.live + [hit] else y.live)
  {
    hide Enqueue, PrepareHit, Lifecycle.IsHex64Key, Lifecycle.Run, By;
    var find := Lifecycle.Find(raw, salt, mineM, timeCost, parallelism);
    var last := if route.Onward? then Lifecycle.HandOver else Lifecycle.QueueFind(route.reason, at);
    RunThree(y, Lifecycle.MiningThread, find, Lifecycle.SeeRunning, last);
    hide Then;
    FindSeen(y, raw, salt, mineM, timeCost, parallelism, draining);
    var hit := PrepareHit(raw, salt, mineM, timeCost, parallelism).value;
    HandedOff(y.(prepared := y.prepared + {hit}), hit, route, at, draining);
  }

  lemma FindSeen(y: Lifecycle.Sys, raw: BlockHit, salt: string, mineM: Int32, timeCost: int, parallelism: int,
                 draining: bool)
    requires y.main == Lifecycle.Working(Lifecycle.Empty, draining)
    requires Lifecycle.IsHex64Key(raw.key) && PrepareHit(raw, salt, mineM, timeCost, parallelism).Some?
    ensures var hit := PrepareHit(raw, salt, mineM, timeCost, parallelism).value;
            var found := Then(y, Lifecycle.MiningThread, Lifecycle.Find(raw, salt, mineM, timeCost, parallelism));
            Then(found, Lifecycle.MiningThread, Lifecycle.SeeRunning)
            == Ready(y.(prepared := y.prepared + {hit}), hit, draining)
  {
    hide PrepareHit, Lifecycle.IsHex64Key;
  }

  /** The mining thread about to hand off a find it has checked the shutdown flag for. */
  function Ready(y: Lifecycle.Sys, hit: BlockHit, draining: bool): Lifecycle.Sys {
    y.(main := Lifecycle.Working(if y.shuttingDown then Lifecycle.Prepared(hit) else Lifecycle.Open(hit), draining))
  }

  lemma HandedOff(y: Lifecycle.Sys, hit: BlockHit, route: Route, at: string, draining: bool)
    requires y.main == Lifecycle.Working(Lifecycle.Empty, draining) && (route.Onward? ==> !y.shuttingDown)
    ensures var last := if route.Onward? then Lifecycle.HandOver else Lifecycle.QueueFind(route.reason, at);
            Then(Ready(y, hit, draining), Lifecycle.MiningThread, last)
            == y.(store := Routed(y.store, hit, route, at), live := if route.Onward? then y.live + [hit] else y.live)
  {
    hide Enqueue;
  }

  /** The machine's step for a find that is served like this. */
  function StepFor(route: Route, x: LiveInput): Lifecycle.Step {
    Lifecycle.SubmitNext(if route.Bag? then Lifecycle.Keep(route.reason) else Lifecycle.Sent(x.reply), x.at)
  }

  /** The steps for the first n finds of a batch. */
  function StepsFor(c: Config, w: World, batch: seq<BlockHit>, inputs: seq<LiveInput>, n: nat, mineM: Int32,
                    shuttingDown: bool): seq<Lifecycle.Step>
    requires n <= |batch| == |inputs|
  {
    if n == 0 then []
    else
      StepsFor(c, w, batch, inputs, n - 1, mineM, shuttingDown)
      + [StepFor(RouteOf(c, Served(c, w, batch, inputs, n - 1, mineM, shuttingDown), batch[n - 1], inputs[n - 1], mineM,
                         shuttingDown),
                 inputs[n - 1])]
  }

  /** The machine in the middle of a batch, the first n of it served. */
  predicate Serving(y: Lifecycle.Sys, z: Lifecycle.Sys, w: World, batch: seq<BlockHit>, n: nat)
    requires n <= |batch|
  {
    z == y.(worker := Lifecycle.Submitting(batch[n..]), store := w.store, accepted := w.accepted)
  }

  lemma ServeIsStep(y: Lifecycle.Sys, z: Lifecycle.Sys, c: Config, w: World, batch: seq<BlockHit>, x: LiveInput, n: nat,
                    mineM: Int32, shuttingDown: bool)
    requires n < |batch| && Serving(y, z, w, batch, n)
    ensures Serving(y, Then(z, Lifecycle.SubmitWorker, StepFor(RouteOf(c, w, batch[n], x, mineM, shuttingDown), x)),
                    ServeOne(c, w, batch[n], x, mineM, shuttingDown), batch, n + 1)
  {
    hide Enqueue, Judge, Lifecycle.LiveReason, Polled, RouteOf, AfterTransportFailure, Step;
    assert batch[n..][1..] == batch[n + 1..] && batch[n..][0] == batch[n];
  }

  /** Serving a batch in one loop, each find as ProcessLiveSubmit's contract says, is a run
      of the worker's steps with nothing in between. */
  lemma {:induction false} ServingIsSteps(y: Lifecycle.Sys, c: Config, w: World, batch: seq<BlockHit>,
                                          inputs: seq<LiveInput>, n: nat, mineM: Int32, shuttingDown: bool)
    requires n <= |batch| == |inputs| && y.worker == Lifecycle.Submitting(batch)
    requires w.store == y.store && w.accepted == y.accepted
    ensures Serving(y, Lifecycle.Run(y, By(Lifecycle.SubmitWorker,
                                           StepsFor(c, w, batch, inputs, n, mineM, shuttingDown))),
                    Served(c, w, batch, inputs, n, mineM, shuttingDown), batch, n)
  {
    hide Lifecycle.Run, By, Then, ServeOne, StepFor, RouteOf;
    if n == 0 {
      NoSteps(y, Lifecycle.SubmitWorker);
      assert batch[0..] == batch;
    } else {
      hide Serving;
      ServingIsSteps(y, c, w, batch, inputs, n - 1, mineM, shuttingDown);
      var before := StepsFor(c, w, batch, inputs, n - 1, mineM, shuttingDown);
      var v := Served(c, w, batch, inputs, n - 1, mineM, shuttingDown);
      RunOne(y, Lifecycle.SubmitWorker, before, StepFor(RouteOf(c, v, batch[n - 1], inputs[n - 1], mineM, shuttingDown),
                                                        inputs[n - 1]));
      ServeIsStep(y, Lifecycle.Run(y, By(Lifecycle.SubmitWorker, before)), c, v, batch, inputs[n - 1], n - 1, mineM,
                  shuttingDown);
    }
  }

  /** Bagging the live queue in one call is taking it and bagging its finds one by one,
      uninterrupted. */
  lemma {:induction false} BagIsSteps(y: Lifecycle.Sys, n: nat, at: string)
    requires y.main == Lifecycle.Closing && n <= |y.live|
    ensures var steps := [Lifecycle.TakeLive] + seq(n, i => Lifecycle.MainBags(at));
            Lifecycle.Run(y, By(Lifecycle.MiningThread, steps)) == AfterBagging(y, n, at)
  {
    hide Lifecycle.Run, By, Then, AfterBagging;
    var t := Lifecycle.MiningThread;
    FirstBagged(y, at);
    if n == 0 {
      RunOne(y, t, [], Lifecycle.TakeLive);
      NoSteps(y, t);
      assert [] + [Lifecycle.TakeLive] == [Lifecycle.TakeLive] + seq(0, i => Lifecycle.MainBags(at));
    } else {
      var before := [Lifecycle.TakeLive] + seq(n - 1, i => Lifecycle.MainBags(at));
      BagIsSteps(y, n - 1, at);
      RunOne(y, t, before, Lifecycle.MainBags(at));
      assert before + [Lifecycle.MainBags(at)] == [Lifecycle.TakeLive] + seq(n, i => Lifecycle.MainBags(at));
      NextBagged(y, n, at);
    }
  }

  /** The live queue taken and its first n finds bagged. */
  function AfterBagging(y: Lifecycle.Sys, n: nat, at: string): Lifecycle.Sys
    requires n <= |y.live|
  {
    y.(live := [], main := Lifecycle.Bagging(y.live[n..], true),
       store := EnqueueAll(y.store, y.live[..n], SHUTDOWN_PENDING, at))
  }

  lemma NoSteps(y: Lifecycle.Sys, t: Lifecycle.Thread)
    ensures Lifecycle.Run(y, By(t, [])) == y
  {
  }

  lemma FirstBagged(y: Lifecycle.Sys, at: string)
    requires y.main == Lifecycle.Closing
    ensures Then(y, Lifecycle.MiningThread, Lifecycle.TakeLive) == AfterBagging(y, 0, at)
  {
  }

  lemma NextBagged(y: Lifecycle.Sys, n: nat, at: string)
    requires 0 < n <= |y.live|
    ensures Then(AfterBagging(y, n - 1, at), Lifecycle.MiningThread, Lifecycle.MainBags(at)) == AfterBagging(y, n, at)
  {
    hide Enqueue;
    assert y.live[..n][..n - 1] == y.live[..n - 1];
    assert y.live[n - 1..][1..] == y.live[n..];
  }
}
