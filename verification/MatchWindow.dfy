/** What the supervisor believes about the network's difficulty, and when it drains the
    bag into a window in which that difficulty is the one it mines at. Each call is one
    step; times are readings of `now_s`. */
module MatchWindow {
  import opened Hits

  datatype Config = Config(
    forcedM: int, memoryCost: int, sampleIntervalS: int, networkDownPollS: int,
    drainEnabled: bool, drainMaxS: int, drainMinQueue: int)

  /** `NetworkStatus` and `PaperStatus`: snapshots of the pollers; number 0 before the first poll. */
  datatype NetworkStatus = NetworkStatus(number: nat, difficulty: Option<int>)
  datatype PaperStatus = PaperStatus(number: nat, ok: bool, newestM: Option<int>)

  datatype View = View(
    networkOk: bool, difficulty: Option<int>, stale: bool, failStreak: nat, lastOkAt: real, lastPollSeq: nat,
    paperOk: bool, paperM: Option<int>, lastPaperOkAt: real, lastPaperSeq: nat,
    backoffUntil: real, deferUntil: real,
    drainActive: bool, drainUntil: real)

  datatype Why = Mismatch | QueueClear | TimeBudget | Disabled
  datatype DrainChange = Unchanged | Started | Ended(why: Why)

  function MaxReal(a: real, b: real): real { if a >= b then a else b }

  predicate Hybrid(c: Config) { c.forcedM > 0 }

  /** `accept_network_difficulty`. */
  function AcceptDifficulty(raw: int, fallback: int): (m: int)
    ensures m > 0
  {
    if raw <= 0 || raw > 10_000_000 then (if fallback > 0 then fallback else 1100) else raw
  }

  predicate NetSays(v: View, m: int) { v.networkOk && v.difficulty == Some(m) }
  predicate PaperSays(v: View, m: int) { v.paperOk && v.paperM == Some(m) }
  predicate NetPositive(v: View) { v.networkOk && v.difficulty.Some? && v.difficulty.value > 0 }
  predicate PaperPositive(v: View) { v.paperOk && v.paperM.Some? && v.paperM.value > 0 }

  predicate OracleSaysM(v: View, m: int) { m > 0 && (NetSays(v, m) || PaperSays(v, m)) }

  predicate OracleLeftM(v: View, m: int) {
    m > 0 && !NetSays(v, m) && !PaperSays(v, m) && (NetPositive(v) || PaperPositive(v))
  }

  function BagTargetM(c: Config, v: View): int {
    if Hybrid(c) then c.forcedM else v.difficulty.GetOr(c.memoryCost)
  }

  function SubmitTargetM(v: View): int {
    if NetPositive(v) then v.difficulty.value
    else if PaperPositive(v) then v.paperM.value
    else v.difficulty.GetOr(0)
  }

  predicate LiveSubmitAllowed(c: Config, v: View, now: real) {
    v.networkOk && now >= v.backoffUntil && (Hybrid(c) || now >= v.deferUntil)
  }

  predicate FlushSubmitAllowed(c: Config, v: View, now: real) {
    && now >= v.backoffUntil && (Hybrid(c) || now >= v.deferUntil)
    && (v.paperOk || v.networkOk || (Hybrid(c) && v.difficulty == Some(c.forcedM)))
  }

  predicate CanSubmitHitM(c: Config, v: View, m: int, now: real) {
    LiveSubmitAllowed(c, v, now) && OracleSaysM(v, m)
  }

  // ---- the steps, on values --------------------------------------------------------------

  /** A read that shows nothing new: the poller's snapshot has been seen before. */
  predicate SeenBefore(number: nat, lastSeq: nat, blocking: bool) {
    !blocking && (number == 0 || number == lastSeq)
  }

  function GoodPoll(c: Config, v: View, raw: int, now: real): View {
    var m := AcceptDifficulty(raw, v.difficulty.GetOr(c.memoryCost));
    var defer := if v.difficulty.Some? && v.difficulty.value != m
                 then now + MaxReal(5.0, c.sampleIntervalS as real) else v.deferUntil;
    v.(difficulty := Some(m), networkOk := true, stale := false, failStreak := 0, lastOkAt := now,
       backoffUntil := 0.0, deferUntil := defer)
  }

  function Age(since: real, now: real): real {
    if since > 0.0 then now - since else 1000000000.0
  }

  function FailedPoll(c: Config, v: View, now: real): View {
    var streak, age := v.failStreak + 1, Age(v.lastOkAt, now);
    var matching := Hybrid(c) && v.difficulty == Some(c.forcedM);
    if v.difficulty.Some? && age < 180.0 && streak < 8 then
      v.(failStreak := streak, stale := true,
         networkOk := streak < (if matching then 6 else 3) && age < (if matching then 120.0 else 60.0))
    else
      v.(failStreak := streak, networkOk := false, stale := v.difficulty.Some?)
  }

  function AfterNetwork(c: Config, v: View, st: NetworkStatus, blocking: bool, now: real): View {
    if SeenBefore(st.number, v.lastPollSeq, blocking) then v
    else
      var w := if st.number != 0 then v.(lastPollSeq := st.number) else v;
      match st.difficulty
      case Some(raw) => GoodPoll(c, w, raw, now)
      case None => FailedPoll(c, w, now)
  }

  function AfterPaper(v: View, st: PaperStatus, now: real): View {
    if SeenBefore(st.number, v.lastPaperSeq, false) then v
    else if st.ok && st.newestM.Some? then
      v.(lastPaperSeq := st.number, paperOk := true, paperM := st.newestM, lastPaperOkAt := now)
    else
      v.(lastPaperSeq := st.number, paperOk := v.paperM.Some? && Age(v.lastPaperOkAt, now) < 30.0)
  }

  predicate RateLimit(status: int) { status == 401 || status == 403 || status == 429 }

  function AfterTransportFailure(c: Config, v: View, status: int, now: real): View {
    var keep := (Hybrid(c) && OracleSaysM(v, c.forcedM)) || RateLimit(status);
    v.(backoffUntil := now + if keep then 3.0 else MaxReal(15.0, c.networkDownPollS as real),
       networkOk := v.networkOk && keep)
  }

  predicate TimedOut(c: Config, v: View, now: real) {
    c.drainMaxS > 0 && v.drainUntil > 0.0 && now >= v.drainUntil
  }

  /** bagQ: blocks in the bag eligible at the bag's own m. */
  function AfterDrain(c: Config, v: View, bagQ: int, now: real): (View, DrainChange) {
    var bagM := BagTargetM(c, v);
    if !c.drainEnabled then
      if v.drainActive then (v.(drainActive := false), Ended(Disabled)) else (v, Unchanged)
    else if v.drainActive then
      var empty := OracleSaysM(v, bagM) && bagQ <= 0;
      if OracleLeftM(v, bagM) || empty || TimedOut(c, v, now) then
        (v.(drainActive := false, drainUntil := 0.0),
         Ended(if OracleLeftM(v, bagM) then Mismatch else if empty then QueueClear else TimeBudget))
      else (v, Unchanged)
    else if OracleSaysM(v, bagM) && bagQ >= c.drainMinQueue then
      (v.(drainActive := true, drainUntil := if c.drainMaxS > 0 then now + c.drainMaxS as real else 0.0), Started)
    else (v, Unchanged)
  }

  datatype Event =
    | Poll(st: NetworkStatus, blocking: bool)
    | Paper(paper: PaperStatus)
    | TransportFailure(status: int)
    | Accepted                        // a submission went through
    | Held(pause: real)               // a flush got only holds
    | Drain(bagQ: int)
    | NoDifficultyYet                 // start-up found no difficulty

  datatype Timed = Timed(event: Event, now: real)

  function Step(c: Config, v: View, t: Timed): View {
    match t.event
    case Poll(st, blocking) => AfterNetwork(c, v, st, blocking, t.now)
    case Paper(paper) => AfterPaper(v, paper, t.now)
    case TransportFailure(status) => AfterTransportFailure(c, v, status, t.now)
    case Accepted => v.(backoffUntil := 0.0, networkOk := true)
    case Held(pause) => v.(backoffUntil := t.now + pause)
    case Drain(bagQ) => AfterDrain(c, v, bagQ, t.now).0
    case NoDifficultyYet =>
      if v.difficulty.None? then v.(difficulty := Some(c.memoryCost), networkOk := false) else v
  }

  function Run(c: Config, v: View, run: seq<Timed>): View {
    if run == [] then v else Step(c, Run(c, v, run[..|run| - 1]), run[|run| - 1])
  }

  // ---- the object --------------------------------------------------------------------------

  class Oracle {
    const c: Config
    var networkOk: bool
    var difficulty: Option<int>
    var stale: bool
    var failStreak: nat
    var lastOkAt: real
    var lastPollSeq: nat
    var paperOk: bool
    var paperM: Option<int>
    var lastPaperOkAt: real
    var lastPaperSeq: nat
    var backoffUntil: real
    var deferUntil: real
    var drainActive: bool
    var drainUntil: real

    constructor (c: Config)
      ensures this.c == c
      ensures State() == View(false, None, false, 0, 0.0, 0, false, None, 0.0, 0, 0.0, 0.0, false, 0.0)
    {
      this.c := c;
      networkOk, difficulty, stale, failStreak, lastOkAt, lastPollSeq := false, None, false, 0, 0.0, 0;
      paperOk, paperM, lastPaperOkAt, lastPaperSeq := false, None, 0.0, 0;
      backoffUntil, deferUntil, drainActive, drainUntil := 0.0, 0.0, false, 0.0;
    }

    ghost function State(): View
      reads this
    {
      View(networkOk, difficulty, stale, failStreak, lastOkAt, lastPollSeq,
           paperOk, paperM, lastPaperOkAt, lastPaperSeq, backoffUntil, deferUntil, drainActive, drainUntil)
    }

    predicate SaysM(m: int)
      reads this
    {
      m > 0 && ((networkOk && difficulty == Some(m)) || (paperOk && paperM == Some(m)))
    }

    predicate LeftM(m: int)
      reads this
    {
      && m > 0 && !(networkOk && difficulty == Some(m)) && !(paperOk && paperM == Some(m))
      && (|| (networkOk && difficulty.Some? && difficulty.value > 0)
          || (paperOk && paperM.Some? && paperM.value > 0))
    }

    predicate SubmitAllowed(now: real)
      reads this
    {
      networkOk && now >= backoffUntil && (Hybrid(c) || now >= deferUntil)
    }

    function BagTarget(): (m: int)
      reads this
      ensures m == BagTargetM(c, State())
    {
      if Hybrid(c) then c.forcedM else difficulty.GetOr(c.memoryCost)
    }

    function SubmitTarget(): (m: int)
      reads this
      ensures m == SubmitTargetM(State())
    {
      if networkOk && difficulty.Some? && difficulty.value > 0 then difficulty.value
      else if paperOk && paperM.Some? && paperM.value > 0 then paperM.value
      else difficulty.GetOr(0)
    }

    predicate FlushAllowed(now: real)
      reads this
      ensures FlushAllowed(now) == FlushSubmitAllowed(c, State(), now)
    {
      && now >= backoffUntil && (Hybrid(c) || now >= deferUntil)
      && (paperOk || networkOk || (Hybrid(c) && difficulty == Some(c.forcedM)))
    }

    predicate CanSubmit(m: int, now: real)
      reads this
      ensures CanSubmit(m, now) == CanSubmitHitM(c, State(), m, now)
    {
      SubmitAllowed(now) && SaysM(m)
    }

    /** Returns whether the network counts as up. */
    method RefreshNetwork(st: NetworkStatus, blocking: bool, now: real) returns (up: bool)
      modifies this
      ensures State() == AfterNetwork(c, old(State()), st, blocking, now)
      ensures up == (networkOk && difficulty.Some?)
    {
      hide GoodPoll, FailedPoll;
      if !blocking && (st.number == 0 || st.number == lastPollSeq) {
        return networkOk && difficulty.Some?;
      }
      if st.number != 0 {
        lastPollSeq := st.number;
      }
      if st.difficulty.Some? {
        TakeDifficulty(st.difficulty.value, now);
        return true;
      }
      up := CountFailure(now);
    }

    method TakeDifficulty(raw: int, now: real)
      modifies this
      ensures State() == GoodPoll(c, old(State()), raw, now)
      ensures networkOk && difficulty.Some?
    {
      hide AcceptDifficulty, MaxReal;
      var m := AcceptDifficulty(raw, difficulty.GetOr(c.memoryCost));
      if difficulty.Some? && m != difficulty.value {
        deferUntil := now + MaxReal(5.0, c.sampleIntervalS as real);
      }
      difficulty, networkOk, stale, failStreak := Some(m), true, false, 0;
      lastOkAt, backoffUntil := now, 0.0;
    }

    method CountFailure(now: real) returns (up: bool)
      modifies this
      ensures State() == FailedPoll(c, old(State()), now)
      ensures up == (networkOk && difficulty.Some?)
    {
      failStreak := failStreak + 1;
      var age := Age(lastOkAt, now);
      var matching := Hybrid(c) && difficulty.Some? && difficulty.value == c.forcedM;
      var failBudget := if matching then 6 else 3;
      var ageBudget := if matching then 120.0 else 60.0;
      if difficulty.Some? && age < 180.0 && failStreak < 8 {
        stale := true;
        networkOk := failStreak < failBudget && age < ageBudget;
        return networkOk;
      }
      networkOk, stale := false, difficulty.Some?;
      up := false;
    }

    method RefreshPaper(st: PaperStatus, now: real)
      modifies this
      ensures State() == AfterPaper(old(State()), st, now)
    {
      if st.number == 0 || st.number == lastPaperSeq {
        return;
      }
      lastPaperSeq := st.number;
      if st.ok && st.newestM.Some? {
        paperOk, paperM, lastPaperOkAt := true, st.newestM, now;
      } else {
        paperOk := paperM.Some? && Age(lastPaperOkAt, now) < 30.0;
      }
    }

    method NoteTransportFailure(status: int, now: real)
      modifies this
      ensures State() == AfterTransportFailure(c, old(State()), status, now)
    {
      var hybridMatch := Hybrid(c) && SaysM(c.forcedM);
      var rateLimit := RateLimit(status);
      backoffUntil := now + if hybridMatch || rateLimit then 3.0 else MaxReal(15.0, c.networkDownPollS as real);
      if !(hybridMatch || rateLimit) {
        networkOk := false;
      }
    }

    method NoteAccepted()
      modifies this
      ensures State() == Step(c, old(State()), Timed(Accepted, 0.0))
    {
      backoffUntil := 0.0;
      networkOk := true;
    }

    method PauseSubmits(until: real)
      modifies this
      ensures State() == old(State()).(backoffUntil := until)
    {
      backoffUntil := until;
    }

    method UpdateMatchDrain(bagQ: int, now: real) returns (change: DrainChange)
      modifies this
      ensures (State(), change) == AfterDrain(c, old(State()), bagQ, now)
    {
      change := Unchanged;
      if !c.drainEnabled {
        if drainActive {
          drainActive := false;
          change := Ended(Disabled);
        }
        return;
      }
      var bagM := if Hybrid(c) then c.forcedM else difficulty.GetOr(c.memoryCost);
      var matches, left := SaysM(bagM), LeftM(bagM);
      if drainActive {
        var timedOut := c.drainMaxS > 0 && drainUntil > 0.0 && now >= drainUntil;
        var empty := matches && bagQ <= 0;
        if empty || timedOut || left {
          drainActive, drainUntil := false, 0.0;
          change := Ended(if left then Mismatch else if empty then QueueClear else TimeBudget);
        }
        return;
      }
      if matches && (if matches then bagQ else 0) >= c.drainMinQueue {
        drainActive := true;
        drainUntil := if c.drainMaxS > 0 then now + c.drainMaxS as real else 0.0;
        change := Started;
      }
    }
  }

  // ---- a match window over whole runs --------------------------------------------------------

  /** What a reader of the poll results alone can tell: the failed polls in a row, the
      time of the last one that succeeded, the last snapshot seen. */
  datatype Tally = Tally(streak: nat, goodAt: real, lastSeen: nat)

  predicate Fresh(t: Tally, e: Event) {
    e.Poll? && (e.blocking || (e.st.number != 0 && e.st.number != t.lastSeen))
  }

  function Count(t: Tally, e: Timed): Tally {
    if !Fresh(t, e.event) then t
    else
      var seen := if e.event.st.number == 0 then t.lastSeen else e.event.st.number;
      if e.event.st.difficulty.Some? then Tally(0, e.now, seen) else Tally(t.streak + 1, t.goodAt, seen)
  }

  function Tallied(t: Tally, run: seq<Timed>): Tally {
    if run == [] then t else Count(Tallied(t, run[..|run| - 1]), run[|run| - 1])
  }

  /** No poll reports another difficulty in range. */
  predicate OnlyReports(m: int, run: seq<Timed>) {
    forall e :: e in run && e.event.Poll? && e.event.st.difficulty.Some? ==>
      e.now > 0.0 && (var raw := e.event.st.difficulty.value; raw == m || raw <= 0 || raw > 10_000_000)
  }

  /** A failed poll the window must survive: fewer than six in a row, less than 120 s
      after the last one that succeeded. */
  predicate WithinBudget(t: Tally, e: Timed) {
    Fresh(t, e.event) && e.event.st.difficulty.None? ==> t.streak + 1 < 6 && e.now - t.goodAt < 120.0
  }

  predicate Flaky(t: Tally, run: seq<Timed>) {
    forall k :: 0 <= k < |run| ==> WithinBudget(Tallied(t, run[..k]), run[k])
  }

  function Start(v: View): Tally { Tally(v.failStreak, v.lastOkAt, v.lastPollSeq) }

  /** The window is open: the network is up at the forced m. */
  predicate Open(c: Config, v: View) { v.networkOk && v.difficulty == Some(c.forcedM) }

  /** Just after a poll that reported m. */
  predicate Opened(c: Config, v: View) {
    Open(c, v) && v.failStreak == 0 && v.lastOkAt > 0.0
  }

  predicate Tracks(c: Config, v: View, t: Tally) {
    v.difficulty == Some(c.forcedM) && v.lastOkAt > 0.0 && Start(v) == t
  }

  lemma PollOpens(c: Config, v: View, st: NetworkStatus, blocking: bool, now: real)
    requires 0 < c.forcedM <= 10_000_000 && now > 0.0
    requires st.difficulty == Some(c.forcedM) && !SeenBefore(st.number, v.lastPollSeq, blocking)
    ensures Opened(c, AfterNetwork(c, v, st, blocking, now))
  {
  }

  /** One event: the difficulty stays, the counts agree with the tally, and the window
      closes only through a failed poll over the budget. */
  lemma StepTracks(c: Config, v: View, t: Tally, e: Timed)
    requires Hybrid(c) && Tracks(c, v, t) && OnlyReports(c.forcedM, [e])
    ensures Tracks(c, Step(c, v, e), Count(t, e))
    ensures v.networkOk ==> (Step(c, v, e).networkOk <==> WithinBudget(t, e))
  {
    assert e in [e];
    match e.event
    case Poll(st, blocking) => PollTracks(c, v, t, e, st, blocking);
    case Drain(bagQ) =>
    case _ =>
  }

  lemma PollTracks(c: Config, v: View, t: Tally, e: Timed, st: NetworkStatus, blocking: bool)
    requires Hybrid(c) && Tracks(c, v, t) && e.event == Poll(st, blocking)
    requires st.difficulty.Some? ==> e.now > 0.0 && AcceptDifficulty(st.difficulty.value, c.forcedM) == c.forcedM
    ensures Tracks(c, AfterNetwork(c, v, st, blocking, e.now), Count(t, e))
    ensures v.networkOk ==> (AfterNetwork(c, v, st, blocking, e.now).networkOk <==> WithinBudget(t, e))
  {
    hide AcceptDifficulty, MaxReal;
  }

  lemma {:induction false} RunTracks(c: Config, v: View, run: seq<Timed>)
    requires Hybrid(c) && Tracks(c, v, Start(v)) && OnlyReports(c.forcedM, run)
    ensures Tracks(c, Run(c, v, run), Tallied(Start(v), run))
    ensures run != [] && Run(c, v, run[..|run| - 1]).networkOk ==>
              (Run(c, v, run).networkOk <==> WithinBudget(Tallied(Start(v), run[..|run| - 1]), run[|run| - 1]))
  {
    if run != [] {
      hide Step, Tracks, Count, Fresh;
      RunTracks(c, v, run[..|run| - 1]);
      StepTracks(c, Run(c, v, run[..|run| - 1]), Tallied(Start(v), run[..|run| - 1]), run[|run| - 1]);
    }
  }

  /** Resilience, exactly: after a poll that reported the forced m, over any mix of
      repeated reads, failed polls, polls with nonsense values, transport failures,
      holds, paper updates, accepts and drain updates, the window stays open throughout
      if and only if every failed poll was within the budget. */
  lemma WindowStaysOpen(c: Config, v: View, run: seq<Timed>)
    requires Hybrid(c) && Opened(c, v) && OnlyReports(c.forcedM, run)
    ensures (forall k :: 0 <= k <= |run| ==> Open(c, Run(c, v, run[..k]))) <==> Flaky(Start(v), run)
  {
    hide WithinBudget, Step;
    forall k | 0 <= k <= |run|
      ensures Run(c, v, run[..k]).difficulty == Some(c.forcedM)
    {
      RunTracks(c, v, run[..k]);
    }
    forall k | 0 <= k < |run|
      ensures Run(c, v, run[..k]).networkOk ==>
                (Run(c, v, run[..k + 1]).networkOk <==> WithinBudget(Tallied(Start(v), run[..k]), run[k]))
    {
      assert run[..k + 1][..k] == run[..k];
      RunTracks(c, v, run[..k + 1]);
    }
    if Flaky(Start(v), run) {
      OpenUpTo(c, v, run, |run|);
    }
    if forall k :: 0 <= k <= |run| ==> Open(c, Run(c, v, run[..k])) {
      forall k | 0 <= k < |run|
        ensures WithinBudget(Tallied(Start(v), run[..k]), run[k])
      {
        assert Open(c, Run(c, v, run[..k])) && Open(c, Run(c, v, run[..k + 1]));
      }
    }
  }

  lemma {:induction false} OpenUpTo(c: Config, v: View, run: seq<Timed>, n: nat)
    requires Opened(c, v) && n <= |run| && Flaky(Start(v), run)
    requires forall k :: 0 <= k <= |run| ==> Run(c, v, run[..k]).difficulty == Some(c.forcedM)
    requires forall k :: 0 <= k < |run| && Run(c, v, run[..k]).networkOk ==>
               (Run(c, v, run[..k + 1]).networkOk <==> WithinBudget(Tallied(Start(v), run[..k]), run[k]))
    ensures forall k :: 0 <= k <= n ==> Open(c, Run(c, v, run[..k]))
  {
    hide WithinBudget, Step;
    if n > 0 {
      OpenUpTo(c, v, run, n - 1);
      assert Open(c, Run(c, v, run[..n - 1]));
      assert WithinBudget(Tallied(Start(v), run[..n - 1]), run[n - 1]);
      assert Run(c, v, run[..n - 1 + 1]).networkOk;
    } else {
      assert Run(c, v, run[..0]) == v;
    }
  }

  /** What an open window means for the rest of the supervisor. */
  lemma OpenMeans(c: Config, v: View, bagQ: int, now: real)
    requires Hybrid(c) && Open(c, v)
    ensures !OracleLeftM(v, c.forcedM) && SubmitTargetM(v) == c.forcedM
    ensures CanSubmitHitM(c, v, c.forcedM, now) <==> now >= v.backoffUntil
    ensures FlushSubmitAllowed(c, v, now) <==> now >= v.backoffUntil
    ensures forall status :: AfterTransportFailure(c, v, status, now).backoffUntil == now + 3.0
    ensures v.drainActive && !AfterDrain(c, v, bagQ, now).0.drainActive && c.drainEnabled ==>
              bagQ <= 0 || TimedOut(c, v, now)
    ensures AfterDrain(c, v, bagQ, now).1 != Ended(Mismatch)
  {
  }

  /** So in a flaky but tolerable window no drain is ever broken off as a mismatch: one
      that stops has emptied the bag of matching blocks or used up its time. */
  lemma DrainSurvives(c: Config, v: View, run: seq<Timed>, k: nat)
    requires Hybrid(c) && Opened(c, v) && OnlyReports(c.forcedM, run) && Flaky(Start(v), run)
    requires c.drainEnabled && k < |run|
    ensures var before, after := Run(c, v, run[..k]), Run(c, v, run[..k + 1]);
            && !OracleLeftM(before, c.forcedM)
            && (run[k].event.Drain? ==> AfterDrain(c, before, run[k].event.bagQ, run[k].now).1 != Ended(Mismatch))
            && (before.drainActive && !after.drainActive ==>
                  run[k].event.Drain? && (run[k].event.bagQ <= 0 || TimedOut(c, before, run[k].now)))
  {
    hide Flaky, OnlyReports, AfterDrain, OracleLeftM, AfterNetwork, AfterPaper;
    var before, e := Run(c, v, run[..k]), run[k];
    WindowStaysOpen(c, v, run);
    assert Open(c, before);
    assert run[..k + 1][..k] == run[..k];
    OpenMeans(c, before, if e.event.Drain? then e.event.bagQ else 0, e.now);
    if !e.event.Drain? {
      DrainUntouched(c, before, e);
    }
  }

  lemma DrainUntouched(c: Config, v: View, e: Timed)
    requires !e.event.Drain?
    ensures Step(c, v, e).drainActive == v.drainActive
  {
    hide AcceptDifficulty, Age, MaxReal, OracleSaysM;
  }

  /** The sixth failure in a row closes the window; the same snapshot read any number of
      times counts once. */
  lemma SixthFailureCloses(c: Config, v: View, now: real, last: nat)
    requires 0 < c.forcedM <= 10_000_000 && Opened(c, v) && v.lastOkAt <= now < v.lastOkAt + 120.0
    requires v.lastPollSeq < last
    ensures var polls := seq(6, i requires 0 <= i < 6 => Timed(Poll(NetworkStatus(last + i, None), false), now));
            && (forall k :: 0 <= k < 6 ==> Open(c, Run(c, v, polls[..k])))
            && !Open(c, Run(c, v, polls))
  {
    var polls := seq(6, i requires 0 <= i < 6 => Timed(Poll(NetworkStatus(last + i, None), false), now));
    FailuresCount(c, v, now, last, polls, 6);
    assert polls[..6] == polls;
  }

  lemma {:induction false} FailuresCount(c: Config, v: View, now: real, last: nat, polls: seq<Timed>, n: nat)
    requires Hybrid(c) && Opened(c, v) && v.lastOkAt <= now < v.lastOkAt + 120.0
    requires v.lastPollSeq < last && n <= |polls| <= 6
    requires forall i :: 0 <= i < |polls| ==> polls[i] == Timed(Poll(NetworkStatus(last + i, None), false), now)
    ensures forall k :: 0 <= k <= n && k < 6 ==> Open(c, Run(c, v, polls[..k]))
    ensures n == 6 ==> !Open(c, Run(c, v, polls[..n]))
    ensures var w := Run(c, v, polls[..n]);
            && w.difficulty == v.difficulty && w.lastOkAt == v.lastOkAt && w.failStreak == n
            && w.lastPollSeq == if n == 0 then v.lastPollSeq else last + n - 1
  {
    if n > 0 {
      FailuresCount(c, v, now, last, polls, n - 1);
      assert polls[..n][..n - 1] == polls[..n - 1];
    }
  }

  // ---- outside a match: classic mode, or a network not at the forced m --------------------------

  /** The network shows d, which is not a forced m. */
  predicate Plain(c: Config, v: View, d: int) {
    v.difficulty == Some(d) && 0 < d <= 10_000_000 && v.lastOkAt > 0.0 && !(c.forcedM > 0 && c.forcedM == d)
  }

  /** What one event must meet for the network to stay up: a failed poll comes as the first
      or second in a row and less than 60 s after the last one that succeeded; a submission
      that fails is answered with a rate limit, or the paper shows the forced m. */
  predicate Bearable(c: Config, w: View, t: Tally, e: Timed) {
    && (Fresh(t, e.event) && e.event.st.difficulty.None? ==> t.streak + 1 < 3 && e.now - t.goodAt < 60.0)
    && (e.event.TransportFailure? ==>
          || e.event.status in {401, 403, 429}
          || (c.forcedM > 0 && w.paperOk && w.paperM == Some(c.forcedM)))
  }

  lemma PlainStep(c: Config, v: View, d: int, e: Timed)
    requires Plain(c, v, d) && OnlyReports(d, [e])
    ensures Plain(c, Step(c, v, e), d) && Start(Step(c, v, e)) == Count(Start(v), e)
    ensures v.networkOk ==> (Step(c, v, e).networkOk <==> Bearable(c, v, Start(v), e))
  {
    assert e in [e];
    match e.event
    case Poll(st, blocking) => PlainPoll(c, v, d, e, st, blocking);
    case Drain(bagQ) =>
    case _ =>
  }

  lemma PlainPoll(c: Config, v: View, d: int, e: Timed, st: NetworkStatus, blocking: bool)
    requires Plain(c, v, d) && e.event == Poll(st, blocking)
    requires st.difficulty.Some? ==> e.now > 0.0 && AcceptDifficulty(st.difficulty.value, d) == d
    ensures Plain(c, AfterNetwork(c, v, st, blocking, e.now), d)
    ensures Start(AfterNetwork(c, v, st, blocking, e.now)) == Count(Start(v), e)
    ensures v.networkOk ==> (AfterNetwork(c, v, st, blocking, e.now).networkOk <==> Bearable(c, v, Start(v), e))
  {
    hide AcceptDifficulty, MaxReal;
  }

  lemma {:induction false} PlainRun(c: Config, v: View, d: int, run: seq<Timed>)
    requires Plain(c, v, d) && OnlyReports(d, run)
    ensures Plain(c, Run(c, v, run), d) && Start(Run(c, v, run)) == Tallied(Start(v), run)
  {
    if run != [] {
      hide Step, Plain, Count;
      PlainRun(c, v, d, run[..|run| - 1]);
      PlainStep(c, Run(c, v, run[..|run| - 1]), d, run[|run| - 1]);
    }
  }

  predicate AllBearable(c: Config, v: View, run: seq<Timed>) {
    forall k :: 0 <= k < |run| ==> Bearable(c, Run(c, v, run[..k]), Tallied(Start(v), run[..k]), run[k])
  }

  lemma PlainNext(c: Config, v: View, d: int, run: seq<Timed>, k: nat)
    requires Plain(c, v, d) && OnlyReports(d, run) && k < |run| && Run(c, v, run[..k]).networkOk
    ensures Run(c, v, run[..k + 1]).networkOk
            <==> Bearable(c, Run(c, v, run[..k]), Tallied(Start(v), run[..k]), run[k])
  {
    hide Step, Plain, Bearable, Count;
    assert run[..k + 1][..k] == run[..k];
    PlainRun(c, v, d, run[..k]);
    PlainStep(c, Run(c, v, run[..k]), d, run[k]);
  }

  lemma {:induction false} UpTo(c: Config, v: View, d: int, run: seq<Timed>, n: nat)
    requires v.networkOk && Plain(c, v, d) && OnlyReports(d, run) && AllBearable(c, v, run) && n <= |run|
    ensures forall k :: 0 <= k <= n ==> Run(c, v, run[..k]).networkOk
  {
    hide Step, Plain, Bearable, OnlyReports;
    if n > 0 {
      UpTo(c, v, d, run, n - 1);
      PlainNext(c, v, d, run, n - 1);
    }
  }

  /** The counterpart of WindowStaysOpen without a match: from an up network at d, over any
      mix of events in which no poll reports another difficulty in range, the network stays
      up throughout if and only if each of them is bearable. */
  lemma NetworkStaysUp(c: Config, v: View, d: int, run: seq<Timed>)
    requires v.networkOk && Plain(c, v, d) && OnlyReports(d, run)
    ensures (forall k :: 0 <= k <= |run| ==> Run(c, v, run[..k]).networkOk) <==> AllBearable(c, v, run)
  {
    hide Step, Plain, Bearable, OnlyReports;
    if AllBearable(c, v, run) {
      UpTo(c, v, d, run, |run|);
    }
    if forall k :: 0 <= k <= |run| ==> Run(c, v, run[..k]).networkOk {
      forall k | 0 <= k < |run|
        ensures Bearable(c, Run(c, v, run[..k]), Tallied(Start(v), run[..k]), run[k])
      {
        assert Run(c, v, run[..k]).networkOk && Run(c, v, run[..k + 1]).networkOk;
        PlainNext(c, v, d, run, k);
      }
    }
  }

  /** Staleness, in any mode and over any run: a view with a difficulty is stale exactly
      from the first failed poll after a good one on, until the next good one. */
  lemma {:induction false} StaleExactly(c: Config, v: View, run: seq<Timed>)
    requires v.difficulty.Some? && (v.stale <==> v.failStreak > 0)
    ensures Run(c, v, run).difficulty.Some? && Start(Run(c, v, run)).streak == Tallied(Start(v), run).streak
    ensures Start(Run(c, v, run)).lastSeen == Tallied(Start(v), run).lastSeen
    ensures Run(c, v, run).stale <==> Tallied(Start(v), run).streak > 0
  {
    if run != [] {
      hide Step;
      StaleExactly(c, v, run[..|run| - 1]);
      StaleStep(c, Run(c, v, run[..|run| - 1]), run[|run| - 1]);
    }
  }

  lemma StaleStep(c: Config, v: View, e: Timed)
    requires v.difficulty.Some? && (v.stale <==> v.failStreak > 0)
    ensures var w := Step(c, v, e);
            w.difficulty.Some? && (w.stale <==> w.failStreak > 0) && Start(w) == Count(Start(v), e)
  {
    hide AcceptDifficulty, MaxReal, OracleSaysM, OracleLeftM;
    match e.event
    case Poll(st, blocking) => StalePoll(c, v, e, st, blocking);
    case Paper(_) => hide AfterTransportFailure, AfterDrain;
    case Drain(_) => hide AfterPaper, AfterTransportFailure;
    case _ => hide AfterPaper, AfterDrain;
  }

  lemma StalePoll(c: Config, v: View, e: Timed, st: NetworkStatus, blocking: bool)
    requires v.difficulty.Some? && (v.stale <==> v.failStreak > 0) && e.event == Poll(st, blocking)
    ensures var w := AfterNetwork(c, v, st, blocking, e.now);
            w.difficulty.Some? && (w.stale <==> w.failStreak > 0) && Start(w) == Count(Start(v), e)
  {
    hide AcceptDifficulty, Age, MaxReal;
  }

  // ---- pauses and deferrals, as a submitter sees them -------------------------------------------

  /** What a new answer of the poller shows, and when submits may go on: in classic mode a
      change of difficulty holds them back for five seconds and for the sampling interval. */
  lemma PollShows(c: Config, v: View, st: NetworkStatus, blocking: bool, now: real, later: real)
    requires blocking || (st.number != 0 && st.number != v.lastPollSeq)
    requires st.difficulty.Some?
    ensures var w, raw := AfterNetwork(c, v, st, blocking, now), st.difficulty.value;
            && w.networkOk && !w.stale
            && (1 <= raw <= 10_000_000 ==> w.difficulty == Some(raw))
            && (!(1 <= raw <= 10_000_000) ==>
                  && (v.difficulty.Some? && v.difficulty.value > 0 ==> w.difficulty == v.difficulty)
                  && (v.difficulty.None? && c.memoryCost > 0 ==> w.difficulty == Some(c.memoryCost))
                  && (v.difficulty.None? && c.memoryCost <= 0 ==> w.difficulty == Some(1100)))
            && (LiveSubmitAllowed(c, w, later)
                <==> later >= 0.0
                     && (|| c.forcedM > 0
                         || (if v.difficulty.None? || v.difficulty == w.difficulty then later >= v.deferUntil
                             else later >= now + 5.0 && later >= now + c.sampleIntervalS as real)))
  {
    hide Age;
  }

  /** The pause a failed submission brings: three seconds after a rate limit or while the
      forced m is shown, which leaves the network as it was; else fifteen seconds, or the
      polling interval if that is longer, and the network counts as down. */
  lemma PauseExactly(c: Config, v: View, status: int, now: real, later: real)
    ensures var w := AfterTransportFailure(c, v, status, now);
            var shown := c.forcedM > 0 && ((v.networkOk && v.difficulty == Some(c.forcedM))
                                           || (v.paperOk && v.paperM == Some(c.forcedM)));
            if status in {401, 403, 429} || shown
            then w.networkOk == v.networkOk && (later >= w.backoffUntil <==> later >= now + 3.0)
            else && !w.networkOk
                 && (later >= w.backoffUntil
                     <==> later >= now + 15.0 && later >= now + c.networkDownPollS as real)
  {
  }

  /** When a drain begins and ends, from what the view shows of the bag's m. */
  lemma DrainExactly(c: Config, v: View, bagQ: int, now: real)
    requires c.drainEnabled
    ensures var (w, change) := AfterDrain(c, v, bagQ, now);
            var m := if c.forcedM > 0 then Some(c.forcedM) else if v.difficulty.Some? then v.difficulty
                     else Some(c.memoryCost);
            var shown := m.value > 0 && ((v.networkOk && v.difficulty == m) || (v.paperOk && v.paperM == m));
            var other := m.value > 0 && ((v.networkOk && v.difficulty.Some? && v.difficulty.value > 0)
                                         || (v.paperOk && v.paperM.Some? && v.paperM.value > 0));
            var late := c.drainMaxS > 0 && 0.0 < v.drainUntil <= now;
            if v.drainActive then
              && w.drainActive == ((shown && bagQ > 0 && !late) || (!shown && !other && !late))
              && (w.drainActive ==> w == v)
              && (change == Ended(Mismatch) <==> !shown && other)
              && (change == Ended(QueueClear) <==> shown && bagQ <= 0)
              && (change == Ended(TimeBudget) <==> late && (shown ==> bagQ > 0) && (!shown ==> !other))
            else
              && (change == Started <==> w.drainActive) && (w.drainActive <==> shown && bagQ >= c.drainMinQueue)
              && (w.drainActive && c.drainMaxS > 0 ==> w.drainUntil == now + c.drainMaxS as real)
              && (w.drainActive && c.drainMaxS <= 0 ==> w.drainUntil == 0.0)
              && (!w.drainActive ==> w == v)
  {
  }

  lemma RereadsChangeNothing(c: Config, v: View, st: NetworkStatus, now: real, later: real)
    requires st.number != 0
    ensures var once := AfterNetwork(c, v, st, false, now);
            AfterNetwork(c, once, st, false, later) == once
  {
    hide AcceptDifficulty, Age, MaxReal;
  }

  // ---- the paper over whole runs ---------------------------------------------------------------

  /** A new lastblock snapshot that shows no m. */
  predicate BadPaper(v: View, e: Event) {
    e.Paper? && !SeenBefore(e.paper.number, v.lastPaperSeq, false) && !(e.paper.ok && e.paper.newestM.Some?)
  }

  lemma PaperStep(c: Config, v: View, t: Timed)
    requires v.paperOk && v.paperM.Some? && v.lastPaperOkAt > 0.0
    requires t.event.Paper? && t.event.paper.ok ==> t.event.paper.newestM.None?
    ensures var w := Step(c, v, t);
            && w.paperM == v.paperM && w.lastPaperOkAt == v.lastPaperOkAt
            && (w.paperOk <==> (BadPaper(v, t.event) ==> t.now - v.lastPaperOkAt < 30.0))
  {
    hide AcceptDifficulty, MaxReal, OracleSaysM, OracleLeftM;
    match t.event
    case Poll(st, blocking) => PollLeavesPaper(c, v, st, blocking, t.now);
    case Drain(bagQ) => hide AfterTransportFailure;
    case _ =>
  }

  lemma PollLeavesPaper(c: Config, v: View, st: NetworkStatus, blocking: bool, now: real)
    ensures var w := AfterNetwork(c, v, st, blocking, now);
            w.paperOk == v.paperOk && w.paperM == v.paperM && w.lastPaperOkAt == v.lastPaperOkAt
  {
    hide AcceptDifficulty, Age, MaxReal;
  }

  /** The bad snapshot that comes at step k, if one does, is less than 30 s late. */
  predicate PaperTimely(c: Config, v: View, run: seq<Timed>, k: nat)
    requires k < |run|
  {
    BadPaper(Run(c, v, run[..k]), run[k].event) ==> run[k].now - v.lastPaperOkAt < 30.0
  }

  predicate OnlyBadPapers(run: seq<Timed>) {
    forall t :: t in run && t.event.Paper? && t.event.paper.ok ==> t.event.paper.newestM.None?
  }

  lemma {:induction false} PaperNext(c: Config, v: View, run: seq<Timed>, k: nat)
    requires v.paperM.Some? && v.lastPaperOkAt > 0.0 && OnlyBadPapers(run) && k < |run|
    requires Run(c, v, run[..k]).paperOk
    ensures Run(c, v, run[..k + 1]).paperOk <==> PaperTimely(c, v, run, k)
  {
    hide Step, BadPaper;
    assert run[..k + 1][..k] == run[..k];
    PaperSince(c, v, run[..k]);
    PaperStep(c, Run(c, v, run[..k]), run[k]);
  }

  lemma {:induction false} PaperUpTo(c: Config, v: View, run: seq<Timed>, n: nat)
    requires v.paperOk && v.paperM.Some? && v.lastPaperOkAt > 0.0 && OnlyBadPapers(run) && n <= |run|
    requires forall k :: 0 <= k < |run| ==> PaperTimely(c, v, run, k)
    ensures forall k :: 0 <= k <= n ==> Run(c, v, run[..k]).paperOk
  {
    hide Step, PaperTimely, OnlyBadPapers;
    if n > 0 {
      PaperUpTo(c, v, run, n - 1);
      PaperNext(c, v, run, n - 1);
    }
  }

  /** Without a further good snapshot the paper's m holds throughout a run exactly when
      every bad one comes less than 30 s after the last good one; anything else that
      happens, polls and submissions included, leaves it alone. */
  lemma {:induction false} PaperHolds(c: Config, v: View, run: seq<Timed>)
    requires v.paperOk && v.paperM.Some? && v.lastPaperOkAt > 0.0 && OnlyBadPapers(run)
    ensures Run(c, v, run).paperM == v.paperM
    ensures (forall k :: 0 <= k <= |run| ==> Run(c, v, run[..k]).paperOk)
            <==> forall k :: 0 <= k < |run| ==> PaperTimely(c, v, run, k)
  {
    PaperSince(c, v, run);
    hide Step, PaperTimely, OnlyBadPapers;
    if forall k :: 0 <= k < |run| ==> PaperTimely(c, v, run, k) {
      PaperUpTo(c, v, run, |run|);
    }
    if forall k :: 0 <= k <= |run| ==> Run(c, v, run[..k]).paperOk {
      forall k | 0 <= k < |run|
        ensures PaperTimely(c, v, run, k)
      {
        assert Run(c, v, run[..k]).paperOk && Run(c, v, run[..k + 1]).paperOk;
        PaperNext(c, v, run, k);
      }
    }
  }

  lemma {:induction false} PaperSince(c: Config, v: View, run: seq<Timed>)
    requires v.paperM.Some? && OnlyBadPapers(run)
    ensures Run(c, v, run).paperM == v.paperM && Run(c, v, run).lastPaperOkAt == v.lastPaperOkAt
  {
    hide Step;
    if run != [] {
      PaperSince(c, v, run[..|run| - 1]);
      PaperFixed(c, Run(c, v, run[..|run| - 1]), run[|run| - 1]);
    }
  }

  lemma PaperFixed(c: Config, v: View, t: Timed)
    requires t.event.Paper? && t.event.paper.ok ==> t.event.paper.newestM.None?
    ensures Step(c, v, t).paperM == v.paperM && Step(c, v, t).lastPaperOkAt == v.lastPaperOkAt
  {
    hide AcceptDifficulty, Age, MaxReal, OracleSaysM, OracleLeftM;
  }
}
