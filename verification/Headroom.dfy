/** The memory bound as it holds in the long run: between two replans the engine's lanes
    and batch can grow back to the whole plan, so a difficulty the plan was not made for
    is safe exactly when the whole plan fits at it. */
module Headroom {
  import opened Hits
  import opened VramPlan
  import opened ThermalHunt
  import opened Engine

  /** What may happen between replans: lane caps, scales, temperatures and new caps. */
  predicate Adjusts(op: Op) {
    op.OpSetCaps? || op.OpReduceLaneCap? || op.OpAddLaneCap? || op.OpSetScale? || op.OpThermal?
  }

  predicate AllAdjust(ops: seq<Op>) {
    forall k :: 0 <= k < |ops| ==> Adjusts(ops[k])
  }

  /** MiB the whole plan takes when mined at this difficulty. */
  function PeakMib(s: EngineState, difficulty: int): int
    requires s.plan.Some? && s.plan.value.lanes >= 0
  {
    PackBytes(s.plan.value.lanes, s.planned, difficulty) / MIB + s.plan.value.runtimeOverheadMib
  }

  /** A started engine could give back all lanes and the whole batch. */
  predicate Secure(s: EngineState) {
    s.started ==>
      s.plan.Some? && s.plan.value.lanes >= 0 && PeakMib(s, s.difficulty) <= s.plan.value.targetMib
  }

  // ---- what the adjustments keep ------------------------------------------------------------

  /** Lane caps stay within the configuration; and without the thermal control the batch
      is what the scale makes of the plan, with the scale never stuck short of 1. */
  predicate Regular(cfg: Settings, s: EngineState) {
    && 1 <= s.maxCap <= ConfigMax(cfg)
    && (s.plan.Some? ==> s.plan.value.lanes <= ConfigMax(cfg))
    && (!cfg.thermalEnabled ==>
          && (s.planned > 0 ==> s.batch == ApplyBatchScale(s.planned, s.scale))
          && (s.scale == 1.0 || s.scale <= 0.995 || s.scale - Lowest(cfg) >= 0.005)
          && Lowest(cfg) <= s.scale <= 1.0)
  }

  /** The smallest scale that can be set. */
  function Lowest(cfg: Settings): real {
    ClampReal(cfg.minScale, 0.2, 1.0)
  }

  lemma ReplanRegular(cfg: Settings, s: EngineState, difficulty: int, free: nat)
    requires Regular(cfg, s)
    ensures Regular(cfg, AfterReplan(cfg, s, difficulty, free))
  {
    hide BatchPerLane, PackBytes, CapsOf, ApplyBatchScale, ClampReal, AllowedMib;
  }

  lemma OpRegular(cfg: Settings, s: EngineState, op: Op)
    requires Regular(cfg, s)
    ensures Regular(cfg, Apply(cfg, s, op))
  {
    match op
    case OpStart(total, free) =>
      hide AfterReplan;
      ReplanRegular(cfg, s.(totalBytes := total, caps := Some(CapsOf(cfg, total))), s.difficulty, free);
    case OpSetDifficulty(d, free) =>
      hide AfterReplan;
      ReplanRegular(cfg, s, d, free);
    case OpRestoreLaneCap(t, m, free) =>
      hide AfterReplan;
      ReplanRegular(cfg, s.(maxCap := ConfigMax(cfg)), s.difficulty, free);
    case OpSetScale(scale) => hide ApplyBatchScale;
    case OpThermal(r) => ThermalKeeps(cfg, s, r);
    case _ =>
  }

  lemma ThermalKeeps(cfg: Settings, s: EngineState, r: Reading)
    ensures var t := AfterUpdateThermal(cfg, s, r);
            && t.plan == s.plan && t.planned == s.planned && t.lanes == s.lanes && t.maxCap == s.maxCap
            && t.difficulty == s.difficulty && t.started == s.started
            && (!cfg.thermalEnabled ==> t == s)
  {
    hide Hunt, HuntParams, ApplyBatchScale;
  }

  lemma {:induction false} RunRegular(cfg: Settings, memoryCost: int, ops: seq<Op>)
    ensures Regular(cfg, Engine.Run(cfg, InitialState(cfg, memoryCost), ops))
  {
    hide Apply, Regular;
    if ops != [] {
      RunRegular(cfg, memoryCost, ops[..|ops| - 1]);
      OpRegular(cfg, Engine.Run(cfg, InitialState(cfg, memoryCost), ops[..|ops| - 1]), ops[|ops| - 1]);
    } else {
      InitialRegular(cfg, memoryCost);
    }
  }

  lemma InitialRegular(cfg: Settings, memoryCost: int)
    ensures Regular(cfg, InitialState(cfg, memoryCost))
  {
  }

  /** An adjustment leaves plan and difficulty alone. */
  predicate SamePlan(s: EngineState, t: EngineState) {
    t.plan == s.plan && t.planned == s.planned && t.difficulty == s.difficulty && t.started == s.started
  }

  lemma AdjustSamePlan(cfg: Settings, s: EngineState, op: Op)
    requires Adjusts(op)
    ensures SamePlan(s, Apply(cfg, s, op))
  {
    if op.OpThermal? {
      ThermalKeeps(cfg, s, op.reading);
    }
  }

  lemma {:induction false} AdjustmentsKeep(cfg: Settings, s: EngineState, ops: seq<Op>)
    requires Sized(s) && AllAdjust(ops)
    ensures var t := Engine.Run(cfg, s, ops);
            Sized(t) && SamePlan(s, t)
  {
    hide Apply, Sized, Adjusts;
    if ops != [] {
      AdjustmentsKeep(cfg, s, ops[..|ops| - 1]);
      var before := Engine.Run(cfg, s, ops[..|ops| - 1]);
      ApplySized(cfg, before, ops[|ops| - 1]);
      AdjustSamePlan(cfg, before, ops[|ops| - 1]);
    }
  }

  /** While the plan stands no more than the whole of it is mined. */
  lemma BelowPeak(s: EngineState)
    requires Sized(s) && s.started
    ensures s.plan.Some? && s.lanes >= 0 && s.plan.value.lanes >= 0
    ensures UsedMib(s, s.difficulty) <= PeakMib(s, s.difficulty)
  {
    hide PackBytes;
    PackMonotone(s.lanes, s.plan.value.lanes, s.batch, s.planned, s.difficulty);
  }

  // ---- the whole plan can come back ------------------------------------------------------------

  lemma {:induction false} RunConcat(cfg: Settings, s: EngineState, a: seq<Op>, b: seq<Op>)
    ensures Engine.Run(cfg, s, a + b) == Engine.Run(cfg, Engine.Run(cfg, s, a), b)
    decreases |b|
  {
    hide Apply;
    if b == [] {
      assert a + b == a;
    } else {
      var n := |b| - 1;
      assert (a + b)[..|a + b| - 1] == a + b[..n];
      RunConcat(cfg, s, a, b[..n]);
    }
  }

  function Adds(n: nat): (ops: seq<Op>)
    ensures |ops| == n && forall k :: 0 <= k < n ==> ops[k] == OpAddLaneCap
  {
    seq(n, _ => OpAddLaneCap)
  }

  /** Adding lanes up to the configured cap brings back all the lanes of the plan, if
      there is one to add. */
  lemma {:induction false} LanesGrow(cfg: Settings, s: EngineState, n: nat)
    requires s.plan.Some? && 1 <= s.plan.value.lanes <= ConfigMax(cfg) && s.lanes >= 1
    requires n > 0 && s.maxCap + n == ConfigMax(cfg)
    ensures var t := Engine.Run(cfg, s, Adds(n));
            t == s.(maxCap := ConfigMax(cfg), lanes := s.plan.value.lanes)
    decreases n
  {
    var ops := Adds(n);
    var front := ops[..n - 1];
    assert front == Adds(n - 1);
    AddsMany(cfg, s, n - 1);
    assert ops[n - 1] == OpAddLaneCap;
  }

  lemma {:induction false} AddsMany(cfg: Settings, s: EngineState, n: nat)
    requires s.plan.Some? && s.lanes >= 1 && s.maxCap + n <= ConfigMax(cfg)
    ensures var t := Engine.Run(cfg, s, Adds(n));
            t == s.(maxCap := s.maxCap + n, lanes := t.lanes)
  {
    if n > 0 {
      AddsMany(cfg, s, n - 1);
      assert Adds(n)[..n - 1] == Adds(n - 1);
    }
  }

  /** Lanes: take one away, then add as many as there are. */
  lemma {:induction false} LanesComeBack(cfg: Settings, s: EngineState) returns (ops: seq<Op>)
    requires Sized(s) && s.started && Regular(cfg, s)
    ensures AllAdjust(ops)
    ensures s.plan.Some? && s.plan.value.lanes >= 1
    ensures var t := Engine.Run(cfg, s, ops);
            t == s.(maxCap := ConfigMax(cfg), lanes := s.plan.value.lanes)
  {
    if ConfigMax(cfg) == 1 {
      ops := [];
    } else {
      var less := AfterReduceLaneCap(s);
      var n := ConfigMax(cfg) - less.maxCap;
      var first := [OpReduceLaneCap];
      assert first[..0] == [];
      assert Engine.Run(cfg, s, first) == less;
      LanesGrow(cfg, less, n);
      RunConcat(cfg, s, first, Adds(n));
      ops := first + Adds(n);
    }
  }

  // ---- the batch: by the scale, or by cold readings ----------------------------------------------

  lemma WholeScale(planned: int)
    requires planned >= 1
    ensures ApplyBatchScale(planned, 1.0) == planned
  {
    assert planned as real * 1.0 == planned as real;
  }

  /** A growth of the batch alone. */
  predicate OnlyBatch(s: EngineState, t: EngineState) {
    SamePlan(s, t) && t.lanes == s.lanes && t.batch == s.planned
  }

  lemma {:induction false} BatchByScale(cfg: Settings, s: EngineState) returns (ops: seq<Op>)
    requires Regular(cfg, s) && !cfg.thermalEnabled && s.planned >= 1
    ensures AllAdjust(ops) && OnlyBatch(s, Engine.Run(cfg, s, ops))
  {
    hide ApplyBatchScale;
    WholeScale(s.planned);
    var up, down := OpSetScale(1.0), OpSetScale(0.0);
    assert [up][..0] == [] && [down, up][..1] == [down] && [down][..0] == [];
    if s.scale == 1.0 {
      ops := [];
    } else if s.scale <= 0.995 {
      ops := [up];
    } else {
      ops := [down, up];
      assert Engine.Run(cfg, s, [down]) == AfterSetThermalBatchScale(cfg, s, 0.0);
    }
  }

  /** A reading long after the last move, with both sensors silent. */
  function Cold(cfg: Settings, s: EngineState): ThermalHunt.Reading {
    ThermalHunt.Reading(0, 0, (if s.hunt.lastAdjust > 0.0 then s.hunt.lastAdjust else 0.0)
                              + CutSettle(HuntParams(cfg, s.planned)))
  }

  predicate Warm(s: EngineState) {
    s.hunt.lastAdjust > 0.0 && 1 <= s.hunt.batch == s.batch <= s.planned
  }

  lemma ColdWarms(cfg: Settings, s: EngineState)
    requires cfg.thermalEnabled && s.planned >= 1
    ensures var t := AfterUpdateThermal(cfg, s, Cold(cfg, s));
            Warm(t) && (Warm(s) ==> t.batch >= Min(s.planned, s.batch + 1))
  {
    hide ApplyBatchScale;
  }

  lemma RunFirst(cfg: Settings, s: EngineState, op: Op, rest: seq<Op>)
    requires Adjusts(op) && AllAdjust(rest)
    ensures AllAdjust([op] + rest)
    ensures Engine.Run(cfg, s, [op] + rest) == Engine.Run(cfg, Apply(cfg, s, op), rest)
  {
    hide Apply;
    assert [op][..0] == [];
    RunConcat(cfg, s, [op], rest);
  }

  lemma {:induction false} WarmGrows(cfg: Settings, s: EngineState) returns (ops: seq<Op>)
    requires cfg.thermalEnabled && Warm(s)
    ensures AllAdjust(ops) && OnlyBatch(s, Engine.Run(cfg, s, ops))
    decreases s.planned - s.batch, 1
  {
    hide Apply, AfterUpdateThermal, Cold;
    if s.batch == s.planned {
      ops := [];
    } else {
      ops := OneColdReading(cfg, s);
    }
  }

  lemma {:induction false} OneColdReading(cfg: Settings, s: EngineState) returns (ops: seq<Op>)
    requires cfg.thermalEnabled && s.planned >= 1 && (Warm(s) ==> s.batch < s.planned)
    ensures AllAdjust(ops) && OnlyBatch(s, Engine.Run(cfg, s, ops))
    decreases if Warm(s) then s.planned - s.batch else s.planned, 0
  {
    hide AfterUpdateThermal, Cold, Engine.Run;
    var op := OpThermal(Cold(cfg, s));
    var t := Apply(cfg, s, op);
    ColdWarms(cfg, s);
    ThermalKeeps(cfg, s, op.reading);
    var rest := WarmGrows(cfg, t);
    RunFirst(cfg, s, op, rest);
    ops := [op] + rest;
  }

  lemma {:induction false} BatchComesBack(cfg: Settings, s: EngineState) returns (ops: seq<Op>)
    requires Regular(cfg, s) && s.planned >= 1
    ensures AllAdjust(ops) && OnlyBatch(s, Engine.Run(cfg, s, ops))
  {
    if !cfg.thermalEnabled {
      ops := BatchByScale(cfg, s);
    } else if Warm(s) {
      ops := WarmGrows(cfg, s);
    } else {
      ops := OneColdReading(cfg, s);
    }
  }

  /** From any started engine some adjustments bring back every lane and the whole batch. */
  lemma {:induction false} PeakComesBack(cfg: Settings, s: EngineState) returns (ops: seq<Op>)
    requires Sized(s) && s.started && Regular(cfg, s)
    ensures AllAdjust(ops)
    ensures var t := Engine.Run(cfg, s, ops);
            && SamePlan(s, t) && t.plan.Some? && t.lanes == t.plan.value.lanes >= 1 && t.batch == t.planned
  {
    hide Engine.Run, ApplyBatchScale;
    var a := LanesComeBack(cfg, s);
    var t := Engine.Run(cfg, s, a);
    var b := BatchComesBack(cfg, t);
    RunConcat(cfg, s, a, b);
    ops := a + b;
  }

  // ---- the results ---------------------------------------------------------------------------------

  predicate Fits(s: EngineState) {
    s.plan.Some? && s.lanes >= 0 && WithinTarget(s)
  }

  /** Whatever is adjusted, as long as nobody replans, starts or stops. */
  ghost predicate AlwaysFits(cfg: Settings, s: EngineState) {
    forall ops :: AllAdjust(ops) ==> Fits(Engine.Run(cfg, s, ops))
  }

  /** A started engine stays within its plan's target whatever is adjusted, exactly when
      the whole plan fits at the difficulty it mines. */
  lemma {:induction false} PeakDecides(cfg: Settings, s: EngineState)
    requires Sized(s) && s.started && Regular(cfg, s)
    ensures AlwaysFits(cfg, s) <==> Secure(s)
  {
    hide Engine.Run, Regular, AllAdjust;
    BelowPeak(s);
    if Secure(s) {
      forall ops | AllAdjust(ops)
        ensures Fits(Engine.Run(cfg, s, ops))
      {
        AdjustmentsKeep(cfg, s, ops);
        BelowPeak(Engine.Run(cfg, s, ops));
      }
    } else {
      var ops := PeakComesBack(cfg, s);
      assert !Fits(Engine.Run(cfg, s, ops));
    }
  }

  /** What can be asked of a call before it is made. Only a new difficulty matters: one
      attempt at it fits a lane's budget, so that the replan goes through, or the whole
      present plan fits at it. */
  predicate OpSecure(cfg: Settings, s: EngineState, op: Op) {
    op.OpSetDifficulty? && s.started && op.difficulty != s.difficulty ==>
      || (op.difficulty > 0
          && MilliBytesPerAttempt(op.difficulty) <= 1000 * PerLaneBudget(NextRequest(cfg, s, op.difficulty, op.free)))
      || (s.plan.Some? && s.plan.value.lanes >= 0 && PeakMib(s, op.difficulty) <= s.plan.value.targetMib)
  }

  lemma FreshSecure(s: EngineState)
    requires PackSized(s) && s.plan.Some? && !s.replanFailed
    ensures Secure(s)
  {
    hide PackBytes;
  }

  lemma {:induction false} ReplanSecure(cfg: Settings, s: EngineState, difficulty: int, free: nat)
    requires Sized(s) && s.started
    ensures var r := AfterReplan(cfg, s, difficulty, free);
            && r.started && (Secure(s) && difficulty == s.difficulty ==> Secure(r))
            && (Secure(r) <==>
                  || BatchPerLane(NextRequest(cfg, s, difficulty, free)) > 0
                  || (s.plan.Some? && s.plan.value.lanes >= 0 && PeakMib(s, difficulty) <= s.plan.value.targetMib))
  {
    hide PackBytes, BatchPerLane;
    var r := AfterReplan(cfg, s, difficulty, free);
    ReplanSized(cfg, s, difficulty, free);
    if !r.replanFailed {
      FreshSecure(r);
    }
  }

  lemma {:induction false} StartSecure(cfg: Settings, s: EngineState, total: nat, free: nat)
    requires Sized(s) && Secure(s)
    ensures Secure(AfterStart(cfg, s, total, free))
  {
    hide AfterReplan, PeakMib;
    if !s.started {
      var before := s.(totalBytes := total, caps := Some(CapsOf(cfg, total)));
      ReplanSized(cfg, before, s.difficulty, free);
      var r := AfterReplan(cfg, before, s.difficulty, free);
      if !r.replanFailed {
        FreshSecure(r.(started := true));
      }
    }
  }

  lemma {:induction false} OpSecureExactly(cfg: Settings, s: EngineState, op: Op)
    requires Sized(s) && Secure(s)
    ensures Secure(Apply(cfg, s, op)) <==> OpSecure(cfg, s, op)
  {
    hide PeakMib, AfterReplan, AfterStart, PackSized, PerLaneBudget, MilliBytesPerAttempt, BatchPerLane;
    match op
    case OpStart(total, free) => StartSecure(cfg, s, total, free);
    case OpStop =>
    case OpSetDifficulty(d, free) =>
      if s.started && d != s.difficulty {
        ReplanSecure(cfg, s, d, free);
        RoomForOne(NextRequest(cfg, s, d, free));
      }
    case OpRestoreLaneCap(t, m, free) =>
      if s.started {
        RaisedSecure(cfg, s);
        ReplanSecure(cfg, s.(maxCap := ConfigMax(cfg)), s.difficulty, free);
      }
    case _ =>
      AdjustSamePlan(cfg, s, op);
      SamePlanSecure(s, Apply(cfg, s, op));
  }

  lemma RaisedSecure(cfg: Settings, s: EngineState)
    requires Sized(s) && Secure(s)
    ensures Sized(s.(maxCap := ConfigMax(cfg))) && Secure(s.(maxCap := ConfigMax(cfg)))
  {
  }

  lemma SamePlanSecure(s: EngineState, t: EngineState)
    requires SamePlan(s, t)
    ensures Secure(s) <==> Secure(t)
  {
  }

  /** The engine after the first k operations from its construction. */
  function At(cfg: Settings, memoryCost: int, ops: seq<Op>, k: nat): EngineState
    requires k <= |ops|
  {
    Engine.Run(cfg, InitialState(cfg, memoryCost), ops[..k])
  }

  lemma {:induction false} AtNext(cfg: Settings, memoryCost: int, ops: seq<Op>, k: nat)
    requires k < |ops|
    ensures At(cfg, memoryCost, ops, k + 1) == Apply(cfg, At(cfg, memoryCost, ops, k), ops[k])
    ensures Sized(At(cfg, memoryCost, ops, k))
  {
    hide Apply, Sized;
    RunNext(cfg, InitialState(cfg, memoryCost), ops, k);
    RunSized(cfg, memoryCost, ops[..k]);
  }

  lemma {:induction false} SecureUpTo(cfg: Settings, memoryCost: int, ops: seq<Op>, n: nat)
    requires n <= |ops| && forall k :: 0 <= k < |ops| ==> OpSecure(cfg, At(cfg, memoryCost, ops, k), ops[k])
    ensures forall k :: 0 <= k <= n ==> Secure(At(cfg, memoryCost, ops, k))
  {
    hide Secure, OpSecure, Apply, Sized;
    if n > 0 {
      SecureUpTo(cfg, memoryCost, ops, n - 1);
      AtNext(cfg, memoryCost, ops, n - 1);
      OpSecureExactly(cfg, At(cfg, memoryCost, ops, n - 1), ops[n - 1]);
    } else {
      NewSecure(cfg, memoryCost);
      assert ops[..0] == [];
    }
  }

  lemma NewSecure(cfg: Settings, memoryCost: int)
    ensures Secure(InitialState(cfg, memoryCost))
  {
  }

  lemma {:induction false} SecureThroughout(cfg: Settings, memoryCost: int, ops: seq<Op>)
    ensures (forall k :: 0 <= k <= |ops| ==> Secure(At(cfg, memoryCost, ops, k)))
            <==> forall k :: 0 <= k < |ops| ==> OpSecure(cfg, At(cfg, memoryCost, ops, k), ops[k])
  {
    hide Secure, OpSecure, Apply, Sized;
    if forall k :: 0 <= k < |ops| ==> OpSecure(cfg, At(cfg, memoryCost, ops, k), ops[k]) {
      SecureUpTo(cfg, memoryCost, ops, |ops|);
    }
    if forall k :: 0 <= k <= |ops| ==> Secure(At(cfg, memoryCost, ops, k)) {
      forall k | 0 <= k < |ops|
        ensures OpSecure(cfg, At(cfg, memoryCost, ops, k), ops[k])
      {
        AtNext(cfg, memoryCost, ops, k);
        assert Secure(At(cfg, memoryCost, ops, k)) && Secure(At(cfg, memoryCost, ops, k + 1));
        OpSecureExactly(cfg, At(cfg, memoryCost, ops, k), ops[k]);
      }
    }
  }

  /** Main result, over every run from construction: at each of its points a started engine
      stays within its plan's target whatever is adjusted from there on, if and only if
      every difficulty that was set was secure when it was set. */
  lemma {:induction false} LongRunBound(cfg: Settings, memoryCost: int, ops: seq<Op>)
    ensures (forall k :: 0 <= k <= |ops| && At(cfg, memoryCost, ops, k).started ==>
               AlwaysFits(cfg, At(cfg, memoryCost, ops, k)))
            <==> forall k :: 0 <= k < |ops| ==> OpSecure(cfg, At(cfg, memoryCost, ops, k), ops[k])
  {
    hide OpSecure, AlwaysFits, Sized, Regular, At;
    SecureThroughout(cfg, memoryCost, ops);
    forall k | 0 <= k <= |ops|
      ensures var s := At(cfg, memoryCost, ops, k);
              Secure(s) <==> (s.started ==> AlwaysFits(cfg, s))
    {
      AtSound(cfg, memoryCost, ops, k);
      var s := At(cfg, memoryCost, ops, k);
      if s.started {
        PeakDecides(cfg, s);
      }
    }
  }

  lemma {:induction false} AtSound(cfg: Settings, memoryCost: int, ops: seq<Op>, k: nat)
    requires k <= |ops|
    ensures Sized(At(cfg, memoryCost, ops, k)) && Regular(cfg, At(cfg, memoryCost, ops, k))
  {
    hide Sized, Regular, Engine.Run;
    RunSized(cfg, memoryCost, ops[..k]);
    RunRegular(cfg, memoryCost, ops[..k]);
  }

  // ---- a bound that breaks later --------------------------------------------------------------

  /** An 8 GiB card with two lanes and the thermal control starting at half the plan. */
  const TWO_LANES := Settings(WHOLE_CARD, 9_000_000, 2, 0, 0, 0, true, 0.2, 0.5, false, 80, 90, 80, 90, 1, 5.0)

  function LateRaise(): (ops: seq<Op>)
    ensures |ops| == 6
  {
    [OpReduceLaneCap, OpStart(CARD_BYTES, CARD_BYTES), OpAddLaneCap,
     OpThermal(ThermalHunt.Reading(30, 0, 1.0)), OpSetDifficulty(4_300_000, CARD_BYTES),
     OpThermal(ThermalHunt.Reading(30, 0, 10.0))]
  }

  /** Planned on one lane, at cost 4,000,000, for two attempts. */
  lemma PlannedForTwo()
    ensures var s := AfterStart(TWO_LANES, InitialState(TWO_LANES, 4_000_000).(maxCap := 1), CARD_BYTES, CARD_BYTES);
            && s.started && !s.replanFailed && s.difficulty == 4_000_000 && s.maxCap == 1
            && s.lanes == 1 && s.batch == s.planned == 2 && s.scale == 1.0 && s.hunt == ThermalHunt.FRESH
            && s.caps == Some(Caps(8192, 8192, 0, 8192, 0, 0)) && s.totalBytes == CARD_BYTES
            && s.plan.Some? && s.plan.value.lanes == 1
            && s.plan.value.targetMib == 8192 && s.plan.value.runtimeOverheadMib == 0
  {
    var s0 := InitialState(TWO_LANES, 4_000_000).(maxCap := 1);
    var caps := Caps(8192, 8192, 0, 8192, 0, 0);
    assert Share(8192, 100.0) == 8192 && Share(8192, 0.0) == 0;
    assert CapsOf(TWO_LANES, CARD_BYTES) == caps;
    var q := ReplanRequest(TWO_LANES, s0.(totalBytes := CARD_BYTES), caps, 4_000_000, CARD_BYTES);
    assert AllowedMib(q) == 8192 && LaneCount(q) == 1 && PerLaneBudget(q) == 8192 * MIB;
    assert BatchPerLane(q) == 2;
    assert ApplyBatchScale(2, 1.0) == 2;
  }

  lemma HalfSeeded(s: EngineState)
    requires s.planned == 2 && s.hunt == ThermalHunt.FRESH
    ensures var t := AfterUpdateThermal(TWO_LANES, s, ThermalHunt.Reading(30, 0, 1.0));
            && t.hunt.batch == t.batch == 1 && t.hunt.lastAdjust == 1.0 && t.hunt.lastTemp == 30
            && t.caps == s.caps && t.totalBytes == s.totalBytes && t.replanFailed == s.replanFailed
  {
    assert ApplyBatchScale(2, 0.5) == 1 && ApplyBatchScale(2, 0.2) == 1;
  }

  lemma CoolRaise(s: EngineState)
    requires s.planned == 2 && s.hunt.batch == s.batch == 1 && s.hunt.lastAdjust == 1.0 && s.hunt.lastTemp == 30
    ensures AfterUpdateThermal(TWO_LANES, s, ThermalHunt.Reading(30, 0, 10.0)).batch == 2
  {
    assert ApplyBatchScale(2, 0.2) == 1;
  }

  lemma NoRoom(q: Request)
    requires q.totalBytes == CARD_BYTES && q.targetMib == 8192 && q.desktopHeadroomMib == 0
    requires q.runtimeOverheadMib == 0 && q.maxLanes == 2
    requires q.difficulty == 4_300_000 && q.referenceDifficulty == 9_000_000
    ensures BatchPerLane(q) <= 0
  {
    assert PerLaneBudget(q) == 4096 * MIB;
    RoomForOne(q);
  }

  lemma TwoDoNotFit()
    ensures PackBytes(1, 1, 4_300_000) / MIB == 4203 && PackBytes(1, 2, 4_300_000) / MIB == 8406
  {
  }

  /** One lane on a plan for two attempts, free to take a second lane. */
  predicate ReadyForTwo(s: EngineState) {
    && s.started && !s.replanFailed && s.difficulty == 4_000_000 && s.maxCap == 2
    && s.lanes == 1 && s.planned == 2
    && s.caps == Some(Caps(8192, 8192, 0, 8192, 0, 0)) && s.totalBytes == CARD_BYTES
    && s.plan.Some? && s.plan.value.lanes == 1
    && s.plan.value.targetMib == 8192 && s.plan.value.runtimeOverheadMib == 0
  }

  lemma AfterThree()
    ensures var s := At(TWO_LANES, 4_000_000, LateRaise(), 3);
            ReadyForTwo(s) && s.hunt == ThermalHunt.FRESH
  {
    hide AfterStart;
    var ops := LateRaise();
    PlannedForTwo();
    assert ops[..0] == [];
    AtNext(TWO_LANES, 4_000_000, ops, 0);
    AtNext(TWO_LANES, 4_000_000, ops, 1);
    AtNext(TWO_LANES, 4_000_000, ops, 2);
    hide At;
    assert At(TWO_LANES, 4_000_000, ops, 1) == InitialState(TWO_LANES, 4_000_000).(maxCap := 1) by {
      NewState();
    }
  }

  lemma NewState()
    ensures At(TWO_LANES, 4_000_000, LateRaise(), 0) == InitialState(TWO_LANES, 4_000_000)
    ensures AfterReduceLaneCap(InitialState(TWO_LANES, 4_000_000)) == InitialState(TWO_LANES, 4_000_000).(maxCap := 1)
  {
    assert LateRaise()[..0] == [];
  }

  lemma Throws(s: EngineState)
    requires ReadyForTwo(s)
    ensures AfterSetDifficulty(TWO_LANES, s, 4_300_000, CARD_BYTES) == s.(difficulty := 4_300_000, replanFailed := true)
  {
    NoRoom(NextRequest(TWO_LANES, s, 4_300_000, CARD_BYTES));
    hide BatchPerLane, PackBytes;
  }

  /** That plan, mined at a difficulty it was not made for. */
  predicate Outdated(s: EngineState, batch: int) {
    && s.started && s.replanFailed && s.difficulty == 4_300_000
    && s.lanes == 1 && s.planned == 2 && s.batch == batch
    && s.plan.Some? && s.plan.value.lanes == 1
    && s.plan.value.targetMib == 8192 && s.plan.value.runtimeOverheadMib == 0
  }

  lemma AfterFive()
    ensures var s := At(TWO_LANES, 4_000_000, LateRaise(), 5);
            Outdated(s, 1) && s.hunt.batch == 1 && s.hunt.lastAdjust == 1.0 && s.hunt.lastTemp == 30
  {
    var ops := LateRaise();
    AfterThree();
    AtNext(TWO_LANES, 4_000_000, ops, 3);
    AtNext(TWO_LANES, 4_000_000, ops, 4);
    hide At, AfterUpdateThermal, AfterSetDifficulty, Sized;
    var s3 := At(TWO_LANES, 4_000_000, ops, 3);
    HalfSeeded(s3);
    ThermalKeeps(TWO_LANES, s3, ThermalHunt.Reading(30, 0, 1.0));
    Throws(At(TWO_LANES, 4_000_000, ops, 4));
  }

  lemma OutdatedMib(s: EngineState, batch: int)
    requires Outdated(s, batch) && 1 <= batch <= 2
    ensures (Fits(s) <==> batch == 1) && !Secure(s)
  {
    TwoDoNotFit();
    hide PackBytes;
  }

  /** At half the plan, one attempt, the difficulty 4,300,000 fits the card though the
      replan for it throws; one cool reading later the second attempt is back and the
      8192 MiB are passed. */
  lemma RaiseBreaksBound()
    ensures var before, after := At(TWO_LANES, 4_000_000, LateRaise(), 5), At(TWO_LANES, 4_000_000, LateRaise(), 6);
            && before.started && before.replanFailed && Fits(before) && !Secure(before)
            && after.started && !Fits(after)
  {
    AfterFive();
    AtNext(TWO_LANES, 4_000_000, LateRaise(), 5);
    hide At, AfterUpdateThermal, Sized, Fits, Secure;
    var s5 := At(TWO_LANES, 4_000_000, LateRaise(), 5);
    CoolRaise(s5);
    ThermalKeeps(TWO_LANES, s5, ThermalHunt.Reading(30, 0, 10.0));
    OutdatedMib(s5, 1);
    OutdatedMib(At(TWO_LANES, 4_000_000, LateRaise(), 6), 2);
  }
}
