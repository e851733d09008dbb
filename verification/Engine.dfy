/** The parts of `CudaEngine` that decide how much memory a mining wave takes: the
    replanning entry points, the lane caps and the thermal batch control. */
module Engine {
  import opened Hits
  import opened VramPlan
  import opened ThermalHunt

  datatype Settings = Settings(
    caps: CapSettings, referenceDifficulty: int, maxLanes: int, laneReserve: int, batchSize: int,
    maxBatchSize: int, thermalEnabled: bool, minScale: real, startScale: real, useMem: bool,
    warnMem: int, maxMem: int, warnGpu: int, maxGpu: int, thermalStep: int, settle: real)

  /** replanFailed records that the last replan threw ("Could not size CUDA batch"). */
  datatype EngineState = EngineState(
    started: bool, difficulty: int, lanes: int, batch: int, planned: int, maxCap: int, scale: real,
    hunt: ThermalHunt.State, caps: Option<Caps>, plan: Option<Plan>, totalBytes: nat, replanFailed: bool)

  function ClampReal(v: real, lo: real, hi: real): real {
    var low := if v < hi then v else hi;
    if low > lo then low else lo
  }

  function ApplyBatchScale(batch: int, scale: real): (n: int)
    ensures 0 <= n
    ensures n <= Max(0, batch)
    ensures batch > 0 ==> n >= 1
  {
    if batch <= 0 then 0
    else
      var s := ClampReal(scale, 0.0, 1.0);
      ScaledInRange(batch, s);
      Max(1, Round(batch as real * s))
  }

  lemma ScaledInRange(batch: int, s: real)
    requires batch > 0 && 0.0 <= s <= 1.0
    ensures 0 <= Round(batch as real * s) <= batch
  {
    assert batch as real * s <= batch as real;
  }

  function ConfigMax(cfg: Settings): (n: int)
    ensures n >= 1 && n >= cfg.maxLanes && (n == 1 || n == cfg.maxLanes)
  {
    Max(1, cfg.maxLanes)
  }

  function CapsOf(cfg: Settings, totalBytes: nat): Caps {
    ResolveCaps(totalBytes / MIB, cfg.caps)
  }

  function ReplanRequest(cfg: Settings, s: EngineState, caps: Caps, difficulty: int, free: nat): Request {
    Request(s.totalBytes, free, caps.targetMib, caps.headroomMib, difficulty, cfg.referenceDifficulty,
            s.maxCap, cfg.laneReserve, cfg.batchSize, cfg.maxBatchSize, caps.runtimeOverheadMib)
  }

  /** replan: on failure only the difficulty and the caps have been touched. */
  function AfterReplan(cfg: Settings, s: EngineState, difficulty: int, free: nat): EngineState {
    var caps := if s.caps.Some? then s.caps.value else CapsOf(cfg, s.totalBytes);
    var plan := DraftPlan(ReplanRequest(cfg, s, caps, difficulty, free));
    var touched := s.(difficulty := difficulty, caps := Some(caps));
    if plan.batchPerLane <= 0 then touched.(replanFailed := true)
    else
      touched.(plan := Some(plan), lanes := plan.lanes, planned := plan.batchPerLane,
               batch := ApplyBatchScale(plan.batchPerLane, s.scale), hunt := FRESH, replanFailed := false)
  }

  function AfterStart(cfg: Settings, s: EngineState, totalBytes: nat, free: nat): EngineState {
    if s.started then s
    else
      var sized := s.(totalBytes := totalBytes, caps := Some(CapsOf(cfg, totalBytes)));
      var r := AfterReplan(cfg, sized, s.difficulty, free);
      if r.replanFailed then r else r.(started := true)
  }

  function AfterStop(s: EngineState): EngineState {
    s.(started := false, plan := None)
  }

  function AfterSetDifficulty(cfg: Settings, s: EngineState, difficulty: int, free: nat): EngineState {
    if difficulty == s.difficulty && s.started then s
    else if s.started then AfterReplan(cfg, s, difficulty, free)
    else s.(difficulty := difficulty)
  }

  function AfterReduceLaneCap(s: EngineState): EngineState {
    var cap := Max(1, s.maxCap - 1);
    s.(maxCap := cap, lanes := Min(s.lanes, cap))
  }

  function AfterAddLaneCap(cfg: Settings, s: EngineState): EngineState {
    if s.maxCap >= ConfigMax(cfg) then s
    else
      var cap := s.maxCap + 1;
      var l0 := Min(Max(s.lanes, cap), ConfigMax(cfg));
      var l1 := if s.plan.Some? && s.plan.value.lanes > 0 then Min(l0, s.plan.value.lanes) else l0;
      s.(maxCap := cap, lanes := Min(l1, cap))
  }

  function AfterRestoreLaneCapIfCool(cfg: Settings, s: EngineState, temp: int, memTemp: int, free: nat): EngineState {
    if s.maxCap >= ConfigMax(cfg) || temp >= cfg.warnGpu
       || (cfg.useMem && memTemp > 0 && memTemp >= cfg.warnMem) then s
    else
      var raised := s.(maxCap := ConfigMax(cfg));
      if s.started then AfterReplan(cfg, raised, s.difficulty, free) else raised
  }

  function AfterSetThermalBatchScale(cfg: Settings, s: EngineState, scale: real): EngineState {
    var wanted := ClampReal(scale, ClampReal(cfg.minScale, 0.2, 1.0), 1.0);
    var diff := if wanted >= s.scale then wanted - s.scale else s.scale - wanted;
    if diff < 0.005 then s
    else if s.planned <= 0 then s.(scale := wanted)
    else
      var batch := ApplyBatchScale(s.planned, wanted);
      s.(scale := wanted, batch := batch, hunt := s.hunt.(batch := batch))
  }

  function HuntParams(cfg: Settings, planned: int): Params {
    Params(cfg.useMem, cfg.warnMem, cfg.maxMem, cfg.maxGpu, planned, cfg.thermalStep,
           ApplyBatchScale(planned, cfg.minScale), cfg.settle)
  }

  /** The hunt begins at start_scale of the planned pack. */
  function SeedHunt(cfg: Settings, s: EngineState): EngineState {
    if s.hunt.batch > 0 then s
    else
      var scale := ClampReal(cfg.startScale, 0.5, 1.0);
      var batch := ApplyBatchScale(s.planned, scale);
      s.(hunt := s.hunt.(batch := batch, floor := batch, lastOk := batch), batch := batch, scale := scale)
  }

  function AfterUpdateThermal(cfg: Settings, s: EngineState, r: Reading): EngineState {
    if !cfg.thermalEnabled || s.planned <= 0 then s
    else
      var seeded := SeedHunt(cfg, s);
      var hunt := Hunt(HuntParams(cfg, s.planned), seeded.hunt, r).0;
      if hunt.batch > 0 && hunt.batch != seeded.batch then
        seeded.(hunt := hunt, batch := hunt.batch, scale := hunt.batch as real / s.planned as real)
      else seeded.(hunt := hunt)
  }

  // ---- the engine object -----------------------------------------------------------------

  class CudaEngine {
    const cfg: Settings
    var started: bool
    var difficulty: int
    var lanes: int
    var batchPerLane: int
    var plannedBatchPerLane: int
    var maxLanesCap: int
    var thermalBatchScale: real
    var thermalHunt: ThermalHunt.State
    var vramCaps: Option<Caps>
    var vramPlan: Option<Plan>
    var totalVramBytes: nat
    var replanFailed: bool

    ghost function State(): EngineState
      reads this
    {
      EngineState(started, difficulty, lanes, batchPerLane, plannedBatchPerLane, maxLanesCap,
                  thermalBatchScale, thermalHunt, vramCaps, vramPlan, totalVramBytes, replanFailed)
    }

    constructor (cfg: Settings, memoryCost: int)
      ensures this.cfg == cfg && State() == InitialState(cfg, memoryCost)
    {
      this.cfg := cfg;
      started, difficulty, lanes, batchPerLane, plannedBatchPerLane := false, memoryCost, 1, 0, 0;
      maxLanesCap, thermalBatchScale, thermalHunt := ConfigMax(cfg), 1.0, FRESH;
      vramCaps, vramPlan, totalVramBytes, replanFailed := None, None, 0, false;
    }

    method Replan(newDifficulty: int, free: nat)
      modifies this
      ensures State() == AfterReplan(cfg, old(State()), newDifficulty, free)
    {
      hide DraftPlan, CapsOf, ApplyBatchScale;
      difficulty := newDifficulty;
      if vramCaps.None? {
        vramCaps := Some(CapsOf(cfg, totalVramBytes));
      }
      var caps := vramCaps.value;
      var plan := PlanCudaBatch(Request(
        totalVramBytes, free, caps.targetMib, caps.headroomMib, difficulty, cfg.referenceDifficulty,
        maxLanesCap, cfg.laneReserve, cfg.batchSize, cfg.maxBatchSize, caps.runtimeOverheadMib));
      if plan.batchPerLane <= 0 {
        replanFailed := true;
        return;
      }
      vramPlan := Some(plan);
      lanes := plan.lanes;
      plannedBatchPerLane := plan.batchPerLane;
      batchPerLane := ApplyBatchScale(plan.batchPerLane, thermalBatchScale);
      thermalHunt := FRESH;
      replanFailed := false;
    }

    method Start(totalBytes: nat, free: nat)
      modifies this
      ensures State() == AfterStart(cfg, old(State()), totalBytes, free)
    {
      if started {
        return;
      }
      totalVramBytes := totalBytes;
      vramCaps := Some(CapsOf(cfg, totalBytes));
      Replan(difficulty, free);
      if !replanFailed {
        started := true;
      }
    }

    method Stop()
      modifies this
      ensures State() == AfterStop(old(State()))
    {
      started := false;
      vramPlan := None;
    }

    method SetDifficulty(newDifficulty: int, free: nat)
      modifies this
      ensures State() == AfterSetDifficulty(cfg, old(State()), newDifficulty, free)
    {
      if newDifficulty == difficulty && started {
        return;
      }
      difficulty := newDifficulty;
      if started {
        Replan(newDifficulty, free);
      }
    }

    method ReduceLaneCap()
      modifies this
      ensures State() == AfterReduceLaneCap(old(State()))
    {
      maxLanesCap := Max(1, maxLanesCap - 1);
      lanes := Min(lanes, maxLanesCap);
    }

    method AddLaneCap()
      modifies this
      ensures State() == AfterAddLaneCap(cfg, old(State()))
    {
      if maxLanesCap >= ConfigMax(cfg) {
        return;
      }
      maxLanesCap := maxLanesCap + 1;
      lanes := Min(Max(lanes, maxLanesCap), ConfigMax(cfg));
      if vramPlan.Some? && vramPlan.value.lanes > 0 {
        lanes := Min(lanes, vramPlan.value.lanes);
      }
      lanes := Min(lanes, maxLanesCap);
    }

    method RestoreLaneCapIfCool(temp: int, memTemp: int, free: nat)
      modifies this
      ensures State() == AfterRestoreLaneCapIfCool(cfg, old(State()), temp, memTemp, free)
    {
      if maxLanesCap >= ConfigMax(cfg) {
        return;
      }
      if temp >= cfg.warnGpu {
        return;
      }
      if cfg.useMem && memTemp > 0 && memTemp >= cfg.warnMem {
        return;
      }
      maxLanesCap := ConfigMax(cfg);
      if started {
        Replan(difficulty, free);
      }
    }

    method SetThermalBatchScale(scale: real)
      modifies this
      ensures State() == AfterSetThermalBatchScale(cfg, old(State()), scale)
    {
      var wanted := ClampReal(scale, ClampReal(cfg.minScale, 0.2, 1.0), 1.0);
      if -0.005 < wanted - thermalBatchScale < 0.005 {
        return;
      }
      thermalBatchScale := wanted;
      if plannedBatchPerLane > 0 {
        batchPerLane := ApplyBatchScale(plannedBatchPerLane, wanted);
        thermalHunt := thermalHunt.(batch := batchPerLane);
      }
    }

    method UpdateThermal(r: Reading)
      modifies this
      ensures State() == AfterUpdateThermal(cfg, old(State()), r)
    {
      if !cfg.thermalEnabled || plannedBatchPerLane <= 0 {
        return;
      }
      if thermalHunt.batch <= 0 {
        var scale := ClampReal(cfg.startScale, 0.5, 1.0);
        var batch := ApplyBatchScale(plannedBatchPerLane, scale);
        thermalHunt := thermalHunt.(batch := batch, floor := batch, lastOk := batch);
        batchPerLane := batch;
        thermalBatchScale := scale;
      }
      var hunt := new HuntState();
      hunt.st := thermalHunt;
      var _ := hunt.HuntThermalScale(HuntParams(cfg, plannedBatchPerLane), r);
      thermalHunt := hunt.st;
      if thermalHunt.batch > 0 && thermalHunt.batch != batchPerLane {
        batchPerLane := thermalHunt.batch;
        thermalBatchScale := batchPerLane as real / plannedBatchPerLane as real;
      }
    }
  }

  // ---- runs ------------------------------------------------------------------------------

  function InitialState(cfg: Settings, memoryCost: int): EngineState {
    EngineState(false, memoryCost, 1, 0, 0, ConfigMax(cfg), 1.0, FRESH, None, None, 0, false)
  }

  /** Everything that can happen to the engine, with what the driver reports. */
  datatype Op =
    | OpStart(totalBytes: nat, free: nat)
    | OpStop
    | OpSetCaps(caps: Caps)
    | OpSetDifficulty(difficulty: int, free: nat)
    | OpReduceLaneCap
    | OpAddLaneCap
    | OpRestoreLaneCap(temp: int, memTemp: int, free: nat)
    | OpSetScale(scale: real)
    | OpThermal(reading: Reading)

  function Apply(cfg: Settings, s: EngineState, op: Op): EngineState {
    match op
    case OpStart(total, free) => AfterStart(cfg, s, total, free)
    case OpStop => AfterStop(s)
    case OpSetCaps(caps) => s.(caps := Some(caps))
    case OpSetDifficulty(d, free) => AfterSetDifficulty(cfg, s, d, free)
    case OpReduceLaneCap => AfterReduceLaneCap(s)
    case OpAddLaneCap => AfterAddLaneCap(cfg, s)
    case OpRestoreLaneCap(t, m, free) => AfterRestoreLaneCapIfCool(cfg, s, t, m, free)
    case OpSetScale(x) => AfterSetThermalBatchScale(cfg, s, x)
    case OpThermal(r) => AfterUpdateThermal(cfg, s, r)
  }

  function Run(cfg: Settings, s: EngineState, ops: seq<Op>): EngineState {
    if ops == [] then s else Apply(cfg, Run(cfg, s, ops[..|ops| - 1]), ops[|ops| - 1])
  }

  /** What the active plan promised, and that the mined batch has not outgrown it. */
  predicate PackSized(s: EngineState) {
    && s.maxCap >= 1 && s.lanes >= 1
    && (s.plan.Some? ==>
          var plan := s.plan.value;
          && plan.WithinLimits() && plan.lanes >= 0
          && plan.projectedUsedMib == PackBytes(plan.lanes, plan.batchPerLane, plan.difficulty) / MIB
                                      + plan.runtimeOverheadMib
          && s.lanes <= plan.lanes
          && 1 <= s.batch <= s.planned == plan.batchPerLane
          && (!s.replanFailed ==> s.difficulty == plan.difficulty))
  }

  predicate Sized(s: EngineState) {
    PackSized(s) && (s.started <==> s.plan.Some?)
  }

  /** MiB the lanes of s take when mined at the given difficulty, overhead included. */
  function UsedMib(s: EngineState, difficulty: int): int
    requires s.plan.Some? && s.lanes >= 0
  {
    PackBytes(s.lanes, s.batch, difficulty) / MIB + s.plan.value.runtimeOverheadMib
  }

  lemma {:induction false} ReplanSized(cfg: Settings, s: EngineState, difficulty: int, free: nat)
    requires PackSized(s)
    ensures var r := AfterReplan(cfg, s, difficulty, free);
            && PackSized(r) && r.started == s.started
            && (r.replanFailed ==> r.plan == s.plan) && (!r.replanFailed ==> r.plan.Some?)
  {
    var caps := if s.caps.Some? then s.caps.value else CapsOf(cfg, s.totalBytes);
    var q := ReplanRequest(cfg, s, caps, difficulty, free);
    if DraftPlan(q).batchPerLane > 0 {
      PlanWithinLimits(q);
    }
  }

  lemma ThermalSized(cfg: Settings, s: EngineState, r: Reading)
    requires Sized(s)
    ensures Sized(AfterUpdateThermal(cfg, s, r))
  {
    if cfg.thermalEnabled && s.planned > 0 {
      HuntWithinPlan(HuntParams(cfg, s.planned), SeedHunt(cfg, s).hunt, r);
    }
  }

  lemma HuntWithinPlan(p: Params, st: ThermalHunt.State, r: Reading)
    requires p.planned >= 1
    ensures 1 <= Hunt(p, st, r).0.batch <= p.planned
  {
  }

  lemma ApplySized(cfg: Settings, s: EngineState, op: Op)
    requires Sized(s)
    ensures Sized(Apply(cfg, s, op))
  {
    hide AfterReplan, AfterUpdateThermal;
    match op
    case OpStart(total, free) =>
      if !s.started {
        StartSized(cfg, s, total, free);
      }
    case OpSetDifficulty(d, free) =>
      if s.started {
        ReplanSized(cfg, s, d, free);
      }
    case OpRestoreLaneCap(t, m, free) =>
      ReplanSized(cfg, s.(maxCap := ConfigMax(cfg)), s.difficulty, free);
    case OpThermal(r) =>
      ThermalSized(cfg, s, r);
    case _ =>
  }

  lemma StartSized(cfg: Settings, s: EngineState, total: nat, free: nat)
    requires Sized(s) && !s.started
    ensures Sized(AfterStart(cfg, s, total, free))
  {
    hide AfterReplan;
    ReplanSized(cfg, s.(totalBytes := total, caps := Some(CapsOf(cfg, total))), s.difficulty, free);
  }

  lemma {:induction false} RunSized(cfg: Settings, memoryCost: int, ops: seq<Op>)
    ensures Sized(Run(cfg, InitialState(cfg, memoryCost), ops))
  {
    if ops != [] {
      RunSized(cfg, memoryCost, ops[..|ops| - 1]);
      ApplySized(cfg, Run(cfg, InitialState(cfg, memoryCost), ops[..|ops| - 1]), ops[|ops| - 1]);
    }
  }

  lemma {:induction false} PackWithinTarget(s: EngineState)
    requires Sized(s) && s.started
    ensures UsedMib(s, s.plan.value.difficulty) <= s.plan.value.targetMib
  {
    hide PackBytes;
    var plan := s.plan.value;
    PackMonotone(s.lanes, plan.lanes, s.batch, plan.batchPerLane, plan.difficulty);
  }

  /** Engine memory bound: after any run, at the difficulty its plan was made for a
      started engine's pack stays within the plan's target; and unless the last replan
      threw, that is the difficulty it mines at. */
  lemma {:induction false} EngineMemoryBound(cfg: Settings, memoryCost: int, ops: seq<Op>)
    ensures var s := Run(cfg, InitialState(cfg, memoryCost), ops);
            s.started ==>
              && s.plan.Some? && s.lanes >= 1
              && UsedMib(s, s.plan.value.difficulty) <= s.plan.value.targetMib
              && (!s.replanFailed ==> UsedMib(s, s.difficulty) <= s.plan.value.targetMib)
  {
    hide PackBytes, Apply;
    var s := Run(cfg, InitialState(cfg, memoryCost), ops);
    RunSized(cfg, memoryCost, ops);
    if s.started {
      PackWithinTarget(s);
    }
  }

  /** A lane taken away and given back: the engine is as before exactly when it was using
      every lane that its cap and its plan allow. */
  lemma LaneCapRoundTrip(cfg: Settings, s: EngineState)
    requires s.plan.Some? && s.plan.value.lanes > 0 && 2 <= s.maxCap <= ConfigMax(cfg)
    ensures AfterAddLaneCap(cfg, AfterReduceLaneCap(s)) == s <==> s.lanes == Min(s.maxCap, s.plan.value.lanes)
  {
  }

  // ---- what the settings and readings come to ------------------------------------------------------

  /** A share of a batch is the nearest whole number, a half rounded up, and at least one;
      scales count from 0 to 1. */
  lemma ScaleNearest(batch: int, scale: real)
    requires batch > 0
    ensures var n := ApplyBatchScale(batch, scale);
            var s := if scale <= 0.0 then 0.0 else if scale >= 1.0 then 1.0 else scale;
            && (n == 1 || n as real - 0.5 <= batch as real * s < n as real + 0.5)
            && (batch as real * s >= 1.5 ==> n >= 2)
  {
    var s := ClampReal(scale, 0.0, 1.0);
    ScaledInRange(batch, s);
  }

  /** n, of one to the whole batch, is the share of its own scale. */
  lemma OwnScale(batch: int, n: int)
    requires 1 <= n <= batch
    ensures ApplyBatchScale(batch, n as real / batch as real) == n
  {
    var s := n as real / batch as real;
    assert batch as real * s == n as real;
    assert 0.0 <= s <= 1.0;
  }

  /** Batch, scale and hunt agree. */
  predicate InTune(s: EngineState) {
    && (s.planned > 0 ==> s.batch == ApplyBatchScale(s.planned, s.scale))
    && (s.hunt.batch > 0 ==> s.planned > 0 && s.hunt.batch == s.batch)
    && s.hunt.batch >= 0
  }

  lemma OpInTune(cfg: Settings, s: EngineState, op: Op)
    requires InTune(s) && Sized(s)
    ensures InTune(Apply(cfg, s, op))
  {
    hide ApplyBatchScale, DraftPlan, CapsOf, ClampReal, PackSized, AfterUpdateThermal;
    match op
    case OpThermal(r) => ThermalInTune(cfg, s, r);
    case OpSetScale(scale) => hide AfterReplan;
    case _ =>
  }

  lemma ThermalInTune(cfg: Settings, s: EngineState, r: Reading)
    requires InTune(s)
    ensures InTune(AfterUpdateThermal(cfg, s, r))
  {
    if cfg.thermalEnabled && s.planned > 0 {
      var p, h := HuntParams(cfg, s.planned), SeedHunt(cfg, s).hunt;
      HuntWithinPlan(p, h, r);
      OwnScale(s.planned, Hunt(p, h, r).0.batch);
      SeedInTune(cfg, s);
      hide ApplyBatchScale, Hunt, HuntParams, SeedHunt;
    }
  }

  lemma SeedInTune(cfg: Settings, s: EngineState)
    requires InTune(s) && s.planned > 0
    ensures var t := SeedHunt(cfg, s); InTune(t) && t.planned == s.planned && t.hunt.batch == t.batch
  {
    hide ClampReal;
  }

  /** Over every run of the engine the mined batch is the planned one at the scale it
      reports, and the batch its hunt steers. */
  lemma {:induction false} BatchInTune(cfg: Settings, memoryCost: int, ops: seq<Op>)
    ensures InTune(Run(cfg, InitialState(cfg, memoryCost), ops))
  {
    if ops != [] {
      hide Apply, InTune;
      BatchInTune(cfg, memoryCost, ops[..|ops| - 1]);
      RunSized(cfg, memoryCost, ops[..|ops| - 1]);
      OpInTune(cfg, Run(cfg, InitialState(cfg, memoryCost), ops[..|ops| - 1]), ops[|ops| - 1]);
    }
  }

  /** A reading at the die's limit, two degrees past the memory target, or with the memory
      past that target while its sensor is in use, never makes the mined batch larger. */
  lemma HeatNeverRaises(cfg: Settings, s: EngineState, r: Reading)
    requires InTune(s) && RangeOk(cfg, s) && s.hunt.batch > 0
    requires || (cfg.maxGpu > 0 && r.gpu >= cfg.maxGpu && r.gpu >= 42 && r.gpu >= cfg.warnMem + 2)
             || (cfg.useMem && r.mem > 40 && r.mem > cfg.warnMem)
    requires s.hunt.lastAdjust > 0.0
    ensures AfterUpdateThermal(cfg, s, r).batch <= s.batch
  {
    if cfg.thermalEnabled {
      var p := HuntParams(cfg, s.planned);
      HotNeverRaised(p, s.hunt, r);
      HuntStep(p, s.hunt, r);
      hide Hunt, ApplyBatchScale;
    }
  }

  /** The memory limit one degree past the target is one at which the engine cuts. */
  lemma LimitCuts(cfg: Settings, s: EngineState, r: Reading)
    requires InTune(s) && InRange(HuntParams(cfg, s.planned), s.hunt) && s.hunt.batch > 0 && cfg.thermalEnabled
    requires cfg.useMem && cfg.warnMem >= 40 && r.mem == cfg.maxMem == cfg.warnMem + 1 && s.hunt.lastTemp <= r.mem + 11
    requires cfg.maxGpu <= 0 || r.gpu < cfg.maxGpu
    requires 0.0 < s.hunt.lastAdjust <= r.now - 5.0 && s.hunt.lastAdjust <= r.now - cfg.settle
    requires RoomToCut(s.hunt, GroundOf(HuntParams(cfg, s.planned), s.hunt))
    ensures AfterUpdateThermal(cfg, s, r).batch < s.batch
  {
    var p := HuntParams(cfg, s.planned);
    RecordedTemp(p, s.hunt, r);
    HuntExactly(p, s.hunt, r);
    HuntStep(p, s.hunt, r);
    hide Hunt, ApplyBatchScale;
  }

  /** One reading moves the batch up by the configured step, as far as the plan allows, and
      down to no less than the least. */
  lemma ReadingMoves(cfg: Settings, s: EngineState, r: Reading)
    requires InTune(s) && InRange(HuntParams(cfg, s.planned), s.hunt) && s.hunt.batch > 0 && cfg.thermalEnabled
    requires s.hunt.lastAdjust > 0.0
    ensures var t, step := AfterUpdateThermal(cfg, s, r), if cfg.thermalStep >= 1 then cfg.thermalStep else 1000;
            && t.planned == s.planned
            && (t.batch > s.batch ==> t.batch == s.batch + step || t.batch == s.planned < s.batch + step)
            && t.batch >= MinBatch(HuntParams(cfg, s.planned))
  {
    var p := HuntParams(cfg, s.planned);
    HuntExactly(p, s.hunt, r);
    HuntStep(p, s.hunt, r);
    ReadingBatch(cfg, s, r);
    hide Hunt, ApplyBatchScale, MinBatch, RoomToCut, Cool, Hot, AfterUpdateThermal;
  }

  lemma ReadingBatch(cfg: Settings, s: EngineState, r: Reading)
    requires InTune(s) && s.hunt.batch > 0 && cfg.thermalEnabled
    ensures var t, next := AfterUpdateThermal(cfg, s, r), Hunt(HuntParams(cfg, s.planned), s.hunt, r).0;
            t.planned == s.planned && t.batch == next.batch
  {
    HuntWithinPlan(HuntParams(cfg, s.planned), s.hunt, r);
    hide Hunt, ApplyBatchScale;
  }

  /** The least is the configured share of the planned batch, rounded. */
  lemma LeastShare(cfg: Settings, planned: int)
    requires planned > 0 && 0.0 <= cfg.minScale <= 1.0
    ensures MinBatch(HuntParams(cfg, planned)) as real > planned as real * cfg.minScale - 0.5
  {
    ScaleNearest(planned, cfg.minScale);
    ScaledInRange(planned, cfg.minScale);
    assert planned as real * cfg.minScale <= planned as real;
    hide ApplyBatchScale;
  }

  /** The scale set by hand counts from the configured least, itself at least a fifth, to
      one; a hunt is seeded with at least half the planned batch. */
  lemma ScalesTaken(cfg: Settings, s: EngineState, scale: real)
    requires s.planned > 0
    ensures var t := AfterSetThermalBatchScale(cfg, s, scale);
            || (t == s && -0.005 < t.scale - WantedScale(cfg, scale) < 0.005)
            || (t.scale == WantedScale(cfg, scale) && t.batch == t.hunt.batch == ApplyBatchScale(s.planned, t.scale)
                && (t.scale <= s.scale - 0.005 || t.scale >= s.scale + 0.005))
    ensures var w := WantedScale(cfg, scale);
            && 0.2 <= w <= 1.0 && (cfg.minScale <= 1.0 ==> w >= cfg.minScale)
            && (w == scale || (w > scale && w in {0.2, 1.0, cfg.minScale}) || w == 1.0 < scale)
    ensures var t := SeedHunt(cfg, s);
            s.hunt.batch <= 0 ==>
              && t.hunt.batch == t.hunt.floor == t.hunt.lastOk == t.batch == ApplyBatchScale(s.planned, t.scale)
              && 0.5 <= t.scale <= 1.0 && (t.scale == cfg.startScale || cfg.startScale < 0.5 == t.scale
                                           || cfg.startScale > 1.0 == t.scale)
  {
    hide ApplyBatchScale;
  }

  /** A replan that goes through: the most lanes the cap allows, the configured batch limits
      kept, the card's caps respected, and the batch at the scale set. */
  lemma ReplanExactly(cfg: Settings, s: EngineState, difficulty: int, free: nat)
    requires s.maxCap >= 1 && !AfterReplan(cfg, s, difficulty, free).replanFailed
    ensures var r := AfterReplan(cfg, s, difficulty, free);
            var caps := if s.caps.Some? then s.caps.value else ResolveCaps(s.totalBytes / 0x10_0000, cfg.caps);
            var n, d, most := r.lanes, difficulty, cfg.referenceDifficulty;
            && r.difficulty == difficulty && r.plan.Some? && r.caps == Some(caps) && r.hunt == FRESH
            && n <= s.maxCap
            && (d == 100 ==> n == s.maxCap)
            && (d != 100 && 0 < d < most ==>
                  (n > 1 ==> n * d <= most) && (n == s.maxCap || (n + 1) * d > most))
            && (d != 100 && d >= most ==> n == 1)
            && (cfg.batchSize > 0 ==> r.planned <= cfg.batchSize)
            && (cfg.maxBatchSize > 0 ==> r.planned <= cfg.maxBatchSize)
            && r.batch == ApplyBatchScale(r.planned, s.scale) && r.planned > 0
            && n >= 1 && UsedMib(r, difficulty) <= caps.targetMib
            && UsedMib(r, difficulty) + caps.headroomMib <= s.totalBytes / 0x10_0000
  {
    var caps := if s.caps.Some? then s.caps.value else CapsOf(cfg, s.totalBytes);
    var q := ReplanRequest(cfg, s, caps, difficulty, free);
    LanesExactly(q);
    BatchExactly(q);
    PlannedInside(q);
    hide MostBatch, ResolveCaps, ApplyBatchScale, LaneCount, BatchPerLane, AllowedMib, PackBytes;
    BatchAsked(q);
    assert BatchPerLane(q) > 0;
    PackShrinks(LaneCount(q), ApplyBatchScale(BatchPerLane(q), s.scale), BatchPerLane(q), difficulty);
  }

  lemma PackShrinks(lanes: nat, batch: int, planned: int, difficulty: int)
    requires 0 <= batch <= planned
    ensures PackBytes(lanes, batch, difficulty) / MIB <= PackBytes(lanes, planned, difficulty) / MIB
  {
    PackMonotone(lanes, lanes, batch, planned, difficulty);
  }

  // ---- the hunt the engine runs -------------------------------------------------------------------

  /** The hunt is in range for the parameters it is called with, or has neither had a
      reading nor been given a watermark. */
  predicate RangeOk(cfg: Settings, s: EngineState) {
    InRange(HuntParams(cfg, s.planned), s.hunt) || (s.hunt.lastAdjust <= 0.0 && s.hunt.floor <= 0)
  }

  /** The scale set_thermal_batch_scale would take over. */
  function WantedScale(cfg: Settings, scale: real): real {
    ClampReal(scale, ClampReal(cfg.minScale, 0.2, 1.0), 1.0)
  }

  /** Setting the scale is harmless: nothing is rescaled, or the hunt has no watermark
      yet, or the rescaled batch does not fall below watermark and minimum. */
  predicate ScaleFits(cfg: Settings, s: EngineState, scale: real) {
    || s.planned <= 0
    || -0.005 < WantedScale(cfg, scale) - s.scale < 0.005
    || (s.hunt.lastAdjust <= 0.0 && s.hunt.floor <= 0)
    || Max(s.hunt.floor, MinBatch(HuntParams(cfg, s.planned))) <= ApplyBatchScale(s.planned, WantedScale(cfg, scale))
  }

  lemma ThermalRange(cfg: Settings, s: EngineState, r: Reading)
    requires RangeOk(cfg, s)
    ensures RangeOk(cfg, AfterUpdateThermal(cfg, s, r))
  {
    if cfg.thermalEnabled && s.planned > 0 {
      var p, h := HuntParams(cfg, s.planned), SeedHunt(cfg, s).hunt;
      hide Hunt, HuntParams;
      if h.lastAdjust <= 0.0 {
        FirstCallInRange(p, h, r);
      } else {
        HuntStep(p, h, r);
      }
    }
  }

  /** set_thermal_batch_scale, exactly. */
  lemma ScaleRange(cfg: Settings, s: EngineState, scale: real)
    requires RangeOk(cfg, s)
    ensures RangeOk(cfg, AfterSetThermalBatchScale(cfg, s, scale)) <==> ScaleFits(cfg, s, scale)
  {
    hide ApplyBatchScale, ClampReal;
  }

  lemma ReplanRange(cfg: Settings, s: EngineState, difficulty: int, free: nat)
    requires RangeOk(cfg, s)
    ensures RangeOk(cfg, AfterReplan(cfg, s, difficulty, free))
  {
    hide HuntParams, DraftPlan, CapsOf;
  }

  lemma OpRange(cfg: Settings, s: EngineState, op: Op)
    requires RangeOk(cfg, s)
    ensures RangeOk(cfg, Apply(cfg, s, op)) <==> (op.OpSetScale? ==> ScaleFits(cfg, s, op.scale))
  {
    hide AfterReplan, AfterUpdateThermal, AfterSetThermalBatchScale, ScaleFits, InRange, HuntParams;
    match op
    case OpStart(total, free) =>
      ReplanRange(cfg, s.(totalBytes := total, caps := Some(CapsOf(cfg, total))), s.difficulty, free);
    case OpSetDifficulty(d, free) => ReplanRange(cfg, s, d, free);
    case OpRestoreLaneCap(t, m, free) => ReplanRange(cfg, s.(maxCap := ConfigMax(cfg)), s.difficulty, free);
    case OpThermal(r) => ThermalRange(cfg, s, r);
    case OpSetScale(scale) => ScaleRange(cfg, s, scale);
    case _ =>
  }

  predicate ScalesFit(cfg: Settings, s: EngineState, ops: seq<Op>) {
    forall k :: 0 <= k < |ops| ==> (ops[k].OpSetScale? ==> ScaleFits(cfg, Run(cfg, s, ops[..k]), ops[k].scale))
  }

  lemma RunNext(cfg: Settings, s: EngineState, ops: seq<Op>, k: nat)
    requires k < |ops|
    ensures Run(cfg, s, ops[..k + 1]) == Apply(cfg, Run(cfg, s, ops[..k]), ops[k])
  {
    hide Apply;
    assert ops[..k + 1][..k] == ops[..k];
  }

  lemma {:induction false} RangeUpTo(cfg: Settings, s: EngineState, ops: seq<Op>, n: nat)
    requires RangeOk(cfg, s) && n <= |ops| && ScalesFit(cfg, s, ops)
    ensures forall k :: 0 <= k <= n ==> RangeOk(cfg, Run(cfg, s, ops[..k]))
  {
    hide RangeOk, Apply, ScaleFits;
    if n > 0 {
      RangeUpTo(cfg, s, ops, n - 1);
      RunNext(cfg, s, ops, n - 1);
      OpRange(cfg, Run(cfg, s, ops[..n - 1]), ops[n - 1]);
    }
  }

  /** Over whole runs of the engine, from its construction: the hunt stays in range
      throughout exactly when every scale that is set fits; in particular whenever none
      is set. */
  lemma {:induction false} HuntRangeExactly(cfg: Settings, memoryCost: int, ops: seq<Op>)
    ensures var s := InitialState(cfg, memoryCost);
            && ((forall k :: 0 <= k <= |ops| ==> RangeOk(cfg, Run(cfg, s, ops[..k]))) <==> ScalesFit(cfg, s, ops))
            && ((forall k :: 0 <= k < |ops| ==> !ops[k].OpSetScale?) ==> ScalesFit(cfg, s, ops))
  {
    var s := InitialState(cfg, memoryCost);
    assert RangeOk(cfg, s);
    hide RangeOk, Apply, ScaleFits, InitialState;
    if ScalesFit(cfg, s, ops) {
      RangeUpTo(cfg, s, ops, |ops|);
    }
    if forall k :: 0 <= k <= |ops| ==> RangeOk(cfg, Run(cfg, s, ops[..k])) {
      forall k | 0 <= k < |ops|
        ensures ops[k].OpSetScale? ==> ScaleFits(cfg, Run(cfg, s, ops[..k]), ops[k].scale)
      {
        RunNext(cfg, s, ops, k);
        assert RangeOk(cfg, Run(cfg, s, ops[..k])) && RangeOk(cfg, Run(cfg, s, ops[..k + 1]));
        OpRange(cfg, Run(cfg, s, ops[..k]), ops[k]);
      }
    }
  }

  /** Lanes have been taken away and the card is cool enough to give them back. */
  predicate RestoresLanes(cfg: Settings, s: EngineState, temp: int, memTemp: int) {
    s.maxCap < ConfigMax(cfg) && temp < cfg.warnGpu && !(cfg.useMem && memTemp > 0 && memTemp >= cfg.warnMem)
  }

  /** Whether the operation replans, and the replan goes through. */
  predicate Replanned(cfg: Settings, s: EngineState, op: Op) {
    && !Apply(cfg, s, op).replanFailed
    && match op
       case OpStart(_, _) => !s.started
       case OpSetDifficulty(d, _) => s.started && d != s.difficulty
       case OpRestoreLaneCap(temp, memTemp, _) =>
         s.started && RestoresLanes(cfg, s, temp, memTemp)
       case _ => false
  }

  /** A replan leaves a fresh hunt on the new plan's batch. */
  lemma ReplannedMeans(cfg: Settings, s: EngineState, op: Op)
    requires Replanned(cfg, s, op)
    ensures var t := Apply(cfg, s, op);
            && t.hunt == FRESH && t.plan.Some? && t.planned == t.plan.value.batchPerLane > 0
            && t.difficulty == t.plan.value.difficulty
  {
    hide DraftPlan, CapsOf, ApplyBatchScale;
    match op
    case OpStart(total, free) =>
      PlanFor(NextRequest(cfg, s.(totalBytes := total, caps := Some(CapsOf(cfg, total))), s.difficulty, free));
    case OpSetDifficulty(d, free) => PlanFor(NextRequest(cfg, s, d, free));
    case OpRestoreLaneCap(_, _, free) =>
      PlanFor(NextRequest(cfg, s.(maxCap := ConfigMax(cfg)), s.difficulty, free));
  }

  lemma PlanFor(q: Request)
    ensures DraftPlan(q).difficulty == q.difficulty
  {
  }

  /** Neither replanned nor rescaled by hand. */
  predicate Undisturbed(cfg: Settings, s: EngineState, op: Op) {
    !op.OpSetScale? && !Replanned(cfg, s, op)
  }

  function CutBy(cfg: Settings, s: EngineState, op: Op): nat {
    if op.OpThermal? && cfg.thermalEnabled && s.planned > 0
       && Hunt(HuntParams(cfg, s.planned), SeedHunt(cfg, s).hunt, op.reading).1 == Cut then 1 else 0
  }

  function CutsIn(cfg: Settings, s: EngineState, ops: seq<Op>): nat {
    if ops == [] then 0
    else CutsIn(cfg, s, ops[..|ops| - 1]) + CutBy(cfg, Run(cfg, s, ops[..|ops| - 1]), ops[|ops| - 1])
  }

  /** The watermark, or the one the next reading will set. */
  function Watermark(cfg: Settings, s: EngineState): int {
    var h := SeedHunt(cfg, s).hunt;
    if h.floor <= 0 then ClampBatch(HuntParams(cfg, s.planned), h.batch) else h.floor
  }

  lemma UndisturbedHunt(cfg: Settings, s: EngineState, op: Op)
    requires Undisturbed(cfg, s, op) && !op.OpThermal?
    ensures Apply(cfg, s, op).hunt == s.hunt && Apply(cfg, s, op).planned == s.planned
  {
    hide DraftPlan, CapsOf;
  }

  lemma ThermalWatermark(cfg: Settings, s: EngineState, r: Reading)
    requires RangeOk(cfg, s) && s.planned > 0
    ensures var t := AfterUpdateThermal(cfg, s, r);
            && t.planned == s.planned
            && Watermark(cfg, s) + CutBy(cfg, s, OpThermal(r)) <= Watermark(cfg, t)
  {
    if cfg.thermalEnabled {
      var p, h := HuntParams(cfg, s.planned), SeedHunt(cfg, s).hunt;
      if h.lastAdjust <= 0.0 {
        FirstCallInRange(p, h, r);
      } else {
        hide Hunt;
        HuntStep(p, h, r);
      }
    }
  }

  lemma WatermarkInPlan(cfg: Settings, s: EngineState)
    requires RangeOk(cfg, s) && s.planned > 0
    ensures 1 <= Watermark(cfg, s) <= s.planned
  {
  }

  lemma OpWatermark(cfg: Settings, s: EngineState, op: Op)
    requires RangeOk(cfg, s) && s.planned > 0 && Undisturbed(cfg, s, op)
    ensures var t := Apply(cfg, s, op);
            && t.planned == s.planned && RangeOk(cfg, t)
            && Watermark(cfg, s) + CutBy(cfg, s, op) <= Watermark(cfg, t)
  {
    OpRange(cfg, s, op);
    if op.OpThermal? {
      ThermalWatermark(cfg, s, op.reading);
    } else {
      UndisturbedHunt(cfg, s, op);
      hide Apply;
      SameWatermark(cfg, s, Apply(cfg, s, op));
    }
  }

  lemma SameWatermark(cfg: Settings, s: EngineState, t: EngineState)
    requires s.hunt == t.hunt && s.planned == t.planned
    ensures Watermark(cfg, s) == Watermark(cfg, t)
  {
  }

  lemma FreshWatermark(cfg: Settings, s: EngineState)
    requires s.planned > 0 && s.hunt == FRESH
    ensures Watermark(cfg, s) == ApplyBatchScale(s.planned, ClampReal(cfg.startScale, 0.5, 1.0))
  {
  }

  /** Between two replans the engine's own hunt makes at most as many cuts as its
      watermark rises, so at most planned minus the watermark it was seeded with. */
  lemma {:induction false} EngineCutsBounded(cfg: Settings, s: EngineState, ops: seq<Op>)
    requires RangeOk(cfg, s) && s.planned > 0
    requires forall k :: 0 <= k < |ops| ==> Undisturbed(cfg, Run(cfg, s, ops[..k]), ops[k])
    ensures var t := Run(cfg, s, ops);
            && t.planned == s.planned && RangeOk(cfg, t)
            && CutsIn(cfg, s, ops) <= Watermark(cfg, t) - Watermark(cfg, s) <= s.planned - Watermark(cfg, s)
    ensures s.hunt == FRESH ==> Watermark(cfg, s) == ApplyBatchScale(s.planned, ClampReal(cfg.startScale, 0.5, 1.0))
  {
    if s.hunt == FRESH {
      FreshWatermark(cfg, s);
    }
    hide RangeOk, Apply, Undisturbed, Watermark, CutBy;
    if ops != [] {
      var n := |ops| - 1;
      var front := ops[..n];
      forall k | 0 <= k < n
        ensures Undisturbed(cfg, Run(cfg, s, front[..k]), front[k])
      {
        assert front[..k] == ops[..k];
      }
      EngineCutsBounded(cfg, s, front);
      OpWatermark(cfg, Run(cfg, s, front), ops[n]);
    }
    WatermarkInPlan(cfg, Run(cfg, s, ops));
  }

  // ---- the bound across a replan that may throw ------------------------------------------------

  /** The plan request a replan at this difficulty makes. */
  function NextRequest(cfg: Settings, s: EngineState, difficulty: int, free: nat): Request {
    ReplanRequest(cfg, s, if s.caps.Some? then s.caps.value else CapsOf(cfg, s.totalBytes), difficulty, free)
  }

  /** The bound at the difficulty actually mined. */
  predicate WithinTarget(s: EngineState)
    requires s.plan.Some? && s.lanes >= 0
  {
    UsedMib(s, s.difficulty) <= s.plan.value.targetMib
  }

  /** What can be asked before replanning: does one attempt fit a lane's budget, or, since
      a replan that throws leaves the old batch running, does that still fit? */
  predicate ReplanSafe(cfg: Settings, s: EngineState, difficulty: int, free: nat)
    requires s.plan.Some? && s.lanes >= 0
  {
    var q := NextRequest(cfg, s, difficulty, free);
    || (difficulty > 0 && MilliBytesPerAttempt(difficulty) <= 1000 * PerLaneBudget(q))
    || UsedMib(s, difficulty) <= s.plan.value.targetMib
  }

  /** A replan keeps the bound exactly when it was safe to begin with. */
  lemma {:induction false} ReplanBound(cfg: Settings, s: EngineState, difficulty: int, free: nat)
    requires Sized(s) && s.started
    ensures var r := AfterReplan(cfg, s, difficulty, free);
            && r.plan.Some? && r.lanes >= 0
            && (WithinTarget(r) <==> ReplanSafe(cfg, s, difficulty, free))
            && (r.replanFailed <==> BatchPerLane(NextRequest(cfg, s, difficulty, free)) <= 0)
  {
    hide PackBytes, BatchPerLane, PerLaneBudget, MilliBytesPerAttempt;
    var r := AfterReplan(cfg, s, difficulty, free);
    RoomForOne(NextRequest(cfg, s, difficulty, free));
    ReplanSized(cfg, s, difficulty, free);
    if !r.replanFailed {
      PackWithinTarget(r);
    }
  }

  /** set_difficulty, over every run that ends in a started engine: afterwards the mined
      batch is within the plan's target exactly when one attempt at the new difficulty
      fits a lane's budget, or the batch already running fits at the new difficulty. */
  lemma {:induction false} SetDifficultyBound(cfg: Settings, memoryCost: int, ops: seq<Op>, difficulty: int, free: nat)
    ensures var s := Run(cfg, InitialState(cfg, memoryCost), ops);
            var r := Run(cfg, InitialState(cfg, memoryCost), ops + [OpSetDifficulty(difficulty, free)]);
            s.started && s.difficulty != difficulty ==>
              && s.plan.Some? && s.lanes >= 0 && r.plan.Some? && r.lanes >= 0
              && (WithinTarget(r) <==> ReplanSafe(cfg, s, difficulty, free))
  {
    hide ReplanSafe, WithinTarget, AfterReplan, PackSized;
    var s := Run(cfg, InitialState(cfg, memoryCost), ops);
    RunSized(cfg, memoryCost, ops);
    RunSnoc(cfg, memoryCost, ops, OpSetDifficulty(difficulty, free));
    if s.started {
      StartedHasPlan(s);
      ReplanBound(cfg, s, difficulty, free);
    }
  }

  /** restore_lane_cap_if_cool, when it does replan: the same, for the raised lane cap and
      the difficulty mined so far. */
  lemma {:induction false} RestoreBound(cfg: Settings, memoryCost: int, ops: seq<Op>, temp: int, memTemp: int,
                                        free: nat)
    ensures var s := Run(cfg, InitialState(cfg, memoryCost), ops);
            var r := Run(cfg, InitialState(cfg, memoryCost), ops + [OpRestoreLaneCap(temp, memTemp, free)]);
            s.started && RestoresLanes(cfg, s, temp, memTemp) ==>
              && s.plan.Some? && s.lanes >= 0 && r.plan.Some? && r.lanes >= 0
              && (WithinTarget(r) <==> ReplanSafe(cfg, s.(maxCap := ConfigMax(cfg)), s.difficulty, free))
  {
    hide ReplanSafe, WithinTarget, AfterReplan;
    var s := Run(cfg, InitialState(cfg, memoryCost), ops);
    RunSized(cfg, memoryCost, ops);
    RunSnoc(cfg, memoryCost, ops, OpRestoreLaneCap(temp, memTemp, free));
    if s.started {
      StartedHasPlan(s);
      ReplanBound(cfg, s.(maxCap := ConfigMax(cfg)), s.difficulty, free);
    }
  }

  lemma StartedHasPlan(s: EngineState)
    requires Sized(s) && s.started
    ensures s.plan.Some? && s.lanes >= 0
  {
  }

  lemma RunSnoc(cfg: Settings, memoryCost: int, ops: seq<Op>, op: Op)
    ensures Run(cfg, InitialState(cfg, memoryCost), ops + [op])
            == Apply(cfg, Run(cfg, InitialState(cfg, memoryCost), ops), op)
  {
    hide Apply;
    assert (ops + [op])[..|ops|] == ops;
  }

  /** An 8 GiB card given over to mining whole, with eight lanes. */
  const WHOLE_CARD := CapSettings(100.0, 0.0, 100.0, 0.0, 0.0, 0, 0, 0, 0, 0, 0, 0)
  const EIGHT_LANES := Settings(WHOLE_CARD, 0, 8, 0, 0, 0, false, 1.0, 1.0, false, 0, 0, 0, 0, 1, 5.0)
  const CARD_BYTES: nat := 8192 * MIB

  predicate OnEightGiB(cfg: Settings) {
    && cfg.caps == WHOLE_CARD && cfg.maxLanes == 8
    && cfg.referenceDifficulty == 0 && cfg.batchSize == 0 && cfg.maxBatchSize == 0
  }

  /** Started at cost 100 the card takes 10475 attempts on each of eight lanes. */
  lemma StartedOnEightGiB(cfg: Settings)
    requires OnEightGiB(cfg)
    ensures var s := AfterStart(cfg, InitialState(cfg, 100), CARD_BYTES, CARD_BYTES);
            && s.started && !s.replanFailed && s.difficulty == 100
            && s.lanes == 8 && s.batch == s.planned == 10475 && s.scale == 1.0 && s.hunt == FRESH
            && s.caps == Some(Caps(8192, 8192, 0, 8192, 0, 0)) && s.totalBytes == CARD_BYTES && s.maxCap == 8
            && s.plan.Some? && s.plan.value.targetMib == 8192 && s.plan.value.runtimeOverheadMib == 0
  {
    var s0 := InitialState(cfg, 100);
    var caps := Caps(8192, 8192, 0, 8192, 0, 0);
    assert Share(8192, 100.0) == 8192 && Share(8192, 0.0) == 0;
    assert CapsOf(cfg, CARD_BYTES) == caps;
    var q := ReplanRequest(cfg, s0.(totalBytes := CARD_BYTES), caps, 100, CARD_BYTES);
    assert AllowedMib(q) == 8192 && LaneCount(q) == 8 && PerLaneBudget(q) == 1024 * MIB;
    assert BatchPerLane(q) == 10475;
    assert ApplyBatchScale(10475, 1.0) == 10475;
  }

  /** set_difficulty stores the new difficulty before it replans. Planned for cost 100 and
      then set to 10,000,000, the most a poll may report, the replan throws and the old
      batch is mined at the new cost, far beyond the target. A second call with the same
      difficulty returns at once and repairs nothing. */
  lemma FailedReplanBreaksBound()
    ensures var ops := [OpStart(CARD_BYTES, CARD_BYTES), OpSetDifficulty(10_000_000, CARD_BYTES)];
            var s := Run(EIGHT_LANES, InitialState(EIGHT_LANES, 100), ops);
            && s.started && s.replanFailed && s.plan.Some? && s.lanes >= 0
            && !WithinTarget(s)
            && Apply(EIGHT_LANES, s, OpSetDifficulty(10_000_000, CARD_BYTES)) == s
  {
    var s0 := InitialState(EIGHT_LANES, 100);
    StartedOnEightGiB(EIGHT_LANES);
    var s1 := AfterStart(EIGHT_LANES, s0, CARD_BYTES, CARD_BYTES);
    var q := NextRequest(EIGHT_LANES, s1, 10_000_000, CARD_BYTES);
    assert PerLaneBudget(q) == 8192 * MIB && BatchPerLane(q) == 0;
    var s2 := AfterSetDifficulty(EIGHT_LANES, s1, 10_000_000, CARD_BYTES);
    assert s2 == s1.(difficulty := 10_000_000, replanFailed := true);
    var ops := [OpStart(CARD_BYTES, CARD_BYTES), OpSetDifficulty(10_000_000, CARD_BYTES)];
    assert ops[..1] == [OpStart(CARD_BYTES, CARD_BYTES)] && ops[..1][..0] == [];
    assert Run(EIGHT_LANES, s0, ops[..1]) == s1;
  }

  const HUNTING := EIGHT_LANES.(thermalEnabled := true, minScale := 0.2, thermalStep := 100)

  /** One reading seeds the hunt at the whole batch, 10475; a scale of 0.2 set by hand then
      puts the batch at 2095, below the watermark and out of range. */
  lemma ScaleBreaksRange()
    ensures var ops := [OpStart(CARD_BYTES, CARD_BYTES), OpThermal(Reading(60, 0, 1.0)), OpSetScale(0.2)];
            var s := Run(HUNTING, InitialState(HUNTING, 100), ops);
            s.hunt.batch == 2095 < s.hunt.floor == 10475 && !RangeOk(HUNTING, s)
  {
    var s0 := InitialState(HUNTING, 100);
    StartedOnEightGiB(HUNTING);
    var s1 := AfterStart(HUNTING, s0, CARD_BYTES, CARD_BYTES);
    assert ApplyBatchScale(10475, 1.0) == 10475 && ApplyBatchScale(10475, 0.2) == 2095;
    var s2 := AfterUpdateThermal(HUNTING, s1, Reading(60, 0, 1.0));
    assert s2.hunt.batch == s2.hunt.floor == 10475 && s2.planned == 10475 && s2.scale == 1.0;
    var ops := [OpStart(CARD_BYTES, CARD_BYTES), OpThermal(Reading(60, 0, 1.0)), OpSetScale(0.2)];
    assert ops[..2][..1] == [OpStart(CARD_BYTES, CARD_BYTES)] && ops[..1][..0] == [];
    assert Run(HUNTING, s0, ops[..2][..1]) == s1;
    assert Run(HUNTING, s0, ops[..2]) == s2;
  }
}
