/** Sizing a CUDA batch: `resolve_vram_caps`, `plan_cuda_batch` and its helpers.
    The source's factor 1.001 is the exact rational 1001/1000, so one attempt takes
    difficulty * 1024 * 1.001 bytes = difficulty * 1025024 thousandths of a byte. */
module VramPlan {
  import opened Hits

  const MIB: nat := 1024 * 1024
  const ENGINE_RESERVE: nat := 100 * 1024 * 1024
  const MILLIBYTES_PER_COST: nat := 1025024
  const HARVEST_DIFFICULTY: int := 100

  /** `CudaVramPlan`. */
  datatype Plan = Plan(
    batchSize: int, lanes: int, batchPerLane: int, laneReserve: int,
    budgetBytes: nat, budgetMib: int, batchVramBytes: nat, batchVramMib: int,
    usedBeforeMib: int, projectedUsedMib: int, projectedHeadroomMib: int,
    runtimeOverheadMib: int, targetMib: int, effectiveTargetMib: int,
    desktopHeadroomMib: int, difficulty: int)
  {
    predicate WithinLimits() {
      projectedUsedMib <= targetMib && projectedHeadroomMib >= desktopHeadroomMib
    }
  }

  /** bytes_per_attempt, in thousandths of a byte. */
  function MilliBytesPerAttempt(difficulty: int): int {
    difficulty * MILLIBYTES_PER_COST
  }

  function CudaLaneCount(difficulty: int, referenceDifficulty: int, maxLanes: int): (n: int)
    ensures 1 <= n <= Max(1, maxLanes)
  {
    if maxLanes <= 1 || difficulty <= 0 then 1
    else if difficulty == HARVEST_DIFFICULTY then Max(1, maxLanes)
    else if referenceDifficulty <= 0 || difficulty >= referenceDifficulty then 1
    else Max(1, Min(maxLanes, referenceDifficulty / difficulty))
  }

  function EstimateBatchVramBytes(batchSize: int, difficulty: int): nat {
    if batchSize <= 0 || difficulty <= 0 then 0
    else
      MulNonNegative(batchSize, MilliBytesPerAttempt(difficulty));
      (batchSize * MilliBytesPerAttempt(difficulty)) / 1000
  }

  function MemoryLimitedBatchSize(freeBytes: nat, difficulty: int, reserve: nat): (n: nat) {
    if difficulty <= 0 || freeBytes <= reserve then 0
    else ((freeBytes - reserve) * 1000) / MilliBytesPerAttempt(difficulty)
  }

  /** select_batch_size; its small-difficulty tuning applies only when the cap is not
      to be filled, which no caller asks for. */
  function SelectBatchSize(budgetBytes: nat, difficulty: int, explicitMax: int, fillCap: bool): int {
    var limit := MemoryLimitedBatchSize(budgetBytes + ENGINE_RESERVE, difficulty, ENGINE_RESERVE);
    if limit <= 0 then 0
    else if explicitMax > 0 then Min(limit, explicitMax)
    else
      var tuned := if fillCap then 0 else if difficulty <= 1 then 2048 else if difficulty <= 8 then 4096
                   else if difficulty <= 64 then 3072 else 0;
      if tuned > 0 then Min(limit, tuned) else limit
  }

  /** The byte count `project` computes for a pack. */
  function PackBytes(lanes: nat, batch: int, difficulty: int): nat {
    EstimateBatchVramBytes(batch, difficulty) * lanes
  }

  // ---- clamp_plan_to_caps --------------------------------------------------------------

  /** The candidate pack (lanes, batch) filled into a plan. */
  function Project(plan: Plan, totalMib: int, lanes: nat, batch: int): Plan {
    var bytes := PackBytes(lanes, batch, plan.difficulty);
    var mib := bytes / MIB;
    var used := mib + plan.runtimeOverheadMib;
    plan.(batchSize := batch, lanes := lanes, batchPerLane := batch, batchVramBytes := bytes,
          batchVramMib := mib, projectedUsedMib := used, projectedHeadroomMib := Max(0, totalMib - used))
  }

  function ShrinkBatch(batch: int): (b: int)
    requires batch > 1
    ensures 1 <= b < batch
    ensures b == 1 || 100 * b <= 98 * batch < 100 * (b + 1)
  {
    Max(1, batch * 98 / 100)
  }

  /** First batch tried after dropping to this many lanes. */
  function RefillBatch(plan: Plan, lanes: nat): int
    requires lanes >= 1
  {
    SelectBatchSize(Max(1, plan.budgetBytes / lanes), plan.difficulty, 0, true)
  }

  /** The search without any bound on the number of steps: it shrinks the batch to 1,
      then drops a lane and refills. (lanes, batch) falls lexicographically. */
  function ClampSearch(plan: Plan, totalMib: int, lanes: nat, batch: int): (r: Plan)
    ensures r == plan || r.WithinLimits()
    decreases lanes, batch
  {
    var candidate := Project(plan, totalMib, lanes, batch);
    if candidate.WithinLimits() then candidate
    else if batch > 1 then ClampSearch(plan, totalMib, lanes, ShrinkBatch(batch))
    else if lanes > 1 then ClampSearch(plan, totalMib, lanes - 1, RefillBatch(plan, lanes - 1))
    else plan
  }

  /** How many candidates that search looks at. */
  function ClampSteps(plan: Plan, totalMib: int, lanes: nat, batch: int): (n: nat)
    ensures n >= 1
    decreases lanes, batch
  {
    if Project(plan, totalMib, lanes, batch).WithinLimits() then 1
    else if batch > 1 then 1 + ClampSteps(plan, totalMib, lanes, ShrinkBatch(batch))
    else if lanes > 1 then 1 + ClampSteps(plan, totalMib, lanes - 1, RefillBatch(plan, lanes - 1))
    else 1
  }

  const CLAMP_STEPS: nat := 10000

  /** clamp_plan_to_caps as written: a plan within limits is kept; any other is replaced
      by what the unbounded search finds, if that takes at most 10000 candidates, and
      otherwise returned as it is. */
  method ClampPlanToCaps(plan: Plan) returns (r: Plan)
    requires plan.lanes >= 1
    ensures var total := plan.projectedUsedMib + plan.projectedHeadroomMib;
            r == if plan.WithinLimits() || ClampSteps(plan, total, plan.lanes, plan.batchPerLane) > CLAMP_STEPS
                 then plan
                 else ClampSearch(plan, total, plan.lanes, plan.batchPerLane)
    ensures r == plan || r.WithinLimits()
  {
    hide Project;
    if plan.WithinLimits() {
      return plan;
    }
    var totalMib := plan.projectedUsedMib + plan.projectedHeadroomMib;
    var lanes: nat, batch := plan.lanes, plan.batchPerLane;
    for i := 0 to CLAMP_STEPS
      invariant lanes >= 1
      invariant i + ClampSteps(plan, totalMib, lanes, batch)
                == ClampSteps(plan, totalMib, plan.lanes, plan.batchPerLane)
      invariant ClampSearch(plan, totalMib, lanes, batch)
                == ClampSearch(plan, totalMib, plan.lanes, plan.batchPerLane)
    {
      var candidate := Project(plan, totalMib, lanes, batch);
      if candidate.WithinLimits() {
        return candidate;
      }
      if batch > 1 {
        batch := ShrinkBatch(batch);
        continue;
      }
      if lanes > 1 {
        lanes := lanes - 1;
        batch := RefillBatch(plan, lanes);
        continue;
      }
      break;
    }
    return plan;
  }

  // ---- plan_cuda_batch -------------------------------------------------------------------

  datatype Request = Request(
    totalBytes: nat, freeBytes: nat, targetMib: int, desktopHeadroomMib: int, difficulty: int,
    referenceDifficulty: int, maxLanes: int, laneReserve: int, explicitBatch: int,
    explicitMaxBatch: int, runtimeOverheadMib: int)

  function AllowedMib(q: Request): nat {
    Min(Max(0, q.targetMib - q.runtimeOverheadMib),
        Max(0, q.totalBytes / MIB - q.desktopHeadroomMib - q.runtimeOverheadMib))
  }

  function LaneCount(q: Request): (n: nat)
    ensures n >= 1
  {
    CudaLaneCount(q.difficulty, q.referenceDifficulty, Max(1, q.maxLanes))
  }

  function PerLaneBudget(q: Request): nat {
    Max(1, AllowedMib(q) * MIB / LaneCount(q))
  }

  function BatchPerLane(q: Request): int {
    var most := SelectBatchSize(PerLaneBudget(q), q.difficulty, q.explicitMaxBatch, true);
    if most <= 0 then 0 else if q.explicitBatch > 0 then Min(q.explicitBatch, most) else most
  }

  /** The plan as assembled, before clamping. */
  function DraftPlan(q: Request): Plan {
    var lanes, batch, totalMib := LaneCount(q), BatchPerLane(q), q.totalBytes / MIB;
    var bytes := PackBytes(lanes, batch, q.difficulty);
    var used := bytes / MIB + q.runtimeOverheadMib;
    Plan(batch, lanes, batch, Max(0, q.laneReserve), AllowedMib(q) * MIB, AllowedMib(q), bytes, bytes / MIB,
         Max(0, (q.totalBytes - q.freeBytes) / MIB), used, Max(0, totalMib - used),
         q.runtimeOverheadMib, q.targetMib, q.targetMib, q.desktopHeadroomMib, q.difficulty)
  }

  /** The clamp turns out to change no plan the planner drafts, so the drafted plan is
      the returned one. */
  method PlanCudaBatch(q: Request) returns (plan: Plan)
    ensures plan == DraftPlan(q)
    ensures MostLanes(q, plan.lanes) && MostBudget(q, plan.budgetMib) && MostBatch(q, plan)
  {
    plan := ClampPlanToCaps(DraftPlan(q));
    DraftIsClamped(q);
    LanesExactly(q);
    BudgetExactly(q);
    BatchExactly(q);
  }

  // ---- what is planned, without the formulas ---------------------------------------------

  /** All lanes in harvest, at difficulty 100; below the reference difficulty as many as
      keep their joint difficulty within it; otherwise one. */
  ghost predicate MostLanes(q: Request, lanes: int) {
    if q.maxLanes <= 1 then lanes == 1
    else if q.difficulty == 100 then lanes == q.maxLanes
    else if 0 < q.difficulty < q.referenceDifficulty then
      && lanes <= q.maxLanes && lanes * q.difficulty <= q.referenceDifficulty
      && forall n :: n <= q.maxLanes && n * q.difficulty <= q.referenceDifficulty ==> n <= lanes
    else lanes == 1
  }

  predicate Allowed(q: Request, mib: int) {
    mib + q.runtimeOverheadMib <= q.targetMib
    && mib + q.runtimeOverheadMib + q.desktopHeadroomMib <= q.totalBytes / 0x10_0000
  }

  /** The most that stays under the target and leaves the headroom; nothing if even
      nothing does not. */
  ghost predicate MostBudget(q: Request, mib: int) {
    && mib >= 0
    && (mib > 0 ==> Allowed(q, mib))
    && !Allowed(q, mib + 1)
  }

  /** n attempts of 1024 * 1.001 bytes per unit of difficulty, in these many bytes. */
  predicate FitIn(n: int, difficulty: int, bytes: nat) {
    (n * difficulty) as real * 1024.0 * 1.001 <= bytes as real
  }

  predicate Asked(q: Request, n: int) {
    (q.explicitBatch > 0 ==> n <= q.explicitBatch) && (q.explicitMaxBatch > 0 ==> n <= q.explicitMaxBatch)
  }

  /** The most attempts a lane's even share of the budget holds, up to what was asked for. */
  ghost predicate MostBatch(q: Request, plan: Plan)
    requires plan.lanes > 0 && plan.budgetMib >= 0
  {
    var share := plan.budgetMib * 0x10_0000 / plan.lanes;
    && plan.batchSize == plan.batchPerLane >= 0
    && (plan.batchPerLane > 0 ==>
          q.difficulty > 0 && FitIn(plan.batchPerLane, q.difficulty, share) && Asked(q, plan.batchPerLane))
    && (q.difficulty > 0 ==>
          forall n :: n > 0 && FitIn(n, q.difficulty, share) && Asked(q, n) ==> n <= plan.batchPerLane)
  }

  lemma LanesExactly(q: Request)
    ensures MostLanes(q, LaneCount(q))
  {
    var d, most, lanes := q.difficulty, q.referenceDifficulty, LaneCount(q);
    if q.maxLanes > 1 && d != 100 && 0 < d < most {
      FloorBounds(most, d);
      assert most / d >= 1;
      MulMonotone(lanes, most / d, d);
      forall n | n <= q.maxLanes && n * d <= most
        ensures n <= lanes
      {
        if n > most / d {
          MulMonotone(most / d + 1, n, d);
        }
      }
    }
  }

  lemma BudgetExactly(q: Request)
    ensures MostBudget(q, AllowedMib(q))
  {
  }

  lemma FitIs(n: int, difficulty: int, bytes: nat)
    ensures FitIn(n, difficulty, bytes) <==> n * MilliBytesPerAttempt(difficulty) <= bytes * 1000
  {
    assert n * (difficulty * MILLIBYTES_PER_COST) == n * difficulty * MILLIBYTES_PER_COST;
  }

  /** The floor of one byte per lane is no room for an attempt either. */
  lemma FloorOfOne(n: int, q: Request)
    requires n > 0 && q.difficulty > 0
    ensures FitIn(n, q.difficulty, PerLaneBudget(q)) <==> FitIn(n, q.difficulty, AllowedMib(q) * MIB / LaneCount(q))
  {
    FitIs(n, q.difficulty, PerLaneBudget(q));
    FitIs(n, q.difficulty, AllowedMib(q) * MIB / LaneCount(q));
    MulMonotone(1, n, MilliBytesPerAttempt(q.difficulty));
  }

  lemma BatchExactly(q: Request)
    ensures MostBatch(q, DraftPlan(q))
  {
    var batch, d := BatchPerLane(q), q.difficulty;
    if d > 0 {
      var limit := MemoryLimitedBatchSize(PerLaneBudget(q) + ENGINE_RESERVE, d, ENGINE_RESERVE);
      LimitIsTight(PerLaneBudget(q), d);
      if batch > 0 {
        MulMonotone(batch, limit, MilliBytesPerAttempt(d));
        FitIs(batch, d, PerLaneBudget(q));
        FloorOfOne(batch, q);
      }
      forall n | n > 0 && FitIn(n, d, AllowedMib(q) * MIB / LaneCount(q)) && Asked(q, n)
        ensures n <= batch
      {
        FloorOfOne(n, q);
        FitIs(n, d, PerLaneBudget(q));
        if n > limit {
          MulMonotone(limit + 1, n, MilliBytesPerAttempt(d));
        }
      }
    }
  }

  /** The bytes counted for a pack: for each lane its attempts' bytes, rounded down. */
  lemma PackExactly(lanes: nat, batch: int, difficulty: int)
    requires batch > 0 && difficulty > 0
    ensures var e := EstimateBatchVramBytes(batch, difficulty);
            && PackBytes(lanes, batch, difficulty) == e * lanes
            && e as real <= (batch * difficulty) as real * 1024.0 * 1.001 < e as real + 1.0
  {
    var p := batch * difficulty;
    assert batch * MilliBytesPerAttempt(difficulty) == p * MILLIBYTES_PER_COST;
    FloorBounds(p * MILLIBYTES_PER_COST, 1000);
  }

  lemma BatchAsked(q: Request)
    ensures BatchPerLane(q) > 0 ==> Asked(q, BatchPerLane(q))
  {
    BatchExactly(q);
  }

  /** A plan with attempts keeps to the target and to the headroom of the whole card. */
  lemma PlannedInside(q: Request)
    requires BatchPerLane(q) > 0
    ensures var mib := PackBytes(LaneCount(q), BatchPerLane(q), q.difficulty) / MIB;
            Allowed(q, mib)
  {
    PackFits(q);
    BudgetExactly(q);
    BatchFits(q);
    MulMonotone(1, BatchPerLane(q), MilliBytesPerAttempt(q.difficulty));
    hide PackBytes;
    FloorBounds(PackBytes(LaneCount(q), BatchPerLane(q), q.difficulty), MIB);
  }

  // ---- nonlinear helpers -----------------------------------------------------------------

  lemma MulNonNegative(a: int, b: int)
    requires a >= 0 && b >= 0
    ensures a * b >= 0
  {
  }

  lemma MulMonotone(a: int, b: int, c: int)
    requires a <= b && c >= 0
    ensures a * c <= b * c
  {
    MulNonNegative(b - a, c);
    assert (b - a) * c == b * c - a * c;
  }

  lemma FloorBounds(x: nat, d: nat)
    requires d > 0
    ensures d * (x / d) <= x < d * (x / d) + d
  {
  }

  /** The floor brackets the exact quotient: batch fits, one more does not. */
  lemma LimitIsTight(budget: nat, difficulty: int)
    requires difficulty > 0
    ensures var n := MemoryLimitedBatchSize(budget + ENGINE_RESERVE, difficulty, ENGINE_RESERVE);
            n * MilliBytesPerAttempt(difficulty) <= budget * 1000
            && (n + 1) * MilliBytesPerAttempt(difficulty) > budget * 1000
  {
    var d := MilliBytesPerAttempt(difficulty);
    if budget > 0 {
      FloorBounds(budget * 1000, d);
    }
  }

  /** A lane gets any attempt at all exactly when one attempt fits its budget. */
  lemma RoomForOne(q: Request)
    ensures BatchPerLane(q) > 0
            <==> q.difficulty > 0 && MilliBytesPerAttempt(q.difficulty) <= PerLaneBudget(q) * 1000
  {
    if q.difficulty > 0 {
      var d := MilliBytesPerAttempt(q.difficulty);
      var limit := MemoryLimitedBatchSize(PerLaneBudget(q) + ENGINE_RESERVE, q.difficulty, ENGINE_RESERVE);
      LimitIsTight(PerLaneBudget(q), q.difficulty);
      if limit > 0 {
        MulMonotone(1, limit, d);
      }
    }
  }

  lemma BatchFits(q: Request)
    requires BatchPerLane(q) > 0
    ensures q.difficulty > 0
    ensures BatchPerLane(q) * MilliBytesPerAttempt(q.difficulty) <= PerLaneBudget(q) * 1000
  {
    var d := MilliBytesPerAttempt(q.difficulty);
    var limit := MemoryLimitedBatchSize(PerLaneBudget(q) + ENGINE_RESERVE, q.difficulty, ENGINE_RESERVE);
    LimitIsTight(PerLaneBudget(q), q.difficulty);
    MulMonotone(BatchPerLane(q), limit, d);
  }

  /** A batch of at least one attempt needs a real budget, so the floor of one byte
      per lane never applies and the whole pack stays inside the budget. */
  lemma PackFits(q: Request)
    requires BatchPerLane(q) > 0
    ensures PackBytes(LaneCount(q), BatchPerLane(q), q.difficulty) <= AllowedMib(q) * MIB
  {
    BatchFits(q);
    var batch, d, lanes, per := BatchPerLane(q), MilliBytesPerAttempt(q.difficulty), LaneCount(q), PerLaneBudget(q);
    MulMonotone(1, batch, d);
    assert per * 1000 >= d >= MILLIBYTES_PER_COST;
    assert per == AllowedMib(q) * MIB / lanes;
    FloorBounds(AllowedMib(q) * MIB, lanes);
    assert EstimateBatchVramBytes(batch, q.difficulty) <= per;
    MulMonotone(EstimateBatchVramBytes(batch, q.difficulty), per, lanes);
  }

  /** Planner safety: a plan with room for any attempt at all respects the limits. */
  lemma PlanWithinLimits(q: Request)
    requires DraftPlan(q).batchPerLane > 0
    ensures DraftPlan(q).WithinLimits()
  {
    PackFits(q);
    var plan := DraftPlan(q);
    assert plan.batchVramMib <= AllowedMib(q) by {
      FloorBounds(plan.batchVramBytes, MIB);
    }
    assert AllowedMib(q) > 0 by {
      BatchFits(q);
      MulMonotone(1, BatchPerLane(q), MilliBytesPerAttempt(q.difficulty));
    }
  }

  /** And wastes nothing: without explicit limits one more attempt per lane would
      exceed the lane's share of the budget (in exact, unrounded bytes). */
  lemma PlanIsMaximal(q: Request)
    requires q.explicitBatch <= 0 && q.explicitMaxBatch <= 0 && q.difficulty > 0
    ensures (DraftPlan(q).batchPerLane + 1) * MilliBytesPerAttempt(q.difficulty) > PerLaneBudget(q) * 1000
  {
    LimitIsTight(PerLaneBudget(q), q.difficulty);
  }

  /** With no attempt planned the draft uses only the runtime overhead; every candidate
      of the clamp's search uses at least that, so none can do better. */
  lemma {:induction false} SearchCannotHelp(plan: Plan, totalMib: int, lanes: nat, batch: int)
    requires plan.runtimeOverheadMib > plan.targetMib
             || Max(0, totalMib - plan.runtimeOverheadMib) < plan.desktopHeadroomMib
    ensures ClampSearch(plan, totalMib, lanes, batch) == plan
    decreases lanes, batch
  {
    if batch > 1 {
      SearchCannotHelp(plan, totalMib, lanes, ShrinkBatch(batch));
    } else if lanes > 1 {
      SearchCannotHelp(plan, totalMib, lanes - 1, RefillBatch(plan, lanes - 1));
    }
  }

  lemma PackMonotone(lanes: nat, lanes': nat, batch: int, batch': int, difficulty: int)
    requires lanes <= lanes' && 0 <= batch <= batch'
    ensures PackBytes(lanes, batch, difficulty) <= PackBytes(lanes', batch', difficulty)
  {
    if difficulty > 0 && batch > 0 {
      MulMonotone(batch, batch', MilliBytesPerAttempt(difficulty));
    }
    var e, e' := EstimateBatchVramBytes(batch, difficulty), EstimateBatchVramBytes(batch', difficulty);
    assert e <= e';
    MulMonotone(e, e', lanes);
    MulMonotone(lanes, lanes', e');
  }

  /** Fewer bytes fit wherever more do. */
  lemma FitsMonotone(plan: Plan, totalMib: int, lanes: nat, batch: int, lanes': nat, batch': int)
    requires PackBytes(lanes, batch, plan.difficulty) <= PackBytes(lanes', batch', plan.difficulty)
    requires Project(plan, totalMib, lanes', batch').WithinLimits()
    ensures Project(plan, totalMib, lanes, batch).WithinLimits()
  {
    hide PackBytes;
  }

  lemma DivMonotone(x: nat, y: nat, d: nat)
    requires x <= y && d > 0
    ensures x / d <= y / d
  {
    FloorBounds(x, d);
    FloorBounds(y, d);
    if x / d > y / d {
      MulMonotone(y / d + 1, x / d, d);
    }
  }

  lemma ShareMonotone(bytes: nat, lanes: nat)
    requires lanes >= 1
    ensures bytes / (lanes + 1) <= bytes / lanes
  {
    FloorBounds(bytes, lanes + 1);
    FloorBounds(bytes, lanes);
    var x, y := bytes / (lanes + 1), bytes / lanes;
    if x > y {
      MulMonotone(y + 1, x, lanes);
    }
  }

  /** With a lane less, each refill is at least as large. */
  lemma RefillMonotone(plan: Plan, lanes: nat)
    requires lanes >= 1
    ensures RefillBatch(plan, lanes + 1) <= RefillBatch(plan, lanes)
  {
    ShareMonotone(plan.budgetBytes, lanes);
    if plan.difficulty > 0 {
      DivMonotone(Max(1, plan.budgetBytes / (lanes + 1)) * 1000, Max(1, plan.budgetBytes / lanes) * 1000,
                  MilliBytesPerAttempt(plan.difficulty));
    }
  }

  /** The least a lane mines among the candidates: nothing, if the search starts at an
      empty batch or its first refill comes out empty. */
  function LeastBatch(plan: Plan, lanes: nat, batch: int): int {
    if batch <= 0 || (lanes > 1 && RefillBatch(plan, lanes - 1) <= 0) then 0 else 1
  }

  /** The search succeeds exactly when one lane with that least batch fits the limits. */
  lemma {:induction false} SearchExactly(plan: Plan, totalMib: int, lanes: nat, batch: int)
    requires !plan.WithinLimits() && lanes >= 1
    ensures ClampSearch(plan, totalMib, lanes, batch).WithinLimits()
            <==> Project(plan, totalMib, 1, LeastBatch(plan, lanes, batch)).WithinLimits()
    decreases lanes, batch
  {
    hide Project, RefillBatch;
    var least := LeastBatch(plan, lanes, batch);
    if Project(plan, totalMib, lanes, batch).WithinLimits() {
      LeastIsLeast(plan, lanes, batch);
      FitsMonotone(plan, totalMib, 1, least, lanes, batch);
    } else if batch > 1 {
      SearchExactly(plan, totalMib, lanes, ShrinkBatch(batch));
    } else if lanes > 1 {
      SearchExactly(plan, totalMib, lanes - 1, RefillBatch(plan, lanes - 1));
      if lanes > 2 {
        RefillMonotone(plan, lanes - 2);
      }
      NothingSmaller(plan, totalMib, lanes, batch);
    } else {
      NothingSmaller(plan, totalMib, lanes, batch);
    }
  }

  lemma LeastIsLeast(plan: Plan, lanes: nat, batch: int)
    requires lanes >= 1
    ensures PackBytes(1, LeastBatch(plan, lanes, batch), plan.difficulty) <= PackBytes(lanes, batch, plan.difficulty)
  {
    hide RefillBatch;
    if batch >= 1 {
      PackMonotone(1, lanes, LeastBatch(plan, lanes, batch), batch, plan.difficulty);
    } else {
      EmptyPack(lanes, batch, plan.difficulty);
    }
  }

  lemma EmptyPack(lanes: nat, batch: int, difficulty: int)
    requires batch <= 0
    ensures PackBytes(lanes, batch, difficulty) == 0 == PackBytes(1, 0, difficulty)
  {
  }

  /** If an empty pack does not fit, nothing does; if a lone attempt is all there was and
      does not fit, neither does itself. */
  lemma NothingSmaller(plan: Plan, totalMib: int, lanes: nat, batch: int)
    requires lanes >= 1 && batch <= 1 && !Project(plan, totalMib, lanes, batch).WithinLimits()
    ensures batch <= 0 ==>
              !Project(plan, totalMib, 1, 0).WithinLimits() && !Project(plan, totalMib, 1, 1).WithinLimits()
    ensures batch == 1 && lanes == 1 ==> !Project(plan, totalMib, 1, 1).WithinLimits()
  {
    hide Project;
    if batch <= 0 {
      EmptyPack(lanes, batch, plan.difficulty);
      forall b | 0 <= b <= 1 && Project(plan, totalMib, 1, b).WithinLimits()
        ensures false
      {
        FitsMonotone(plan, totalMib, lanes, batch, 1, b);
      }
    }
  }

  lemma DraftIsClamped(q: Request)
    ensures var plan := DraftPlan(q);
            plan.WithinLimits()
            || ClampSearch(plan, plan.projectedUsedMib + plan.projectedHeadroomMib,
                           plan.lanes, plan.batchPerLane) == plan
  {
    var plan := DraftPlan(q);
    if plan.batchPerLane > 0 {
      PlanWithinLimits(q);
    } else if !plan.WithinLimits() {
      SearchCannotHelp(plan, plan.projectedUsedMib + plan.projectedHeadroomMib, plan.lanes, plan.batchPerLane);
    }
  }

  // ---- resolve_vram_caps -----------------------------------------------------------------

  datatype Caps = Caps(totalMib: int, targetMib: int, headroomMib: int, emergencyMib: int,
                       minHeadroomMib: int, runtimeOverheadMib: int)

  datatype CapSettings = CapSettings(
    targetPct: real, headroomPct: real, emergencyPct: real, minHeadroomPct: real, overheadPct: real,
    minHeadroomFloorMib: int, overheadFloorMib: int, targetOverride: int, headroomOverride: int,
    emergencyOverride: int, minHeadroomOverride: int, overheadOverride: int)

  function ClampPct(v: real): real {
    if v > 100.0 then 100.0 else if v < 0.0 then 0.0 else v
  }

  /** std::llround of a non-negative value. */
  function Round(x: real): int
  {
    (x + 0.5).Floor
  }

  function Share(total: int, pct: real): int {
    Round(total as real * ClampPct(pct) / 100.0)
  }

  function Clamp(v: int, lo: int, hi: int): (r: int)
    ensures lo <= hi ==> lo <= r <= hi
    ensures lo <= v <= hi ==> r == v
    ensures lo <= hi && r != v ==> (if v < lo then r == lo else r == hi)
  {
    if v < lo then lo else if v > hi then hi else v
  }

  function ResolveCaps(totalMib: int, s: CapSettings): (c: Caps)
    ensures 1 <= c.targetMib <= c.emergencyMib <= c.totalMib == Max(1, totalMib)
    ensures 0 <= c.headroomMib <= c.totalMib && 0 <= c.minHeadroomMib <= c.totalMib
    ensures 0 <= c.runtimeOverheadMib <= c.totalMib
  {
    var total := Max(1, totalMib);
    var target := if s.targetOverride > 0 then s.targetOverride else Share(total, s.targetPct);
    var headroom := if s.headroomOverride > 0 then s.headroomOverride else Share(total, s.headroomPct);
    var emergency := if s.emergencyOverride > 0 then s.emergencyOverride else Share(total, s.emergencyPct);
    var minHead := if s.minHeadroomOverride > 0 then s.minHeadroomOverride
                   else Max(s.minHeadroomFloorMib, Share(total, s.minHeadroomPct));
    var overhead := if s.overheadOverride > 0 then s.overheadOverride
                    else Max(s.overheadFloorMib, Share(total, s.overheadPct));
    var cappedTarget := Clamp(target, 1, total);
    Caps(total, cappedTarget, Clamp(headroom, 0, total), Clamp(emergency, cappedTarget, total),
         Clamp(minHead, 0, total), Clamp(overhead, 0, total))
  }

  /** x is the whole number nearest to so many percent of the total, a half rounded up;
      percentages count from 0 to 100. */
  predicate NearestShare(x: int, total: int, pct: real) {
    var p := if pct <= 0.0 then 0.0 else if pct >= 100.0 then 100.0 else pct;
    x as real - 0.5 <= total as real * p / 100.0 < x as real + 0.5
  }

  /** A setting in MiB wins over its percentage. */
  ghost predicate FromSetting(x: int, override: int, total: int, pct: real) {
    if override > 0 then x == override else NearestShare(x, total, pct)
  }

  /** The same, with a floor in MiB under the percentage. */
  ghost predicate FromFloored(x: int, override: int, floor: int, total: int, pct: real) {
    if override > 0 then x == override
    else exists share :: NearestShare(share, total, pct) && x >= floor && x >= share && (x == floor || x == share)
  }

  lemma ShareIsNearest(total: int, pct: real)
    requires total >= 1
    ensures NearestShare(Share(total, pct), total, pct)
  {
  }

  /** Each cap comes from its own setting and percentage, brought into the card's range;
      the emergency cap never lies below the target. */
  lemma CapsExactly(totalMib: int, s: CapSettings)
    ensures var c, total := ResolveCaps(totalMib, s), Max(1, totalMib);
            && c.totalMib == total
            && (exists x :: FromSetting(x, s.targetOverride, total, s.targetPct)
                            && c.targetMib == Clamp(x, 1, total))
            && (exists x :: FromSetting(x, s.headroomOverride, total, s.headroomPct)
                            && c.headroomMib == Clamp(x, 0, total))
            && (exists x :: FromSetting(x, s.emergencyOverride, total, s.emergencyPct)
                            && c.emergencyMib == Clamp(x, c.targetMib, total))
            && (exists x :: FromFloored(x, s.minHeadroomOverride, s.minHeadroomFloorMib, total, s.minHeadroomPct)
                            && c.minHeadroomMib == Clamp(x, 0, total))
            && (exists x :: FromFloored(x, s.overheadOverride, s.overheadFloorMib, total, s.overheadPct)
                            && c.runtimeOverheadMib == Clamp(x, 0, total))
  {
    hide Share, NearestShare;
    var total := Max(1, totalMib);
    ShareIsNearest(total, s.targetPct);
    ShareIsNearest(total, s.headroomPct);
    ShareIsNearest(total, s.emergencyPct);
    ShareIsNearest(total, s.minHeadroomPct);
    ShareIsNearest(total, s.overheadPct);
  }

  /** The chain the engine relies on, from the resolved caps through the planner. */
  lemma PlanUnderCaps(totalBytes: nat, freeBytes: nat, s: CapSettings, q: Request)
    requires var c := ResolveCaps(totalBytes / MIB, s);
             q.totalBytes == totalBytes && q.freeBytes == freeBytes && q.targetMib == c.targetMib
             && q.desktopHeadroomMib == c.headroomMib && q.runtimeOverheadMib == c.runtimeOverheadMib
    requires DraftPlan(q).batchPerLane > 0
    ensures var c, plan := ResolveCaps(totalBytes / MIB, s), DraftPlan(q);
            plan.projectedUsedMib <= c.targetMib <= c.emergencyMib <= c.totalMib
            && c.totalMib - plan.projectedUsedMib >= c.headroomMib
  {
    PlanWithinLimits(q);
  }
}
