/**
  The CUDA batch planner of mining/vram_batch.py: how many lanes to run, and how
  many attempts each lane holds, inside a video-memory budget.

  The per-attempt cost is the exact rational difficulty * 1024 * 1.001 bytes, so
  footprints are counted in thousandths of a byte and nothing is rounded.
 */
module VramBatch {
  import opened Numbers

  const MIB := 1048576
  const CUDA_ENGINE_RESERVE_BYTES := 104857600
  const DEFAULT_ABSOLUTE_MAX_LANES := 32
  // Thousandths of a byte per attempt and unit of difficulty: 1024 * 1001.
  const ATTEMPT_COST := 1025024
  const CLAMP_STEPS := 10000

  datatype PackMode = Boost | Coverage | Fill

  /** What a plan is made for; neither clamping nor capping changes any of it. */
  datatype Limits = Limits(
    laneReserve: int,
    budgetBytes: int,
    budgetMib: int,
    usedBeforeMib: int,
    runtimeOverheadMib: int,
    targetMib: int,
    effectiveTargetMib: int,
    desktopHeadroomMib: int,
    difficulty: int,
    foreignUsedMib: int)

  datatype Plan = Plan(
    limits: Limits,
    lanes: int,
    batchPerLane: int,
    batchVramBytes: int,
    batchVramMib: int,
    projectedUsedMib: int,
    projectedHeadroomMib: int,
    concurrentVramLanes: int)
  {
    predicate WithinLimits() {
      && projectedUsedMib <= limits.targetMib
      && projectedHeadroomMib >= limits.desktopHeadroomMib
    }

    function EffectiveConcurrent(): int {
      if concurrentVramLanes > 0
      then Max(1, Min(concurrentVramLanes, Max(1, lanes)))
      else Max(1, lanes)
    }

    function TotalMib(): int {
      projectedUsedMib + projectedHeadroomMib
    }
  }

  /** The arguments of `plan_cuda_batch`. */
  datatype Request = Request(
    totalBytes: nat,
    freeBytes: nat,
    targetMib: int,
    desktopHeadroomMib: int,
    difficulty: int,
    referenceDifficulty: int,
    maxLanes: int,
    laneReserve: int,
    explicitBatch: int,
    explicitMaxBatch: int,
    runtimeOverheadMib: int,
    minBatchPerLane: int,
    packMode: PackMode,
    foreignUsedMib: int,
    safetyMarginMib: int,
    concurrentVramLanes: Option<int>,
    budgetFillFraction: real)

  // ---------------------------------------------------------------- sizing

  function AttemptCost(difficulty: int): int {
    difficulty * ATTEMPT_COST
  }

  /** Greatest number of attempts whose footprint fits in `bytes`. */
  function AttemptsIn(bytes: int, difficulty: int): int
    requires 1 <= difficulty
  {
    bytes * 1000 / AttemptCost(difficulty)
  }

  function MemoryLimitedBatchSize(freeVramBytes: int, difficulty: int, reserveBytes: int): int {
    if difficulty <= 0 || freeVramBytes <= reserveBytes then 0
    else AttemptsIn(freeVramBytes - reserveBytes, difficulty)
  }

  function RecommendedBatchSize(difficulty: int): int {
    if difficulty <= 1 then 2048
    else if difficulty <= 8 then 4096
    else if difficulty <= 64 then 3072
    else 0
  }

  function SelectBatchSize(budgetBytes: int, difficulty: int, explicitMaxBatch: int, fillVramCap: bool): int {
    var memoryLimit := MemoryLimitedBatchSize(
      budgetBytes + CUDA_ENGINE_RESERVE_BYTES, difficulty, CUDA_ENGINE_RESERVE_BYTES);
    if memoryLimit <= 0 then 0
    else if explicitMaxBatch > 0 then Min(memoryLimit, explicitMaxBatch)
    else if !fillVramCap && RecommendedBatchSize(difficulty) > 0
    then Min(memoryLimit, RecommendedBatchSize(difficulty))
    else memoryLimit
  }

  function EstimateBatchVramBytes(batchSize: int, difficulty: int): int {
    if batchSize <= 0 || difficulty <= 0 then 0
    else batchSize * AttemptCost(difficulty) / 1000
  }

  /** A plan for `lanes` lanes of `batchPerLane` attempts, `concurrent` of them resident. */
  function MakePlan(limits: Limits, batchPerLane: int, lanes: int, totalMib: int, concurrent: int): Plan {
    var conc := Max(1, Min(concurrent, Max(1, lanes)));
    var bytes := EstimateBatchVramBytes(batchPerLane, limits.difficulty) * conc;
    var used := Max(0, limits.foreignUsedMib) + bytes / MIB + limits.runtimeOverheadMib;
    Plan(limits, lanes, batchPerLane, bytes, bytes / MIB, used, Max(0, totalMib - used), conc)
  }

  // ----------------------------------------------------------- clamp loop

  function ShrinkBatch(batch: int): (r: int)
    ensures batch <= 1 ==> r == 1
    ensures batch >= 2 ==> r == 1 || 98 * batch - 100 < 100 * r <= 98 * batch
  {
    Max(1, batch * 98 / 100)
  }

  /** The batch that one of `conc` equal shares of the budget holds. */
  function ShareBatch(limits: Limits, conc: int): int
    requires 1 <= conc
  {
    SelectBatchSize(Max(1, limits.budgetBytes / conc), limits.difficulty, 0, true)
  }

  /** The descent of `clamp_plan_to_caps` without its step limit: trim the batch, then drop a lane. */
  function ClampDescent(limits: Limits, totalMib: int, lanes: int, batch: int, conc: int): Option<Plan>
    decreases Max(lanes, 0), Max(batch, 0)
  {
    var candidate := MakePlan(limits, batch, lanes, totalMib, conc);
    if candidate.WithinLimits() then Some(candidate)
    else if batch > 1 then ClampDescent(limits, totalMib, lanes, ShrinkBatch(batch), conc)
    else if lanes > 1 && conc > 1 then
      var conc' := Min(conc, lanes - 1);
      ClampDescent(limits, totalMib, lanes - 1, ShareBatch(limits, conc'), conc')
    else None
  }

  /** The same descent cut off after `steps` candidates. */
  function ClampSteps(steps: nat, limits: Limits, totalMib: int, lanes: int, batch: int, conc: int): Option<Plan>
  {
    if steps == 0 then None else
    var candidate := MakePlan(limits, batch, lanes, totalMib, conc);
    if candidate.WithinLimits() then Some(candidate)
    else if batch > 1 then ClampSteps(steps - 1, limits, totalMib, lanes, ShrinkBatch(batch), conc)
    else if lanes > 1 && conc > 1 then
      var conc' := Min(conc, lanes - 1);
      ClampSteps(steps - 1, limits, totalMib, lanes - 1, ShareBatch(limits, conc'), conc')
    else None
  }

  function ClampPlan(plan: Plan): Plan {
    if plan.WithinLimits() then plan else
    match ClampSteps(CLAMP_STEPS, plan.limits, plan.TotalMib(), plan.lanes, plan.batchPerLane, plan.EffectiveConcurrent())
    case Some(fitting) => fitting
    case None => plan
  }

  /** The loop itself: it returns a plan inside both caps, or its input. */
  method ClampPlanToCaps(plan: Plan) returns (r: Plan)
    ensures r == ClampPlan(plan)
    ensures r.WithinLimits() || r == plan
    ensures r.limits == plan.limits
  {
    if plan.WithinLimits() {
      return plan;
    }
    var totalMib := plan.TotalMib();
    var lanes, batch, conc := plan.lanes, plan.batchPerLane, plan.EffectiveConcurrent();
    for step := 0 to CLAMP_STEPS
      invariant ClampSteps(CLAMP_STEPS - step, plan.limits, totalMib, lanes, batch, conc)
             == ClampSteps(CLAMP_STEPS, plan.limits, totalMib, plan.lanes, plan.batchPerLane, plan.EffectiveConcurrent())
      invariant conc >= 1
    {
      var candidate := MakePlan(plan.limits, batch, lanes, totalMib, conc);
      if candidate.WithinLimits() {
        return candidate;
      }
      if batch > 1 {
        batch := ShrinkBatch(batch);
      } else if lanes > 1 && conc > 1 {
        lanes := lanes - 1;
        conc := Min(conc, lanes);
        batch := ShareBatch(plan.limits, conc);
      } else {
        break;
      }
    }
    return plan;
  }

  // ------------------------------------------------------------ lane caps

  function ApplyLaneCap(plan: Plan, maxLanes: int): Plan {
    var cap := Max(1, maxLanes);
    if plan.lanes <= cap || plan.lanes <= 1 then plan else
    var conc := Min(plan.EffectiveConcurrent(), cap);
    var batch := if conc <= 1 then plan.batchPerLane else ShareBatch(plan.limits, conc);
    ClampPlan(MakePlan(plan.limits, batch, cap, plan.TotalMib(), conc))
  }

  // -------------------------------------------------------------- planner

  function CudaLaneCount(
    difficulty: int, referenceDifficulty: int, maxLanes: int, budgetBytes: int,
    minBatchPerLane: int, packMode: PackMode): (lanes: int)
    ensures 1 <= lanes <= DEFAULT_ABSOLUTE_MAX_LANES
    ensures lanes <= Max(1, maxLanes)
    ensures difficulty >= referenceDifficulty ==> lanes == 1
  {
    if maxLanes <= 1 || referenceDifficulty <= 0 || difficulty <= 0 then 1
    else if difficulty >= referenceDifficulty then 1
    else
      var cap := Max(1, Min(maxLanes, DEFAULT_ABSOLUTE_MAX_LANES));
      var boost := Max(1, referenceDifficulty / difficulty);
      if packMode == Boost || budgetBytes <= 0 then Max(1, Min(cap, boost))
      else
        var attempts := MemoryLimitedBatchSize(
          budgetBytes + CUDA_ENGINE_RESERVE_BYTES, difficulty, CUDA_ENGINE_RESERVE_BYTES);
        if attempts <= 0 then 1
        else Max(1, Min(cap, Max(boost, Max(1, attempts / Max(1, minBatchPerLane)))))
  }

  function AllowedBatchMib(request: Request): int {
    var foreign := Max(0, request.foreignUsedMib);
    var overhead := Max(0, request.runtimeOverheadMib) + Max(0, request.safetyMarginMib);
    Min(Max(0, request.targetMib - foreign - overhead),
        Max(0, request.totalBytes / MIB - request.desktopHeadroomMib - foreign - overhead))
  }

  function BudgetBytes(request: Request): int {
    FilledTo(AllowedBatchMib(request) * MIB, MaxReal(0.40, MinReal(1.0, request.budgetFillFraction)))
  }

  function FilledTo(full: int, fill: real): int {
    if fill < 0.999 then Max(1, Truncate(full as real * fill)) else full
  }

  predicate Sequential(request: Request) {
    request.concurrentVramLanes.Some? && request.concurrentVramLanes.value <= 1
  }

  function PlannedLanes(request: Request): (lanes: int)
    ensures 1 <= lanes <= DEFAULT_ABSOLUTE_MAX_LANES
  {
    var budget := BudgetBytes(request);
    if !Sequential(request) then
      CudaLaneCount(request.difficulty, request.referenceDifficulty, Max(1, request.maxLanes),
                    budget, request.minBatchPerLane, request.packMode)
    else
      var cap := Max(1, Min(request.maxLanes, DEFAULT_ABSOLUTE_MAX_LANES));
      if request.difficulty >= request.referenceDifficulty then 1
      else if request.packMode == Coverage then
        var boost := if request.difficulty > 0 && request.referenceDifficulty > 0
                     then Max(1, request.referenceDifficulty / request.difficulty) else 1;
        Max(1, Min(cap, Max(boost, cap)))
      else if request.difficulty <= 150 then
        Min(cap, Max(1, budget / Max(1, request.minBatchPerLane)))
      else 1
  }

  function ResidentLanes(request: Request): (conc: int)
    ensures 1 <= conc <= DEFAULT_ABSOLUTE_MAX_LANES
  {
    if Sequential(request) then 1 else PlannedLanes(request)
  }

  /** The batch before the top-up: the user's size, or what one whole-byte share holds. */
  function ShareSized(request: Request): int {
    var share := Max(1, BudgetBytes(request) / ResidentLanes(request));
    var most := SelectBatchSize(share, request.difficulty, request.explicitMaxBatch, true);
    if most <= 0 then 0
    else if request.explicitBatch > 0 then Min(request.explicitBatch, most)
    else most
  }

  function LimitedTo(batch: int, explicitSize: int): int {
    if explicitSize > 0 then Min(batch, explicitSize) else batch
  }

  /** The batch after the integer remainder of the split is topped up. */
  function PlannedBatch(request: Request): int {
    var batch := ShareSized(request);
    var budget := BudgetBytes(request);
    if batch > 0 && budget > 0 && request.difficulty > 0 then
      var most := AttemptsIn(budget, request.difficulty) / ResidentLanes(request);
      Max(batch, LimitedTo(LimitedTo(most, request.explicitMaxBatch), request.explicitBatch))
    else batch
  }

  function RequestLimits(request: Request): Limits {
    Limits(
      Max(0, Min(request.laneReserve, Max(0, PlannedLanes(request) - 1))),
      BudgetBytes(request),
      BudgetBytes(request) / MIB,
      Max(0, (request.totalBytes - request.freeBytes) / MIB),
      Max(0, request.runtimeOverheadMib) + Max(0, request.safetyMarginMib),
      request.targetMib,
      request.targetMib,
      request.desktopHeadroomMib,
      request.difficulty,
      Max(0, request.foreignUsedMib))
  }

  function DraftPlan(request: Request): Plan {
    MakePlan(RequestLimits(request), PlannedBatch(request), PlannedLanes(request),
             request.totalBytes / MIB, ResidentLanes(request))
  }

  function PlanCudaBatch(request: Request): Plan {
    ClampPlan(DraftPlan(request))
  }
}
