/**
  The live lane and batch controller of mining/backends/cuda_native.py. A base plan comes from
  the planner; difficulty, heat and memory pressure cap its lanes and scale its batch.
 */
module CudaBackend {
  import opened Numbers
  import opened ThermalPolicy
  import opened VramBatch
  import opened VramPolicy
  import opened PlannerProofs
  import opened ClampProofs

  datatype ParallelMode = SequentialMode | NativeLanes | DllCopies

  datatype Settings = Settings(
    explicitBatch: int, maxBatch: int, laneReserve: int, minBatchPerLane: int, packMode: PackMode,
    referenceDifficulty: int, accountDesktop: bool, safetyMarginMib: int,
    clockCurveEnabled: bool, clockLowDifficulty: int, fillAtLow: real, fillAtRef: real, fillAtHigh: real,
    highDiffFullRatio: real,
    laneBiasEnabled: bool, laneFullPackRatio: real,
    thermalBatchEnabled: bool, thermalBatchMinScale: real, thermalLaneEnabled: bool, thermalLaneMin: int,
    vramSoftEnabled: bool, vramSoftMinScale: real, vramSoftLaneEnabled: bool,
    warnTempC: int, maxTempC: int, allowDllCopies: bool, policy: PolicyConfig)
  {
    predicate WellFormed() {
      0 <= policy.minHeadroomFloorMib && 0 <= policy.overheadFloorMib
    }

    function ThermalFloor(): real { ClampReal(thermalBatchMinScale, 0.50, 1.0) }

    function VramFloor(): real { ClampReal(vramSoftMinScale, 0.50, 1.0) }
  }

  // ------------------------------------------------- values the state derives

  function EstimateForeignVramMib(usedMib: int, batchVramMib: int, overheadMib: int, baselineMib: int): int {
    var minerish := Max(0, batchVramMib) + Max(0, overheadMib);
    Max(Max(0, baselineMib), Max(0, Max(0, usedMib) - minerish))
  }

  /** The lanes left after the difficulty bias. */
  function BiasedLanes(s: Settings, base: Plan): int {
    if s.laneBiasEnabled && base.lanes > 1
    then DifficultyLaneBias(base.lanes, base.limits.difficulty, s.referenceDifficulty, s.laneFullPackRatio)
    else base.lanes
  }

  function CapBelow(cap: Option<int>, lanes: int): int {
    if cap.Some? && cap.value < lanes then cap.value else lanes
  }

  function EffectivePlan(s: Settings, base: Plan, thermalCap: Option<int>, vramCap: Option<int>): Plan {
    var biased := BiasedLanes(s, base);
    var plan := if biased < base.lanes then ApplyLaneCap(base, biased) else base;
    var cap := Min(CapBelow(thermalCap, plan.lanes), CapBelow(vramCap, plan.lanes));
    if cap < plan.lanes then ApplyLaneCap(plan, cap) else plan
  }

  function CombinedScale(s: Settings, thermalScale: real, vramScale: real): real {
    CombineBatchScales(thermalScale, vramScale, MinReal(s.ThermalFloor(), s.VramFloor()))
  }

  predicate Moves(current: real, scale: real) {
    !(-0.005 < scale - current < 0.005)
  }

  /** A requested scale takes effect only when it moves by at least half a percent. */
  function NextScale(current: real, requested: real, floor: real): real {
    var scale := ClampReal(requested, floor, 1.0);
    if Moves(current, scale) then scale else current
  }

  /** The batch scale that memory use asks for. */
  function WantedScale(s: Settings, usedMib: int, targetMib: int, emergencyMib: int): real {
    if s.vramSoftEnabled then VramPressureScale(usedMib, targetMib, emergencyMib, s.vramSoftMinScale) else 1.0
  }

  function MemoryLimit(plan: Plan, difficulty: int): int {
    var conc := plan.EffectiveConcurrent();
    MemoryLimitedBatchSize(Max(1, plan.limits.budgetBytes / Max(1, conc)) + CUDA_ENGINE_RESERVE_BYTES,
                           difficulty, CUDA_ENGINE_RESERVE_BYTES)
  }

  /** Starting refuses a batch above one whole-byte share of the budget. */
  predicate BatchFitsBudget(s: Settings, plan: Plan, difficulty: int) {
    var memory := MemoryLimit(plan, difficulty);
    var limit := if s.maxBatch > 0 then Min(memory, s.maxBatch) else memory;
    !(plan.batchPerLane > limit > 0)
  }

  /** A replan trims such a batch instead, keeping the projections it had. */
  function TrimToBudget(s: Settings, plan: Plan, difficulty: int): Plan {
    var memory := MemoryLimit(plan, difficulty);
    var limit := if s.maxBatch > 0 && memory > 0 then Min(memory, s.maxBatch) else memory;
    if limit > 0 && plan.batchPerLane > limit then plan.(batchPerLane := limit) else plan
  }

  /** A plan the controller accepts, or the error it raises. */
  function AcceptPlan(s: Settings, request: Request): Option<Plan> {
    var plan := PlanCudaBatch(request);
    var short := plan.limits.budgetMib - plan.batchVramMib;
    if plan.batchPerLane <= 0 || !plan.WithinLimits() then None
    else if request.difficulty < s.referenceDifficulty && !(-64 <= short <= 64) && !s.clockCurveEnabled
            && short > Max(64, Max(1, plan.limits.budgetMib) / 20) then None
    else Some(plan)
  }

  /** How the engines run the live lanes. */
  function EngineMode(s: Settings, parallelSupported: bool, lanes: int, engineOk: bool): ParallelMode {
    if lanes <= 1 || !engineOk then SequentialMode
    else if parallelSupported then NativeLanes
    else if s.allowDllCopies then DllCopies
    else SequentialMode
  }

  // ----------------------------------------------------------- main results

  /** Two derates within their floors: the live batch is what the harder of them leaves. */
  lemma CombinedBatchIsTheSmaller(s: Settings, batch: int, thermalScale: real, vramScale: real)
    requires s.ThermalFloor() <= thermalScale <= 1.0 && s.VramFloor() <= vramScale <= 1.0
    ensures ApplyBatchScale(batch, CombinedScale(s, thermalScale, vramScale))
         == Min(ApplyBatchScale(batch, thermalScale), ApplyBatchScale(batch, vramScale))
  {
    if thermalScale <= vramScale {
      ScaledBatchBounds(batch, thermalScale, vramScale);
    } else {
      ScaledBatchBounds(batch, vramScale, thermalScale);
    }
    hide ApplyBatchScale;
  }

  /** The lanes that run: no more than planned, than the difficulty bias leaves, or than either live cap allows. */
  lemma LiveLanesAreTheLeast(s: Settings, base: Plan, thermalCap: Option<int>, vramCap: Option<int>, lanes: int)
    requires Packed(base) && 1 <= lanes
    requires (thermalCap.Some? ==> 1 <= thermalCap.value) && (vramCap.Some? ==> 1 <= vramCap.value)
    ensures lanes <= EffectivePlan(s, base, thermalCap, vramCap).lanes <==>
              && lanes <= base.lanes
              && (thermalCap.Some? ==> lanes <= thermalCap.value)
              && (vramCap.Some? ==> lanes <= vramCap.value)
              && (s.laneBiasEnabled && base.lanes > 1 ==>
                    lanes <= DifficultyLaneBias(base.lanes, base.limits.difficulty, s.referenceDifficulty, s.laneFullPackRatio))
  {
    var biased := BiasedLanes(s, base);
    if base.lanes > 1 {
      LaneBiasFallsWithDifficulty(base.lanes, base.limits.difficulty, base.limits.difficulty,
                                  s.referenceDifficulty, s.laneFullPackRatio);
    }
    var plan := if biased < base.lanes then ApplyLaneCap(base, biased) else base;
    CapKeepsPacked(base, biased);
    CapKeepsPacked(plan, Min(CapBelow(thermalCap, plan.lanes), CapBelow(vramCap, plan.lanes)));
    hide ApplyLaneCap, DifficultyLaneBias, Packed;
  }

  /** Foreign memory is the least amount, and not below the baseline, that with the miner's own explains what is used. */
  lemma ForeignIsWhatIsNotOurs(usedMib: int, batchVramMib: int, overheadMib: int, baselineMib: int, x: int)
    ensures EstimateForeignVramMib(usedMib, batchVramMib, overheadMib, baselineMib) <= x <==>
              && 0 <= x && baselineMib <= x
              && usedMib <= x + Max(0, batchVramMib) + Max(0, overheadMib)
  {
  }

  /** The soft trim of a replan makes a plan pass the start's check, and changes only plans that would not. */
  lemma TrimMeetsTheStartCheck(s: Settings, plan: Plan, difficulty: int)
    requires 0 < MemoryLimit(plan, difficulty)
    ensures BatchFitsBudget(s, TrimToBudget(s, plan, difficulty), difficulty)
    ensures TrimToBudget(s, plan, difficulty) == plan <==> BatchFitsBudget(s, plan, difficulty)
    ensures TrimToBudget(s, plan, difficulty).batchPerLane
         == if BatchFitsBudget(s, plan, difficulty) then plan.batchPerLane
            else if s.maxBatch > 0 then Min(MemoryLimit(plan, difficulty), s.maxBatch) else MemoryLimit(plan, difficulty)
  {
    assert MemoryLimit(TrimToBudget(s, plan, difficulty), difficulty) == MemoryLimit(plan, difficulty);
    hide MemoryLimit;
  }

  /** The check's limit is what one equal share of the plan's budget holds. */
  lemma CheckedShareIsGreatest(plan: Plan, difficulty: int, b: int)
    requires 1 <= difficulty && 1 <= b && plan.lanes >= 1 && plan.concurrentVramLanes >= 1
    requires plan.concurrentVramLanes <= plan.lanes && plan.concurrentVramLanes <= plan.limits.budgetBytes
    ensures b <= MemoryLimit(plan, difficulty) <==>
              Footprint(1, b, difficulty) <= plan.limits.budgetBytes / plan.concurrentVramLanes * 1000
  {
    var share := plan.limits.budgetBytes / plan.concurrentVramLanes;
    DivIsGreatest(plan.limits.budgetBytes, plan.concurrentVramLanes, 1);
    AttemptsInIsGreatest(share, difficulty, b);
    hide AttemptsIn, AttemptCost;
    assert Footprint(1, b, difficulty) == b * AttemptCost(difficulty);
  }

  /** Which requests give a plan to run: those that hold an attempt, fit, and do not waste a twentieth of the budget. */
  lemma AcceptsExactly(s: Settings, request: Request)
    ensures AcceptPlan(s, request).Some? <==>
              && PlannedBatch(request) >= 1 && FixedMemoryFits(request)
              && (request.difficulty >= s.referenceDifficulty || s.clockCurveEnabled
                  || PlanCudaBatch(request).limits.budgetMib - PlanCudaBatch(request).batchVramMib
                     <= Max(64, PlanCudaBatch(request).limits.budgetMib / 20))
  {
    PlannerNeverNeedsTheClamp(request);
  }

  lemma EffectiveStaysPacked(s: Settings, base: Plan, thermalCap: Option<int>, vramCap: Option<int>)
    requires Packed(base)
    ensures var plan := EffectivePlan(s, base, thermalCap, vramCap);
            && Packed(plan)
            && plan.limits == base.limits && plan.TotalMib() == base.TotalMib()
            && plan.lanes <= base.lanes && plan.batchPerLane >= base.batchPerLane
            && plan.concurrentVramLanes == Min(base.concurrentVramLanes, plan.lanes)
  {
    var biased := BiasedLanes(s, base);
    var plan := if biased < base.lanes then ApplyLaneCap(base, biased) else base;
    CapKeepsPacked(base, biased);
    CapKeepsPacked(plan, Min(CapBelow(thermalCap, plan.lanes), CapBelow(vramCap, plan.lanes)));
  }

  /** The memory caps hold to the byte under any heat, pressure and scales. */
  lemma LiveStateFitsCaps(
    s: Settings, base: Plan, thermalCap: Option<int>, vramCap: Option<int>, thermalScale: real, vramScale: real)
    requires Packed(base)
    ensures var plan := EffectivePlan(s, base, thermalCap, vramCap);
            var batch := ApplyBatchScale(plan.batchPerLane, CombinedScale(s, thermalScale, vramScale));
            && 1 <= batch <= plan.batchPerLane
            && 1 <= plan.lanes <= base.lanes
            && FitsCaps(plan.concurrentVramLanes, batch, base.limits, base.TotalMib())
  {
    EffectiveStaysPacked(s, base, thermalCap, vramCap);
    var plan := EffectivePlan(s, base, thermalCap, vramCap);
    var scale := CombinedScale(s, thermalScale, vramScale);
    ScaledBatchBounds(plan.batchPerLane, scale, scale);
    PackedFitsCaps(plan, plan.concurrentVramLanes, ApplyBatchScale(plan.batchPerLane, scale));
  }

  /** The live plan is the base plan exactly when neither the bias nor a cap asks for fewer lanes. */
  lemma LivePlanIsBaseExactly(s: Settings, base: Plan, thermalCap: Option<int>, vramCap: Option<int>)
    requires Packed(base)
    ensures EffectivePlan(s, base, thermalCap, vramCap) == base <==>
              && base.lanes <= BiasedLanes(s, base)
              && (thermalCap.Some? && base.lanes > 1 ==> base.lanes <= thermalCap.value)
              && (vramCap.Some? && base.lanes > 1 ==> base.lanes <= vramCap.value)
  {
    var biased := BiasedLanes(s, base);
    var plan := if biased < base.lanes then ApplyLaneCap(base, biased) else base;
    CapKeepsPacked(base, biased);
    if base.lanes > 1 {
      LaneBiasFallsWithDifficulty(base.lanes, base.limits.difficulty, base.limits.difficulty,
                                  s.referenceDifficulty, s.laneFullPackRatio);
    }
    CapKeepsPacked(plan, Min(CapBelow(thermalCap, plan.lanes), CapBelow(vramCap, plan.lanes)));
  }

  /** Bias, heat cap and memory cap act as their minimum, so their order does not matter. */
  lemma EffectivePlanIsOneCap(s: Settings, base: Plan, thermalCap: Option<int>, vramCap: Option<int>)
    requires Packed(base)
    requires base.concurrentVramLanes == 1
             || ((thermalCap.Some? ==> 2 <= thermalCap.value) && (vramCap.Some? ==> 2 <= vramCap.value))
    ensures EffectivePlan(s, base, thermalCap, vramCap)
         == ApplyLaneCap(base, Min(BiasedLanes(s, base), Min(CapBelow(thermalCap, base.lanes), CapBelow(vramCap, base.lanes))))
  {
    var biased := BiasedLanes(s, base);
    if base.lanes > 1 {
      LaneBiasFallsWithDifficulty(base.lanes, base.limits.difficulty, base.limits.difficulty,
                                  s.referenceDifficulty, s.laneFullPackRatio);
    }
    var plan := ApplyLaneCap(base, biased);
    CapKeepsPacked(base, biased);
    var cap := Min(CapBelow(thermalCap, plan.lanes), CapBelow(vramCap, plan.lanes));
    CapsComposeExactly(base, biased, cap);
    CapKeepsPacked(plan, cap);
    CapKeepsPacked(base, Min(biased, cap));
  }

  /** A scale follows what is asked of it to within half a percent, and moves by no less. */
  lemma ScaleFollows(current: real, requested: real, floor: real)
    requires floor <= 1.0
    ensures var (next, asked) := (NextScale(current, requested, floor), MaxReal(floor, MinReal(1.0, requested)));
            && -0.005 < asked - next < 0.005
            && (next != current <==> asked - current >= 0.005 || current - asked >= 0.005)
            && (next != current ==> next == asked)
  {
  }

  /** The floors are the settings, kept at half a batch or more. */
  lemma FloorsAreTheSettings(s: Settings, x: real)
    requires x < 1.0
    ensures s.ThermalFloor() <= x <==> 0.50 <= x && s.thermalBatchMinScale <= x
    ensures s.VramFloor() <= x <==> 0.50 <= x && s.vramSoftMinScale <= x
  {
  }

  /** What memory use asks for is never below the floor, so it is taken as it is, or not at all. */
  lemma WantedScaleIsTaken(s: Settings, current: real, usedMib: int, targetMib: int, emergencyMib: int)
    ensures var wanted := if s.vramSoftEnabled
                          then VramPressureScale(usedMib, targetMib, emergencyMib, s.vramSoftMinScale) else 1.0;
            NextScale(current, WantedScale(s, usedMib, targetMib, emergencyMib), s.VramFloor())
            == if -0.005 < wanted - current < 0.005 then current else wanted
  {
    PressureScaleFallsWithUse(usedMib, usedMib, targetMib, emergencyMib, s.vramSoftMinScale);
    hide VramPressureScale;
  }

  /** Asking for the full batch restores it exactly when nothing is derated, or at least half a percent is. */
  lemma FullScaleIsRestoredExactly(current: real, floor: real)
    requires 0.50 <= floor <= 1.0 && floor <= current <= 1.0
    ensures NextScale(current, 1.0, floor) == 1.0 <==> current == 1.0 || current <= 0.995
  {
  }

  /** With one batch limit for plan and check, if any, starting refuses a plan exactly when the planner topped its batch up. */
  lemma StartRefusesToppedUpPlans(s: Settings, request: Request)
    requires request.explicitMaxBatch == s.maxBatch
    requires PlannedBatch(request) >= 1 && 0 <= request.desktopHeadroomMib
    ensures BatchFitsBudget(s, PlanCudaBatch(request), request.difficulty)
            <==> PlannedBatch(request) == ShareSized(request)
  {
    PlannedBatchFits(request);
    PlannerNeverNeedsTheClamp(request);
    TopUpAddsAtMostOne(request);
  }

  function RefusedRequest(): Request {
    Request(2048 * MIB, 2048 * MIB, 1001, 0, 100, 500, 8, 1, 0, 0, 0, 2048, Boost, 0, 0, None, 1.0)
  }

  /** A 1001 MiB budget over five lanes at difficulty 100: planned, inside every limit, and refused. */
  lemma StartRefusesAFittingPlan(s: Settings, request: Request)
    requires s.maxBatch == 0 && request == RefusedRequest()
    ensures AcceptPlan(s, request).Some? && PlanCudaBatch(request).batchPerLane == 2048
    ensures !BatchFitsBudget(s, PlanCudaBatch(request), 100)
  {
    PlannerNeverNeedsTheClamp(request);
    assert AttemptCost(100) == 102502400;
    assert BudgetBytes(request) == 1049624576 && ResidentLanes(request) == 5;
    assert ShareSized(request) == 2047;
    assert PlannedBatch(request) == 2048;
    StartRefusesToppedUpPlans(s, request);
  }

  lemma AcceptedPlansArePacked(s: Settings, request: Request)
    requires 0 <= request.desktopHeadroomMib
    ensures var r := AcceptPlan(s, request);
            r.Some? ==>
              && Packed(r.value)
              && r.value.limits.difficulty == request.difficulty
              && r.value.TotalMib() == request.totalBytes / MIB
              && (request.concurrentVramLanes.None? ==> r.value.concurrentVramLanes == r.value.lanes)
  {
    PlannerNeverNeedsTheClamp(request);
    PlannedBatchFits(request);
    if AcceptPlan(s, request).Some? {
      PlannerPacks(request);
    }
  }

  // ------------------------------------------------------------ the backend

  class Backend {
    const settings: Settings
    const parallelSupported: bool
    var lanes: int
    var batchPerLane: int
    var plannedBatchPerLane: int
    var difficulty: int
    var started: bool
    var vramPlan: Option<Plan>
    var basePlan: Option<Plan>
    var maxLanesCap: int
    var parallelMode: ParallelMode
    var vramCaps: Option<VramCaps>
    var thermalScale: real
    var vramScale: real
    var thermalLaneCap: Option<int>
    var vramLaneCap: Option<int>
    var desktopBaselineMib: int
    var foreignVramMib: int

    ghost predicate CapsUsable()
      reads this`vramCaps
    {
      settings.WellFormed() && (vramCaps.Some? ==> 0 <= vramCaps.value.headroomMib)
    }

    /** The parts of the state no plan is derived from, and a packed base plan while loaded. */
    ghost predicate Loaded()
      reads this
    {
      && CapsUsable()
      && settings.ThermalFloor() <= thermalScale <= 1.0
      && settings.VramFloor() <= vramScale <= 1.0
      && (started <==> basePlan.Some?)
      && (started <==> vramPlan.Some?)
      && (started ==> Packed(basePlan.value))
      && (started && parallelSupported ==> basePlan.value.concurrentVramLanes == basePlan.value.lanes)
      && (!started ==> parallelMode == SequentialMode)
      && (parallelMode == NativeLanes ==> parallelSupported)
      && (parallelMode == DllCopies ==> !parallelSupported && settings.allowDllCopies)
    }

    /** The live fields are those the base plan, the caps and the scales give. */
    ghost predicate Agrees()
      reads this
    {
      basePlan.Some? && vramPlan.Some? ==>
        && vramPlan == Some(EffectivePlan(settings, basePlan.value, thermalLaneCap, vramLaneCap))
        && lanes == vramPlan.value.lanes
        && plannedBatchPerLane == vramPlan.value.batchPerLane
        && batchPerLane == ApplyBatchScale(plannedBatchPerLane, CombinedScale(settings, thermalScale, vramScale))
    }

    ghost predicate Valid()
      reads this
    {
      Loaded() && Agrees()
    }

    /** Lane batches that sit in memory together. */
    function ResidentNow(): int
      reads this
    {
      if parallelMode == SequentialMode then 1 else lanes
    }

    /**
      Every valid loaded state is inside the caps, at the plan's own difficulty, whenever what is resident is what
      the plan counted: always but for lane copies of a plan made for one resident buffer, which are inside exactly
      when all their attempts fit the room.
     */
    lemma ValidIsSafe()
      requires Valid() && started
      ensures 1 <= lanes <= basePlan.value.lanes
      ensures 1 <= batchPerLane <= plannedBatchPerLane
      ensures batchPerLane == Min(ApplyBatchScale(plannedBatchPerLane, thermalScale),
                                  ApplyBatchScale(plannedBatchPerLane, vramScale))
      ensures FitsCaps(vramPlan.value.concurrentVramLanes, batchPerLane, basePlan.value.limits, basePlan.value.TotalMib())
      ensures ResidentNow() <= vramPlan.value.concurrentVramLanes <==>
                parallelMode == SequentialMode || vramPlan.value.concurrentVramLanes == lanes
      ensures parallelMode == SequentialMode || vramPlan.value.concurrentVramLanes == lanes ==>
                FitsCaps(ResidentNow(), batchPerLane, basePlan.value.limits, basePlan.value.TotalMib())
      ensures parallelMode != DllCopies ==>
                FitsCaps(ResidentNow(), batchPerLane, basePlan.value.limits, basePlan.value.TotalMib())
      ensures FitsCaps(ResidentNow(), batchPerLane, basePlan.value.limits, basePlan.value.TotalMib()) <==>
                ResidentNow() * batchPerLane
                <= AttemptsIn(RoomBytes(basePlan.value.limits, basePlan.value.TotalMib()), basePlan.value.limits.difficulty)
    {
      CombinedBatchIsTheSmaller(settings, plannedBatchPerLane, thermalScale, vramScale);
      FitsCapsExactly(ResidentNow(), batchPerLane, basePlan.value.limits, basePlan.value.TotalMib());
      LiveStateFitsCaps(settings, basePlan.value, thermalLaneCap, vramLaneCap, thermalScale, vramScale);
      EffectiveStaysPacked(settings, basePlan.value, thermalLaneCap, vramLaneCap);
      if ResidentNow() <= vramPlan.value.concurrentVramLanes {
        PackedFitsCaps(vramPlan.value, ResidentNow(), batchPerLane);
      }
    }

    constructor (settings: Settings, parallelSupported: bool, difficulty: int, maxLanesCap: int)
      requires settings.WellFormed()
      ensures Valid() && !started
      ensures this.settings == settings && this.parallelSupported == parallelSupported
      ensures this.difficulty == difficulty && this.maxLanesCap == maxLanesCap
      ensures thermalScale == 1.0 && vramScale == 1.0 && thermalLaneCap == None && vramLaneCap == None
    {
      this.settings := settings;
      this.parallelSupported := parallelSupported;
      this.lanes := 1;
      this.batchPerLane := settings.explicitBatch;
      this.plannedBatchPerLane := settings.explicitBatch;
      this.difficulty := difficulty;
      this.started := false;
      this.vramPlan := None;
      this.basePlan := None;
      this.maxLanesCap := maxLanesCap;
      this.parallelMode := SequentialMode;
      this.vramCaps := None;
      this.thermalScale := 1.0;
      this.vramScale := 1.0;
      this.thermalLaneCap := None;
      this.vramLaneCap := None;
      this.desktopBaselineMib := 0;
      this.foreignVramMib := 0;
    }

    // -- planning

    function ConcurrentHint(): Option<int>
      reads this`parallelMode
    {
      if parallelMode != SequentialMode || parallelSupported then None else Some(1)
    }

    static function UsedMib(totalBytes: nat, freeBytes: nat): (used: int)
      ensures 0 <= used
      ensures freeBytes <= totalBytes ==> used * MIB <= totalBytes - freeBytes < (used + 1) * MIB
    {
      Max(0, (totalBytes - freeBytes) / MIB)
    }

    function CapsFor(totalMib: int): (caps: VramCaps)
      requires CapsUsable()
      reads this`vramCaps
      ensures 0 <= caps.headroomMib
    {
      if vramCaps.Some? && vramCaps.value.totalMib == totalMib then vramCaps.value
      else ResolveVramCaps(totalMib, settings.policy)
    }

    function ForeignMib(usedMib: int): int
      reads this`desktopBaselineMib, this`vramPlan
    {
      if !settings.accountDesktop then 0
      else if desktopBaselineMib <= 0 && vramPlan.None? then usedMib
      else if vramPlan.None? then EstimateForeignVramMib(usedMib, 0, 0, desktopBaselineMib)
      else EstimateForeignVramMib(usedMib, vramPlan.value.batchVramMib,
                                  vramPlan.value.limits.runtimeOverheadMib, desktopBaselineMib)
    }

    function RequestWith(caps: VramCaps, foreignMib: int, totalBytes: nat, freeBytes: nat, difficulty: int): Request
      reads this`parallelMode, this`maxLanesCap
    {
      var s := settings;
      Request(
        totalBytes, freeBytes, caps.targetMib, caps.headroomMib, difficulty, s.referenceDifficulty,
        maxLanesCap, s.laneReserve, Max(0, s.explicitBatch), s.maxBatch, caps.runtimeOverheadMib, s.minBatchPerLane,
        if ConcurrentHint().None? || s.packMode == Coverage then s.packMode else Fill,
        foreignMib,
        if s.accountDesktop then s.safetyMarginMib else 0,
        ConcurrentHint(),
        if s.clockCurveEnabled
        then DifficultyBatchFillFraction(difficulty, s.referenceDifficulty, s.clockLowDifficulty,
                                         s.fillAtLow, s.fillAtRef, s.fillAtHigh, s.highDiffFullRatio)
        else 1.0)
    }

    /** The request a replan makes in the current state. */
    function RequestFor(totalBytes: nat, freeBytes: nat, difficulty: int): Request
      requires CapsUsable()
      reads this`parallelMode, this`maxLanesCap, this`vramCaps, this`desktopBaselineMib, this`vramPlan
    {
      RequestWith(CapsFor(Max(1, totalBytes / MIB)), ForeignMib(UsedMib(totalBytes, freeBytes)),
                  totalBytes, freeBytes, difficulty)
    }

    /** The request a start makes: caps for a guessed 32 GiB card come first, and all memory in use is foreign. */
    function StartRequest(totalBytes: nat, freeBytes: nat): Request
      requires CapsUsable()
      reads this
    {
      var totalMib := Max(1, totalBytes / MIB);
      var guessed := CapsFor(32768);
      var caps := if guessed.totalMib == totalMib then guessed else ResolveVramCaps(totalMib, settings.policy);
      RequestWith(caps, if settings.accountDesktop then UsedMib(totalBytes, freeBytes) else 0,
                  totalBytes, freeBytes, difficulty)
    }

    /**
      What a replan asks the planner for. A backend that runs its lanes together asks for all of them at once in the
      user's pack mode; another asks for one resident buffer, covering prefixes only if the user does. What the miner
      itself holds is not foreign, and nothing is when the desktop is not accounted for.
     */
    lemma ReplanRequest(totalBytes: nat, freeBytes: nat, difficulty: int, x: int)
      requires CapsUsable()
      ensures var request := RequestFor(totalBytes, freeBytes, difficulty);
              var used := UsedMib(totalBytes, freeBytes);
              && (Sequential(request) <==> parallelMode == SequentialMode && !parallelSupported)
              && (!Sequential(request) ==> request.packMode == settings.packMode)
              && (Sequential(request) ==> request.packMode == (if settings.packMode == Coverage then Coverage else Fill))
              && (!settings.accountDesktop ==> request.foreignUsedMib == 0 && request.safetyMarginMib == 0)
              && (settings.accountDesktop ==> request.safetyMarginMib == settings.safetyMarginMib)
              && (settings.accountDesktop && vramPlan.None? ==>
                    request.foreignUsedMib == if desktopBaselineMib <= 0 then used else Max(desktopBaselineMib, used))
              && (settings.accountDesktop && vramPlan.Some? ==>
                    (request.foreignUsedMib <= x <==>
                       && 0 <= x && desktopBaselineMib <= x
                       && used <= x + Max(0, vramPlan.value.batchVramMib) + Max(0, vramPlan.value.limits.runtimeOverheadMib)))
              && request.difficulty == difficulty && request.referenceDifficulty == settings.referenceDifficulty
              && request.maxLanes == maxLanesCap && request.minBatchPerLane == settings.minBatchPerLane
              && request.explicitMaxBatch == settings.maxBatch && request.explicitBatch == Max(0, settings.explicitBatch)
              && (!settings.clockCurveEnabled ==> request.budgetFillFraction == 1.0)
              && (settings.clockCurveEnabled ==>
                    request.budgetFillFraction == DifficultyBatchFillFraction(
                      difficulty, settings.referenceDifficulty, settings.clockLowDifficulty,
                      settings.fillAtLow, settings.fillAtRef, settings.fillAtHigh, settings.highDiffFullRatio))
      ensures var request := RequestFor(totalBytes, freeBytes, difficulty);
              var resolved := ResolveVramCaps(Max(1, totalBytes / MIB), settings.policy);
              var caps := if vramCaps.Some? && vramCaps.value.totalMib == Max(1, totalBytes / MIB) then vramCaps.value else resolved;
              request.targetMib == caps.targetMib && request.desktopHeadroomMib == caps.headroomMib
              && request.runtimeOverheadMib == caps.runtimeOverheadMib
    {
      if vramPlan.Some? {
        ForeignIsWhatIsNotOurs(UsedMib(totalBytes, freeBytes), vramPlan.value.batchVramMib,
                               vramPlan.value.limits.runtimeOverheadMib, desktopBaselineMib, x);
      }
    }

    method PlanFromDevice(totalBytes: nat, freeBytes: nat, difficulty: int) returns (r: Option<Plan>)
      requires Valid()
      modifies this`vramCaps, this`foreignVramMib, this`desktopBaselineMib
      ensures Valid()
      ensures r == AcceptPlan(settings, old(RequestFor(totalBytes, freeBytes, difficulty)))
      ensures r.Some? ==> Packed(r.value) && r.value.limits.difficulty == difficulty
      ensures r.Some? && old(ConcurrentHint()).None? ==> r.value.concurrentVramLanes == r.value.lanes
      ensures r.Some? ==> r.value.TotalMib() == totalBytes / MIB
    {
      var usedMib := UsedMib(totalBytes, freeBytes);
      var request := RequestFor(totalBytes, freeBytes, difficulty);
      vramCaps := Some(CapsFor(Max(1, totalBytes / MIB)));
      foreignVramMib := ForeignMib(usedMib);
      if settings.accountDesktop && desktopBaselineMib <= 0 && vramPlan.None? {
        desktopBaselineMib := usedMib;
      }
      r := AcceptPlan(settings, request);
      AcceptedPlansArePacked(settings, request);
    }

    // -- live state

    /** Adopt a base plan and derive the live lanes and batch from it. */
    method ApplyPlan(base: Plan)
      requires settings.WellFormed() && Packed(base)
      requires parallelSupported ==> base.concurrentVramLanes == base.lanes
      modifies this`basePlan, this`vramPlan, this`lanes, this`plannedBatchPerLane, this`batchPerLane
      ensures basePlan == Some(base) && vramPlan.Some? && Agrees()
      ensures settings.ThermalFloor() <= thermalScale <= 1.0 && settings.VramFloor() <= vramScale <= 1.0 ==>
                batchPerLane == Min(ApplyBatchScale(plannedBatchPerLane, thermalScale),
                                    ApplyBatchScale(plannedBatchPerLane, vramScale))
    {
      if settings.ThermalFloor() <= thermalScale <= 1.0 && settings.VramFloor() <= vramScale <= 1.0 {
        CombinedBatchIsTheSmaller(settings, EffectivePlan(settings, base, thermalLaneCap, vramLaneCap).batchPerLane,
                                  thermalScale, vramScale);
      }
      hide ApplyBatchScale, CombinedScale, EffectivePlan;
      basePlan := Some(base);
      var plan := EffectivePlan(settings, base, thermalLaneCap, vramLaneCap);
      vramPlan := Some(plan);
      lanes := plan.lanes;
      plannedBatchPerLane := plan.batchPerLane;
      batchPerLane := ApplyBatchScale(plan.batchPerLane, CombinedScale(settings, thermalScale, vramScale));
    }

    /** Start the engines for the live lanes; a failure falls back to one engine. */
    method SyncLaneEngines(engineOk: bool)
      requires Loaded()
      modifies this`parallelMode
      ensures Loaded() && (old(Agrees()) ==> Agrees())
      ensures started ==> parallelMode == EngineMode(settings, parallelSupported, lanes, engineOk)
      ensures started ==> (parallelMode == NativeLanes <==> lanes > 1 && engineOk && parallelSupported)
      ensures started ==> (parallelMode == DllCopies <==> lanes > 1 && engineOk && !parallelSupported && settings.allowDllCopies)
    {
      hide EffectivePlan, ApplyBatchScale, CombinedScale, Packed;
      if !started {
        return;
      }
      if parallelSupported {
        parallelMode := if lanes > 1 then NativeLanes else SequentialMode;
        if !engineOk {
          parallelMode := SequentialMode;
        }
      } else if lanes > 1 {
        parallelMode := if settings.allowDllCopies && engineOk then DllCopies else SequentialMode;
      } else {
        parallelMode := SequentialMode;
      }
    }

    /** Re-derive lanes and batch after a cap or a scale moved. */
    method ReapplyLiveCaps(engineOk: bool) returns (changed: bool)
      requires Loaded()
      modifies this`basePlan, this`vramPlan, this`lanes, this`plannedBatchPerLane, this`batchPerLane, this`parallelMode
      ensures Valid() && basePlan == old(basePlan)
      ensures changed <==> started && (lanes != old(lanes) || batchPerLane != old(batchPerLane))
      ensures !started ==> lanes == old(lanes)
    {
      hide EffectivePlan, ApplyBatchScale, CombinedScale, Packed;
      if basePlan.None? {
        return false;
      }
      var before, beforeBatch := lanes, batchPerLane;
      ApplyPlan(basePlan.value);
      if lanes != before {
        SyncLaneEngines(engineOk);
        return true;
      }
      return beforeBatch != batchPerLane;
    }

    method SetThermalBatchScale(scale: real) returns (r: real)
      requires Valid()
      modifies this`thermalScale, this`batchPerLane
      ensures Valid() && r == thermalScale
      ensures thermalScale == NextScale(old(thermalScale), scale, settings.ThermalFloor())
      ensures started ==> batchPerLane == Min(ApplyBatchScale(plannedBatchPerLane, thermalScale),
                                              ApplyBatchScale(plannedBatchPerLane, vramScale))
    {
      CombinedBatchIsTheSmaller(settings, plannedBatchPerLane, thermalScale, vramScale);
      var newScale := ClampReal(scale, settings.ThermalFloor(), 1.0);
      if !Moves(thermalScale, newScale) {
        return thermalScale;
      }
      thermalScale := newScale;
      if plannedBatchPerLane > 0 {
        batchPerLane := ApplyBatchScale(plannedBatchPerLane, CombinedScale(settings, thermalScale, vramScale));
      }
      CombinedBatchIsTheSmaller(settings, plannedBatchPerLane, thermalScale, vramScale);
      r := thermalScale;
      if started {
        EffectiveStaysPacked(settings, basePlan.value, thermalLaneCap, vramLaneCap);
      }
    }

    method SetVramBatchScale(scale: real) returns (r: real)
      requires Valid()
      modifies this`vramScale, this`batchPerLane
      ensures Valid() && r == vramScale
      ensures vramScale == NextScale(old(vramScale), scale, settings.VramFloor())
      ensures started ==> batchPerLane == Min(ApplyBatchScale(plannedBatchPerLane, thermalScale),
                                              ApplyBatchScale(plannedBatchPerLane, vramScale))
    {
      CombinedBatchIsTheSmaller(settings, plannedBatchPerLane, thermalScale, vramScale);
      var newScale := ClampReal(scale, settings.VramFloor(), 1.0);
      if !Moves(vramScale, newScale) {
        return vramScale;
      }
      vramScale := newScale;
      if plannedBatchPerLane > 0 {
        batchPerLane := ApplyBatchScale(plannedBatchPerLane, CombinedScale(settings, thermalScale, vramScale));
      }
      CombinedBatchIsTheSmaller(settings, plannedBatchPerLane, thermalScale, vramScale);
      r := vramScale;
      if started {
        EffectiveStaysPacked(settings, basePlan.value, thermalLaneCap, vramLaneCap);
      }
    }

    method UpdateVramPressureFromUsed(usedMib: int, targetMib: int, emergencyMib: int, engineOk: bool)
      returns (scale: real, activeLanes: int, changed: bool)
      requires Valid()
      modifies this
      ensures Valid() && basePlan == old(basePlan) && started == old(started)
      ensures scale == vramScale && activeLanes == lanes
      ensures thermalScale == old(thermalScale) && thermalLaneCap == old(thermalLaneCap)
      ensures vramScale == NextScale(old(vramScale), WantedScale(settings, usedMib, targetMib, emergencyMib), settings.VramFloor())
      ensures var planned := if basePlan.Some? then BiasedLanes(settings, basePlan.value) else old(lanes);
              vramLaneCap
              == if settings.vramSoftEnabled && settings.vramSoftLaneEnabled && planned > 1
                 then Some(VramPressureLaneCap(planned, usedMib, targetMib, emergencyMib, Max(1, settings.thermalLaneMin)))
                 else None
      ensures changed <==>
                || Moves(old(vramScale), WantedScale(settings, usedMib, targetMib, emergencyMib))
                || (started && (lanes != old(lanes)
                                || batchPerLane != ApplyBatchScale(old(plannedBatchPerLane),
                                                                   CombinedScale(settings, thermalScale, vramScale))))
      ensures started && (lanes != old(lanes) || batchPerLane != old(batchPerLane)) ==> changed
    {
      var oldScale := vramScale;
      if !settings.vramSoftEnabled {
        scale := SetVramBatchScale(1.0);
        vramLaneCap := None;
        changed := ReapplyLiveCaps(engineOk);
        activeLanes := lanes;
        if Moves(oldScale, 1.0) {
          changed := true;
        }
        return;
      }
      var wanted := VramPressureScale(usedMib, targetMib, emergencyMib, settings.vramSoftMinScale);
      PressureScaleFallsWithUse(usedMib, usedMib, targetMib, emergencyMib, settings.vramSoftMinScale);
      scale := SetVramBatchScale(wanted);
      var planned := if basePlan.Some? then BiasedLanes(settings, basePlan.value) else lanes;
      vramLaneCap := if settings.vramSoftLaneEnabled && planned > 1
                     then Some(VramPressureLaneCap(planned, usedMib, targetMib, emergencyMib, Max(1, settings.thermalLaneMin)))
                     else None;
      changed := ReapplyLiveCaps(engineOk);
      activeLanes := lanes;
      if Moves(oldScale, wanted) {
        changed := true;
      }
    }

    method UpdateThermalBatchFromTemp(temperatureC: int) returns (r: real)
      requires Valid()
      modifies this`thermalScale, this`batchPerLane
      ensures Valid() && r == thermalScale
      ensures thermalScale == NextScale(old(thermalScale),
                if settings.thermalBatchEnabled
                then ThermalBatchScale(temperatureC, settings.warnTempC, settings.maxTempC, settings.thermalBatchMinScale, 5)
                else 1.0,
                settings.ThermalFloor())
    {
      if !settings.thermalBatchEnabled {
        r := SetThermalBatchScale(1.0);
        return;
      }
      r := SetThermalBatchScale(
        ThermalBatchScale(temperatureC, settings.warnTempC, settings.maxTempC, settings.thermalBatchMinScale, 5));
    }

    method UpdateThermalLanesFromTemp(temperatureC: int, engineOk: bool) returns (activeLanes: int, changed: bool)
      requires Valid()
      modifies this
      ensures Valid() && basePlan == old(basePlan) && started == old(started)
      ensures activeLanes == lanes
      ensures thermalScale == old(thermalScale) && vramScale == old(vramScale) && vramLaneCap == old(vramLaneCap)
      ensures !started || !settings.thermalLaneEnabled ==> thermalLaneCap == old(thermalLaneCap) && lanes == old(lanes)
      ensures started && settings.thermalLaneEnabled ==>
                thermalLaneCap == Some(ThermalLaneCap(BiasedLanes(settings, basePlan.value), temperatureC,
                                                      settings.warnTempC, settings.maxTempC,
                                                      Max(1, settings.thermalLaneMin), 8, 3))
      ensures changed <==> lanes != old(lanes) || batchPerLane != old(batchPerLane) || thermalLaneCap != old(thermalLaneCap)
      ensures !started || !settings.thermalLaneEnabled ==> !changed
    {
      if basePlan.None? || !settings.thermalLaneEnabled {
        return lanes, false;
      }
      var cap := ThermalLaneCap(BiasedLanes(settings, basePlan.value), temperatureC,
                                settings.warnTempC, settings.maxTempC, Max(1, settings.thermalLaneMin), 8, 3);
      var previous := thermalLaneCap;
      thermalLaneCap := Some(cap);
      changed := ReapplyLiveCaps(engineOk);
      activeLanes := lanes;
      if previous != Some(cap) {
        changed := true;
      }
    }

    method ReduceLaneCap() returns (cap: int)
      requires Valid()
      modifies this`maxLanesCap
      ensures Valid() && cap == maxLanesCap == Max(1, old(maxLanesCap) - 1)
    {
      maxLanesCap := Max(1, maxLanesCap - 1);
      cap := maxLanesCap;
    }

    method SetVramCaps(caps: Option<VramCaps>)
      requires Valid()
      requires caps.Some? ==> 0 <= caps.value.headroomMib
      modifies this`vramCaps
      ensures Valid() && vramCaps == caps
    {
      vramCaps := caps;
    }

    // -- lifecycle

    /** Initialise the engine with a reserve resolved for a guessed 32 GiB card, and note the cold baseline. */
    method InitEngine(totalBytes: nat, freeBytes: nat)
      requires Valid() && !started
      modifies this`vramCaps, this`desktopBaselineMib, this`foreignVramMib
      ensures Valid() && desktopBaselineMib == foreignVramMib == UsedMib(totalBytes, freeBytes)
      ensures RequestFor(totalBytes, freeBytes, difficulty) == old(StartRequest(totalBytes, freeBytes))
    {
      vramCaps := Some(CapsFor(32768));
      desktopBaselineMib := UsedMib(totalBytes, freeBytes);
      foreignVramMib := desktopBaselineMib;
    }

    method Load(base: Plan, engineOk: bool)
      requires Valid() && !started && Packed(base)
      requires parallelSupported ==> base.concurrentVramLanes == base.lanes
      modifies this`basePlan, this`vramPlan, this`lanes, this`plannedBatchPerLane, this`batchPerLane
      modifies this`parallelMode, this`started
      ensures Valid() && started && basePlan == Some(base)
      ensures parallelMode == EngineMode(settings, parallelSupported, lanes, engineOk)
    {
      hide EffectivePlan, ApplyBatchScale, CombinedScale, Packed;
      ApplyPlan(base);
      started := true;
      SyncLaneEngines(engineOk);
    }

    /** Plan and load; a plan the device cannot hold leaves the backend stopped. */
    method Start(totalBytes: nat, freeBytes: nat, engineOk: bool) returns (ok: bool)
      requires Valid()
      modifies this
      ensures Valid() && ok == started
      ensures old(started) ==> ok && basePlan == old(basePlan) && lanes == old(lanes) && batchPerLane == old(batchPerLane)
      ensures !old(started) ==>
                var plan := AcceptPlan(settings, old(StartRequest(totalBytes, freeBytes)));
                && (ok <==> plan.Some? && BatchFitsBudget(settings, plan.value, difficulty))
                && (ok ==> basePlan == plan && plan.value.limits.difficulty == difficulty
                           && plan.value.TotalMib() == totalBytes / MIB
                           && parallelMode == EngineMode(settings, parallelSupported, lanes, engineOk))
      ensures difficulty == old(difficulty) && thermalScale == old(thermalScale) && vramScale == old(vramScale)
      ensures thermalLaneCap == old(thermalLaneCap) && vramLaneCap == old(vramLaneCap)
    {
      hide EffectivePlan, ApplyBatchScale, CombinedScale, Packed, AcceptPlan, RequestFor, StartRequest, BatchFitsBudget;
      if started {
        return true;
      }
      InitEngine(totalBytes, freeBytes);
      var base := PlanFromDevice(totalBytes, freeBytes, difficulty);
      if base.None? || !BatchFitsBudget(settings, base.value, difficulty) {
        return false;
      }
      Load(base.value, engineOk);
      ok := true;
    }

    method Stop()
      requires Valid()
      modifies this
      ensures Valid() && !started
      ensures old(started) ==> thermalLaneCap == None && desktopBaselineMib == 0
      ensures vramLaneCap == old(vramLaneCap) && thermalScale == old(thermalScale) && vramScale == old(vramScale)
      ensures difficulty == old(difficulty) && maxLanesCap == old(maxLanesCap)
    {
      if started {
        started := false;
        vramPlan := None;
        basePlan := None;
        thermalLaneCap := None;
        desktopBaselineMib := 0;
        foreignVramMib := 0;
        parallelMode := SequentialMode;
      }
    }

    /** A failed replan keeps hashing with the old plan, under the new difficulty. */
    method SetDifficulty(newDifficulty: int, totalBytes: nat, freeBytes: nat, engineOk: bool)
      requires Valid()
      modifies this
      ensures Valid() && started == old(started)
      ensures thermalScale == old(thermalScale) && vramScale == old(vramScale)
      ensures thermalLaneCap == old(thermalLaneCap) && vramLaneCap == old(vramLaneCap)
      ensures difficulty == if newDifficulty == old(difficulty) && started then newDifficulty else Max(1, newDifficulty)
      ensures started && newDifficulty != old(difficulty) ==>
                var plan := AcceptPlan(settings, old(RequestFor(totalBytes, freeBytes, Max(1, newDifficulty))));
                && basePlan == (if plan.Some? then Some(TrimToBudget(settings, plan.value, difficulty)) else old(basePlan))
                && (plan.None? ==> lanes == old(lanes) && batchPerLane == old(batchPerLane))
      ensures newDifficulty == old(difficulty) ==> basePlan == old(basePlan) && lanes == old(lanes)
    {
      hide EffectivePlan, ApplyBatchScale, CombinedScale, Packed, AcceptPlan, RequestFor, TrimToBudget;
      if newDifficulty == difficulty && started {
        return;
      }
      difficulty := Max(1, newDifficulty);
      if !started {
        return;
      }
      var planned := PlanFromDevice(totalBytes, freeBytes, difficulty);
      if planned.None? {
        return;
      }
      var base := TrimToBudget(settings, planned.value, difficulty);
      TrimKeepsPacked(settings, planned.value, difficulty);
      ApplyPlan(base);
      SyncLaneEngines(engineOk);
    }
  }

  lemma TrimKeepsPacked(s: Settings, plan: Plan, difficulty: int)
    requires Packed(plan)
    ensures Packed(TrimToBudget(s, plan, difficulty))
    ensures TrimToBudget(s, plan, difficulty).limits == plan.limits
    ensures TrimToBudget(s, plan, difficulty).lanes == plan.lanes
    ensures TrimToBudget(s, plan, difficulty).concurrentVramLanes == plan.concurrentVramLanes
  {
    var trimmed := TrimToBudget(s, plan, difficulty);
    FootprintMonotone(plan.concurrentVramLanes, trimmed.batchPerLane,
                      plan.concurrentVramLanes, plan.batchPerLane, plan.limits.difficulty);
  }

  /**
    Lane copies of a sequential plan: each copy loads a batch sized for the whole budget. Without explicit sizes
    they stay within the budget exactly when there is one lane, and when the whole room is budgeted, within the caps.
   */
  lemma CopiesOfASequentialPlan(request: Request)
    requires Sequential(request) && 1 <= request.difficulty && 0 <= request.desktopHeadroomMib
    requires request.explicitBatch <= 0 && request.explicitMaxBatch <= 0
    requires ShareSized(request) >= 1
    ensures var plan := PlanCudaBatch(request);
            Footprint(plan.lanes, plan.batchPerLane, request.difficulty) <= plan.limits.budgetBytes * 1000
            <==> plan.lanes == 1
    ensures request.budgetFillFraction >= 0.999 ==>
              var plan := PlanCudaBatch(request);
              (FitsCaps(plan.lanes, plan.batchPerLane, plan.limits, request.totalBytes / MIB) <==> plan.lanes == 1)
  {
    PlannerNeverNeedsTheClamp(request);
    var b, lanes := PlannedBatch(request), PlannedLanes(request);
    PlannedBatchFits(request);
    PlannedBatchIsGreatest(request, b + 1);
    if lanes > 1 {
      FootprintMonotone(2, b, lanes, b, request.difficulty);
      FootprintMonotone(1, b + 1, 1, 2 * b, request.difficulty);
      assert Footprint(2, b, request.difficulty) == Footprint(1, 2 * b, request.difficulty);
    }
    if request.budgetFillFraction >= 0.999 {
      FullBudgetIsTheRoom(request);
      FitsCapsIsRoom(lanes, b, RequestLimits(request), request.totalBytes / MIB);
    }
  }

  /** Without a fill fraction the budget is all the room there is. */
  lemma FullBudgetIsTheRoom(request: Request)
    requires request.budgetFillFraction >= 0.999 && ShareSized(request) >= 1
    ensures BudgetBytes(request) == RoomBytes(RequestLimits(request), request.totalBytes / MIB)
  {
    PlannedBatchFits(request);
    assert AllowedBatchMib(request) >= 1;
  }

  // ---------------------------------------------------------------- witnesses

  /** No percentages, no floors: only the two absolute caps given. */
  function TwoCaps(targetMib: int, headroomMib: int): PolicyConfig {
    PolicyConfig(0.0, 0.0, 0.0, 0.0, 0.0, 0, 0, 0, targetMib, headroomMib, 0, 0, 0)
  }

  function PlainSettings(
    reference: int, laneReserve: int, minBatch: int, packMode: PackMode, copies: bool, policy: PolicyConfig): Settings
  {
    Settings(0, 0, laneReserve, minBatch, packMode, reference, false, 0, false, 100, 1.0, 1.0, 1.0, 1.9,
             false, 0.5, false, 0.5, false, 1, false, 0.5, false, 80, 90, copies, policy)
  }

  lemma TwoCapsResolve(totalMib: int, targetMib: int, headroomMib: int)
    requires 1 <= totalMib && 0 < targetMib && 0 <= headroomMib && targetMib + headroomMib <= totalMib
    ensures var caps := ResolveVramCaps(totalMib, TwoCaps(targetMib, headroomMib));
            caps.totalMib == totalMib && caps.targetMib == targetMib && caps.headroomMib == headroomMib
            && caps.runtimeOverheadMib == 0
  {
  }

  function CopiesRequest(): Request {
    Request(4096 * MIB, 4096 * MIB, 1000, 512, 1000, 1100, 2, 0, 0, 0, 0, 1, Coverage, 0, 0, Some(1), 1.0)
  }

  lemma CopiesPlan(s: Settings)
    requires s == PlainSettings(1100, 0, 1, Coverage, true, TwoCaps(1000, 512))
    ensures var plan := PlanCudaBatch(CopiesRequest());
            && AcceptPlan(s, CopiesRequest()) == Some(plan) && BatchFitsBudget(s, plan, 1000)
            && plan.lanes == 2 && plan.batchPerLane == 1022 && plan.concurrentVramLanes == 1
            && !FitsCaps(2, 1022, plan.limits, plan.TotalMib())
  {
    var request := CopiesRequest();
    PlannerNeverNeedsTheClamp(request);
    assert AttemptCost(1000) == 1025024000;
    assert BudgetBytes(request) == 1048576000 && PlannedLanes(request) == 2 && ResidentLanes(request) == 1;
    assert ShareSized(request) == 1022 && PlannedBatch(request) == 1022;
    CopiesOfASequentialPlan(request);
    PlannerPacks(request);
  }

  /** A start that is let through and overruns its caps: two lane copies of a plan made for one buffer. */
  method StartTwoCopies() returns (backend: Backend)
    ensures backend.Valid() && backend.started && backend.parallelMode == DllCopies && backend.lanes == 2
    ensures !FitsCaps(backend.ResidentNow(), backend.batchPerLane,
                      backend.basePlan.value.limits, backend.basePlan.value.TotalMib())
  {
    var s := PlainSettings(1100, 0, 1, Coverage, true, TwoCaps(1000, 512));
    backend := new Backend(s, false, 1000, 2);
    TwoCapsResolve(32768, 1000, 512);
    TwoCapsResolve(4096, 1000, 512);
    assert backend.StartRequest(4096 * MIB, 4096 * MIB) == CopiesRequest();
    CopiesPlan(s);
    hide AcceptPlan, BatchFitsBudget, PlanCudaBatch, FitsCaps, CopiesRequest, Packed;
    var ok := backend.Start(4096 * MIB, 4096 * MIB, true);
    FullScaleKeepsTheBatch(s, 1022);
  }

  lemma FullScaleKeepsTheBatch(s: Settings, batch: int)
    requires 1 <= batch
    ensures ApplyBatchScale(batch, CombinedScale(s, 1.0, 1.0)) == batch
  {
    ScaledBatchBounds(batch, 1.0, CombinedScale(s, 1.0, 1.0));
  }

  lemma ThreeReadings(floor: real)
    requires floor == 0.55
    ensures VramPressureScale(1100, 1000, 2000, floor) == 0.955
    ensures VramPressureScale(1001, 1000, 2000, floor) == 0.99955
    ensures VramPressureScale(900, 1000, 2000, floor) == 1.0
  {
    assert 100 as real / 1000 as real == 0.1 && 1 as real / 1000 as real == 0.001;
  }

  /** Memory use that rises, falls almost to the target and then below it leaves a derate nothing asks for. */
  method LeaveASmallDerate() returns (backend: Backend)
    ensures backend.Valid() && backend.vramScale == 0.99955
    ensures WantedScale(backend.settings, 900, 1000, 2000) == 1.0
    ensures NextScale(backend.vramScale, 1.0, backend.settings.VramFloor()) == backend.vramScale
  {
    var s := PlainSettings(1100, 0, 1, Fill, false, TwoCaps(1000, 0))
             .(vramSoftEnabled := true, vramSoftMinScale := 0.55);
    backend := new Backend(s, false, 1000, 1);
    ThreeReadings(0.55);
    hide VramPressureScale;
    var scale, lanes, changed := backend.UpdateVramPressureFromUsed(1100, 1000, 2000, true);
    assert backend.vramScale == 0.955;
    scale, lanes, changed := backend.UpdateVramPressureFromUsed(1001, 1000, 2000, true);
    assert backend.vramScale == 0.99955;
    scale, lanes, changed := backend.UpdateVramPressureFromUsed(900, 1000, 2000, true);
  }

  /** A start that is refused although its plan is inside every cap. */
  method StartRefused() returns (backend: Backend, ok: bool)
    ensures !ok && backend.Valid() && !backend.started
    ensures AcceptPlan(backend.settings, RefusedRequest()).Some?
  {
    var s := PlainSettings(500, 1, 2048, Boost, false, TwoCaps(1001, 0));
    backend := new Backend(s, true, 100, 8);
    TwoCapsResolve(32768, 1001, 0);
    TwoCapsResolve(2048, 1001, 0);
    assert backend.StartRequest(2048 * MIB, 2048 * MIB) == RefusedRequest();
    StartRefusesAFittingPlan(s, RefusedRequest());
    hide AcceptPlan, BatchFitsBudget, PlanCudaBatch, RefusedRequest, Packed;
    ok := backend.Start(2048 * MIB, 2048 * MIB, true);
  }
}
