/** What the planner of VramBatch guarantees, for every request. */
module PlannerProofs {
  import opened Numbers
  import opened VramBatch

  /** Footprint of `resident` batches, in thousandths of a byte. */
  function Footprint(resident: int, batch: int, difficulty: int): int {
    resident * batch * AttemptCost(difficulty)
  }

  /** The caps, counted in the same unit. */
  predicate FitsCaps(resident: int, batch: int, limits: Limits, totalMib: int) {
    var fixed := (limits.foreignUsedMib + limits.runtimeOverheadMib) * MIB * 1000;
    var used := fixed + Footprint(resident, batch, limits.difficulty);
    && used <= limits.targetMib * MIB * 1000
    && used + limits.desktopHeadroomMib * MIB * 1000 <= totalMib * MIB * 1000
  }

  /** The budget was carved out of the room under the target and above the headroom. */
  predicate Carved(limits: Limits, totalMib: int) {
    var allowed := Min(limits.targetMib, totalMib - limits.desktopHeadroomMib)
                   - limits.foreignUsedMib - limits.runtimeOverheadMib;
    && 0 <= limits.foreignUsedMib
    && 0 <= limits.desktopHeadroomMib
    && 0 <= limits.budgetBytes <= allowed * MIB
  }

  /** What every usable plan satisfies, from the planner through all the live caps. */
  predicate Packed(p: Plan) {
    && 1 <= p.concurrentVramLanes <= p.lanes <= DEFAULT_ABSOLUTE_MAX_LANES
    && (p.concurrentVramLanes == 1 || p.concurrentVramLanes == p.lanes)
    && 1 <= p.batchPerLane
    && 1 <= p.limits.difficulty
    && Footprint(p.concurrentVramLanes, p.batchPerLane, p.limits.difficulty) <= p.limits.budgetBytes * 1000
    && Carved(p.limits, p.TotalMib())
    && p.WithinLimits()
  }

  /** Bytes between the fixed memory and the nearer of target and headroom. */
  function RoomBytes(limits: Limits, totalMib: int): int {
    (Min(limits.targetMib, totalMib - limits.desktopHeadroomMib) - limits.foreignUsedMib - limits.runtimeOverheadMib) * MIB
  }

  // ------------------------------------------------------- arithmetic base

  /** As many lanes are resident as the plan says, if it says, and never more than there are. */
  lemma ResidentLanesExactly(p: Plan, n: int)
    ensures n <= p.EffectiveConcurrent() <==>
              n <= 1 || (n <= p.lanes && (p.concurrentVramLanes > 0 ==> n <= p.concurrentVramLanes))
  {
  }

  /** A batch size is the greatest that fits, and no more than the user's limit or, when not filling, the advised size. */
  lemma SelectedIsGreatest(budgetBytes: int, difficulty: int, explicitMaxBatch: int, fillVramCap: bool, b: int)
    requires 1 <= b && 1 <= budgetBytes
    ensures b <= SelectBatchSize(budgetBytes, difficulty, explicitMaxBatch, fillVramCap) <==>
              && 1 <= difficulty && Footprint(1, b, difficulty) <= budgetBytes * 1000
              && (explicitMaxBatch > 0 ==> b <= explicitMaxBatch)
              && (explicitMaxBatch <= 0 && !fillVramCap && difficulty <= 64 ==>
                    b <= if difficulty <= 1 then 2048 else if difficulty <= 8 then 4096 else 3072)
  {
    if 1 <= difficulty {
      AttemptsInIsGreatest(budgetBytes, difficulty, b);
      AttemptsInIsGreatest(budgetBytes, difficulty, 1);
      hide AttemptsIn, AttemptCost;
      assert Footprint(1, b, difficulty) == b * AttemptCost(difficulty);
    }
  }

  /** The estimate is the whole bytes of one batch. */
  lemma EstimateIsWholeBytes(batch: int, difficulty: int)
    requires 1 <= batch && 1 <= difficulty
    ensures EstimateBatchVramBytes(batch, difficulty) * 1000 <= Footprint(1, batch, difficulty)
          < (EstimateBatchVramBytes(batch, difficulty) + 1) * 1000
  {
    assert Footprint(1, batch, difficulty) == batch * AttemptCost(difficulty);
  }

  /** What a plan reports: whole MiB of its resident batches, the memory then in use, and what is left of the card. */
  lemma PlanReports(request: Request)
    requires 1 <= request.difficulty && PlannedBatch(request) >= 1
    ensures var p := PlanCudaBatch(request);
            && p.batchVramBytes == EstimateBatchVramBytes(p.batchPerLane, request.difficulty) * ResidentLanes(request)
            && p.batchVramMib * MIB <= p.batchVramBytes < (p.batchVramMib + 1) * MIB
            && p.projectedUsedMib == Max(0, request.foreignUsedMib) + p.batchVramMib
                 + Max(0, request.runtimeOverheadMib) + Max(0, request.safetyMarginMib)
            && p.projectedHeadroomMib == Max(0, request.totalBytes / MIB - p.projectedUsedMib)
            && p.limits.budgetMib * MIB <= BudgetBytes(request) < (p.limits.budgetMib + 1) * MIB
            && p.limits.usedBeforeMib == Max(0, (request.totalBytes - request.freeBytes) / MIB)
            && 0 <= p.limits.laneReserve < p.lanes && p.limits.laneReserve <= Max(0, request.laneReserve)
            && (0 <= request.laneReserve < p.lanes ==> p.limits.laneReserve == request.laneReserve)
  {
    PlannerNeverNeedsTheClamp(request);
    hide BudgetBytes, PlannedBatch, PlannedLanes, EstimateBatchVramBytes;
  }

  lemma CancelFactor(factor: int, a: int, b: int)
    requires 0 < factor && factor * a < factor * b
    ensures a < b
  {
  }

  lemma AttemptsInIsGreatest(bytes: int, difficulty: int, q: int)
    requires 1 <= difficulty
    ensures q * AttemptCost(difficulty) <= bytes * 1000 <==> q <= AttemptsIn(bytes, difficulty)
  {
    DivIsGreatest(bytes * 1000, AttemptCost(difficulty), q);
  }

  lemma SplitAttempts(bytes: int, difficulty: int, conc: int, b: int)
    requires 1 <= difficulty && 1 <= conc
    ensures Footprint(conc, b, difficulty) <= bytes * 1000 <==> b <= AttemptsIn(bytes, difficulty) / conc
  {
    DivIsGreatest(AttemptsIn(bytes, difficulty), conc, b);
    AttemptsInIsGreatest(bytes, difficulty, b * conc);
  }

  lemma FootprintMonotone(r1: int, b1: int, r2: int, b2: int, difficulty: int)
    requires 0 <= r1 <= r2 && 0 <= b1 <= b2 && 0 <= difficulty
    ensures Footprint(r1, b1, difficulty) <= Footprint(r2, b2, difficulty)
  {
    MulMonotone(r1, r2, b1);
    MulMonotone(b1, b2, r2);
    MulMonotone(r1 * b1, r2 * b2, AttemptCost(difficulty));
  }

  lemma ShareBatchFits(limits: Limits, conc: int)
    requires 1 <= limits.difficulty && 1 <= conc
    ensures ShareBatch(limits, conc) >= 0
    ensures ShareBatch(limits, conc) == Max(0, AttemptsIn(Max(1, limits.budgetBytes / conc), limits.difficulty))
    ensures ShareBatch(limits, conc) >= 1 ==>
              Footprint(conc, ShareBatch(limits, conc), limits.difficulty) <= limits.budgetBytes * 1000
  {
    var share := Max(1, limits.budgetBytes / conc);
    var q := AttemptsIn(share, limits.difficulty);
    AttemptsInIsGreatest(share, limits.difficulty, 0);
    if q >= 1 {
      AttemptsInIsGreatest(share, limits.difficulty, q);
      AttemptsInIsGreatest(1, limits.difficulty, 1);
      assert share == limits.budgetBytes / conc by {
        MulMonotone(1, q, AttemptCost(limits.difficulty));
      }
      MulMonotone(q * AttemptCost(limits.difficulty), share * 1000, conc);
      assert Footprint(conc, q, limits.difficulty) == q * AttemptCost(limits.difficulty) * conc;
      assert conc * share <= limits.budgetBytes;
    }
  }

  /** Dropping one of `fewer + 1` equal parts frees more bytes than the floor division loses. */
  lemma FloorLossIsSmall(part: int, bytes: int, fewer: int)
    requires 1 <= fewer < DEFAULT_ABSOLUTE_MAX_LANES
    requires ATTEMPT_COST <= part && (fewer + 1) * part <= bytes * 1000
    ensures part <= bytes / fewer * 1000
  {
    var share := bytes / fewer;
    assert bytes < fewer * (share + 1);
    assert fewer * (share * 1000 + 1) == fewer * share * 1000 + fewer;
    assert fewer * part < fewer * (share * 1000 + 1);
    CancelFactor(fewer, part, share * 1000 + 1);
  }

  lemma CostAtLeastOneUnit(batch: int, difficulty: int)
    requires 1 <= batch && 1 <= difficulty
    ensures ATTEMPT_COST <= batch * AttemptCost(difficulty)
  {
    MulMonotone(1, difficulty, ATTEMPT_COST);
    MulMonotone(1, batch, AttemptCost(difficulty));
  }

  lemma FootprintInParts(resident: int, batch: int, difficulty: int)
    ensures Footprint(resident, batch, difficulty) == resident * (batch * AttemptCost(difficulty))
  {
  }

  lemma OneShareHolds(bytes: int, fewer: int, batch: int, difficulty: int)
    requires 1 <= difficulty && 1 <= fewer < DEFAULT_ABSOLUTE_MAX_LANES
    requires ATTEMPT_COST <= batch * AttemptCost(difficulty)
    requires Footprint(fewer + 1, batch, difficulty) <= bytes * 1000
    ensures batch <= AttemptsIn(Max(1, bytes / fewer), difficulty)
  {
    hide Footprint, AttemptCost, AttemptsIn;
    FootprintInParts(fewer + 1, batch, difficulty);
    FloorLossIsSmall(batch * AttemptCost(difficulty), bytes, fewer);
    AttemptsInIsGreatest(bytes / fewer, difficulty, batch);
  }

  /** Splitting the budget over fewer resident lanes never shrinks a lane's batch. */
  lemma FewerLanesBiggerShare(limits: Limits, conc: int, batch: int, fewer: int)
    requires 1 <= limits.difficulty && 1 <= fewer < conc <= DEFAULT_ABSOLUTE_MAX_LANES
    requires 0 <= batch && Footprint(conc, batch, limits.difficulty) <= limits.budgetBytes * 1000
    ensures batch <= ShareBatch(limits, fewer)
  {
    hide ShareBatch, Footprint, AttemptCost, AttemptsIn;
    ShareBatchFits(limits, fewer);
    if batch >= 1 {
      FootprintMonotone(fewer + 1, batch, conc, batch, limits.difficulty);
      CostAtLeastOneUnit(batch, limits.difficulty);
      OneShareHolds(limits.budgetBytes, fewer, batch, limits.difficulty);
    }
  }

  lemma EstimateBelowFootprint(conc: int, batch: int, difficulty: int)
    requires 0 <= conc && 0 <= batch && 0 <= difficulty
    ensures EstimateBatchVramBytes(batch, difficulty) * conc * 1000 <= Footprint(conc, batch, difficulty)
  {
    var one := EstimateBatchVramBytes(batch, difficulty);
    assert one * 1000 <= batch * AttemptCost(difficulty);
    MulMonotone(one * 1000, batch * AttemptCost(difficulty), conc);
    assert batch * AttemptCost(difficulty) * conc == Footprint(conc, batch, difficulty);
  }

  /** A footprint inside a carved budget projects inside both caps, and the total is rebuilt exactly. */
  lemma InsideBudgetIsInsideLimits(limits: Limits, batch: int, lanes: int, totalMib: int, conc: int)
    requires 1 <= conc <= lanes && 0 <= batch && 0 <= limits.difficulty
    requires Footprint(conc, batch, limits.difficulty) <= limits.budgetBytes * 1000
    requires Carved(limits, totalMib)
    ensures MakePlan(limits, batch, lanes, totalMib, conc).WithinLimits()
    ensures MakePlan(limits, batch, lanes, totalMib, conc).TotalMib() == totalMib
  {
    EstimateBelowFootprint(conc, batch, limits.difficulty);
  }

  /** The projected MiB figures stand for exact bytes: a packed plan fits the caps to the byte. */
  lemma PackedFitsCaps(p: Plan, resident: int, batch: int)
    requires Packed(p)
    requires 0 <= resident <= p.concurrentVramLanes && 0 <= batch <= p.batchPerLane
    ensures FitsCaps(resident, batch, p.limits, p.TotalMib())
  {
    FootprintMonotone(resident, batch, p.concurrentVramLanes, p.batchPerLane, p.limits.difficulty);
  }

  // ----------------------------------------------------------- the planner

  lemma FitsCapsIsRoom(resident: int, batch: int, limits: Limits, totalMib: int)
    ensures FitsCaps(resident, batch, limits, totalMib)
       <==> Footprint(resident, batch, limits.difficulty) <= RoomBytes(limits, totalMib) * 1000
  {
    hide Footprint;
  }

  /** Any number of resident batches is inside both caps exactly when that many attempts fit the room. */
  lemma FitsCapsExactly(resident: int, batch: int, limits: Limits, totalMib: int)
    requires 1 <= limits.difficulty
    ensures FitsCaps(resident, batch, limits, totalMib)
       <==> resident * batch <= AttemptsIn(RoomBytes(limits, totalMib), limits.difficulty)
  {
    FitsCapsIsRoom(resident, batch, limits, totalMib);
    AttemptsInIsGreatest(RoomBytes(limits, totalMib), limits.difficulty, resident * batch);
    hide AttemptCost, AttemptsIn;
    assert Footprint(resident, batch, limits.difficulty) == resident * batch * AttemptCost(limits.difficulty);
  }

  lemma BudgetIsCarved(request: Request)
    ensures 0 <= BudgetBytes(request) <= Max(1, AllowedBatchMib(request) * MIB)
  {
    var full := AllowedBatchMib(request) * MIB;
    var fill := MaxReal(0.40, MinReal(1.0, request.budgetFillFraction));
    if fill < 0.999 {
      FractionBounds(full, fill);
    }
  }

  lemma ShareSizedBounds(request: Request)
    requires 1 <= request.difficulty
    ensures ShareSized(request) <= LimitedTo(LimitedTo(
              AttemptsIn(BudgetBytes(request), request.difficulty) / ResidentLanes(request),
              request.explicitMaxBatch), request.explicitBatch) || ShareSized(request) == 0
    ensures ShareSized(request) >= 0
    ensures ShareSized(request) >= 1 ==> AllowedBatchMib(request) >= 1
  {
    var conc := ResidentLanes(request);
    var limits := RequestLimits(request);
    BudgetIsCarved(request);
    ShareBatchFits(limits, conc);
    SplitAttempts(BudgetBytes(request), request.difficulty, conc, ShareBatch(limits, conc));
    if ShareSized(request) >= 1 {
      assert ShareBatch(limits, conc) >= 1;
      FootprintMonotone(1, 1, conc, ShareBatch(limits, conc), request.difficulty);
      MulMonotone(1, request.difficulty, ATTEMPT_COST);
    }
  }

  /**
    More than one lane: as many as the difficulty leaves below the reference, or as many as hold the smallest
    batch in the budget if that is more, up to the maximum; and one if the budget holds no attempt at all.
   */
  lemma LaneCountIsGreatest(
    difficulty: int, reference: int, maxLanes: int, budget: int, minBatch: int, mode: PackMode, n: int)
    requires 2 <= n
    ensures n <= CudaLaneCount(difficulty, reference, maxLanes, budget, minBatch, mode) <==>
              && 0 < difficulty < reference && n <= maxLanes && n <= DEFAULT_ABSOLUTE_MAX_LANES
              && (if mode == Boost || budget <= 0 then n * difficulty <= reference
                  else AttemptCost(difficulty) <= budget * 1000
                       && (n * difficulty <= reference || Footprint(n, Max(1, minBatch), difficulty) <= budget * 1000))
  {
    if 0 < difficulty < reference && maxLanes > 1 {
      DivIsGreatest(reference, difficulty, n);
      if mode != Boost && budget > 0 {
        var attempts := AttemptsIn(budget, difficulty);
        AttemptsInIsGreatest(budget, difficulty, 1);
        LanesOfBatches(budget, difficulty, n, Max(1, minBatch));
        hide Footprint, AttemptCost, AttemptsIn;
      }
    }
  }

  lemma LanesOfBatches(bytes: int, difficulty: int, n: int, batch: int)
    requires 1 <= difficulty && 1 <= batch
    ensures Footprint(n, batch, difficulty) <= bytes * 1000 <==> n <= AttemptsIn(bytes, difficulty) / batch
  {
    DivIsGreatest(AttemptsIn(bytes, difficulty), batch, n);
    AttemptsInIsGreatest(bytes, difficulty, n * batch);
  }

  lemma PlannedBatchFits(request: Request)
    ensures PlannedBatch(request) >= 0
    ensures PlannedBatch(request) == 0 <==> ShareSized(request) == 0
    ensures request.difficulty <= 0 || AllowedBatchMib(request) == 0 ==> PlannedBatch(request) == 0
    ensures PlannedBatch(request) >= 1 ==>
              Footprint(ResidentLanes(request), PlannedBatch(request), request.difficulty)
              <= BudgetBytes(request) * 1000
  {
    if request.difficulty >= 1 {
      ShareSizedBounds(request);
      SplitAttempts(BudgetBytes(request), request.difficulty, ResidentLanes(request), PlannedBatch(request));
    }
  }

  /**
    The planner's batch is the greatest that fits the budget with its resident lanes, whenever
    one whole-byte share holds an attempt; the user's sizes only lower it.
   */
  lemma PlannedBatchIsGreatest(request: Request, b: int)
    requires 1 <= request.difficulty
    requires ShareSized(request) >= 1
    ensures b <= PlannedBatch(request) <==>
              && Footprint(ResidentLanes(request), b, request.difficulty) <= BudgetBytes(request) * 1000
              && (request.explicitMaxBatch > 0 ==> b <= request.explicitMaxBatch)
              && (request.explicitBatch > 0 ==> b <= request.explicitBatch)
  {
    ShareSizedBounds(request);
    BudgetIsCarved(request);
    SplitAttempts(BudgetBytes(request), request.difficulty, ResidentLanes(request), b);
    assert BudgetBytes(request) > 0 by {
      SplitAttempts(0, request.difficulty, ResidentLanes(request), 1);
      var most := AttemptsIn(BudgetBytes(request), request.difficulty) / ResidentLanes(request);
      assert most >= 1;
      SplitAttempts(BudgetBytes(request), request.difficulty, ResidentLanes(request), 1);
      FootprintMonotone(1, 1, ResidentLanes(request), 1, request.difficulty);
    }
  }

  /** The user's fill fraction, kept between 0.40 and the whole. */
  function FillShare(request: Request): real {
    ClampReal(request.budgetFillFraction, 0.40, 1.0)
  }

  /** The room a request leaves between its fixed memory and the nearer of target and headroom. */
  function RequestRoom(request: Request): int {
    (Min(request.targetMib, request.totalBytes / MIB - request.desktopHeadroomMib)
     - Max(0, request.foreignUsedMib) - Max(0, request.runtimeOverheadMib) - Max(0, request.safetyMarginMib)) * MIB
  }

  /** The budget is the whole bytes of the filled share of the room; a share of nothing still counts one byte. */
  lemma BudgetIsTheShare(request: Request, b: int)
    requires 0 < RequestRoom(request)
    ensures b <= BudgetBytes(request) <==>
              if FillShare(request) < 0.999 then b <= 1 || b as real <= RequestRoom(request) as real * FillShare(request)
              else b <= RequestRoom(request)
  {
    hide AllowedBatchMib, RequestRoom, FilledTo;
    RoomIsAllowed(request);
    FilledIsTheShare(RequestRoom(request), FillShare(request), b);
  }

  lemma RoomIsAllowed(request: Request)
    requires 0 < RequestRoom(request)
    ensures AllowedBatchMib(request) * MIB == RequestRoom(request)
  {
  }

  lemma FilledIsTheShare(full: int, fill: real, b: int)
    requires 0 < full && 0.40 <= fill <= 1.0
    ensures b <= FilledTo(full, fill) <==> if fill < 0.999 then b <= 1 || b as real <= full as real * fill else b <= full
  {
    FractionBounds(full, fill);
    WholePart(full as real * fill, b);
    hide Truncate;
  }

  lemma WholePart(x: real, b: int)
    ensures 0.0 <= x ==> (b <= Truncate(x) <==> b as real <= x)
  {
  }

  /**
    The planned batch is the greatest whose resident footprint fits the filled share of the room, whenever one
    whole-byte share of it holds an attempt; the user's sizes only lower it.
   */
  lemma PlannedBatchFillsTheShare(request: Request, b: int, share: int)
    requires 1 <= request.difficulty && ShareSized(request) >= 1
    requires share == if FillShare(request) < 0.999 then (RequestRoom(request) as real * FillShare(request)).Floor
                      else RequestRoom(request)
    ensures 0 < RequestRoom(request)
    ensures b <= PlannedBatch(request) <==>
              && Footprint(ResidentLanes(request), b, request.difficulty) <= share * 1000
              && (request.explicitMaxBatch > 0 ==> b <= request.explicitMaxBatch)
              && (request.explicitBatch > 0 ==> b <= request.explicitBatch)
  {
    hide BudgetBytes, PlannedBatch, ResidentLanes, RequestRoom, FillShare, ShareSized, Footprint;
    PlannedBatchIsGreatest(request, b);
    BudgetHoldsAnAttempt(request);
    RoomOfABudget(request);
    BudgetIsTheWholeShare(request, share);
  }

  lemma BudgetHoldsAnAttempt(request: Request)
    requires 1 <= request.difficulty && ShareSized(request) >= 1
    ensures BudgetBytes(request) > 1
  {
    hide BudgetBytes, ShareSized, ResidentLanes;
    PlannedBatchFits(request);
    PlannedBatchIsGreatest(request, 1);
    ShareSizedBounds(request);
    FootprintMonotone(1, 1, ResidentLanes(request), PlannedBatch(request), request.difficulty);
    MulMonotone(1, request.difficulty, ATTEMPT_COST);
    hide Footprint, PlannedBatch;
    assert Footprint(1, 1, request.difficulty) == AttemptCost(request.difficulty);
  }

  lemma RoomOfABudget(request: Request)
    requires BudgetBytes(request) > 1
    ensures RequestRoom(request) > 0
  {
  }

  lemma BudgetIsTheWholeShare(request: Request, share: int)
    requires BudgetBytes(request) > 1 && RequestRoom(request) > 0
    requires share == if FillShare(request) < 0.999 then (RequestRoom(request) as real * FillShare(request)).Floor
                      else RequestRoom(request)
    ensures BudgetBytes(request) == share
  {
    hide BudgetBytes, RequestRoom, FillShare;
    BudgetIsTheShare(request, BudgetBytes(request));
    BudgetIsTheShare(request, share);
    BudgetIsTheShare(request, share + 1);
  }

  /** A lane count for one resident buffer: covering wants the most, the others lanes only at low difficulty. */
  lemma SequentialLanesAreGreatest(request: Request, n: int)
    requires 2 <= n && Sequential(request)
    ensures ResidentLanes(request) == 1
    ensures n <= PlannedLanes(request) <==>
              && request.difficulty < request.referenceDifficulty
              && n <= request.maxLanes && n <= DEFAULT_ABSOLUTE_MAX_LANES
              && (request.packMode == Coverage
                  || (request.difficulty <= 150 && n * Max(1, request.minBatchPerLane) <= BudgetBytes(request)))
  {
    DivIsGreatest(BudgetBytes(request), Max(1, request.minBatchPerLane), n);
    hide BudgetBytes;
  }

  lemma TwoMoreDoNotFit(share: int, bytes: int, conc: int, cost: int, next: int)
    requires 1 <= conc && ATTEMPT_COST <= cost
    requires bytes < conc * (share + 1) && share * 1000 < next
    ensures conc * (next + cost) > bytes * 1000
  {
    MulMonotone(share * 1000 + ATTEMPT_COST, next + cost, conc);
    assert conc * (share * 1000 + ATTEMPT_COST) == conc * share * 1000 + conc * ATTEMPT_COST;
  }

  lemma SplitLosesAtMostOne(bytes: int, difficulty: int, conc: int)
    requires 1 <= difficulty && 1 <= conc
    ensures AttemptsIn(bytes, difficulty) / conc <= AttemptsIn(Max(1, bytes / conc), difficulty) + 1
  {
    var share := Max(1, bytes / conc);
    var q := AttemptsIn(share, difficulty);
    var cost := AttemptCost(difficulty);
    AttemptsInIsGreatest(share, difficulty, q + 1);
    MulMonotone(1, difficulty, ATTEMPT_COST);
    TwoMoreDoNotFit(share, bytes, conc, cost, (q + 1) * cost);
    assert Footprint(conc, q + 2, difficulty) == conc * ((q + 1) * cost + cost);
    SplitAttempts(bytes, difficulty, conc, q + 2);
  }

  /** The top-up recovers at most one attempt per lane from the whole-byte split. */
  lemma TopUpAddsAtMostOne(request: Request)
    ensures ShareSized(request) <= PlannedBatch(request) <= ShareSized(request) + 1
  {
    PlannedBatchFits(request);
    if PlannedBatch(request) > ShareSized(request) {
      ShareSizedBounds(request);
      SplitLosesAtMostOne(BudgetBytes(request), request.difficulty, ResidentLanes(request));
    }
  }

  /** Room for the fixed memory: the only thing that decides whether a plan fits. */
  predicate FixedMemoryFits(request: Request) {
    var fixed := Max(0, request.foreignUsedMib)
                 + Max(0, request.runtimeOverheadMib) + Max(0, request.safetyMarginMib);
    && fixed <= request.targetMib
    && request.desktopHeadroomMib <= Max(0, request.totalBytes / MIB - fixed)
  }

  lemma DraftFitsExactly(request: Request)
    ensures DraftPlan(request).WithinLimits() <==> FixedMemoryFits(request)
  {
    PlannedBatchFits(request);
    BudgetIsCarved(request);
    var batch, conc := PlannedBatch(request), ResidentLanes(request);
    if batch >= 1 {
      EstimateBelowFootprint(conc, batch, request.difficulty);
    }
  }

  lemma EmptyBatchNeverClamps(steps: nat, limits: Limits, totalMib: int, lanes: int, conc: int)
    requires limits.budgetBytes <= 1 && 1 <= conc
    requires !MakePlan(limits, 0, 1, totalMib, 1).WithinLimits()
    ensures ClampSteps(steps, limits, totalMib, lanes, 0, conc) == None
  {
    if steps > 0 && lanes > 1 && conc > 1 {
      var conc' := Min(conc, lanes - 1);
      if limits.difficulty >= 1 {
        ShareBatchFits(limits, conc');
        AttemptsInIsGreatest(1, limits.difficulty, 1);
        MulMonotone(1, limits.difficulty, ATTEMPT_COST);
      }
      assert ShareBatch(limits, conc') == 0;
      EmptyBatchNeverClamps(steps - 1, limits, totalMib, lanes - 1, conc');
    }
  }

  /** The repair loop never changes what the planner drafts; a plan fits exactly when the fixed memory does. */
  lemma PlannerNeverNeedsTheClamp(request: Request)
    ensures PlanCudaBatch(request) == DraftPlan(request)
    ensures PlanCudaBatch(request).WithinLimits() <==> FixedMemoryFits(request)
  {
    DraftFitsExactly(request);
    PlannedBatchFits(request);
    BudgetIsCarved(request);
    var draft := DraftPlan(request);
    if !draft.WithinLimits() {
      assert AllowedBatchMib(request) == 0;
      assert draft.batchPerLane == 0;
      EmptyBatchNeverClamps(CLAMP_STEPS, draft.limits, draft.TotalMib(), draft.lanes, draft.EffectiveConcurrent());
    }
  }

  /** Every plan with a batch is packed. */
  lemma PlannerPacks(request: Request)
    requires 0 <= request.desktopHeadroomMib
    requires PlannedBatch(request) >= 1
    ensures Packed(PlanCudaBatch(request))
    ensures PlanCudaBatch(request).TotalMib() == request.totalBytes / MIB
  {
    PlannedBatchFits(request);
    BudgetIsCarved(request);
    PlannerNeverNeedsTheClamp(request);
    InsideBudgetIsInsideLimits(RequestLimits(request), PlannedBatch(request), PlannedLanes(request),
                               request.totalBytes / MIB, ResidentLanes(request));
  }
}
