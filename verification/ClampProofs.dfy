/** The repair loop of `clamp_plan_to_caps` and the composition of lane caps. */
module ClampProofs {
  import opened Numbers
  import opened VramBatch
  import opened PlannerProofs

  // ------------------------------------------------- how long the loop runs

  function Pow2(k: nat): (p: int)
    ensures p >= 1
  {
    if k == 0 then 1 else 2 * Pow2(k - 1)
  }

  function ShrinkTimes(batch: int, n: nat): int
    decreases n
  {
    if n == 0 then batch else ShrinkTimes(ShrinkBatch(batch), n - 1)
  }

  /** How many trims bring a batch down to one attempt. */
  function Trims(batch: int): nat {
    if batch <= 1 then 0 else 1 + Trims(ShrinkBatch(batch))
  }

  lemma {:induction false} TrimsSplit(batch: int, n: nat)
    ensures Trims(batch) <= n + Trims(ShrinkTimes(batch, n))
    decreases n
  {
    if n == 0 {
    } else {
      TrimsSplit(ShrinkBatch(batch), n - 1);
      if batch <= 1 {
        assert Trims(batch) == 0;
      }
    }
  }

  lemma SevenTrims(batch: int, n: nat)
    requires 1 <= batch && n == 7
    ensures 1 <= ShrinkTimes(batch, n) <= batch
    ensures ShrinkTimes(batch, n) == 1 || 8 * ShrinkTimes(batch, n) <= 7 * batch
  {
    var b1 := ShrinkBatch(batch);
    var b2 := ShrinkBatch(b1);
    var b3 := ShrinkBatch(b2);
    var b4 := ShrinkBatch(b3);
    var b5 := ShrinkBatch(b4);
    var b6 := ShrinkBatch(b5);
    var b7 := ShrinkBatch(b6);
    assert ShrinkTimes(b4, n - 4) == ShrinkTimes(b5, n - 5) == ShrinkTimes(b6, n - 6) == b7;
    assert ShrinkTimes(b1, n - 1) == ShrinkTimes(b2, n - 2) == ShrinkTimes(b3, n - 3);
  }

  lemma {:induction false} ShrinkTimesAdds(batch: int, m: nat, n: nat)
    ensures ShrinkTimes(batch, m + n) == ShrinkTimes(ShrinkTimes(batch, m), n)
    decreases m
  {
    if m == 0 {
    } else {
      ShrinkTimesAdds(ShrinkBatch(batch), m - 1, n);
    }
  }

  lemma FortyTwoTrimsHalve(batch: int, n: nat)
    requires 1 <= batch && n == 7
    ensures ShrinkTimes(batch, 6 * n) == 1 || 2 * ShrinkTimes(batch, 6 * n) <= batch
  {
    hide ShrinkTimes;
    var b1 := ShrinkTimes(batch, n);
    var b2 := ShrinkTimes(b1, n);
    var b3 := ShrinkTimes(b2, n);
    var b4 := ShrinkTimes(b3, n);
    var b5 := ShrinkTimes(b4, n);
    SevenTrims(batch, n); SevenTrims(b1, n); SevenTrims(b2, n);
    SevenTrims(b3, n); SevenTrims(b4, n); SevenTrims(b5, n);
    ShrinkTimesAdds(batch, n, n); ShrinkTimesAdds(batch, 2 * n, n); ShrinkTimesAdds(batch, 3 * n, n);
    ShrinkTimesAdds(batch, 4 * n, n); ShrinkTimesAdds(batch, 5 * n, n);
  }

  lemma {:induction false} TrimsAreLogarithmic(batch: int, k: nat)
    requires batch <= Pow2(k)
    ensures Trims(batch) <= 42 * k
  {
    if batch <= 1 {
    } else {
      var n := 7;
      FortyTwoTrimsHalve(batch, n);
      TrimsSplit(batch, 6 * n);
      TrimsAreLogarithmic(ShrinkTimes(batch, 6 * n), k - 1);
    }
  }

  lemma OneLaneLess(lanes: int, steps: nat)
    requires 1 <= lanes
    ensures 0 <= (lanes - 1) * steps
    ensures (lanes - 1) * steps == (lanes - 1 - 1) * steps + steps
  {
  }

  lemma {:induction false} EnoughStepsEqualDescent(
    steps: nat, trims: nat, limits: Limits, totalMib: int, lanes: int, batch: int, conc: int)
    requires 1 <= lanes && 1 <= conc
    requires forall c :: 1 <= c < lanes ==> Trims(ShareBatch(limits, c)) <= trims
    requires Trims(batch) + 1 + (lanes - 1) * (trims + 1) <= steps
    ensures ClampSteps(steps, limits, totalMib, lanes, batch, conc)
         == ClampDescent(limits, totalMib, lanes, batch, conc)
    decreases steps
  {
    hide ShareBatch, MakePlan, ShrinkBatch;
    OneLaneLess(lanes, trims + 1);
    if MakePlan(limits, batch, lanes, totalMib, conc).WithinLimits() {
    } else {
      if batch > 1 {
        EnoughStepsEqualDescent(steps - 1, trims, limits, totalMib, lanes, ShrinkBatch(batch), conc);
      } else if lanes > 1 && conc > 1 {
        var conc' := Min(conc, lanes - 1);
        EnoughStepsEqualDescent(
          steps - 1, trims, limits, totalMib, lanes - 1, ShareBatch(limits, conc'), conc');
      }
    }
  }

  /** The clamp gives up attempts before lanes: it stops at the first trimmed batch that fits. */
  lemma {:induction false} TrimsBeforeDroppingLanes(
    steps: nat, limits: Limits, totalMib: int, lanes: int, batch: int, conc: int, n: nat)
    requires n < steps
    requires MakePlan(limits, ShrinkTimes(batch, n), lanes, totalMib, conc).WithinLimits()
    requires forall m :: 0 <= m < n ==>
               ShrinkTimes(batch, m) > 1 && !MakePlan(limits, ShrinkTimes(batch, m), lanes, totalMib, conc).WithinLimits()
    ensures ClampSteps(steps, limits, totalMib, lanes, batch, conc)
         == Some(MakePlan(limits, ShrinkTimes(batch, n), lanes, totalMib, conc))
    decreases n
  {
    assert ShrinkTimes(batch, 0) == batch;
    hide MakePlan, ShrinkBatch;
    if n == 0 {
    } else {
      forall m | 0 <= m < n - 1
        ensures ShrinkTimes(ShrinkBatch(batch), m) > 1
        ensures !MakePlan(limits, ShrinkTimes(ShrinkBatch(batch), m), lanes, totalMib, conc).WithinLimits()
      {
        assert ShrinkTimes(ShrinkBatch(batch), m) == ShrinkTimes(batch, m + 1);
      }
      TrimsBeforeDroppingLanes(steps - 1, limits, totalMib, lanes, ShrinkBatch(batch), conc, n - 1);
    }
  }

  /** With a batch of one that does not fit it drops one lane, and splits the whole budget over the resident ones again. */
  lemma DropsALane(steps: nat, limits: Limits, totalMib: int, lanes: int, conc: int)
    requires 1 <= steps && 1 <= conc
    requires !MakePlan(limits, 1, lanes, totalMib, conc).WithinLimits()
    ensures ClampSteps(steps, limits, totalMib, lanes, 1, conc)
         == if lanes > 1 && conc > 1
            then ClampSteps(steps - 1, limits, totalMib, lanes - 1, ShareBatch(limits, Min(conc, lanes - 1)), Min(conc, lanes - 1))
            else None
  {
  }

  /** The clamp with no step limit at all. */
  function UnlimitedClamp(plan: Plan): Plan {
    if plan.WithinLimits() then plan else
    match ClampDescent(plan.limits, plan.TotalMib(), plan.lanes, plan.batchPerLane, plan.EffectiveConcurrent())
    case Some(fitting) => fitting
    case None => plan
  }

  lemma SharesAreBounded(limits: Limits, c: int, most: int)
    requires 1 <= c && 1 <= most
    requires limits.difficulty >= 1 ==> AttemptsIn(Max(1, limits.budgetBytes), limits.difficulty) <= most
    ensures ShareBatch(limits, c) <= most
  {
    if limits.difficulty >= 1 {
      var share := Max(1, limits.budgetBytes / c);
      assert share <= Max(1, limits.budgetBytes) by {
        if limits.budgetBytes >= 0 {
          DivIsGreatest(limits.budgetBytes, c, share);
          MulMonotone(1, c, limits.budgetBytes / c);
        }
      }
      var q := AttemptsIn(share, limits.difficulty);
      AttemptsInIsGreatest(share, limits.difficulty, q);
      AttemptsInIsGreatest(Max(1, limits.budgetBytes), limits.difficulty, q);
    }
  }

  lemma OneMoreLane(lanes: int, steps: int)
    ensures lanes * steps == steps + (lanes - 1) * steps
  {
  }

  /**
    The 10,000-step limit is never what stops the loop while `lanes * (42 k + 1)` stays under it,
    2^k bounding every batch tried: one lane up to 2^200, or eight lanes up to 2^29.
   */
  lemma StepLimitNeverBites(plan: Plan, k: nat)
    requires 1 <= plan.lanes && plan.lanes * (42 * k + 1) <= CLAMP_STEPS
    requires plan.batchPerLane <= Pow2(k)
    requires plan.lanes > 1 && plan.limits.difficulty >= 1 ==>
               AttemptsIn(Max(1, plan.limits.budgetBytes), plan.limits.difficulty) <= Pow2(k)
    ensures ClampPlan(plan) == UnlimitedClamp(plan)
  {
    TrimsAreLogarithmic(plan.batchPerLane, k);
    forall c | 1 <= c < plan.lanes ensures Trims(ShareBatch(plan.limits, c)) <= 42 * k {
      SharesAreBounded(plan.limits, c, Pow2(k));
      TrimsAreLogarithmic(ShareBatch(plan.limits, c), k);
    }
    OneMoreLane(plan.lanes, 42 * k + 1);
    hide ClampSteps, Pow2, ShareBatch, Trims;
    EnoughStepsEqualDescent(CLAMP_STEPS, 42 * k, plan.limits, plan.TotalMib(), plan.lanes,
                            plan.batchPerLane, plan.EffectiveConcurrent());
  }

  // ------------------------------------------------- when the clamp succeeds

  lemma EstimateMonotone(a: int, b: int, difficulty: int)
    requires a <= b
    ensures EstimateBatchVramBytes(a, difficulty) <= EstimateBatchVramBytes(b, difficulty)
  {
    if 0 < a && 0 < difficulty {
      MulMonotone(a, b, AttemptCost(difficulty));
    } else if 0 < b && 0 < difficulty {
      assert b * AttemptCost(difficulty) >= 0;
    }
  }

  lemma {:induction false} OneResidentDescent(limits: Limits, totalMib: int, lanes: int, batch: int)
    requires 1 <= batch
    ensures ClampDescent(limits, totalMib, lanes, batch, 1).Some?
            <==> MakePlan(limits, 1, lanes, totalMib, 1).WithinLimits()
    ensures var r := ClampDescent(limits, totalMib, lanes, batch, 1);
            r.Some? ==> r.value.WithinLimits() && r.value.lanes == lanes && 1 <= r.value.batchPerLane <= batch
    decreases batch
  {
    EstimateMonotone(1, batch, limits.difficulty);
    if batch <= 1 {
    } else {
      OneResidentDescent(limits, totalMib, lanes, ShrinkBatch(batch));
    }
  }

  /**
    With one resident batch (a single lane, or sequential lanes) below 2^200, the clamp ends inside
    both caps exactly when a batch of one attempt would be.
   */
  lemma OneResidentClampFits(plan: Plan, k: nat)
    requires 1 <= plan.lanes && plan.concurrentVramLanes == 1 && 1 <= plan.batchPerLane <= Pow2(k)
    requires k <= 200
    requires plan == MakePlan(plan.limits, plan.batchPerLane, plan.lanes, plan.TotalMib(), 1)
    ensures ClampPlan(plan).WithinLimits()
            <==> MakePlan(plan.limits, 1, plan.lanes, plan.TotalMib(), 1).WithinLimits()
    ensures ClampPlan(plan).lanes == plan.lanes
  {
    EstimateMonotone(1, plan.batchPerLane, plan.limits.difficulty);
    TrimsAreLogarithmic(plan.batchPerLane, k);
    OneResidentDescent(plan.limits, plan.TotalMib(), plan.lanes, plan.batchPerLane);
    OneResidentSteps(CLAMP_STEPS, plan.limits, plan.TotalMib(), plan.lanes, plan.batchPerLane);
  }

  lemma {:induction false} OneResidentSteps(steps: nat, limits: Limits, totalMib: int, lanes: int, batch: int)
    requires Trims(batch) + 1 <= steps
    ensures ClampSteps(steps, limits, totalMib, lanes, batch, 1)
         == ClampDescent(limits, totalMib, lanes, batch, 1)
    decreases steps
  {
    if MakePlan(limits, batch, lanes, totalMib, 1).WithinLimits() || batch <= 1 {
    } else {
      OneResidentSteps(steps - 1, limits, totalMib, lanes, ShrinkBatch(batch));
    }
  }

  /** The total the clamp rebuilds is the device's exactly when the plan fits the device. */
  lemma RebuiltTotal(limits: Limits, batch: int, lanes: int, totalMib: int, conc: int)
    ensures var p := MakePlan(limits, batch, lanes, totalMib, conc);
            && (p.TotalMib() == totalMib <==> p.projectedUsedMib <= totalMib)
            && p.TotalMib() == Max(totalMib, p.projectedUsedMib)
  {
  }

  lemma OneTrimSuffices(steps: nat, limits: Limits, totalMib: int, lanes: int, batch: int, conc: int)
    requires 2 <= steps && 1 < batch
    requires !MakePlan(limits, batch, lanes, totalMib, conc).WithinLimits()
    requires MakePlan(limits, ShrinkBatch(batch), lanes, totalMib, conc).WithinLimits()
    ensures ClampSteps(steps, limits, totalMib, lanes, batch, conc)
         == Some(MakePlan(limits, ShrinkBatch(batch), lanes, totalMib, conc))
  {
  }

  /** A plan larger than the device: the clamp then measures headroom against the inflated total. */
  lemma OversizedPlanLosesHeadroom(limits: Limits, totalMib: int)
    requires limits == Limits(0, 0, 0, 0, 0, 100, 100, 3, 1024, 0) && totalMib == 100
    ensures var clamped := ClampPlan(MakePlan(limits, 101, 1, totalMib, 1));
            clamped.WithinLimits() && totalMib - clamped.projectedUsedMib < limits.desktopHeadroomMib
  {
    OneTrimSuffices(CLAMP_STEPS, limits, totalMib + 1, 1, 101, 1);
  }

  // ------------------------------------------------------------- lane caps

  /** What a lane cap makes of a packed plan; the clamp inside it never acts. */
  function Capped(p: Plan, cap: int): Plan
    requires 1 <= cap
  {
    if p.lanes <= cap then p
    else if p.concurrentVramLanes == 1 || cap == 1 then MakePlan(p.limits, p.batchPerLane, cap, p.TotalMib(), 1)
    else MakePlan(p.limits, ShareBatch(p.limits, cap), cap, p.TotalMib(), cap)
  }

  lemma CapKeepsPacked(p: Plan, maxLanes: int)
    requires Packed(p)
    ensures ApplyLaneCap(p, maxLanes) == Capped(p, Max(1, maxLanes))
    ensures var q := ApplyLaneCap(p, maxLanes);
            && Packed(q)
            && q.limits == p.limits && q.TotalMib() == p.TotalMib()
            && q.lanes == Min(p.lanes, Max(1, maxLanes))
            && q.concurrentVramLanes == Min(p.concurrentVramLanes, q.lanes)
            && q.batchPerLane >= p.batchPerLane
  {
    var cap := Max(1, maxLanes);
    if cap < p.lanes {
      var conc := Min(p.concurrentVramLanes, cap);
      var batch := if conc <= 1 then p.batchPerLane else ShareBatch(p.limits, conc);
      if conc <= 1 {
        FootprintMonotone(conc, batch, p.concurrentVramLanes, batch, p.limits.difficulty);
      } else {
        FewerLanesBiggerShare(p.limits, p.concurrentVramLanes, p.batchPerLane, conc);
        ShareBatchFits(p.limits, conc);
      }
      InsideBudgetIsInsideLimits(p.limits, batch, cap, p.TotalMib(), conc);
    }
  }

  /**
    Two caps in a row equal their minimum, except when the second cuts a parallel plan
    already re-split by the first down to one lane: that lane keeps the re-split batch.
   */
  lemma CapsComposeExactly(p: Plan, a: int, b: int)
    requires Packed(p)
    ensures ApplyLaneCap(ApplyLaneCap(p, a), b) == ApplyLaneCap(p, Min(a, b)) <==>
              (p.concurrentVramLanes > 1 && 1 < a < p.lanes && b <= 1 ==>
                 ShareBatch(p.limits, a) == p.batchPerLane)
  {
    CapKeepsPacked(p, a);
    CapKeepsPacked(p, Min(a, b));
    CapKeepsPacked(ApplyLaneCap(p, a), b);
  }

  function ApplyCaps(p: Plan, caps: seq<int>): Plan
    decreases |caps|
  {
    if caps == [] then p else ApplyCaps(ApplyLaneCap(p, caps[0]), caps[1..])
  }

  function Least(caps: seq<int>): (m: int)
    requires caps != []
    ensures m in caps
    ensures forall c :: c in caps ==> m <= c
  {
    if |caps| == 1 then caps[0]
    else
      assert caps == [caps[0]] + caps[1..];
      Min(caps[0], Least(caps[1..]))
  }

  lemma {:induction false} CapsReduceToLeast(p: Plan, caps: seq<int>)
    requires Packed(p) && caps != []
    requires forall c :: c in caps ==> 2 <= c
    ensures ApplyCaps(p, caps) == ApplyLaneCap(p, Least(caps))
    decreases |caps|
  {
    var q := ApplyLaneCap(p, caps[0]);
    CapKeepsPacked(p, caps[0]);
    if |caps| > 1 {
      assert forall c :: c in caps[1..] ==> c in caps;
      CapsReduceToLeast(q, caps[1..]);
      CapsComposeExactly(p, caps[0], Least(caps[1..]));
    } else {
      assert caps[1..] == [];
    }
  }

  /** Difficulty, heat and memory caps of at least two lanes may be applied in any order. */
  lemma CapOrderDoesNotMatter(p: Plan, caps: seq<int>, reordered: seq<int>)
    requires Packed(p)
    requires forall c :: c in caps ==> 2 <= c
    requires multiset(caps) == multiset(reordered)
    ensures ApplyCaps(p, caps) == ApplyCaps(p, reordered)
  {
    forall c ensures c in caps <==> c in reordered {
      assert c in multiset(caps) <==> c in multiset(reordered);
    }
    if caps == [] {
      assert |multiset(reordered)| == 0;
      assert |reordered| == 0;
    } else {
      assert caps[0] in reordered;
      CapsReduceToLeast(p, caps);
      CapsReduceToLeast(p, reordered);
      assert Least(caps) == Least(reordered);
    }
  }

  /** Capping to two lanes and then to one is not capping to one. */
  lemma CapToOneLaneKeepsTheLargerBatch()
    ensures
      var limits := Limits(0, 12 * 1025024, 11, 0, 0, 100, 100, 0, 1000, 0);
      var p := MakePlan(limits, 3, 4, 100, 4);
      && Packed(p)
      && ApplyLaneCap(p, 1).batchPerLane == 3
      && ApplyLaneCap(ApplyLaneCap(p, 2), 1).batchPerLane == 6
  {
    var limits := Limits(0, 12 * 1025024, 11, 0, 0, 100, 100, 0, 1000, 0);
    var p := MakePlan(limits, 3, 4, 100, 4);
    assert AttemptCost(1000) == 1025024000;
    assert Footprint(4, 3, 1000) == limits.budgetBytes * 1000;
    InsideBudgetIsInsideLimits(limits, 3, 4, 100, 4);
    AttemptsInIsGreatest(6 * 1025024, 1000, 6);
    AttemptsInIsGreatest(6 * 1025024, 1000, 7);
    assert ShareBatch(limits, 2) == 6;
    CapKeepsPacked(p, 1);
    CapKeepsPacked(p, 2);
    CapKeepsPacked(ApplyLaneCap(p, 2), 1);
  }
}
