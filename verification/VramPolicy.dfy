/** The absolute memory caps of efficiency/vram_policy.py, and the planner under them. */
module VramPolicy {
  import opened Numbers
  import opened VramBatch
  import opened PlannerProofs

  datatype PolicyConfig = PolicyConfig(
    targetPct: real, headroomPct: real, emergencyPct: real, minHeadroomPct: real, overheadPct: real,
    minHeadroomFloorMib: int, overheadFloorMib: int, emergencyFreeFloorMib: int,
    targetOverride: int, headroomOverride: int, emergencyOverride: int,
    minHeadroomOverride: int, overheadOverride: int)

  datatype VramCaps = VramCaps(
    totalMib: int, targetMib: int, headroomMib: int, emergencyMib: int,
    minHeadroomMib: int, runtimeOverheadMib: int)

  function ShareOf(total: int, pct: real, overrideMib: int): int {
    if overrideMib > 0 then overrideMib
    else Truncate(total as real * ClampReal(pct, 0.0, 100.0) / 100.0)
  }

  /** What is asked for, no more than `most` and no less than `floor`. */
  function Between(floor: int, asked: int, most: int): int {
    Max(floor, Min(asked, most))
  }

  function ResolveVramCaps(totalMib: int, c: PolicyConfig): VramCaps {
    var total := Max(1, totalMib);
    var headroom := Between(c.minHeadroomFloorMib, ShareOf(total, c.headroomPct, c.headroomOverride), Max(0, total - 1));
    var minHead := Between(c.minHeadroomFloorMib, ShareOf(total, c.minHeadroomPct, c.minHeadroomOverride), headroom);
    var overhead := Between(c.overheadFloorMib, ShareOf(total, c.overheadPct, c.overheadOverride), Max(0, total / 2));
    var emergency := Between(minHead, ShareOf(total, c.emergencyPct, c.emergencyOverride),
                             Max(0, total - c.emergencyFreeFloorMib));
    var target := Between(0, ShareOf(total, c.targetPct, c.targetOverride), Max(0, total - headroom));
    var overhead' := if target > 0 then Min(overhead, Max(c.overheadFloorMib, target / 2)) else overhead;
    VramCaps(total, target, headroom, emergency, minHead, overhead')
  }

  /** Whatever the percentages and overrides: the target never reaches into the desktop headroom. */
  lemma CapsAreFeasible(totalMib: int, c: PolicyConfig)
    requires 0 <= c.minHeadroomFloorMib && 0 <= c.overheadFloorMib
    ensures var caps := ResolveVramCaps(totalMib, c);
            && 0 <= caps.targetMib
            && (caps.targetMib > 0 ==> caps.targetMib + caps.headroomMib <= caps.totalMib)
            && c.minHeadroomFloorMib <= caps.minHeadroomMib <= caps.headroomMib
            && c.overheadFloorMib <= caps.runtimeOverheadMib
            && (caps.targetMib >= 2 * c.overheadFloorMib && caps.targetMib > 0 ==>
                  caps.runtimeOverheadMib <= caps.targetMib / 2)
            && caps.emergencyMib >= caps.minHeadroomMib
  {
  }

  /** A percentage means the whole MiB of that share; an override replaces it. */
  lemma ShareIsExact(total: int, pct: real, overrideMib: int)
    requires 1 <= total && 0.0 <= pct <= 100.0
    ensures overrideMib <= 0 ==>
              100.0 * ShareOf(total, pct, 0) as real <= total as real * pct < 100.0 * (ShareOf(total, pct, 0) + 1) as real
    ensures overrideMib > 0 ==> ShareOf(total, pct, overrideMib) == overrideMib
    ensures overrideMib <= 0 ==> ShareOf(total, pct, overrideMib) == ShareOf(total, pct, 0)
  {
    var product := total as real * pct;
    ProductNotNegative(total as real, pct);
    assert ShareOf(total, pct, 0) == (product / 100.0).Floor;
  }

  lemma ProductNotNegative(a: real, b: real)
    requires 0.0 <= a && 0.0 <= b
    ensures 0.0 <= a * b
  {
  }

  /**
    Percentages that leave room for each other are met exactly: with no overrides, each cap is the whole MiB of its
    own percentage of the card.
   */
  lemma PercentagesAreMet(total: int, c: PolicyConfig, target: int, headroom: int, minHeadroom: int, overhead: int, emergency: int)
    requires 1 <= total
    requires c.targetOverride <= 0 && c.headroomOverride <= 0 && c.emergencyOverride <= 0
             && c.minHeadroomOverride <= 0 && c.overheadOverride <= 0
    requires 0.0 <= c.minHeadroomPct <= c.headroomPct < 100.0 && c.minHeadroomPct <= c.emergencyPct <= 100.0
    requires 0.0 <= c.targetPct && c.targetPct + c.headroomPct <= 100.0
    requires 0.0 <= c.overheadPct && 2.0 * c.overheadPct <= c.targetPct
    requires target == ShareOf(total, c.targetPct, 0) && headroom == ShareOf(total, c.headroomPct, 0)
    requires minHeadroom == ShareOf(total, c.minHeadroomPct, 0) && overhead == ShareOf(total, c.overheadPct, 0)
    requires emergency == ShareOf(total, c.emergencyPct, 0)
    requires 0 <= c.minHeadroomFloorMib <= minHeadroom && 0 <= c.overheadFloorMib <= overhead
    requires emergency + c.emergencyFreeFloorMib <= total
    ensures ResolveVramCaps(total, c) == VramCaps(total, target, headroom, emergency, minHeadroom, overhead)
  {
    hide ShareOf;
    SharesAsked(total, c);
    SharesInOrder(total, c.minHeadroomPct, c.headroomPct);
    SharesInOrder(total, c.minHeadroomPct, c.emergencyPct);
    SharesLeaveRoom(total, c.targetPct, c.headroomPct);
    ShareUnderHalf(total, c.overheadPct, c.targetPct);
  }

  lemma SharesAsked(total: int, c: PolicyConfig)
    requires 1 <= total
    requires c.targetOverride <= 0 && c.headroomOverride <= 0 && c.emergencyOverride <= 0
             && c.minHeadroomOverride <= 0 && c.overheadOverride <= 0
    ensures ShareOf(total, c.targetPct, c.targetOverride) == ShareOf(total, c.targetPct, 0)
    ensures ShareOf(total, c.headroomPct, c.headroomOverride) == ShareOf(total, c.headroomPct, 0)
    ensures ShareOf(total, c.minHeadroomPct, c.minHeadroomOverride) == ShareOf(total, c.minHeadroomPct, 0)
    ensures ShareOf(total, c.overheadPct, c.overheadOverride) == ShareOf(total, c.overheadPct, 0)
    ensures ShareOf(total, c.emergencyPct, c.emergencyOverride) == ShareOf(total, c.emergencyPct, 0)
  {
  }

  lemma PercentOrder(total: int, p: real, q: real, x: real, y: real)
    requires 0 <= total && 0.0 <= p <= q && x == total as real * p && y == total as real * q
    ensures 0.0 <= x <= y
  {
    var n := total as real;
    ProductNotNegative(n, p);
    ProductNotNegative(n, q - p);
    assert n * (q - p) == y - x;
  }

  lemma StrictPercent(total: int, p: real, x: real)
    requires 1 <= total && p < 100.0 && x == total as real * p
    ensures x < 100.0 * total as real
  {
    var n := total as real;
    assert n * (100.0 - p) > 0.0;
    assert n * (100.0 - p) == 100.0 * n - x;
  }

  lemma SharesInOrder(total: int, p: real, q: real)
    requires 1 <= total && 0.0 <= p <= q <= 100.0
    ensures 0 <= ShareOf(total, p, 0) <= ShareOf(total, q, 0)
  {
    var x, y := total as real * p, total as real * q;
    PercentOrder(total, p, q, x, y);
    ShareOfProduct(total, p, 0, x);
    ShareOfProduct(total, q, 0, y);
    hide ShareOf;
  }

  lemma SharesLeaveRoom(total: int, p: real, q: real)
    requires 1 <= total && 0.0 <= p && 0.0 <= q < 100.0 && p + q <= 100.0
    ensures ShareOf(total, p, 0) + ShareOf(total, q, 0) <= total
    ensures 0 <= ShareOf(total, q, 0) <= total - 1
  {
    hide ShareOf;
    var n := total as real;
    var x, y := n * p, n * q;
    PercentOrder(total, 0.0, p, 0.0, x);
    PercentOrder(total, 0.0, q, 0.0, y);
    PercentOrder(total, p + q, 100.0, x + y, n * 100.0);
    StrictPercent(total, q, y);
    ShareOfProduct(total, p, 0, x);
    ShareOfProduct(total, q, 0, y);
  }

  lemma ShareUnderHalf(total: int, p: real, q: real)
    requires 1 <= total && 0.0 <= p && 2.0 * p <= q <= 100.0
    ensures 2 * ShareOf(total, p, 0) <= ShareOf(total, q, 0) <= total
    ensures 0 <= ShareOf(total, p, 0)
  {
    hide ShareOf;
    var n := total as real;
    var x, y := n * p, n * q;
    PercentOrder(total, 0.0, p, 0.0, x);
    PercentOrder(total, 2.0 * p, q, 2.0 * x, y);
    PercentOrder(total, q, 100.0, y, n * 100.0);
    ShareOfProduct(total, p, 0, x);
    ShareOfProduct(total, q, 0, y);
  }

  /** The same policy with every cap it resolved to written in as an absolute override. */
  function WithOverrides(c: PolicyConfig, caps: VramCaps): PolicyConfig {
    c.(targetOverride := caps.targetMib, headroomOverride := caps.headroomMib, emergencyOverride := caps.emergencyMib,
       minHeadroomOverride := caps.minHeadroomMib, overheadOverride := caps.runtimeOverheadMib)
  }

  lemma ShareAsked(total: int, pct: real, overrideMib: int)
    requires 1 <= total
    ensures overrideMib > 0 ==> ShareOf(total, pct, overrideMib) == overrideMib
    ensures overrideMib <= 0 ==> ShareOf(total, pct, overrideMib) == ShareOf(total, pct, 0)
    ensures 0 <= ShareOf(total, pct, overrideMib)
  {
    ProductNotNegative(total as real, ClampReal(pct, 0.0, 100.0));
  }

  /** A bounded amount asked for again, or its percentage where it came out as nothing, is bounded to itself. */
  lemma BoundedAgain(floor: int, most: int, total: int, pct: real, overrideMib: int)
    requires 1 <= total && 0 <= floor && 0 <= most
    ensures var v := Between(floor, ShareOf(total, pct, overrideMib), most);
            Between(floor, ShareOf(total, pct, v), most) == v
  {
    ShareAsked(total, pct, overrideMib);
    ShareAsked(total, pct, Between(floor, ShareOf(total, pct, overrideMib), most));
    hide ShareOf;
  }

  lemma OverheadAgain(floor: int, total: int, pct: real, overrideMib: int, target: int)
    requires 1 <= total && 0 <= floor
    ensures var first := Between(floor, ShareOf(total, pct, overrideMib), Max(0, total / 2));
            var v := if target > 0 then Min(first, Max(floor, target / 2)) else first;
            var again := Between(floor, ShareOf(total, pct, v), Max(0, total / 2));
            (if target > 0 then Min(again, Max(floor, target / 2)) else again) == v
  {
    var first := Between(floor, ShareOf(total, pct, overrideMib), Max(0, total / 2));
    ShareAsked(total, pct, overrideMib);
    ShareAsked(total, pct, if target > 0 then Min(first, Max(floor, target / 2)) else first);
    hide ShareOf;
  }

  /** Resolving is final: caps handed back as overrides resolve to themselves. */
  lemma ResolvedCapsAreFinal(totalMib: int, c: PolicyConfig)
    requires 0 <= c.minHeadroomFloorMib && 0 <= c.overheadFloorMib
    ensures var caps := ResolveVramCaps(totalMib, c);
            ResolveVramCaps(caps.totalMib, WithOverrides(c, caps)) == caps
  {
    var caps := ResolveVramCaps(totalMib, c);
    var total := caps.totalMib;
    BoundedAgain(c.minHeadroomFloorMib, Max(0, total - 1), total, c.headroomPct, c.headroomOverride);
    assert 0 <= caps.headroomMib && 0 <= caps.minHeadroomMib;
    BoundedAgain(c.minHeadroomFloorMib, caps.headroomMib, total, c.minHeadroomPct, c.minHeadroomOverride);
    BoundedAgain(caps.minHeadroomMib, Max(0, total - c.emergencyFreeFloorMib), total, c.emergencyPct, c.emergencyOverride);
    BoundedAgain(0, Max(0, total - caps.headroomMib), total, c.targetPct, c.targetOverride);
    OverheadAgain(c.overheadFloorMib, total, c.overheadPct, c.overheadOverride, caps.targetMib);
    hide ShareOf, Between;
  }

  lemma ProductGap(a: real, b: real, p: real, x: real, y: real)
    requires 0.0 <= a <= b && 0.0 <= p <= 100.0 && x == a * p && y == b * p
    ensures 0.0 <= x <= y <= x + 100.0 * (b - a)
  {
    ProductNotNegative(a, p);
    ProductNotNegative(b - a, p);
    ProductNotNegative(b - a, 100.0 - p);
    assert (b - a) * p == y - x;
    assert (b - a) * (100.0 - p) == 100.0 * (b - a) - (y - x);
  }

  lemma ShareOfProduct(total: int, pct: real, overrideMib: int, product: real)
    requires overrideMib <= 0 && product == total as real * ClampReal(pct, 0.0, 100.0)
    ensures ShareOf(total, pct, overrideMib) == Truncate(product / 100.0)
  {
  }

  lemma SharesGrowSlowly(t1: int, t2: int, pct: real, overrideMib: int)
    requires 1 <= t1 <= t2
    ensures 0 <= ShareOf(t2, pct, overrideMib) - ShareOf(t1, pct, overrideMib) <= t2 - t1
  {
    if overrideMib > 0 {
    } else {
      var p := ClampReal(pct, 0.0, 100.0);
      var x, y := t1 as real * p, t2 as real * p;
      ProductGap(t1 as real, t2 as real, p, x, y);
      SharesOfGap(t1, t2, pct, overrideMib, x, y);
    }
  }

  lemma SharesOfGap(t1: int, t2: int, pct: real, overrideMib: int, x: real, y: real)
    requires 1 <= t1 <= t2 && overrideMib <= 0
    requires x == t1 as real * ClampReal(pct, 0.0, 100.0) && y == t2 as real * ClampReal(pct, 0.0, 100.0)
    requires 0.0 <= x <= y <= x + 100.0 * (t2 - t1) as real
    ensures 0 <= ShareOf(t2, pct, overrideMib) - ShareOf(t1, pct, overrideMib) <= t2 - t1
  {
    hide ShareOf, Truncate;
    ShareOfProduct(t1, pct, overrideMib, x);
    ShareOfProduct(t2, pct, overrideMib, y);
    GrowthOfFloors(x, y, t2 - t1);
  }

  lemma GrowthOfFloors(x: real, y: real, d: int)
    requires 0.0 <= x <= y && y - x <= 100.0 * d as real
    ensures 0 <= Truncate(y / 100.0) - Truncate(x / 100.0) <= d
  {
  }

  lemma BoundsGrow(floor1: int, floor2: int, asked1: int, asked2: int, most1: int, most2: int, d: int)
    requires 0 <= floor2 - floor1 <= d && 0 <= asked2 - asked1 <= d && 0 <= most2 - most1 <= d
    ensures 0 <= Between(floor2, asked2, most2) - Between(floor1, asked1, most1) <= d
  {
  }

  lemma HeadroomsGrow(a: int, b: int, c: PolicyConfig)
    requires 1 <= a <= b
    ensures 0 <= ResolveVramCaps(b, c).headroomMib - ResolveVramCaps(a, c).headroomMib <= b - a
  {
    SharesGrowSlowly(a, b, c.headroomPct, c.headroomOverride);
    hide ShareOf, Between;
    BoundsGrow(c.minHeadroomFloorMib, c.minHeadroomFloorMib,
               ShareOf(a, c.headroomPct, c.headroomOverride), ShareOf(b, c.headroomPct, c.headroomOverride),
               Max(0, a - 1), Max(0, b - 1), b - a);
  }

  lemma MinHeadroomsGrow(a: int, b: int, c: PolicyConfig)
    requires 1 <= a <= b
    ensures 0 <= ResolveVramCaps(b, c).minHeadroomMib - ResolveVramCaps(a, c).minHeadroomMib <= b - a
  {
    HeadroomsGrow(a, b, c);
    SharesGrowSlowly(a, b, c.minHeadroomPct, c.minHeadroomOverride);
    hide ShareOf, Between;
    BoundsGrow(c.minHeadroomFloorMib, c.minHeadroomFloorMib,
               ShareOf(a, c.minHeadroomPct, c.minHeadroomOverride), ShareOf(b, c.minHeadroomPct, c.minHeadroomOverride),
               ResolveVramCaps(a, c).headroomMib, ResolveVramCaps(b, c).headroomMib, b - a);
  }

  lemma EmergenciesGrow(a: int, b: int, c: PolicyConfig)
    requires 1 <= a <= b
    ensures 0 <= ResolveVramCaps(b, c).emergencyMib - ResolveVramCaps(a, c).emergencyMib <= b - a
  {
    MinHeadroomsGrow(a, b, c);
    SharesGrowSlowly(a, b, c.emergencyPct, c.emergencyOverride);
    hide ShareOf, Between;
    BoundsGrow(ResolveVramCaps(a, c).minHeadroomMib, ResolveVramCaps(b, c).minHeadroomMib,
               ShareOf(a, c.emergencyPct, c.emergencyOverride), ShareOf(b, c.emergencyPct, c.emergencyOverride),
               Max(0, a - c.emergencyFreeFloorMib), Max(0, b - c.emergencyFreeFloorMib), b - a);
  }

  lemma TargetsGrow(a: int, b: int, c: PolicyConfig)
    requires 1 <= a <= b
    ensures 0 <= ResolveVramCaps(b, c).targetMib - ResolveVramCaps(a, c).targetMib <= b - a
  {
    HeadroomsGrow(a, b, c);
    SharesGrowSlowly(a, b, c.targetPct, c.targetOverride);
    hide ShareOf, Between;
    BoundsGrow(0, 0, ShareOf(a, c.targetPct, c.targetOverride), ShareOf(b, c.targetPct, c.targetOverride),
               Max(0, a - ResolveVramCaps(a, c).headroomMib), Max(0, b - ResolveVramCaps(b, c).headroomMib), b - a);
  }

  /** Without the bound by the target, which only applies to a positive one. */
  lemma OverheadsGrow(floor: int, asked1: int, asked2: int, a: int, b: int, target1: int, target2: int)
    requires 1 <= a <= b && 0 <= asked2 - asked1 <= b - a && 0 < target1 <= target2
    ensures Min(Between(floor, asked1, Max(0, a / 2)), Max(floor, target1 / 2))
         <= Min(Between(floor, asked2, Max(0, b / 2)), Max(floor, target2 / 2))
  {
    BoundsGrow(floor, floor, asked1, asked2, Max(0, a / 2), Max(0, b / 2), b - a);
  }

  /**
    No cap is smaller on a larger card. Only the overhead may be: it is held to half the target, which does not
    bind while there is no target at all.
   */
  lemma LargerCardLargerCaps(t1: int, t2: int, c: PolicyConfig)
    requires t1 <= t2
    ensures var small, large := ResolveVramCaps(t1, c), ResolveVramCaps(t2, c);
            && small.targetMib <= large.targetMib && small.headroomMib <= large.headroomMib
            && small.minHeadroomMib <= large.minHeadroomMib && small.emergencyMib <= large.emergencyMib
            && (small.targetMib > 0 ==> small.runtimeOverheadMib <= large.runtimeOverheadMib)
  {
    var a, b := Max(1, t1), Max(1, t2);
    assert ResolveVramCaps(t1, c) == ResolveVramCaps(a, c) && ResolveVramCaps(t2, c) == ResolveVramCaps(b, c);
    HeadroomsGrow(a, b, c);
    MinHeadroomsGrow(a, b, c);
    EmergenciesGrow(a, b, c);
    TargetsGrow(a, b, c);
    if ResolveVramCaps(a, c).targetMib > 0 {
      SharesGrowSlowly(a, b, c.overheadPct, c.overheadOverride);
      hide ShareOf, Between;
      OverheadsGrow(c.overheadFloorMib, ShareOf(a, c.overheadPct, c.overheadOverride),
                    ShareOf(b, c.overheadPct, c.overheadOverride), a, b,
                    ResolveVramCaps(a, c).targetMib, ResolveVramCaps(b, c).targetMib);
    }
  }

  /** A request made under resolved caps on a GPU with nothing else on it. */
  predicate IdleRequest(request: Request, caps: VramCaps) {
    && request.targetMib == caps.targetMib
    && request.desktopHeadroomMib == caps.headroomMib
    && request.runtimeOverheadMib == caps.runtimeOverheadMib
    && request.foreignUsedMib <= 0 && request.safetyMarginMib <= 0
    && request.totalBytes / MIB == caps.totalMib
  }

  /**
    The policy hands the planner caps it can meet: on an idle GPU a plan fits exactly when
    the runtime overhead fits under the target, which a target of the overhead floor ensures.
   */
  lemma ResolvedCapsAdmitAPlan(totalMib: int, c: PolicyConfig, request: Request)
    requires 0 <= c.minHeadroomFloorMib && 0 <= c.overheadFloorMib
    requires IdleRequest(request, ResolveVramCaps(totalMib, c))
    requires request.targetMib > 0
    ensures PlanCudaBatch(request).WithinLimits() <==> request.runtimeOverheadMib <= request.targetMib
    ensures c.overheadFloorMib <= request.targetMib ==> PlanCudaBatch(request).WithinLimits()
  {
    CapsAreFeasible(totalMib, c);
    PlannerNeverNeedsTheClamp(request);
  }
}
