/**
  Where the policies of ThermalPolicy run: flat ends, and straight lines between them, exactly for scales and to
  within half a unit for what is rounded.
 */
module PolicyCurves {
  import opened Numbers
  import opened ThermalPolicy

  /** `p` is the integer nearest to the point `x` of `span` steps along the line from `a` to `b`, or ties with it. */
  predicate NearLine(p: int, a: int, b: int, x: int, span: int) {
    -span <= 2 * ((p - a) * span + x * (a - b)) <= span
  }

  /** `s` is on the line from 1 down to `floor`. */
  predicate OnScaleLine(s: real, floor: real, x: int, span: int) {
    (1.0 - s) * span as real == x as real * (1.0 - floor)
  }

  lemma TimesSpan(x: int, span: int, k: real)
    requires 0 < span
    ensures x as real / span as real * k * span as real == x as real * k
  {
    var t := x as real / span as real;
    assert t * span as real == x as real;
    assert t * k * span as real == t * span as real * k;
  }

  lemma ScaledBounds(e: real, span: real, r: real)
    requires 0.0 < span && -0.5 <= e <= 0.5 && r == e * span
    ensures -span <= 2.0 * r <= span
  {
    ScaleMonotone(-0.5, e, span);
    ScaleMonotone(e, 0.5, span);
  }

  lemma RealLine(p: int, a: int, b: int, x: int, span: int, drop: real)
    requires drop * span as real == x as real * (a - b) as real
    ensures (p as real - (a as real - drop)) * span as real == ((p - a) * span + x * (a - b)) as real
  {
    var (m, n) := (p - a, span as real);
    assert (p as real - (a as real - drop)) * n == m as real * n + drop * n;
    IntProduct(m, span);
    IntProduct(x, a - b);
  }

  lemma IntProduct(m: int, n: int)
    ensures (m * n) as real == m as real * n as real
  {
  }

  lemma WholeBounds(n: int, span: int, r: real)
    requires r == n as real && -(span as real) <= 2.0 * r <= span as real
    ensures -span <= 2 * n <= span
  {
  }

  lemma PointIsNear(p: int, a: int, b: int, x: int, span: int, drop: real)
    requires 0 < span && drop * span as real == x as real * (a - b) as real
    requires -0.5 <= p as real - (a as real - drop) <= 0.5
    ensures NearLine(p, a, b, x, span)
  {
    RealLine(p, a, b, x, span, drop);
    var e := p as real - (a as real - drop);
    var r := e * span as real;
    ScaledBounds(e, span as real, r);
    WholeBounds((p - a) * span + x * (a - b), span, r);
  }

  /** Rounding a point of the line keeps it near the line. */
  lemma RoundedPointIsNear(p: int, a: int, b: int, x: int, span: int)
    requires 0 < span
    requires p == Round(Eased(a as real, b as real, x as real / span as real))
    ensures NearLine(p, a, b, x, span)
  {
    var drop := x as real / span as real * (a - b) as real;
    TimesSpan(x, span, (a - b) as real);
    EasedDrop(a, b, x as real / span as real, drop);
    hide Eased;
    PointIsNear(p, a, b, x, span, drop);
  }

  lemma EasedDrop(a: int, b: int, t: real, drop: real)
    requires drop == t * (a - b) as real
    ensures Eased(a as real, b as real, t) == a as real - drop
  {
  }

  lemma AlongInside(x: int, start: int, span: int)
    requires 0 < span && start <= x <= start + span
    ensures Along(x, start, span) == (x - start) as real / span as real
    ensures 0.0 <= Along(x, start, span) <= 1.0
  {
    DivMonotone(0, x - start, span);
    DivMonotone(x - start, span, span);
    assert span as real / span as real == 1.0;
  }

  lemma LanesNearLine(planned: int, floor: int, x: int, span: int)
    requires floor <= planned && 0 < span && 0 <= x <= span
    ensures NearLine(LanesAt(planned, floor, x as real / span as real), planned, floor, x, span)
  {
    AlongInside(x, 0, span);
    var t := x as real / span as real;
    PowerSegment(planned, floor, floor, planned, t, t);
    EasedFalls(planned as real, floor as real, t, t);
    RoundMonotone(Eased(planned as real, floor as real, t), planned as real);
    RoundMonotone(floor as real, Eased(planned as real, floor as real, t));
    RoundOfInt(planned);
    RoundOfInt(floor);
    RoundedPointIsNear(LanesAt(planned, floor, t), planned, floor, x, span);
  }

  lemma PowerNearLine(start: int, end: int, floor: int, target: int, d: int, from: int, span: int)
    requires floor <= end <= start <= target && 0 < span && from <= d <= from + span
    ensures NearLine(Clamp(Round(Eased(start as real, end as real, Along(d, from, span))), floor, target),
                     start, end, d - from, span)
    ensures d == from + span ==> Clamp(Round(Eased(start as real, end as real, Along(d, from, span))), floor, target) == end
  {
    hide NearLine, Eased;
    AlongInside(d, from, span);
    var t := Along(d, from, span);
    EasedFalls(start as real, end as real, t, t);
    RoundMonotone(Eased(start as real, end as real, t), start as real);
    RoundMonotone(end as real, Eased(start as real, end as real, t));
    RoundOfInt(start);
    RoundOfInt(end);
    RoundedPointIsNear(Round(Eased(start as real, end as real, t)), start, end, d - from, span);
    if d == from + span {
      AlongAtTheEnd(d, from, span);
      EasedDrop(start, end, 1.0, (start - end) as real);
    }
  }

  /** Full power up to the low difficulty, a line to the middle power at the reference, a line to the floor. */
  lemma PowerFollowsTwoLines(
    base: int, d: int, reference: int, minPct: int, ratio: real, lowDifficulty: int,
    target: int, floor: int, mid: int, low: int, ref: int, high: int)
    requires 0 < d && 0 < reference
    requires (target, floor) == NormalizePowerRange(base, minPct) && mid == MidPower(target, floor)
    requires low == Max(1, lowDifficulty) && ref == Max(low, reference) && high == HighDifficulty(ref, if ratio > 1.0 then ratio else 2.0)
    ensures d <= low ==> DifficultyPowerTargetPct(base, d, reference, minPct, ratio, lowDifficulty) == target
    ensures low < d <= ref ==>
              NearLine(DifficultyPowerTargetPct(base, d, reference, minPct, ratio, lowDifficulty), target, mid, d - low, ref - low)
    ensures low < d == ref ==> DifficultyPowerTargetPct(base, d, reference, minPct, ratio, lowDifficulty) == mid
    ensures ref < d <= high ==>
              NearLine(DifficultyPowerTargetPct(base, d, reference, minPct, ratio, lowDifficulty), mid, floor, d - ref, high - ref)
    ensures high <= d ==> DifficultyPowerTargetPct(base, d, reference, minPct, ratio, lowDifficulty) == floor
  {
    hide NearLine;
    if low < d <= ref {
      PowerNearLine(target, mid, floor, target, d, low, ref - low);
    } else if ref < d <= high {
      PowerNearLine(mid, floor, floor, target, d, ref, high - ref);
    } else if high < d {
      PowerNearLine(mid, floor, floor, target, high, ref, high - ref);
      AlongAtTheEnd(d, ref, high - ref);
      AlongAtTheEnd(high, ref, high - ref);
    }
  }

  /** The middle power is, to the nearest percent, 35 hundredths of the way down. */
  lemma MidPowerIsAThirdDown(target: int, floor: int)
    requires floor <= target
    ensures NearLine(MidPower(target, floor), target, floor, 35, 100)
  {
    var x := target as real - 0.35 * (target - floor) as real;
    RoundMonotone(floor as real, x);
    RoundMonotone(x, target as real);
    RoundOfInt(floor);
    RoundOfInt(target);
  }

  /** The high end is the nearest whole difficulty to the reference times the ratio, and above the reference. */
  lemma HighEndIsNearest(ref: int, ratio: real)
    ensures var high := HighDifficulty(ref, ratio);
            && ref + 1 <= high && ref as real * ratio - 0.5 <= high as real
            && (high == ref + 1 || high as real <= ref as real * ratio + 0.5)
  {
  }

  /** All lanes run up to the whole part of the ratio, kept between a twentieth and nineteen, of the reference. */
  lemma FullPackExactly(reference: int, ratio: real, d: int)
    requires 1 <= reference
    ensures d <= FullPackDifficulty(reference, ratio) <==>
              d <= 1 || d as real <= reference as real * ClampReal(ratio, 0.05, 0.95)
  {
    var share := ClampReal(ratio, 0.05, 0.95);
    assert share == MaxReal(0.05, MinReal(0.95, ratio));
    var product := reference as real * share;
    FractionBounds(reference, share);
    assert FullPackDifficulty(reference, ratio) == Max(1, product.Floor);
  }

  lemma AlongAtTheEnd(x: int, start: int, span: int)
    requires 0 < span && start + span <= x
    ensures Along(x, start, span) == 1.0
  {
    DivMonotone(span, x - start, span);
    assert span as real / span as real == 1.0;
  }

  /** Full batch up to the target, the floor from the emergency limit on, and a straight line between. */
  lemma PressureScaleIsALine(used: int, target: int, emergency: int, minScale: real, start: int, end: int)
    requires start == Max(1, target) && end == Max(start + 1, emergency)
    ensures used <= start ==> VramPressureScale(used, target, emergency, minScale) == 1.0
    ensures used >= end ==> VramPressureScale(used, target, emergency, minScale) == ClampReal(minScale, 0.50, 1.0)
    ensures start < used < end ==>
              OnScaleLine(VramPressureScale(used, target, emergency, minScale), ClampReal(minScale, 0.50, 1.0),
                          used - start, end - start)
  {
    if start < used < end {
      RampIsALine(used, start, end, ClampReal(minScale, 0.50, 1.0));
    }
  }

  /** The piece of the ramp below `x`. */
  lemma RampBelow(x: int, start: int, end: int, floor: real)
    requires start < end && floor <= 1.0
    ensures OnScaleLine(ScaleRamp(x, start, end, floor), floor, Clamp(x, start, end) - start, end - start)
  {
    if start < x < end {
      RampIsALine(x, start, end, floor);
    }
  }

  /** From `a` to `b` in `steps` steps, at most that share of `depth` over a ramp of `span` steps. */
  predicate FallsAtMost(a: real, b: real, steps: int, span: int, depth: real) {
    (a - b) * span as real <= steps as real * depth
  }

  lemma Spread(a: real, b: real, x: int, y: int, span: int, floor: real)
    requires OnScaleLine(a, floor, x, span) && OnScaleLine(b, floor, y, span)
    ensures FallsAtMost(a, b, y - x, span, 1.0 - floor)
  {
    var n, depth := span as real, 1.0 - floor;
    assert (1.0 - b) * n - (1.0 - a) * n == (a - b) * n;
    assert y as real * depth - x as real * depth == (y - x) as real * depth;
  }

  lemma MoreSteps(a: real, b: real, few: int, many: int, span: int, depth: real)
    requires FallsAtMost(a, b, few, span, depth) && few <= many && 0.0 <= depth
    ensures FallsAtMost(a, b, many, span, depth)
  {
    ScaleMonotone(few as real, many as real, depth);
  }

  lemma RampMovesSlowly(x: int, y: int, start: int, end: int, floor: real)
    requires x <= y && start < end && floor <= 1.0
    ensures FallsAtMost(ScaleRamp(x, start, end, floor), ScaleRamp(y, start, end, floor), y - x, end - start, 1.0 - floor)
  {
    hide ScaleRamp, FallsAtMost, OnScaleLine;
    var a, b := ScaleRamp(x, start, end, floor), ScaleRamp(y, start, end, floor);
    var dx, dy := Clamp(x, start, end) - start, Clamp(y, start, end) - start;
    RampBelow(x, start, end, floor);
    RampBelow(y, start, end, floor);
    Spread(a, b, dx, dy, end - start, floor);
    MoreSteps(a, b, dy - dx, y - x, end - start, 1.0 - floor);
  }

  /** Heat takes the batch down evenly: no degree, at the knees or between, takes more than its share of the ramp. */
  lemma HeatScaleMovesSlowly(t1: int, t2: int, warn: int, max: int, minScale: real, margin: int)
    requires 0 < t1 <= t2
    ensures FallsAtMost(ThermalBatchScale(t1, warn, max, minScale, margin),
                        ThermalBatchScale(t2, warn, max, minScale, margin), t2 - t1,
                        Max(warn + 1, max) - (warn - Max(0, margin)), 1.0 - ClampReal(minScale, 0.50, 1.0))
  {
    hide ScaleRamp, FallsAtMost;
    RampMovesSlowly(t1, t2, warn - Max(0, margin), Max(warn + 1, max), ClampReal(minScale, 0.50, 1.0));
  }

  /** Nor does a MiB in use. */
  lemma PressureScaleMovesSlowly(u1: int, u2: int, target: int, emergency: int, minScale: real)
    requires u1 <= u2
    ensures FallsAtMost(VramPressureScale(u1, target, emergency, minScale),
                        VramPressureScale(u2, target, emergency, minScale), u2 - u1,
                        Max(Max(1, target) + 1, emergency) - Max(1, target), 1.0 - ClampReal(minScale, 0.50, 1.0))
  {
    hide ScaleRamp, FallsAtMost;
    var floor, start := ClampReal(minScale, 0.50, 1.0), Max(1, target);
    var end := Max(start + 1, emergency);
    RampMovesSlowly(Max(0, u1), Max(0, u2), start, end, floor);
    MoreSteps(ScaleRamp(Max(0, u1), start, end, floor), ScaleRamp(Max(0, u2), start, end, floor),
              Max(0, u2) - Max(0, u1), u2 - u1, end - start, 1.0 - floor);
  }

  lemma RampIsALine(x: int, start: int, end: int, floor: real)
    requires start < x < end && floor <= 1.0
    ensures OnScaleLine(ScaleRamp(x, start, end, floor), floor, x - start, end - start)
  {
    var span := end - start;
    var t := (x - start) as real / span as real;
    AlongInside(x, start, span);
    ScaleMonotone(0.0, t, 1.0 - floor);
    ScaleMonotone(t, 1.0, 1.0 - floor);
    assert ScaleRamp(x, start, end, floor) == 1.0 - t * (1.0 - floor);
    TimesSpan(x - start, span, 1.0 - floor);
  }

  /** All lanes while cool, the minimum from the limit on, and to the nearest lane a straight line between. */
  lemma HeatLanesFollowALine(planned: int, t: int, warn: int, max: int, minLanes: int, cool: int, derate: int, start: int, floor: int)
    requires 0 < t && 1 <= planned
    requires start == warn - Min(Max(0, cool), Max(0, derate)) && floor == Clamp(minLanes, 1, planned)
    ensures t <= start ==> ThermalLaneCap(planned, t, warn, max, minLanes, cool, derate) == planned
    ensures t >= Max(warn + 1, max) ==> ThermalLaneCap(planned, t, warn, max, minLanes, cool, derate) == floor
    ensures start < t < Max(warn + 1, max) ==>
              NearLine(ThermalLaneCap(planned, t, warn, max, minLanes, cool, derate), planned, floor,
                       t - start, Max(warn + 1, max) - start)
  {
    if start < t < Max(warn + 1, max) {
      var span := Max(warn + 1, max) - start;
      if planned > floor {
        AlongInside(t, start, span);
        LanesNearLine(planned, floor, t - start, span);
      } else {
        assert (planned - planned) * span == 0 && (t - start) * (planned - planned) == 0;
      }
    }
  }

  lemma NearSpread(p: int, q: int, a: int, b: int, x: int, y: int, span: int)
    requires NearLine(p, a, b, x, span) && NearLine(q, a, b, y, span)
    ensures (p - q) * span <= (y - x) * (a - b) + span
  {
    assert (p - a) * span + x * (a - b) - ((q - a) * span + y * (a - b)) == (p - q) * span - (y - x) * (a - b);
  }

  lemma EndsAreNear(a: int, b: int, span: int)
    requires 0 < span
    ensures NearLine(a, a, b, 0, span) && NearLine(b, a, b, span, span)
  {
    assert (b - a) * span + span * (a - b) == 0;
  }

  lemma HeatLanesNear(planned: int, t: int, warn: int, max: int, minLanes: int, cool: int, derate: int, start: int, floor: int)
    requires 0 < t && 1 <= planned
    requires start == warn - Min(Max(0, cool), Max(0, derate)) && floor == Clamp(minLanes, 1, planned)
    ensures NearLine(ThermalLaneCap(planned, t, warn, max, minLanes, cool, derate), planned, floor,
                     Clamp(t, start, Max(warn + 1, max)) - start, Max(warn + 1, max) - start)
  {
    hide NearLine, ThermalLaneCap;
    HeatLanesFollowALine(planned, t, warn, max, minLanes, cool, derate, start, floor);
    EndsAreNear(planned, floor, Max(warn + 1, max) - start);
  }

  /** Rounding included, heat takes lanes at most one faster than evenly over the ramp. */
  lemma HeatLanesMoveSlowly(
    planned: int, t1: int, t2: int, warn: int, max: int, minLanes: int, cool: int, derate: int, span: int, floor: int)
    requires 0 < t1 <= t2 && 1 <= planned && floor == Clamp(minLanes, 1, planned)
    requires span == Max(warn + 1, max) - (warn - Min(Max(0, cool), Max(0, derate)))
    ensures (ThermalLaneCap(planned, t1, warn, max, minLanes, cool, derate)
             - ThermalLaneCap(planned, t2, warn, max, minLanes, cool, derate)) * span
         <= (t2 - t1) * (planned - floor) + span
  {
    hide ThermalLaneCap, NearLine;
    var end := Max(warn + 1, max);
    var start := end - span;
    HeatLanesNear(planned, t1, warn, max, minLanes, cool, derate, start, floor);
    HeatLanesNear(planned, t2, warn, max, minLanes, cool, derate, start, floor);
    var x, y := Clamp(t1, start, end) - start, Clamp(t2, start, end) - start;
    NearSpread(ThermalLaneCap(planned, t1, warn, max, minLanes, cool, derate),
               ThermalLaneCap(planned, t2, warn, max, minLanes, cool, derate), planned, floor, x, y, span);
    MulMonotone(y - x, t2 - t1, planned - floor);
  }

  /** All lanes up to the full-pack difficulty, one from the reference on, and to the nearest lane a line between. */
  lemma LaneBiasFollowsALine(planned: int, d: int, reference: int, ratio: real, fullAt: int)
    requires 0 < d && 1 < planned && 0 < reference && fullAt == FullPackDifficulty(reference, ratio)
    ensures d >= reference ==> DifficultyLaneBias(planned, d, reference, ratio) == 1
    ensures d <= fullAt && d < reference ==> DifficultyLaneBias(planned, d, reference, ratio) == planned
    ensures fullAt < d < reference ==>
              NearLine(DifficultyLaneBias(planned, d, reference, ratio), planned, 1, d - fullAt, reference - fullAt)
  {
    if fullAt < d < reference {
      AlongInside(d, fullAt, reference - fullAt);
      LanesNearLine(planned, 1, d - fullAt, reference - fullAt);
    }
  }

  lemma HalfRamp(x: int, start: int, end: int)
    requires start < x < end
    ensures ScaleRamp(x, start, end, 0.50) == 1.0 - (x - start) as real / (end - start) as real * 0.50
    ensures (x - start) as real / (end - start) as real <= 0.002 <==> 500 * (x - start) <= end - start
  {
    var span := end - start;
    var t := (x - start) as real / span as real;
    AlongInside(x, start, span);
    SmallShare(t, (x - start) as real, span as real);
  }

  lemma SmallShare(t: real, x: real, span: real)
    requires 0.0 < span && t * span == x
    ensures t <= 0.002 <==> 500.0 * x <= span
  {
    if t <= 0.002 {
      ScaleMonotone(t, 0.002, span);
    } else {
      StrictProduct(0.002, t, span);
    }
  }

  lemma StrictProduct(s: real, t: real, k: real)
    requires s < t && 0.0 < k
    ensures s * k < t * k
  {
    assert (t - s) * k > 0.0;
  }

  /** All lanes up to the target and a five-hundredth beyond, the minimum from the emergency limit on, a line between. */
  lemma PressureLanesFollowALine(
    planned: int, used: int, target: int, emergency: int, minLanes: int, start: int, end: int, floor: int)
    requires 1 <= planned && floor == Clamp(minLanes, 1, planned)
    requires start == Max(1, target) && end == Max(start + 1, emergency)
    ensures used < end && 500 * (used - start) <= end - start ==>
              VramPressureLaneCap(planned, used, target, emergency, minLanes) == planned
    ensures used >= end ==> VramPressureLaneCap(planned, used, target, emergency, minLanes) == floor
    ensures start < used < end && 500 * (used - start) > end - start ==>
              NearLine(VramPressureLaneCap(planned, used, target, emergency, minLanes), planned, floor,
                       used - start, end - start)
  {
    PressureScaleIsALine(used, target, emergency, 0.50, start, end);
    if start < used < end {
      HalfRamp(used, start, end);
      AlongInside(used, start, end - start);
      LanesNearLine(planned, floor, used - start, end - start);
      assert planned == floor ==> NearLine(planned, planned, floor, used - start, end - start);
    } else if used >= end {
      AllTheWay(planned, floor);
    }
  }

  lemma AllTheWay(planned: int, floor: int)
    requires floor <= planned
    ensures LanesAt(planned, floor, 1.0) == floor
  {
    EasedDrop(planned, floor, 1.0, (planned - floor) as real);
    RoundOfInt(floor);
  }

  /** The heat proxy is nothing up to its start, its most from its end on, and to the nearest degree a line between. */
  lemma TightenFollowsALine(d: int, reference: int, startRatio: real, fullRatio: real, most: int, start: real, full: real)
    requires 0 < d && 0 < reference && 0 < most
    requires start == reference as real * MaxReal(1.0, startRatio)
    requires full == reference as real * MaxReal(startRatio + 0.01, fullRatio)
    ensures d as real <= start ==> HighDiffTempTightenC(d, reference, startRatio, fullRatio, most) == 0
    ensures d as real >= full && d as real > start ==> HighDiffTempTightenC(d, reference, startRatio, fullRatio, most) == most
    ensures start < d as real < full ==>
              var t := (d as real - start) / (full - start);
              -0.5 <= HighDiffTempTightenC(d, reference, startRatio, fullRatio, most) as real - t * most as real <= 0.5
  {
    if start < d as real < full {
      RealAlongMonotone(d as real, d as real, start, full);
      InsideIsUnclamped(d as real, start, full);
    }
  }

  /** From `p` to `q` over a step in `x`, at most that share of `most` over a ramp of `span`, and one for rounding. */
  predicate RisesAtMost(p: int, q: int, step: real, span: real, most: int) {
    (q - p) as real * span <= step * most as real + span
  }

  /** A step in difficulty raises the heat proxy by at most its share of the ramp and one degree of rounding. */
  lemma TightenMovesSlowly(
    d1: int, d2: int, reference: int, startRatio: real, fullRatio: real, most: int, start: real, full: real)
    requires 0 < d1 <= d2 && 0 < reference && 0 < most && start < full
    requires start == reference as real * MaxReal(1.0, startRatio)
    requires full == reference as real * MaxReal(startRatio + 0.01, fullRatio)
    ensures RisesAtMost(HighDiffTempTightenC(d1, reference, startRatio, fullRatio, most),
                        HighDiffTempTightenC(d2, reference, startRatio, fullRatio, most),
                        (d2 - d1) as real, full - start, most)
  {
    hide RealAlong, HighDiffTempTightenC, RisesAtMost, NearShare;
    TightenNear(d1, reference, startRatio, fullRatio, most, start, full);
    TightenNear(d2, reference, startRatio, fullRatio, most, start, full);
    AlongSpread(d1 as real, d2 as real, start, full);
    NearShares(HighDiffTempTightenC(d1, reference, startRatio, fullRatio, most),
               HighDiffTempTightenC(d2, reference, startRatio, fullRatio, most),
               RealAlong(d1 as real, start, full), RealAlong(d2 as real, start, full),
               most, full - start, (d2 - d1) as real);
  }

  predicate NearShare(p: int, t: real, most: int) {
    -0.5 <= p as real - t * most as real <= 0.5
  }

  lemma TightenNear(d: int, reference: int, startRatio: real, fullRatio: real, most: int, start: real, full: real)
    requires 0 < d && 0 < reference && 0 < most && start < full
    requires start == reference as real * MaxReal(1.0, startRatio)
    requires full == reference as real * MaxReal(startRatio + 0.01, fullRatio)
    ensures NearShare(HighDiffTempTightenC(d, reference, startRatio, fullRatio, most), RealAlong(d as real, start, full), most)
  {
    TightenFollowsALine(d, reference, startRatio, fullRatio, most, start, full);
    AlongEnds(d as real, start, full);
    hide HighDiffTempTightenC, RealAlong;
  }

  lemma AlongEnds(x: real, start: real, full: real)
    requires start < full
    ensures x <= start ==> RealAlong(x, start, full) == 0.0
    ensures x >= full ==> RealAlong(x, start, full) == 1.0
    ensures start < x < full ==> RealAlong(x, start, full) == (x - start) / (full - start)
    ensures RealAlong(x, start, full) * (full - start) == ClampReal(x, start, full) - start
  {
    QuotientSide(x - start, full - start);
    if start < x < full {
      InsideIsUnclamped(x, start, full);
    }
  }

  lemma QuotientSide(x: real, n: real)
    requires 0.0 < n
    ensures x / n * n == x
    ensures x <= 0.0 ==> x / n <= 0.0
    ensures x >= n ==> x / n >= 1.0
  {
    var t := x / n;
    assert t * n == x;
    if x <= 0.0 && t > 0.0 {
      StrictProduct(0.0, t, n);
    } else if x >= n && t < 1.0 {
      StrictProduct(t, 1.0, n);
    }
  }

  lemma AlongSpread(x: real, y: real, start: real, full: real)
    requires x <= y && start < full
    ensures (RealAlong(y, start, full) - RealAlong(x, start, full)) * (full - start) <= y - x
  {
    AlongEnds(x, start, full);
    AlongEnds(y, start, full);
    hide RealAlong;
    var s, t, n := RealAlong(x, start, full), RealAlong(y, start, full), full - start;
    assert (t - s) * n == t * n - s * n;
  }

  lemma NearShares(p: int, q: int, s: real, t: real, most: int, span: real, step: real)
    requires 0.0 < span && 0 < most && (t - s) * span <= step
    requires NearShare(p, s, most) && NearShare(q, t, most)
    ensures RisesAtMost(p, q, step, span, most)
  {
    var m := most as real;
    var gap := (t - s) * m;
    assert gap == t * m - s * m;
    ScaleMonotone((q - p) as real, gap + 1.0, span);
    ScaleMonotone((t - s) * span, step, m);
    GapTimesSpan(t - s, m, span);
  }

  lemma GapTimesSpan(d: real, most: real, span: real)
    ensures (d * most + 1.0) * span == d * span * most + span
  {
  }

  lemma InsideIsUnclamped(x: real, start: real, full: real)
    requires start < x < full
    ensures RealAlong(x, start, full) == (x - start) / (full - start)
  {
    var t := (x - start) / (full - start);
    assert t * (full - start) == x - start;
    if t < 0.0 {
      StrictProduct(t, 0.0, full - start);
    }
    if t > 1.0 {
      StrictProduct(1.0, t, full - start);
    }
  }

  lemma NegatedProduct(t: real, k: real, l: real)
    requires k == -l
    ensures t * k == -(t * l)
  {
  }

  lemma Raised(a: real, b: real, rise: real, e: real)
    requires 0.40 <= a <= b <= 1.0 && 0.0 <= rise <= b - a && e == a + rise
    ensures ClampReal(e, 0.40, 1.0) == e
  {
  }

  lemma BetweenEnds(a: real, b: real, t: real)
    requires 0.40 <= a <= 1.0 && 0.40 <= b <= 1.0 && 0.0 <= t <= 1.0
    ensures ClampReal(Eased(a, b, t), 0.40, 1.0) == a - t * (a - b)
  {
    if b <= a {
      EasedFalls(a, b, t, t);
    } else {
      var span := b - a;
      ScaleMonotone(0.0, t, span);
      ScaleMonotone(t, 1.0, span);
      NegatedProduct(t, a - b, span);
      Raised(a, b, t * span, Eased(a, b, t));
    }
  }

  /** `v` is the point `x` of `span` steps along the line from `a` to `b`. */
  predicate OnLine(v: real, a: real, b: real, x: int, span: int) {
    (a - v) * span as real == x as real * (a - b)
  }

  /** The fill fraction meets its three settings at the low, reference and high difficulties, with lines between. */
  lemma FillFollowsTwoLines(
    d: int, reference: int, lowDifficulty: int, atLow: real, atRef: real, atHigh: real, ratio: real,
    low: int, ref: int, high: int)
    requires 0 < d && 0 < reference
    requires 0.40 <= atLow <= 1.0 && 0.40 <= atRef <= 1.0 && 0.40 <= atHigh <= 1.0
    requires low == Max(1, lowDifficulty) && ref == Max(low, reference) && high == HighDifficulty(ref, if ratio > 1.0 then ratio else 1.9)
    ensures d <= low ==> DifficultyBatchFillFraction(d, reference, lowDifficulty, atLow, atRef, atHigh, ratio) == atLow
    ensures low < d <= ref ==>
              OnLine(DifficultyBatchFillFraction(d, reference, lowDifficulty, atLow, atRef, atHigh, ratio), atLow, atRef, d - low, ref - low)
    ensures ref < d <= high ==>
              OnLine(DifficultyBatchFillFraction(d, reference, lowDifficulty, atLow, atRef, atHigh, ratio), atRef, atHigh, d - ref, high - ref)
    ensures high <= d ==> DifficultyBatchFillFraction(d, reference, lowDifficulty, atLow, atRef, atHigh, ratio) == atHigh
  {
    hide OnLine, Along, Eased, HighDifficulty;
    if low < d <= ref {
      FillOnLine(atLow, atRef, d, low, ref);
    } else if ref < d <= high {
      FillOnLine(atRef, atHigh, d, ref, high);
    }
    if high <= d {
      FillEnds(atRef, atHigh, d, ref, high);
    }
  }

  lemma FillEnds(a: real, b: real, d: int, from: int, to: int)
    requires 0.40 <= a <= 1.0 && 0.40 <= b <= 1.0 && from < to <= d
    ensures ClampReal(Eased(a, b, Along(d, from, to - from)), 0.40, 1.0) == b
  {
    AlongAtTheEnd(d, from, to - from);
    BetweenEnds(a, b, 1.0);
  }

  lemma FillOnLine(a: real, b: real, d: int, from: int, to: int)
    requires 0.40 <= a <= 1.0 && 0.40 <= b <= 1.0 && from < d <= to
    ensures OnLine(ClampReal(Eased(a, b, Along(d, from, to - from)), 0.40, 1.0), a, b, d - from, to - from)
  {
    AlongInside(d, from, to - from);
    BetweenEnds(a, b, Along(d, from, to - from));
    TimesSpan(d - from, to - from, a - b);
  }
}
