/**
  The derating policy of efficiency/thermal_policy.py, over exact rationals.
  Every derate is a piecewise linear ramp followed by Python's rounding.
 */
module ThermalPolicy {
  import opened Numbers

  /** How far `x` is along a ramp of length `span` starting at `start`. */
  function Along(x: int, start: int, span: int): real
    requires span > 0
  {
    ClampReal((x - start) as real / span as real, 0.0, 1.0)
  }

  /** `from - t * (from - to)`: the ramp's value at fraction `t`. */
  function Eased(start: real, end: real, t: real): real {
    start - t * (start - end)
  }

  function NormalizePowerRange(targetPct: int, minPct: int): (r: (int, int))
    ensures 50 <= r.1 <= r.0 <= 100
    ensures 50 <= targetPct <= 100 ==> r.0 == targetPct
    ensures targetPct < 50 ==> r.0 == 50
    ensures targetPct > 100 ==> r.0 == 100
    ensures 50 <= minPct <= r.0 ==> r.1 == minPct
    ensures minPct < 50 ==> r.1 == 50
    ensures minPct > r.0 ==> r.1 == r.0
  {
    var target := Clamp(targetPct, 50, 100);
    var floor := Clamp(minPct, 50, 100);
    (target, Min(floor, target))
  }

  function RatioOr(ratio: real, fallback: real): real {
    if ratio > 1.0 then ratio else fallback
  }

  function MidPower(target: int, floor: int): (mid: int)
    requires floor <= target
    ensures floor <= mid <= target
  {
    Clamp(Round(target as real - 0.35 * (target - floor) as real), floor, target)
  }

  /** Where a derate that starts at the reference difficulty reaches its end. */
  function HighDifficulty(ref: int, ratio: real): (high: int)
    ensures ref < high
  {
    Max(ref + 1, Round(ref as real * ratio))
  }

  /** Full power up to `low`, easing to `mid` at `ref` and on to `floor` at `high`. */
  function PowerOnCurve(target: int, mid: int, floor: int, low: int, ref: int, high: int, difficulty: int): int
    requires ref < high
  {
    if difficulty <= low then target
    else if difficulty <= ref then
      var t := if ref > low then Along(difficulty, low, ref - low) else 1.0;
      Clamp(Round(Eased(target as real, mid as real, t)), floor, target)
    else
      Clamp(Round(Eased(mid as real, floor as real, Along(difficulty, ref, high - ref))), floor, target)
  }

  function DifficultyPowerTargetPct(
    baseTargetPct: int, difficulty: int, referenceDifficulty: int,
    minPct: int, fullDerateRatio: real, lowDifficulty: int): int
  {
    var (target, floor) := NormalizePowerRange(baseTargetPct, minPct);
    if difficulty <= 0 || referenceDifficulty <= 0 then target
    else
      var low := Max(1, lowDifficulty);
      var ref := Max(low, referenceDifficulty);
      var high := HighDifficulty(ref, RatioOr(fullDerateRatio, 2.0));
      PowerOnCurve(target, MidPower(target, floor), floor, low, ref, high, difficulty)
  }

  function DifficultyBatchFillFraction(
    difficulty: int, referenceDifficulty: int, lowDifficulty: int,
    fillAtLow: real, fillAtRef: real, fillAtHigh: real, fullDerateRatio: real): (fill: real)
    ensures 0.40 <= fill <= 1.0
  {
    var lowFill := ClampReal(fillAtLow, 0.40, 1.0);
    var refFill := ClampReal(fillAtRef, 0.40, 1.0);
    var highFill := ClampReal(fillAtHigh, 0.40, 1.0);
    if difficulty <= 0 || referenceDifficulty <= 0 then refFill
    else
      var low := Max(1, lowDifficulty);
      var ref := Max(low, referenceDifficulty);
      var high := HighDifficulty(ref, RatioOr(fullDerateRatio, 1.9));
      if difficulty <= low then lowFill
      else if difficulty <= ref then
        var t := if ref > low then Along(difficulty, low, ref - low) else 1.0;
        ClampReal(Eased(lowFill, refFill, t), 0.40, 1.0)
      else
        ClampReal(Eased(refFill, highFill, Along(difficulty, ref, high - ref)), 0.40, 1.0)
  }

  function ScaleAt(t: real, floor: real): real {
    Lowered(t * (1.0 - floor), floor)
  }

  function Lowered(drop: real, floor: real): real {
    ClampReal(1.0 - drop, floor, 1.0)
  }

  /** One up to `start`, `floor` from `end`, linear between. */
  function ScaleRamp(x: int, start: int, end: int, floor: real): real {
    if x <= start then 1.0
    else if x >= end then floor
    else ScaleAt((x - start) as real / (end - start) as real, floor)
  }

  function ThermalBatchScale(
    temperatureC: int, warnTempC: int, maxTempC: int, minScale: real, coolMarginC: int): real
  {
    if temperatureC <= 0 then 1.0
    else ScaleRamp(temperatureC, warnTempC - Max(0, coolMarginC), Max(warnTempC + 1, maxTempC),
                   ClampReal(minScale, 0.50, 1.0))
  }

  function ApplyBatchScale(batchSize: int, scale: real): int {
    if batchSize <= 0 then 0
    else Max(1, Portion(batchSize, ClampReal(scale, 0.50, 1.0)))
  }

  function Portion(n: int, share: real): int {
    Truncate(n as real * share)
  }

  function VramPressureScale(usedMib: int, targetMib: int, emergencyMib: int, minScale: real): real {
    var start := Max(1, targetMib);
    ScaleRamp(Max(0, usedMib), start, Max(start + 1, emergencyMib), ClampReal(minScale, 0.50, 1.0))
  }

  /** The lane count at fraction `t` of the way from `planned` down to `floor`. */
  function LanesAt(planned: int, floor: int, t: real): int {
    Clamp(Round(Eased(planned as real, floor as real, t)), floor, planned)
  }

  function VramPressureLaneCap(
    plannedLanes: int, usedMib: int, targetMib: int, emergencyMib: int, minLanes: int): int
  {
    var planned := Max(1, plannedLanes);
    var floor := Clamp(minLanes, 1, planned);
    if planned <= floor then planned
    else
      var scale := VramPressureScale(usedMib, targetMib, emergencyMib, 0.50);
      if scale >= 0.999 then planned
      else LanesAt(planned, floor, ClampReal((1.0 - scale) / 0.50, 0.0, 1.0))
  }

  function CombineBatchScales(a: real, b: real, floor: real): real {
    ClampReal(MinReal(a, b), ClampReal(floor, 0.50, 1.0), 1.0)
  }

  function ThermalLaneCap(
    plannedLanes: int, temperatureC: int, warnTempC: int, maxTempC: int,
    minLanes: int, coolMarginC: int, startDerateMarginC: int): int
  {
    var planned := Max(1, plannedLanes);
    var floor := Clamp(minLanes, 1, planned);
    if planned <= floor || temperatureC <= 0 then planned
    else
      var hard := Max(warnTempC + 1, maxTempC);
      var derateStart := Max(warnTempC - Max(0, coolMarginC), warnTempC - Max(0, startDerateMarginC));
      if temperatureC <= derateStart then planned
      else if temperatureC >= hard then floor
      else LanesAt(planned, floor, Along(temperatureC, derateStart, hard - derateStart))
  }

  function RealAlong(x: real, start: real, end: real): real
    requires start < end
  {
    ClampReal((x - start) / (end - start), 0.0, 1.0)
  }

  function RoundedShare(t: real, most: int): int {
    Round(t * most as real)
  }

  function TightenOnCurve(difficulty: real, start: real, full: real, most: int): int {
    if difficulty <= start then 0
    else if difficulty >= full then most
    else RoundedShare(RealAlong(difficulty, start, full), most)
  }

  function HighDiffTempTightenC(
    difficulty: int, referenceDifficulty: int, startRatio: real, fullRatio: real, maxTightenC: int): int
  {
    if difficulty <= 0 || referenceDifficulty <= 0 || maxTightenC <= 0 then 0
    else
      TightenOnCurve(difficulty as real,
                     referenceDifficulty as real * MaxReal(1.0, startRatio),
                     referenceDifficulty as real * MaxReal(startRatio + 0.01, fullRatio),
                     maxTightenC)
  }

  function EffectiveControlTempC(
    measuredTempC: int, difficulty: int, referenceDifficulty: int,
    startRatio: real, fullRatio: real, maxTightenC: int): int
  {
    if measuredTempC <= 0 then 0
    else measuredTempC
         + HighDiffTempTightenC(difficulty, referenceDifficulty, startRatio, fullRatio, maxTightenC)
  }

  function FullPackDifficulty(referenceDifficulty: int, fullPackRatio: real): int {
    Max(1, Truncate(referenceDifficulty as real * MaxReal(0.05, MinReal(0.95, fullPackRatio))))
  }

  function DifficultyLaneBias(
    plannedLanes: int, difficulty: int, referenceDifficulty: int, fullPackRatio: real): int
  {
    var planned := Max(1, plannedLanes);
    if planned <= 1 || referenceDifficulty <= 0 || difficulty <= 0 then planned
    else if difficulty >= referenceDifficulty then 1
    else
      var fullAt := FullPackDifficulty(referenceDifficulty, fullPackRatio);
      if difficulty <= fullAt then planned
      else LanesAt(planned, 1, Along(difficulty, fullAt, referenceDifficulty - fullAt))
  }

  // ----------------------------------------------------------------- ramps

  lemma DivMonotone(a: int, b: int, span: int)
    requires a <= b && span > 0
    ensures a as real / span as real <= b as real / span as real
  {
    assert (b - a) as real / span as real >= 0.0;
    assert b as real / span as real - a as real / span as real == (b - a) as real / span as real;
  }

  lemma AlongMonotone(x: int, y: int, start: int, span: int)
    requires x <= y && span > 0
    ensures 0.0 <= Along(x, start, span) <= Along(y, start, span) <= 1.0
  {
    DivMonotone(x - start, y - start, span);
  }

  lemma ScaleMonotone(s: real, t: real, k: real)
    requires s <= t && 0.0 <= k
    ensures s * k <= t * k
    ensures k * s <= k * t
  {
    assert (t - s) * k >= 0.0;
    assert (t - s) * k == t * k - s * k;
    assert k * (t - s) == k * t - k * s;
  }

  lemma EasedFalls(start: real, end: real, s: real, t: real)
    requires end <= start && 0.0 <= s <= t <= 1.0
    ensures end <= Eased(start, end, t) <= Eased(start, end, s) <= start
  {
    var span := start - end;
    ScaleMonotone(s, t, span);
    ScaleMonotone(t, 1.0, span);
    ScaleMonotone(0.0, s, span);
    assert Eased(start, end, s) == start - s * span && Eased(start, end, t) == start - t * span;
    hide Eased;
  }

  lemma LanesFall(planned: int, floor: int, s: real, t: real)
    requires floor <= planned && 0.0 <= s <= t <= 1.0
    ensures floor <= LanesAt(planned, floor, t) <= LanesAt(planned, floor, s) <= planned
  {
    EasedFalls(planned as real, floor as real, s, t);
    RoundMonotone(Eased(planned as real, floor as real, t), Eased(planned as real, floor as real, s));
  }

  lemma ScaleFalls(s: real, t: real, floor: real)
    requires 0.0 <= s <= t && floor <= 1.0
    ensures floor <= ScaleAt(t, floor) <= ScaleAt(s, floor) <= 1.0
  {
    var depth := 1.0 - floor;
    ScaleMonotone(s, t, depth);
    ScaleMonotone(0.0, s, depth);
    LoweredFalls(s * depth, t * depth, floor);
  }

  lemma LoweredFalls(a: real, b: real, floor: real)
    requires 0.0 <= a <= b && floor <= 1.0
    ensures floor <= Lowered(b, floor) <= Lowered(a, floor) <= 1.0
  {
  }

  lemma ScaleRampFalls(x: int, y: int, start: int, end: int, floor: real)
    requires x <= y && start < end && floor <= 1.0
    ensures floor <= ScaleRamp(y, start, end, floor) <= ScaleRamp(x, start, end, floor) <= 1.0
  {
    if start < x {
      DivMonotone(0, x - start, end - start);
      DivMonotone(x - start, y - start, end - start);
      ScaleFalls((x - start) as real / (end - start) as real, (y - start) as real / (end - start) as real, floor);
    } else if start < y {
      DivMonotone(0, y - start, end - start);
      ScaleFalls(0.0, (y - start) as real / (end - start) as real, floor);
    }
  }

  // ------------------------------------------------------------ main results

  /** A hotter board never gets a larger batch; the scale stays between its floor and one. */
  lemma BatchScaleFallsWithHeat(t1: int, t2: int, warn: int, max: int, minScale: real, margin: int)
    requires 0 < t1 <= t2
    ensures ThermalBatchScale(t2, warn, max, minScale, margin) <= ThermalBatchScale(t1, warn, max, minScale, margin)
    ensures ClampReal(minScale, 0.50, 1.0) <= ThermalBatchScale(t2, warn, max, minScale, margin) <= 1.0
  {
    ScaleRampFalls(t1, t2, warn - Max(0, margin), Max(warn + 1, max), ClampReal(minScale, 0.50, 1.0));
  }

  /** More memory in use never gets a larger batch. */
  lemma PressureScaleFallsWithUse(u1: int, u2: int, target: int, emergency: int, minScale: real)
    requires u1 <= u2
    ensures VramPressureScale(u2, target, emergency, minScale) <= VramPressureScale(u1, target, emergency, minScale)
    ensures ClampReal(minScale, 0.50, 1.0) <= VramPressureScale(u2, target, emergency, minScale) <= 1.0
  {
    var start := Max(1, target);
    ScaleRampFalls(Max(0, u1), Max(0, u2), start, Max(start + 1, emergency), ClampReal(minScale, 0.50, 1.0));
  }

  /** A hotter board never gets more lanes, rounding included. */
  lemma ThermalLanesFallWithHeat(
    planned: int, t1: int, t2: int, warn: int, max: int, minLanes: int, cool: int, derate: int)
    requires 0 < t1 <= t2
    ensures ThermalLaneCap(planned, t2, warn, max, minLanes, cool, derate)
         <= ThermalLaneCap(planned, t1, warn, max, minLanes, cool, derate)
    ensures Clamp(minLanes, 1, Max(1, planned))
         <= ThermalLaneCap(planned, t2, warn, max, minLanes, cool, derate) <= Max(1, planned)
  {
    var most := Max(1, planned);
    var floor := Clamp(minLanes, 1, most);
    var hard := Max(warn + 1, max);
    var start := Max(warn - Max(0, cool), warn - Max(0, derate));
    if start < t2 && t2 < hard {
      AlongMonotone(t1, t2, start, hard - start);
      LanesFall(most, floor, Along(t1, start, hard - start), Along(t2, start, hard - start));
    }
    if start < t1 && t1 < hard {
      AlongMonotone(t1, t1, start, hard - start);
      LanesFall(most, floor, Along(t1, start, hard - start), Along(t1, start, hard - start));
    }
  }

  /** More memory in use never gets more lanes, rounding included. */
  lemma PressureLanesFallWithUse(planned: int, u1: int, u2: int, target: int, emergency: int, minLanes: int)
    requires u1 <= u2
    ensures VramPressureLaneCap(planned, u2, target, emergency, minLanes)
         <= VramPressureLaneCap(planned, u1, target, emergency, minLanes)
    ensures Clamp(minLanes, 1, Max(1, planned))
         <= VramPressureLaneCap(planned, u2, target, emergency, minLanes) <= Max(1, planned)
  {
    PressureScaleFallsWithUse(u1, u2, target, emergency, 0.50);
    PressureScaleFallsWithUse(u1, u1, target, emergency, 0.50);
    var s1 := VramPressureScale(u1, target, emergency, 0.50);
    var s2 := VramPressureScale(u2, target, emergency, 0.50);
    LanesFall(Max(1, planned), Clamp(minLanes, 1, Max(1, planned)),
              ClampReal((1.0 - s1) / 0.50, 0.0, 1.0), ClampReal((1.0 - s2) / 0.50, 0.0, 1.0));
  }

  lemma FullPackBelowReference(reference: int, ratio: real)
    requires 1 <= reference
    ensures 1 <= FullPackDifficulty(reference, ratio) <= reference
  {
    FractionBounds(reference, MaxReal(0.05, MinReal(0.95, ratio)));
  }

  /** A harder network never gets more lanes; the bias ends at one lane. */
  lemma LaneBiasFallsWithDifficulty(planned: int, d1: int, d2: int, reference: int, ratio: real)
    requires 0 < d1 <= d2
    ensures DifficultyLaneBias(planned, d2, reference, ratio) <= DifficultyLaneBias(planned, d1, reference, ratio)
    ensures 1 <= DifficultyLaneBias(planned, d2, reference, ratio) <= Max(1, planned)
  {
    if 1 <= reference {
      FullPackBelowReference(reference, ratio);
      var most := Max(1, planned);
      var fullAt := FullPackDifficulty(reference, ratio);
      if fullAt < d1 < reference {
        AlongMonotone(d1, d1, fullAt, reference - fullAt);
        LanesFall(most, 1, Along(d1, fullAt, reference - fullAt), Along(d1, fullAt, reference - fullAt));
      }
      if fullAt < d2 < reference {
        AlongMonotone(d1, d2, fullAt, reference - fullAt);
        LanesFall(most, 1, Along(d1, fullAt, reference - fullAt), Along(d2, fullAt, reference - fullAt));
      }
    }
  }

  lemma PowerSegment(start: int, end: int, floor: int, target: int, s: real, t: real)
    requires floor <= end <= start <= target && 0.0 <= s <= t <= 1.0
    ensures end <= Clamp(Round(Eased(start as real, end as real, t)), floor, target)
                <= Clamp(Round(Eased(start as real, end as real, s)), floor, target) <= start
  {
    EasedFalls(start as real, end as real, s, t);
    RoundMonotone(Eased(start as real, end as real, t), Eased(start as real, end as real, s));
    RoundMonotone(Eased(start as real, end as real, s), start as real);
    RoundMonotone(end as real, Eased(start as real, end as real, t));
    RoundOfInt(start);
    RoundOfInt(end);
  }

  lemma PowerBelowReference(target: int, mid: int, floor: int, low: int, ref: int, high: int, d: int, e: int)
    requires floor <= mid <= target && ref < high && d <= e <= ref && low <= ref
    ensures mid <= PowerOnCurve(target, mid, floor, low, ref, high, e)
                <= PowerOnCurve(target, mid, floor, low, ref, high, d) <= target
  {
    if low < e {
      AlongMonotone(d, e, low, ref - low);
      PowerSegment(target, mid, floor, target, Along(d, low, ref - low), Along(e, low, ref - low));
    }
  }

  lemma PowerAboveReference(target: int, mid: int, floor: int, low: int, ref: int, high: int, d: int, e: int)
    requires floor <= mid <= target && low <= ref < high && ref < d <= e
    ensures floor <= PowerOnCurve(target, mid, floor, low, ref, high, e)
                  <= PowerOnCurve(target, mid, floor, low, ref, high, d) <= mid
  {
    AlongMonotone(d, e, ref, high - ref);
    PowerSegment(mid, floor, floor, target, Along(d, ref, high - ref), Along(e, ref, high - ref));
  }

  lemma PowerCurveFalls(target: int, mid: int, floor: int, low: int, ref: int, high: int, d: int, e: int)
    requires floor <= mid <= target && low <= ref < high && d <= e
    ensures floor <= PowerOnCurve(target, mid, floor, low, ref, high, e)
                  <= PowerOnCurve(target, mid, floor, low, ref, high, d) <= target
  {
    if e <= ref {
      PowerBelowReference(target, mid, floor, low, ref, high, d, e);
    } else if ref < d {
      PowerAboveReference(target, mid, floor, low, ref, high, d, e);
    } else {
      PowerBelowReference(target, mid, floor, low, ref, high, d, d);
      PowerAboveReference(target, mid, floor, low, ref, high, e, e);
    }
  }

  /** Power never rises with difficulty, across both ramps and the knee between them. */
  lemma PowerFallsWithDifficulty(
    base: int, d1: int, d2: int, reference: int, minPct: int, ratio: real, lowDifficulty: int)
    requires 0 < d1 <= d2
    ensures DifficultyPowerTargetPct(base, d2, reference, minPct, ratio, lowDifficulty)
         <= DifficultyPowerTargetPct(base, d1, reference, minPct, ratio, lowDifficulty)
    ensures NormalizePowerRange(base, minPct).1
         <= DifficultyPowerTargetPct(base, d2, reference, minPct, ratio, lowDifficulty)
         <= NormalizePowerRange(base, minPct).0
  {
    if 0 < reference {
      var (target, floor) := NormalizePowerRange(base, minPct);
      var low := Max(1, lowDifficulty);
      var ref := Max(low, reference);
      var high := HighDifficulty(ref, RatioOr(ratio, 2.0));
      PowerCurveFalls(target, MidPower(target, floor), floor, low, ref, high, d1, d2);
    }
  }

  /** The heat proxy for a missing board sensor rises with difficulty and stays within its bound. */
  lemma TightenRisesWithDifficulty(d1: int, d2: int, reference: int, startRatio: real, fullRatio: real, most: int)
    requires 0 < d1 <= d2
    ensures HighDiffTempTightenC(d1, reference, startRatio, fullRatio, most)
         <= HighDiffTempTightenC(d2, reference, startRatio, fullRatio, most)
    ensures 0 <= HighDiffTempTightenC(d2, reference, startRatio, fullRatio, most) <= Max(0, most)
  {
    if 0 < reference && 0 < most {
      TightenCurveRises(d1 as real, d2 as real,
                        reference as real * MaxReal(1.0, startRatio),
                        reference as real * MaxReal(startRatio + 0.01, fullRatio), most);
    }
  }

  lemma RoundedShareRises(s: real, t: real, most: int)
    requires 0.0 <= s <= t <= 1.0 && 0 < most
    ensures 0 <= RoundedShare(s, most) <= RoundedShare(t, most) <= most
  {
    var x, y := s * most as real, t * most as real;
    assert 0.0 <= x <= y <= most as real by {
      ScaleMonotone(0.0, s, most as real);
      ScaleMonotone(s, t, most as real);
      ScaleMonotone(t, 1.0, most as real);
    }
    RoundBetween(x, y, most);
  }

  lemma RoundBetween(x: real, y: real, most: int)
    requires 0.0 <= x <= y <= most as real
    ensures 0 <= Round(x) <= Round(y) <= most
  {
    RoundMonotone(0.0, x);
    RoundMonotone(x, y);
    RoundMonotone(y, most as real);
    RoundOfInt(0);
    RoundOfInt(most);
  }

  lemma RealAlongMonotone(x: real, y: real, start: real, end: real)
    requires x <= y && start < end
    ensures 0.0 <= RealAlong(x, start, end) <= RealAlong(y, start, end) <= 1.0
  {
    var a, b, span := x - start, y - start, end - start;
    assert b / span - a / span == (b - a) / span;
  }

  lemma TightenCurveRises(x: real, y: real, start: real, full: real, most: int)
    requires x <= y && 0 < most
    ensures 0 <= TightenOnCurve(x, start, full, most) <= TightenOnCurve(y, start, full, most) <= most
  {
    if start < full {
      RealAlongMonotone(x, y, start, full);
      RoundedShareRises(RealAlong(x, start, full), RealAlong(y, start, full), most);
    }
  }

  lemma PortionMonotone(n: int, s: real, t: real)
    requires 0 <= n && s <= t
    ensures Portion(n, s) <= Portion(n, t)
  {
    hide Truncate;
    var a, b := n as real * s, n as real * t;
    assert a <= b by {
      ScaleMonotone(s, t, n as real);
    }
    TruncateMonotone(a, b);
  }

  lemma ScaledCount(n: int, s: real, t: real)
    requires 0 <= n && 0.0 <= s <= t <= 1.0
    ensures 0 <= Portion(n, s) <= Portion(n, t) <= n
    ensures t == 1.0 ==> Portion(n, t) == n
  {
    PortionMonotone(n, s, t);
    FractionBounds(n, s);
    FractionBounds(n, t);
  }

  /** A scaled batch is the whole attempts of its share, and at least one. */
  lemma ScaledBatchIsItsShare(batch: int, scale: real)
    requires 1 <= batch && 0.50 <= scale <= 1.0
    ensures var b := ApplyBatchScale(batch, scale);
            b as real <= batch as real * scale < (b + 1) as real || (b == 1 && batch as real * scale < 1.0)
  {
    FractionBounds(batch, scale);
  }

  /** A positive batch stays between one attempt and its planned size. */
  lemma ScaledBatchBounds(batch: int, s1: real, s2: real)
    requires s1 <= s2
    ensures ApplyBatchScale(batch, s1) <= ApplyBatchScale(batch, s2)
    ensures 1 <= batch ==> 1 <= ApplyBatchScale(batch, s1) <= batch
    ensures 1 <= batch && s2 >= 1.0 ==> ApplyBatchScale(batch, s2) == batch
  {
    hide Portion;
    if 1 <= batch {
      ScaledCount(batch, ClampReal(s1, 0.50, 1.0), ClampReal(s2, 0.50, 1.0));
    }
  }
}
