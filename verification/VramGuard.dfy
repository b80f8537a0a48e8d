/** Die and board temperature limits of efficiency/vram_guard.py, and the guard's verdict. */
module VramGuard {
  import opened Numbers
  import opened ThermalPolicy

  datatype Level = Ok | Warn | Emergency

  datatype TempLimits = TempLimits(dieWarnC: int, dieMaxC: int, boardWarnC: int, boardMaxC: int)

  datatype Readings = Readings(dieC: int, boardC: int, hotspotC: int)

  /** The context that turns a missing board sensor into a heat estimate. */
  datatype HighDiff = HighDiff(
    difficulty: int, referenceDifficulty: int, enabled: bool,
    startRatio: real, fullRatio: real, maxTightenC: int)

  datatype DualTempEval = DualTempEval(
    level: Level, effDieC: int, effBoardC: int,
    batchScale: real, laneCapFromTemp: Option<int>, abort: bool)

  function NormLimit(warn: int, hard: int): (r: (int, int))
    ensures 1 <= r.1 && 1 <= r.0
    ensures hard >= 2 ==> r.1 == hard && r.0 < r.1
  {
    var hard' := Max(1, hard);
    var warn' := if hard' > 1 then Min(warn, hard' - 1) else warn;
    (Max(1, warn'), hard')
  }

  function EffectiveDieC(r: Readings): int {
    if r.dieC > 0 then r.dieC else Max(0, r.hotspotC)
  }

  function EffectiveBoardC(r: Readings, hd: HighDiff): int {
    var base := Max(Max(0, r.dieC), Max(0, r.hotspotC));
    if r.boardC > 0 then r.boardC
    else if hd.enabled && base > 0 && hd.difficulty > 0
    then EffectiveControlTempC(base, hd.difficulty, hd.referenceDifficulty, hd.startRatio, hd.fullRatio, hd.maxTightenC)
    else base
  }

  function SensorScale(temp: int, limit: (int, int), minScale: real): real {
    if temp > 0 then ThermalBatchScale(temp, limit.0, limit.1, minScale, 5) else 1.0
  }

  function SensorLanes(temp: int, limit: (int, int), planned: int, minLanes: int): int {
    if temp > 0 && planned > 1 then ThermalLaneCap(planned, temp, limit.0, limit.1, minLanes, 8, 3) else planned
  }

  function EvaluateDieBoardTemps(
    r: Readings, limits: TempLimits, plannedLanes: int, minLanes: int, batchMinScale: real, hd: HighDiff): DualTempEval
  {
    var die := NormLimit(limits.dieWarnC, limits.dieMaxC);
    var board := NormLimit(limits.boardWarnC, limits.boardMaxC);
    var effDie := EffectiveDieC(r);
    var effBoard := EffectiveBoardC(r, hd);
    var scale := MinReal(SensorScale(effDie, die, batchMinScale), SensorScale(effBoard, board, batchMinScale));
    var cap := Min(SensorLanes(effDie, die, plannedLanes, minLanes), SensorLanes(effBoard, board, plannedLanes, minLanes));
    var abort := (effDie > 0 && effDie >= die.1) || (effBoard > 0 && effBoard >= board.1);
    var warn := (effDie > 0 && effDie >= die.0) || (effBoard > 0 && effBoard >= board.0);
    DualTempEval(
      if abort then Emergency else if warn then Warn else Ok,
      effDie, effBoard, scale, if plannedLanes > 1 then Some(cap) else None, abort)
  }

  /** A reading at its limit derates the batch to the floor exactly when the limit is at least two, or the reading is. */
  lemma LimitReachesFloor(temp: int, warn: int, hard: int, minScale: real)
    requires 0 < temp && NormLimit(warn, hard).1 <= temp
    requires ClampReal(minScale, 0.50, 1.0) < 1.0
    ensures SensorScale(temp, NormLimit(warn, hard), minScale) == ClampReal(minScale, 0.50, 1.0)
            <==> hard >= 2 || temp > NormLimit(warn, hard).0
  {
    var limit := NormLimit(warn, hard);
    var floor := ClampReal(minScale, 0.50, 1.0);
    if hard < 2 && temp <= limit.0 {
      var end := Max(limit.0 + 1, limit.1);
      assert temp < end;
      var t := (temp - (limit.0 - 5)) as real / (end - (limit.0 - 5)) as real;
      if limit.0 - 5 < temp {
        assert t < 1.0;
        ShortOfFloor(t, floor);
      }
    }
  }

  lemma PositiveProduct(a: real, b: real)
    requires 0.0 < a && 0.0 < b
    ensures 0.0 < a * b
  {
  }

  lemma ShortOfFloor(t: real, floor: real)
    requires t < 1.0 && floor < 1.0
    ensures ScaleAt(t, floor) > floor
  {
    PositiveProduct(1.0 - t, 1.0 - floor);
    var depth := 1.0 - floor;
    assert (1.0 - t) * depth == depth - t * depth;
    assert 1.0 - t * depth > floor;
    assert ScaleAt(t, floor) == ClampReal(1.0 - t * depth, floor, 1.0);
  }

  lemma SensorBounds(temp: int, limit: (int, int), planned: int, minLanes: int, minScale: real)
    requires 1 < planned
    ensures ClampReal(minScale, 0.50, 1.0) <= SensorScale(temp, limit, minScale) <= 1.0
    ensures Clamp(minLanes, 1, planned) <= SensorLanes(temp, limit, planned, minLanes) <= planned
  {
    if temp > 0 {
      BatchScaleFallsWithHeat(temp, temp, limit.0, limit.1, minScale, 5);
      ThermalLanesFallWithHeat(planned, temp, temp, limit.0, limit.1, minLanes, 8, 3);
    }
  }

  /** A temperature abort leaves nothing to derate: the batch is at its floor, many lanes at their minimum. */
  lemma AbortDeratesFully(r: Readings, limits: TempLimits, planned: int, minLanes: int, minScale: real, hd: HighDiff)
    requires 2 <= limits.dieMaxC && 2 <= limits.boardMaxC && 1 < planned
    ensures var e := EvaluateDieBoardTemps(r, limits, planned, minLanes, minScale, hd);
            && (e.abort ==> e.batchScale == ClampReal(minScale, 0.50, 1.0)
                            && e.laneCapFromTemp == Some(Clamp(minLanes, 1, planned)))
            && (e.abort <==> e.level == Emergency)
            && ClampReal(minScale, 0.50, 1.0) <= e.batchScale <= 1.0
  {
    var die := NormLimit(limits.dieWarnC, limits.dieMaxC);
    var board := NormLimit(limits.boardWarnC, limits.boardMaxC);
    SensorBounds(EffectiveDieC(r), die, planned, minLanes, minScale);
    SensorBounds(EffectiveBoardC(r, hd), board, planned, minLanes, minScale);
  }

  /** The die's temperature, or the hotspot's while the die gives none. */
  function DieReading(r: Readings): int {
    if r.dieC > 0 then r.dieC else if r.hotspotC > 0 then r.hotspotC else 0
  }

  /** The hotter of die and hotspot, raised by the heat proxy of a hard network when that is on. */
  function BoardGuess(r: Readings, hd: HighDiff): int {
    var hotter := Max(0, Max(r.dieC, r.hotspotC));
    if hotter == 0 || !hd.enabled || hd.difficulty <= 0 then hotter
    else hotter + HighDiffTempTightenC(hd.difficulty, hd.referenceDifficulty, hd.startRatio, hd.fullRatio, hd.maxTightenC)
  }

  /** Some sensor reads `dieLimit` or `boardLimit`; a board without a sensor is judged by its guess. */
  predicate SomeReadingAt(r: Readings, hd: HighDiff, dieLimit: int, boardLimit: int) {
    || DieReading(r) >= dieLimit
    || (if r.boardC > 0 then r.boardC else BoardGuess(r, hd)) >= boardLimit
  }

  /** Limits of at least 2: an abort and a warning, from the readings and the limits as given. */
  lemma AbortAndWarnExactly(r: Readings, limits: TempLimits, planned: int, minLanes: int, minScale: real, hd: HighDiff)
    requires 2 <= limits.dieMaxC && 2 <= limits.boardMaxC
    requires 1 <= limits.dieWarnC < limits.dieMaxC && 1 <= limits.boardWarnC < limits.boardMaxC
    ensures var e := EvaluateDieBoardTemps(r, limits, planned, minLanes, minScale, hd);
            && (e.abort <==> SomeReadingAt(r, hd, limits.dieMaxC, limits.boardMaxC))
            && (e.level == Emergency <==> e.abort)
            && (e.level == Ok <==> !SomeReadingAt(r, hd, limits.dieWarnC, limits.boardWarnC))
            && e.effDieC == DieReading(r) && e.effBoardC == (if r.boardC > 0 then r.boardC else BoardGuess(r, hd))
  {
    hide HighDiffTempTightenC, ThermalBatchScale, ThermalLaneCap;
  }

  /** Each sensor that reads derates on its own ramp; the harder derate of the two counts. */
  lemma DeratesByTheHotterSensor(
    r: Readings, limits: TempLimits, planned: int, minLanes: int, minScale: real, hd: HighDiff, board: int)
    requires 2 <= limits.dieMaxC && 2 <= limits.boardMaxC && 1 < planned
    requires 1 <= limits.dieWarnC < limits.dieMaxC && 1 <= limits.boardWarnC < limits.boardMaxC
    requires board == if r.boardC > 0 then r.boardC else BoardGuess(r, hd)
    ensures var e := EvaluateDieBoardTemps(r, limits, planned, minLanes, minScale, hd);
            && (0 < DieReading(r) && 0 < board ==>
                  && e.batchScale == MinReal(
                       ThermalBatchScale(DieReading(r), limits.dieWarnC, limits.dieMaxC, minScale, 5),
                       ThermalBatchScale(board, limits.boardWarnC, limits.boardMaxC, minScale, 5))
                  && e.laneCapFromTemp == Some(Min(
                       ThermalLaneCap(planned, DieReading(r), limits.dieWarnC, limits.dieMaxC, minLanes, 8, 3),
                       ThermalLaneCap(planned, board, limits.boardWarnC, limits.boardMaxC, minLanes, 8, 3))))
            && (DieReading(r) == 0 && board == 0 ==> e.batchScale == 1.0 && e.laneCapFromTemp == Some(planned))
  {
    hide HighDiffTempTightenC, ThermalBatchScale, ThermalLaneCap;
  }

  lemma HarderIsHotter(r: Readings, c1: HighDiff, c2: HighDiff)
    requires c1 == c2.(difficulty := c1.difficulty) && c1.difficulty <= c2.difficulty
    ensures 0 <= EffectiveBoardC(r, c1) <= EffectiveBoardC(r, c2)
    ensures EffectiveBoardC(r, c1) == 0 <==> EffectiveBoardC(r, c2) == 0
  {
    if c2.difficulty > 0 {
      TightenRisesWithDifficulty(c2.difficulty, c2.difficulty, c2.referenceDifficulty, c2.startRatio, c2.fullRatio, c2.maxTightenC);
      if c1.difficulty > 0 {
        TightenRisesWithDifficulty(c1.difficulty, c1.difficulty, c1.referenceDifficulty, c1.startRatio, c1.fullRatio, c1.maxTightenC);
        TightenRisesWithDifficulty(c1.difficulty, c2.difficulty, c2.referenceDifficulty, c2.startRatio, c2.fullRatio, c2.maxTightenC);
      }
    }
  }

  /** A harder network alone never cools a reading: what stopped or warned still does, and nothing derates less. */
  lemma HarderNeverRelaxes(
    r: Readings, limits: TempLimits, planned: int, minLanes: int, minScale: real, c1: HighDiff, c2: HighDiff)
    requires c1 == c2.(difficulty := c1.difficulty) && c1.difficulty <= c2.difficulty
    ensures var e1 := EvaluateDieBoardTemps(r, limits, planned, minLanes, minScale, c1);
            var e2 := EvaluateDieBoardTemps(r, limits, planned, minLanes, minScale, c2);
            && (e1.abort ==> e2.abort) && (e2.level == Ok ==> e1.level == Ok)
            && e2.batchScale <= e1.batchScale
            && (e1.laneCapFromTemp.Some? <==> e2.laneCapFromTemp.Some?)
            && (e1.laneCapFromTemp.Some? ==> e2.laneCapFromTemp.value <= e1.laneCapFromTemp.value)
  {
    HarderIsHotter(r, c1, c2);
    var t1, t2 := EffectiveBoardC(r, c1), EffectiveBoardC(r, c2);
    var board := NormLimit(limits.boardWarnC, limits.boardMaxC);
    if t1 > 0 {
      BatchScaleFallsWithHeat(t1, t2, board.0, board.1, minScale, 5);
      ThermalLanesFallWithHeat(planned, t1, t2, board.0, board.1, minLanes, 8, 3);
    }
    hide ThermalBatchScale, ThermalLaneCap, EffectiveBoardC, NormLimit;
  }

  // ----------------------------------------------------------------- guard

  datatype Snapshot = Snapshot(totalMib: int, usedMib: int, readings: Readings)
  {
    function HeadroomMib(): int { totalMib - usedMib }
  }

  datatype Verdict = AllClear | DesktopVramLow | TempWarn | TempEmergency | HeadroomCritical | VramEmergency
  {
    predicate StopsGpu() {
      TempEmergency? || HeadroomCritical? || VramEmergency?
    }
  }

  /** The guard's limits, with the difficulty context it is told about between evaluations. */
  class Guard {
    const desktopHeadroomMib: int
    const emergencyVramMib: int
    const minHeadroomMib: int
    const limits: TempLimits
    var context: HighDiff

    ghost predicate Valid()
      reads this
    {
      && limits.boardWarnC < limits.boardMaxC
      && (limits.dieMaxC > 1 ==> limits.dieWarnC < limits.dieMaxC)
      && 0 <= context.difficulty && 1 <= context.referenceDifficulty
    }

    /** Board limits that are not given follow from the die's: at least 90 degrees, warning from 85. */
    constructor (desktopHeadroomMib: int, emergencyVramMib: int, minHeadroomMib: int,
                 maxTempC: int, warnTempC: int, maxBoardTempC: Option<int>, warnBoardTempC: Option<int>)
      ensures Valid()
      ensures this.desktopHeadroomMib == desktopHeadroomMib
      ensures this.emergencyVramMib == emergencyVramMib && this.minHeadroomMib == minHeadroomMib
      ensures limits.dieMaxC == maxTempC && (warnTempC < maxTempC ==> limits.dieWarnC == warnTempC)
      ensures limits.boardMaxC == if maxBoardTempC.Some? then maxBoardTempC.value else Max(90, maxTempC)
      ensures warnBoardTempC.Some? && warnBoardTempC.value < limits.boardMaxC ==> limits.boardWarnC == warnBoardTempC.value
      ensures warnBoardTempC.None? ==> limits.boardWarnC == Min(85, limits.boardMaxC - 1)
      ensures context == HighDiff(0, 1100, true, 1.5, 1.9, 12)
    {
      this.desktopHeadroomMib := desktopHeadroomMib;
      this.emergencyVramMib := emergencyVramMib;
      this.minHeadroomMib := minHeadroomMib;
      var boardMax := if maxBoardTempC.Some? then maxBoardTempC.value else Max(90, maxTempC);
      var boardWarn := if warnBoardTempC.Some? then warnBoardTempC.value else Min(85, boardMax - 1);
      this.limits := TempLimits(
        if maxTempC > 1 then Min(warnTempC, maxTempC - 1) else warnTempC, maxTempC,
        Min(boardWarn, boardMax - 1), boardMax);
      this.context := HighDiff(0, 1100, true, 1.5, 1.9, 12);
    }

    function Temps(readings: Readings): DualTempEval
      reads this`context
    {
      EvaluateDieBoardTemps(readings, limits, 1, 1, 0.60, context)
    }

    /** Told of nothing but a harder network, the guard goes on stopping and warning wherever it did. */
    method SetDifficultyContext(c: HighDiff)
      requires Valid()
      modifies this`context
      ensures Valid()
      ensures context == c.(difficulty := Max(0, c.difficulty), referenceDifficulty := Max(1, c.referenceDifficulty))
      ensures old(context).difficulty <= c.difficulty && c.(difficulty := old(context).difficulty) == old(context) ==>
                forall r :: (old(Temps(r)).abort ==> Temps(r).abort) && (Temps(r).level == Ok ==> old(Temps(r)).level == Ok)
    {
      ghost var before := context;
      context := c.(difficulty := Max(0, c.difficulty), referenceDifficulty := Max(1, c.referenceDifficulty));
      if before.difficulty <= c.difficulty && c.(difficulty := before.difficulty) == before {
        forall r ensures (EvaluateDieBoardTemps(r, limits, 1, 1, 0.60, before).abort ==> Temps(r).abort)
          && (Temps(r).level == Ok ==> EvaluateDieBoardTemps(r, limits, 1, 1, 0.60, before).level == Ok)
        {
          HarderNeverRelaxes(r, limits, 1, 1, 0.60, before, context);
        }
      }
    }

    /** Memory is judged before heat, and a stop before any warning; without metrics there is nothing to judge. */
    method Evaluate(snap: Option<Snapshot>) returns (v: Verdict)
      ensures snap.None? ==> v.AllClear?
      ensures snap.Some? ==>
                var (s, temps) := (snap.value, Temps(snap.value.readings));
                var full := s.usedMib >= Min(emergencyVramMib, Max(s.totalMib - 256, 0));
                var starved := s.HeadroomMib() <= minHeadroomMib;
                && (v.VramEmergency? <==> full)
                && (v.HeadroomCritical? <==> !full && starved)
                && (v.TempEmergency? <==> !full && !starved && temps.abort)
                && (v.TempWarn? <==> !v.StopsGpu() && temps.level == Warn)
                && (v.DesktopVramLow? <==> !v.StopsGpu() && temps.level == Ok && s.HeadroomMib() < desktopHeadroomMib)
                && (v.AllClear? ==> temps.level == Ok && s.HeadroomMib() >= desktopHeadroomMib)
    {
      if snap.None? {
        return AllClear;
      }
      var s := snap.value;
      if s.usedMib >= Min(emergencyVramMib, Max(s.totalMib - 256, 0)) {
        return VramEmergency;
      }
      if s.HeadroomMib() <= minHeadroomMib {
        return HeadroomCritical;
      }
      var temps := EvaluateDieBoardTemps(s.readings, limits, 1, 1, 0.60, context);
      if temps.level == Emergency {
        return TempEmergency;
      }
      if temps.level == Warn {
        return TempWarn;
      }
      if s.HeadroomMib() < desktopHeadroomMib {
        return DesktopVramLow;
      }
      return AllClear;
    }
  }
}
