/** When the tracker of ServerUptime may be trusted: what probes that go back in time do to the hour buckets. */
module UptimeClock {
  import opened Numbers
  import opened ServerUptime

  function Tracked(t: Tracker, hour: int): int {
    BucketAt(t.hourly, hour).onlineS + BucketAt(t.hourly, hour).offlineS
  }

  /** Each bucket holds what the first and the last probe enclose. */
  ghost predicate BucketsExact(probes: seq<Probe>)
    requires probes != []
  {
    forall hour :: Tracked(Run(probes), hour) == InHour(probes[0].ts, probes[|probes| - 1].ts, hour)
  }

  predicate NonIncreasing(probes: seq<Probe>) {
    forall i, j :: 0 <= i <= j < |probes| ==> probes[i].ts >= probes[j].ts
  }

  /** Seconds of [lo, hi] that the steps between probes cover, again and again if they come back. */
  function Covered(probes: seq<Probe>, lo: int, hi: int): int {
    if |probes| <= 1 then 0
    else Covered(probes[..|probes| - 1], lo, hi) + Common(probes[|probes| - 2].ts, probes[|probes| - 1].ts, lo, hi)
  }

  function Forward(probes: seq<Probe>): nat {
    if |probes| <= 1 then 0
    else Forward(probes[..|probes| - 1]) + Max(0, probes[|probes| - 1].ts - probes[|probes| - 2].ts)
  }

  function Backward(probes: seq<Probe>): nat {
    if |probes| <= 1 then 0
    else Backward(probes[..|probes| - 1]) + Max(0, probes[|probes| - 2].ts - probes[|probes| - 1].ts)
  }

  /** Over any run a bucket holds what the steps cover of its hour. */
  lemma {:induction false} TrackedIsCovered(probes: seq<Probe>, hour: int)
    requires probes != []
    ensures Run(probes).lastProbeAt == Some(probes[|probes| - 1].ts) && Run(probes).lastOk.Some?
    ensures Tracked(Run(probes), hour) == Covered(probes, hour * HOUR, (hour + 1) * HOUR)
  {
    var n := |probes| - 1;
    if n == 0 {
      assert Run(probes[..0]) == UNTRACKED;
    } else {
      hide AddDuration;
      TrackedIsCovered(probes[..n], hour);
      var t := Run(probes[..n]);
      AddDurationIsExact(t.hourly, probes[n - 1].ts, probes[n].ts, t.lastOk.value, hour);
    }
  }

  lemma {:induction false} CoveredSplits(probes: seq<Probe>, lo: int, mid: int, hi: int)
    requires lo <= mid <= hi
    ensures Covered(probes, lo, hi) == Covered(probes, lo, mid) + Covered(probes, mid, hi)
    ensures Covered(probes, lo, lo) == 0
  {
    if |probes| <= 1 {
    } else {
      CoveredSplits(probes[..|probes| - 1], lo, mid, hi);
    }
  }

  /** Exact buckets add up, over any hours, to what the first and the last probe enclose. */
  lemma {:induction false} ExactHoursAddUp(probes: seq<Probe>, lo: int, hi: int)
    requires probes != [] && BucketsExact(probes) && lo <= hi
    ensures Covered(probes, lo * HOUR, hi * HOUR)
         == Common(probes[0].ts, probes[|probes| - 1].ts, lo * HOUR, hi * HOUR)
    decreases hi - lo
  {
    if lo == hi {
      CoveredSplits(probes, lo * HOUR, lo * HOUR, lo * HOUR);
    } else {
      ExactHoursAddUp(probes, lo, hi - 1);
      TrackedIsCovered(probes, hi - 1);
      assert Tracked(Run(probes), hi - 1) == InHour(probes[0].ts, probes[|probes| - 1].ts, hi - 1);
      CoveredSplits(probes, lo * HOUR, (hi - 1) * HOUR, hi * HOUR);
    }
  }

  lemma {:induction false} AllCovered(probes: seq<Probe>, lo: int, hi: int)
    requires forall i :: 0 <= i < |probes| ==> lo <= probes[i].ts <= hi
    ensures Covered(probes, lo, hi) == Forward(probes)
  {
    if |probes| <= 1 {
    } else {
      AllCovered(probes[..|probes| - 1], lo, hi);
    }
  }

  lemma {:induction false} StepsAddUp(probes: seq<Probe>)
    requires probes != []
    ensures probes[|probes| - 1].ts - probes[0].ts == Forward(probes) - Backward(probes)
  {
    if |probes| == 1 {
    } else {
      StepsAddUp(probes[..|probes| - 1]);
    }
  }

  lemma {:induction false} NoBackwardStep(probes: seq<Probe>)
    ensures Backward(probes) == 0 <==> NonDecreasing(probes)
  {
    if |probes| <= 1 {
    } else {
      var n := |probes| - 1;
      NoBackwardStep(probes[..n]);
      assert NonDecreasing(probes) ==> probes[n - 1].ts <= probes[n].ts;
      if NonDecreasing(probes[..n]) && probes[n - 1].ts <= probes[n].ts {
        forall i | 0 <= i < n ensures probes[i].ts <= probes[n].ts {
          assert probes[..n][i].ts <= probes[..n][n - 1].ts;
        }
        forall i, j | 0 <= i <= j < n ensures probes[i].ts <= probes[j].ts {
          assert probes[..n][i].ts <= probes[..n][j].ts;
        }
      }
    }
  }

  lemma {:induction false} NoForwardStep(probes: seq<Probe>)
    ensures Forward(probes) == 0 <==> NonIncreasing(probes)
  {
    if |probes| <= 1 {
    } else {
      var n := |probes| - 1;
      NoForwardStep(probes[..n]);
      assert NonIncreasing(probes) ==> probes[n - 1].ts >= probes[n].ts;
      if NonIncreasing(probes[..n]) && probes[n - 1].ts >= probes[n].ts {
        forall i | 0 <= i < n ensures probes[i].ts >= probes[n].ts {
          assert probes[..n][i].ts >= probes[..n][n - 1].ts;
        }
        forall i, j | 0 <= i <= j < n ensures probes[i].ts >= probes[j].ts {
          assert probes[..n][i].ts >= probes[..n][j].ts;
        }
      }
    }
  }

  lemma {:induction false} HoursAround(probes: seq<Probe>) returns (lo: int, hi: int)
    ensures lo <= hi
    ensures forall i :: 0 <= i < |probes| ==> lo * HOUR <= probes[i].ts <= hi * HOUR
  {
    if probes == [] {
      lo, hi := 0, 0;
    } else {
      var ts := probes[|probes| - 1].ts;
      lo, hi := HoursAround(probes[..|probes| - 1]);
      lo, hi := Min(lo, HourOf(ts)), Max(hi, HourOf(ts) + 1);
    }
  }

  lemma NothingCovered(probes: seq<Probe>, hour: int)
    requires NonIncreasing(probes)
    ensures Covered(probes, hour * HOUR, (hour + 1) * HOUR) == 0
  {
    if |probes| <= 1 {
    } else {
      NothingCovered(probes[..|probes| - 1], hour);
      assert probes[|probes| - 2].ts >= probes[|probes| - 1].ts;
    }
  }

  /**
    The buckets are exact for just the runs whose clock never turns round: probe times that never fall, or
    never rise.
   */
  lemma BucketsAreExactIff(probes: seq<Probe>)
    requires probes != []
    ensures BucketsExact(probes) <==> NonDecreasing(probes) || NonIncreasing(probes)
  {
    var first, last := probes[0].ts, probes[|probes| - 1].ts;
    if NonDecreasing(probes) {
      RunsAreConsistent(probes);
    } else if NonIncreasing(probes) {
      forall hour ensures Tracked(Run(probes), hour) == InHour(first, last, hour) {
        TrackedIsCovered(probes, hour);
        NothingCovered(probes, hour);
        assert last <= first;
      }
    } else if BucketsExact(probes) {
      var lo, hi := HoursAround(probes);
      ExactHoursAddUp(probes, lo, hi);
      AllCovered(probes, lo * HOUR, hi * HOUR);
      StepsAddUp(probes);
      NoBackwardStep(probes);
      NoForwardStep(probes);
      assert false;
    }
  }

  lemma OnlineProbeCredits(probes: seq<Probe>, last: int, now: int, hour: int)
    requires Run(probes).lastOk == Some(true) && Run(probes).lastProbeAt == Some(last)
    ensures var after := Run(probes + [Probe(true, now)]);
            && after.lastOk == Some(true) && after.lastProbeAt == Some(now)
            && BucketAt(after.hourly, hour).onlineS == BucketAt(Run(probes).hourly, hour).onlineS + InHour(last, now, hour)
  {
    assert (probes + [Probe(true, now)])[..|probes|] == probes;
    AddDurationIsExact(Run(probes).hourly, last, now, true, hour);
  }

  /** A witness: an hour that the clock revisits is counted twice. */
  lemma BackwardClockOverfillsAnHour(hour: int)
    ensures var start, end := hour * HOUR, (hour + 1) * HOUR;
            BucketAt(Run([Probe(true, start)] + [Probe(true, end)] + [Probe(true, start)] + [Probe(true, end)]).hourly,
                     hour).onlineS == 2 * HOUR
  {
    var start, end := hour * HOUR, (hour + 1) * HOUR;
    var one := [Probe(true, start)];
    assert one[..0] == [];
    assert Run(one) == RecordProbe(UNTRACKED, true, start);
    hide Run, RecordProbe;
    OnlineProbeCredits(one, start, end, hour);
    OnlineProbeCredits(one + [Probe(true, end)], end, start, hour);
    OnlineProbeCredits(one + [Probe(true, end)] + [Probe(true, start)], start, end, hour);
  }
}
