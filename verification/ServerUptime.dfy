/**
  The server uptime tracker of monitoring/server_uptime.py, in whole seconds and UTC hours:
  probes become hour buckets of online and offline time, and outages.
 */
module ServerUptime {
  import opened Numbers

  const HOUR := 3600
  const DISPLAY_HOURS := 6

  datatype Bucket = Bucket(onlineS: int, offlineS: int)

  datatype Outage = Outage(startTs: int, endTs: int, durationS: int, duringXuniWindow: bool)

  type Hourly = map<int, Bucket>

  datatype Tracker = Tracker(
    hourly: Hourly, outages: seq<Outage>,
    lastOk: Option<bool>, lastProbeAt: Option<int>, outageStart: Option<int>)

  const UNTRACKED := Tracker(map[], [], None, None, None)

  datatype Probe = Probe(ok: bool, ts: int)

  // ---------------------------------------------------------- specification

  function HourOf(ts: int): int {
    ts / HOUR
  }

  function BucketAt(hourly: Hourly, hour: int): Bucket {
    if hour in hourly then hourly[hour] else Bucket(0, 0)
  }

  function Credit(bucket: Bucket, online: bool, seconds: int): Bucket {
    if online then bucket.(onlineS := bucket.onlineS + seconds) else bucket.(offlineS := bucket.offlineS + seconds)
  }

  /** Cut an interval at the hours and credit each piece to its bucket. */
  function AddDuration(hourly: Hourly, startTs: int, endTs: int, online: bool): Hourly
    decreases Max(0, endTs - startTs)
  {
    if endTs <= startTs then hourly
    else
      var hour := HourOf(startTs);
      var chunkEnd := Min(endTs, (hour + 1) * HOUR);
      AddDuration(hourly[hour := Credit(BucketAt(hourly, hour), online, chunkEnd - startTs)], chunkEnd, endTs, online)
  }

  predicate InXuniWindow(ts: int) {
    var minute := ts / 60 % 60;
    minute >= 56 || minute < 5
  }

  predicate MeetsXuniWindow(startTs: int, endTs: int) {
    exists ts :: startTs <= ts <= endTs && InXuniWindow(ts)
  }

  ghost function CloseOutage(outages: seq<Outage>, startTs: int, ts: int): seq<Outage> {
    if ts > startTs then outages + [Outage(startTs, ts, ts - startTs, MeetsXuniWindow(startTs, ts))] else outages
  }

  ghost function RecordProbe(t: Tracker, ok: bool, now: int): Tracker {
    var hourly := if t.lastProbeAt.Some? && t.lastOk.Some?
                  then AddDuration(t.hourly, t.lastProbeAt.value, now, t.lastOk.value) else t.hourly;
    var opens := !ok && (t.lastOk.None? || t.lastOk.value);
    var closes := ok && t.lastOk == Some(false);
    Tracker(
      hourly,
      if closes && t.outageStart.Some? then CloseOutage(t.outages, t.outageStart.value, now) else t.outages,
      Some(ok), Some(now),
      if opens then Some(now) else if closes then None else t.outageStart)
  }

  ghost function Run(probes: seq<Probe>): Tracker {
    if probes == [] then UNTRACKED
    else RecordProbe(Run(probes[..|probes| - 1]), probes[|probes| - 1].ok, probes[|probes| - 1].ts)
  }

  function Projected(t: Tracker, now: int): Hourly {
    if t.lastProbeAt.None? || t.lastOk.None? || now <= t.lastProbeAt.value then t.hourly
    else AddDuration(t.hourly, t.lastProbeAt.value, now, t.lastOk.value)
  }

  // ------------------------------------------------------- measure of intervals

  /** Seconds of [a, b] that fall in [lo, hi]. */
  function Common(a: int, b: int, lo: int, hi: int): int {
    Max(0, Min(b, hi) - Max(a, lo))
  }

  function InHour(a: int, b: int, hour: int): int {
    Common(a, b, hour * HOUR, (hour + 1) * HOUR)
  }

  lemma {:induction false} AddDurationIsExact(hourly: Hourly, a: int, b: int, online: bool, hour: int)
    ensures BucketAt(AddDuration(hourly, a, b, online), hour)
         == Credit(BucketAt(hourly, hour), online, InHour(a, b, hour))
    decreases Max(0, b - a)
  {
    if b <= a {
    } else {
      var first := HourOf(a);
      var chunkEnd := Min(b, (first + 1) * HOUR);
      AddDurationIsExact(hourly[first := Credit(BucketAt(hourly, first), online, chunkEnd - a)], chunkEnd, b, online, hour);
    }
  }

  function SumOffline(hourly: Hourly, lo: int, hi: int): int
    decreases Max(0, hi - lo)
  {
    if hi <= lo then 0 else SumOffline(hourly, lo, hi - 1) + BucketAt(hourly, hi - 1).offlineS
  }

  /** Outage seconds, closed and open, inside [lo, hi]. */
  function OutageTime(outages: seq<Outage>, lo: int, hi: int): int {
    if outages == [] then 0
    else OutageTime(outages[..|outages| - 1], lo, hi)
         + Common(outages[|outages| - 1].startTs, outages[|outages| - 1].endTs, lo, hi)
  }

  function OpenTime(t: Tracker, until: int, lo: int, hi: int): int {
    if t.outageStart.Some? then Common(t.outageStart.value, until, lo, hi) else 0
  }

  function TotalDuration(outages: seq<Outage>): int {
    if outages == [] then 0
    else TotalDuration(outages[..|outages| - 1]) + outages[|outages| - 1].durationS
  }

  // ------------------------------------------------------------- run invariant

  predicate NonDecreasing(probes: seq<Probe>) {
    forall i, j :: 0 <= i <= j < |probes| ==> probes[i].ts <= probes[j].ts
  }

  predicate Ordered(outages: seq<Outage>, from: int, until: int) {
    && (forall i :: 0 <= i < |outages| ==>
          from <= outages[i].startTs < outages[i].endTs <= until
          && outages[i].durationS == outages[i].endTs - outages[i].startTs)
    && (forall i, j :: 0 <= i < j < |outages| ==> outages[i].endTs <= outages[j].startTs)
  }

  /** What every run from `first` to `last` keeps. */
  ghost predicate Consistent(t: Tracker, first: int, last: int) {
    && first <= last
    && t.lastOk.Some? && t.lastProbeAt == Some(last)
    && (t.outageStart.Some? <==> t.lastOk == Some(false))
    && (t.outageStart.Some? ==> first <= t.outageStart.value <= last)
    && Ordered(t.outages, first, if t.outageStart.Some? then t.outageStart.value else last)
    && (forall hour :: BucketAt(t.hourly, hour).onlineS + BucketAt(t.hourly, hour).offlineS == InHour(first, last, hour))
    && (forall hour :: BucketAt(t.hourly, hour).offlineS
                    == OutageTime(t.outages, hour * HOUR, (hour + 1) * HOUR)
                       + OpenTime(t, last, hour * HOUR, (hour + 1) * HOUR))
    && (forall i :: 0 <= i < |t.outages| ==>
          t.outages[i].duringXuniWindow == MeetsXuniWindow(t.outages[i].startTs, t.outages[i].endTs))
  }

  lemma OutageTimeOfClose(outages: seq<Outage>, startTs: int, ts: int, lo: int, hi: int)
    requires startTs <= ts
    ensures OutageTime(CloseOutage(outages, startTs, ts), lo, hi) == OutageTime(outages, lo, hi) + Common(startTs, ts, lo, hi)
  {
    var closed := CloseOutage(outages, startTs, ts);
    if ts > startTs {
      assert closed[..|closed| - 1] == outages;
    }
  }

  lemma FirstProbeIsConsistent(ok: bool, now: int)
    ensures Consistent(RecordProbe(UNTRACKED, ok, now), now, now)
  {
  }

  lemma ProbeKeepsBuckets(t: Tracker, first: int, last: int, ok: bool, now: int, hour: int)
    requires Consistent(t, first, last) && last <= now
    ensures var after := RecordProbe(t, ok, now);
            && BucketAt(after.hourly, hour).onlineS + BucketAt(after.hourly, hour).offlineS == InHour(first, now, hour)
            && BucketAt(after.hourly, hour).offlineS
               == OutageTime(after.outages, hour * HOUR, (hour + 1) * HOUR)
                  + OpenTime(after, now, hour * HOUR, (hour + 1) * HOUR)
  {
    hide AddDuration, CloseOutage, OutageTime;
    AddDurationIsExact(t.hourly, last, now, t.lastOk.value, hour);
    if t.outageStart.Some? && ok {
      OutageTimeOfClose(t.outages, t.outageStart.value, now, hour * HOUR, (hour + 1) * HOUR);
    }
  }

  lemma ProbeKeepsOutages(t: Tracker, first: int, last: int, ok: bool, now: int)
    requires Consistent(t, first, last) && last <= now
    ensures var after := RecordProbe(t, ok, now);
            && after.lastOk == Some(ok) && after.lastProbeAt == Some(now)
            && (after.outageStart.Some? <==> !ok)
            && (after.outageStart.Some? ==> first <= after.outageStart.value <= now)
            && Ordered(after.outages, first, if after.outageStart.Some? then after.outageStart.value else now)
            && (forall i :: 0 <= i < |after.outages| ==>
                  after.outages[i].duringXuniWindow == MeetsXuniWindow(after.outages[i].startTs, after.outages[i].endTs))
  {
    hide AddDuration, BucketAt, OutageTime, InHour, OpenTime, MeetsXuniWindow;
  }

  lemma ProbeKeepsConsistent(t: Tracker, first: int, last: int, ok: bool, now: int)
    requires Consistent(t, first, last) && last <= now
    ensures Consistent(RecordProbe(t, ok, now), first, now)
  {
    hide RecordProbe, BucketAt, OutageTime, InHour, OpenTime, MeetsXuniWindow, Ordered;
    ProbeKeepsOutages(t, first, last, ok, now);
    forall hour
      ensures var b := BucketAt(RecordProbe(t, ok, now).hourly, hour);
              b.onlineS + b.offlineS == InHour(first, now, hour)
      ensures BucketAt(RecordProbe(t, ok, now).hourly, hour).offlineS
           == OutageTime(RecordProbe(t, ok, now).outages, hour * HOUR, (hour + 1) * HOUR)
              + OpenTime(RecordProbe(t, ok, now), now, hour * HOUR, (hour + 1) * HOUR)
    {
      ProbeKeepsBuckets(t, first, last, ok, now, hour);
    }
  }

  /** Every run of non-decreasing probes stays consistent. */
  lemma {:induction false} RunsAreConsistent(probes: seq<Probe>)
    requires probes != [] && NonDecreasing(probes)
    ensures Consistent(Run(probes), probes[0].ts, probes[|probes| - 1].ts)
  {
    hide Consistent, RecordProbe;
    var n := |probes| - 1;
    if n == 0 {
      assert Run(probes[..0]) == UNTRACKED;
      FirstProbeIsConsistent(probes[0].ok, probes[0].ts);
    } else {
      RunsAreConsistent(probes[..n]);
      ProbeKeepsConsistent(Run(probes[..n]), probes[0].ts, probes[n - 1].ts, probes[n].ok, probes[n].ts);
    }
  }

  // ------------------------------------------------------------- main results

  /** Each bucket holds exactly the tracked seconds of its hour, so never more than 3600. */
  lemma BucketsAreExact(probes: seq<Probe>, hour: int)
    requires probes != [] && NonDecreasing(probes)
    ensures var b := BucketAt(Run(probes).hourly, hour);
            && b.onlineS + b.offlineS == InHour(probes[0].ts, probes[|probes| - 1].ts, hour)
            && b.onlineS + b.offlineS <= HOUR
  {
    RunsAreConsistent(probes);
  }

  /** Closed outages are disjoint and in order, and one is open exactly when the last probe failed. */
  lemma OutagesAreOrdered(probes: seq<Probe>)
    requires probes != [] && NonDecreasing(probes)
    ensures var t := Run(probes);
            && (forall i, j :: 0 <= i < j < |t.outages| ==> t.outages[i].endTs <= t.outages[j].startTs)
            && (forall i :: 0 <= i < |t.outages| ==> t.outages[i].startTs < t.outages[i].endTs)
            && (t.outageStart.Some? <==> !probes[|probes| - 1].ok)
            && (t.outageStart.Some? ==> forall i :: 0 <= i < |t.outages| ==> t.outages[i].endTs <= t.outageStart.value)
  {
    RunsAreConsistent(probes);
  }

  lemma {:induction false} OutageTimeSplits(outages: seq<Outage>, lo: int, mid: int, hi: int)
    requires lo <= mid <= hi
    ensures OutageTime(outages, lo, hi) == OutageTime(outages, lo, mid) + OutageTime(outages, mid, hi)
    ensures OutageTime(outages, lo, lo) == 0
  {
    if outages == [] {
    } else {
      OutageTimeSplits(outages[..|outages| - 1], lo, mid, hi);
    }
  }

  /** The offline seconds of any run of whole hours are the outage seconds of that stretch of time. */
  lemma {:induction false} OfflineHoursAreOutageTime(t: Tracker, first: int, last: int, lo: int, hi: int)
    requires Consistent(t, first, last) && lo <= hi
    ensures SumOffline(t.hourly, lo, hi)
         == OutageTime(t.outages, lo * HOUR, hi * HOUR) + OpenTime(t, last, lo * HOUR, hi * HOUR)
    decreases hi - lo
  {
    if lo < hi {
      OfflineHoursAreOutageTime(t, first, last, lo, hi - 1);
      OutageTimeSplits(t.outages, lo * HOUR, (hi - 1) * HOUR, hi * HOUR);
    } else {
      OutageTimeSplits(t.outages, lo * HOUR, lo * HOUR, lo * HOUR);
    }
  }

  lemma {:induction false} OutageTimeOfAll(outages: seq<Outage>, from: int, until: int, lo: int, hi: int)
    requires Ordered(outages, from, until) && lo <= from && until <= hi
    ensures OutageTime(outages, lo, hi) == TotalDuration(outages)
  {
    if outages == [] {
    } else {
      OutageTimeOfAll(outages[..|outages| - 1], from, until, lo, hi);
    }
  }

  /** All offline seconds: the closed outages' durations plus the open outage up to the last probe. */
  lemma TotalOfflineIsOutageDuration(probes: seq<Probe>, lo: int, hi: int)
    requires probes != [] && NonDecreasing(probes)
    requires lo <= HourOf(probes[0].ts) && HourOf(probes[|probes| - 1].ts) < hi
    ensures var t := Run(probes);
            SumOffline(t.hourly, lo, hi)
            == TotalDuration(t.outages)
               + (if t.outageStart.Some? then probes[|probes| - 1].ts - t.outageStart.value else 0)
  {
    var t, first, last := Run(probes), probes[0].ts, probes[|probes| - 1].ts;
    RunsAreConsistent(probes);
    OfflineHoursAreOutageTime(t, first, last, lo, hi);
    OutageTimeOfAll(t.outages, first, if t.outageStart.Some? then t.outageStart.value else last, lo * HOUR, hi * HOUR);
  }

  /** The live projection is what a probe at that moment would record, whatever it finds. */
  lemma ProjectionIsTheNextProbe(t: Tracker, now: int, ok: bool)
    ensures Projected(t, now) == RecordProbe(t, ok, now).hourly
  {
  }

  /** The 24-hour summary: outage seconds since the clock hour 23 hours ago, the open outage counted up to now. */
  lemma SummaryIsOutageTime(probes: seq<Probe>, now: int)
    requires probes != [] && NonDecreasing(probes) && probes[|probes| - 1].ts <= now
    ensures var t := Run(probes);
            var since := (HourOf(now) - 23) * HOUR;
            SumOffline(Projected(t, now), HourOf(now) - 23, HourOf(now) + 1)
            == OutageTime(t.outages, since, now) + OpenTime(t, now, since, now)
  {
    hide Consistent, RecordProbe, Projected;
    var t, first, last := Run(probes), probes[0].ts, probes[|probes| - 1].ts;
    RunsAreConsistent(probes);
    var after := NextSameProbe(t, first, last, now);
    var since, next := (HourOf(now) - 23) * HOUR, (HourOf(now) + 1) * HOUR;
    OfflineHoursAreOutageTime(after, first, now, HourOf(now) - 23, HourOf(now) + 1);
    OutageTimeSplits(after.outages, since, now, next);
    NothingAfterTheLastProbe(after.outages, now, next);
  }

  /** The tracker after one more probe that finds what the last one found. */
  lemma NextSameProbe(t: Tracker, first: int, last: int, now: int) returns (after: Tracker)
    requires Consistent(t, first, last) && last <= now
    ensures Consistent(after, first, now)
    ensures after.hourly == Projected(t, now) && after.outages == t.outages && after.outageStart == t.outageStart
    ensures forall i :: 0 <= i < |after.outages| ==> after.outages[i].endTs <= now
  {
    after := RecordProbe(t, t.lastOk.value, now);
    ProbeKeepsConsistent(t, first, last, t.lastOk.value, now);
    ProjectionIsTheNextProbe(t, now, t.lastOk.value);
  }

  lemma {:induction false} NothingAfterTheLastProbe(outages: seq<Outage>, until: int, hi: int)
    requires forall i :: 0 <= i < |outages| ==> outages[i].endTs <= until
    ensures OutageTime(outages, until, hi) == 0
  {
    if outages == [] {
    } else {
      NothingAfterTheLastProbe(outages[..|outages| - 1], until, hi);
    }
  }

  // ----------------------------------------------------------------- the class

  datatype HourRow = HourRow(hour: int, uptimePct: Option<real>, offlineS: int, outageCount: nat)

  datatype UptimeView = UptimeView(
    hours: seq<HourRow>, avgOutageS: Option<real>, outageCount: nat, xuniOutageCount: nat,
    currentOk: bool, currentOutageS: Option<int>, offline24hS: int)

  function OutagesIn(outages: seq<Outage>, hour: int): nat {
    if outages == [] then 0
    else OutagesIn(outages[..|outages| - 1], hour) + (if HourOf(outages[|outages| - 1].startTs) == hour then 1 else 0)
  }

  function XuniOutages(outages: seq<Outage>): nat {
    if outages == [] then 0
    else XuniOutages(outages[..|outages| - 1]) + (if outages[|outages| - 1].duringXuniWindow then 1 else 0)
  }

  /** The row of one hour: its offline time, the outages that began in it, its percentage when anything was measured. */
  predicate ShowsHour(row: HourRow, bucket: Bucket, outages: seq<Outage>, hour: int) {
    && row.hour == hour && row.offlineS == bucket.offlineS && row.outageCount == OutagesIn(outages, hour)
    && (row.uptimePct.Some? <==> bucket.onlineS + bucket.offlineS > 0)
    && (row.uptimePct.Some? ==>
          row.uptimePct.value * (bucket.onlineS + bucket.offlineS) as real == bucket.onlineS as real * 100.0)
  }

  /** The XUNI window is the four minutes before a full hour and the five after it. */
  lemma XuniWindowIsAroundTheHour(ts: int)
    ensures InXuniWindow(ts) <==> exists hour :: hour * HOUR - 240 <= ts < hour * HOUR + 300
  {
    MinuteOfTheHour(ts);
    hide InXuniWindow, HourOf;
    if InXuniWindow(ts) {
      assert HourOf(ts) * HOUR - 240 <= ts < HourOf(ts) * HOUR + 300
             || (HourOf(ts) + 1) * HOUR - 240 <= ts < (HourOf(ts) + 1) * HOUR + 300;
    }
    if hour :| hour * HOUR - 240 <= ts < hour * HOUR + 300 {
      assert hour == HourOf(ts) || hour == HourOf(ts) + 1;
    }
  }

  lemma MinuteOfTheHour(ts: int)
    ensures 0 <= ts - HourOf(ts) * HOUR < HOUR
    ensures InXuniWindow(ts) <==> ts - HourOf(ts) * HOUR < 300 || 3360 <= ts - HourOf(ts) * HOUR
  {
    var hour, minute := HourOf(ts), (ts - HourOf(ts) * HOUR) / 60;
    QuotientIs(ts, 60, hour * 60 + minute);
    QuotientIs(hour * 60 + minute, 60, hour);
  }

  lemma QuotientIs(a: int, c: int, q: int)
    requires 0 < c && q * c <= a < q * c + c
    ensures a / c == q
  {
    DivIsGreatest(a, c, q);
    DivIsGreatest(a, c, q + 1);
  }

  function BeganIn(outages: seq<Outage>, hour: int): set<nat> {
    set i | 0 <= i < |outages| && hour * HOUR <= outages[i].startTs < (hour + 1) * HOUR
  }

  function MetWindow(outages: seq<Outage>): set<nat> {
    set i | 0 <= i < |outages| && outages[i].duringXuniWindow
  }

  /** The row's count is the number of outages that began in its hour. */
  lemma {:induction false} HourCountExactly(outages: seq<Outage>, hour: int)
    ensures OutagesIn(outages, hour) == |BeganIn(outages, hour)|
  {
    if outages == [] {
    } else {
      var n := |outages| - 1;
      HourCountExactly(outages[..n], hour);
      if HourOf(outages[n].startTs) == hour {
        assert BeganIn(outages, hour) == BeganIn(outages[..n], hour) + {n};
      } else {
        assert BeganIn(outages, hour) == BeganIn(outages[..n], hour);
      }
    }
  }

  /** The window count is the number of outages that met the window. */
  lemma {:induction false} WindowCountExactly(outages: seq<Outage>)
    ensures XuniOutages(outages) == |MetWindow(outages)|
  {
    if outages == [] {
    } else {
      var n := |outages| - 1;
      WindowCountExactly(outages[..n]);
      if outages[n].duringXuniWindow {
        assert MetWindow(outages) == MetWindow(outages[..n]) + {n};
      } else {
        assert MetWindow(outages) == MetWindow(outages[..n]);
      }
    }
  }

  class ServerUptimeTracker {
    var hourly: Hourly
    var outages: seq<Outage>
    var lastOk: Option<bool>
    var lastProbeAt: Option<int>
    var outageStart: Option<int>

    function State(): Tracker
      reads this
    {
      Tracker(hourly, outages, lastOk, lastProbeAt, outageStart)
    }

    constructor ()
      ensures State() == UNTRACKED
    {
      hourly, outages, lastOk, lastProbeAt, outageStart := map[], [], None, None, None;
    }

    method AddInterval(startTs: int, endTs: int, online: bool)
      modifies this`hourly
      ensures hourly == AddDuration(old(hourly), startTs, endTs, online)
    {
      if endTs <= startTs {
        return;
      }
      var cursor := startTs;
      while cursor < endTs
        invariant startTs <= cursor <= endTs
        invariant AddDuration(hourly, cursor, endTs, online) == AddDuration(old(hourly), startTs, endTs, online)
      {
        var hour := HourOf(cursor);
        var chunkEnd := Min(endTs, (hour + 1) * HOUR);
        ghost var before := hourly;
        if hour !in hourly {
          hourly := hourly[hour := Bucket(0, 0)];
        }
        hourly := hourly[hour := Credit(hourly[hour], online, chunkEnd - cursor)];
        assert hourly == before[hour := Credit(BucketAt(before, hour), online, chunkEnd - cursor)];
        cursor := chunkEnd;
      }
    }

    /** Scan the outage minute by minute; the scan meets the window exactly when some instant of it does. */
    static method OutageOverlapsXuni(startTs: int, endTs: int) returns (r: bool)
      requires startTs <= endTs
      ensures r <==> MeetsXuniWindow(startTs, endTs)
    {
      var cursor := startTs / 60 * 60;
      while cursor <= endTs
        invariant cursor % 60 == 0 && startTs / 60 * 60 <= cursor
        invariant forall ts :: startTs <= ts <= endTs && ts < cursor ==> !InXuniWindow(ts)
        decreases endTs - cursor
      {
        if InXuniWindow(cursor) {
          assert InXuniWindow(Max(cursor, startTs));
          return true;
        }
        assert forall ts :: cursor <= ts < cursor + 60 ==> ts / 60 == cursor / 60;
        cursor := cursor + 60;
      }
      r := false;
    }

    method Close(ts: int)
      requires outageStart.Some?
      modifies this`outages, this`outageStart
      ensures outages == CloseOutage(old(outages), old(outageStart).value, ts) && outageStart == None
    {
      var startTs := outageStart.value;
      if ts > startTs {
        var xuni := OutageOverlapsXuni(startTs, ts);
        outages := outages + [Outage(startTs, ts, ts - startTs, xuni)];
      }
      outageStart := None;
    }

    method Record(ok: bool, now: int)
      modifies this
      ensures State() == RecordProbe(old(State()), ok, now)
    {
      if lastProbeAt.Some? && lastOk.Some? {
        AddInterval(lastProbeAt.value, now, lastOk.value);
      }
      if lastOk.None? {
        if !ok {
          outageStart := Some(now);
        }
      } else if lastOk.value && !ok {
        outageStart := Some(now);
      } else if !lastOk.value && ok {
        if outageStart.Some? {
          Close(now);
        }
      }
      lastOk := Some(ok);
      lastProbeAt := Some(now);
    }

    method ProjectHourly(now: int) returns (projected: Hourly)
      ensures projected == Projected(State(), now)
    {
      projected := hourly;
      if lastProbeAt.None? || lastOk.None? || now <= lastProbeAt.value {
        return;
      }
      var cursor := lastProbeAt.value;
      while cursor < now
        invariant lastProbeAt.value <= cursor <= now
        invariant AddDuration(projected, cursor, now, lastOk.value)
               == AddDuration(hourly, lastProbeAt.value, now, lastOk.value)
      {
        var hour := HourOf(cursor);
        var chunkEnd := Min(now, (hour + 1) * HOUR);
        projected := projected[hour := Credit(BucketAt(projected, hour), lastOk.value, chunkEnd - cursor)];
        cursor := chunkEnd;
      }
    }

    /** The summary a dashboard shows: newest hour first, and the offline seconds of the last 24 clock hours. */
    method View(now: int) returns (v: UptimeView)
      ensures v.offline24hS == SumOffline(Projected(State(), now), HourOf(now) - 23, HourOf(now) + 1)
      ensures |v.hours| == DISPLAY_HOURS
      ensures forall i :: 0 <= i < |v.hours| ==>
                ShowsHour(v.hours[i], BucketAt(Projected(State(), now), HourOf(now) - i), outages, HourOf(now) - i)
      ensures v.outageCount == |outages| && v.xuniOutageCount == XuniOutages(outages)
      ensures v.avgOutageS.Some? <==> outages != []
      ensures v.avgOutageS.Some? ==> v.avgOutageS.value * |outages| as real == TotalDuration(outages) as real
      ensures v.currentOk <==> lastOk.Some? && lastOk.value
      ensures v.currentOutageS
           == if v.currentOk then None
              else if outageStart.Some? then Some(Max(0, now - outageStart.value))
              else if lastProbeAt.Some? && lastOk.Some? then Some(Max(0, now - lastProbeAt.value))
              else None
    {
      var projected := ProjectHourly(now);
      var first := HourOf(now) - 23;
      var offline24h := 0;
      for offset := 0 to 24
        invariant offline24h == SumOffline(projected, first, first + offset)
      {
        offline24h := offline24h + BucketAt(projected, first + offset).offlineS;
      }
      var rows: seq<HourRow> := [];
      for offset := 0 to DISPLAY_HOURS
        invariant |rows| == offset
        invariant forall i :: 0 <= i < |rows| ==>
                    ShowsHour(rows[i], BucketAt(projected, HourOf(now) - i), outages, HourOf(now) - i)
      {
        var row := HourSummary(BucketAt(projected, HourOf(now) - offset), HourOf(now) - offset);
        rows := rows + [row];
      }
      var currentOk := lastOk.Some? && lastOk.value;
      var currentOutage := None;
      if !currentOk && outageStart.Some? {
        currentOutage := Some(Max(0, now - outageStart.value));
      } else if !currentOk && lastProbeAt.Some? && lastOk.Some? && !lastOk.value {
        currentOutage := Some(Max(0, now - lastProbeAt.value));
      }
      var average := if outages == [] then None else Some(TotalDuration(outages) as real / |outages| as real);
      v := UptimeView(rows, average, |outages|, XuniOutages(outages), currentOk, currentOutage, offline24h);
    }

    method HourSummary(bucket: Bucket, hour: int) returns (row: HourRow)
      ensures ShowsHour(row, bucket, outages, hour)
    {
      var total := bucket.onlineS + bucket.offlineS;
      var pct := if total > 0 then Some(bucket.onlineS as real / total as real * 100.0) else None;
      row := HourRow(hour, pct, bucket.offlineS, OutagesIn(outages, hour));
    }
  }
}
