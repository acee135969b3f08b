// The two concurrency sweeps of spark_bench/analysis.py: the greatest overlap
// and the duration-weighted occupancy of a trial.
module Sweeps {
  import opened Wrappers
  import opened Tilings
  import opened Intervals
  import opened Events
  import Sorting

  // The two timestamps of a job record; None stands for a missing or non-finite value.
  datatype JobTimes = JobTimes(start: Option<real>, finish: Option<real>)

  function Get(d: map<int, real>, k: int): real {
    if k in d then d[k] else 0.0
  }

  // Time at the levels below n, and the same weighed by level.
  function Total(d: map<int, real>, n: nat): real {
    if n == 0 then 0.0 else Total(d, n - 1) + Get(d, n - 1)
  }

  function Weighted(d: map<int, real>, n: nat): real {
    if n == 0 then 0.0 else Weighted(d, n - 1) + (n - 1) as real * Get(d, n - 1)
  }

  lemma {:induction false} TotalsGrow(d: map<int, real>, k: nat, s: real, n: nat)
    ensures Total(d[k := Get(d, k) + s], n) == Total(d, n) + (if k < n then s else 0.0)
    ensures Weighted(d[k := Get(d, k) + s], n) == Weighted(d, n) + (if k < n then k as real * s else 0.0)
  {
    if n > 0 {
      TotalsGrow(d, k, s, n - 1);
      if k == n - 1 {
        assert k as real * (Get(d, k) + s) == k as real * Get(d, k) + k as real * s;
      }
    }
  }

  // ---- the greatest overlap -------------------------------------------------

  // The interval _overlap counts for a job; a job that never finished runs to the trial's end.
  function Counted(job: JobTimes, trialEnd: Option<real>): Option<Interval> {
    if job.start.None? then None
    else
      var finish := if job.finish.None? then trialEnd else job.finish;
      if finish.Some? && finish.value > job.start.value then Some(Interval(job.start.value, finish.value)) else None
  }

  function CountedIntervals(jobs: seq<JobTimes>, trialEnd: Option<real>): (r: seq<Interval>)
    ensures AllProper(r)
  {
    if jobs == [] then []
    else
      var rest := CountedIntervals(jobs[..|jobs| - 1], trialEnd);
      var last := Counted(jobs[|jobs| - 1], trialEnd);
      if last.Some? then rest + [last.value] else rest
  }

  predicate Censored(job: JobTimes) {
    job.start.Some? && job.finish.None?
  }

  function CensoredCount(jobs: seq<JobTimes>): nat {
    if jobs == [] then 0
    else CensoredCount(jobs[..|jobs| - 1]) + (if Censored(jobs[|jobs| - 1]) then 1 else 0)
  }

  // Every change list the sweep builds consists of starts and finishes.
  ghost predicate UnitChanges(es: seq<Event>) {
    forall i :: 0 <= i < |es| ==> es[i].delta == 1 || es[i].delta == -1
  }

  ghost predicate IsMaximumDepth(jobs: seq<Interval>, m: int) {
    && (forall x :: Depth(jobs, x) <= m)
    && (exists x :: Depth(jobs, x) == m)
  }

  method Overlap(jobs: seq<JobTimes>, trialEnd: Option<real>) returns (maximum: int, censored: nat)
    ensures IsMaximumDepth(CountedIntervals(jobs, trialEnd), maximum)
    ensures censored == CensoredCount(jobs)
  {
    var events;
    events, censored := OverlapEvents(jobs, trialEnd);
    maximum := MaximumActive(events, CountedIntervals(jobs, trialEnd));
  }

  ghost predicate Counts(es: seq<Event>, jobs: seq<Interval>) {
    UnitChanges(es) && forall x :: UpTo(es, x) == Depth(jobs, x)
  }

  method OverlapEvents(jobs: seq<JobTimes>, trialEnd: Option<real>) returns (events: seq<Event>, censored: nat)
    ensures Counts(events, CountedIntervals(jobs, trialEnd))
    ensures censored == CensoredCount(jobs)
  {
    events := [];
    censored := 0;
    for i := 0 to |jobs|
      invariant censored == CensoredCount(jobs[..i])
      invariant Counts(events, CountedIntervals(jobs[..i], trialEnd))
    {
      assert jobs[..i + 1][..i] == jobs[..i];
      var job := jobs[i];
      if job.start.Some? {
        var end := job.finish;
        if end.None? {
          end := trialEnd;
          censored := censored + 1;
        }
        if end.Some? && end.value > job.start.value {
          AddInterval(events, CountedIntervals(jobs[..i], trialEnd), Interval(job.start.value, end.value));
          events := events + [Event(job.start.value, 1), Event(end.value, -1)];
        }
      }
    }
    assert jobs[..|jobs|] == jobs;
  }

  // Greatest running count over all prefixes, the empty one included.
  function PrefixMaximum(es: seq<Event>): int {
    if es == [] then 0
    else
      var m := PrefixMaximum(es[..|es| - 1]);
      if Net(es) > m then Net(es) else m
  }

  method MaximumActive(events: seq<Event>, ghost jobs: seq<Interval>) returns (maximum: int)
    requires Counts(events, jobs)
    ensures IsMaximumDepth(jobs, maximum)
  {
    var sorted := Sort(events);
    var active := 0;
    maximum := 0;
    for i := 0 to |sorted|
      invariant active == Net(sorted[..i]) && maximum == PrefixMaximum(sorted[..i])
    {
      assert sorted[..i + 1][..i] == sorted[..i];
      active := active + sorted[i].delta;
      maximum := if active > maximum then active else maximum;
    }
    assert sorted[..|sorted|] == sorted;
    SortSorts(events);
    SortKeepsSums(events);
    SortKeepsUnits(events);
    PrefixMaximumIsDepth(sorted, jobs);
  }

  lemma {:induction false} PrefixMaximumIsReached(es: seq<Event>) returns (top: nat)
    ensures top <= |es| && Net(es[..top]) == PrefixMaximum(es) && PrefixMaximum(es) >= 0
    ensures forall j :: 0 <= j <= |es| ==> Net(es[..j]) <= PrefixMaximum(es)
  {
    top := 0;
    assert es[..|es|] == es;
    if es != [] {
      var front := es[..|es| - 1];
      var below := PrefixMaximumIsReached(front);
      forall j | 0 <= j <= |front| ensures front[..j] == es[..j] {}
      top := if Net(es) > PrefixMaximum(front) then |es| else below;
    }
  }

  lemma AddInterval(es: seq<Event>, jobs: seq<Interval>, v: Interval)
    requires v.start < v.finish && Counts(es, jobs)
    ensures Counts(es + [Event(v.start, 1), Event(v.finish, -1)], jobs + [v])
  {
    var a, b := Event(v.start, 1), Event(v.finish, -1);
    AppendAdds(es, a);
    AppendAdds(es + [a], b);
    assert es + [a, b] == es + [a] + [b];
    assert (jobs + [v])[..|jobs|] == jobs;
  }

  lemma {:induction false} InsertKeepsUnits(es: seq<Event>, e: Event)
    requires UnitChanges(es) && UnitChanges([e])
    ensures UnitChanges(Sorting.Insert(es, e, Before))
  {
    if es == [] || Before(es[|es| - 1], e) {
    } else {
      InsertKeepsUnits(es[..|es| - 1], e);
    }
  }

  lemma {:induction false} SortKeepsUnits(es: seq<Event>)
    requires UnitChanges(es)
    ensures UnitChanges(Sort(es))
  {
    if es != [] {
      SortKeepsUnits(es[..|es| - 1]);
      InsertKeepsUnits(Sort(es[..|es| - 1]), es[|es| - 1]);
    }
  }

  // The prefix holding exactly the changes at or before x.
  lemma {:induction false} CutAt(es: seq<Event>, x: real) returns (i: nat)
    requires Sorted(es)
    ensures i <= |es| && UpTo(es, x) == Net(es[..i])
    ensures forall j :: 0 <= j < |es| ==> (j < i <==> es[j].time <= x)
  {
    i := |es|;
    while i > 0 && es[i - 1].time > x
      invariant i <= |es| && forall j :: i <= j < |es| ==> x < es[j].time
    {
      i := i - 1;
    }
    UpToIsPrefix(es, i, x);
  }

  // A running count never exceeds the depth at some instant: with finishes before
  // starts at a tie, the changes left at the instant of a start are starts.
  lemma {:induction false} PrefixBelowDepth(es: seq<Event>, j: nat) returns (x: real)
    requires Sorted(es) && UnitChanges(es) && j <= |es| && Net(es[..j]) > 0
    ensures Net(es[..j]) <= UpTo(es, x)
    decreases j
  {
    assert es[..j][..j - 1] == es[..j - 1];
    if es[j - 1].delta == 1 {
      x := es[j - 1].time;
      var i := CutAt(es, x);
      StartsOnlyGrow(es, j, i);
    } else {
      x := PrefixBelowDepth(es, j - 1);
    }
  }

  lemma {:induction false} StartsOnlyGrow(es: seq<Event>, j: nat, i: nat)
    requires Sorted(es) && UnitChanges(es) && 0 < j <= i <= |es|
    requires es[j - 1].delta == 1 && es[i - 1].time == es[j - 1].time
    ensures Net(es[..j]) <= Net(es[..i])
    decreases i
  {
    if j < i {
      assert Before(es[j - 1], es[i - 2]) || j - 1 == i - 2;
      assert Before(es[j - 1], es[i - 1]) && Before(es[i - 2], es[i - 1]);
      StartsOnlyGrow(es, j, i - 1);
      assert es[..i][..i - 1] == es[..i - 1];
    }
  }

  lemma PrefixMaximumIsDepth(es: seq<Event>, jobs: seq<Interval>)
    requires Sorted(es) && Counts(es, jobs)
    ensures IsMaximumDepth(jobs, PrefixMaximum(es))
  {
    var m := PrefixMaximum(es);
    var top := PrefixMaximumIsReached(es);
    forall x ensures Depth(jobs, x) <= m {
      var i := CutAt(es, x);
    }
    if m > 0 {
      var x := PrefixBelowDepth(es, top);
      assert Depth(jobs, x) == m;
    } else {
      assert Depth(jobs, 0.0) == m;
    }
  }

  // ---- occupancy ------------------------------------------------------------

  datatype Occupancy =
    | Unavailable
    | Available(dwell: map<int, real>, window: real, jobSeconds: real, meanActive: real,
                underfilled: real, underfilledFraction: real, fullFraction: real)

  predicate HasInterval(job: JobTimes) {
    job.start.Some? && job.finish.Some? && job.finish.value > job.start.value
  }

  predicate AllHaveInterval(jobs: seq<JobTimes>) {
    forall i :: 0 <= i < |jobs| ==> HasInterval(jobs[i])
  }

  function ToIntervals(jobs: seq<JobTimes>): (r: seq<Interval>)
    requires AllHaveInterval(jobs)
    ensures |r| == |jobs| && AllProper(r)
  {
    seq(|jobs|, i requires 0 <= i < |jobs| && HasInterval(jobs[i]) => Interval(jobs[i].start.value, jobs[i].finish.value))
  }

  // The inputs for which an occupancy is reported.
  predicate OccupancyKnown(jobs: seq<JobTimes>, concurrency: Option<int>, missing: bool) {
    && concurrency.Some? && concurrency.value >= 1 && !missing && jobs != [] && AllHaveInterval(jobs)
  }

  // What an available occupancy says of the jobs.
  ghost predicate OccupancyOf(r: Occupancy, jobs: seq<Interval>, concurrency: nat)
    requires r.Available?
  {
    exists first, last, t :: OccupancyBetween(r, jobs, concurrency, first, last, t)
  }

  ghost predicate OccupancyBetween(r: Occupancy, jobs: seq<Interval>, concurrency: nat,
                                   first: real, last: real, t: seq<Segment>)
    requires r.Available?
  {
    && first < last && IsFirstStart(jobs, first) && IsLastFinish(jobs, last)
    && Tiles(DepthOf(jobs), t, first, last)
    // dwell[k] is the time at which exactly k jobs run
    && (forall k :: Get(r.dwell, k) == TimeAt(DepthOf(jobs), first, last, k))
    && (forall k :: k in r.dwell ==> 0 <= k <= |jobs|)
    && r.window == last - first
    && r.jobSeconds == TotalDuration(jobs)
    && r.underfilled == Total(r.dwell, concurrency)
    && r.meanActive == r.jobSeconds / (last - first)
    && r.underfilledFraction == r.underfilled / (last - first)
    && r.fullFraction == Get(r.dwell, concurrency) / (last - first)
  }

  method InferenceOccupancy(jobs: seq<JobTimes>, concurrency: Option<int>, missingIntervals: bool)
    returns (r: Occupancy)
    ensures r.Available? <==> OccupancyKnown(jobs, concurrency, missingIntervals)
    ensures r.Available? ==> OccupancyOf(r, ToIntervals(jobs), concurrency.value)
  {
    if concurrency.None? || concurrency.value < 1 {
      return Unavailable;
    }
    var events, missing := OccupancyEvents(jobs, missingIntervals);
    if missing || |events| < 2 {
      if !missing && jobs != [] {
        TwoTimes(events, ToIntervals(jobs));
      }
      return Unavailable;
    }
    if jobs == [] {
      NoJobsNoEvents(events);
    }
    r := SweepDwell(events, concurrency.value, |jobs|, ToIntervals(jobs));
  }

  method OccupancyEvents(jobs: seq<JobTimes>, missingIntervals: bool) returns (events: seq<Event>, missing: bool)
    ensures missing <==> missingIntervals || !AllHaveInterval(jobs)
    ensures !missing ==> DistinctTimes(events) && Represents(events, ToIntervals(jobs))
  {
    events := [];
    missing := missingIntervals;
    for i := 0 to |jobs|
      invariant missing <==> missingIntervals || !AllHaveInterval(jobs[..i])
      invariant !missing ==> DistinctTimes(events) && Represents(events, ToIntervals(jobs[..i]))
    {
      assert jobs[..i + 1] == jobs[..i] + [jobs[i]];
      if !HasInterval(jobs[i]) {
        missing := true;
      } else {
        var v := Interval(jobs[i].start.value, jobs[i].finish.value);
        if !missing {
          BumpInterval(events, ToIntervals(jobs[..i]), v);
          assert ToIntervals(jobs[..i + 1]) == ToIntervals(jobs[..i]) + [v];
        }
        events := Bump(events, v.start, 1);
        events := Bump(events, v.finish, -1);
      }
    }
    assert jobs[..|jobs|] == jobs;
  }

  lemma BumpInterval(es: seq<Event>, jobs: seq<Interval>, v: Interval)
    requires v.start < v.finish && DistinctTimes(es) && Represents(es, jobs)
    ensures var fs := Bump(Bump(es, v.start, 1), v.finish, -1);
            DistinctTimes(fs) && Represents(fs, jobs + [v])
  {
    var mid := Bump(es, v.start, 1);
    var fs := Bump(mid, v.finish, -1);
    BumpAdds(es, v.start, 1);
    BumpAdds(mid, v.finish, -1);
    BumpKeepsDistinct(es, v.start, 1);
    BumpKeepsDistinct(mid, v.finish, -1);
    assert (jobs + [v])[..|jobs|] == jobs;
    forall t ensures HasTime(fs, t) <==> IsEndpoint(jobs + [v], t) {
      EndpointAppend(jobs, v, t);
    }
  }

  lemma EndpointAppend(jobs: seq<Interval>, v: Interval, t: real)
    ensures IsEndpoint(jobs + [v], t) <==> IsEndpoint(jobs, t) || t == v.start || t == v.finish
  {
    if IsEndpoint(jobs, t) {
      var i :| 0 <= i < |jobs| && (jobs[i].start == t || jobs[i].finish == t);
      assert (jobs + [v])[i] == jobs[i];
    }
    assert (jobs + [v])[|jobs|] == v;
  }

  lemma NoJobsNoEvents(es: seq<Event>)
    requires Represents(es, [])
    ensures es == []
  {
    if es != [] {
      HeadTime(es);
      assert false;
    }
  }

  lemma HeadTime(es: seq<Event>)
    requires es != []
    ensures HasTime(es, es[0].time)
  {
  }

  lemma TwoTimes(es: seq<Event>, jobs: seq<Interval>)
    requires Represents(es, jobs) && jobs != [] && AllProper(jobs)
    ensures |es| >= 2
  {
    assert IsEndpoint(jobs, jobs[0].start) && IsEndpoint(jobs, jobs[0].finish);
    assert HasTime(es, jobs[0].start) && HasTime(es, jobs[0].finish);
  }

  // dwell records the segments: their lengths per level, their span and their area.
  ghost predicate Recorded(t: seq<Segment>, d: map<int, real>, n: nat, span: real, area: real) {
    RecordsLevels(t, d, n) && Total(d, n + 1) == span && Weighted(d, n + 1) == area
  }

  ghost predicate RecordsLevels(t: seq<Segment>, d: map<int, real>, n: nat) {
    && (forall k :: Get(d, k) == Dwell(t, k))
    && (forall k :: k in d ==> 0 <= k <= n)
  }

  lemma RecordLevel(t: seq<Segment>, d: map<int, real>, n: nat, s: Segment)
    requires RecordsLevels(t, d, n) && 0 <= s.level <= n
    ensures RecordsLevels(t + [s], d[s.level := Get(d, s.level) + (s.to - s.from)], n)
  {
    assert (t + [s])[..|t|] == t;
    var d' := d[s.level := Get(d, s.level) + (s.to - s.from)];
    forall k ensures Get(d', k) == Dwell(t + [s], k) {
      assert Get(d, k) == Dwell(t, k);
      assert Get(d', k) == Get(d, k) + (if k == s.level then s.to - s.from else 0.0);
    }
  }

  lemma RecordStep(t: seq<Segment>, d: map<int, real>, n: nat, span: real, area: real, s: Segment, added: real)
    requires Recorded(t, d, n, span, area) && 0 <= s.level <= n
    requires added == s.level as real * (s.to - s.from)
    ensures Recorded(t + [s], d[s.level := Get(d, s.level) + (s.to - s.from)], n, span + (s.to - s.from), area + added)
  {
    RecordLevel(t, d, n, s);
    TotalsGrow(d, s.level, s.to - s.from, n + 1);
  }

  lemma MomentStep(es: seq<Event>, i: nat)
    requires 0 < i < |es|
    ensures var from, to := es[i - 1].time, es[i].time;
            Moment(es[..i + 1], to) == Moment(es[..i], from) + Net(es[..i]) as real * (to - from)
  {
    MomentMoves(es[..i], es[i - 1].time, es[i].time);
    assert es[..i + 1][..i] == es[..i];
    assert es[i].delta as real * (es[i].time - es[i].time) == 0.0;
  }

  // The sweep after i stamps.
  ghost predicate RecordedSweep(es: seq<Event>, i: nat, t: seq<Segment>, d: map<int, real>, n: nat)
    requires 0 < i <= |es|
  {
    Recorded(t, d, n, es[i - 1].time - es[0].time, Moment(es[..i], es[i - 1].time))
  }

  lemma RecordSweepStep(es: seq<Event>, i: nat, t: seq<Segment>, d: map<int, real>, n: nat, active: nat)
    requires 0 < i < |es| && active == Net(es[..i]) && active <= n
    requires RecordedSweep(es, i, t, d, n)
    ensures RecordedSweep(es, i + 1, t + [Segment(es[i - 1].time, es[i].time, active)],
                          d[active := Get(d, active) + (es[i].time - es[i - 1].time)], n)
  {
    var s := Segment(es[i - 1].time, es[i].time, active);
    var area := Moment(es[..i], s.from);
    MomentStep(es, i);
    RecordStep(t, d, n, s.from - es[0].time, area, s, Moment(es[..i + 1], s.to) - area);
  }

  lemma TileSweepStep(es: seq<Event>, i: nat, jobs: seq<Interval>, t: seq<Segment>, active: nat)
    requires Sorted(es) && DistinctTimes(es) && Represents(es, jobs)
    requires 0 < i < |es| && active == Net(es[..i])
    requires Tiles(DepthOf(jobs), t, es[0].time, es[i - 1].time)
    ensures es[i - 1].time < es[i].time
    ensures Tiles(DepthOf(jobs), t + [Segment(es[i - 1].time, es[i].time, active)], es[0].time, es[i].time)
  {
    assert Before(es[i - 1], es[i]);
    SegmentIsConstant(es, i, jobs, active);
    TilesExtend(DepthOf(jobs), t, es[0].time, es[i - 1].time, Segment(es[i - 1].time, es[i].time, active));
  }

  lemma SegmentIsConstant(es: seq<Event>, i: nat, jobs: seq<Interval>, active: nat)
    requires Sorted(es) && Represents(es, jobs)
    requires 0 < i < |es| && active == Net(es[..i])
    ensures forall x :: es[i - 1].time <= x < es[i].time ==> DepthOf(jobs)(x) == active
  {
    forall x | es[i - 1].time <= x < es[i].time ensures DepthOf(jobs)(x) == active {
      forall j | 0 <= j < i ensures es[j].time <= x {
        assert j == i - 1 || Before(es[j], es[i - 1]);
      }
      forall j | i <= j < |es| ensures x < es[j].time {
        assert j == i || Before(es[i], es[j]);
      }
      UpToIsPrefix(es, i, x);
    }
  }

  // The running count is the depth at the last stamp, so it is never negative.
  lemma CountIsDepth(es: seq<Event>, i: nat, jobs: seq<Interval>)
    requires Sorted(es) && DistinctTimes(es) && Represents(es, jobs) && 0 < i <= |es|
    ensures 0 <= Net(es[..i]) == Depth(jobs, es[i - 1].time) <= |jobs|
  {
    forall j | 0 <= j < i ensures es[j].time <= es[i - 1].time {
      assert j == i - 1 || Before(es[j], es[i - 1]);
    }
    forall j | i <= j < |es| ensures es[i - 1].time < es[j].time {
      assert Before(es[i - 1], es[j]);
    }
    UpToIsPrefix(es, i, es[i - 1].time);
    DepthIsBounded(jobs, es[i - 1].time);
  }

  lemma SortedEvents(es: seq<Event>, jobs: seq<Interval>)
    requires DistinctTimes(es) && Represents(es, jobs)
    ensures Sorted(Sort(es)) && |Sort(es)| == |es| && DistinctTimes(Sort(es)) && Represents(Sort(es), jobs)
  {
    SortSorts(es);
    SortKeepsSums(es);
    SortKeepsDistinct(es);
  }

  // _occupancy_summary; every level of dwell is at most bound.
  function Summary(dwell: map<int, real>, concurrency: nat, bound: nat): (r: Occupancy)
    requires Total(dwell, bound + 1) > 0.0
    ensures r.Available?
  {
    var window := Total(dwell, bound + 1);
    var jobSeconds := Weighted(dwell, bound + 1);
    var underfilled := Total(dwell, concurrency);
    Available(dwell, window, jobSeconds, jobSeconds / window, underfilled, underfilled / window,
              Get(dwell, concurrency) / window)
  }

  lemma NetNext(es: seq<Event>, i: nat)
    requires i < |es|
    ensures Net(es[..i + 1]) == Net(es[..i]) + es[i].delta
  {
    assert es[..i + 1][..i] == es[..i];
  }

  method SweepDwell(events: seq<Event>, concurrency: nat, bound: nat, ghost jobs: seq<Interval>) returns (r: Occupancy)
    requires |jobs| == bound && AllProper(jobs)
    requires DistinctTimes(events) && |events| >= 2 && Represents(events, jobs)
    ensures r.Available? && OccupancyOf(r, jobs, concurrency)
  {
    var es := Sort(events);
    SortedEvents(events, jobs);
    var dwell: map<int, real> := map[];
    var active := 0;
    var previous := es[0].time;
    ghost var t: seq<Segment> := [];
    for i := 0 to |es|
      invariant i == 0 ==> previous == es[0].time && active == 0 && t == [] && dwell == map[]
      invariant i > 0 ==> previous == es[i - 1].time
      invariant i > 0 ==> active == Net(es[..i]) && 0 <= active <= bound
      invariant i > 0 ==> Tiles(DepthOf(jobs), t, es[0].time, previous)
      invariant i > 0 ==> RecordedSweep(es, i, t, dwell, bound)
    {
      if i == 0 {
        FirstStep(es, jobs);
      } else {
        TileSweepStep(es, i, jobs, t, active);
        RecordSweepStep(es, i, t, dwell, bound, active);
      }
      CountIsDepth(es, i + 1, jobs);
      NetNext(es, i);
      if es[i].time > previous {
        dwell := dwell[active := Get(dwell, active) + (es[i].time - previous)];
        t := t + [Segment(previous, es[i].time, active)];
      }
      active := active + es[i].delta;
      previous := es[i].time;
    }
    EndOfSweep(es, jobs, t, dwell, concurrency);
    r := Summary(dwell, concurrency, bound);
  }

  lemma EndOfSweep(es: seq<Event>, jobs: seq<Interval>, t: seq<Segment>, d: map<int, real>, concurrency: nat)
    requires Sorted(es) && DistinctTimes(es) && |es| >= 2 && Represents(es, jobs) && AllProper(jobs)
    requires Tiles(DepthOf(jobs), t, es[0].time, es[|es| - 1].time)
    requires RecordedSweep(es, |es|, t, d, |jobs|)
    ensures Total(d, |jobs| + 1) > 0.0 && OccupancyOf(Summary(d, concurrency, |jobs|), jobs, concurrency)
    // the running count ends at zero
    ensures Net(es[..|es|]) == 0
  {
    EndpointsOfSweep(es, jobs);
    AllMoment(es, jobs);
    SummaryIsOccupancy(jobs, t, d, concurrency, es[0].time, es[|es| - 1].time);
  }

  lemma SummaryIsOccupancy(jobs: seq<Interval>, t: seq<Segment>, d: map<int, real>, concurrency: nat, first: real, last: real)
    requires IsFirstStart(jobs, first) && IsLastFinish(jobs, last) && first < last
    requires Tiles(DepthOf(jobs), t, first, last)
    requires Recorded(t, d, |jobs|, last - first, TotalDuration(jobs))
    ensures OccupancyOf(Summary(d, concurrency, |jobs|), jobs, concurrency)
  {
    TimeAtIsDwell(DepthOf(jobs), t, first, last);
    var r := Summary(d, concurrency, |jobs|);
    assert OccupancyBetween(r, jobs, concurrency, first, last, t);
  }

  lemma FirstStep(es: seq<Event>, jobs: seq<Interval>)
    requires |es| > 0
    ensures Tiles(DepthOf(jobs), [], es[0].time, es[0].time) && RecordedSweep(es, 1, [], map[], |jobs|)
    ensures Net(es[..0]) == 0
  {
    EmptyTotals(|jobs| + 1);
    assert es[..1][..0] == [];
    assert es[0].delta as real * (es[0].time - es[0].time) == 0.0;
  }

  lemma {:induction false} EmptyTotals(n: nat)
    ensures Total(map[], n) == 0.0 && Weighted(map[], n) == 0.0
  {
    if n > 0 { EmptyTotals(n - 1); }
  }

  lemma AllMoment(es: seq<Event>, jobs: seq<Interval>)
    requires |es| > 0 && Represents(es, jobs)
    ensures Moment(es[..|es|], es[|es| - 1].time) == TotalDuration(jobs) && Net(es[..|es|]) == 0
  {
    assert es[..|es|] == es;
  }

  lemma EndpointsOfSweep(es: seq<Event>, jobs: seq<Interval>)
    requires Sorted(es) && DistinctTimes(es) && |es| >= 2 && Represents(es, jobs) && AllProper(jobs)
    ensures IsFirstStart(jobs, es[0].time) && IsLastFinish(jobs, es[|es| - 1].time)
    ensures es[0].time < es[|es| - 1].time
  {
    var a, b := es[0].time, es[|es| - 1].time;
    assert Before(es[0], es[|es| - 1]);
    forall i | 0 <= i < |jobs| ensures a <= jobs[i].start && jobs[i].finish <= b {
      EventAt(es, jobs, jobs[i].start);
      EventAt(es, jobs, jobs[i].finish);
    }
    assert HasTime(es, a) && HasTime(es, b);
    assert IsEndpoint(jobs, a) && IsEndpoint(jobs, b);
  }

  lemma EventAt(es: seq<Event>, jobs: seq<Interval>, t: real)
    requires Sorted(es) && |es| > 0 && Represents(es, jobs) && IsEndpoint(jobs, t)
    ensures es[0].time <= t <= es[|es| - 1].time
  {
  }

  // ---- the two sweeps agree --------------------------------------------------

  // The greatest depth of the intervals is the greatest level held for a positive time.
  lemma DepthIsTopLevel(r: Occupancy, jobs: seq<Interval>, concurrency: nat, m: int)
    requires r.Available? && OccupancyOf(r, jobs, concurrency) && IsMaximumDepth(jobs, m) && AllProper(jobs)
    ensures Get(r.dwell, m) > 0.0
    ensures forall k :: Get(r.dwell, k) > 0.0 ==> k <= m
  {
    var first, last, t :| OccupancyBetween(r, jobs, concurrency, first, last, t);
    var f := DepthOf(jobs);
    TimeAtIsDwell(f, t, first, last);
    forall k | Get(r.dwell, k) > 0.0 ensures k <= m {
      var x := TimeIsReached(f, t, first, last, k);
      assert Depth(jobs, x) <= m;
    }
    var x :| Depth(jobs, x) == m;
    assert f(first) <= m && f(first) > 0 by {
      DepthAtFirst(jobs, first);
      assert f(first) == Depth(jobs, first);
    }
    var i := DepthPositiveInside(jobs, x);
    assert f(x) == m;
    ReachedHasTime(f, t, first, last, x);
  }

  // Jobs that all have an interval are counted by both sweeps with that interval.
  lemma {:induction false} SameIntervals(jobs: seq<JobTimes>, trialEnd: Option<real>)
    requires AllHaveInterval(jobs)
    ensures CountedIntervals(jobs, trialEnd) == ToIntervals(jobs) && CensoredCount(jobs) == 0
  {
    if jobs != [] {
      var front := jobs[..|jobs| - 1];
      SameIntervals(front, trialEnd);
      assert ToIntervals(jobs) == ToIntervals(front) + [ToIntervals(jobs)[|jobs| - 1]];
    }
  }

  // The two sweeps agree: whenever an occupancy of the jobs is available, their greatest
  // overlap, whatever the trial's end, is the greatest level held for a positive time.
  lemma OverlapIsTopLevel(r: Occupancy, jobs: seq<JobTimes>, concurrency: nat, trialEnd: Option<real>, m: int)
    requires AllHaveInterval(jobs) && r.Available? && OccupancyOf(r, ToIntervals(jobs), concurrency)
    requires IsMaximumDepth(CountedIntervals(jobs, trialEnd), m)
    ensures Get(r.dwell, m) > 0.0
    ensures forall k :: Get(r.dwell, k) > 0.0 ==> k <= m
  {
    SameIntervals(jobs, trialEnd);
    DepthIsTopLevel(r, ToIntervals(jobs), concurrency, m);
  }

  lemma {:induction false} DepthAtFirst(jobs: seq<Interval>, a: real)
    requires IsFirstStart(jobs, a) && AllProper(jobs)
    ensures Depth(jobs, a) > 0
  {
    var i :| 0 <= i < |jobs| && jobs[i].start == a;
    InsideIsPositive(jobs, a, i);
  }
}
