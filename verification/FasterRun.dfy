// Falsification happens (spark_bench/analysis.py, analyze).
//
// The checks on the evidence are many, and a verdict that no run can reach would satisfy
// every result about it. Here is a family of runs that reach it: two trials at C1 and two
// at C2, one after another, of the same two plain jobs of one second each. At C1 the jobs
// run one after the other and a trial takes two seconds; at C2 they overlap and it takes
// one. All figures but the rate are equal, and the rate at C2 is twice that of C1, so the
// hypothesis is falsified. At the end one such run is built with its jobs, and the overlap
// of each trial is proved to be the one its jobs show.
module FasterRun {
  import opened Wrappers
  import opened Intervals
  import opened Trials
  import opened Figures
  import opened Cohorts
  import opened NodeWindows
  import opened Verdict
  import Sweeps

  const REQUESTED := Metadata(true, false, {1, 2}, Some(2), None)

  const LIMITS := Thresholds(1.1, 3.0, 0.0)

  const CORPUS: multiset<Input> := multiset{("a", "0"), ("b", "0")}

  const KEY := Cohort(CORPUS, Some(1))

  // A successful job of one second.
  predicate Plain(job: Job) {
    FailureOf(job).None? && job.latency == Some(1.0) && job.audio.None? && !job.synthetic
  }

  ghost predicate AllPlain(jobs: seq<Job>) {
    forall job :: job in jobs ==> Plain(job)
  }

  // A complete trial of two plain jobs at the level, and how long it took.
  ghost predicate PlainTrial(t: Trial, level: int, seconds: real) {
    && t.Complete() && CohortOf(t) == KEY
    && t.concurrency == t.maximum == Some(level) && t.makespan == Some(seconds)
    && |t.jobs| == 2 && AllPlain(t.jobs) && !t.telemetryMissing
    && t.started.Some? && t.finished.Some? && t.started.value <= t.finished.value
  }

  // Two such trials at C1 and two at C2, one after another.
  ghost predicate TwiceAsFast(trials: seq<Trial>) {
    && |trials| == 4 && DistinctTrials(trials)
    && PlainTrial(trials[0], 1, 2.0) && PlainTrial(trials[1], 1, 2.0)
    && PlainTrial(trials[2], 2, 1.0) && PlainTrial(trials[3], 2, 1.0)
    && trials[0].finished.value <= trials[1].started.value && trials[1].finished.value <= trials[2].started.value
    && trials[2].finished.value <= trials[3].started.value
  }

  // ---- the figures of two trials -------------------------------------------------------------------

  lemma {:induction false} PlainFigures(jobs: seq<Job>)
    requires AllPlain(jobs)
    ensures Successful(jobs) == jobs
    ensures |Latencies(jobs)| == |jobs| && forall x :: x in Latencies(jobs) ==> x == 1.0
    ensures forall input :: AudioCount(jobs, input) == 0
  {
    if jobs != [] {
      var front, last := jobs[..|jobs| - 1], jobs[|jobs| - 1];
      assert jobs == front + [last] && last in jobs;
      PlainFigures(front);
    }
  }

  lemma SameP95(xs: seq<real>)
    requires xs != [] && forall x :: x in xs ==> x == 1.0
    ensures P95(xs) == Some(1.0)
  {
    SortIsAscending(xs);
    var low, high := PercentileBetween(Sort(xs), 0.95);
    assert Sort(xs)[low] in Sort(xs) && Sort(xs)[high] in Sort(xs);
  }

  // The comparison of two plain trials.
  ghost predicate Figured(item: Comparison, rate: real, level: int) {
    && item.rate == Some(rate) && item.p95 == Some(1.0) && item.failureRate == Some(0.0)
    && item.maximum == Some(level) && item.complete == |item.trials| == 2 && item.clean
    && item.audio == map[] && TelemetryEverywhere(item.trials)
  }

  lemma SumsOfTwo(t: Trial, u: Trial, level: int)
    requires t.makespan.Some? && u.makespan.Some?
    requires t.Complete() && u.Complete() && t.maximum == u.maximum == Some(level)
    ensures Jobs([t, u]) == t.jobs + u.jobs
    ensures TotalMakespan([t, u]) == Some(t.makespan.value + u.makespan.value)
    ensures CompleteCount([t, u]) == 2 && Observed([t, u]) == Some(level)
  {
    assert [t][..0] == [] && [t, u][..1] == [t];
    assert Jobs([t]) == t.jobs && TotalMakespan([t]) == Some(0.0 + t.makespan.value);
    assert CompleteCount([t]) == 1 && MaximumObserved([t]) == Some(level);
  }

  lemma GroupFigures(group: seq<Trial>, jobs: seq<Job>, total: real)
    requires jobs == Jobs(group) && |jobs| == 4 && AllPlain(jobs)
    requires TotalMakespan(group) == Some(total) && total > 0.0
    ensures JobsPerHour(group) == Some(14400.0 / total) && GroupP95(group) == Some(1.0)
    ensures FailureRate(group) == Some(0.0) && AudioMeans(jobs) == map[]
  {
    PlainFigures(jobs);
    SameP95(Latencies(jobs));
    assert |jobs| as real * 3600.0 == 14400.0;
  }

  lemma FiguresOfTwo(group: seq<Trial>, t: Trial, u: Trial, level: int, seconds: real, total: real, rate: real)
    requires group == [t, u] && PlainTrial(t, level, seconds) && PlainTrial(u, level, seconds)
    requires seconds + seconds == total > 0.0 && rate == 14400.0 / total
    ensures Figured(Aggregate(group), rate, level)
  {
    SumsOfTwo(t, u, level);
    var jobs := t.jobs + u.jobs;
    assert AllPlain(jobs);
    GroupFigures([t, u], jobs, total);
  }

  // ---- the board ---------------------------------------------------------------------------------------

  lemma OfNextTwo(before: seq<Trial>, t: Trial, u: Trial, at: Option<int>, level: Option<int>)
    requires CohortOf(t) == CohortOf(u) == KEY && t.concurrency == u.concurrency == at
    ensures Of(before + [t, u], KEY, level) == Of(before, KEY, level) + if level == at then [t, u] else []
  {
    var all := before + [t, u];
    assert all[..|all| - 1] == before + [t] && (before + [t])[..|before|] == before;
  }

  lemma GroupsAre(trials: seq<Trial>, level: Option<int>)
    requires TwiceAsFast(trials)
    ensures Of(trials, KEY, level) == if level == Some(1) then [trials[0], trials[1]]
                                      else if level == Some(2) then [trials[2], trials[3]] else []
  {
    var early := [trials[0], trials[1]];
    assert trials == early + [trials[2], trials[3]] && early == [] + [trials[0], trials[1]];
    OfNextTwo([], trials[0], trials[1], Some(1), level);
    OfNextTwo(early, trials[2], trials[3], Some(2), level);
  }

  lemma LevelsAre(trials: seq<Trial>)
    requires TwiceAsFast(trials)
    ensures CohortsOf(trials) == {KEY} && Levels(trials, KEY) == {Some(1), Some(2)}
  {
    assert trials[0] in trials && trials[2] in trials;
  }

  lemma FiguresAtOne(trials: seq<Trial>)
    requires TwiceAsFast(trials)
    ensures Figured(Aggregate(Of(trials, KEY, Some(1))), 3600.0, 1)
  {
    GroupsAre(trials, Some(1));
    FiguresOfTwo(Of(trials, KEY, Some(1)), trials[0], trials[1], 1, 2.0, 4.0, 3600.0);
  }

  lemma FiguresAtTwo(trials: seq<Trial>)
    requires TwiceAsFast(trials)
    ensures Figured(Aggregate(Of(trials, KEY, Some(2))), 7200.0, 2)
  {
    GroupsAre(trials, Some(2));
    FiguresOfTwo(Of(trials, KEY, Some(2)), trials[2], trials[3], 2, 1.0, 2.0, 7200.0);
  }

  lemma BoardIs(trials: seq<Trial>, key: Cohort)
    requires Levels(trials, key) == {Some(1), Some(2)}
    requires Figured(Aggregate(Of(trials, key, Some(1))), 3600.0, 1)
    requires Figured(Aggregate(Of(trials, key, Some(2))), 7200.0, 2)
    ensures TwoLevels(BoardOf(trials, key))
  {
  }

  ghost predicate TwoLevels(board: Board) {
    && board.Keys == {Some(1), Some(2)}
    && Figured(board[Some(1)], 3600.0, 1) && Figured(board[Some(2)], 7200.0, 2)
  }

  lemma BoardWins(board: Board, workloads: nat)
    requires TwoLevels(board) && workloads >= 2
    ensures CohortClean(board, workloads, REQUESTED, LIMITS) && HigherLevelWins(board, 2, LIMITS)
  {
  }

  lemma TwoWorkloads()
    ensures |Workloads(CORPUS)| >= 2
  {
    assert ("a", "0") in CORPUS && ("b", "0") in CORPUS;
    assert Workloads(CORPUS) == {"a", "b"};
  }

  // ---- the run -----------------------------------------------------------------------------------------

  // Trials that follow one another do not overlap.
  lemma {:induction false} OneAfterAnother(trials: seq<Trial>, end: real)
    requires forall i :: 0 <= i < |trials| ==>
               trials[i].started.Some? && trials[i].finished.Some? && trials[i].started.value <= trials[i].finished.value <= end
    requires forall i, j :: 0 <= i < j < |trials| ==> trials[i].finished.value <= trials[j].started.value
    ensures Apart(Windows(trials)) && forall v :: v in Windows(trials) ==> v.finish <= end
  {
    if trials != [] {
      var front, last := trials[..|trials| - 1], trials[|trials| - 1];
      OneAfterAnother(front, last.started.value);
      LaterApart(Windows(front), Interval(last.started.value, last.finished.value));
    }
  }

  lemma LaterApart(ws: seq<Interval>, w: Interval)
    requires Apart(ws) && forall v :: v in ws ==> v.finish <= w.start
    ensures Apart(ws + [w])
  {
    assert (ws + [w])[..|ws|] == ws;
  }

  lemma RunIsClean(trials: seq<Trial>)
    requires TwiceAsFast(trials)
    ensures RunClean(trials, REQUESTED) && !IsSynthetic(trials, REQUESTED)
  {
    OneAfterAnother(trials, trials[3].finished.value);
    assert 2 in REQUESTED.levels;
  }

  lemma CohortIsClean(trials: seq<Trial>)
    requires TwiceAsFast(trials)
    ensures KeyClean(trials, KEY, REQUESTED, LIMITS) && HasWinner(trials, KEY, LIMITS)
  {
    LevelsAre(trials);
    FiguresAtOne(trials);
    FiguresAtTwo(trials);
    BoardIs(trials, KEY);
    TwoWorkloads();
    BoardWins(BoardOf(trials, KEY), |Workloads(KEY.corpus)|);
  }

  lemma OneCohort(trials: seq<Trial>, key: Cohort, meta: Metadata, th: Thresholds)
    ensures KeyClean(trials, key, meta, th) ==> AllClean({key}, trials, meta, th)
  {
  }

  // Every such run falsifies the hypothesis.
  lemma TwiceAsFastFalsifies(trials: seq<Trial>)
    requires TwiceAsFast(trials)
    ensures Falsifies(trials, REQUESTED, LIMITS)
  {
    RunIsClean(trials);
    LevelsAre(trials);
    CohortIsClean(trials);
    OneCohort(trials, KEY, REQUESTED, LIMITS);
    assert KEY in CohortsOf(trials);
  }

  // ---- one such run ------------------------------------------------------------------------------------

  function Done(workload: string, start: real): Job {
    var times := Sweeps.JobTimes(Some(start), Some(start + 1.0));
    Job(Some(workload), false, Some(workload), Some("0"), Succeeded, false, false, false, Absent, Absent, Absent,
        times, Sweeps.JobTimes(None, None), times, Some(1.0), None, false)
  }

  // Its second job starts with the first one at C2, and after it at C1.
  function Measurement(id: string, level: int, start: real, seconds: real): Trial
    requires seconds > 0.0
  {
    Trial(id, Some(level), Some(1), Some(start), Some(start + seconds), Some(seconds), Int(2),
          [Done("a", start), Done("b", start + seconds - 1.0)], Some(level),
          Sweeps.Available(map[level := seconds], seconds, 2.0, 2.0 / seconds, 0.0, 0.0, 1.0), {}, false, false)
  }

  lemma TwoInferences(a: Job, b: Job)
    requires a.epochInference.start.Some? && b.epochInference.start.Some?
    ensures Inferences([a, b], false) == [a.epochInference, b.epochInference]
  {
    assert [a][..0] == [] && Inferences([a], false) == [a.epochInference];
    assert [a, b][..1] == [a];
  }

  lemma TwoCounted(x: Sweeps.JobTimes, y: Sweeps.JobTimes)
    requires Sweeps.HasInterval(x) && Sweeps.HasInterval(y)
    ensures Sweeps.CensoredCount([x, y]) == 0
    ensures Sweeps.CountedIntervals([x, y], None)
         == [Interval(x.start.value, x.finish.value), Interval(y.start.value, y.finish.value)]
  {
    assert [x][..0] == [] && Sweeps.CensoredCount([x]) == 0;
    assert Sweeps.CountedIntervals([x], None) == [Interval(x.start.value, x.finish.value)];
    assert [x, y][..1] == [x];
  }

  lemma DepthOfTwo(v: Interval, w: Interval, x: real)
    ensures Depth([v, w], x) == (if v.Contains(x) then 1 else 0) + (if w.Contains(x) then 1 else 0)
  {
    assert [v][..0] == [] && Depth([v], x) == if v.Contains(x) then 1 else 0;
    assert [v, w][..1] == [v];
  }

  lemma CorpusOfTwo(a: Job, b: Job)
    requires InputOf(a) == ("a", "0") && InputOf(b) == ("b", "0")
    ensures CorpusOf([a, b]) == CORPUS
  {
    assert [a][..0] == [] && CorpusOf([a]) == multiset{} + multiset{("a", "0")};
    assert [a, b][..1] == [a];
  }

  lemma MeasurementIsConsistent(id: string, level: int, start: real, seconds: real)
    requires (level == 1 && seconds == 2.0) || (level == 2 && seconds == 1.0)
    ensures Consistent(Measurement(id, level, start, seconds))
  {
    var jobs := Measurement(id, level, start, seconds).jobs;
    var a, b := jobs[0], jobs[1];
    TwoInferences(a, b);
    TwoCounted(a.epochInference, b.epochInference);
    assert !UsesMonotonic(jobs);
    var v, w := Interval(start, start + 1.0), Interval(start + seconds - 1.0, start + seconds);
    forall x ensures Depth([v, w], x) <= level {
      DepthOfTwo(v, w, x);
    }
    DepthOfTwo(v, w, start);
    assert Depth([v, w], start) == level;
  }

  lemma SomeMeasurement(id: string, level: int, start: real, seconds: real) returns (t: Trial)
    requires (level == 1 && seconds == 2.0) || (level == 2 && seconds == 1.0)
    ensures PlainTrial(t, level, seconds) && Consistent(t)
    ensures t.id == id && t.started == Some(start) && t.finished == Some(start + seconds)
  {
    t := Measurement(id, level, start, seconds);
    MeasurementIsConsistent(id, level, start, seconds);
    CorpusOfTwo(t.jobs[0], t.jobs[1]);
  }

  lemma SomeRun() returns (trials: seq<Trial>)
    ensures TwiceAsFast(trials) && AllConsistent(trials)
  {
    var a := SomeMeasurement("1", 1, 0.0, 2.0);
    var b := SomeMeasurement("2", 1, 2.0, 2.0);
    var c := SomeMeasurement("3", 2, 4.0, 1.0);
    var d := SomeMeasurement("4", 2, 5.0, 1.0);
    trials := [a, b, c, d];
  }

  lemma FalsificationHappens() returns (trials: seq<Trial>)
    ensures AllConsistent(trials) && Falsifies(trials, REQUESTED, LIMITS)
  {
    trials := SomeRun();
    TwiceAsFastFalsifies(trials);
  }
}
