// One measured trial and what makes its evidence complete (spark_bench/analysis.py, _trial).
module Trials {
  import opened Wrappers
  import opened Issues
  import opened Intervals
  import Sweeps
  import Coverage

  // A JSON field that should hold an integer.
  datatype IntField = Absent | NotInt | Int(value: int)

  datatype JobStatus = Succeeded | FailedIntegrity | Timeout | Cancelled | Failed | OtherStatus

  datatype Failure = OutOfMemory | BadIntegrity | TimedOut | WasCancelled | Infrastructure | Unfinished

  // One row of jobs.jsonl. Numbers that are missing or not finite are None; the two error
  // flags say what the error text mentions.
  datatype Job = Job(
    id: Option<string>, warmup: bool, workload: Option<string>, seed: Option<string>,
    status: JobStatus, memoryKilled: bool, integrityError: bool, memoryError: bool,
    concurrency: IntField, dispatchers: IntField, retries: IntField,
    wall: Sweeps.JobTimes, monotonicInference: Sweeps.JobTimes, epochInference: Sweeps.JobTimes,
    latency: Option<real>, audio: Option<real>, synthetic: bool)

  datatype RawTrial = RawTrial(
    id: string, readable: bool, jobsReadable: bool, measured: bool,
    started: Option<real>, finished: Option<real>, hasDuration: bool, duration: Option<real>,
    telemetryReadable: bool, statusOk: bool, stopped: bool, expected: IntField, concurrency: IntField, dispatchers: IntField,
    monotonicStart: Option<real>)

  datatype Metric = MemoryAvailable | GpuTemperature | CpuPercent | GpuUtilization

  const REQUIRED: seq<Metric> := [MemoryAvailable, GpuTemperature, CpuPercent, GpuUtilization]

  datatype Sample = Sample(monotonic: Option<real>, epoch: Option<real>, available: set<Metric>)

  datatype Issue =
    | Unreadable | BadJobsFile | BadIdentity | BadDuration | NoInterval | BadStatus | WasStopped
    | BadExpected | WrongJobCount | BadConcurrency | BadDispatchers | Inconclusive | LevelMismatch
    | NegativeLatency | BadTiming | OutsideTrial | NoIdentity | BadRetries
    | TooMuchOverlap | TooLittleOverlap | BadTelemetryFile | LowCoverage

  datatype Trial = Trial(
    id: string, concurrency: Option<int>, dispatchers: Option<int>,
    started: Option<real>, finished: Option<real>, makespan: Option<real>, expected: IntField,
    jobs: seq<Job>, maximum: Option<int>, occupancy: Sweeps.Occupancy,
    issues: set<Issue>, timingNotes: bool, telemetryMissing: bool)
  {
    predicate Complete() {
      issues == {}
    }
  }

  // ---- single fields ---------------------------------------------------------------------------

  function FailureOf(job: Job): Option<Failure> {
    if job.memoryKilled then Some(OutOfMemory)
    else if job.status.FailedIntegrity? || job.integrityError then Some(BadIntegrity)
    else if job.status.Succeeded? then None
    else if job.status.Timeout? then Some(TimedOut)
    else if job.status.Cancelled? then Some(WasCancelled)
    else if job.memoryError then Some(OutOfMemory)
    else if job.status.Failed? then Some(Infrastructure)
    else Some(Unfinished)
  }

  // The job's outcome says something about the level: success, memory or integrity.
  predicate Conclusive(job: Job) {
    FailureOf(job) in {None, Some(OutOfMemory), Some(BadIntegrity)}
  }

  function Level(field: IntField): Option<int> {
    if field.Int? && field.value >= 1 then Some(field.value) else None
  }

  function Dispatchers(field: IntField): Option<int> {
    if field.Absent? then Some(1) else Level(field)
  }

  predicate Agrees(field: IntField, level: Option<int>) {
    field.Absent? || (field.Int? && level == Some(field.value))
  }

  predicate ValidWall(times: Sweeps.JobTimes) {
    times.start.Some? && times.finish.Some? && times.finish.value > times.start.value
  }

  function Wall(raw: RawTrial): Sweeps.JobTimes {
    Sweeps.JobTimes(raw.started, raw.finished)
  }

  function Makespan(raw: RawTrial): Option<real> {
    if raw.duration.Some? && raw.duration.value > 0.0 then raw.duration
    else if ValidWall(Wall(raw)) then Some(raw.finished.value - raw.started.value)
    else None
  }

  // A job's own latency counts only where the trial has a monotonic duration.
  function Latency(job: Job, raw: RawTrial): Option<real> {
    if raw.duration.Some? then job.latency else None
  }

  predicate TimingOk(job: Job, raw: RawTrial) {
    && (Latency(job, raw).Some? ==> Latency(job, raw).value >= 0.0)
    && (ValidWall(job.wall) || Latency(job, raw).Some?)
    && (ValidWall(job.wall) && Latency(job, raw).None? && raw.duration.None? && ValidWall(Wall(raw)) ==>
          raw.started.value <= job.wall.start.value && job.wall.finish.value <= raw.finished.value)
  }

  predicate JobOk(job: Job, raw: RawTrial) {
    && Conclusive(job)
    && Agrees(job.concurrency, Level(raw.concurrency)) && Agrees(job.dispatchers, Dispatchers(raw.dispatchers))
    && TimingOk(job, raw)
    && job.workload.Some? && job.seed.Some?
    && (job.retries.Absent? || (job.retries.Int? && job.retries.value >= 0))
  }

  predicate HeaderOk(raw: RawTrial, jobs: nat) {
    && raw.readable && raw.jobsReadable
    && (raw.hasDuration ==> raw.duration.Some? && raw.duration.value > 0.0) && Makespan(raw).Some?
    && raw.statusOk && !raw.stopped
    && raw.expected.Int? && raw.expected.value >= 1 && raw.expected.value == jobs
    && Level(raw.concurrency).Some? && Dispatchers(raw.dispatchers).Some?
  }

  // ---- which rows are the measured jobs ------------------------------------------------------

  function Measured(rows: seq<Job>): seq<Job> {
    if rows == [] then []
    else Measured(rows[..|rows| - 1]) + if rows[|rows| - 1].warmup then [] else [rows[|rows| - 1]]
  }

  predicate Identified(jobs: seq<Job>) {
    forall i :: 0 <= i < |jobs| ==> jobs[i].id.Some?
  }

  ghost predicate DistinctIds(jobs: seq<Job>) {
    Identified(jobs) && forall i, j :: 0 <= i < j < |jobs| ==> jobs[i].id != jobs[j].id
  }

  ghost predicate HasId(jobs: seq<Job>, x: string) {
    exists i :: 0 <= i < |jobs| && jobs[i].id == Some(x)
  }

  ghost predicate SeenIn(seen: set<string>, jobs: seq<Job>) {
    forall x :: x in seen <==> HasId(jobs, x)
  }

  method MeasuredJobs(rows: seq<Job>) returns (jobs: seq<Job>, issues: set<Issue>)
    ensures issues == {} <==> DistinctIds(Measured(rows))
    ensures issues == {} ==> jobs == Measured(rows)
    ensures DistinctIds(jobs)
  {
    jobs, issues := [], {};
    var seen: set<string> := {};
    for i := 0 to |rows|
      invariant DistinctIds(jobs) && SeenIn(seen, jobs)
      invariant issues == {} <==> DistinctIds(Measured(rows[..i]))
      invariant issues == {} ==> jobs == Measured(rows[..i])
    {
      var row := rows[i];
      MeasuredNext(rows, i);
      if !row.warmup {
        NextMeasured(Measured(rows[..i]), row);
        SeenDecides(seen, jobs, row);
        if row.id.None? || row.id.value in seen {
          issues := issues + {BadIdentity};
          assert BadIdentity in issues;
        } else {
          seen := seen + {row.id.value};
          jobs := jobs + [row];
        }
      }
    }
    assert rows[..|rows|] == rows;
  }

  lemma MeasuredNext(rows: seq<Job>, i: nat)
    requires i < |rows|
    ensures Measured(rows[..i + 1]) == if rows[i].warmup then Measured(rows[..i]) else Measured(rows[..i]) + [rows[i]]
  {
    assert rows[..i + 1][..i] == rows[..i];
  }

  lemma SeenDecides(seen: set<string>, jobs: seq<Job>, row: Job)
    requires DistinctIds(jobs) && SeenIn(seen, jobs)
    ensures DistinctIds(jobs + [row]) <==> row.id.Some? && row.id.value !in seen
    ensures row.id.Some? ==> SeenIn(seen + {row.id.value}, jobs + [row])
  {
    NextMeasured(jobs, row);
    forall x ensures HasId(jobs + [row], x) <==> HasId(jobs, x) || row.id == Some(x) {
      NextId(jobs, row, x);
    }
  }

  lemma NextId(jobs: seq<Job>, row: Job, x: string)
    ensures HasId(jobs + [row], x) <==> HasId(jobs, x) || row.id == Some(x)
  {
    var all := jobs + [row];
    if HasId(jobs, x) {
      var i :| 0 <= i < |jobs| && jobs[i].id == Some(x);
      assert all[i] == jobs[i];
    }
    assert all[|jobs|] == row;
  }

  lemma NextMeasured(jobs: seq<Job>, row: Job)
    ensures DistinctIds(jobs + [row]) <==> DistinctIds(jobs) && row.id.Some? && !HasId(jobs, row.id.value)
  {
    var all := jobs + [row];
    forall k | 0 <= k < |jobs| ensures all[k] == jobs[k] {
    }
    assert all[|jobs|] == row;
    if DistinctIds(all) {
      LongerDistinct(jobs, row);
    } else if Identified(jobs) && row.id.Some? && DistinctIds(jobs) {
      assert Identified(all);
      var i, j :| 0 <= i < j < |all| && all[i].id == all[j].id;
      assert j == |jobs| && jobs[i].id == row.id;
    }
  }

  lemma LongerDistinct(jobs: seq<Job>, row: Job)
    requires DistinctIds(jobs + [row])
    ensures DistinctIds(jobs) && row.id.Some? && !HasId(jobs, row.id.value)
  {
    var all := jobs + [row];
    assert all[|jobs|] == row;
    forall i | 0 <= i < |jobs| ensures jobs[i].id.Some? && jobs[i].id != row.id {
      assert all[i] == jobs[i];
    }
    forall i, j | 0 <= i < j < |jobs| ensures jobs[i].id != jobs[j].id {
      assert all[i] == jobs[i] && all[j] == jobs[j];
    }
  }

  // ---- the checks, one issue each ------------------------------------------------------------

  method CheckHeader(raw: RawTrial, jobs: nat) returns (issues: set<Issue>)
    ensures issues == {} <==> HeaderOk(raw, jobs)
  {
    issues := Raise({}, !raw.readable, Unreadable);
    issues := Raise(issues, !raw.jobsReadable, BadJobsFile);
    issues := Raise(issues, raw.hasDuration && (raw.duration.None? || raw.duration.value <= 0.0), BadDuration);
    issues := Raise(issues, Makespan(raw).None?, NoInterval);
    issues := Raise(issues, !raw.statusOk, BadStatus);
    issues := Raise(issues, raw.stopped, WasStopped);
    if !raw.expected.Int? || raw.expected.value < 1 {
      issues := Raise(issues, true, BadExpected);
    } else {
      issues := Raise(issues, jobs != raw.expected.value, WrongJobCount);
    }
    issues := Raise(issues, Level(raw.concurrency).None?, BadConcurrency);
    issues := Raise(issues, Dispatchers(raw.dispatchers).None?, BadDispatchers);
  }

  method CheckTiming(job: Job, raw: RawTrial) returns (issues: set<Issue>, note: bool)
    ensures issues == {} <==> TimingOk(job, raw)
    ensures note <==> Latency(job, raw).Some? && !ValidWall(job.wall)
  {
    var latency := Latency(job, raw);
    note := false;
    issues := Raise({}, latency.Some? && latency.value < 0.0, NegativeLatency);
    if !ValidWall(job.wall) && latency.None? {
      issues := Raise(issues, true, BadTiming);
    } else if latency.Some? && !ValidWall(job.wall) {
      note := true;
    } else if raw.duration.None? && ValidWall(Wall(raw)) {
      issues := Raise(issues, job.wall.start.value < raw.started.value || job.wall.finish.value > raw.finished.value,
                    OutsideTrial);
    }
  }

  method CheckJob(job: Job, raw: RawTrial) returns (issues: set<Issue>, note: bool)
    ensures issues == {} <==> JobOk(job, raw)
    ensures note <==> Latency(job, raw).Some? && !ValidWall(job.wall)
  {
    issues, note := CheckTiming(job, raw);
    issues := Raise(issues, !Conclusive(job), Inconclusive);
    issues := Raise(issues, !Agrees(job.concurrency, Level(raw.concurrency))
                          || !Agrees(job.dispatchers, Dispatchers(raw.dispatchers)), LevelMismatch);
    issues := Raise(issues, job.workload.None? || job.seed.None?, NoIdentity);
    issues := Raise(issues, !job.retries.Absent? && (!job.retries.Int? || job.retries.value < 0), BadRetries);
  }

  predicate Noted(jobs: seq<Job>, raw: RawTrial) {
    || (raw.duration.Some? && !ValidWall(Wall(raw)))
    || exists i :: 0 <= i < |jobs| && Latency(jobs[i], raw).Some? && !ValidWall(jobs[i].wall)
  }

  method CheckJobs(jobs: seq<Job>, raw: RawTrial) returns (issues: set<Issue>, notes: bool)
    ensures issues == {} <==> forall i :: 0 <= i < |jobs| ==> JobOk(jobs[i], raw)
    ensures notes <==> Noted(jobs, raw)
  {
    issues, notes := {}, raw.duration.Some? && !ValidWall(Wall(raw));
    for i := 0 to |jobs|
      invariant issues == {} <==> forall j :: 0 <= j < i ==> JobOk(jobs[j], raw)
      invariant notes <==>
        || (raw.duration.Some? && !ValidWall(Wall(raw)))
        || exists j :: 0 <= j < i && Latency(jobs[j], raw).Some? && !ValidWall(jobs[j].wall)
    {
      var more, note := CheckJob(jobs[i], raw);
      issues := issues + more;
      notes := notes || note;
    }
  }

  // ---- how many inferences overlapped ----------------------------------------------------------

  // Monotonic stamps are used as soon as one job has them.
  predicate UsesMonotonic(jobs: seq<Job>) {
    exists i :: 0 <= i < |jobs| && jobs[i].monotonicInference.start.Some?
  }

  function Inference(job: Job, monotonic: bool): Sweeps.JobTimes {
    if monotonic then job.monotonicInference else job.epochInference
  }

  function Inferences(jobs: seq<Job>, monotonic: bool): seq<Sweeps.JobTimes> {
    if jobs == [] then []
    else
      var last := Inference(jobs[|jobs| - 1], monotonic);
      Inferences(jobs[..|jobs| - 1], monotonic) + if last.start.Some? then [last] else []
  }

  predicate Untimed(job: Job, monotonic: bool) {
    FailureOf(job).None? && (Inference(job, monotonic).start.None? || Inference(job, monotonic).finish.None?)
  }

  // Some inference was timed, none was cut off, and every success was timed.
  predicate OverlapKnown(jobs: seq<Job>) {
    var monotonic := UsesMonotonic(jobs);
    && Inferences(jobs, monotonic) != []
    && Sweeps.CensoredCount(Inferences(jobs, monotonic)) == 0
    && forall i :: 0 <= i < |jobs| ==> !Untimed(jobs[i], monotonic)
  }

  // m is the greatest number of inferences that ran at one instant.
  ghost predicate ObservedOverlap(jobs: seq<Job>, m: int) {
    Sweeps.IsMaximumDepth(Sweeps.CountedIntervals(Inferences(jobs, UsesMonotonic(jobs)), None), m)
  }

  lemma OverlapIsUnique(jobs: seq<Job>, m: int, n: int)
    requires ObservedOverlap(jobs, m) && ObservedOverlap(jobs, n)
    ensures m == n
  {
  }

  method InferenceOverlap(jobs: seq<Job>) returns (maximum: Option<int>)
    ensures maximum.Some? <==> OverlapKnown(jobs)
    ensures maximum.Some? ==> ObservedOverlap(jobs, maximum.value)
  {
    var monotonic := UsesMonotonic(jobs);
    var inferences := Inferences(jobs, monotonic);
    var most, censored := Sweeps.Overlap(inferences, None);
    var missing := exists i :: 0 <= i < |jobs| && Untimed(jobs[i], monotonic);
    maximum := if inferences == [] || censored > 0 || missing then None else Some(most);
  }

  // Where the overlap and the level are known, they are equal.
  ghost predicate OverlapOk(jobs: seq<Job>, level: Option<int>) {
    OverlapKnown(jobs) && level.Some? ==> ObservedOverlap(jobs, level.value)
  }

  method CheckOverlap(jobs: seq<Job>, level: Option<int>) returns (maximum: Option<int>, issues: set<Issue>)
    ensures maximum.Some? <==> OverlapKnown(jobs)
    ensures maximum.Some? ==> ObservedOverlap(jobs, maximum.value)
    ensures issues == {} <==> OverlapOk(jobs, level)
  {
    maximum := InferenceOverlap(jobs);
    issues := {};
    if maximum.Some? && level.Some? {
      issues := Raise(issues, maximum.value > level.value, TooMuchOverlap);
      issues := Raise(issues, maximum.value < level.value, TooLittleOverlap);
      if ObservedOverlap(jobs, level.value) {
        OverlapIsUnique(jobs, maximum.value, level.value);
      }
    }
  }

  // ---- the occupancy of the trial ------------------------------------------------------------------

  // Available exactly for timed inferences, then the time at each number of inferences.
  ghost predicate ObservedOccupancy(r: Sweeps.Occupancy, jobs: seq<Job>, level: Option<int>) {
    var monotonic := UsesMonotonic(jobs);
    var times := Inferences(jobs, monotonic);
    && (r.Available? <==> Sweeps.OccupancyKnown(times, level, AnyUntimed(jobs, monotonic)))
    && (r.Available? ==> Sweeps.OccupancyOf(r, Sweeps.ToIntervals(times), level.value))
  }

  predicate AnyUntimed(jobs: seq<Job>, monotonic: bool) {
    exists i :: 0 <= i < |jobs| && Untimed(jobs[i], monotonic)
  }

  method InferenceOccupancy(jobs: seq<Job>, level: Option<int>) returns (r: Sweeps.Occupancy)
    ensures ObservedOccupancy(r, jobs, level)
  {
    var monotonic := UsesMonotonic(jobs);
    r := Sweeps.InferenceOccupancy(Inferences(jobs, monotonic), level, AnyUntimed(jobs, monotonic));
  }

  // The two figures of one trial agree: where its occupancy is available, its observed
  // overlap is known and is the greatest number of inferences that ran for a positive time.
  lemma OccupancyAgrees(r: Sweeps.Occupancy, jobs: seq<Job>, level: Option<int>, maximum: Option<int>)
    requires ObservedOccupancy(r, jobs, level) && r.Available?
    requires (maximum.Some? <==> OverlapKnown(jobs)) && (maximum.Some? ==> ObservedOverlap(jobs, maximum.value))
    ensures maximum.Some? && Sweeps.Get(r.dwell, maximum.value) > 0.0
    ensures forall k :: Sweeps.Get(r.dwell, k) > 0.0 ==> k <= maximum.value
  {
    var times := Inferences(jobs, UsesMonotonic(jobs));
    Sweeps.SameIntervals(times, None);
    Sweeps.OverlapIsTopLevel(r, times, level.value, None, maximum.value);
  }

  // ---- telemetry coverage ------------------------------------------------------------------------

  // Samples whose wall stamp contradicts the trial's wall interval are left out.
  function Inside(samples: seq<Sample>, raw: RawTrial): seq<Sample> {
    if samples == [] then []
    else
      var last := samples[|samples| - 1];
      var keep := last.epoch.None? || !ValidWall(Wall(raw)) || raw.started.value <= last.epoch.value <= raw.finished.value;
      Inside(samples[..|samples| - 1], raw) + if keep then [last] else []
  }

  predicate HasMonotonic(samples: seq<Sample>) {
    exists i :: 0 <= i < |samples| && samples[i].monotonic.Some?
  }

  function Stamp(sample: Sample, monotonic: bool): Option<real> {
    if monotonic then sample.monotonic else sample.epoch
  }

  // The first sample that carries both stamps ties the two clocks together.
  function Anchor(samples: seq<Sample>): Option<Sample> {
    if samples == [] then None
    else if samples[0].monotonic.Some? && samples[0].epoch.Some? then Some(samples[0])
    else Anchor(samples[1..])
  }

  lemma {:induction false} AnchorHasBoth(samples: seq<Sample>)
    ensures Anchor(samples).Some? ==> Anchor(samples).value.monotonic.Some? && Anchor(samples).value.epoch.Some?
  {
    if samples != [] {
      AnchorHasBoth(samples[1..]);
    }
  }

  // The instant from which offsets are measured.
  function Origin(samples: seq<Sample>, raw: RawTrial): Option<real> {
    AnchorHasBoth(samples);
    if !HasMonotonic(samples) then raw.started
    else if raw.monotonicStart.Some? || raw.started.None? || Anchor(samples).None? then raw.monotonicStart
    else
      var anchor := Anchor(samples).value;
      Some(anchor.monotonic.value - (anchor.epoch.value - raw.started.value))
  }

  function Stamps(samples: seq<Sample>, monotonic: bool): seq<real> {
    if samples == [] then []
    else
      var last := Stamp(samples[|samples| - 1], monotonic);
      Stamps(samples[..|samples| - 1], monotonic) + if last.Some? then [last.value] else []
  }

  method Discontinuities(stamps: seq<real>) returns (n: nat)
    ensures n == 0 <==> Coverage.Increasing(stamps)
  {
    n := 0;
    if stamps != [] {
      for i := 1 to |stamps|
        invariant n == 0 <==> Coverage.Increasing(stamps[..i])
      {
        if stamps[i] <= stamps[i - 1] {
          n := n + 1;
        }
      }
      assert stamps[..|stamps|] == stamps;
    }
  }

  function Rows(samples: seq<Sample>, monotonic: bool, metric: Metric): seq<Coverage.Row> {
    seq(|samples|, i requires 0 <= i < |samples| =>
      Coverage.Row(Stamp(samples[i], monotonic), metric in samples[i].available))
  }

  // Time never stands still, and each required metric covers the trial as the policy asks.
  ghost predicate Covered(samples: seq<Sample>, raw: RawTrial, interval: real, policy: Coverage.Policy) {
    var monotonic := HasMonotonic(samples);
    && Coverage.Increasing(Stamps(samples, monotonic))
    && forall k :: 0 <= k < |REQUIRED| ==> MetricCovered(samples, raw, interval, policy, REQUIRED[k])
  }

  ghost predicate MetricCovered(samples: seq<Sample>, raw: RawTrial, interval: real, policy: Coverage.Policy, metric: Metric) {
    Coverage.Sufficient(Rows(samples, HasMonotonic(samples), metric), Origin(samples, raw), Makespan(raw), interval, policy)
  }

  method CheckCoverage(samples: seq<Sample>, raw: RawTrial, interval: real, policy: Coverage.Policy)
    returns (issues: set<Issue>)
    requires interval > 0.0
    ensures issues == {} <==> Covered(samples, raw, interval, policy)
  {
    var monotonic, origin := HasMonotonic(samples), Origin(samples, raw);
    var discontinuities := Discontinuities(Stamps(samples, monotonic));
    issues := {};
    for k := 0 to |REQUIRED|
      invariant issues == {} <==>
        && (k == 0 || discontinuities == 0)
        && forall j :: 0 <= j < k ==> MetricCovered(samples, raw, interval, policy, REQUIRED[j])
    {
      var m := Coverage.MetricCoverage(Rows(samples, monotonic, REQUIRED[k]), origin, Makespan(raw), interval, policy,
                                       discontinuities);
      issues := Raise(issues, !m.sufficient, LowCoverage);
    }
  }

  // Some required metric never has a value, or no sample has a wall stamp.
  predicate TelemetryMissing(samples: seq<Sample>) {
    || (exists k :: 0 <= k < |REQUIRED| && !(exists i :: 0 <= i < |samples| && REQUIRED[k] in samples[i].available))
    || !(exists i :: 0 <= i < |samples| && samples[i].epoch.Some?)
  }

  // ---- the trial --------------------------------------------------------------------------------

  // Everything a complete trial establishes.
  ghost predicate CompleteEvidence(raw: RawTrial, rows: seq<Job>, samples: seq<Sample>, interval: real, policy: Coverage.Policy) {
    var jobs := Measured(rows);
    && HeaderOk(raw, |jobs|) && DistinctIds(jobs) && (forall i :: 0 <= i < |jobs| ==> JobOk(jobs[i], raw))
    && OverlapOk(jobs, Level(raw.concurrency))
    && raw.telemetryReadable && Covered(Inside(samples, raw), raw, interval, policy)
  }

  // The facts a trial record carries, whether complete or not.
  ghost predicate Recorded(t: Trial, raw: RawTrial) {
    && t.id == raw.id && t.concurrency == Level(raw.concurrency) && t.dispatchers == Dispatchers(raw.dispatchers)
    && t.started == raw.started && t.finished == raw.finished && t.makespan == Makespan(raw) && t.expected == raw.expected
    && DistinctIds(t.jobs) && (t.timingNotes <==> Noted(t.jobs, raw))
    && (t.maximum.Some? <==> OverlapKnown(t.jobs)) && (t.maximum.Some? ==> ObservedOverlap(t.jobs, t.maximum.value))
    && ObservedOccupancy(t.occupancy, t.jobs, t.concurrency)
  }

  // A trial marked as not measured is skipped; any other is complete exactly when its evidence is.
  method Assess(raw: RawTrial, rows: seq<Job>, samples: seq<Sample>, interval: real, policy: Coverage.Policy)
    returns (t: Option<Trial>)
    requires interval > 0.0
    ensures t.Some? <==> raw.measured
    ensures t.Some? ==> Recorded(t.value, raw)
    ensures t.Some? ==> (t.value.Complete() <==> CompleteEvidence(raw, rows, samples, interval, policy))
    ensures t.Some? && t.value.Complete() ==> t.value.jobs == Measured(rows)
    ensures t.Some? ==> (t.value.telemetryMissing <==> TelemetryMissing(Inside(samples, raw)))
  {
    if !raw.measured {
      return None;
    }
    var jobs, identity := MeasuredJobs(rows);
    var header := CheckHeader(raw, |jobs|);
    var each, notes := CheckJobs(jobs, raw);
    var maximum, overlap := CheckOverlap(jobs, Level(raw.concurrency));
    var occupancy := InferenceOccupancy(jobs, Level(raw.concurrency));
    var kept := Inside(samples, raw);
    var coverage := CheckCoverage(kept, raw, interval, policy);
    var telemetry := Raise({}, !raw.telemetryReadable, BadTelemetryFile);
    var issues := identity + header + each + overlap + telemetry + coverage;
    t := Some(Trial(raw.id, Level(raw.concurrency), Dispatchers(raw.dispatchers), raw.started, raw.finished,
                    Makespan(raw), raw.expected, jobs, maximum, occupancy, issues, notes, TelemetryMissing(kept)));
  }

  // What later steps need of a complete trial.
  ghost predicate Consistent(t: Trial) {
    && (t.maximum.Some? <==> OverlapKnown(t.jobs)) && (t.maximum.Some? ==> ObservedOverlap(t.jobs, t.maximum.value))
    && (t.Complete() ==>
          && t.concurrency.Some? && t.concurrency.value >= 1 && t.dispatchers.Some?
          && t.makespan.Some? && t.makespan.value > 0.0 && t.jobs != []
          && (t.maximum.Some? ==> t.maximum.value == t.concurrency.value)
          && (!t.timingNotes ==> ValidWall(Sweeps.JobTimes(t.started, t.finished))))
  }
}
