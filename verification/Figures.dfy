// The figures of a group of trials (spark_bench/analysis.py, _stats and _aggregate).
module Figures {
  import opened Wrappers
  import opened Trials
  import Sorting

  type Input = (string, string)

  function InputOf(job: Job): Input {
    (if job.workload.Some? then job.workload.value else "unknown", if job.seed.Some? then job.seed.value else "None")
  }

  // The multiset of inputs a trial ran identifies its corpus.
  function CorpusOf(jobs: seq<Job>): multiset<Input> {
    if jobs == [] then multiset{}
    else CorpusOf(jobs[..|jobs| - 1]) + multiset{InputOf(jobs[|jobs| - 1])}
  }

  function Workloads(corpus: multiset<Input>): set<string> {
    set input | input in corpus :: input.0
  }

  // ---- sums over trials --------------------------------------------------------------------------

  function Jobs(trials: seq<Trial>): seq<Job> {
    if trials == [] then [] else Jobs(trials[..|trials| - 1]) + trials[|trials| - 1].jobs
  }

  function Successful(jobs: seq<Job>): seq<Job> {
    if jobs == [] then []
    else Successful(jobs[..|jobs| - 1]) + if FailureOf(jobs[|jobs| - 1]).None? then [jobs[|jobs| - 1]] else []
  }

  function TotalMakespan(trials: seq<Trial>): Option<real> {
    if trials == [] then Some(0.0)
    else
      var rest, last := TotalMakespan(trials[..|trials| - 1]), trials[|trials| - 1].makespan;
      if rest.None? || last.None? then None else Some(rest.value + last.value)
  }

  function JobsPerHour(trials: seq<Trial>): Option<real> {
    var makespan := TotalMakespan(trials);
    if makespan.None? || makespan.value == 0.0 then None
    else Some(|Successful(Jobs(trials))| as real * 3600.0 / makespan.value)
  }

  // Unknown without jobs, else the share of the jobs that did not succeed.
  function FailureRate(trials: seq<Trial>): (r: Option<real>)
    ensures r.Some? <==> Jobs(trials) != []
    ensures r.Some? ==> 0.0 <= r.value <= 1.0
    ensures r == Some(0.0) <==> Jobs(trials) != [] && forall job :: job in Jobs(trials) ==> FailureOf(job).None?
  {
    var jobs := Jobs(trials);
    SuccessfulAreSome(jobs);
    if jobs == [] then None
    else
      var failed := |jobs| - |Successful(jobs)|;
      ShareOfAll(failed, |jobs|);
      Some(failed as real / |jobs| as real)
  }

  lemma {:induction false} SuccessfulAreSome(jobs: seq<Job>)
    ensures |Successful(jobs)| <= |jobs|
    ensures |Successful(jobs)| == |jobs| <==> forall job :: job in jobs ==> FailureOf(job).None?
  {
    if jobs != [] {
      var front, last := jobs[..|jobs| - 1], jobs[|jobs| - 1];
      SuccessfulAreSome(front);
      assert jobs == front + [last];
    }
  }

  lemma ShareOfAll(part: nat, all: nat)
    requires part <= all && all > 0
    ensures 0.0 <= part as real / all as real <= 1.0
    ensures part as real / all as real == 0.0 <==> part == 0
  {
    var share := part as real / all as real;
    assert share * all as real == part as real;
  }

  function CompleteCount(trials: seq<Trial>): nat {
    if trials == [] then 0
    else CompleteCount(trials[..|trials| - 1]) + if trials[|trials| - 1].Complete() then 1 else 0
  }

  // The greatest observed overlap of the group; unknown as soon as one trial's is.
  function MaximumObserved(trials: seq<Trial>): Option<int>
    requires trials != []
  {
    var last := trials[|trials| - 1].maximum;
    if |trials| == 1 || last.None? then last
    else
      var rest := MaximumObserved(trials[..|trials| - 1]);
      if rest.None? || rest.value >= last.value then rest else last
  }

  lemma {:induction false} MaximumObservedIs(trials: seq<Trial>)
    requires trials != []
    ensures MaximumObserved(trials).Some? <==> forall i :: 0 <= i < |trials| ==> trials[i].maximum.Some?
    ensures MaximumObserved(trials).Some? ==>
              && (forall i :: 0 <= i < |trials| ==> trials[i].maximum.value <= MaximumObserved(trials).value)
              && (exists i :: 0 <= i < |trials| && trials[i].maximum == MaximumObserved(trials))
  {
    if |trials| > 1 {
      var front := trials[..|trials| - 1];
      MaximumObservedIs(front);
      assert forall i :: 0 <= i < |front| ==> trials[i] == front[i];
    }
  }

  // ---- latencies ------------------------------------------------------------------------------------

  function LatencyOf(job: Job): (r: Option<real>)
    ensures r.Some? ==> r.value >= 0.0
  {
    if job.latency.Some? && job.latency.value >= 0.0 then job.latency
    else if ValidWall(job.wall) then Some(job.wall.finish.value - job.wall.start.value)
    else None
  }

  function Latencies(jobs: seq<Job>): seq<real> {
    if jobs == [] then []
    else
      var last := LatencyOf(jobs[|jobs| - 1]);
      Latencies(jobs[..|jobs| - 1]) + if last.Some? then [last.value] else []
  }

  predicate NoGreater(a: real, b: real) {
    a <= b
  }

  function Sort(xs: seq<real>): seq<real> {
    Sorting.Sort(xs, NoGreater)
  }

  ghost predicate Ascending(xs: seq<real>) {
    forall i, j :: 0 <= i < j < |xs| ==> xs[i] <= xs[j]
  }

  // Linear interpolation between the order statistics on either side of the index.
  function Percentile(values: seq<real>, fraction: real): real
    requires values != [] && 0.0 <= fraction < 1.0
  {
    IndexInRange(|values|, fraction);
    var index := (|values| - 1) as real * fraction;
    var low := index.Floor;
    var high := if low + 1 < |values| then low + 1 else |values| - 1;
    values[low] + (values[high] - values[low]) * (index - low as real)
  }

  lemma IndexInRange(n: nat, fraction: real)
    requires n > 0 && 0.0 <= fraction < 1.0
    ensures 0 <= ((n - 1) as real * fraction).Floor < n
  {
    var k := (n - 1) as real;
    assert k * fraction >= 0.0;
    assert k * (1.0 - fraction) >= 0.0;
    assert k * fraction <= k;
  }

  function Sorted(values: seq<real>): (r: seq<real>)
    ensures r == Sort(values) && |r| == |values| && Ascending(r)
  {
    SortIsAscending(values);
    Sort(values)
  }

  function P95(values: seq<real>): Option<real> {
    if values == [] then None else Some(Percentile(Sorted(values), 0.95))
  }

  function AtMost(xs: seq<real>, x: real): nat {
    if xs == [] then 0 else AtMost(xs[..|xs| - 1], x) + if xs[|xs| - 1] <= x then 1 else 0
  }

  function LessThan(xs: seq<real>, x: real): nat {
    if xs == [] then 0 else LessThan(xs[..|xs| - 1], x) + if xs[|xs| - 1] < x then 1 else 0
  }

  lemma {:induction false} InsertKeepsCounts(xs: seq<real>, x: real)
    ensures forall y :: AtMost(Sorting.Insert(xs, x, NoGreater), y) == AtMost(xs, y) + if x <= y then 1 else 0
    ensures forall y :: LessThan(Sorting.Insert(xs, x, NoGreater), y) == LessThan(xs, y) + if x < y then 1 else 0
  {
    if xs == [] || xs[|xs| - 1] <= x {
      assert (xs + [x])[..|xs|] == xs;
    } else {
      var r := Sorting.Insert(xs[..|xs| - 1], x, NoGreater);
      InsertKeepsCounts(xs[..|xs| - 1], x);
      assert (r + [xs[|xs| - 1]])[..|r|] == r;
    }
  }

  lemma SortIsAscending(xs: seq<real>)
    ensures Ascending(Sort(xs)) && |Sort(xs)| == |xs|
    ensures forall y :: y in Sort(xs) <==> y in xs
  {
    assert Sorting.TotalOrder(NoGreater);
    Sorting.SortOrders(xs, NoGreater);
    Sorting.SortMembers(xs, NoGreater);
  }

  lemma {:induction false} SortKeepsCounts(xs: seq<real>, y: real)
    ensures AtMost(Sort(xs), y) == AtMost(xs, y) && LessThan(Sort(xs), y) == LessThan(xs, y)
  {
    if xs != [] {
      SortKeepsCounts(xs[..|xs| - 1], y);
      InsertKeepsCounts(Sort(xs[..|xs| - 1]), xs[|xs| - 1]);
    }
  }

  lemma {:induction false} AtMostFrom(values: seq<real>, k: nat, p: real)
    requires Ascending(values) && k < |values| && values[k] <= p
    ensures AtMost(values, p) >= k + 1
  {
    if k < |values| - 1 {
      AtMostFrom(values[..|values| - 1], k, p);
    } else if k > 0 {
      AtMostFrom(values[..|values| - 1], k - 1, p);
    }
  }

  lemma {:induction false} LessThanUpTo(values: seq<real>, k: nat, p: real)
    requires Ascending(values) && k < |values| && p <= values[k]
    ensures LessThan(values, p) <= k
  {
    if k < |values| - 1 {
      LessThanUpTo(values[..|values| - 1], k, p);
    } else {
      LessThanBound(values[..|values| - 1], p);
    }
  }

  lemma {:induction false} LessThanBound(values: seq<real>, p: real)
    ensures LessThan(values, p) <= |values|
  {
    if values != [] {
      LessThanBound(values[..|values| - 1], p);
    }
  }

  lemma Interpolated(a: real, b: real, share: real)
    requires a <= b && 0.0 <= share < 1.0
    ensures a <= a + (b - a) * share <= b
  {
    NonNegativeTimes(b - a, share);
    NonNegativeTimes(b - a, 1.0 - share);
    assert (b - a) * (1.0 - share) == (b - a) - (b - a) * share;
  }

  lemma NonNegativeTimes(a: real, b: real)
    requires a >= 0.0 && b >= 0.0
    ensures a * b >= 0.0
  {
  }

  lemma PercentileBetween(values: seq<real>, fraction: real) returns (low: nat, high: nat)
    requires Ascending(values) && values != [] && 0.0 <= fraction < 1.0
    ensures low <= high < |values| && high <= low + 1
    ensures low as real <= (|values| - 1) as real * fraction < low as real + 1.0
    ensures values[low] <= Percentile(values, fraction) <= values[high]
  {
    IndexInRange(|values|, fraction);
    var index := (|values| - 1) as real * fraction;
    low := index.Floor;
    high := if low + 1 < |values| then low + 1 else |values| - 1;
    Interpolated(values[low], values[high], index - low as real);
  }

  // More than `index` of the values are at most p, and at most index + 1 are below it.
  ghost predicate Splits(values: seq<real>, p: real, index: real) {
    AtMost(values, p) as real > index && LessThan(values, p) as real <= index + 1.0
  }

  lemma SplitsAt(values: seq<real>, low: nat, high: nat, p: real, index: real)
    requires Ascending(values) && low <= high < |values| && high <= low + 1 && values[low] <= p <= values[high]
    requires low as real <= index < low as real + 1.0
    ensures Splits(values, p, index)
  {
    AtMostFrom(values, low, p);
    LessThanUpTo(values, high, p);
  }

  // A percentile at a fraction f of n values splits them at the index f (n - 1).
  lemma PercentileSplits(values: seq<real>, fraction: real, index: real)
    requires Ascending(values) && values != [] && 0.0 <= fraction < 1.0 && index == (|values| - 1) as real * fraction
    ensures Splits(values, Percentile(values, fraction), index)
  {
    var low, high := PercentileBetween(values, fraction);
    SplitsAt(values, low, high, Percentile(values, fraction), index);
  }

  lemma SortKeepsSplits(xs: seq<real>, p: real, index: real)
    ensures Splits(Sort(xs), p, index) <==> Splits(xs, p, index)
  {
    SortKeepsCounts(xs, p);
  }

  lemma P95Splits(xs: seq<real>, index: real)
    requires xs != [] && index == (|xs| - 1) as real * 0.95
    ensures P95(xs).Some? && Splits(xs, P95(xs).value, index)
  {
    PercentileSplits(Sorted(xs), 0.95, index);
    SortKeepsSplits(xs, P95(xs).value, index);
  }

  // ---- audio lengths ----------------------------------------------------------------------------------

  predicate HasAudio(job: Job, input: Input) {
    FailureOf(job).None? && job.audio.Some? && job.audio.value >= 0.0 && InputOf(job) == input
  }

  function AudioCount(jobs: seq<Job>, input: Input): nat {
    if jobs == [] then 0
    else AudioCount(jobs[..|jobs| - 1], input) + if HasAudio(jobs[|jobs| - 1], input) then 1 else 0
  }

  function AudioTotal(jobs: seq<Job>, input: Input): real {
    if jobs == [] then 0.0
    else
      var last := jobs[|jobs| - 1];
      AudioTotal(jobs[..|jobs| - 1], input) + if HasAudio(last, input) then last.audio.value else 0.0
  }

  function MeanAudio(jobs: seq<Job>, input: Input): Option<real> {
    var n := AudioCount(jobs, input);
    if n == 0 then None else Some(AudioTotal(jobs, input) / n as real)
  }

  function Inputs(jobs: seq<Job>): set<Input> {
    set job | job in jobs :: InputOf(job)
  }

  // The mean audio length of the successful jobs of each input.
  function AudioMeans(jobs: seq<Job>): map<Input, real> {
    map input | input in Inputs(jobs) && MeanAudio(jobs, input).Some? :: MeanAudio(jobs, input).value
  }

  // ---- one group of trials ----------------------------------------------------------------------------

  // The figures of the trials of one cohort at one level; clean when no trial has an issue.
  datatype Comparison = Comparison(
    trials: seq<Trial>, complete: nat, clean: bool, rate: Option<real>, p95: Option<real>,
    failureRate: Option<real>, maximum: Option<int>, audio: map<Input, real>)

  function GroupP95(trials: seq<Trial>): Option<real> {
    P95(Latencies(Successful(Jobs(trials))))
  }

  function Observed(trials: seq<Trial>): Option<int> {
    if trials == [] then None else MaximumObserved(trials)
  }

  function Aggregate(trials: seq<Trial>): Comparison {
    Comparison(trials, CompleteCount(trials), AllComplete(trials), JobsPerHour(trials), GroupP95(trials),
               FailureRate(trials), Observed(trials), AudioMeans(Jobs(trials)))
  }

  // ---- signs ------------------------------------------------------------------------------------------

  ghost predicate AllConsistent(trials: seq<Trial>) {
    forall i :: 0 <= i < |trials| ==> Consistent(trials[i])
  }

  predicate AllComplete(trials: seq<Trial>) {
    forall i :: 0 <= i < |trials| ==> trials[i].Complete()
  }

  lemma {:induction false} MakespanPositive(trials: seq<Trial>)
    requires AllConsistent(trials) && AllComplete(trials)
    ensures TotalMakespan(trials).Some?
    ensures if trials == [] then TotalMakespan(trials).value == 0.0 else TotalMakespan(trials).value > 0.0
  {
    if trials != [] {
      MakespanPositive(trials[..|trials| - 1]);
    }
  }

  lemma RateNonNegative(trials: seq<Trial>)
    requires AllConsistent(trials) && AllComplete(trials) && trials != []
    ensures JobsPerHour(trials).Some? && JobsPerHour(trials).value >= 0.0
  {
    MakespanPositive(trials);
  }

  lemma {:induction false} LatenciesNonNegative(jobs: seq<Job>)
    ensures forall x :: x in Latencies(jobs) ==> x >= 0.0
  {
    if jobs != [] {
      LatenciesNonNegative(jobs[..|jobs| - 1]);
    }
  }

  lemma P95NonNegative(jobs: seq<Job>)
    ensures P95(Latencies(jobs)).Some? ==> P95(Latencies(jobs)).value >= 0.0
  {
    var xs := Latencies(jobs);
    if xs != [] {
      LatenciesNonNegative(jobs);
      SortIsAscending(xs);
      var low, high := PercentileBetween(Sort(xs), 0.95);
      assert Sort(xs)[low] in Sort(xs);
    }
  }
}
