// Concurrency seen in recorded start and finish times (spark_bench/analysis.py).
//
// Depth is the pointwise meaning: how many half-open job intervals contain an
// instant. Both sweeps of the analysis are proved against it.
//
// An interval contains its start and not its finish, so a job that starts when
// another one finishes does not overlap it. The lemmas say that depth is positive
// exactly inside some interval, and never above the number of intervals.
module Intervals {
  datatype Interval = Interval(start: real, finish: real) {
    predicate Contains(x: real) { start <= x < finish }
  }

  ghost predicate AllProper(jobs: seq<Interval>) {
    forall i :: 0 <= i < |jobs| ==> jobs[i].start < jobs[i].finish
  }

  function Depth(jobs: seq<Interval>, x: real): nat {
    if jobs == [] then 0
    else Depth(jobs[..|jobs| - 1], x) + (if jobs[|jobs| - 1].Contains(x) then 1 else 0)
  }

  ghost function DepthOf(jobs: seq<Interval>): real -> int {
    x => Depth(jobs, x)
  }

  function TotalDuration(jobs: seq<Interval>): real {
    if jobs == [] then 0.0
    else TotalDuration(jobs[..|jobs| - 1]) + (jobs[|jobs| - 1].finish - jobs[|jobs| - 1].start)
  }

  ghost predicate IsEndpoint(jobs: seq<Interval>, t: real) {
    exists i :: 0 <= i < |jobs| && (jobs[i].start == t || jobs[i].finish == t)
  }

  ghost predicate IsFirstStart(jobs: seq<Interval>, a: real) {
    && (exists i :: 0 <= i < |jobs| && jobs[i].start == a)
    && (forall i :: 0 <= i < |jobs| ==> a <= jobs[i].start)
  }

  ghost predicate IsLastFinish(jobs: seq<Interval>, b: real) {
    && (exists i :: 0 <= i < |jobs| && jobs[i].finish == b)
    && (forall i :: 0 <= i < |jobs| ==> jobs[i].finish <= b)
  }

  lemma {:induction false} DepthIsBounded(jobs: seq<Interval>, x: real)
    ensures Depth(jobs, x) <= |jobs|
  {
    if jobs != [] { DepthIsBounded(jobs[..|jobs| - 1], x); }
  }

  lemma {:induction false} DepthPositiveInside(jobs: seq<Interval>, x: real) returns (i: nat)
    requires Depth(jobs, x) > 0
    ensures i < |jobs| && jobs[i].Contains(x)
  {
    if jobs[|jobs| - 1].Contains(x) {
      i := |jobs| - 1;
    } else {
      i := DepthPositiveInside(jobs[..|jobs| - 1], x);
    }
  }

  lemma {:induction false} InsideIsPositive(jobs: seq<Interval>, x: real, i: nat)
    requires i < |jobs| && jobs[i].Contains(x)
    ensures Depth(jobs, x) > 0
  {
    if i < |jobs| - 1 { InsideIsPositive(jobs[..|jobs| - 1], x, i); }
  }
}
