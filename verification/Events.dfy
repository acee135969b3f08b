// Time-stamped changes of the running count, and the sums a sweep takes of them
// (spark_bench/analysis.py, _overlap and _inference_occupancy).
//
// A start adds one at its instant and a finish takes one away. A list of changes stands
// for a list of job intervals when, at every instant, the changes up to it sum to the
// number of intervals open there; weighed by age they then sum to the total duration.
// These sums do not depend on the order of the list, so they survive sorting, and merging
// the changes of one instant into one keeps them.
module Events {
  import opened Intervals
  import Sorting

  datatype Event = Event(time: real, delta: int)

  function Net(es: seq<Event>): int {
    if es == [] then 0 else Net(es[..|es| - 1]) + es[|es| - 1].delta
  }

  // Sum of the changes at or before x.
  function UpTo(es: seq<Event>, x: real): int {
    if es == [] then 0
    else UpTo(es[..|es| - 1], x) + (if es[|es| - 1].time <= x then es[|es| - 1].delta else 0)
  }

  // Sum of each change times its age at x.
  function Moment(es: seq<Event>, x: real): real {
    if es == [] then 0.0
    else Moment(es[..|es| - 1], x) + es[|es| - 1].delta as real * (x - es[|es| - 1].time)
  }

  ghost predicate HasTime(es: seq<Event>, t: real) {
    exists i :: 0 <= i < |es| && es[i].time == t
  }

  // The changes describe these jobs: they sum to the depth at every instant and,
  // weighed by age, to the total duration.
  ghost predicate Represents(es: seq<Event>, jobs: seq<Interval>) {
    && Net(es) == 0
    && (forall x :: UpTo(es, x) == Depth(jobs, x))
    && (forall x :: Moment(es, x) == TotalDuration(jobs))
    && (forall t :: HasTime(es, t) <==> IsEndpoint(jobs, t))
  }

  predicate Before(a: Event, b: Event) {
    a.time < b.time || (a.time == b.time && a.delta <= b.delta)
  }

  ghost predicate Sorted(es: seq<Event>) {
    forall i, j :: 0 <= i < j < |es| ==> Before(es[i], es[j])
  }

  ghost predicate DistinctTimes(es: seq<Event>) {
    forall i, j :: 0 <= i < j < |es| ==> es[i].time != es[j].time
  }

  // fs is es with the change e added somewhere.
  ghost predicate Adds(es: seq<Event>, fs: seq<Event>, e: Event) {
    && Net(fs) == Net(es) + e.delta
    && (forall x :: UpTo(fs, x) == UpTo(es, x) + (if e.time <= x then e.delta else 0))
    && (forall x :: Moment(fs, x) == Moment(es, x) + e.delta as real * (x - e.time))
    && (forall t :: HasTime(fs, t) <==> HasTime(es, t) || t == e.time)
  }

  lemma AppendAdds(es: seq<Event>, e: Event)
    ensures Adds(es, es + [e], e)
  {
  }

  lemma AddsBelow(es: seq<Event>, fs: seq<Event>, e: Event, last: Event)
    requires Adds(es, fs, e)
    ensures Adds(es + [last], fs + [last], e)
  {
    AppendAdds(es, last);
    AppendAdds(fs, last);
  }

  // The dict update events[t] += d: a new key goes last.
  function Bump(es: seq<Event>, t: real, d: int): seq<Event> {
    if es == [] then [Event(t, d)]
    else
      var last := es[|es| - 1];
      if last.time == t then es[..|es| - 1] + [Event(t, last.delta + d)]
      else if HasKey(es[..|es| - 1], t) then Bump(es[..|es| - 1], t, d) + [last]
      else es + [Event(t, d)]
  }

  predicate HasKey(es: seq<Event>, t: real) {
    es != [] && (es[|es| - 1].time == t || HasKey(es[..|es| - 1], t))
  }

  lemma {:induction false} HasKeyIsHasTime(es: seq<Event>, t: real)
    ensures HasKey(es, t) <==> HasTime(es, t)
  {
    if es != [] {
      HasKeyIsHasTime(es[..|es| - 1], t);
      AppendAdds(es[..|es| - 1], es[|es| - 1]);
      assert es == es[..|es| - 1] + [es[|es| - 1]];
    }
  }

  // Bumping a key changes every sum exactly as appending the change would.
  lemma {:induction false} BumpAdds(es: seq<Event>, t: real, d: int)
    ensures Adds(es, Bump(es, t, d), Event(t, d))
  {
    if es == [] {
      AppendAdds([], Event(t, d));
      assert [] + [Event(t, d)] == Bump(es, t, d);
    } else {
      var front, last := es[..|es| - 1], es[|es| - 1];
      assert es == front + [last];
      if last.time == t {
        MergeAdds(front, last, d);
      } else if HasKey(front, t) {
        BumpAdds(front, t, d);
        AddsBelow(front, Bump(front, t, d), Event(t, d), last);
      } else {
        AppendAdds(es, Event(t, d));
      }
    }
  }

  lemma MergeAdds(front: seq<Event>, last: Event, d: int)
    ensures Adds(front + [last], front + [Event(last.time, last.delta + d)], Event(last.time, d))
  {
  }

  lemma {:induction false} BumpKeepsDistinct(es: seq<Event>, t: real, d: int)
    requires DistinctTimes(es)
    ensures DistinctTimes(Bump(es, t, d))
  {
    if es != [] {
      var front, last := es[..|es| - 1], es[|es| - 1];
      if last.time != t {
        if HasKey(front, t) {
          BumpKeepsTimes(front, t, d);
        } else {
          HasKeyIsHasTime(es, t);
          assert !HasTime(es, t);
        }
      }
    }
  }

  lemma {:induction false} BumpKeepsTimes(es: seq<Event>, t: real, d: int)
    requires HasKey(es, t)
    ensures |Bump(es, t, d)| == |es|
    ensures forall i :: 0 <= i < |es| ==> Bump(es, t, d)[i].time == es[i].time
  {
    if es[|es| - 1].time != t {
      BumpKeepsTimes(es[..|es| - 1], t, d);
    }
  }

  // Python's sorted on (time, delta) pairs.
  function Sort(es: seq<Event>): seq<Event> {
    Sorting.Sort(es, Before)
  }

  lemma {:induction false} InsertAdds(es: seq<Event>, e: Event)
    ensures Adds(es, Sorting.Insert(es, e, Before), e)
  {
    if es == [] || Before(es[|es| - 1], e) {
      AppendAdds(es, e);
    } else {
      var front, last := es[..|es| - 1], es[|es| - 1];
      assert es == front + [last];
      InsertAdds(front, e);
      AddsBelow(front, Sorting.Insert(front, e, Before), e, last);
    }
  }

  lemma SortSorts(es: seq<Event>)
    ensures Sorted(Sort(es)) && |Sort(es)| == |es|
  {
    assert Sorting.TotalOrder(Before);
    Sorting.SortOrders(es, Before);
    Sorting.SortMembers(es, Before);
  }

  lemma {:induction false} SortKeepsSums(es: seq<Event>)
    ensures Net(Sort(es)) == Net(es)
    ensures forall x :: UpTo(Sort(es), x) == UpTo(es, x)
    ensures forall x :: Moment(Sort(es), x) == Moment(es, x)
    ensures forall t :: HasTime(Sort(es), t) <==> HasTime(es, t)
  {
    if es != [] {
      var front, last := es[..|es| - 1], es[|es| - 1];
      assert es == front + [last];
      SortKeepsSums(front);
      InsertAdds(Sort(front), last);
      AppendAdds(front, last);
    }
  }

  lemma LastIsNew(es: seq<Event>)
    requires es != [] && DistinctTimes(es)
    ensures !HasTime(es[..|es| - 1], es[|es| - 1].time)
  {
  }

  lemma {:induction false} InsertKeepsDistinct(es: seq<Event>, e: Event)
    requires DistinctTimes(es) && !HasTime(es, e.time)
    ensures DistinctTimes(Sorting.Insert(es, e, Before))
  {
    if es == [] || Before(es[|es| - 1], e) {
    } else {
      var front, last := es[..|es| - 1], es[|es| - 1];
      InsertKeepsDistinct(front, e);
      InsertAdds(front, e);
      LastIsNew(es);
      assert !HasTime(Sorting.Insert(front, e, Before), last.time);
    }
  }

  lemma {:induction false} SortKeepsDistinct(es: seq<Event>)
    requires DistinctTimes(es)
    ensures DistinctTimes(Sort(es))
  {
    if es != [] {
      var front, last := es[..|es| - 1], es[|es| - 1];
      SortKeepsDistinct(front);
      SortKeepsSums(front);
      LastIsNew(es);
      InsertKeepsDistinct(Sort(front), last);
    }
  }

  // In sorted order, the changes at or before x are a prefix.
  lemma {:induction false} UpToIsPrefix(es: seq<Event>, i: nat, x: real)
    requires i <= |es|
    requires forall j :: 0 <= j < i ==> es[j].time <= x
    requires forall j :: i <= j < |es| ==> x < es[j].time
    ensures UpTo(es, x) == Net(es[..i])
  {
    if es != [] {
      var front := es[..|es| - 1];
      if i < |es| {
        UpToIsPrefix(front, i, x);
        assert front[..i] == es[..i];
      } else {
        UpToIsPrefix(front, |front|, x);
        assert front[..|front|] == front;
        assert es[..i] == es;
      }
    }
  }

  lemma {:induction false} MomentMoves(es: seq<Event>, x: real, y: real)
    ensures Moment(es, y) == Moment(es, x) + Net(es) as real * (y - x)
  {
    if es != [] {
      var d, t := es[|es| - 1].delta as real, es[|es| - 1].time;
      MomentMoves(es[..|es| - 1], x, y);
      assert d * (y - t) == d * (x - t) + d * (y - x);
      assert Net(es) as real * (y - x) == Net(es[..|es| - 1]) as real * (y - x) + d * (y - x);
    }
  }
}
