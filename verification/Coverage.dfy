// Telemetry coverage of a trial (spark_bench/analysis.py, _telemetry_coverage).
//
// Each sample supports half an interval on either side, clipped to the trial.
// The loop's total is the length of the union of those supports.
module Coverage {
  import opened Wrappers
  import opened Tilings

  // One telemetry row for one metric: its stamp and whether the metric has a value.
  datatype Row = Row(stamp: Option<real>, available: bool)

  datatype Policy = Policy(minFraction: real, minSamples: nat, maxGapIntervals: real)

  datatype Metric = Metric(valid: seq<real>, covered: Option<real>, fraction: Option<real>,
                           maximumGap: Option<real>, sufficient: bool)

  function Left(stamp: real, interval: real): real {
    if stamp - interval / 2.0 > 0.0 then stamp - interval / 2.0 else 0.0
  }

  function Right(stamp: real, interval: real, duration: real): real {
    if stamp + interval / 2.0 < duration then stamp + interval / 2.0 else duration
  }

  ghost predicate Supported(valid: seq<real>, interval: real, duration: real, x: real) {
    exists i :: 0 <= i < |valid| && Left(valid[i], interval) <= x < Right(valid[i], interval, duration)
  }

  // 1 where some sample's support covers the instant, 0 elsewhere.
  ghost function Support(valid: seq<real>, interval: real, duration: real): real -> int {
    x => if Supported(valid, interval, duration, x) then 1 else 0
  }

  ghost predicate Increasing(xs: seq<real>) {
    forall i, j :: 0 <= i < j < |xs| ==> xs[i] < xs[j]
  }

  ghost predicate Within(xs: seq<real>, duration: real) {
    forall i :: 0 <= i < |xs| ==> 0.0 <= xs[i] <= duration
  }

  // ---- valid samples ---------------------------------------------------------

  predicate IsValid(row: Row, origin: Option<real>, duration: Option<real>) {
    && row.available && row.stamp.Some? && origin.Some? && duration.Some?
    && 0.0 <= row.stamp.value - origin.value <= duration.value
  }

  // sorted(set(xs + [x])) for an increasing xs
  function InsertUnique(xs: seq<real>, x: real): seq<real> {
    if xs == [] || xs[|xs| - 1] < x then xs + [x]
    else if xs[|xs| - 1] == x then xs
    else InsertUnique(xs[..|xs| - 1], x) + [xs[|xs| - 1]]
  }

  lemma {:induction false} InsertUniqueSorts(xs: seq<real>, x: real)
    requires Increasing(xs)
    ensures Increasing(InsertUnique(xs, x))
    ensures forall y :: y in InsertUnique(xs, x) <==> y in xs || y == x
  {
    if xs == [] || xs[|xs| - 1] <= x {
    } else {
      var front, last := xs[..|xs| - 1], xs[|xs| - 1];
      InsertUniqueSorts(front, x);
      assert xs == front + [last];
      var r := InsertUnique(front, x);
      forall i | 0 <= i < |r| ensures r[i] < last {
        assert r[i] in r;
        if r[i] in front {
          var j :| 0 <= j < |front| && front[j] == r[i];
          assert xs[j] < xs[|xs| - 1];
        }
      }
      assert InsertUnique(xs, x) == r + [last];
    }
  }

  // The distinct offsets of the valid rows from the trial's origin, in order.
  ghost predicate AreOffsets(valid: seq<real>, rows: seq<Row>, origin: Option<real>, duration: Option<real>) {
    && Increasing(valid)
    && (forall x :: x in valid <==>
          exists i :: 0 <= i < |rows| && IsValid(rows[i], origin, duration) && x == rows[i].stamp.value - origin.value)
  }

  method ValidOffsets(rows: seq<Row>, origin: Option<real>, duration: Option<real>) returns (valid: seq<real>)
    ensures AreOffsets(valid, rows, origin, duration)
  {
    valid := [];
    for i := 0 to |rows|
      invariant Increasing(valid)
      invariant forall x :: x in valid <==>
        exists j :: 0 <= j < i && IsValid(rows[j], origin, duration) && x == rows[j].stamp.value - origin.value
    {
      if IsValid(rows[i], origin, duration) {
        InsertUniqueSorts(valid, rows[i].stamp.value - origin.value);
        valid := InsertUnique(valid, rows[i].stamp.value - origin.value);
      }
    }
  }

  lemma {:induction false} IncreasingIsUnique(xs: seq<real>, ys: seq<real>)
    requires Increasing(xs) && Increasing(ys) && forall x :: x in xs <==> x in ys
    ensures xs == ys
  {
    if xs != [] && ys != [] {
      var last := xs[|xs| - 1];
      assert last in ys && ys[|ys| - 1] in xs;
      assert last == ys[|ys| - 1];
      var front, others := xs[..|xs| - 1], ys[..|ys| - 1];
      forall x ensures x in front <==> x in others {
        InFront(xs, x);
        InFront(ys, x);
      }
      IncreasingIsUnique(front, others);
      assert xs == front + [last] && ys == others + [last];
    } else {
      BothEmpty(xs, ys);
    }
  }

  lemma BothEmpty(xs: seq<real>, ys: seq<real>)
    requires xs == [] || ys == []
    requires forall x :: x in xs <==> x in ys
    ensures xs == [] && ys == []
  {
    HasMember(xs);
    HasMember(ys);
  }

  lemma HasMember(xs: seq<real>)
    ensures xs != [] ==> exists x :: x in xs
  {
    if xs != [] {
      var x := xs[0];
      assert x in xs;
    }
  }

  lemma InFront(xs: seq<real>, x: real)
    requires Increasing(xs) && xs != []
    ensures x in xs[..|xs| - 1] <==> x in xs && x != xs[|xs| - 1]
  {
  }

  // ---- the union of supports ---------------------------------------------------

  // n intervals end to end
  function Repeated(n: nat, interval: real): real {
    if n == 0 then 0.0 else Repeated(n - 1, interval) + interval
  }

  lemma {:induction false} RepeatedIsProduct(n: nat, interval: real)
    ensures Repeated(n, interval) == n as real * interval
  {
    if n > 0 {
      RepeatedIsProduct(n - 1, interval);
      assert n as real * interval == (n - 1) as real * interval + interval;
    }
  }

  // The exact length of the union of the supports.
  ghost predicate IsCoveredTime(covered: real, valid: seq<real>, interval: real, duration: real) {
    && (exists t :: Tiles(Support(valid, interval, duration), t, 0.0, duration))
    && covered == TimeAt(Support(valid, interval, duration), 0.0, duration, 1)
  }

  method CoveredTime(valid: seq<real>, interval: real, duration: real) returns (covered: real)
    requires Increasing(valid) && Within(valid, duration) && interval > 0.0 && duration > 0.0
    ensures IsCoveredTime(covered, valid, interval, duration)
  {
    covered := 0.0;
    var previousEnd := 0.0;
    ghost var t: seq<Segment> := [];
    ghost var f := Support(valid, interval, duration);
    for i := 0 to |valid|
      invariant previousEnd == if i == 0 then 0.0 else Right(valid[i - 1], interval, duration)
      invariant Tiles(f, t, 0.0, previousEnd)
      invariant covered == Dwell(t, 1)
    {
      var left, right := Left(valid[i], interval), Right(valid[i], interval, duration);
      ghost var previous := previousEnd;
      t := CoverStep(valid, interval, duration, i, t, previous);
      var from := if left > previousEnd then left else previousEnd;
      covered := covered + (if right > from then right - from else 0.0);
      previousEnd := if right > previousEnd then right else previousEnd;
    }
    t := CoverEnd(valid, interval, duration, t, previousEnd);
    TimeAtIsDwell(f, t, 0.0, duration);
  }

  // The function on an optional segment: nothing to add when it is empty.
  lemma ExtendTo(f: real -> int, t: seq<Segment>, b: real, to: real, level: int) returns (u: seq<Segment>)
    requires Tiles(f, t, 0.0, b) && b <= to
    requires forall x :: b <= x < to ==> f(x) == level
    ensures Tiles(f, u, 0.0, to)
    ensures forall k :: Dwell(u, k) == Dwell(t, k) + (if k == level then to - b else 0.0)
  {
    u := t;
    if b < to {
      TilesExtend(f, t, 0.0, b, Segment(b, to, level));
      u := t + [Segment(b, to, level)];
    }
  }

  lemma CoverStep(valid: seq<real>, interval: real, duration: real, i: nat, t: seq<Segment>, previous: real)
    returns (u: seq<Segment>)
    requires Increasing(valid) && Within(valid, duration) && interval > 0.0 && i < |valid|
    requires previous == if i == 0 then 0.0 else Right(valid[i - 1], interval, duration)
    requires Tiles(Support(valid, interval, duration), t, 0.0, previous)
    ensures var left, right := Left(valid[i], interval), Right(valid[i], interval, duration);
            var from := if left > previous then left else previous;
            && previous <= right && from <= right && right - from <= interval
            && Tiles(Support(valid, interval, duration), u, 0.0, right)
            && Dwell(u, 1) == Dwell(t, 1) + (right - from)
  {
    var f := Support(valid, interval, duration);
    var left, right := Left(valid[i], interval), Right(valid[i], interval, duration);
    var from := if left > previous then left else previous;
    assert i > 0 ==> valid[i - 1] < valid[i];
    forall x | previous <= x < from ensures f(x) == 0 {
      NotSupportedBetween(valid, interval, duration, i, x);
    }
    var gap := ExtendTo(f, t, previous, from, 0);
    forall x | from <= x < right ensures f(x) == 1 {
      assert Left(valid[i], interval) <= x < Right(valid[i], interval, duration);
    }
    u := ExtendTo(f, gap, from, right, 1);
  }

  // Past the support of sample i-1 and before that of sample i, nothing is supported.
  lemma NotSupportedBetween(valid: seq<real>, interval: real, duration: real, i: nat, x: real)
    requires Increasing(valid) && i <= |valid|
    requires i > 0 ==> Right(valid[i - 1], interval, duration) <= x
    requires i < |valid| ==> x < Left(valid[i], interval)
    ensures !Supported(valid, interval, duration, x)
  {
  }

  lemma CoverEnd(valid: seq<real>, interval: real, duration: real, t: seq<Segment>, previous: real)
    returns (u: seq<Segment>)
    requires Increasing(valid) && Within(valid, duration) && interval > 0.0 && duration > 0.0
    requires previous == if valid == [] then 0.0 else Right(valid[|valid| - 1], interval, duration)
    requires Tiles(Support(valid, interval, duration), t, 0.0, previous)
    ensures Tiles(Support(valid, interval, duration), u, 0.0, duration) && Dwell(u, 1) == Dwell(t, 1)
  {
    forall x | previous <= x < duration ensures Support(valid, interval, duration)(x) == 0 {
      NotSupportedBetween(valid, interval, duration, |valid|, x);
    }
    u := ExtendTo(Support(valid, interval, duration), t, previous, duration, 0);
  }

  // The supports tile the trial, and n samples cover at most n intervals of it.
  lemma SupportTiling(valid: seq<real>, interval: real, duration: real) returns (t: seq<Segment>)
    requires Increasing(valid) && Within(valid, duration) && interval > 0.0 && duration > 0.0
    ensures Tiles(Support(valid, interval, duration), t, 0.0, duration)
    ensures Dwell(t, 1) <= Repeated(|valid|, interval)
  {
    t := [];
    var previous := 0.0;
    for i := 0 to |valid|
      invariant previous == if i == 0 then 0.0 else Right(valid[i - 1], interval, duration)
      invariant Tiles(Support(valid, interval, duration), t, 0.0, previous)
      invariant Dwell(t, 1) <= Repeated(i, interval)
    {
      t := CoverStep(valid, interval, duration, i, t, previous);
      previous := Right(valid[i], interval, duration);
    }
    t := CoverEnd(valid, interval, duration, t, previous);
  }

  lemma CoveredAtMostSamples(valid: seq<real>, interval: real, duration: real)
    requires Increasing(valid) && Within(valid, duration) && interval > 0.0 && duration > 0.0
    ensures exists t :: Tiles(Support(valid, interval, duration), t, 0.0, duration)
    ensures TimeAt(Support(valid, interval, duration), 0.0, duration, 1) <= |valid| as real * interval
  {
    var t := SupportTiling(valid, interval, duration);
    TimeAtIsDwell(Support(valid, interval, duration), t, 0.0, duration);
    RepeatedIsProduct(|valid|, interval);
  }

  // ---- gaps ------------------------------------------------------------------

  // max(right - left) over consecutive boundaries
  function LargestStep(xs: seq<real>): real
    requires |xs| >= 2
  {
    var last := xs[|xs| - 1] - xs[|xs| - 2];
    if |xs| == 2 then last
    else
      var rest := LargestStep(xs[..|xs| - 1]);
      if last > rest then last else rest
  }

  lemma {:induction false} LargestStepIsMaximum(xs: seq<real>) returns (at: nat)
    requires |xs| >= 2
    ensures forall i :: 1 <= i < |xs| ==> xs[i] - xs[i - 1] <= LargestStep(xs)
    ensures 1 <= at < |xs| && xs[at] - xs[at - 1] == LargestStep(xs)
  {
    at := |xs| - 1;
    if |xs| > 2 {
      var front := xs[..|xs| - 1];
      var below := LargestStepIsMaximum(front);
      if LargestStep(xs) == LargestStep(front) { at := below; }
      forall j | 1 <= j < |xs| ensures xs[j] - xs[j - 1] <= LargestStep(xs) {
        assert j < |front| ==> front[j] - front[j - 1] <= LargestStep(front);
      }
    }
  }

  // Every gap is small enough for neighbouring supports to meet.
  ghost predicate NoHoles(valid: seq<real>, interval: real, duration: real) {
    && valid != []
    && valid[0] <= interval / 2.0
    && duration - valid[|valid| - 1] <= interval / 2.0
    && (forall i :: 1 <= i < |valid| ==> valid[i] - valid[i - 1] <= interval)
  }

  // Coverage is complete exactly when inner gaps are at most one interval and end
  // gaps at most half of one.
  lemma FullCoverage(valid: seq<real>, interval: real, duration: real)
    requires Increasing(valid) && Within(valid, duration) && interval > 0.0 && duration > 0.0
    ensures exists t :: Tiles(Support(valid, interval, duration), t, 0.0, duration)
    ensures TimeAt(Support(valid, interval, duration), 0.0, duration, 1) == duration <==> NoHoles(valid, interval, duration)
  {
    var f := Support(valid, interval, duration);
    var t := SupportTiling(valid, interval, duration);
    if NoHoles(valid, interval, duration) {
      forall x | 0.0 <= x < duration ensures f(x) == 1 {
        NearestSupports(valid, interval, duration, x);
      }
      var whole := [Segment(0.0, duration, 1)];
      assert whole[..0] == [];
      assert Tiles(f, [], 0.0, 0.0);
      assert Tiles(f, whole, 0.0, duration);
      assert Dwell(whole, 1) == duration;
      TimeAtIsDwell(f, whole, 0.0, duration);
    } else {
      var x := HoleAt(valid, interval, duration);
      TimeAtIsDwell(f, t, 0.0, duration);
      ReachedHasTime(f, t, 0.0, duration, x);
      assert f(x) == 0;
      TwoLevels(f, t, 0.0, duration);
    }
  }

  lemma {:induction false} TwoLevels(f: real -> int, t: seq<Segment>, a: real, b: real)
    requires Tiles(f, t, a, b) && forall x :: f(x) == 0 || f(x) == 1
    ensures Dwell(t, 0) + Dwell(t, 1) == b - a
  {
    if t != [] {
      assert f(t[|t| - 1].from) == t[|t| - 1].level;
      TwoLevels(f, t[..|t| - 1], a, t[|t| - 1].from);
    }
  }

  lemma CoverageAtMostDuration(valid: seq<real>, interval: real, duration: real)
    requires Increasing(valid) && Within(valid, duration) && interval > 0.0 && duration > 0.0
    ensures exists t :: Tiles(Support(valid, interval, duration), t, 0.0, duration)
    ensures TimeAt(Support(valid, interval, duration), 0.0, duration, 1) <= duration
  {
    var f := Support(valid, interval, duration);
    var t := SupportTiling(valid, interval, duration);
    TimeAtIsDwell(f, t, 0.0, duration);
    TwoLevels(f, t, 0.0, duration);
    DwellNonNegative(f, t, 0.0, duration, 0);
  }

  lemma NearestSupports(valid: seq<real>, interval: real, duration: real, x: real)
    requires Increasing(valid) && Within(valid, duration) && NoHoles(valid, interval, duration) && interval > 0.0
    requires 0.0 <= x < duration
    ensures Supported(valid, interval, duration, x)
  {
    var i := 0;
    while i < |valid| && Right(valid[i], interval, duration) <= x
      invariant 0 <= i <= |valid|
      invariant i > 0 ==> Right(valid[i - 1], interval, duration) <= x
    {
      i := i + 1;
    }
    if i == |valid| {
      assert false;
    }
    assert i > 0 ==> valid[i] - valid[i - 1] <= interval;
    assert Left(valid[i], interval) <= x < Right(valid[i], interval, duration);
  }

  // Some instant x lies past the support of sample i-1 and before that of sample i.
  lemma HoleIndex(valid: seq<real>, interval: real, duration: real) returns (i: nat, x: real)
    requires Within(valid, duration) && interval > 0.0 && duration > 0.0
    requires !NoHoles(valid, interval, duration)
    ensures i <= |valid| && 0.0 <= x < duration
    ensures i > 0 ==> Right(valid[i - 1], interval, duration) <= x
    ensures i < |valid| ==> x < Left(valid[i], interval)
  {
    if valid == [] {
      x, i := 0.0, 0;
    } else if valid[0] > interval / 2.0 {
      x, i := 0.0, 0;
    } else if duration - valid[|valid| - 1] > interval / 2.0 {
      x, i := valid[|valid| - 1] + interval / 2.0, |valid|;
    } else {
      i :| 1 <= i < |valid| && valid[i] - valid[i - 1] > interval;
      x := valid[i - 1] + interval / 2.0;
    }
  }

  lemma HoleAt(valid: seq<real>, interval: real, duration: real) returns (x: real)
    requires Increasing(valid) && Within(valid, duration) && interval > 0.0 && duration > 0.0
    requires !NoHoles(valid, interval, duration)
    ensures 0.0 <= x < duration && !Supported(valid, interval, duration, x)
  {
    var i;
    i, x := HoleIndex(valid, interval, duration);
    NotSupportedBetween(valid, interval, duration, i, x);
  }

  // ---- the verdict on one metric -------------------------------------------------

  ghost predicate GapsAtMost(boundaries: seq<real>, limit: real) {
    forall i :: 1 <= i < |boundaries| ==> boundaries[i] - boundaries[i - 1] <= limit
  }

  // The union of the supports reaches the fraction of the trial.
  ghost predicate CoversFraction(valid: seq<real>, interval: real, duration: real, fraction: real) {
    && (exists t :: Tiles(Support(valid, interval, duration), t, 0.0, duration))
    && TimeAt(Support(valid, interval, duration), 0.0, duration, 1) >= fraction * duration
  }

  // Enough samples, enough covered time, and no long stretch without a sample.
  ghost predicate Sound(valid: seq<real>, duration: real, interval: real, policy: Policy) {
    && duration > 0.0 && |valid| >= policy.minSamples
    && GapsAtMost([0.0] + valid + [duration], policy.maxGapIntervals * interval)
    && CoversFraction(valid, interval, duration, policy.minFraction)
  }

  ghost predicate Sufficient(rows: seq<Row>, origin: Option<real>, duration: Option<real>, interval: real, policy: Policy) {
    duration.Some? &&
    exists valid :: AreOffsets(valid, rows, origin, duration) && Sound(valid, duration.value, interval, policy)
  }

  method MetricCoverage(rows: seq<Row>, origin: Option<real>, duration: Option<real>, interval: real,
                        policy: Policy, discontinuities: nat) returns (m: Metric)
    requires interval > 0.0
    ensures AreOffsets(m.valid, rows, origin, duration)
    ensures m.covered.Some? == m.fraction.Some? == (duration.Some? && duration.value > 0.0)
    ensures m.covered.Some? ==> IsCoveredTime(m.covered.value, m.valid, interval, duration.value)
    ensures m.sufficient <==> discontinuities == 0 && Sufficient(rows, origin, duration, interval, policy)
  {
    var valid := ValidOffsets(rows, origin, duration);
    m := Metric(valid, None, None, None, false);
    if duration.Some? {
      ValidIsWithin(rows, origin, duration, valid);
      m := Judge(valid, duration.value, interval, policy, discontinuities);
      SufficientIsSound(rows, origin, duration, interval, policy, valid);
    }
  }

  lemma SufficientIsSound(rows: seq<Row>, origin: Option<real>, duration: Option<real>, interval: real, policy: Policy,
                          valid: seq<real>)
    requires duration.Some? && AreOffsets(valid, rows, origin, duration)
    ensures Sufficient(rows, origin, duration, interval, policy) <==> Sound(valid, duration.value, interval, policy)
  {
    if Sufficient(rows, origin, duration, interval, policy) {
      var other :| AreOffsets(other, rows, origin, duration) && Sound(other, duration.value, interval, policy);
      IncreasingIsUnique(valid, other);
    }
  }

  method Judge(valid: seq<real>, d: real, interval: real, policy: Policy, discontinuities: nat) returns (m: Metric)
    requires interval > 0.0 && Increasing(valid) && Within(valid, d)
    ensures m.valid == valid
    ensures m.covered.Some? == m.fraction.Some? == (d > 0.0)
    ensures m.covered.Some? ==> IsCoveredTime(m.covered.value, valid, interval, d)
    ensures m.sufficient <==> discontinuities == 0 && Sound(valid, d, interval, policy)
  {
    var boundaries := [0.0] + valid + [d];
    var gap := LargestStep(boundaries);
    m := Metric(valid, None, None, Some(gap), false);
    if d > 0.0 {
      var covered := CoveredTime(valid, interval, d);
      var limit := policy.maxGapIntervals * interval;
      var enough := Enough(|valid|, covered / d, gap, limit, policy);
      m := Metric(valid, Some(covered), Some(covered / d), Some(gap), enough && discontinuities == 0);
      StepsAtMost(boundaries, limit);
      EnoughCovered(valid, covered, d, interval, policy.minFraction);
      EnoughIsSound(valid, covered / d, gap, limit, d, interval, policy);
    }
  }

  lemma EnoughIsSound(valid: seq<real>, fraction: real, gap: real, limit: real, d: real, interval: real, policy: Policy)
    requires d > 0.0 && limit == policy.maxGapIntervals * interval
    requires fraction >= policy.minFraction <==> CoversFraction(valid, interval, d, policy.minFraction)
    requires gap <= limit <==> GapsAtMost([0.0] + valid + [d], limit)
    ensures Enough(|valid|, fraction, gap, limit, policy) <==> Sound(valid, d, interval, policy)
  {
  }

  predicate Enough(samples: nat, fraction: real, gap: real, mostGap: real, policy: Policy) {
    fraction >= policy.minFraction && samples >= policy.minSamples && gap <= mostGap
  }

  lemma EnoughCovered(valid: seq<real>, covered: real, d: real, interval: real, fraction: real)
    requires d > 0.0 && IsCoveredTime(covered, valid, interval, d)
    ensures covered / d >= fraction <==> CoversFraction(valid, interval, d, fraction)
  {
  }

  lemma StepsAtMost(xs: seq<real>, limit: real)
    requires |xs| >= 2
    ensures LargestStep(xs) <= limit <==> GapsAtMost(xs, limit)
  {
  }

  // Sufficient coverage takes enough samples: end to end, their supports reach the fraction.
  lemma SoundNeedsSamples(valid: seq<real>, duration: real, interval: real, policy: Policy)
    requires interval > 0.0 && Increasing(valid) && Within(valid, duration) && Sound(valid, duration, interval, policy)
    ensures |valid| as real * interval >= policy.minFraction * duration
  {
    CoveredAtMostSamples(valid, interval, duration);
  }

  lemma ValidIsWithin(rows: seq<Row>, origin: Option<real>, duration: Option<real>, valid: seq<real>)
    requires duration.Some? && AreOffsets(valid, rows, origin, duration)
    ensures Within(valid, duration.value)
  {
    forall i | 0 <= i < |valid| ensures 0.0 <= valid[i] <= duration.value {
      assert valid[i] in valid;
    }
  }
}
