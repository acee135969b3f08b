// One cohort of the analysis: its levels are compared with C1 (spark_bench/analysis.py,
// the loop over cohorts in analyze).
module Cohorts {
  import opened Wrappers
  import opened Issues
  import opened Trials
  import opened Figures

  datatype Thresholds = Thresholds(minSpeedup: real, maxLatencyRatio: real, maxFailureRate: real)

  datatype Metadata = Metadata(
    statusOk: bool, synthetic: bool, levels: set<int>, iterations: Option<int>, jobsPerLevel: Option<int>)

  // The issues the verdict distinguishes; the first kind makes the evidence incomplete.
  datatype RunIssue =
    | RunIncomplete | NoLevels | NoC1 | NoHigherLevel | NoTrials | DuplicateTrial | TrialsOverlap | IncompleteTrials
    | NoBaseline | MissingLevels | FewCompleteTrials | OverlapUnavailable | NotExercised | FewWorkloads
    | FewIterations | MissingRepetitions | WrongExpected | TelemetryUnavailable | UnusableBaseline
    | BaselineFails | OutputShortened
  {
    predicate MakesIncomplete() {
      || RunIncomplete? || NoLevels? || NoTrials? || DuplicateTrial? || TrialsOverlap? || IncompleteTrials?
      || NoBaseline? || MissingLevels? || MissingRepetitions? || WrongExpected? || UnusableBaseline?
    }
  }

  // The comparisons of one cohort by level; None is a level that is not a number.
  type Board = map<Option<int>, Comparison>

  // A comparison without issues is of a numbered level and has a rate.
  ghost predicate WellFormed(board: Board) {
    forall c :: c in board && board[c].clean ==>
      c.Some? && c.value >= 1 && board[c].rate.Some? && board[c].rate.value >= 0.0
  }

  function Baseline(board: Board): Option<Comparison> {
    if Some(1) in board then Some(board[Some(1)]) else None
  }

  // ---- one level against the baseline -------------------------------------------------------------

  function Ratio(item: Option<real>, base: Option<real>): Option<real> {
    if item.None? || base.None? || base.value == 0.0 then None else Some(item.value / base.value)
  }

  function SpeedupOf(item: Comparison, base: Option<Comparison>): Option<real> {
    if base.None? then None else Ratio(item.rate, base.value.rate)
  }

  function LatencyRatioOf(item: Comparison, base: Option<Comparison>): Option<real> {
    if base.None? then None else Ratio(item.p95, base.value.p95)
  }

  // The mean length for some input fell by over a fifth from the baseline's.
  predicate IsShortened(item: Comparison, base: Option<Comparison>) {
    base.Some? && exists i :: i in item.audio && ShortenedFor(item.audio[i], base.value.audio, i)
  }

  predicate ShortenedFor(mean: real, base: map<Input, real>, i: Input) {
    i in base && base[i] != 0.0 && mean / base[i] < 0.8
  }

  // The level is worth recommending.
  predicate Eligible(item: Comparison, base: Option<Comparison>, level: Option<int>, th: Thresholds) {
    && SpeedupOf(item, base).Some? && (level == Some(1) || SpeedupOf(item, base).value >= th.minSpeedup)
    && LatencyRatioOf(item, base).Some? && LatencyRatioOf(item, base).value <= th.maxLatencyRatio
    && item.failureRate.Some? && item.failureRate.value <= th.maxFailureRate
    && item.clean && !IsShortened(item, base)
  }

  predicate EligibleAt(board: Board, level: Option<int>, th: Thresholds) {
    level in board && Eligible(board[level], Baseline(board), level, th)
  }

  // ---- the recommendation -----------------------------------------------------------------------------

  function Rate(board: Board, level: int): real {
    if Some(level) in board && board[Some(level)].rate.Some? then board[Some(level)].rate.value else 0.0
  }

  // Higher rate first, then the lower level.
  ghost predicate Outranks(board: Board, a: int, b: int) {
    Rate(board, a) > Rate(board, b) || (Rate(board, a) == Rate(board, b) && a <= b)
  }

  ghost predicate BestOf(best: Option<int>, levels: set<Option<int>>, board: Board, th: Thresholds) {
    && (best.Some? ==> best in levels && EligibleAt(board, best, th))
    && (forall c :: c in levels && EligibleAt(board, c, th) ==>
          best.Some? && c.Some? && Outranks(board, best.value, c.value))
  }

  method BestLevel(board: Board, th: Thresholds) returns (best: Option<int>)
    requires WellFormed(board)
    ensures BestOf(best, board.Keys, board, th)
  {
    best := None;
    var remaining := board.Keys;
    ghost var done: set<Option<int>> := {};
    while remaining != {}
      invariant done + remaining == board.Keys && BestOf(best, done, board, th)
      decreases remaining
    {
      var level :| level in remaining;
      ghost var before := best;
      best := Consider(board, level, best, th);
      done, remaining := done + {level}, remaining - {level};
    }
  }

  method Consider(board: Board, level: Option<int>, best0: Option<int>, th: Thresholds) returns (best: Option<int>)
    requires WellFormed(board) && level in board
    ensures Chosen(best0, best, level, board, th)
  {
    best := best0;
    if EligibleAt(board, level, th) {
      var rate := Rate(board, level.value);
      if best.None? || rate > Rate(board, best.value) || (rate == Rate(board, best.value) && level.value < best.value) {
        best := level;
      }
    }
  }

  ghost predicate Chosen(before: Option<int>, best: Option<int>, level: Option<int>, board: Board, th: Thresholds) {
    if !EligibleAt(board, level, th) then best == before
    else
      && level.Some?
      && best == if before.None? || !Outranks(board, before.value, level.value) then level else before
  }

  // The best level is above 1 exactly when some eligible higher level beats level 1, or level 1
  // is not eligible itself.
  lemma BestIsHigher(best: Option<int>, board: Board, th: Thresholds)
    requires WellFormed(board) && BestOf(best, board.Keys, board, th)
    ensures best.Some? && best.value > 1 <==> exists c :: HigherLevelWins(board, c, th)
  {
    if best.Some? && best.value > 1 {
      assert EligibleAt(board, Some(1), th) ==> Outranks(board, best.value, 1);
      assert HigherLevelWins(board, best.value, th);
    }
    forall c | HigherLevelWins(board, c, th) ensures best.Some? && best.value > 1 {
      assert EligibleAt(board, Some(c), th) && Outranks(board, best.value, c);
    }
  }

  ghost predicate HigherLevelWins(board: Board, c: int, th: Thresholds) {
    && c > 1 && EligibleAt(board, Some(c), th)
    && (EligibleAt(board, Some(1), th) ==> Rate(board, c) > Rate(board, 1))
  }

  // ---- the issues of a cohort ---------------------------------------------------------------------

  // Every trial's overlap is known, and together they reached the level.
  predicate Exercised(item: Comparison, level: Option<int>) {
    item.maximum.Some? && (level.Some? ==> item.maximum.value >= level.value)
  }

  ghost predicate AllExercised(board: Board) {
    forall c :: c in board ==> Exercised(board[c], c)
  }

  method OverlapIssues(board: Board) returns (issues: set<RunIssue>)
    ensures issues == {} <==> AllExercised(board)
  {
    issues := {};
    var unknown := exists c :: c in board && board[c].maximum.None?;
    if unknown {
      issues := Raise(issues, true, OverlapUnavailable);
    } else {
      var below := exists c :: c in board && c.Some? && board[c].maximum.value < c.value;
      issues := Raise(issues, below, NotExercised);
    }
  }

  ghost predicate LevelsClean(board: Board, workloads: nat, meta: Metadata) {
    && Some(1) in board
    && (forall l :: l in meta.levels ==> Some(l) in board)
    && (forall c :: c in board ==> board[c].complete >= 2)
    && workloads >= 2
  }

  method LevelIssues(board: Board, workloads: nat, meta: Metadata) returns (issues: set<RunIssue>)
    ensures issues == {} <==> LevelsClean(board, workloads, meta)
  {
    var missing := exists l :: l in meta.levels && Some(l) !in board;
    var few := exists c :: c in board && board[c].complete < 2;
    issues := Raise({}, Some(1) !in board, NoBaseline);
    issues := Raise(issues, missing, MissingLevels);
    issues := Raise(issues, few, FewCompleteTrials);
    issues := Raise(issues, workloads < 2, FewWorkloads);
  }

  predicate ExpectedAll(group: seq<Trial>, jobs: int) {
    forall i :: 0 <= i < |group| ==> group[i].expected == Int(jobs)
  }

  predicate TelemetryEverywhere(group: seq<Trial>) {
    forall i :: 0 <= i < |group| ==> !group[i].telemetryMissing
  }

  ghost predicate RepetitionsClean(board: Board, meta: Metadata) {
    && meta.iterations.Some? && meta.iterations.value >= 2
    && forall c :: c in board ==>
         && |board[c].trials| >= meta.iterations.value
         && (meta.jobsPerLevel.Some? ==> ExpectedAll(board[c].trials, meta.jobsPerLevel.value))
         && TelemetryEverywhere(board[c].trials)
  }

  method RepetitionIssues(board: Board, meta: Metadata) returns (issues: set<RunIssue>)
    ensures issues == {} <==> RepetitionsClean(board, meta)
  {
    issues := {};
    if meta.iterations.None? || meta.iterations.value < 2 {
      issues := Raise(issues, true, FewIterations);
    } else {
      var short := exists c :: c in board && |board[c].trials| < meta.iterations.value;
      issues := Raise(issues, short, MissingRepetitions);
    }
    if meta.jobsPerLevel.Some? {
      var wrong := exists c :: c in board && !ExpectedAll(board[c].trials, meta.jobsPerLevel.value);
      issues := Raise(issues, wrong, WrongExpected);
    }
    var missing := exists c :: c in board && !TelemetryEverywhere(board[c].trials);
    issues := Raise(issues, missing, TelemetryUnavailable);
  }

  predicate UsableBaseline(base: Comparison) {
    base.rate.Some? && base.rate.value != 0.0 && base.p95.Some?
  }

  predicate FailsTooOften(item: Comparison, th: Thresholds) {
    item.failureRate.Some? && item.failureRate.value > th.maxFailureRate
  }

  // C1 itself is usable and acceptable, and no level's output is notably shorter than C1's.
  ghost predicate ComparisonClean(board: Board, th: Thresholds) {
    && (Some(1) in board ==> UsableBaseline(board[Some(1)]) && !FailsTooOften(board[Some(1)], th))
    && (forall c :: c in board ==> !IsShortened(board[c], Baseline(board)))
  }

  method ComparisonIssues(board: Board, th: Thresholds) returns (issues: set<RunIssue>)
    ensures issues == {} <==> ComparisonClean(board, th)
  {
    var base := Baseline(board);
    var shortened := exists c :: c in board && IsShortened(board[c], base);
    issues := Raise({}, base.Some? && !UsableBaseline(base.value), UnusableBaseline);
    issues := Raise(issues, base.Some? && FailsTooOften(base.value, th), BaselineFails);
    issues := Raise(issues, shortened, OutputShortened);
  }

  ghost predicate CohortClean(board: Board, workloads: nat, meta: Metadata, th: Thresholds) {
    LevelsClean(board, workloads, meta) && AllExercised(board) && RepetitionsClean(board, meta) && ComparisonClean(board, th)
  }

  lemma RequestedIsExercised(board: Board, workloads: nat, level: int, meta: Metadata, th: Thresholds)
    requires CohortClean(board, workloads, meta, th) && level in meta.levels
    ensures Some(level) in board && board[Some(level)].complete >= 2
    ensures board[Some(level)].maximum.Some? && board[Some(level)].maximum.value >= level
  {
    assert Exercised(board[Some(level)], Some(level));
  }

  method JudgeCohort(board: Board, workloads: nat, meta: Metadata, th: Thresholds)
    returns (issues: set<RunIssue>, candidate: Option<int>)
    requires WellFormed(board)
    ensures issues == {} <==> CohortClean(board, workloads, meta, th)
    ensures BestOf(candidate, board.Keys, board, th)
  {
    var levels := LevelIssues(board, workloads, meta);
    var overlap := OverlapIssues(board);
    var repetitions := RepetitionIssues(board, meta);
    var comparison := ComparisonIssues(board, th);
    issues := levels + overlap + repetitions + comparison;
    candidate := BestLevel(board, th);
  }

  // ---- what a winning level has achieved -----------------------------------------------------------

  lemma ThresholdTimes(a: real, b: real, bound: real)
    requires b > 0.0
    ensures a / b >= bound <==> a >= bound * b
    ensures a / b <= bound <==> a <= bound * b
  {
  }

  ghost predicate Faster(item: Comparison, base: Comparison, th: Thresholds) {
    && item.rate.Some? && base.rate.Some? && base.rate.value > 0.0
    && item.rate.value >= th.minSpeedup * base.rate.value
  }

  ghost predicate LatencyWithin(item: Comparison, base: Comparison, th: Thresholds) {
    && item.p95.Some? && base.p95.Some?
    && item.p95.value <= th.maxLatencyRatio * base.p95.value
  }

  ghost predicate FailuresWithin(item: Comparison, th: Thresholds) {
    item.failureRate.Some? && item.failureRate.value <= th.maxFailureRate
  }

  // The level beats C1 by the required factor within the latency and failure bounds.
  ghost predicate Beats(board: Board, c: int, th: Thresholds) {
    && c > 1 && Some(c) in board && Some(1) in board
    && Faster(board[Some(c)], board[Some(1)], th) && LatencyWithin(board[Some(c)], board[Some(1)], th)
    && FailuresWithin(board[Some(c)], th)
  }

  lemma WinnerBeats(board: Board, c: int, workloads: nat, meta: Metadata, th: Thresholds)
    requires CohortClean(board, workloads, meta, th) && HigherLevelWins(board, c, th)
    requires board[Some(1)].rate.Some? && board[Some(1)].rate.value >= 0.0
    requires board[Some(1)].p95.Some? ==> board[Some(1)].p95.value >= 0.0
    ensures Beats(board, c, th)
  {
    var item, base := board[Some(c)], board[Some(1)];
    ThresholdTimes(item.rate.value, base.rate.value, th.minSpeedup);
    ThresholdTimes(item.p95.value, base.p95.value, th.maxLatencyRatio);
  }
}
