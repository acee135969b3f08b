// The verdict over all measured trials (spark_bench/analysis.py, analyze).
module Verdict {
  import opened Wrappers
  import opened Issues
  import opened Intervals
  import opened Trials
  import opened Figures
  import opened Cohorts
  import opened NodeWindows
  import Coverage

  // Trials of one cohort ran the same inputs with the same number of dispatchers.
  datatype Cohort = Cohort(corpus: multiset<Input>, dispatchers: Option<int>)

  datatype Evidence = Synthetic | Incomplete | Underpowered | Complete

  datatype Hypothesis = NotAssessed | Falsified | NotRejected

  // ---- grouping ---------------------------------------------------------------------------------

  function CohortOf(t: Trial): Cohort {
    Cohort(CorpusOf(t.jobs), t.dispatchers)
  }

  function Of(trials: seq<Trial>, key: Cohort, level: Option<int>): seq<Trial> {
    if trials == [] then []
    else
      var last := trials[|trials| - 1];
      Of(trials[..|trials| - 1], key, level) + if CohortOf(last) == key && last.concurrency == level then [last] else []
  }

  function CohortsOf(trials: seq<Trial>): set<Cohort> {
    set t | t in trials :: CohortOf(t)
  }

  function Levels(trials: seq<Trial>, key: Cohort): set<Option<int>> {
    set t | t in trials && CohortOf(t) == key :: t.concurrency
  }

  lemma {:induction false} OfAreMembers(trials: seq<Trial>, key: Cohort, level: Option<int>)
    ensures forall t :: t in Of(trials, key, level) <==> t in trials && CohortOf(t) == key && t.concurrency == level
  {
    if trials != [] {
      OfAreMembers(trials[..|trials| - 1], key, level);
      assert trials == trials[..|trials| - 1] + [trials[|trials| - 1]];
    }
  }

  lemma LevelsAreGroups(trials: seq<Trial>, key: Cohort, level: Option<int>)
    ensures level in Levels(trials, key) <==> Of(trials, key, level) != []
  {
  }

  type Groups = map<(Cohort, Option<int>), seq<Trial>>

  function Find(grouped: Groups, key: Cohort, level: Option<int>): seq<Trial> {
    if (key, level) in grouped then grouped[(key, level)] else []
  }

  ghost predicate IsGrouping(grouped: Groups, trials: seq<Trial>) {
    forall key, level :: Find(grouped, key, level) == Of(trials, key, level)
  }

  method GroupTrials(trials: seq<Trial>) returns (grouped: Groups)
    ensures IsGrouping(grouped, trials)
    ensures forall k :: k in grouped ==> grouped[k] != []
  {
    grouped := map[];
    for i := 0 to |trials|
      invariant IsGrouping(grouped, trials[..i])
      invariant forall k :: k in grouped ==> grouped[k] != []
    {
      assert trials[..i + 1][..i] == trials[..i];
      var t := trials[i];
      var key := (CohortOf(t), t.concurrency);
      grouped := grouped[key := Find(grouped, key.0, key.1) + [t]];
    }
    assert trials[..|trials|] == trials;
  }

  // ---- the board of a cohort ----------------------------------------------------------------------

  function BoardOf(trials: seq<Trial>, key: Cohort): Board {
    map c | c in Levels(trials, key) :: Aggregate(Of(trials, key, c))
  }

  function GroupedBoard(grouped: Groups, key: Cohort): Board {
    map c | c in LevelsIn(grouped, key) :: Aggregate(Find(grouped, key, c))
  }

  function KeysIn(grouped: Groups): set<Cohort> {
    set k | k in grouped :: k.0
  }

  function LevelsIn(grouped: Groups, key: Cohort): set<Option<int>> {
    set k | k in grouped && k.0 == key :: k.1
  }

  lemma KeyIsLevel(grouped: Groups, trials: seq<Trial>, key: Cohort, level: Option<int>)
    requires IsGrouping(grouped, trials) && forall k :: k in grouped ==> grouped[k] != []
    ensures (key, level) in grouped <==> level in Levels(trials, key)
  {
    LevelsAreGroups(trials, key, level);
    assert Find(grouped, key, level) == Of(trials, key, level);
  }

  lemma LevelsAreKeys(grouped: Groups, trials: seq<Trial>, key: Cohort)
    requires IsGrouping(grouped, trials) && forall k :: k in grouped ==> grouped[k] != []
    ensures LevelsIn(grouped, key) == Levels(trials, key)
  {
    forall level ensures level in LevelsIn(grouped, key) <==> level in Levels(trials, key) {
      KeyIsLevel(grouped, trials, key, level);
      if level in Levels(trials, key) {
        assert (key, level).0 == key && (key, level).1 == level;
      }
    }
  }

  lemma KeysAreCohorts(grouped: Groups, trials: seq<Trial>)
    requires IsGrouping(grouped, trials) && forall k :: k in grouped ==> grouped[k] != []
    ensures KeysIn(grouped) == CohortsOf(trials)
  {
    forall key ensures key in KeysIn(grouped) <==> key in CohortsOf(trials) {
      if key in KeysIn(grouped) {
        var k :| k in grouped && k.0 == key;
        KeyIsLevel(grouped, trials, k.0, k.1);
      }
      if key in CohortsOf(trials) {
        var t :| t in trials && CohortOf(t) == key;
        KeyIsLevel(grouped, trials, key, t.concurrency);
        assert t.concurrency in Levels(trials, key);
        assert (key, t.concurrency) in grouped && (key, t.concurrency).0 == key;
      }
    }
  }

  lemma BoardIsBoard(grouped: Groups, trials: seq<Trial>, key: Cohort)
    requires IsGrouping(grouped, trials) && forall k :: k in grouped ==> grouped[k] != []
    ensures GroupedBoard(grouped, key) == BoardOf(trials, key)
  {
    LevelsAreKeys(grouped, trials, key);
    forall c | c in Levels(trials, key) ensures Find(grouped, key, c) == Of(trials, key, c) {
    }
  }

  lemma BoardIsWellFormed(trials: seq<Trial>, key: Cohort)
    requires AllConsistent(trials)
    ensures WellFormed(BoardOf(trials, key))
  {
    var board := BoardOf(trials, key);
    forall c | c in board && board[c].clean
      ensures c.Some? && c.value >= 1 && board[c].rate.Some? && board[c].rate.value >= 0.0
    {
      CleanGroup(trials, key, c);
    }
  }

  // A group of complete trials has a numbered level and a rate.
  lemma CleanGroup(trials: seq<Trial>, key: Cohort, level: Option<int>)
    requires AllConsistent(trials) && level in Levels(trials, key) && AllComplete(Of(trials, key, level))
    ensures level.Some? && level.value >= 1
    ensures JobsPerHour(Of(trials, key, level)).Some? && JobsPerHour(Of(trials, key, level)).value >= 0.0
  {
    LevelsAreGroups(trials, key, level);
    OfAreMembers(trials, key, level);
    var t := Of(trials, key, level)[0];
    assert t in Of(trials, key, level);
    RateNonNegative(Of(trials, key, level));
  }

  // ---- the whole run ------------------------------------------------------------------------------

  function Windows(trials: seq<Trial>): seq<Interval> {
    if trials == [] then []
    else
      var last := trials[|trials| - 1];
      Windows(trials[..|trials| - 1])
      + if last.started.Some? && last.finished.Some? then [Interval(last.started.value, last.finished.value)] else []
  }

  predicate AnyNotes(trials: seq<Trial>) {
    exists i :: 0 <= i < |trials| && trials[i].timingNotes
  }

  lemma {:induction false} WindowsAreProper(trials: seq<Trial>)
    requires AllConsistent(trials) && AllComplete(trials) && !AnyNotes(trials)
    ensures AllProper(Windows(trials))
  {
    if trials != [] {
      var front := trials[..|trials| - 1];
      assert forall i :: 0 <= i < |front| ==> front[i] == trials[i];
      WindowsAreProper(front);
    }
  }

  ghost predicate DistinctTrials(trials: seq<Trial>) {
    forall i, j :: 0 <= i < j < |trials| ==> trials[i].id != trials[j].id
  }

  function Ids(trials: seq<Trial>): set<string> {
    if trials == [] then {} else Ids(trials[..|trials| - 1]) + {trials[|trials| - 1].id}
  }

  ghost predicate HasTrial(trials: seq<Trial>, id: string) {
    exists i :: 0 <= i < |trials| && trials[i].id == id
  }

  lemma HasTrialNext(front: seq<Trial>, last: Trial, id: string)
    ensures HasTrial(front + [last], id) <==> HasTrial(front, id) || last.id == id
  {
    var all := front + [last];
    if HasTrial(front, id) {
      var i :| 0 <= i < |front| && front[i].id == id;
      assert all[i].id == id;
    }
    assert all[|front|] == last;
  }

  lemma DistinctNext(front: seq<Trial>, last: Trial)
    ensures DistinctTrials(front + [last]) <==> DistinctTrials(front) && !HasTrial(front, last.id)
  {
    var all := front + [last];
    assert all[|front|] == last;
    assert forall i :: 0 <= i < |front| ==> all[i] == front[i];
    if DistinctTrials(all) {
      forall i, j | 0 <= i < j < |front| ensures front[i].id != front[j].id {
        assert all[i].id != all[j].id;
      }
      forall i | 0 <= i < |front| ensures front[i].id != last.id {
        assert all[i].id != all[|front|].id;
      }
    }
  }

  lemma {:induction false} IdsDecide(trials: seq<Trial>)
    ensures forall x :: x in Ids(trials) <==> HasTrial(trials, x)
    ensures |Ids(trials)| <= |trials|
    ensures |Ids(trials)| == |trials| <==> DistinctTrials(trials)
  {
    if trials != [] {
      var front, last := trials[..|trials| - 1], trials[|trials| - 1];
      assert trials == front + [last];
      IdsDecide(front);
      DistinctNext(front, last);
      forall x ensures x in Ids(trials) <==> HasTrial(trials, x) {
        HasTrialNext(front, last, x);
      }
      if last.id in Ids(front) {
        assert Ids(trials) == Ids(front);
      }
    }
  }

  ghost predicate RunClean(trials: seq<Trial>, meta: Metadata) {
    && meta.statusOk && 1 in meta.levels && (exists l :: l in meta.levels && l > 1)
    && trials != [] && DistinctTrials(trials) && AllComplete(trials)
    && (AnyNotes(trials) || Apart(Windows(trials)))
  }

  lemma NeighboursOfTrials(trials: seq<Trial>)
    requires AllConsistent(trials) && AllComplete(trials) && !AnyNotes(trials)
    ensures NeighboursOverlap(InOrder(Windows(trials))) <==> !Apart(Windows(trials))
  {
    var ws := Windows(trials);
    WindowsAreProper(trials);
    OrderKeepsApart(ws);
    OrderIsOrdered(ws);
    forall i | 0 <= i < |InOrder(ws)| ensures InOrder(ws)[i].start < InOrder(ws)[i].finish {
      assert InOrder(ws)[i] in ws;
    }
    NeighboursDecide(InOrder(ws));
  }

  method RunIssues(trials: seq<Trial>, meta: Metadata) returns (issues: set<RunIssue>)
    requires AllConsistent(trials)
    ensures issues == {} <==> RunClean(trials, meta)
  {
    var higher := exists l :: l in meta.levels && l > 1;
    issues := Raise({}, !meta.statusOk, RunIncomplete);
    issues := Raise(issues, meta.levels == {}, NoLevels);
    issues := Raise(issues, 1 !in meta.levels, NoC1);
    issues := Raise(issues, !higher, NoHigherLevel);
    issues := Raise(issues, trials == [], NoTrials);
    IdsDecide(trials);
    issues := Raise(issues, |Ids(trials)| != |trials|, DuplicateTrial);
    issues := Raise(issues, NeighboursOverlap(InOrder(Windows(trials))) && !AnyNotes(trials), TrialsOverlap);
    issues := Raise(issues, !AllComplete(trials), IncompleteTrials);
    if AllComplete(trials) && !AnyNotes(trials) {
      NeighboursOfTrials(trials);
    }
  }

  predicate IsSynthetic(trials: seq<Trial>, meta: Metadata) {
    meta.synthetic || exists t, j :: t in trials && j in t.jobs && j.synthetic
  }

  // ---- the verdict ------------------------------------------------------------------------------------

  function EvidenceOf(synthetic: bool, issues: set<RunIssue>): Evidence {
    if synthetic then Synthetic
    else if exists i :: i in issues && i.MakesIncomplete() then Incomplete
    else if issues != {} then Underpowered
    else Complete
  }

  datatype Summary = Summary(trials: seq<Trial>, evidence: Evidence, hypothesis: Hypothesis, issues: set<RunIssue>,
                             candidates: map<Cohort, Option<int>>)

  ghost predicate KeyClean(trials: seq<Trial>, key: Cohort, meta: Metadata, th: Thresholds) {
    CohortClean(BoardOf(trials, key), |Workloads(key.corpus)|, meta, th)
  }

  ghost predicate AllClean(keys: set<Cohort>, trials: seq<Trial>, meta: Metadata, th: Thresholds) {
    forall key :: key in keys ==> KeyClean(trials, key, meta, th)
  }

  ghost predicate AllBest(candidates: map<Cohort, Option<int>>, trials: seq<Trial>, th: Thresholds) {
    forall key :: key in candidates ==> KeyBest(candidates[key], trials, key, th)
  }

  ghost predicate KeyBest(best: Option<int>, trials: seq<Trial>, key: Cohort, th: Thresholds) {
    BestOf(best, BoardOf(trials, key).Keys, BoardOf(trials, key), th)
  }

  // Some higher level of the cohort wins over C1.
  ghost predicate HasWinner(trials: seq<Trial>, key: Cohort, th: Thresholds) {
    exists c :: HigherLevelWins(BoardOf(trials, key), c, th)
  }

  ghost predicate EvidenceComplete(trials: seq<Trial>, meta: Metadata, th: Thresholds) {
    && !IsSynthetic(trials, meta) && RunClean(trials, meta)
    && AllClean(CohortsOf(trials), trials, meta, th)
  }

  ghost predicate Falsifies(trials: seq<Trial>, meta: Metadata, th: Thresholds) {
    EvidenceComplete(trials, meta, th) && exists key :: key in CohortsOf(trials) && HasWinner(trials, key, th)
  }

  ghost predicate Judged(s: Summary, meta: Metadata, th: Thresholds) {
    && (s.evidence == Complete <==> EvidenceComplete(s.trials, meta, th))
    && s.evidence == EvidenceOf(IsSynthetic(s.trials, meta), s.issues)
    && (s.hypothesis == NotAssessed <==> s.evidence != Complete)
    && (s.hypothesis == Falsified <==> Falsifies(s.trials, meta, th))
    && s.candidates.Keys == CohortsOf(s.trials) && AllBest(s.candidates, s.trials, th)
  }

  method JudgeCohorts(trials: seq<Trial>, meta: Metadata, th: Thresholds)
    returns (issues: set<RunIssue>, candidates: map<Cohort, Option<int>>)
    requires AllConsistent(trials)
    ensures issues == {} <==> AllClean(CohortsOf(trials), trials, meta, th)
    ensures candidates.Keys == CohortsOf(trials) && AllBest(candidates, trials, th)
  {
    var grouped := GroupTrials(trials);
    KeysAreCohorts(grouped, trials);
    issues, candidates := {}, map[];
    var remaining := KeysIn(grouped);
    ghost var done: set<Cohort> := {};
    while remaining != {}
      invariant done + remaining == CohortsOf(trials) && Progress(done, issues, candidates, trials, meta, th)
      decreases remaining
    {
      var key :| key in remaining;
      var more, candidate := JudgeGroup(grouped, key, meta, th, trials);
      Progressed(done, issues, candidates, key, more, candidate, trials, meta, th);
      issues := issues + more;
      candidates := candidates[key := candidate];
      done, remaining := done + {key}, remaining - {key};
    }
  }

  // The cohorts judged so far.
  ghost predicate Progress(done: set<Cohort>, issues: set<RunIssue>, candidates: map<Cohort, Option<int>>,
                           trials: seq<Trial>, meta: Metadata, th: Thresholds) {
    candidates.Keys == done && (issues == {} <==> AllClean(done, trials, meta, th)) && AllBest(candidates, trials, th)
  }

  lemma Progressed(done: set<Cohort>, issues: set<RunIssue>, candidates: map<Cohort, Option<int>>,
                   key: Cohort, more: set<RunIssue>, candidate: Option<int>,
                   trials: seq<Trial>, meta: Metadata, th: Thresholds)
    requires Progress(done, issues, candidates, trials, meta, th)
    requires (more == {} <==> KeyClean(trials, key, meta, th)) && KeyBest(candidate, trials, key, th)
    ensures Progress(done + {key}, issues + more, candidates[key := candidate], trials, meta, th)
  {
    CandidatesGrow(done, candidates, key, candidate, trials, th);
  }

  lemma CandidatesGrow(done: set<Cohort>, candidates: map<Cohort, Option<int>>, key: Cohort, candidate: Option<int>,
                       trials: seq<Trial>, th: Thresholds)
    requires candidates.Keys == done
    ensures candidates[key := candidate].Keys == done + {key}
    ensures AllBest(candidates, trials, th) && KeyBest(candidate, trials, key, th) ==>
              AllBest(candidates[key := candidate], trials, th)
  {
  }

  method JudgeGroup(grouped: Groups, key: Cohort, meta: Metadata, th: Thresholds, ghost trials: seq<Trial>)
    returns (issues: set<RunIssue>, candidate: Option<int>)
    requires AllConsistent(trials) && IsGrouping(grouped, trials) && forall k :: k in grouped ==> grouped[k] != []
    ensures issues == {} <==> KeyClean(trials, key, meta, th)
    ensures KeyBest(candidate, trials, key, th)
  {
    BoardIsBoard(grouped, trials, key);
    BoardIsWellFormed(trials, key);
    issues, candidate := JudgeCohort(GroupedBoard(grouped, key), |Workloads(key.corpus)|, meta, th);
  }

  predicate AnyHigher(candidates: map<Cohort, Option<int>>) {
    exists key :: key in candidates && candidates[key].Some? && candidates[key].value > 1
  }

  lemma HigherCandidate(candidates: map<Cohort, Option<int>>, trials: seq<Trial>, th: Thresholds)
    requires AllConsistent(trials) && candidates.Keys == CohortsOf(trials) && AllBest(candidates, trials, th)
    ensures AnyHigher(candidates) <==> exists key :: key in CohortsOf(trials) && HasWinner(trials, key, th)
  {
    forall key | key in candidates
      ensures candidates[key].Some? && candidates[key].value > 1 <==> HasWinner(trials, key, th)
    {
      BoardIsWellFormed(trials, key);
      BestIsHigher(candidates[key], BoardOf(trials, key), th);
    }
  }

  function HypothesisOf(evidence: Evidence, candidates: map<Cohort, Option<int>>): Hypothesis {
    if evidence != Complete then NotAssessed else if AnyHigher(candidates) then Falsified else NotRejected
  }

  lemma CompleteNeedsNoIssue(synthetic: bool, issues: set<RunIssue>)
    ensures EvidenceOf(synthetic, issues) == Complete <==> !synthetic && issues == {}
  {
  }

  method Judge(trials: seq<Trial>, meta: Metadata, th: Thresholds) returns (s: Summary)
    requires AllConsistent(trials)
    ensures s.trials == trials && Judged(s, meta, th)
  {
    var run := RunIssues(trials, meta);
    var cohorts, candidates := JudgeCohorts(trials, meta, th);
    var evidence := EvidenceOf(IsSynthetic(trials, meta), run + cohorts);
    s := Summary(trials, evidence, HypothesisOf(evidence, candidates), run + cohorts, candidates);
    CompleteNeedsNoIssue(IsSynthetic(trials, meta), s.issues);
    HigherCandidate(candidates, trials, th);
  }

  // ---- what a falsified hypothesis rests on ------------------------------------------------------------

  // At least two complete trials, in each of which exactly `level` inferences overlapped.
  ghost predicate WellObserved(group: seq<Trial>, level: int) {
    && |group| >= 2
    && forall t :: t in group ==> t.Complete() && t.concurrency == Some(level) && ObservedOverlap(t.jobs, level)
  }

  ghost predicate AllWellObserved(trials: seq<Trial>, meta: Metadata) {
    forall key, l :: key in CohortsOf(trials) && l in meta.levels ==> WellObserved(Of(trials, key, Some(l)), l)
  }

  // No synthetic job, a cohort with a higher level that beats C1, every requested level of
  // every cohort well observed, and no two trials at once unless some clock was unusable.
  ghost predicate WellFounded(trials: seq<Trial>, meta: Metadata, th: Thresholds) {
    && !IsSynthetic(trials, meta)
    && (exists key, c :: key in CohortsOf(trials) && Beats(BoardOf(trials, key), c, th))
    && AllWellObserved(trials, meta)
    && 1 in meta.levels && (AnyNotes(trials) || Apart(Windows(trials)))
  }

  lemma {:induction false} OfComplete(trials: seq<Trial>, key: Cohort, level: Option<int>)
    requires AllComplete(trials)
    ensures AllComplete(Of(trials, key, level))
  {
    OfAreMembers(trials, key, level);
    var group := Of(trials, key, level);
    forall i | 0 <= i < |group| ensures group[i].Complete() {
      assert group[i] in group;
    }
  }

  lemma BaselineFigures(trials: seq<Trial>, key: Cohort)
    requires AllConsistent(trials) && AllComplete(trials) && Some(1) in Levels(trials, key)
    ensures var base := Aggregate(Of(trials, key, Some(1)));
            && base.rate.Some? && base.rate.value >= 0.0
            && (base.p95.Some? ==> base.p95.value >= 0.0)
  {
    OfComplete(trials, key, Some(1));
    CleanGroup(trials, key, Some(1));
    P95NonNegative(Successful(Jobs(Of(trials, key, Some(1)))));
  }

  lemma GroupIsWellObserved(trials: seq<Trial>, key: Cohort, level: int)
    requires AllConsistent(trials) && AllComplete(trials)
    requires CompleteCount(Of(trials, key, Some(level))) >= 2 && Observed(Of(trials, key, Some(level))).Some?
    ensures WellObserved(Of(trials, key, Some(level)), level)
  {
    var group := Of(trials, key, Some(level));
    OfAreMembers(trials, key, Some(level));
    MaximumObservedIs(group);
    CompleteCountBound(group);
    forall t | t in group ensures t.Complete() && t.concurrency == Some(level) && ObservedOverlap(t.jobs, level) {
      assert t in trials && Consistent(t);
    }
  }

  lemma {:induction false} CompleteCountBound(group: seq<Trial>)
    ensures CompleteCount(group) <= |group|
  {
    if group != [] {
      CompleteCountBound(group[..|group| - 1]);
    }
  }

  lemma LevelsAreWellObserved(trials: seq<Trial>, meta: Metadata, th: Thresholds)
    requires AllConsistent(trials) && AllComplete(trials) && AllClean(CohortsOf(trials), trials, meta, th)
    ensures AllWellObserved(trials, meta)
  {
    forall key, l | key in CohortsOf(trials) && l in meta.levels ensures WellObserved(Of(trials, key, Some(l)), l) {
      assert KeyClean(trials, key, meta, th);
      RequestedIsExercised(BoardOf(trials, key), |Workloads(key.corpus)|, l, meta, th);
      GroupIsWellObserved(trials, key, l);
    }
  }

  // A falsified hypothesis rests on measured data.
  lemma VerdictIsSound(trials: seq<Trial>, meta: Metadata, th: Thresholds)
    requires AllConsistent(trials) && Falsifies(trials, meta, th)
    ensures WellFounded(trials, meta, th)
  {
    var key :| key in CohortsOf(trials) && HasWinner(trials, key, th);
    var c :| HigherLevelWins(BoardOf(trials, key), c, th);
    assert KeyClean(trials, key, meta, th);
    BaselineFigures(trials, key);
    WinnerBeats(BoardOf(trials, key), c, |Workloads(key.corpus)|, meta, th);
    LevelsAreWellObserved(trials, meta, th);
  }

  // ---- from the files of a run to its verdict -----------------------------------------------------------

  datatype TrialFiles = TrialFiles(raw: RawTrial, rows: seq<Job>, samples: seq<Sample>)

  datatype AnalysisError = InvalidThreshold | InvalidPolicy

  predicate ValidThresholds(th: Thresholds) {
    th.minSpeedup >= 1.0 && th.maxLatencyRatio >= 0.0 && 0.0 <= th.maxFailureRate <= 1.0
  }

  predicate ValidPolicy(policy: Coverage.Policy, defaultInterval: real) {
    0.0 < policy.minFraction <= 1.0 && policy.maxGapIntervals >= 1.0 && policy.minSamples >= 2 && defaultInterval > 0.0
  }

  // The requested sampling interval, or the policy's default for a missing or useless one.
  function SamplingInterval(requested: Option<real>, defaultInterval: real): real {
    if requested.Some? && requested.value > 0.0 then requested.value else defaultInterval
  }

  ghost predicate IsAssessment(t: Trial, file: TrialFiles, interval: real, policy: Coverage.Policy) {
    && Recorded(t, file.raw)
    && (t.Complete() <==> CompleteEvidence(file.raw, file.rows, file.samples, interval, policy))
    && (t.Complete() ==> t.jobs == Measured(file.rows))
    && (t.telemetryMissing <==> TelemetryMissing(Inside(file.samples, file.raw)))
  }

  // One trial per measured file, in order.
  ghost predicate Assessed(trials: seq<Trial>, files: seq<TrialFiles>, interval: real, policy: Coverage.Policy) {
    if files == [] then trials == []
    else
      var front, last := files[..|files| - 1], files[|files| - 1];
      if !last.raw.measured then Assessed(trials, front, interval, policy)
      else
        && trials != [] && IsAssessment(trials[|trials| - 1], last, interval, policy)
        && Assessed(trials[..|trials| - 1], front, interval, policy)
  }

  lemma AssessedNext(trials: seq<Trial>, files: seq<TrialFiles>, i: nat, t: Option<Trial>, interval: real, policy: Coverage.Policy)
    requires i < |files| && Assessed(trials, files[..i], interval, policy)
    requires t.Some? <==> files[i].raw.measured
    requires t.Some? ==> IsAssessment(t.value, files[i], interval, policy)
    ensures Assessed(if t.Some? then trials + [t.value] else trials, files[..i + 1], interval, policy)
  {
    assert files[..i + 1][..i] == files[..i];
    if t.Some? {
      assert (trials + [t.value])[..|trials|] == trials;
    }
  }

  method AssessFile(file: TrialFiles, interval: real, policy: Coverage.Policy) returns (t: Option<Trial>)
    requires interval > 0.0
    ensures t.Some? <==> file.raw.measured
    ensures t.Some? ==> IsAssessment(t.value, file, interval, policy) && Consistent(t.value)
  {
    t := Assess(file.raw, file.rows, file.samples, interval, policy);
  }

  method AssessAll(files: seq<TrialFiles>, interval: real, policy: Coverage.Policy) returns (trials: seq<Trial>)
    requires interval > 0.0
    ensures Assessed(trials, files, interval, policy) && AllConsistent(trials)
  {
    trials := [];
    for i := 0 to |files|
      invariant Assessed(trials, files[..i], interval, policy) && AllConsistent(trials)
    {
      var t := AssessFile(files[i], interval, policy);
      AssessedNext(trials, files, i, t, interval, policy);
      if t.Some? {
        trials := trials + [t.value];
      }
    }
    assert files[..|files|] == files;
  }

  method Analyze(files: seq<TrialFiles>, meta: Metadata, requested: Option<real>, defaultInterval: real,
                 th: Thresholds, policy: Coverage.Policy)
    returns (r: Result<Summary, AnalysisError>)
    ensures r == Err(InvalidThreshold) <==> !ValidThresholds(th)
    ensures r == Err(InvalidPolicy) <==> ValidThresholds(th) && !ValidPolicy(policy, defaultInterval)
    ensures r.Ok? ==>
              && Assessed(r.value.trials, files, SamplingInterval(requested, defaultInterval), policy)
              && AllConsistent(r.value.trials) && Judged(r.value, meta, th)
    ensures r.Ok? && r.value.hypothesis == Falsified ==> WellFounded(r.value.trials, meta, th)
  {
    if !ValidThresholds(th) {
      return Err(InvalidThreshold);
    }
    if !ValidPolicy(policy, defaultInterval) {
      return Err(InvalidPolicy);
    }
    var trials := AssessAll(files, SamplingInterval(requested, defaultInterval), policy);
    var s := Judge(trials, meta, th);
    if s.hypothesis == Falsified {
      VerdictIsSound(trials, meta, th);
    }
    return Ok(s);
  }
}
