// The bounded dispatcher of one capacity trial (spark_bench/experiment.py, execute_trial).
//
// Jobs are numbered by their position. Which futures finish, when a stop is requested,
// what the guard measures and which writes fail is chosen by the environment.
module Dispatcher {
  import opened Wrappers

  datatype JobStatus = Succeeded | FailedJob | Timeout | Cancelled

  // launched is false for the records of jobs that were never submitted.
  datatype Record = Record(job: nat, launched: bool, status: JobStatus, outOfMemory: bool)

  datatype TrialStatus = Complete | Stopped

  datatype Trial = Trial(outcomes: seq<Record>, submitted: nat, status: TrialStatus, completedJobs: nat)

  datatype Ending = Returned(trial: Trial) | Raised(trial: Trial) | StillRunning

  // What happened, in order: submissions, finished futures, and the moments at which the
  // dispatcher saw or raised the stop event.
  datatype Event = Submit(job: nat) | Finish(job: nat) | StopSeen

  function Submitted(log: seq<Event>): nat {
    if log == [] then 0 else Submitted(log[..|log| - 1]) + (if log[|log| - 1].Submit? then 1 else 0)
  }

  function Finished(log: seq<Event>): nat {
    if log == [] then 0 else Finished(log[..|log| - 1]) + (if log[|log| - 1].Finish? then 1 else 0)
  }

  predicate SawStop(log: seq<Event>) {
    log != [] && (log[|log| - 1].StopSeen? || SawStop(log[..|log| - 1]))
  }

  // Submissions come in job order, below the limit and before any stop was seen.
  ghost predicate Disciplined(log: seq<Event>, limit: nat) {
    log != [] ==>
      var front, last := log[..|log| - 1], log[|log| - 1];
      && Disciplined(front, limit)
      && (last.Submit? ==> last.job == Submitted(front) && Submitted(front) < Finished(front) + limit && !SawStop(front))
  }

  // The same, event by event: a prefix of the jobs was submitted in order, never with
  // more than the limit in flight, and nothing after a stop.
  lemma {:induction false} DisciplineMeans(log: seq<Event>, limit: nat, i: nat)
    requires Disciplined(log, limit) && i < |log| && log[i].Submit?
    ensures log[i].job == Submitted(log[..i])
    ensures Submitted(log[..i + 1]) <= Finished(log[..i + 1]) + limit
    ensures forall k :: 0 <= k < i ==> !log[k].StopSeen?
    decreases |log|
  {
    var front := log[..|log| - 1];
    if i < |front| {
      DisciplineMeans(front, limit, i);
      assert front[..i] == log[..i] && front[..i + 1] == log[..i + 1];
      assert forall k :: 0 <= k < i ==> front[k] == log[k];
    } else {
      assert log[..i] == front && log[..i + 1] == log;
      NoStopBefore(front);
      assert forall k :: 0 <= k < i ==> front[k] == log[k];
    }
  }

  lemma {:induction false} NoStopBefore(log: seq<Event>)
    requires !SawStop(log)
    ensures forall k :: 0 <= k < |log| ==> !log[k].StopSeen?
  {
    if log != [] { NoStopBefore(log[..|log| - 1]); }
  }

  function Numbers(outcomes: seq<Record>): set<nat> {
    set r | r in outcomes :: r.job
  }

  function Below(n: nat): (r: set<nat>)
    ensures forall j :: j in r <==> 0 <= j < n
  {
    if n == 0 then {} else Below(n - 1) + {n - 1}
  }

  ghost predicate OneRecordEach(outcomes: seq<Record>) {
    forall i, j :: 0 <= i < j < |outcomes| ==> outcomes[i].job != outcomes[j].job
  }

  // The jobs from one index up to another have joined the pending ones.
  ghost predicate Grown(before: set<nat>, from: nat, after: set<nat>, to: nat) {
    forall j :: j in after <==> j in before || from <= j < to
  }

  // All of the done futures but the rest have left the pending ones.
  ghost predicate Shrunk(before: set<nat>, done: set<nat>, rest: set<nat>, after: set<nat>) {
    forall j :: j in after <==> j in before && (j in done ==> j in rest)
  }

  method Chance() returns (b: bool) { b := *; }

  // What a future returned: an exception, or the status and whether memory ran out.
  function RecordOf(f: nat, result: Option<(JobStatus, bool)>): Record {
    if result.None? then Record(f, true, FailedJob, false) else Record(f, true, result.value.0, result.value.1)
  }

  predicate StopsTrial(result: Option<(JobStatus, bool)>) {
    result.None? || result.value.1 || result.value.0 == Timeout
  }

  method AnyResult() returns (r: Option<(JobStatus, bool)>) { r := *; }

  // wait: any of the pending futures may be done, or none when it times out.
  method Done(pending: set<nat>) returns (done: set<nat>)
    ensures done <= pending
  {
    done := {};
    var rest := pending;
    while rest != {}
      invariant done <= pending && rest <= pending
      decreases rest
    {
      var f :| f in rest;
      rest := rest - {f};
      var finished := Chance();
      if finished {
        done := done + {f};
      }
    }
  }

  function CountSucceeded(outcomes: seq<Record>): nat {
    if outcomes == [] then 0
    else CountSucceeded(outcomes[..|outcomes| - 1]) + (if outcomes[|outcomes| - 1].status == Succeeded then 1 else 0)
  }

  lemma AppendFinish(log: seq<Event>, limit: nat, f: nat)
    requires Disciplined(log, limit)
    ensures Disciplined(log + [Finish(f)], limit)
    ensures Submitted(log + [Finish(f)]) == Submitted(log) && Finished(log + [Finish(f)]) == Finished(log) + 1
    ensures SawStop(log + [Finish(f)]) <==> SawStop(log)
  {
    assert (log + [Finish(f)])[..|log|] == log;
  }

  lemma AppendStop(log: seq<Event>, limit: nat)
    requires Disciplined(log, limit)
    ensures Disciplined(log + [StopSeen], limit) && SawStop(log + [StopSeen])
    ensures Submitted(log + [StopSeen]) == Submitted(log) && Finished(log + [StopSeen]) == Finished(log)
  {
    assert (log + [StopSeen])[..|log|] == log;
  }

  lemma KeepsLaunched(outcomes: seq<Record>, record: Record)
    requires (forall r :: r in outcomes ==> r.launched) && record.launched
    ensures forall r :: r in outcomes + [record] ==> r.launched
  {
  }

  lemma MovesOne(numbers: set<nat>, below: set<nat>, pending: set<nat>, f: nat)
    requires numbers == below - pending && pending <= below && f in pending
    ensures f !in numbers && pending - {f} <= below && numbers + {f} == below - (pending - {f})
    ensures |pending - {f}| == |pending| - 1
  {
  }

  // One dispatcher run over count jobs.
  class Run {
    const count: nat
    const limit: nat
    var index: nat
    var pending: set<nat>
    var outcomes: seq<Record>
    var stop: bool
    ghost var log: seq<Event>

    ghost predicate Valid()
      reads this
    {
      && index <= count && |pending| <= limit && limit >= 1
      && pending <= Below(index) && Numbers(outcomes) == Below(index) - pending
      && OneRecordEach(outcomes) && (forall r :: r in outcomes ==> r.launched)
      && Disciplined(log, limit) && Submitted(log) == index && Finished(log) + |pending| == index
      && (SawStop(log) ==> stop)
    }

    constructor (count: nat, limit: nat, stopped: bool)
      requires limit >= 1
      ensures Valid() && this.count == count && this.limit == limit && index == 0 && stop == stopped
    {
      this.count, this.limit := count, limit;
      index, pending, outcomes, stop := 0, {}, [], stopped;
      log := [];
    }

    // The stop event can be set by anyone at any time; once set it stays set.
    method ObserveStop() returns (seen: bool)
      requires Valid()
      modifies `stop, `log
      ensures Valid() && seen == stop && (old(stop) ==> stop)
      ensures if seen then SawStop(log) else log == old(log)
    {
      var requested := Chance();
      stop := stop || requested;
      seen := stop;
      if seen {
        NoteStop();
      }
    }

    ghost method NoteStop()
      requires Valid() && stop
      modifies `log
      ensures Valid() && SawStop(log)
    {
      AppendStop(log, limit);
      log := log + [StopSeen];
    }

    method Halt()
      requires Valid()
      modifies `stop, `log
      ensures Valid() && stop && SawStop(log)
    {
      stop := true;
      NoteStop();
    }

    // The inner loop: fill the free slots with the next jobs unless a stop is seen.
    method SubmitMore()
      requires Valid()
      modifies `index, `pending, `stop, `log
      ensures Valid() && (old(stop) ==> stop)
      ensures old(index) <= index && Grown(old(pending), old(index), pending, index)
      ensures index == count || |pending| == limit || SawStop(log)
    {
      while index < count && |pending| < limit
        invariant Valid() && (old(stop) ==> stop)
        invariant old(index) <= index && Grown(old(pending), old(index), pending, index)
        decreases count - index
      {
        var seen := ObserveStop();
        if seen {
          break;
        }
        Launch();
      }
    }

    method Launch()
      requires Valid() && index < count && |pending| < limit && !stop
      modifies `index, `pending, `log
      ensures Valid() && index == old(index) + 1 && pending == old(pending) + {old(index)}
    {
      var longer := log + [Submit(index)];
      assert longer[..|longer| - 1] == log;
      log := longer;
      assert index !in pending;
      pending, index := pending + {index}, index + 1;
      assert Below(index) == Below(index - 1) + {index - 1};
      assert index - 1 !in Numbers(outcomes);
    }

    // One finished future: its record is kept; an exception, OOM or timeout stops the trial.
    method Collect(f: nat, result: Option<(JobStatus, bool)>)
      requires Valid() && f in pending
      modifies `pending, `outcomes, `stop, `log
      ensures Valid() && pending == old(pending) - {f} && outcomes == old(outcomes) + [RecordOf(f, result)]
      ensures if StopsTrial(result) then stop && SawStop(log) else stop == old(stop)
    {
      Keep(f, RecordOf(f, result));
      if StopsTrial(result) {
        Halt();
      }
    }

    method Keep(f: nat, record: Record)
      requires Valid() && f in pending && record.job == f && record.launched
      modifies `pending, `outcomes, `log
      ensures Valid() && pending == old(pending) - {f} && outcomes == old(outcomes) + [record]
    {
      AppendFinish(log, limit, f);
      MovesOne(Numbers(outcomes), Below(index), pending, f);
      AppendKeepsOneEach(outcomes, record);
      KeepsLaunched(outcomes, record);
      log := log + [Finish(f)];
      outcomes := outcomes + [record];
      pending := pending - {f};
    }

    // The jobs that were never submitted, each with one record that says so.
    method RecordUnlaunched() returns (ok: bool)
      requires Valid() && pending == {}
      modifies `outcomes, `stop, `log
      ensures PartlyConserves(Summary(), count) && Disciplined(log, limit)
      ensures Submitted(log) == index == old(index) && Finished(log) == index
      ensures if ok then Numbers(outcomes) == Below(count) && log == old(log) && stop == old(stop)
              else stop && SawStop(log)
    {
      RecordsAreLaunched();
      for j := index to count
        invariant UpTo(j) && log == old(log) && stop == old(stop)
      {
        var written := Chance();
        if !written {
          stop := true;
          AppendStop(log, limit);
          log := log + [StopSeen];
          return false;
        }
        RecordCancelled(j);
      }
      ok := true;
    }

    // The records of the jobs below j, of which those from the index on were never launched.
    ghost predicate UpTo(j: nat)
      reads this
    {
      && Numbers(outcomes) == Below(j) && OneRecordEach(outcomes)
      && (forall r :: r in outcomes ==> (r.launched <==> r.job < index))
      && (forall r :: r in outcomes && !r.launched ==> r.status == Cancelled)
    }

    method RecordCancelled(j: nat)
      requires index <= j && UpTo(j)
      modifies `outcomes
      ensures UpTo(j + 1) && outcomes == old(outcomes) + [Record(j, false, Cancelled, false)]
    {
      var record := Record(j, false, Cancelled, false);
      AppendKeepsOneEach(outcomes, record);
      outcomes := outcomes + [record];
      assert Below(j + 1) == Below(j) + {j};
    }

    // One turn of the outer loop; when it raises, the stop event is set first.
    method Turn(synthetic: bool) returns (ok: bool, more: bool)
      requires Valid()
      modifies `index, `pending, `outcomes, `stop, `log
      ensures Valid() && (old(stop) ==> stop) && old(index) <= index && old(outcomes) <= outcomes
      ensures ok && !more ==> pending == {} && (index == count || SawStop(log))
      ensures !ok ==> SawStop(log)
    {
      more := true;
      var collecting := Chance();
      if !collecting {
        Halt();
        return false, more;
      }
      if !synthetic {
        var due := Chance();
        var reason := Chance();
        var persisted := Chance();
        ok := Guard(due, reason, persisted);
        if !ok {
          return;
        }
      }
      SubmitMore();
      if pending == {} {
        return true, false;
      }
      var done := Done(pending);
      ok := CollectDone(done);
    }

    // The resource guard: a reason to stop, or evidence that cannot be written, sets the stop event.
    method Guard(due: bool, reason: bool, persisted: bool) returns (ok: bool)
      requires Valid()
      modifies `stop, `log
      ensures Valid() && (ok <==> due ==> persisted)
      ensures if due && (reason || !persisted) then stop && SawStop(log) else stop == old(stop) && log == old(log)
    {
      if !due {
        return true;
      }
      if reason || !persisted {
        Halt();
      }
      ok := persisted;
    }

    // All the futures that are done, unless a record cannot be written.
    method CollectDone(done: set<nat>) returns (ok: bool)
      requires Valid() && done <= pending
      modifies `pending, `outcomes, `stop, `log
      ensures Valid() && (old(stop) ==> stop) && old(outcomes) <= outcomes
      ensures if ok then Shrunk(old(pending), done, {}, pending) else SawStop(log)
    {
      var rest := done;
      while rest != {}
        invariant Valid() && (old(stop) ==> stop) && old(outcomes) <= outcomes
        invariant rest <= done <= old(pending) && Shrunk(old(pending), done, rest, pending)
        decreases rest
      {
        var f :| f in rest;
        rest := rest - {f};
        var result := AnyResult();
        Collect(f, result);
        var written := Chance();
        if !written {
          Halt();
          return false;
        }
      }
      ok := true;
    }

    // execute_trial, for at most the given number of turns. The trial is written on every
    // way out; one that raises has been stopped.
    method Execute(synthetic: bool, turns: nat) returns (ending: Ending)
      requires Valid() && index == 0 && outcomes == []
      modifies this
      ensures Disciplined(log, limit) && Finished(log) <= Submitted(log) <= Finished(log) + limit
      ensures ending.Returned? ==>
                && Conserves(ending.trial, count) && ending.trial.submitted == Submitted(log) == Finished(log)
                && (ending.trial.status == Complete ==> ending.trial.submitted == count && !SawStop(log))
      ensures ending.Raised? ==> PartlyConserves(ending.trial, count) && ending.trial.status == Stopped && SawStop(log)
    {
      var left := turns;
      while index < count || pending != {}
        invariant Valid()
        decreases left
      {
        if left == 0 {
          return StillRunning;
        }
        left := left - 1;
        var ok, more := Turn(synthetic);
        if !ok {
          RecordsAreLaunched();
          return Raised(Summary());
        }
        if !more {
          break;
        }
      }
      var recorded := RecordUnlaunched();
      ending := if recorded then Returned(Summary()) else Raised(Summary());
    }

    // What the trial file says at the end.
    function Summary(): Trial
      reads this
    {
      Trial(outcomes, index, if stop then Stopped else Complete, CountSucceeded(outcomes))
    }

    lemma RecordsAreLaunched()
      requires Valid()
      ensures forall r :: r in outcomes ==> r.launched && r.job < index
    {
      forall r | r in outcomes ensures r.job < index {
        assert r.job in Numbers(outcomes);
      }
    }
  }

  // No job has two records; the launched ones among them are submitted jobs, the others not.
  ghost predicate PartlyConserves(t: Trial, count: nat) {
    && Numbers(t.outcomes) <= Below(count) && OneRecordEach(t.outcomes) && t.submitted <= count
    && (forall r :: r in t.outcomes ==> (r.launched <==> r.job < t.submitted))
    && (forall r :: r in t.outcomes && !r.launched ==> r.status == Cancelled)
    && t.completedJobs == CountSucceeded(t.outcomes)
  }

  // Every job has exactly one record; the launched ones are exactly the submitted prefix.
  ghost predicate Conserves(t: Trial, count: nat) {
    PartlyConserves(t, count) && Numbers(t.outcomes) == Below(count)
  }

  // One record each, over exactly the jobs, is as many records as jobs.
  lemma {:induction false} RecordsCount(outcomes: seq<Record>, n: nat)
    requires Numbers(outcomes) == Below(n) && OneRecordEach(outcomes)
    ensures |outcomes| == n
  {
    CardinalityOfRecords(outcomes);
    CardinalityBelow(n);
  }

  lemma {:induction false} CardinalityBelow(n: nat)
    ensures |Below(n)| == n
  {
    if n > 0 { CardinalityBelow(n - 1); }
  }

  lemma {:induction false} CardinalityOfRecords(outcomes: seq<Record>)
    requires OneRecordEach(outcomes)
    ensures |Numbers(outcomes)| == |outcomes|
  {
    if outcomes != [] {
      var front, last := outcomes[..|outcomes| - 1], outcomes[|outcomes| - 1];
      CardinalityOfRecords(front);
      NumbersAppend(front, last);
      LastIsNew(outcomes);
      assert outcomes == front + [last];
    }
  }

  lemma LastIsNew(outcomes: seq<Record>)
    requires outcomes != [] && OneRecordEach(outcomes)
    ensures outcomes[|outcomes| - 1].job !in Numbers(outcomes[..|outcomes| - 1])
  {
    var front, last := outcomes[..|outcomes| - 1], outcomes[|outcomes| - 1];
    forall r | r in front ensures r.job != last.job {
      var i :| 0 <= i < |front| && front[i] == r;
      assert outcomes[i].job != outcomes[|outcomes| - 1].job;
    }
  }

  lemma AppendKeepsOneEach(outcomes: seq<Record>, r: Record)
    requires OneRecordEach(outcomes) && r.job !in Numbers(outcomes)
    ensures OneRecordEach(outcomes + [r]) && Numbers(outcomes + [r]) == Numbers(outcomes) + {r.job}
  {
  }

  lemma NumbersAppend(outcomes: seq<Record>, r: Record)
    ensures Numbers(outcomes + [r]) == Numbers(outcomes) + {r.job}
  {
  }
}
