// The node lease of a capacity experiment and its Docker jobs (spark_bench/runtime.py).
//
// The lease drains the production worker, runs any number of jobs at once, and
// re-admits the worker on exit only if no container it created can remain. Threads
// interleave between Docker calls, so lease and jobs are one step protocol.
module CapacityLease {
  import opened Wrappers

  // What a job knows of its container. Its name and labels are recorded before creation.
  datatype Job =
    | Preparing               // no identity yet
    | Recorded                // identity recorded, no id: the create call is next
    | Known                   // the id is known, from the create call or found by name
    | Unidentified            // create failed and no container had the name
    | Ended(verified: bool)   // cleanup is over; verified: the container was seen to be absent

  datatype Phase =
    | Entering                // lock held, worker being drained
    | Held
    | Exiting
    | Admitted(gen: nat)      // admit was called with this generation
    | LeftDrained

  // How a create call ended for the job.
  datatype Reply = IdReturned | NameFound | NameMissing

  datatype State = State(phase: Phase, generation: nat, restore: bool, clean: bool,
                         jobs: map<nat, Job>, present: set<nat>)

  datatype Step =
    | DrainBegins                           // health checked: admission is to be restored
    | DrainTimesOut
    | EntryAuditFails
    | EntryFails                            // any other failure of __enter__, which then exits
    | EntryDone
    | Submit(job: nat)
    | Fail(job: nat)                        // an exception before the identity was recorded
    | Record(job: nat)
    | Create(job: nat, happened: bool, reply: Reply)
    | LateCreate(job: nat)                  // Docker completes a create call that had failed
    | Vanish(job: nat)                      // the container goes away by itself
    | Ambiguous(job: nat)                   // the container under this id or name is not this job's
    | FoundAbsent(job: nat)                 // cleanup: neither id nor name exists
    | Removed(job: nat)                     // cleanup: removed, then neither id nor name exists
    | CleanupFails(job: nat, removed: bool) // cleanup: any Docker failure or unexpected answer
    | NoIdentity(job: nat)                  // cleanup without an id
    | Exit                                  // every job has ended
    | Readmit(auditIdle: bool)
    | Unconfirmed                           // the admission was not confirmed: drained again
    | Leave

  predicate Is(s: State, job: nat, what: Job) {
    job in s.jobs && s.jobs[job] == what
  }

  predicate AllEnded(s: State) {
    forall j :: j in s.jobs ==> s.jobs[j].Ended?
  }

  predicate Enabled(s: State, a: Step) {
    match a
    case DrainBegins => s.phase.Entering? && !s.restore
    case DrainTimesOut => s.phase.Entering? && s.restore
    case EntryAuditFails => s.phase.Entering? && s.restore
    case EntryFails => s.phase.Entering?
    case EntryDone => s.phase.Entering? && s.restore
    case Submit(j) => s.phase.Held? && j !in s.jobs
    case Fail(j) => Is(s, j, Preparing)
    case Record(j) => Is(s, j, Preparing)
    case Create(j, happened, reply) => Is(s, j, Recorded) && (reply != NameMissing ==> happened)
    case LateCreate(j) => Is(s, j, Unidentified) || Is(s, j, Ended(false))
    case Vanish(j) => j in s.present
    case Ambiguous(j) => Is(s, j, Known)
    case FoundAbsent(j) => Is(s, j, Known) && j !in s.present
    case Removed(j) => Is(s, j, Known)
    case CleanupFails(j, _) => Is(s, j, Known)
    case NoIdentity(j) => Is(s, j, Recorded) || Is(s, j, Unidentified)
    case Exit => s.phase.Held? && AllEnded(s)
    case Readmit(_) => s.phase.Exiting? && s.restore && s.clean
    case Unconfirmed => s.phase.Admitted?
    case Leave => s.phase.Exiting? && !(s.restore && s.clean)
  }

  function Put(s: State, j: nat, what: Job): State {
    s.(jobs := s.jobs[j := what])
  }

  function Apply(s: State, a: Step): State
    requires Enabled(s, a)
  {
    match a
    case DrainBegins => s.(restore := true)
    case DrainTimesOut => s.(restore := false, phase := Exiting)
    case EntryAuditFails => s.(clean := false, phase := Exiting)
    case EntryFails => s.(phase := Exiting)
    case EntryDone => s.(phase := Held)
    case Submit(j) => Put(s, j, Preparing)
    case Fail(j) => Put(s, j, Ended(true))
    case Record(j) => Put(s, j, Recorded)
    case Create(j, happened, reply) =>
      Put(s, j, if reply == NameMissing then Unidentified else Known)
      .(present := if happened then s.present + {j} else s.present)
    case LateCreate(j) => s.(present := s.present + {j})
    case Vanish(j) => s.(present := s.present - {j})
    case Ambiguous(j) => s.(clean := false)
    case FoundAbsent(j) => Put(s, j, Ended(true))
    case Removed(j) => Put(s, j, Ended(true)).(present := s.present - {j})
    case CleanupFails(j, removed) =>
      Put(s, j, Ended(false)).(clean := false, present := if removed then s.present - {j} else s.present)
    case NoIdentity(j) => Put(s, j, Ended(false)).(clean := false)
    case Exit => s.(phase := Exiting)
    case Readmit(auditIdle) => if auditIdle then s.(phase := Admitted(s.generation)) else s.(phase := LeftDrained, clean := false)
    case Unconfirmed => s.(phase := LeftDrained, clean := false)
    case Leave => s.(phase := LeftDrained)
  }

  // A container exists only for a job that has created it and, once the job has ended
  // unverified, the lease is not clean.
  ghost predicate Inv(s: State, g: nat) {
    && s.generation == g
    && (s.phase.Entering? ==> s.jobs == map[])
    && (forall j :: j in s.present ==> j in s.jobs && !s.jobs[j].Preparing? && !s.jobs[j].Recorded? && s.jobs[j] != Ended(true))
    && (forall j :: j in s.jobs && s.jobs[j] == Ended(false) ==> !s.clean)
    && (!s.phase.Entering? && !s.phase.Held? ==> AllEnded(s))
    && (s.phase.Admitted? ==> s.clean && s.restore && s.phase.gen == g)
  }

  lemma StepKeepsInv(s: State, a: Step, g: nat)
    requires Inv(s, g) && Enabled(s, a)
    ensures Inv(Apply(s, a), g)
  {
  }

  // The node lock is held and the generation read; nothing else has happened.
  ghost predicate Initial(s: State) {
    s.phase.Entering? && !s.restore && s.clean && s.jobs == map[] && s.present == {}
  }

  ghost predicate Execution(states: seq<State>, steps: seq<Step>) {
    && |states| == |steps| + 1 && Initial(states[0])
    && forall i :: 0 <= i < |steps| ==> Enabled(states[i], steps[i]) && states[i + 1] == Apply(states[i], steps[i])
  }

  lemma {:induction false} InvariantHolds(states: seq<State>, steps: seq<Step>, i: nat)
    requires Execution(states, steps) && i < |states|
    ensures Inv(states[i], states[0].generation)
  {
    if i > 0 {
      InvariantHolds(states, steps, i - 1);
      assert Enabled(states[i - 1], steps[i - 1]) && states[i] == Apply(states[i - 1], steps[i - 1]);
      StepKeepsInv(states[i - 1], steps[i - 1], states[0].generation);
    }
  }

  // admit is called only with the generation read at entry, after every job ended with
  // its container seen absent, and then no container of the lease exists.
  lemma ReadmissionIsSound(states: seq<State>, steps: seq<Step>, i: nat)
    requires Execution(states, steps) && i < |states| && states[i].phase.Admitted?
    ensures states[i].phase.gen == states[0].generation
    ensures forall j :: j in states[i].jobs ==> states[i].jobs[j] == Ended(true)
    ensures states[i].present == {}
  {
    var s := states[i];
    InvariantHolds(states, steps, i);
    forall j | j in s.jobs ensures s.jobs[j] == Ended(true) {
      assert s.jobs[j].Ended? && s.jobs[j] != Ended(false);
    }
  }

  // Once the lease is not clean it never becomes clean, so the worker stays drained.
  lemma {:induction false} UncleanStaysDrained(states: seq<State>, steps: seq<Step>, i: nat, j: nat)
    requires Execution(states, steps) && i <= j < |states| && !states[i].clean
    ensures !states[j].clean && !states[j].phase.Admitted?
    decreases j
  {
    InvariantHolds(states, steps, j);
    if i < j {
      UncleanStaysDrained(states, steps, i, j - 1);
      assert states[j] == Apply(states[j - 1], steps[j - 1]);
    }
  }
}
