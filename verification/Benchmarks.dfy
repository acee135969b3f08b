// Benchmark admission against lifecycle transitions (spark_serve_benchmarks.py) as a step protocol.
// A client admitted to a set of hosts holds a lock of its own and a lease file until it has
// stopped sending requests. A transition, under the controller lock, marks the leases on its
// hosts and waits for each of their locks. File replacements are atomic.
module Benchmarks {
  import opened Wrappers
  import opened Plays
  import opened Ownership

  // What a lease file says; Unreadable stands for any content that does not parse.
  datatype Lease = Lease(hosts: set<Host>, revoked: bool) | Unreadable

  datatype Client =
    | Entering(hosts: set<Host>)                  // holds the controller lock and its own lease lock
    | Running(hosts: set<Host>, sending: nat)     // holds its lease lock; requests under way
    | Closing                                     // lock released, files not removed yet
    | Gone

  datatype Holder =
    | NoHolder
    | Admitting(id: nat)
    | Revoking(hosts: set<Host>, toScan: set<nat>, toWait: set<nat>)
    | Transition(hosts: set<Host>)                // revoke_benchmarks returned normally

  // Run ids are never reused, so clients keeps every client ever admitted.
  datatype State = State(holder: Holder, clients: map<nat, Client>, files: map<nat, Lease>)

  datatype Step =
    | Admit(id: nat, hosts: set<Host>)            // take the controller lock, pass the checks, take the lease lock
    | SaveLease(id: nat)                          // write the lease, drop the controller lock
    | Request(id: nat)                            // check() passed: a request is sent
    | Response(id: nat)
    | Stop(id: nat)                               // no request is under way: release the lease lock
    | Unlink(id: nat)
    | Die(id: nat)                                // the process is killed; its locks go with it
    | Damage(id: nat)                             // the lease file stops being readable
    | Revoke(hosts: set<Host>)                    // take the controller lock, list the lease files
    | Scan(id: nat)
    | Wait(id: nat)                               // the lease lock was taken: remove the lease
    | GiveUp                                      // the wait timed out, or the transition's process died
    | Return                                      // revoke_benchmarks returns
    | Drop                                        // the transition ends

  predicate HoldsLock(s: State, id: nat) {
    id in s.clients && (s.clients[id].Entering? || s.clients[id].Running?)
  }

  // check(): the lease can be read, is this client's and is not revoked.
  predicate CheckPasses(s: State, id: nat) {
    id in s.files && s.files[id].Lease? && !s.files[id].revoked
  }

  predicate Enabled(s: State, a: Step) {
    match a
    case Admit(id, hosts) => s.holder.NoHolder? && id !in s.clients && id !in s.files && hosts != {}
    case SaveLease(id) => s.holder == Admitting(id) && id in s.clients && s.clients[id].Entering?
    case Request(id) => id in s.clients && s.clients[id].Running? && CheckPasses(s, id)
    case Response(id) => id in s.clients && s.clients[id].Running? && s.clients[id].sending > 0
    case Stop(id) => id in s.clients && s.clients[id].Running? && s.clients[id].sending == 0
    case Unlink(id) => id in s.clients && s.clients[id].Closing?
    case Die(id) => HoldsLock(s, id)
    case Damage(id) => id in s.files
    case Revoke(hosts) => s.holder.NoHolder?
    case Scan(id) => s.holder.Revoking? && id in s.holder.toScan
    case Wait(id) => s.holder.Revoking? && id in s.holder.toWait && !HoldsLock(s, id)
    case GiveUp => s.holder.Revoking? || s.holder.Transition?
    case Return => s.holder.Revoking? && s.holder.toScan == {} && s.holder.toWait == {}
    case Drop => s.holder.Transition?
  }

  function Apply(s: State, a: Step): State
    requires Enabled(s, a)
  {
    match a
    case Admit(id, hosts) => s.(holder := Admitting(id), clients := s.clients[id := Entering(hosts)])
    case SaveLease(id) =>
      var hosts := s.clients[id].hosts;
      s.(holder := NoHolder, clients := s.clients[id := Running(hosts, 0)], files := s.files[id := Lease(hosts, false)])
    case Request(id) => s.(clients := s.clients[id := s.clients[id].(sending := s.clients[id].sending + 1)])
    case Response(id) => s.(clients := s.clients[id := s.clients[id].(sending := s.clients[id].sending - 1)])
    case Stop(id) => s.(clients := s.clients[id := Closing])
    case Unlink(id) => s.(clients := s.clients[id := Gone], files := s.files - {id})
    case Die(id) => s.(holder := if s.holder == Admitting(id) then NoHolder else s.holder, clients := s.clients[id := Gone])
    case Damage(id) => s.(files := s.files[id := Unreadable])
    case Revoke(hosts) => s.(holder := Revoking(hosts, s.files.Keys, {}))
    case Scan(id) => ScanLease(s, id)
    case Wait(id) => s.(holder := s.holder.(toWait := s.holder.toWait - {id}), files := s.files - {id})
    case GiveUp => s.(holder := NoHolder)
    case Return => s.(holder := Transition(s.holder.hosts))
    case Drop => s.(holder := NoHolder)
  }

  // One turn of the first loop of revoke_benchmarks: a vanished file is skipped, an
  // unreadable one is replaced by a revoked lease on these hosts.
  function ScanLease(s: State, id: nat): State
    requires Enabled(s, Scan(id))
  {
    var h := s.holder.(toScan := s.holder.toScan - {id});
    if id !in s.files then s.(holder := h)
    else if s.files[id].Unreadable? then
      s.(holder := h.(toWait := h.toWait + {id}), files := s.files[id := Lease(h.hosts, true)])
    else if s.files[id].hosts * h.hosts != {} then
      s.(holder := h.(toWait := h.toWait + {id}), files := s.files[id := s.files[id].(revoked := true)])
    else s.(holder := h)
  }

  // ---- the invariant, while no lease is narrowed ------------------------------------------------

  ghost predicate Inv(s: State) {
    && (forall id :: id in s.clients && s.clients[id].Entering? ==> s.holder == Admitting(id))
    && (forall id :: id in s.clients && s.clients[id].Running? ==> ClientFits(s, id))
  }

  // A running client's lease file is there and, while it can be read, names its hosts. A
  // revoker of those hosts has still to scan it, or waits and the client's checks fail; a
  // transition on them cannot have begun.
  ghost predicate ClientFits(s: State, id: nat)
    requires id in s.clients && s.clients[id].Running?
  {
    var hosts := s.clients[id].hosts;
    && id in s.files && (s.files[id].Lease? ==> hosts <= s.files[id].hosts)
    && match s.holder
       case Revoking(hs, toScan, toWait) =>
         && (hosts * hs != {} ==> id in toScan || id in toWait)
         && (id in toWait ==> !CheckPasses(s, id))
       case Transition(hs) => hosts * hs == {}
       case _ => true
  }

  // The scan replaces the unreadable lease of a client that still holds its lock by one
  // that no longer names all of the client's hosts.
  predicate Narrows(s: State, a: Step) {
    && a.Scan? && s.holder.Revoking? && HoldsLock(s, a.id)
    && a.id in s.files && s.files[a.id].Unreadable? && !(s.clients[a.id].hosts <= s.holder.hosts)
  }

  lemma StepKeepsInv(s: State, a: Step)
    requires Inv(s) && Enabled(s, a) && !Narrows(s, a)
    ensures Inv(Apply(s, a))
  {
    var t := Apply(s, a);
    forall id | id in t.clients && t.clients[id].Running? ensures ClientFits(t, id) {
      assert id in s.clients;
    }
  }

  // Lease files may be left over from runs that are gone, readable or not.
  ghost predicate Initial(s: State) {
    s.holder.NoHolder? && s.clients == map[]
  }

  ghost predicate Execution(states: seq<State>, steps: seq<Step>) {
    && |states| == |steps| + 1 && Initial(states[0])
    && forall i :: 0 <= i < |steps| ==> Enabled(states[i], steps[i]) && states[i + 1] == Apply(states[i], steps[i])
  }

  // No lease is narrowed while its client holds its lock.
  ghost predicate NoNarrowing(states: seq<State>, steps: seq<Step>)
    requires |states| > |steps|
  {
    forall i :: 0 <= i < |steps| ==> !Narrows(states[i], steps[i])
  }

  // No lease file is damaged while its client holds its lock.
  ghost predicate NoLiveDamage(states: seq<State>, steps: seq<Step>)
    requires |states| > |steps|
  {
    forall i :: 0 <= i < |steps| ==> !(steps[i].Damage? && HoldsLock(states[i], steps[i].id))
  }

  lemma {:induction false} InvariantHolds(states: seq<State>, steps: seq<Step>, i: nat)
    requires Execution(states, steps) && NoNarrowing(states, steps) && i < |states|
    ensures Inv(states[i])
  {
    if i > 0 {
      InvariantHolds(states, steps, i - 1);
      assert Enabled(states[i - 1], steps[i - 1]) && states[i] == Apply(states[i - 1], steps[i - 1]);
      StepKeepsInv(states[i - 1], steps[i - 1]);
    }
  }

  ghost predicate LiveLeasesReadable(s: State) {
    && (forall id :: id in s.clients && s.clients[id].Entering? ==> s.holder == Admitting(id))
    && (forall id :: id in s.clients && s.clients[id].Running? ==> id in s.files ==> s.files[id].Lease?)
  }

  lemma StepKeepsReadable(s: State, a: Step)
    requires LiveLeasesReadable(s) && Enabled(s, a) && !(a.Damage? && HoldsLock(s, a.id))
    ensures LiveLeasesReadable(Apply(s, a))
  {
  }

  // Without damage to the lease of a live client no lease is narrowed, whatever happens to
  // the files of clients that are gone.
  lemma {:induction false} UndamagedIsNotNarrowed(states: seq<State>, steps: seq<Step>, i: nat)
    requires Execution(states, steps) && NoLiveDamage(states, steps) && i < |states|
    ensures LiveLeasesReadable(states[i]) && (i < |steps| ==> !Narrows(states[i], steps[i]))
  {
    if i > 0 {
      UndamagedIsNotNarrowed(states, steps, i - 1);
      assert Enabled(states[i - 1], steps[i - 1]) && states[i] == Apply(states[i - 1], steps[i - 1]);
      StepKeepsReadable(states[i - 1], steps[i - 1]);
    }
  }

  lemma NoLiveDamageIsEnough(states: seq<State>, steps: seq<Step>)
    requires Execution(states, steps) && NoLiveDamage(states, steps)
    ensures NoNarrowing(states, steps)
  {
    forall i | 0 <= i < |steps| ensures !Narrows(states[i], steps[i]) {
      UndamagedIsNotNarrowed(states, steps, i);
    }
  }

  // A client that runs, or has taken its lease lock, on some of these hosts.
  ghost predicate Occupies(s: State, id: nat, hosts: set<Host>) {
    id in s.clients && (s.clients[id].Entering? || s.clients[id].Running?) && s.clients[id].hosts * hosts != {}
  }

  // From the return of revoke_benchmarks until the transition drops the controller lock,
  // no benchmark occupies its hosts.
  lemma TransitionExcludesBenchmarks(states: seq<State>, steps: seq<Step>, i: nat, id: nat)
    requires Execution(states, steps) && NoNarrowing(states, steps) && i < |states| && states[i].holder.Transition?
    ensures !Occupies(states[i], id, states[i].holder.hosts)
  {
    InvariantHolds(states, steps, i);
  }

  // ---- no deadlock ---------------------------------------------------------------------

  // A revoker waits only for a client that has let go of the controller lock and sees its
  // lease revoked: it sends nothing new, and its own steps free the lease lock.
  lemma WaitedClientCanFinish(states: seq<State>, steps: seq<Step>, i: nat, id: nat) returns (t: State)
    requires Execution(states, steps) && NoNarrowing(states, steps) && i < |states|
    requires states[i].holder.Revoking? && id in states[i].holder.toWait && HoldsLock(states[i], id)
    ensures states[i].clients[id].Running? && !Enabled(states[i], Request(id))
    ensures t == Finished(states[i], id) && t.holder == states[i].holder && Enabled(t, Wait(id))
  {
    InvariantHolds(states, steps, i);
    FinishedFreesLock(states[i], id);
    t := Finished(states[i], id);
  }

  // The client answers what it has sent, then stops; no other party takes a step.
  function Finished(s: State, id: nat): State
    requires id in s.clients && s.clients[id].Running?
    decreases s.clients[id].sending
  {
    if s.clients[id].sending == 0 then Apply(s, Stop(id))
    else Finished(Apply(s, Response(id)), id)
  }

  lemma {:induction false} FinishedFreesLock(s: State, id: nat)
    requires id in s.clients && s.clients[id].Running?
    ensures var t := Finished(s, id); t.holder == s.holder && !HoldsLock(t, id) && t.files == s.files
    decreases s.clients[id].sending
  {
    if s.clients[id].sending > 0 {
      FinishedFreesLock(Apply(s, Response(id)), id);
    }
  }

  // ---- what damage would break -------------------------------------------------------------

  function Next(s: State, a: Step): Option<State> {
    if Enabled(s, a) then Some(Apply(s, a)) else None
  }

  const EMPTY := State(NoHolder, map[], map[])

  // A live lease file made unreadable is replaced by one that names only the revoker's
  // hosts; when that revoker times out, a transition on another host of the same client
  // no longer waits for it.
  lemma DamagedLeaseEscapes() returns (steps: seq<Step>, s: State)
    ensures Play(EMPTY, steps, Next) == Some(s) && s.holder == Transition({Worker}) && Occupies(s, 0, {Worker})
  {
    steps, s := Damaged();
    Then(EMPTY, steps, Next, s, Revoke({Worker}));
    steps, s := steps + [Revoke({Worker})], Apply(s, Revoke({Worker}));
    assert 0 in s.holder.toScan;
    Then(EMPTY, steps, Next, s, Scan(0));
    steps, s := steps + [Scan(0)], Apply(s, Scan(0));
    Then(EMPTY, steps, Next, s, Return);
    steps, s := steps + [Return], Apply(s, Return);
    assert Worker in s.clients[0].hosts * {Worker};
  }

  lemma Admitted() returns (steps: seq<Step>, s: State)
    ensures Play(EMPTY, steps, Next) == Some(s)
    ensures s == State(NoHolder, map[0 := Running({Head, Worker}, 0)], map[0 := Lease({Head, Worker}, false)])
  {
    steps, s := [], EMPTY;
    assert Head in {Head, Worker};
    Then(EMPTY, steps, Next, s, Admit(0, {Head, Worker}));
    steps, s := steps + [Admit(0, {Head, Worker})], Apply(s, Admit(0, {Head, Worker}));
    Then(EMPTY, steps, Next, s, SaveLease(0));
    steps, s := steps + [SaveLease(0)], Apply(s, SaveLease(0));
  }

  lemma Damaged() returns (steps: seq<Step>, s: State)
    ensures Play(EMPTY, steps, Next) == Some(s)
    ensures s == State(NoHolder, map[0 := Running({Head, Worker}, 0)], map[0 := Lease({Head}, true)])
  {
    steps, s := Admitted();
    Then(EMPTY, steps, Next, s, Damage(0));
    steps, s := steps + [Damage(0)], Apply(s, Damage(0));
    Then(EMPTY, steps, Next, s, Revoke({Head}));
    steps, s := steps + [Revoke({Head})], Apply(s, Revoke({Head}));
    Then(EMPTY, steps, Next, s, Scan(0));
    steps, s := steps + [Scan(0)], Apply(s, Scan(0));
    Then(EMPTY, steps, Next, s, GiveUp);
    steps, s := steps + [GiveUp], Apply(s, GiveUp);
  }
}
