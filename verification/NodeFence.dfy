// Generation fencing on the nodes (spark_serve_controller.py, guarded_remote_script) as a step
// protocol: commands arrive late or never, and the controller can die at any moment. A guarded
// command takes the node lock, writes its fence or checks its token, and holds the lock until its
// child has ended, even when its own process is killed. The capacity lease (spark_bench/runtime.py)
// takes the same lock.
module NodeFence {
  import opened Wrappers
  import opened Plays
  import opened Ownership

  // A run command is confirmed when it is issued after every selected node acknowledged its
  // fence, as container removals, service restarts, admits and launches are.
  datatype Kind = Fence | Run(confirmed: bool)

  datatype Command = Command(host: Host, gen: Gen, kind: Kind)

  datatype Holder =
    | Free
    | Entered(cmd: Command)                  // holds the lock, nothing done yet
    | Running(cmd: Command, parent: bool)    // the child runs; the parent may be dead
    | Leased(gen: Gen)                       // the lease, with the generation it read

  datatype Node = Node(fence: Option<Gen>, holder: Holder)

  datatype Sites = Sites(head: Node, worker: Node) {
    function Of(h: Host): Node {
      if h == Head then head else worker
    }

    function With(h: Host, n: Node): Sites {
      if h == Head then this.(head := n) else this.(worker := n)
    }
  }

  datatype Transition =
    | NoTransition
    | Active(gen: Gen, selected: set<Host>, fencesSent: set<Host>, acked: set<Host>)

  // ran: the fences executed so far. inFlight: issued commands that have not arrived.
  datatype State = State(sites: Sites, inFlight: map<nat, Command>, nextId: nat,
                         controller: Transition, nextGen: Gen, ran: set<(Host, Gen)>)

  datatype Step =
    | Begin(selected: set<Host>)
    | SendFence(host: Host)
    | Send(host: Host, confirmed: bool)
    | Ack(host: Host)              // the reply to a fence reaches the controller
    | Finish                       // the transition ends, or its process dies
    | Arrive(id: nat)              // a command takes the free lock of its node
    | Lose(id: nat)                // it never arrives, or gives up waiting for the lock
    | WriteFence(host: Host)
    | Check(host: Host)
    | KillParent(host: Host)
    | ChildEnds(host: Host)
    | LeaseTake(host: Host)
    | LeaseAdmit(host: Host, gen: Gen)   // the worker is admitted again with this generation
    | LeaseEnd(host: Host)

  predicate Enabled(s: State, a: Step) {
    match a
    case Begin(_) => s.controller.NoTransition?
    case SendFence(h) => s.controller.Active? && h in s.controller.selected && h !in s.controller.fencesSent
    case Send(h, confirmed) => s.controller.Active? && h in s.controller.selected
                               && (confirmed ==> s.controller.selected <= s.controller.acked)
    case Ack(h) => s.controller.Active? && (h, s.controller.gen) in s.ran
    case Finish => s.controller.Active?
    case Arrive(id) => id in s.inFlight && s.sites.Of(s.inFlight[id].host).holder.Free?
    case Lose(id) => id in s.inFlight
    case WriteFence(h) => s.sites.Of(h).holder.Entered? && s.sites.Of(h).holder.cmd.kind.Fence?
    case Check(h) => s.sites.Of(h).holder.Entered? && s.sites.Of(h).holder.cmd.kind.Run?
    case KillParent(h) => s.sites.Of(h).holder.Entered? || (s.sites.Of(h).holder.Running? && s.sites.Of(h).holder.parent)
    case ChildEnds(h) => s.sites.Of(h).holder.Running?
    case LeaseTake(h) => s.sites.Of(h).holder.Free? && s.sites.Of(h).fence.Some?
    case LeaseAdmit(h, g) => s.sites.Of(h).holder == Leased(g)
    case LeaseEnd(h) => s.sites.Of(h).holder.Leased?
  }

  function Issue(s: State, c: Command): State {
    s.(inFlight := s.inFlight[s.nextId := c], nextId := s.nextId + 1)
  }

  function Hold(s: State, h: Host, holder: Holder): State {
    s.(sites := s.sites.With(h, s.sites.Of(h).(holder := holder)))
  }

  function Apply(s: State, a: Step): State
    requires Enabled(s, a)
  {
    match a
    case Begin(selected) => s.(controller := Active(s.nextGen, selected, {}, {}), nextGen := s.nextGen + 1)
    case SendFence(h) =>
      Issue(s.(controller := s.controller.(fencesSent := s.controller.fencesSent + {h})),
            Command(h, s.controller.gen, Fence))
    case Send(h, confirmed) => Issue(s, Command(h, s.controller.gen, Run(confirmed)))
    case Ack(h) => s.(controller := s.controller.(acked := s.controller.acked + {h}))
    case Finish => s.(controller := NoTransition)
    case Arrive(id) =>
      var c := s.inFlight[id];
      Hold(s.(inFlight := s.inFlight - {id}), c.host, Entered(c))
    case Lose(id) => s.(inFlight := s.inFlight - {id})
    case WriteFence(h) =>
      var c := s.sites.Of(h).holder.cmd;
      s.(sites := s.sites.With(h, Node(Some(c.gen), Free)), ran := s.ran + {(h, c.gen)})
    case Check(h) =>
      var c := s.sites.Of(h).holder.cmd;
      Hold(s, h, if s.sites.Of(h).fence == Some(c.gen) then Running(c, true) else Free)
    case KillParent(h) =>
      var holder := s.sites.Of(h).holder;
      Hold(s, h, if holder.Entered? then Free else holder.(parent := false))
    case ChildEnds(h) => Hold(s, h, Free)
    case LeaseTake(h) => Hold(s, h, Leased(s.sites.Of(h).fence.value))
    case LeaseAdmit(_, _) => s
    case LeaseEnd(h) => Hold(s, h, Free)
  }

  // ---- the invariant ------------------------------------------------------------------

  predicate HeldBy(n: Node, c: Command) {
    (n.holder.Entered? || n.holder.Running?) && n.holder.cmd == c
  }

  // Ids are fresh and tokens old; what runs or leases matches the node's fence.
  ghost predicate Fits(s: State) {
    && (forall id :: id in s.inFlight ==> s.inFlight[id].gen < s.nextGen && id < s.nextId)
    && (forall p :: p in s.ran ==> p.1 < s.nextGen)
    && NodeFits(s.sites.head, Head, s.nextGen) && NodeFits(s.sites.worker, Worker, s.nextGen)
  }

  ghost predicate NodeFits(n: Node, h: Host, nextGen: Gen) {
    match n.holder
    case Free => true
    case Entered(c) => c.host == h && c.gen < nextGen
    case Running(c, _) => c.host == h && c.gen < nextGen && c.kind.Run? && n.fence == Some(c.gen)
    case Leased(g) => n.fence == Some(g)
  }

  // A pending fence has not run yet, and no other pending fence is equal to it.
  ghost predicate FencesOnce(s: State) {
    && (forall id :: id in s.inFlight && s.inFlight[id].kind.Fence? ==> FenceFresh(s, id))
    && (forall i, j :: i in s.inFlight && j in s.inFlight && s.inFlight[i].kind.Fence? && s.inFlight[i] == s.inFlight[j] ==> i == j)
    && HeldFenceFresh(s, Head) && HeldFenceFresh(s, Worker)
  }

  ghost predicate FenceFresh(s: State, id: nat)
    requires id in s.inFlight
  {
    var c := s.inFlight[id];
    (c.host, c.gen) !in s.ran && !HeldBy(s.sites.Of(c.host), c)
  }

  ghost predicate HeldFenceFresh(s: State, h: Host) {
    var holder := s.sites.Of(h).holder;
    holder.Entered? && holder.cmd.kind.Fence? ==> (h, holder.cmd.gen) !in s.ran
  }

  // The running transition has the newest token; acknowledged fences have run, and
  // fences not sent yet neither ran nor wait anywhere.
  ghost predicate ControllerFits(s: State) {
    s.controller.Active? ==>
      var t := s.controller;
      && t.gen + 1 == s.nextGen
      && (forall h :: h in t.acked ==> (h, t.gen) in s.ran)
      && (forall h: Host :: h !in t.fencesSent ==> Untouched(s, h, t.gen))
  }

  ghost predicate Untouched(s: State, h: Host, g: Gen) {
    && (h, g) !in s.ran && !HeldBy(s.sites.Of(h), Command(h, g, Fence))
    && (forall id :: id in s.inFlight ==> s.inFlight[id] != Command(h, g, Fence))
  }

  // A confirmed command was issued after its own fence ran; once a later fence has run,
  // its token can never be the node's again.
  ghost predicate ConfirmedFits(s: State, c: Command) {
    c.kind == Run(true) ==>
      && (c.host, c.gen) in s.ran
      && (forall p :: p in s.ran && p.0 == c.host && p.1 > c.gen ==> s.sites.Of(c.host).fence != Some(c.gen))
  }

  ghost predicate AllConfirmedFit(s: State) {
    && (forall id :: id in s.inFlight ==> ConfirmedFits(s, s.inFlight[id]))
    && HeldConfirmedFits(s, Head) && HeldConfirmedFits(s, Worker)
  }

  ghost predicate HeldConfirmedFits(s: State, h: Host) {
    var holder := s.sites.Of(h).holder;
    holder.Entered? || holder.Running? ==> ConfirmedFits(s, holder.cmd)
  }

  ghost predicate Inv(s: State) {
    Fits(s) && FencesOnce(s) && ControllerFits(s) && AllConfirmedFit(s)
  }

  lemma StepKeepsFits(s: State, a: Step)
    requires Inv(s) && Enabled(s, a)
    ensures Fits(Apply(s, a))
  {
  }

  lemma StepKeepsFencesOnce(s: State, a: Step)
    requires Inv(s) && Enabled(s, a)
    ensures FencesOnce(Apply(s, a))
  {
  }

  lemma StepKeepsController(s: State, a: Step)
    requires Inv(s) && Enabled(s, a)
    ensures ControllerFits(Apply(s, a))
  {
  }

  // A fence that is written makes no confirmed command of another token current.
  lemma FenceKeepsConfirmed(s: State, h: Host)
    requires Inv(s) && Enabled(s, WriteFence(h))
    ensures AllConfirmedFit(Apply(s, WriteFence(h)))
  {
    var t := Apply(s, WriteFence(h));
    forall id | id in t.inFlight ensures ConfirmedFits(t, t.inFlight[id]) {
      assert ConfirmedFits(s, s.inFlight[id]);
    }
  }

  lemma IssueKeepsConfirmed(s: State, a: Step)
    requires Inv(s) && Enabled(s, a) && (a.Send? || a.SendFence?)
    ensures AllConfirmedFit(Apply(s, a))
  {
    var t := Apply(s, a);
    forall id | id in t.inFlight ensures ConfirmedFits(t, t.inFlight[id]) {
      assert id in s.inFlight ==> ConfirmedFits(s, s.inFlight[id]);
    }
  }

  lemma OtherKeepsConfirmed(s: State, a: Step)
    requires Inv(s) && Enabled(s, a) && !a.WriteFence? && !a.Send? && !a.SendFence?
    ensures AllConfirmedFit(Apply(s, a))
  {
  }

  lemma StepKeepsConfirmed(s: State, a: Step)
    requires Inv(s) && Enabled(s, a)
    ensures AllConfirmedFit(Apply(s, a))
  {
    match a
    case WriteFence(h) => FenceKeepsConfirmed(s, h);
    case Send(_, _) => IssueKeepsConfirmed(s, a);
    case SendFence(_) => IssueKeepsConfirmed(s, a);
    case _ => OtherKeepsConfirmed(s, a);
  }

  // ---- whole executions ------------------------------------------------------------------

  // Free nodes with any fences, nothing in flight, no transition.
  ghost predicate Initial(s: State) {
    && s.sites.head.holder.Free? && s.sites.worker.holder.Free?
    && s.inFlight == map[] && s.ran == {} && s.controller.NoTransition?
  }

  ghost predicate Execution(states: seq<State>, steps: seq<Step>) {
    && |states| == |steps| + 1 && Initial(states[0])
    && forall i :: 0 <= i < |steps| ==> Enabled(states[i], steps[i]) && states[i + 1] == Apply(states[i], steps[i])
  }

  lemma {:induction false} InvariantHolds(states: seq<State>, steps: seq<Step>, i: nat)
    requires Execution(states, steps) && i < |states|
    ensures Inv(states[i])
  {
    if i > 0 {
      InvariantHolds(states, steps, i - 1);
      var s, a := states[i - 1], steps[i - 1];
      assert Enabled(s, a) && states[i] == Apply(s, a);
      StepKeepsFits(s, a);
      StepKeepsFencesOnce(s, a);
      StepKeepsController(s, a);
      StepKeepsConfirmed(s, a);
    }
  }

  // Some confirmed command is running on h with token g, with or without its parent.
  ghost predicate ConfirmedRuns(s: State, h: Host, g: Gen) {
    s.sites.Of(h).holder.Running? && s.sites.Of(h).holder.cmd.gen == g && s.sites.Of(h).holder.cmd.kind == Run(true)
  }

  // Over every interleaving, delay, kill and controller death: once the fence of a later
  // transition has run on a node, no removal, restart, admit or launch of an earlier one is
  // running there, nor any other command issued after its fences were acknowledged.
  lemma FencingSafety(states: seq<State>, steps: seq<Step>, i: nat, h: Host, g: Gen, later: Gen)
    requires Execution(states, steps) && i < |states|
    requires (h, later) in states[i].ran && ConfirmedRuns(states[i], h, g)
    ensures later <= g
  {
    InvariantHolds(states, steps, i);
    var n := states[i].sites.Of(h);
    assert NodeFits(n, h, states[i].nextGen) && HeldConfirmedFits(states[i], h) by {
      assert h == Head || h == Worker;
    }
    assert ConfirmedFits(states[i], n.holder.cmd);
  }

  // Nor does one start: the step that lets it run needs the node's own token.
  lemma NoStaleCommandStarts(states: seq<State>, steps: seq<Step>, i: nat, h: Host, g: Gen, later: Gen)
    requires Execution(states, steps) && i < |steps|
    requires (h, later) in states[i].ran && !ConfirmedRuns(states[i], h, g) && ConfirmedRuns(states[i + 1], h, g)
    ensures later <= g && steps[i] == Check(h)
  {
    assert states[i + 1] == Apply(states[i], steps[i]) && states[i].ran <= states[i + 1].ran;
    FencingSafety(states, steps, i + 1, h, g, later);
  }

  // What the lease admits carries the generation it read, which is still the node's:
  // nothing can write a fence while the lease holds the lock.
  lemma {:induction false} LeaseKeepsGeneration(states: seq<State>, steps: seq<Step>, i: nat, j: nat, h: Host)
    requires Execution(states, steps) && i < j < |states| && steps[i] == LeaseTake(h)
    requires forall k :: i < k < j ==> steps[k] != LeaseEnd(h)
    ensures states[i].sites.Of(h).fence.Some?
    ensures states[j].sites.Of(h) == Node(states[i].sites.Of(h).fence, Leased(states[i].sites.Of(h).fence.value))
    decreases j
  {
    assert Enabled(states[i], steps[i]) && states[i + 1] == Apply(states[i], steps[i]);
    if j > i + 1 {
      LeaseKeepsGeneration(states, steps, i, j - 1, h);
      assert Enabled(states[j - 1], steps[j - 1]) && states[j] == Apply(states[j - 1], steps[j - 1]);
    }
  }

  // A lease that holds the lock took it, reading the fence of that moment, and has not ended since.
  lemma {:induction false} LeaseHolds(states: seq<State>, steps: seq<Step>, i: nat, h: Host, g: Gen) returns (k: nat)
    requires Execution(states, steps) && i < |states| && states[i].sites.Of(h).holder == Leased(g)
    ensures k < i && steps[k] == LeaseTake(h) && states[k].sites.Of(h).fence == Some(g)
    ensures forall j :: k < j < i ==> steps[j] != LeaseEnd(h)
  {
    k := 0;
    if i == 0 {
      assert false;
    }
    assert Enabled(states[i - 1], steps[i - 1]) && states[i] == Apply(states[i - 1], steps[i - 1]);
    if steps[i - 1] == LeaseTake(h) {
      k := i - 1;
    } else {
      k := LeaseHolds(states, steps, i - 1, h, g);
    }
  }

  // The lease admits with the generation it read at entry, and that is still the node's fence.
  lemma LeaseAdmitsOwnFence(states: seq<State>, steps: seq<Step>, i: nat, h: Host, g: Gen) returns (k: nat)
    requires Execution(states, steps) && i < |steps| && steps[i] == LeaseAdmit(h, g)
    ensures k < i && steps[k] == LeaseTake(h) && states[k].sites.Of(h).fence == Some(g)
    ensures states[i].sites.Of(h).fence == Some(g)
  {
    assert Enabled(states[i], steps[i]);
    k := LeaseHolds(states, steps, i, h, g);
    LeaseKeepsGeneration(states, steps, k, i, h);
  }

  // ---- why these commands wait for acknowledgements -----------------------------------------

  function Next(s: State, a: Step): Option<State> {
    if Enabled(s, a) then Some(Apply(s, a)) else None
  }

  lemma {:induction false} PlayIsExecution(s: State, steps: seq<Step>) returns (states: seq<State>)
    requires Initial(s) && Play(s, steps, Next).Some?
    ensures Execution(states, steps) && states[|steps|] == Play(s, steps, Next).value
  {
    if steps == [] {
      states := [s];
    } else {
      var front, last := steps[..|steps| - 1], steps[|steps| - 1];
      var before := PlayIsExecution(s, front);
      states := before + [Play(s, steps, Next).value];
      forall k | 0 <= k < |steps| ensures Enabled(states[k], steps[k]) && states[k + 1] == Apply(states[k], steps[k]) {
        if k < |front| {
          assert steps[k] == front[k] && states[k] == before[k] && states[k + 1] == before[k + 1];
        }
      }
    }
  }

  const EMPTY := State(Sites(Node(None, Free), Node(None, Free)), map[], 0, NoTransition, 0, {})

  const FENCE0 := Command(Head, 0, Fence)
  const DRAIN0 := Command(Head, 0, Run(false))
  const FENCE1 := Command(Head, 1, Fence)

  // Two transitions on one node; the fence and a drain of the first are still in flight.
  const TWO_SENT := State(Sites(Node(None, Free), Node(None, Free)), map[0 := FENCE0, 1 := DRAIN0, 2 := FENCE1], 3,
                          Active(1, {Head}, {Head}, {}), 2, {})

  lemma BothSent() returns (steps: seq<Step>)
    ensures Play(EMPTY, steps, Next) == Some(TWO_SENT)
  {
    steps := [];
    var now := EMPTY;
    Then(EMPTY, steps, Next, now, Begin({Head}));
    steps, now := steps + [Begin({Head})], Apply(now, Begin({Head}));
    Then(EMPTY, steps, Next, now, SendFence(Head));
    steps, now := steps + [SendFence(Head)], Apply(now, SendFence(Head));
    Then(EMPTY, steps, Next, now, Send(Head, false));
    steps, now := steps + [Send(Head, false)], Apply(now, Send(Head, false));
    Then(EMPTY, steps, Next, now, Finish);
    steps, now := steps + [Finish], Apply(now, Finish);
    Then(EMPTY, steps, Next, now, Begin({Head}));
    steps, now := steps + [Begin({Head})], Apply(now, Begin({Head}));
    Then(EMPTY, steps, Next, now, SendFence(Head));
    steps, now := steps + [SendFence(Head)], Apply(now, SendFence(Head));
    assert {} + {Head} == {Head};
    assert now == TWO_SENT;
  }

  // The node after the first transition's fence arrived after the second's.
  const LATE := State(Sites(Node(Some(0), Free), Node(None, Free)), map[1 := DRAIN0], 3,
                      Active(1, {Head}, {Head}, {}), 2, {(Head, 1), (Head, 0)})

  lemma FenceArrivesLate(sent: seq<Step>) returns (steps: seq<Step>)
    requires Play(EMPTY, sent, Next) == Some(TWO_SENT)
    ensures Play(EMPTY, steps, Next) == Some(LATE)
  {
    steps := sent;
    var now := TWO_SENT;
    Then(EMPTY, steps, Next, now, Arrive(2));
    steps, now := steps + [Arrive(2)], Apply(now, Arrive(2));
    Then(EMPTY, steps, Next, now, WriteFence(Head));
    steps, now := steps + [WriteFence(Head)], Apply(now, WriteFence(Head));
    Then(EMPTY, steps, Next, now, Arrive(0));
    steps, now := steps + [Arrive(0)], Apply(now, Arrive(0));
    Then(EMPTY, steps, Next, now, WriteFence(Head));
    steps, now := steps + [WriteFence(Head)], Apply(now, WriteFence(Head));
    assert now.inFlight == LATE.inFlight;
    assert now.ran == LATE.ran;
  }

  // A command that does not wait for acknowledgements, such as a drain, can run after a
  // later fence: FencingSafety is about confirmed commands because it needs that wait.
  lemma LateFenceRevivesDrain() returns (states: seq<State>, steps: seq<Step>)
    ensures Execution(states, steps)
    ensures (Head, 1) in states[|steps|].ran && states[|steps|].sites.head.holder == Running(DRAIN0, true)
  {
    var sent := BothSent();
    var late := FenceArrivesLate(sent);
    Then(EMPTY, late, Next, LATE, Arrive(1));
    var entered := Apply(LATE, Arrive(1));
    Then(EMPTY, late + [Arrive(1)], Next, entered, Check(Head));
    steps := late + [Arrive(1)] + [Check(Head)];
    states := PlayIsExecution(EMPTY, steps);
  }
}
