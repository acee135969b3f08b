// The workload controller (spark_serve_controller.py): one locked transition at a
// time over the two hosts. Every remote call may fail, and what a host answers is
// chosen by the environment. The log records effects in order; Valid says that all
// of them were allowed at their place.
module Controllers {
  import opened Wrappers
  import opened Ownership
  import opened TransitionLog

  datatype Target = NoTarget | YueTarget | Model(id: string) | Unlisted

  // What the catalog says of a model this controller could start.
  datatype CatalogModel = CatalogModel(nodes: nat, servable: bool, served: string)

  datatype Outcome = Rejected | Done | FailedSwitch

  // A container receipt of a launch, and the receipt as a whole.
  datatype Container = Container(host: Host, id: string, wellFormed: bool, rank: int)

  datatype LaunchReceipt = LaunchReceipt(containers: seq<Container>, served: string)

  // An owned container seen on a host by the scope check.
  datatype HostsLabel = NoLabel | BadLabel | Members(hosts: set<Host>)

  datatype Owned = Owned(distributedRank: bool, hostsLabel: HostsLabel)

  // What a drained host's status says of its job.
  datatype JobState = Resolved | StillActive | Unresolved

  datatype LaunchReply = Raised | NoReceipt | Received(receipt: LaunchReceipt)

  // A worker's health: validated stands for service, API version, runtime, CUDA, assets and ownership.
  datatype Health = Health(validated: bool, accepting: bool, generation: Option<Gen>, workerId: string, manifest: string)

  predicate HealthReady(h: Health, g: Gen) {
    h.validated && h.workerId != "" && h.accepting && h.generation == Some(g)
  }

  function HostSet(hosts: seq<Host>): set<Host> {
    (if Head in hosts then {Head} else {}) + (if Worker in hosts then {Worker} else {})
  }

  lemma InHostSet(hosts: seq<Host>, i: nat)
    requires i < |hosts|
    ensures hosts[i] in HostSet(hosts)
  {
    assert hosts[i] == Head || hosts[i] == Worker;
  }

  // The selections a transition can work on, in catalog order.
  predicate Selection(hosts: seq<Host>) {
    hosts == [Head] || hosts == [Worker] || hosts == BOTH
  }

  predicate Distinct(hosts: seq<Host>) {
    forall i, j :: 0 <= i < j < |hosts| ==> hosts[i] != hosts[j]
  }

  // switch's reading of its hosts argument; None when it is refused.
  function SelectHosts(hosts: Option<seq<Host>>): (r: Option<seq<Host>>)
    ensures r.Some? ==> Selection(r.value)
    ensures r.Some? && hosts.Some? ==> HostSet(r.value) == HostSet(hosts.value)
    ensures r.None? <==> hosts.Some? && (hosts.value == [] || !Distinct(hosts.value))
  {
    match hosts
    case None => Some(BOTH)
    case Some(hs) =>
      if hs == [] || !Distinct(hs) then None
      else
        assert hs[0] == Head || hs[0] == Worker;
        Some((if Head in hs then [Head] else []) + (if Worker in hs then [Worker] else []))
  }

  // ---- scope -----------------------------------------------------------------------

  predicate LostEvidence(r: Record) {
    r.mode == Unknown && (r.phase != Unmanaged || r.error != NoFault)
  }

  // The records allow an operation on this host alone.
  predicate RecordsAllow(n: Nodes, h: Host) {
    && !LostEvidence(n.head) && !LostEvidence(n.worker)
    && (h in n.head.allocationHosts ==> HostSet(n.head.allocationHosts) <= {h})
    && (h in n.worker.allocationHosts ==> HostSet(n.worker.allocationHosts) <= {h})
  }

  predicate ContainerAllows(c: Owned, h: Host, knownSolo: bool) {
    && !c.distributedRank
    && match c.hostsLabel
       case NoLabel => knownSolo
       case BadLabel => false
       case Members(hs) => hs == {h}
  }

  lemma RecordsAllowWhole(n: Nodes, h: Host)
    requires RecordsAllow(n, h)
    ensures WholeSelection(n, {h})
  {
  }

  // ---- the fields each step of a transition saves ------------------------------------------

  function DrainingFields(g: Gen): Fields {
    NOTHING.(phase := Some(Draining), generation := Some(g), error := Some(NoFault), cleanupErrors := Some([]))
  }

  function StoppingFields(): Fields {
    NOTHING.(phase := Some(Stopping))
  }

  function StoppedFields(): Fields {
    NOTHING.(mode := Some(Idle), model := Some(None), phase := Some(Stopped),
             allocationHosts := Some([]), allocationId := Some(None))
  }

  function StartingFields(mode: Mode, model: string, hosts: seq<Host>, g: Gen): Fields {
    NOTHING.(phase := Some(Starting), mode := Some(mode), model := Some(Some(model)),
             allocationHosts := Some(hosts), allocationId := Some(Some(g)))
  }

  function RunningFields(model: string, phase: Phase, g: Gen): Fields {
    NOTHING.(mode := Some(Vllm), model := Some(Some(model)), phase := Some(phase),
             generation := Some(g), error := Some(NoFault))
  }

  function FailedFields(error: Fault, cleanup: seq<Fault>): Fields {
    NOTHING.(phase := Some(Failed), error := Some(error), cleanupErrors := Some(cleanup))
  }

  // The record of a host verified idle in transition g.
  predicate Emptied(r: Record, g: Gen) {
    && r.mode == Idle && r.model == None && r.phase == Stopped && r.generation == Some(g)
    && r.allocationHosts == [] && r.allocationId == None
    && r.worker == None && r.containers == None && r.served == None
  }

  predicate AllEmptied(n: Nodes, hosts: seq<Host>, g: Gen) {
    (Head in hosts ==> Emptied(n.head, g)) && (Worker in hosts ==> Emptied(n.worker, g))
  }

  function YueRecord(r: Record, receipt: Receipt): Record {
    r.(mode := Yue, model := Some("yue"), phase := Ready, generation := Some(receipt.generation), error := NoFault,
       worker := Some(receipt), allocationHosts := [receipt.host], allocationId := Some(receipt.generation))
  }

  predicate YueReady(r: Record, h: Host, g: Gen) {
    && r.mode == Yue && r.phase == Ready && r.generation == Some(g) && r.allocationHosts == [h]
    && r.worker.Some? && r.worker.value.host == h && r.worker.value.generation == g
  }

  predicate Runs(r: Record, mid: string, phase: Phase, hosts: seq<Host>, g: Gen) {
    && r.mode == Vllm && r.model == Some(mid) && r.phase == phase && r.generation == Some(g)
    && r.allocationHosts == hosts && r.allocationId == Some(g)
  }

  // No allocation is split by the launch on these hosts.
  ghost predicate Launched(n: Nodes, launch: seq<Host>) {
    launch == BOTH || (!Spans(n.head) && !Spans(n.worker))
  }

  // The launch hosts all carry the starting record of transition g.
  ghost predicate Launching(n: Nodes, launch: seq<Host>, mid: string, g: Gen) {
    && Launched(n, launch)
    && (forall h: Host :: h in launch ==> Runs(n.Of(h), mid, Starting, launch, g))
  }

  lemma LaunchRewrite(n: Nodes, launch: seq<Host>, mid: string, g: Gen, f: Fields)
    requires Launching(n, launch, mid, g) && Selection(launch)
    requires f.mode == Some(Vllm) && f.allocationHosts.None? && f.allocationId.None?
    ensures Unsplit(Rewritten(n, HostSet(launch), f)) && Launched(Rewritten(n, HostSet(launch), f), launch)
  {
  }

  function WithContainer(r: Record, h: Host, receipt: LaunchReceipt): Record {
    r.(containers := ContainerFor(receipt.containers, h), served := Some(receipt.served))
  }

  function WithContainers(n: Nodes, launch: seq<Host>, receipt: LaunchReceipt): Nodes {
    Nodes(if Head in launch then WithContainer(n.head, Head, receipt) else n.head,
          if Worker in launch then WithContainer(n.worker, Worker, receipt) else n.worker)
  }

  lemma ContainersKeepLaunch(n: Nodes, launch: seq<Host>, mid: string, g: Gen, receipt: LaunchReceipt)
    requires Launching(n, launch, mid, g) && Unsplit(n)
    ensures Launching(WithContainers(n, launch, receipt), launch, mid, g) && Unsplit(WithContainers(n, launch, receipt))
  {
  }

  lemma StoringIsAllowed(w: Watch, launch: seq<Host>, mid: string, g: Gen, receipt: LaunchReceipt)
    requires Launching(w.persisted, launch, mid, g) && Unsplit(w.persisted) && ReceiptsAtHome(w.persisted)
    requires Selection(launch) && HostSet(launch) <= w.selected
    ensures SaveAllowed(w, WithContainers(w.persisted, launch, receipt))
  {
    var next := WithContainers(w.persisted, launch, receipt);
    ContainersKeepLaunch(w.persisted, launch, mid, g, receipt);
    forall h: Host | next.Of(h) != w.persisted.Of(h) ensures RecordAllowed(w, h, next.Of(h)) {
      assert h in launch && Runs(w.persisted.Of(h), mid, Starting, launch, g);
    }
  }

  // ---- what switch accepts and reaches ------------------------------------------------------

  // The validations switch makes before taking the lock.
  predicate Startable(target: Target, catalog: map<string, CatalogModel>, selected: seq<Host>) {
    match target
    case NoTarget => true
    case YueTarget => selected == BOTH
    case Unlisted => false
    case Model(id) => id in catalog && catalog[id].servable && 1 <= catalog[id].nodes <= |selected|
  }

  function LaunchHosts(target: Target, catalog: map<string, CatalogModel>, selected: seq<Host>): seq<Host>
    requires Selection(selected) && Startable(target, catalog, selected) && target.Model?
  {
    if catalog[target.id].nodes == 1 then selected[..1] else selected
  }

  // The records a completed switch leaves.
  predicate Reached(n: Nodes, target: Target, catalog: map<string, CatalogModel>, selected: seq<Host>, noWait: bool, g: Gen)
    requires Selection(selected)
  {
    match target
    case NoTarget => AllEmptied(n, selected, g)
    case YueTarget => YueReady(n.head, Head, g) && YueReady(n.worker, Worker, g)
                      && n.head.worker.value.id != n.worker.worker.value.id
    case Unlisted => false
    case Model(id) =>
      Startable(target, catalog, selected) &&
      var launch := LaunchHosts(target, catalog, selected);
      forall h: Host :: h in selected ==>
        if h in launch then Runs(n.Of(h), id, if noWait then Starting else Ready, launch, g) else Emptied(n.Of(h), g)
  }

  predicate AllFailed(n: Nodes, selected: seq<Host>) {
    (Head in selected ==> n.head.phase == Failed) && (Worker in selected ==> n.worker.phase == Failed)
  }

  lemma StartingRewrite(n: Nodes, selected: seq<Host>, launch: seq<Host>, mid: string, g: Gen)
    requires Selection(selected) && AllEmptied(n, selected, g) && WholeSelection(n, HostSet(selected))
    requires launch == selected || launch == selected[..1]
    ensures var m := Rewritten(n, HostSet(launch), StartingFields(Vllm, mid, launch, g));
            Unsplit(m) && Launching(m, launch, mid, g)
  {
  }

  lemma DrainReplyChanges(w: Watch, e: Event)
    requires e.DrainReply?
    ensures Observe(w, e) == w.(
              drained := w.drained + if Resolves(e) then {e.host} else {},
              pass := w.pass.(closed := w.pass.closed + if Closes(e) then {e.host} else {},
                              resolved := w.pass.resolved + if Resolves(e) then {e.host} else {}))
  {
  }

  // An idle record whose every failure happened before a connection was made.
  predicate NeverReached(r: Record) {
    && r.phase == Failed && r.mode == Idle && r.error == Unreachable
    && forall i :: 0 <= i < |r.cleanupErrors| ==> r.cleanupErrors[i] == Unreachable
  }

  function ClearedRecord(r: Record): Record {
    r.(phase := Stopped, model := None, error := NoFault, cleanupErrors := [], allocationHosts := [],
       allocationId := None, worker := None, containers := None, served := None)
  }

  function Cleared(n: Nodes, hosts: set<Host>): Nodes {
    Nodes(if Head in hosts then ClearedRecord(n.head) else n.head,
          if Worker in hosts then ClearedRecord(n.worker) else n.worker)
  }

  lemma ClearedKeepsUnsplit(n: Nodes, hosts: set<Host>)
    requires Unsplit(n) && forall h :: h in hosts ==> NeverReached(n.Of(h))
    ensures Unsplit(Cleared(n, hosts))
  {
  }

  // Records outside the selection are untouched.
  predicate KeepsOthers(before: Nodes, after: Nodes, hosts: seq<Host>) {
    (Head !in hosts ==> before.head == after.head) && (Worker !in hosts ==> before.worker == after.worker)
  }

  // The same transition, still before any failure.
  ghost predicate SameRun(a: Watch, b: Watch) {
    a.selected == b.selected && a.cancelJobs == b.cancelJobs && a.generation == b.generation && a.cleaning == b.cleaning
    && a.acked <= b.acked
  }

  // A new pass asked every selected host to drain, and the owned containers were audited.
  predicate Attempted(before: Watch, after: Watch) {
    && after.selected == before.selected
    && after.pass.number == before.pass.number + 1 && after.selected <= after.pass.asked
    && after.audits > before.audits
  }

  // ---- launch receipts ----------------------------------------------------------------

  function IndexOf(hosts: seq<Host>, h: Host): int {
    if hosts == [] then 0 else if hosts[0] == h then 0 else 1 + IndexOf(hosts[1..], h)
  }

  predicate ValidContainers(cs: seq<Container>, hosts: seq<Host>) {
    && |cs| == |hosts|
    && (forall c :: c in cs ==> c.host in hosts && c.wellFormed && c.rank == IndexOf(hosts, c.host))
    && (forall h :: h in hosts ==> exists c :: c in cs && c.host == h)
  }

  function ContainerFor(cs: seq<Container>, h: Host): Option<string> {
    if cs == [] then None else if cs[0].host == h then Some(cs[0].id) else ContainerFor(cs[1..], h)
  }

  predicate OneGeneration(rs: seq<Receipt>) {
    forall i, j :: 0 <= i < j < |rs| ==> rs[i].generation == rs[j].generation
  }

  // ---- what the environment answers; None is a failed remote call ----------------------

  method Succeeds() returns (ok: bool) { ok := *; }

  method AnswerStatus() returns (reply: Option<Status>) { reply := *; }

  method AnswerHealth() returns (reply: Option<Health>) { reply := *; }

  method AnswerLaunch() returns (reply: LaunchReply) { reply := *; }

  method AnswerContainers() returns (reply: Option<seq<Owned>>) { reply := *; }

  // The text of a failure: an unreachable host, or something else.
  method AnswerFault() returns (fault: Fault)
    ensures fault != NoFault
  {
    var unreachable := Succeeds();
    fault := if unreachable then Unreachable else OtherFault;
  }

  // An audit: are owned containers present?
  method AnswerPresence() returns (reply: Option<bool>) { reply := *; }

  // ---- the controller -------------------------------------------------------------------

  class Controller {
    const catalog: map<string, CatalogModel>
    var nodes: Nodes
    var generation: Option<Gen>       // summary field of controller.json
    var nextToken: Gen                // supply of fresh generation tokens
    var operationHosts: Option<seq<Host>>
    var operationGeneration: Option<Gen>

    const origin: Nodes               // the records found at the start
    var log: seq<Event>               // every effect since, in order
    var watch: Watch

    // The log is accepted, disk and memory agree, receipts name their own host.
    ghost predicate Valid()
      reads this
    {
      && Tracks(origin, log, watch)
      && watch.persisted == nodes && Unsplit(nodes)
      && ReceiptsAtHome(nodes)
      && watch.generation < nextToken
      && watch.pass.resolved <= watch.drained
    }

    // Valid, inside a transition on these hosts.
    ghost predicate Operating(hosts: seq<Host>)
      reads this
    {
      && Valid() && Selection(hosts) && operationHosts == Some(hosts)
      && watch.selected == HostSet(hosts) && operationGeneration == Some(watch.generation)
    }

    constructor (catalog: map<string, CatalogModel>, saved: Option<map<Host, Record>>)
      requires Unsplit(NodeStates(saved)) && ReceiptsAtHome(NodeStates(saved))
      ensures Valid() && origin == nodes == NodeStates(saved) && log == [] && operationHosts == None && operationGeneration == None
    {
      this.catalog := catalog;
      nodes := NodeStates(saved);
      origin := NodeStates(saved);
      generation := None;
      nextToken := 1;
      operationHosts, operationGeneration := None, None;
      log, watch := [], Initial(NodeStates(saved));
    }

    method Emit(e: Event)
      requires Tracks(origin, log, watch) && Allowed(watch, e)
      modifies `log, `watch
      ensures Tracks(origin, log, watch)
      ensures log == old(log) + [e] && watch == Observe(old(watch), e)
    {
      AcceptedExtends(origin, log, watch, e);
      log, watch := log + [e], Observe(watch, e);
    }

    // ---- remote effects ------------------------------------------------------------

    // fence_nodes: one fence per selected host, all of them sent whatever fails.
    method FenceNodes(hosts: seq<Host>) returns (failed: bool)
      requires Operating(hosts) && watch.withdrawn
      modifies `log, `watch
      ensures Operating(hosts) && old(log) <= log
      ensures watch == old(watch).(fences := watch.fences, acked := watch.acked)
      ensures watch.selected <= watch.fences && old(watch).acked <= watch.acked
      ensures !failed ==> watch.selected <= watch.acked
    {
      failed := false;
      for i := 0 to |hosts|
        invariant Operating(hosts) && old(log) <= log
        invariant watch == old(watch).(fences := watch.fences, acked := watch.acked)
        invariant old(watch).acked <= watch.acked && forall j :: 0 <= j < i ==> hosts[j] in watch.fences
        invariant !failed ==> forall j :: 0 <= j < i ==> hosts[j] in watch.acked
      {
        Emit(FenceSent(hosts[i]));
        var acknowledged := Succeeds();
        if acknowledged {
          Emit(FenceAcked(hosts[i]));
        } else {
          failed := true;
        }
      }
    }

    // stop_yue: drain every reachable host, then resolve every job, then stop the services.
    method StopYue(hosts: seq<Host>, cancelJobs: bool) returns (ok: bool)
      requires Operating(hosts) && (cancelJobs ==> watch.cancelJobs && !watch.cleaning)
      modifies `log, `watch
      ensures Operating(hosts) && old(log) <= log
      ensures watch == old(watch).(pass := watch.pass, drained := watch.drained) && old(watch).drained <= watch.drained
      // every host is asked, whatever fails
      ensures watch.pass.number == old(watch).pass.number + 1 && watch.selected <= watch.pass.asked
      ensures ok ==> watch.selected <= watch.pass.closed && watch.selected <= watch.pass.resolved
    {
      var statuses: seq<Status>;
      statuses, ok := DrainAll(hosts);
      if ok {
        ok := ResolveJobs(hosts, statuses, cancelJobs);
      }
      if ok {
        ok := StopServices(hosts, statuses);
      }
    }

    // What the drain replies of the hosts from the i-th up to the n-th say holds in the current pass.
    ghost predicate Replied(hosts: seq<Host>, statuses: seq<Status>, i: nat, n: nat)
      reads this
    {
      && |statuses| == n <= |hosts|
      && forall j :: i <= j < n ==>
           && (hosts[j] in watch.pass.resolved <==> Resolves(DrainReply(hosts[j], statuses[j])))
           && (hosts[j] in watch.pass.closed <==> Closes(DrainReply(hosts[j], statuses[j])))
    }

    method DrainAll(hosts: seq<Host>) returns (statuses: seq<Status>, ok: bool)
      requires Operating(hosts)
      modifies `log, `watch
      ensures Operating(hosts) && old(log) <= log
      ensures watch == old(watch).(pass := watch.pass, drained := watch.drained) && old(watch).drained <= watch.drained
      ensures watch.pass.number == old(watch).pass.number + 1 && watch.selected <= watch.pass.asked
      ensures ok ==> Replied(hosts, statuses, 0, |hosts|)
    {
      Emit(DrainBegan);
      statuses, ok := DrainEach(hosts);
    }

    method DrainEach(hosts: seq<Host>) returns (statuses: seq<Status>, ok: bool)
      requires Operating(hosts) && watch.pass == FirstPass(watch.pass.number) && watch.pass.number > 0
      modifies `log, `watch
      ensures Operating(hosts) && old(log) <= log && old(watch).drained <= watch.drained
      ensures watch == old(watch).(pass := watch.pass, drained := watch.drained)
      ensures watch.pass.number == old(watch).pass.number && watch.selected <= watch.pass.asked
      ensures ok ==> Replied(hosts, statuses, 0, |hosts|)
    {
      statuses, ok := [], true;
      for i := 0 to |hosts|
        invariant Operating(hosts) && old(log) <= log && old(watch).drained <= watch.drained
        invariant watch == old(watch).(pass := watch.pass, drained := watch.drained)
        invariant watch.pass.number == old(watch).pass.number && forall j :: 0 <= j < i ==> hosts[j] in watch.pass.asked
        invariant forall j :: i <= j < |hosts| ==> hosts[j] !in watch.pass.resolved && hosts[j] !in watch.pass.closed
        invariant ok ==> Replied(hosts, statuses, 0, i)
      {
        var reply := Drain(hosts[i], hosts);
        match reply
        case None => ok := false;
        case Some(status) => statuses := statuses + [status];
      }
    }

    method Drain(h: Host, hosts: seq<Host>) returns (reply: Option<Status>)
      requires Operating(hosts) && h in watch.selected && watch.pass.number > 0
      requires h !in watch.pass.resolved && h !in watch.pass.closed
      modifies `log, `watch
      ensures Operating(hosts) && old(log) <= log && old(watch).drained <= watch.drained
      ensures watch == old(watch).(drained := watch.drained, pass := old(watch).pass.(
                asked := old(watch).pass.asked + {h}, closed := watch.pass.closed, resolved := watch.pass.resolved))
      ensures watch.pass.closed == old(watch).pass.closed
                                   + if reply.Some? && Closes(DrainReply(h, reply.value)) then {h} else {}
      ensures watch.pass.resolved == old(watch).pass.resolved
                                     + if reply.Some? && Resolves(DrainReply(h, reply.value)) then {h} else {}
    {
      Emit(DrainSent(h));
      reply := AnswerStatus();
      if reply.Some? {
        DrainReplyChanges(watch, DrainReply(h, reply.value));
        Emit(DrainReply(h, reply.value));
      }
    }

    method ResolveJobs(hosts: seq<Host>, statuses: seq<Status>, cancelJobs: bool) returns (ok: bool)
      requires Operating(hosts) && (cancelJobs ==> watch.cancelJobs && !watch.cleaning) && Replied(hosts, statuses, 0, |hosts|)
      modifies `log, `watch
      ensures Operating(hosts) && old(log) <= log && old(watch).drained <= watch.drained
      ensures watch == old(watch).(drained := watch.drained, pass := old(watch).pass.(
                cancelled := watch.pass.cancelled, resolved := watch.pass.resolved))
      ensures ok ==> watch.selected <= watch.pass.closed && watch.selected <= watch.pass.resolved
    {
      var active := false;
      for i := 0 to |hosts|
        invariant Operating(hosts) && old(log) <= log && old(watch).drained <= watch.drained
        invariant watch == old(watch).(drained := watch.drained, pass := old(watch).pass.(
                    cancelled := watch.pass.cancelled, resolved := watch.pass.resolved))
        invariant Replied(hosts, statuses, i, |hosts|)
        invariant !active ==> forall j :: 0 <= j < i ==> hosts[j] in watch.pass.resolved && hosts[j] in watch.pass.closed
      {
        var job := ResolveJob(hosts[i], statuses[i], cancelJobs, hosts);
        match job {
          case Unresolved => return false;
          case StillActive => active := true;
          case Resolved =>
        }
      }
      ok := !active;
    }

    // A job is resolved when admission is closed and nothing runs: in the drain reply, or
    // in a status asked after a cancel.
    method ResolveJob(h: Host, drained: Status, cancelJobs: bool, hosts: seq<Host>) returns (job: JobState)
      requires Operating(hosts) && h in watch.selected && (cancelJobs ==> watch.cancelJobs && !watch.cleaning)
      requires h in watch.pass.resolved <==> Resolves(DrainReply(h, drained))
      requires h in watch.pass.closed <==> Closes(DrainReply(h, drained))
      modifies `log, `watch
      ensures Operating(hosts) && old(log) <= log && old(watch).drained <= watch.drained
      ensures watch == old(watch).(drained := watch.drained, pass := old(watch).pass.(
                cancelled := watch.pass.cancelled, resolved := watch.pass.resolved))
      ensures watch.pass.resolved == old(watch).pass.resolved || watch.pass.resolved == old(watch).pass.resolved + {h}
      ensures job == Resolved ==> h in watch.pass.closed && h in watch.pass.resolved
      ensures job == Resolved && drained.installed && drained.job ==> h in watch.pass.cancelled && cancelJobs
    {
      var status := drained;
      if !status.installed {
        return Resolved;
      }
      if status.accepting {
        return Unresolved;
      }
      if status.job {
        if !cancelJobs || !status.jobId {
          return StillActive;
        }
        Emit(CancelSent(h));
        var reply := AnswerStatus();
        if reply.None? {
          return Unresolved;
        }
        status := reply.value;
        Emit(StatusReply(h, status));
      }
      job := if Settled(status) then Resolved else Unresolved;
    }

    method StopServices(hosts: seq<Host>, statuses: seq<Status>) returns (ok: bool)
      requires Operating(hosts) && |statuses| == |hosts| && watch.selected <= watch.pass.resolved
      modifies `log, `watch
      ensures Operating(hosts) && old(log) <= log
      ensures watch == old(watch).(pass := old(watch).pass.(stopped := watch.pass.stopped))
      ensures ok ==> forall j :: 0 <= j < |hosts| && statuses[j].installed ==> hosts[j] in watch.pass.stopped
    {
      for i := 0 to |hosts|
        invariant Operating(hosts) && old(log) <= log
        invariant watch == old(watch).(pass := old(watch).pass.(stopped := watch.pass.stopped))
        invariant forall j :: 0 <= j < i && statuses[j].installed ==> hosts[j] in watch.pass.stopped
      {
        if statuses[i].installed {
          Emit(ServiceStopped(hosts[i]));
          var inactive := Succeeds();
          if !inactive {
            return false;
          }
        }
      }
      ok := true;
    }

    // stop_vllm: remove the owned containers of each host and audit again.
    method StopVllm(hosts: seq<Host>) returns (ok: bool)
      requires Operating(hosts) && watch.selected <= watch.drained && watch.selected <= watch.acked
      modifies `log, `watch
      ensures Operating(hosts) && old(log) <= log
      ensures watch == old(watch).(idle := watch.idle, audits := watch.audits)
      ensures watch.audits > old(watch).audits
    {
      for i := 0 to |hosts|
        invariant Operating(hosts) && old(log) <= log
        invariant watch == old(watch).(idle := watch.idle, audits := watch.audits)
        invariant if i == 0 then watch == old(watch) else watch.audits > old(watch).audits
      {
        var gone := StopOwned(hosts[i], hosts);
        if !gone {
          return false;
        }
      }
      ok := true;
    }

    method StopOwned(h: Host, hosts: seq<Host>) returns (gone: bool)
      requires Operating(hosts) && h in watch.selected
      requires watch.selected <= watch.drained && watch.selected <= watch.acked
      modifies `log, `watch
      ensures Operating(hosts) && old(log) <= log
      ensures watch == old(watch).(idle := watch.idle, audits := watch.audits)
      ensures watch.audits > old(watch).audits
    {
      var before := Audit(h, hosts);
      if before.None? {
        return false;
      }
      if before.value {
        Emit(RemoveSent(h));
      }
      var after := Audit(h, hosts);
      gone := after == Some(false);
    }

    // audit: are owned containers present? None when the host does not answer.
    method Audit(h: Host, hosts: seq<Host>) returns (present: Option<bool>)
      requires Operating(hosts) && h in watch.selected
      modifies `log, `watch
      ensures Operating(hosts) && old(log) <= log && watch == old(watch).(audits := old(watch).audits + 1)
    {
      Emit(AuditSent(h));
      present := AnswerPresence();
    }

    // _verify_host_idle: no listener, no GPU container, no blocking GPU process.
    method VerifyHostIdle(h: Host) returns (ok: bool)
      requires Valid()
      modifies `log, `watch
      ensures Valid() && old(log) <= log
      ensures watch == old(watch).(idle := watch.idle) && old(watch).idle <= watch.idle
      ensures ok ==> h in watch.idle
    {
      ok := Succeeds();
      if ok {
        Emit(IdleAudit(h));
      }
    }

    method VerifyIdle(hosts: seq<Host>) returns (ok: bool)
      requires Operating(hosts)
      modifies `log, `watch
      ensures Operating(hosts) && old(log) <= log
      ensures watch == old(watch).(idle := watch.idle)
      ensures ok ==> watch.selected <= watch.idle
    {
      for i := 0 to |hosts|
        invariant Operating(hosts) && old(log) <= log
        invariant watch == old(watch).(idle := watch.idle)
        invariant forall j :: 0 <= j < i ==> hosts[j] in watch.idle
      {
        var idle := VerifyHostIdle(hosts[i]);
        if !idle {
          return false;
        }
      }
      ok := true;
    }

    // ---- persisted state -------------------------------------------------------------

    method Save(next: Nodes)
      requires Valid() && SaveAllowed(watch, next) && ReceiptsAtHome(next)
      modifies `nodes, `log, `watch
      ensures Valid() && old(log) <= log && nodes == next && watch == old(watch).(persisted := next)
    {
      nodes := next;
      Emit(Saved(next));
    }

    // _save_selected on the given hosts of the operation.
    method SaveSelected(hosts: seq<Host>, f: Fields)
      requires Valid() && SaveAllowed(watch, Rewritten(nodes, HostSet(hosts), f))
      modifies `nodes, `generation, `log, `watch
      ensures Valid() && old(log) <= log
      ensures nodes == Rewritten(old(nodes), HostSet(hosts), f) && watch == old(watch).(persisted := nodes)
    {
      var next := nodes;
      for i := 0 to |BOTH|
        invariant next.head == if i > 0 && Head in hosts then Rewrite(nodes.head, f) else nodes.head
        invariant next.worker == if i > 1 && Worker in hosts then Rewrite(nodes.worker, f) else nodes.worker
      {
        if BOTH[i] in hosts {
          next := next.With(BOTH[i], Rewrite(next.Of(BOTH[i]), f));
        }
      }
      if f.generation.Some? {
        generation := f.generation;
      }
      Save(next);
    }

    // revoke: publish only the receipts of hosts this operation does not touch.
    method Revoke(hosts: seq<Host>) returns (ok: bool)
      requires Operating(hosts)
      modifies `log, `watch
      ensures Operating(hosts) && old(log) <= log
      ensures watch == old(watch).(withdrawn := watch.withdrawn)
      ensures ok ==> watch.withdrawn
    {
      var remaining: seq<Receipt> := [];
      for i := 0 to |BOTH|
        invariant forall j :: 0 <= j < |remaining| ==> remaining[j].host !in hosts && ReadyReceipt(nodes, remaining[j])
        invariant |remaining| <= 1 && (i == 0 || (i == 1 && Head in hosts) ==> remaining == [])
      {
        var h := BOTH[i];
        var r := nodes.Of(h);
        if h !in hosts && r.mode == Yue && r.phase == Ready && r.worker.Some? {
          remaining := remaining + [r.worker.value];
        }
      }
      if !OneGeneration(remaining) {
        return false;
      }
      Emit(Published(remaining, if remaining == [] then generation else Some(remaining[0].generation)));
      ok := true;
    }

    // ---- one transition -----------------------------------------------------------------

    // From the first save to an idle, verified selection: drain, withdraw discovery,
    // fence, resolve jobs, remove owned containers, audit.
    method Empty(hosts: seq<Host>, cancelJobs: bool, g: Gen) returns (ok: bool)
      requires Operating(hosts) && WholeSelection(nodes, HostSet(hosts)) && g == watch.generation
      requires !watch.cleaning && cancelJobs == watch.cancelJobs && watch.started == {}
      modifies `nodes, `generation, `log, `watch
      ensures Operating(hosts) && old(log) <= log && WholeSelection(nodes, HostSet(hosts))
      ensures KeepsOthers(old(nodes), nodes, hosts)
      ensures SameRun(old(watch), watch) && watch.started == {}
      ensures ok ==> MayStart(watch) && watch.fences != {} && watch.selected <= watch.drained && AllEmptied(nodes, hosts, g)
    {
      ok := Withdraw(hosts, g);
      if ok {
        ok := FenceAndDrain(hosts, cancelJobs);
      }
      if ok {
        ok := Vacate(hosts);
      }
      if ok {
        MarkStopped(hosts, g);
      }
    }

    method Withdraw(hosts: seq<Host>, g: Gen) returns (ok: bool)
      requires Operating(hosts) && WholeSelection(nodes, HostSet(hosts)) && g == watch.generation
      modifies `nodes, `generation, `log, `watch
      ensures Operating(hosts) && old(log) <= log && WholeSelection(nodes, HostSet(hosts))
      ensures nodes == Rewritten(old(nodes), HostSet(hosts), DrainingFields(g))
      ensures watch == old(watch).(persisted := nodes, withdrawn := watch.withdrawn)
      ensures ok ==> watch.withdrawn
    {
      RewritePhaseKeepsUnsplit(nodes, HostSet(hosts), DrainingFields(g));
      SaveSelected(hosts, DrainingFields(g));
      ok := Revoke(hosts);
    }

    method Vacate(hosts: seq<Host>) returns (ok: bool)
      requires Operating(hosts) && WholeSelection(nodes, HostSet(hosts))
      requires watch.selected <= watch.drained && watch.selected <= watch.acked
      modifies `nodes, `generation, `log, `watch
      ensures Operating(hosts) && old(log) <= log && WholeSelection(nodes, HostSet(hosts))
      ensures nodes == Rewritten(old(nodes), HostSet(hosts), StoppingFields())
      ensures watch == old(watch).(persisted := nodes, idle := watch.idle, audits := watch.audits)
      ensures ok ==> watch.selected <= watch.idle
    {
      RewritePhaseKeepsUnsplit(nodes, HostSet(hosts), StoppingFields());
      SaveSelected(hosts, StoppingFields());
      ok := StopVllm(hosts);
      if ok {
        ok := VerifyIdle(hosts);
      }
    }

    method MarkStopped(hosts: seq<Host>, g: Gen)
      requires Operating(hosts) && WholeSelection(nodes, HostSet(hosts)) && watch.selected <= watch.idle
      requires forall h: Host :: h in hosts ==> nodes.Of(h).generation == Some(g)
      modifies `nodes, `generation, `log, `watch
      ensures Operating(hosts) && old(log) <= log && WholeSelection(nodes, HostSet(hosts))
      ensures KeepsOthers(old(nodes), nodes, hosts) && AllEmptied(nodes, hosts, g)
      ensures watch == old(watch).(persisted := nodes)
    {
      RewriteIdleKeepsUnsplit(nodes, HostSet(hosts), StoppedFields());
      SaveSelected(hosts, StoppedFields());
    }

    // Every host is fenced and asked to drain, whatever fails; any failure ends the transition.
    method FenceAndDrain(hosts: seq<Host>, cancelJobs: bool) returns (ok: bool)
      requires Operating(hosts) && watch.withdrawn && !watch.cleaning && cancelJobs == watch.cancelJobs
      modifies `log, `watch
      ensures Operating(hosts) && old(log) <= log
      ensures watch == old(watch).(fences := watch.fences, acked := watch.acked, pass := watch.pass, drained := watch.drained)
      ensures watch.selected <= watch.fences && old(watch).acked <= watch.acked
      ensures watch.pass.number == old(watch).pass.number + 1 && watch.selected <= watch.pass.asked
      ensures ok ==> watch.selected <= watch.acked && watch.selected <= watch.pass.closed && watch.selected <= watch.drained
    {
      var failed := FenceNodes(hosts);
      var drained := StopYue(hosts, cancelJobs);
      ok := !failed && drained;
    }

    // start_yue: restart, admit and validate both workers, then persist and publish them.
    method StartYue(g: Gen) returns (ok: bool)
      requires Operating(BOTH) && MayStart(watch) && watch.fences != {} && g == watch.generation
      requires !Spans(nodes.head) && !Spans(nodes.worker)
      modifies `nodes, `generation, `log, `watch
      ensures Operating(BOTH) && old(log) <= log && SameRun(old(watch), watch) && watch.drained == old(watch).drained
      ensures !ok ==> nodes == old(nodes)
      ensures ok ==> YueReady(nodes.head, Head, g) && YueReady(nodes.worker, Worker, g)
      ensures ok ==> nodes.head.worker.value.id != nodes.worker.worker.value.id
    {
      var ready: seq<Receipt>;
      ready, ok := AdmitAll(g);
      if ok && ready[0].id == ready[1].id {
        return false;
      }
      if ok {
        PublishYue(ready[0], ready[1], g);
      }
    }

    method AdmitAll(g: Gen) returns (ready: seq<Receipt>, ok: bool)
      requires Operating(BOTH) && MayStart(watch) && g == watch.generation
      modifies `log, `watch
      ensures Operating(BOTH) && old(log) <= log
      ensures watch == old(watch).(started := watch.started, admitted := watch.admitted)
      ensures ok ==> watch.selected <= watch.started && watch.selected <= watch.admitted
      ensures ok ==> |ready| == 2 && ready[0].host == Head && ready[1].host == Worker
      ensures ok ==> ready[0].generation == ready[1].generation == g
    {
      ready := [];
      for i := 0 to |BOTH|
        invariant Operating(BOTH) && old(log) <= log && |ready| == i
        invariant watch == old(watch).(started := watch.started, admitted := watch.admitted)
        invariant forall j :: 0 <= j < i ==> ready[j].host == BOTH[j] && ready[j].generation == g
        invariant forall j :: 0 <= j < i ==> BOTH[j] in watch.started && BOTH[j] in watch.admitted
      {
        var receipt := AdmitWorker(BOTH[i], g);
        if receipt.None? {
          return ready, false;
        }
        ready := ready + [receipt.value];
      }
      assert BOTH[0] in watch.started && BOTH[1] in watch.started;
      ok := true;
    }

    method PublishYue(first: Receipt, second: Receipt, g: Gen)
      requires Operating(BOTH) && watch.fences != {} && g == watch.generation
      requires watch.selected <= watch.started && watch.selected <= watch.admitted
      requires first.host == Head && second.host == Worker && first.generation == second.generation == g
      requires first.id != second.id
      modifies `nodes, `generation, `log, `watch
      ensures Operating(BOTH) && old(log) <= log && SameRun(old(watch), watch) && watch.drained == old(watch).drained
      ensures nodes == Nodes(YueRecord(old(nodes).head, first), YueRecord(old(nodes).worker, second))
    {
      generation := Some(g);
      Save(nodes);
      Save(Nodes(YueRecord(nodes.head, first), YueRecord(nodes.worker, second)));
      Emit(Published([first, second], Some(g)));
    }

    method AdmitWorker(h: Host, g: Gen) returns (receipt: Option<Receipt>)
      requires Operating(BOTH) && MayStart(watch) && g == watch.generation
      modifies `log, `watch
      ensures Operating(BOTH) && old(log) <= log
      ensures watch == old(watch).(started := watch.started, admitted := watch.admitted)
      ensures old(watch).started <= watch.started && old(watch).admitted <= watch.admitted
      ensures receipt.Some? ==> receipt.value.host == h && receipt.value.generation == g
      ensures receipt.Some? ==> h in watch.started && h in watch.admitted
    {
      Emit(StartSent(h));
      var drained := Succeeds();  // the restart succeeded and the factory came up drained in time
      if !drained {
        return None;
      }
      Emit(AdmitSent(h));
      var control := AnswerHealth();
      var health := AnswerHealth();
      if control.None? || health.None? || !HealthReady(control.value, g) || !HealthReady(health.value, g)
         || control.value.workerId != health.value.workerId || control.value.manifest != health.value.manifest {
        return None;
      }
      receipt := Some(Receipt(health.value.workerId, h, g));
    }

    // start_vllm and the checks of its receipt, then the final record of the launch hosts.
    method LaunchModel(mid: string, launch: seq<Host>, g: Gen, noWait: bool, served: string) returns (ok: bool)
      requires Operating(Or(operationHosts, [])) && MayStart(watch) && g == watch.generation
      requires Selection(launch) && HostSet(launch) <= watch.selected
      requires Launching(nodes, launch, mid, g)
      modifies `nodes, `generation, `log, `watch
      ensures Operating(Or(operationHosts, [])) && old(log) <= log
      ensures SameRun(old(watch), watch) && watch.drained == old(watch).drained
      ensures KeepsOthers(old(nodes), nodes, launch) && Launched(nodes, launch)
      ensures ok ==> forall h: Host :: h in launch ==> Runs(nodes.Of(h), mid, if noWait then Starting else Ready, launch, g)
    {
      ok := SendLaunch(launch);
      if !ok {
        return;
      }
      ok := RecordReceipt(mid, launch, g, noWait, served);
      if !ok {
        return;
      }
      SaveRunning(mid, launch, g, if noWait then Starting else Ready);
    }

    method SaveRunning(mid: string, launch: seq<Host>, g: Gen, phase: Phase)
      requires Valid() && Launching(nodes, launch, mid, g) && Selection(launch) && HostSet(launch) <= watch.selected
      requires g == watch.generation && (phase == Starting || (phase == Ready && HostSet(launch) <= watch.started))
      modifies `nodes, `generation, `log, `watch
      ensures Valid() && old(log) <= log && watch == old(watch).(persisted := nodes)
      ensures KeepsOthers(old(nodes), nodes, launch) && Launched(nodes, launch)
      ensures forall h: Host :: h in launch ==> Runs(nodes.Of(h), mid, phase, launch, g)
    {
      LaunchRewrite(nodes, launch, mid, g, RunningFields(mid, phase, g));
      SaveSelected(launch, RunningFields(mid, phase, g));
    }

    method SendLaunch(launch: seq<Host>) returns (ok: bool)
      requires Valid() && MayStart(watch) && HostSet(launch) <= watch.selected
      modifies `log, `watch
      ensures Valid() && old(log) <= log && watch == old(watch).(started := watch.started)
      ensures ok ==> HostSet(launch) <= watch.started
    {
      for i := 0 to |launch|
        invariant Valid() && old(log) <= log && watch == old(watch).(started := watch.started)
        invariant forall j :: 0 <= j < i ==> launch[j] in watch.started
      {
        InHostSet(launch, i);
        Emit(StartSent(launch[i]));
        var sent := Succeeds();
        if !sent {
          return false;
        }
      }
      ok := true;
    }

    method RecordReceipt(mid: string, launch: seq<Host>, g: Gen, noWait: bool, served: string) returns (ok: bool)
      requires Valid() && Launching(nodes, launch, mid, g) && Selection(launch) && HostSet(launch) <= watch.selected
      modifies `nodes, `log, `watch
      ensures Valid() && old(log) <= log && watch == old(watch).(persisted := nodes)
      ensures Launching(nodes, launch, mid, g) && KeepsOthers(old(nodes), nodes, launch)
    {
      var reply := AnswerLaunch();
      match reply
      case Raised => return false;
      case NoReceipt => return true;
      case Received(receipt) =>
        if !ValidContainers(receipt.containers, launch) || (!noWait && receipt.served != served) {
          return false;
        }
        ContainersKeepLaunch(nodes, launch, mid, g, receipt);
        StoreReceipt(mid, launch, g, receipt);
        return true;
    }

    method StoreReceipt(mid: string, launch: seq<Host>, g: Gen, receipt: LaunchReceipt)
      requires Valid() && Launching(nodes, launch, mid, g) && Selection(launch) && HostSet(launch) <= watch.selected
      modifies `nodes, `log, `watch
      ensures Valid() && old(log) <= log && watch == old(watch).(persisted := nodes)
      ensures nodes == WithContainers(old(nodes), launch, receipt)
    {
      var next := WithContainers(nodes, launch, receipt);
      ContainersKeepLaunch(nodes, launch, mid, g, receipt);
      StoringIsAllowed(watch, launch, mid, g, receipt);
      Save(next);
    }

    // ---- switch -----------------------------------------------------------------------

    method Switch(target: Target, hosts: Option<seq<Host>>, cancelJobs: bool, noWait: bool) returns (r: Outcome)
      requires Valid() && operationHosts == None && operationGeneration == None
      modifies this
      ensures Valid() && operationHosts == None && operationGeneration == None && old(log) <= log
      // refused before any remote effect: a bad request, and a one-host request on a member of a spanning allocation
      ensures r == Rejected ==> nodes == old(nodes) && log == old(log)
      ensures SelectHosts(hosts) == None ==> r == Rejected
      ensures SelectHosts(hosts).Some? && !WholeSelection(old(nodes), HostSet(SelectHosts(hosts).value)) ==> r == Rejected
      ensures SelectHosts(hosts).Some? ==> KeepsOthers(old(nodes), nodes, SelectHosts(hosts).value)
      ensures r == FailedSwitch ==> SelectHosts(hosts).Some? && AllFailed(nodes, SelectHosts(hosts).value)
      ensures r == Done ==> SelectHosts(hosts).Some? && nextToken == old(nextToken) + 1
                            && Reached(nodes, target, catalog, SelectHosts(hosts).value, noWait, old(nextToken))
    {
      var selection := SelectHosts(hosts);
      if selection.None? || !Startable(target, catalog, selection.value) {
        return Rejected;
      }
      var selected := selection.value;
      var locked := Succeeds();  // controller.lock, without waiting
      if !locked {
        return Rejected;
      }
      var whole := CheckScope(selected);
      if !whole {
        return Rejected;
      }
      var revoked := Succeeds();  // revoke_benchmarks
      if !revoked {
        return Rejected;
      }
      var done := Operate(target, selected, cancelJobs, noWait);
      r := if done then Done else FailedSwitch;
    }

    // The operation fields are set with a fresh token and cleared however the transition ends.
    method Operate(target: Target, selected: seq<Host>, cancelJobs: bool, noWait: bool) returns (done: bool)
      requires Valid() && Selection(selected) && WholeSelection(nodes, HostSet(selected))
      requires Startable(target, catalog, selected)
      modifies this
      ensures Valid() && operationHosts == None && operationGeneration == None && old(log) <= log
      ensures nextToken == old(nextToken) + 1 && KeepsOthers(old(nodes), nodes, selected)
      ensures done ==> Reached(nodes, target, catalog, selected, noWait, old(nextToken))
      ensures !done ==> AllFailed(nodes, selected)
    {
      var g := nextToken;
      nextToken := g + 1;
      operationHosts, operationGeneration := Some(selected), Some(g);
      Emit(Began(HostSet(selected), cancelJobs, g));
      done := Transition(target, selected, cancelJobs, noWait, g);
      operationHosts, operationGeneration := None, None;
    }

    // _check_scope: both hosts, or one host whose records and containers show no wider allocation.
    method CheckScope(selected: seq<Host>) returns (ok: bool)
      requires Valid() && Selection(selected)
      ensures ok ==> WholeSelection(nodes, HostSet(selected))
    {
      if |selected| == 2 {
        return true;
      }
      var h := selected[0];
      if !RecordsAllow(nodes, h) {
        return false;
      }
      RecordsAllowWhole(nodes, h);
      var record := nodes.Of(h);
      var knownSolo := record.mode == Vllm && record.allocationHosts == [h] && record.model.Some? && record.model.value in catalog;
      var containers := AnswerContainers();
      if containers.None? {
        return false;
      }
      for i := 0 to |containers.value| {
        if !ContainerAllows(containers.value[i], h, knownSolo) {
          return false;
        }
      }
      ok := true;
    }

    // The try block of switch with its failure handler.
    method Transition(target: Target, selected: seq<Host>, cancelJobs: bool, noWait: bool, g: Gen) returns (done: bool)
      requires Operating(selected) && WholeSelection(nodes, HostSet(selected)) && g == watch.generation
      requires !watch.cleaning && watch.cancelJobs == cancelJobs && watch.started == {}
      requires Startable(target, catalog, selected)
      modifies `nodes, `generation, `log, `watch
      ensures Operating(selected) && old(log) <= log
      ensures KeepsOthers(old(nodes), nodes, selected)
      ensures done ==> Reached(nodes, target, catalog, selected, noWait, g)
      ensures !done ==> AllFailed(nodes, selected)
    {
      done := Empty(selected, cancelJobs, g);
      var started := false;
      if done {
        done := Succeeds();  // after_idle
      }
      if done && target != NoTarget {
        started := true;
        done := Start(target, selected, noWait, g);
      }
      if !done {
        CleanUp(selected, started);
      }
    }

    method Start(target: Target, selected: seq<Host>, noWait: bool, g: Gen) returns (ok: bool)
      requires Operating(selected) && MayStart(watch) && watch.fences != {} && g == watch.generation
      requires watch.selected <= watch.drained && AllEmptied(nodes, selected, g)
      requires WholeSelection(nodes, HostSet(selected)) && target != NoTarget && Startable(target, catalog, selected)
      modifies `nodes, `generation, `log, `watch
      ensures Operating(selected) && old(log) <= log && WholeSelection(nodes, HostSet(selected))
      ensures KeepsOthers(old(nodes), nodes, selected)
      ensures SameRun(old(watch), watch) && watch.selected <= watch.drained
      ensures ok ==> Reached(nodes, target, catalog, selected, noWait, g)
    {
      if target == YueTarget {
        ok := BeginYue(g);
      } else {
        var launch := LaunchHosts(target, catalog, selected);
        BeginLaunch(target.id, selected, launch, g);
        ok := LaunchModel(target.id, launch, g, noWait, catalog[target.id].served);
      }
    }

    method BeginYue(g: Gen) returns (ok: bool)
      requires Operating(BOTH) && MayStart(watch) && watch.fences != {} && g == watch.generation
      requires AllEmptied(nodes, BOTH, g)
      modifies `nodes, `generation, `log, `watch
      ensures !ok ==> nodes == Rewritten(old(nodes), HostSet(BOTH), StartingFields(Yue, "yue", [], g))
      ensures Operating(BOTH) && old(log) <= log && SameRun(old(watch), watch) && watch.drained == old(watch).drained
      ensures ok ==> YueReady(nodes.head, Head, g) && YueReady(nodes.worker, Worker, g)
      ensures ok ==> nodes.head.worker.value.id != nodes.worker.worker.value.id
    {
      RewriteBothKeepsSame(nodes, StartingFields(Yue, "yue", [], g));
      SaveSelected(BOTH, StartingFields(Yue, "yue", [], g));
      ok := StartYue(g);
    }

    method BeginLaunch(mid: string, selected: seq<Host>, launch: seq<Host>, g: Gen)
      requires Operating(selected) && AllEmptied(nodes, selected, g) && WholeSelection(nodes, HostSet(selected))
      requires launch == selected || launch == selected[..1]
      modifies `nodes, `generation, `log, `watch
      ensures Operating(selected) && old(log) <= log && watch == old(watch).(persisted := nodes)
      ensures Launching(nodes, launch, mid, g) && KeepsOthers(old(nodes), nodes, launch)
    {
      StartingRewrite(nodes, selected, launch, mid, g);
      SaveSelected(launch, StartingFields(Vllm, mid, launch, g));
    }

    // The exception handler: withdraw discovery, clean up a partial start, record the failure.
    method CleanUp(selected: seq<Host>, started: bool)
      requires Operating(selected) && WholeSelection(nodes, HostSet(selected))
      requires started ==> watch.selected <= watch.drained && watch.selected <= watch.acked
      modifies `nodes, `generation, `log, `watch
      ensures Operating(selected) && old(log) <= log
      ensures KeepsOthers(old(nodes), nodes, selected) && AllFailed(nodes, selected)
      ensures started ==> Attempted(old(watch), watch)
    {
      Emit(CleanupBegan);
      var cleanup := Undo(selected, started);
      RecordFailure(selected, cleanup);
    }

    method RecordFailure(selected: seq<Host>, cleanup: seq<Fault>)
      requires Operating(selected) && WholeSelection(nodes, HostSet(selected))
      modifies `nodes, `generation, `log, `watch
      ensures Operating(selected) && old(log) <= log && watch == old(watch).(persisted := nodes)
      ensures KeepsOthers(old(nodes), nodes, selected) && AllFailed(nodes, selected)
    {
      var error := AnswerFault();
      RewritePhaseKeepsUnsplit(nodes, HostSet(selected), FailedFields(error, cleanup));
      SaveSelected(selected, FailedFields(error, cleanup));
    }

    // Each step is attempted whatever the others do; jobs are never cancelled here.
    method Undo(selected: seq<Host>, started: bool) returns (cleanup: seq<Fault>)
      requires Operating(selected) && (started ==> watch.selected <= watch.drained && watch.selected <= watch.acked)
      modifies `log, `watch
      ensures Operating(selected) && old(log) <= log
      ensures watch.withdrawn || cleanup != []
      ensures started ==> Attempted(old(watch), watch)
    {
      cleanup := [];
      var ok := Revoke(selected);
      if !ok {
        cleanup := [OtherFault];
      }
      if started {
        var errors := StopPartial(selected);
        cleanup := cleanup + errors;
      }
    }

    method StopPartial(selected: seq<Host>) returns (errors: seq<Fault>)
      requires Operating(selected) && watch.selected <= watch.drained && watch.selected <= watch.acked
      modifies `log, `watch
      ensures Operating(selected) && old(log) <= log && watch.withdrawn == old(watch).withdrawn
      ensures Attempted(old(watch), watch)
      ensures errors == [] ==> watch.selected <= watch.pass.resolved
    {
      errors := [];
      var ok := StopYue(selected, false);
      if !ok {
        var fault := AnswerFault();
        errors := errors + [fault];
      }
      ok := StopVllm(selected);
      if !ok {
        var fault := AnswerFault();
        errors := errors + [fault];
      }
    }

    // ---- reconciliation -------------------------------------------------------------------

    // reconcile_unreachable: clear failures of transitions that never reached a host,
    // once the host passes the idle audit.
    method ReconcileUnreachable() returns (cleared: set<Host>)
      requires Valid() && operationHosts == None
      modifies `nodes, `log, `watch
      ensures Valid() && old(log) <= log
      ensures forall h :: h in cleared ==> NeverReached(old(nodes).Of(h)) && h in watch.idle
      ensures nodes == Cleared(old(nodes), cleared)
    {
      cleared := {};
      if !NeverReached(nodes.head) && !NeverReached(nodes.worker) {
        return;
      }
      var locked := Succeeds();
      if !locked {
        return;
      }
      Emit(Began({}, false, watch.generation));
      for i := 0 to |BOTH|
        invariant Valid() && old(log) <= log && watch.selected == {} && nodes == old(nodes)
        invariant forall h :: h in cleared ==> NeverReached(nodes.Of(h)) && h in watch.idle
      {
        if NeverReached(nodes.Of(BOTH[i])) {
          var idle := VerifyHostIdle(BOTH[i]);
          if idle {
            cleared := cleared + {BOTH[i]};
          }
        }
      }
      if cleared != {} {
        ClearedKeepsUnsplit(nodes, cleared);
        Save(Cleared(nodes, cleared));
      }
    }

    // ---- whole runs -------------------------------------------------------------------------

    // The process dies: only the log up to some event happened, and the next process
    // starts from what was on disk then.
    method Crash(k: nat)
      requires Valid() && k <= |log| && Unsplit(origin) && ReceiptsAtHome(origin)
      modifies this
      ensures log == old(log)[..k] && nodes == After(origin, log).persisted
      ensures Valid() && operationHosts == None && operationGeneration == None
    {
      AcceptedPrefix(origin, log, k);
      TokensGrow(origin, log, k);
      ResolvedIsDrained(origin, log[..k]);
      log := log[..k];
      watch := After(origin, log);
      nodes := watch.persisted;
      operationHosts, operationGeneration := None, None;
      PersistedUnsplit(origin, log);
      PersistedAtHome(origin, log);
    }
  }

  // Any sequence of operations, each of which may be cut by a crash at any event.
  datatype Operation = SwitchTo(target: Target, hosts: Option<seq<Host>>, cancelJobs: bool, noWait: bool) | Reconcile

  // Whatever is requested, answered and cut short, the whole log is accepted and the
  // records on disk describe every two-host allocation once.
  method Session(catalog: map<string, CatalogModel>, saved: Option<map<Host, Record>>, operations: seq<Operation>)
    returns (log: seq<Event>, onDisk: Nodes)
    requires Unsplit(NodeStates(saved)) && ReceiptsAtHome(NodeStates(saved))
    ensures Accepted(NodeStates(saved), log) && onDisk == After(NodeStates(saved), log).persisted && Unsplit(onDisk)
  {
    var c := new Controller(catalog, saved);
    for i := 0 to |operations|
      invariant c.Valid() && c.operationHosts == None && c.operationGeneration == None
      invariant c.origin == NodeStates(saved)
    {
      var before := |c.log|;
      match operations[i] {
        case SwitchTo(target, hosts, cancelJobs, noWait) =>
          var outcome := c.Switch(target, hosts, cancelJobs, noWait);
        case Reconcile =>
          var cleared := c.ReconcileUnreachable();
      }
      var crashed := Succeeds();
      if crashed {
        var k := CrashPoint(before, |c.log|);
        c.Crash(k);
      }
    }
    log, onDisk := c.log, c.nodes;
  }

  method CrashPoint(from: nat, to: nat) returns (k: nat)
    requires from <= to
    ensures from <= k <= to
  {
    k :| from <= k <= to;
  }
}
