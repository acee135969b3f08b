// Per-host ownership records, as controller.json keeps them
// (spark_serve_controller.py, node_states and _save_selected).
module Ownership {
  import opened Wrappers

  // The two configured workers, in catalog order.
  datatype Host = Head | Worker

  const BOTH: seq<Host> := [Head, Worker]

  // A transition's generation token; tokens are never reused.
  type Gen = nat

  datatype Mode = Unknown | Idle | Vllm | Yue

  datatype Phase = Unmanaged | Draining | Stopping | Stopped | Starting | Ready | Failed

  // An error text: only whether every fragment is a pre-connection SSH failure matters.
  datatype Fault = NoFault | Unreachable | OtherFault

  datatype Receipt = Receipt(id: string, host: Host, generation: Gen)

  datatype Record = Record(mode: Mode, model: Option<string>, phase: Phase, generation: Option<Gen>,
                           error: Fault, cleanupErrors: seq<Fault>,
                           allocationHosts: seq<Host>, allocationId: Option<Gen>,
                           worker: Option<Receipt>, containers: Option<string>, served: Option<string>)

  // The node map with a record for every host.
  datatype Nodes = Nodes(head: Record, worker: Record) {
    function Of(h: Host): Record {
      if h == Head then head else worker
    }

    function With(h: Host, r: Record): Nodes {
      if h == Head then this.(head := r) else this.(worker := r)
    }
  }

  const UNMANAGED := Record(Unknown, None, Unmanaged, None, NoFault, [], [], None, None, None, None)
  const UNRECORDED := UNMANAGED.(error := OtherFault)

  // node_states: a state without a node map is a fresh installation; a map without
  // some host has lost evidence about it.
  function NodeStates(saved: Option<map<Host, Record>>): Nodes {
    match saved
    case None => Nodes(UNMANAGED, UNMANAGED)
    case Some(m) => Nodes(if Head in m then m[Head] else UNRECORDED, if Worker in m then m[Worker] else UNRECORDED)
  }

  // ---- one allocation, one description ------------------------------------------

  // The record of a vLLM allocation that spans both hosts.
  predicate Spans(r: Record) {
    r.mode == Vllm && Head in r.allocationHosts && Worker in r.allocationHosts
  }

  ghost predicate SameAllocation(a: Record, b: Record) {
    && a.mode == b.mode && a.model == b.model && a.phase == b.phase
    && a.generation == b.generation && a.allocationId == b.allocationId
    && a.allocationHosts == b.allocationHosts
  }

  // A two-host allocation is described the same way on both hosts, or not at all.
  ghost predicate Unsplit(n: Nodes) {
    Spans(n.head) || Spans(n.worker) ==> SameAllocation(n.head, n.worker)
  }

  ghost predicate ReceiptsAtHome(n: Nodes) {
    && (n.head.worker.Some? ==> n.head.worker.value.host == Head)
    && (n.worker.worker.Some? ==> n.worker.worker.value.host == Worker)
  }

  // ---- rewriting selected records -------------------------------------------------

  // The keyword fields of one _save_selected call; None leaves a field alone.
  datatype Fields = Fields(phase: Option<Phase>, mode: Option<Mode>, model: Option<Option<string>>,
                           generation: Option<Gen>, error: Option<Fault>, cleanupErrors: Option<seq<Fault>>,
                           allocationHosts: Option<seq<Host>>, allocationId: Option<Option<Gen>>)

  const NOTHING := Fields(None, None, None, None, None, None, None, None)

  function Or<T>(o: Option<T>, v: T): T {
    if o.Some? then o.value else v
  }

  function Rewrite(r: Record, f: Fields): Record {
    var dropRun := f.phase == Some(Draining) || f.mode == Some(Idle) || (f.phase == Some(Starting) && f.allocationId.Some?);
    var dropWorker := f.mode == Some(Idle) || f.mode == Some(Vllm);
    Record(Or(f.mode, r.mode), Or(f.model, r.model), Or(f.phase, r.phase),
           if f.generation.Some? then f.generation else r.generation,
           Or(f.error, r.error), Or(f.cleanupErrors, r.cleanupErrors),
           Or(f.allocationHosts, r.allocationHosts), Or(f.allocationId, r.allocationId),
           if dropWorker then None else r.worker,
           if dropRun then None else r.containers,
           if dropRun then None else r.served)
  }

  function Rewritten(n: Nodes, hosts: set<Host>, f: Fields): Nodes {
    Nodes(if Head in hosts then Rewrite(n.head, f) else n.head,
          if Worker in hosts then Rewrite(n.worker, f) else n.worker)
  }

  // A selection that splits no allocation: both hosts, or a host no spanning record names.
  ghost predicate WholeSelection(n: Nodes, hosts: set<Host>) {
    hosts == {Head, Worker} || (!Spans(n.head) && !Spans(n.worker))
  }

  // A rewrite that leaves mode and hosts alone keeps allocations whole.
  lemma RewritePhaseKeepsUnsplit(n: Nodes, hosts: set<Host>, f: Fields)
    requires Unsplit(n) && WholeSelection(n, hosts) && f.mode.None? && f.allocationHosts.None?
    ensures Unsplit(Rewritten(n, hosts, f)) && WholeSelection(Rewritten(n, hosts, f), hosts)
  {
  }

  lemma RewriteIdleKeepsUnsplit(n: Nodes, hosts: set<Host>, f: Fields)
    requires WholeSelection(n, hosts) && f.mode == Some(Idle)
    ensures Unsplit(Rewritten(n, hosts, f)) && WholeSelection(Rewritten(n, hosts, f), hosts)
    ensures !Spans(Rewritten(n, hosts, f).head) && !Spans(Rewritten(n, hosts, f).worker)
  {
  }

  lemma RewriteBothKeepsSame(n: Nodes, f: Fields)
    requires SameAllocation(n.head, n.worker)
    ensures SameAllocation(Rewritten(n, {Head, Worker}, f).head, Rewritten(n, {Head, Worker}, f).worker)
    ensures Unsplit(Rewritten(n, {Head, Worker}, f))
  {
  }
}
