// The AMD pair (spark_serve_strix.py): two boxes under halo-ctl, one of which may run
// a cluster whose worker is the other. Commands come one at a time; any of them may
// fail part way, engines may exit by themselves, and none starts by itself.
module StrixPair {
  import opened Wrappers

  datatype Box = First | Second

  function Other(b: Box): Box {
    if b == First then Second else First
  }

  datatype Engine = Halogen | Cluster | Lemonade | VllmEngine

  datatype Phase = Starting | Ready | Stopped | OtherPhase

  // What halo-ctl runs on a box: one engine, not stopped.
  datatype Running = Running(engine: Engine, model: string)

  datatype World = World(first: Option<Running>, second: Option<Running>) {
    function Of(b: Box): Option<Running> {
      if b == First then first else second
    }

    function With(b: Box, r: Option<Running>): World {
      if b == First then this.(first := r) else this.(second := r)
    }
  }

  predicate RunsCluster(r: Option<Running>) {
    r.Some? && r.value.engine == Cluster
  }

  // If one box runs the cluster, the other runs no engine.
  predicate Exclusive(w: World) {
    (RunsCluster(w.first) ==> w.second.None?) && (RunsCluster(w.second) ==> w.first.None?)
  }

  // No box with always-on services runs an engine.
  predicate PinsIdle(w: World, pinned: set<Box>) {
    (First in pinned ==> w.first.None?) && (Second in pinned ==> w.second.None?)
  }

  // Engines may have exited since.
  predicate Faded(before: World, after: World) {
    && (after.first.None? || after.first == before.first)
    && (after.second.None? || after.second == before.second)
  }

  datatype Role = NoRole | Master | WorkerRole

  // One box as status reports it.
  datatype Report = Report(error: bool, engine: Option<Engine>, phase: Phase, model: string,
                           rpcActive: bool, rpcClients: bool, onDisk: Option<set<string>>, role: Role)

  // _busy
  predicate Busy(r: Report) {
    r.engine.Some? && r.phase != Stopped
  }

  predicate SeemsMaster(r: Report) {
    r.engine == Some(Cluster) && (r.phase == Starting || r.phase == Ready)
  }

  // A reachable box reports what it runs, and any master that holds its RPC worker.
  predicate Tells(r: Report, w: World, b: Box) {
    if r.error then r.engine.None? && !r.rpcClients
    else
      && (w.Of(b).Some? ==> Busy(r) && r.engine == Some(w.Of(b).value.engine) && r.model == w.Of(b).value.model)
      && (w.Of(b).None? ==> !Busy(r) && r.phase == Stopped)
      && (RunsCluster(w.Of(Other(b))) ==> r.rpcClients)
  }

  // What a report still says later: absences stand, and what was seen was there before.
  predicate Learned(r: Report, before: World, now: World, b: Box) {
    && (!r.error && !Busy(r) ==> now.Of(b).None?)
    && (!r.error && !r.rpcClients ==> !RunsCluster(now.Of(Other(b))))
    && (Busy(r) ==> before.Of(b).Some?)
    && (SeemsMaster(r) ==> RunsCluster(before.Of(b)))
    && (r.error ==> r.engine.None? && !r.rpcClients)
  }

  datatype Pair = Pair(first: Report, second: Report) {
    function Of(b: Box): Report {
      if b == First then first else second
    }

    function With(b: Box, r: Report): Pair {
      if b == First then this.(first := r) else this.(second := r)
    }
  }

  const BOXES := [First, Second]

  // The role _pair leaves on a box.
  function RoleOf(p: Pair, b: Box): Role {
    if SeemsMaster(p.Of(b)) then Master
    else if SeemsMaster(p.Of(Other(b))) || p.Of(b).rpcClients then WorkerRole
    else NoRole
  }

  function SetRole(p: Pair, b: Box, role: Role): Pair {
    p.With(b, p.Of(b).(role := role))
  }

  function NameWorker(p: Pair, b: Box): Pair {
    if p.Of(b).role == NoRole then SetRole(p, b, WorkerRole) else p
  }

  // _pair: masters first, then the boxes they name, then boxes whose RPC worker is in use.
  method PairUp(p: Pair) returns (r: Pair)
    requires p.first.role == NoRole && p.second.role == NoRole
    ensures r.first == p.first.(role := RoleOf(p, First)) && r.second == p.second.(role := RoleOf(p, Second))
  {
    r := MarkMasters(p);
    r := MarkTheirWorkers(r);
    r := MarkClients(r);
  }

  method MarkMasters(p: Pair) returns (r: Pair)
    ensures r.first == if SeemsMaster(p.first) then p.first.(role := Master) else p.first
    ensures r.second == if SeemsMaster(p.second) then p.second.(role := Master) else p.second
  {
    r := p;
    for i := 0 to |BOXES|
      invariant r.first == if i > 0 && SeemsMaster(p.first) then p.first.(role := Master) else p.first
      invariant r.second == if i > 1 && SeemsMaster(p.second) then p.second.(role := Master) else p.second
    {
      if SeemsMaster(r.Of(BOXES[i])) {
        r := SetRole(r, BOXES[i], Master);
      }
    }
  }

  method MarkTheirWorkers(p: Pair) returns (r: Pair)
    ensures r.first == if SeemsMaster(p.second) then NameWorker(p, First).first else p.first
    ensures r.second == if SeemsMaster(p.first) then NameWorker(p, Second).second else p.second
  {
    r := p;
    for i := 0 to |BOXES|
      invariant r.first == if i > 1 && SeemsMaster(p.second) then NameWorker(p, First).first else p.first
      invariant r.second == if i > 0 && SeemsMaster(p.first) then NameWorker(p, Second).second else p.second
    {
      if SeemsMaster(r.Of(BOXES[i])) {
        r := NameWorker(r, Other(BOXES[i]));
      }
    }
  }

  method MarkClients(p: Pair) returns (r: Pair)
    ensures r.first == if p.first.rpcClients then NameWorker(p, First).first else p.first
    ensures r.second == if p.second.rpcClients then NameWorker(p, Second).second else p.second
  {
    r := p;
    for i := 0 to |BOXES|
      invariant r.first == if i > 0 && p.first.rpcClients then NameWorker(p, First).first else p.first
      invariant r.second == if i > 1 && p.second.rpcClients then NameWorker(p, Second).second else p.second
    {
      if r.Of(BOXES[i]).rpcClients {
        r := NameWorker(r, BOXES[i]);
      }
    }
  }

  // ---- commands -----------------------------------------------------------------------

  datatype Command = UpEngine(box: Box, engine: Engine, model: string) | StopEngine(box: Box)

  // A catalog entry or <engine>:<name>; None is an always-on service or an unknown engine.
  datatype Wanted = Wanted(engine: Option<Engine>, ctlId: string, names: set<string>)

  // _reports: halogen serves one model; others are named by the id or the served name.
  predicate Names(m: Wanted, reported: string) {
    m.engine == Some(Halogen) || reported in m.names
  }

  // The box up acts on: a pinned master overrides the choice for the cluster.
  function ChosenBox(m: Wanted, host: Option<Box>, pinnedMaster: Option<Box>): Option<Box> {
    if m.engine == Some(Cluster) && pinnedMaster.Some? then pinnedMaster else host
  }

  // The commands that put the cluster on b: none when b already serves it as master.
  function ClusterPlan(b: Box, m: Wanted, boxes: Pair): seq<Command> {
    if boxes.Of(b).role == Master && Names(m, boxes.Of(b).model) then []
    else (if Busy(boxes.Of(Other(b))) then [StopEngine(Other(b))] else []) + [UpEngine(b, Cluster, m.ctlId)]
  }

  function SoloModel(m: Wanted): string {
    if m.engine == Some(Halogen) then "" else m.ctlId
  }

  // The commands that put another engine on b: its cluster's master goes first.
  function SoloPlan(b: Box, m: Wanted, boxes: Pair): seq<Command>
    requires m.engine.Some?
  {
    (if boxes.Of(b).role == WorkerRole then [StopEngine(Other(b))] else []) + [UpEngine(b, m.engine.value, SoloModel(m))]
  }

  method Chance() returns (b: bool) { b := *; }

  method AnyReport() returns (r: Report) { r := *; }

  class Site {
    const pinned: set<Box>            // boxes with always-on services
    const origin: World               // what the boxes ran at the start
    const pinnedMaster: Option<Box>
    var world: World
    var history: seq<World>           // every state the boxes went through
    var commands: seq<Command>        // every halo-ctl up or stop sent

    ghost predicate Valid()
      reads this
    {
      && |history| > 0 && history[|history| - 1] == world
      && (forall i :: 0 <= i < |history| ==> Exclusive(history[i]))
      && (PinsIdle(origin, pinned) ==>
            PinsIdle(world, pinned) && forall i :: 0 <= i < |commands| ==> commands[i].box !in pinned)
    }

    constructor (world: World, pinned: set<Box>, pinnedMaster: Option<Box>)
      requires Exclusive(world)
      ensures Valid() && history == [world] && commands == [] && origin == world
      ensures this.pinned == pinned && this.pinnedMaster == pinnedMaster
    {
      this.world, this.origin, this.pinned, this.pinnedMaster := world, world, pinned, pinnedMaster;
      history, commands := [world], [];
    }

    method Become(w: World)
      requires Valid() && Exclusive(w) && (PinsIdle(origin, pinned) ==> PinsIdle(w, pinned))
      modifies `world, `history
      ensures Valid() && world == w && history == old(history) + [w]
    {
      world, history := w, history + [w];
    }

    // Time passes: engines may exit.
    method Drift()
      requires Valid()
      modifies `world, `history
      ensures Valid() && history == old(history) + [world] && Faded(old(world), world)
    {
      var firstExits := Chance();
      var secondExits := Chance();
      Become(World(if firstExits then None else world.first, if secondExits then None else world.second));
    }

    // One ssh call of halo-ctl. A failed call may have had its effect or part of it.
    method Ctl(c: Command) returns (ok: bool)
      requires Valid() && (PinsIdle(origin, pinned) ==> c.box !in pinned)
      requires c.UpEngine? && c.engine == Cluster ==> world.Of(Other(c.box)).None?
      requires c.UpEngine? ==> !RunsCluster(world.Of(Other(c.box)))
      modifies `world, `history, `commands
      ensures Valid() && old(history) <= history && commands == old(commands) + [c]
      ensures world.Of(Other(c.box)) == old(world).Of(Other(c.box))
      ensures ok && c.UpEngine? ==> world.Of(c.box) == Some(Running(c.engine, c.model))
      ensures ok && c.StopEngine? ==> world.Of(c.box).None?
      ensures c.StopEngine? ==> Faded(old(world), world)
    {
      commands := commands + [c];
      var stops, starts := true, true;
      ok := Chance();
      if !ok {
        stops := Chance();
        starts := Chance();
      }
      if stops {
        Become(world.With(c.box, None));
      }
      if stops && starts && c.UpEngine? {
        Become(world.With(c.box, Some(Running(c.engine, c.model))));
      }
    }

    // _box, or _unreachable when the box does not answer: what it reports is accurate.
    method Probe(b: Box) returns (r: Report)
      requires Valid()
      ensures Tells(r, world, b) && r.role == NoRole
    {
      r := AnyReport();
      var answered := Chance();
      var running := world.Of(b);
      r := r.(error := !answered, role := NoRole);
      if !answered {
        r := r.(engine := None, rpcClients := false);
      } else if running.Some? {
        r := r.(engine := Some(running.value.engine), model := running.value.model,
                phase := if r.phase == Stopped then OtherPhase else r.phase,
                rpcClients := r.rpcClients || RunsCluster(world.Of(Other(b))));
      } else {
        r := r.(phase := Stopped, rpcClients := r.rpcClients || RunsCluster(world.Of(Other(b))));
      }
    }

    // status: both boxes are read and paired; engines may exit between the reads.
    method Status() returns (p: Pair)
      requires Valid()
      modifies `world, `history
      ensures Valid() && old(history) <= history && Faded(old(world), world)
      ensures Learned(p.first, old(world), world, First) && Learned(p.second, old(world), world, Second)
      ensures p.first.role == RoleOf(p, First) && p.second.role == RoleOf(p, Second)
    {
      var first := Probe(First);
      Drift();
      var second := Probe(Second);
      p := PairUp(Pair(first, second));
      Drift();
    }

    // _wait_ready: polls until the box serves the model; engines may exit meanwhile.
    method WaitReady(b: Box, m: Wanted) returns (ok: bool)
      requires Valid() && m.engine.Some?
      modifies `world, `history
      ensures Valid() && old(history) <= history && Faded(old(world), world)
      ensures ok ==> Served(history, |old(history)|, b, m)
    {
      Drift();
      var me := Probe(b);
      ok := !me.error && me.engine == m.engine && me.phase == Ready && Names(m, me.model);
      ghost var k := |history| - 1;
      if ok {
        var after := Status();
        assert Serves(history[k], b, m);
      }
    }

    method Up(wanted: Option<Wanted>, host: Option<Box>) returns (ok: bool)
      requires Valid()
      modifies `world, `history, `commands
      ensures Valid() && old(history) <= history && old(commands) <= commands
      ensures ok ==> wanted.Some? && ChosenBox(wanted.value, host, pinnedMaster).Some?
      ensures ok ==> Served(history, |old(history)|, ChosenBox(wanted.value, host, pinnedMaster).value, wanted.value)
    {
      // an unknown name, an always-on service or an unknown engine
      if wanted.None? || wanted.value.engine.None? {
        return false;
      }
      var m := wanted.value;
      var chosen := host;
      if m.engine == Some(Cluster) && pinnedMaster.Some? {
        if host.Some? && host != pinnedMaster {
          return false;
        }
        chosen := pinnedMaster;
      }
      if chosen.None? || chosen.value in pinned {
        return false;
      }
      var b := chosen.value;
      ghost var before := world;
      var boxes := Status();
      var me := boxes.Of(b);
      if me.error || (me.onDisk.Some? && m.ctlId !in me.onDisk.value) {
        return false;
      }
      if m.engine == Some(Cluster) {
        ok := UpCluster(b, m, boxes, before);
      } else {
        ok := UpSolo(b, m, boxes, before);
      }
      if ok {
        ok := WaitReady(b, m);
      }
    }

    // The cluster on b: the other box is stopped first unless this cluster already runs.
    method UpCluster(b: Box, m: Wanted, boxes: Pair, ghost before: World) returns (ok: bool)
      requires Valid() && b !in pinned && m.engine == Some(Cluster)
      requires Learned(boxes.Of(Other(b)), before, world, Other(b))
      modifies `world, `history, `commands
      ensures Valid() && old(history) <= history && old(commands) <= commands <= old(commands) + ClusterPlan(b, m, boxes)
      ensures ok ==> commands == old(commands) + ClusterPlan(b, m, boxes)
      ensures ok && ClusterPlan(b, m, boxes) != [] ==>
                world.Of(b) == Some(Running(Cluster, m.ctlId)) && world.Of(Other(b)).None?
    {
      var me, peer := boxes.Of(b), boxes.Of(Other(b));
      if Other(b) in pinned || peer.error || !peer.rpcActive {
        return false;
      }
      if me.role == Master && Names(m, me.model) {
        return true;
      }
      if Busy(peer) {
        ok := Ctl(StopEngine(Other(b)));
        if !ok {
          return;
        }
      } else if me.role != Master && peer.rpcClients {
        return false;
      }
      ok := Ctl(UpEngine(b, Cluster, m.ctlId));
    }

    // Another engine on b: a cluster that b serves as worker is stopped first.
    method UpSolo(b: Box, m: Wanted, boxes: Pair, ghost before: World) returns (ok: bool)
      requires Valid() && b !in pinned && m.engine.Some? && m.engine != Some(Cluster)
      requires !boxes.Of(b).error && boxes.Of(b).role == RoleOf(boxes, b) && boxes.Of(Other(b)).role == RoleOf(boxes, Other(b))
      requires Learned(boxes.Of(b), before, world, b) && Learned(boxes.Of(Other(b)), before, world, Other(b))
      requires Faded(before, world) && Exclusive(before) && (PinsIdle(origin, pinned) ==> PinsIdle(before, pinned))
      modifies `world, `history, `commands
      ensures Valid() && old(history) <= history && old(commands) <= commands <= old(commands) + SoloPlan(b, m, boxes)
      ensures ok ==> commands == old(commands) + SoloPlan(b, m, boxes)
      ensures ok ==> world.Of(b) == Some(Running(m.engine.value, SoloModel(m))) && !RunsCluster(world.Of(Other(b)))
    {
      var me, master := boxes.Of(b), boxes.Of(Other(b));
      if me.role == WorkerRole {
        if master.error || master.role != Master {
          return false;
        }
        ok := Ctl(StopEngine(Other(b)));
        if !ok {
          return;
        }
        var again := Probe(b);
        if again.error || again.rpcClients {
          return false;
        }
      }
      ok := Ctl(UpEngine(b, m.engine.value, SoloModel(m)));
    }

    // One box, or all of them, masters first; the worker's box takes its master along.
    method Stop(host: Option<Box>) returns (ok: bool)
      requires Valid()
      modifies `world, `history, `commands
      ensures Valid() && old(history) <= history && old(commands) <= commands
      ensures forall i :: |old(commands)| <= i < |commands| ==> commands[i].StopEngine?
      ensures ok && host.Some? ==> host.value !in pinned && world.Of(host.value).None?
      ensures ok && host.None? ==> forall b: Box :: b !in pinned ==> world.Of(b).None?
    {
      var boxes := Status();
      var targets := BOXES;
      if host.None? {
        if boxes.second.role == Master && boxes.first.role != Master {
          targets := [Second, First];
        }
      } else {
        targets := if boxes.Of(host.value).role == WorkerRole then [Other(host.value), host.value] else [host.value];
        if exists t :: t in targets && t in pinned {
          return false;
        }
      }
      ok := StopAll(targets, boxes);
      assert targets[|targets| - 1] == if host.Some? then host.value else Other(targets[0]);
      if ok {
        assert targets[0] !in pinned ==> world.Of(targets[0]).None?;
        assert targets[|targets| - 1] !in pinned ==> world.Of(targets[|targets| - 1]).None?;
        var after := Status();
      }
    }

    // A box with always-on services is left alone; an unreachable one is a failure, but
    // the others are still stopped.
    method StopAll(targets: seq<Box>, boxes: Pair) returns (ok: bool)
      requires Valid()
      modifies `world, `history, `commands
      ensures Valid() && old(history) <= history && old(commands) <= commands
      ensures forall i :: |old(commands)| <= i < |commands| ==> commands[i].StopEngine?
      ensures ok ==> forall j :: 0 <= j < |targets| && targets[j] !in pinned ==> world.Of(targets[j]).None?
    {
      var failed := false;
      for i := 0 to |targets|
        invariant Valid() && old(history) <= history && old(commands) <= commands
        invariant forall i :: |old(commands)| <= i < |commands| ==> commands[i].StopEngine?
        invariant !failed ==> forall j :: 0 <= j < i && targets[j] !in pinned ==> world.Of(targets[j]).None?
      {
        if targets[i] in pinned {
          // left alone
        } else if boxes.Of(targets[i]).error {
          failed := true;
        } else {
          var stopped := Ctl(StopEngine(targets[i]));
          if !stopped {
            return false;
          }
        }
      }
      ok := !failed;
    }
  }

  ghost predicate Serves(w: World, b: Box, m: Wanted) {
    w.Of(b).Some? && m.engine == Some(w.Of(b).value.engine) && Names(m, w.Of(b).value.model)
  }

  // At some moment since the given point the box ran the model.
  ghost predicate Served(history: seq<World>, since: nat, b: Box, m: Wanted) {
    exists k :: since <= k < |history| && Serves(history[k], b, m)
  }

  // ---- whole runs ----------------------------------------------------------------------

  datatype Request = UpRequest(wanted: Option<Wanted>, host: Option<Box>) | StopRequest(host: Option<Box>)

  // Over any sequence of commands, each of which may fail at any call: in every state the
  // boxes go through, a box running the cluster is alone; and if no pinned box ran an
  // engine at the start, none is ever sent a command.
  method Session(world: World, pinned: set<Box>, pinnedMaster: Option<Box>, requests: seq<Request>)
    returns (history: seq<World>, commands: seq<Command>)
    requires Exclusive(world)
    ensures [world] <= history && forall i :: 0 <= i < |history| ==> Exclusive(history[i])
    ensures PinsIdle(world, pinned) ==> forall i :: 0 <= i < |commands| ==> commands[i].box !in pinned
  {
    var site := new Site(world, pinned, pinnedMaster);
    for i := 0 to |requests|
      invariant site.Valid() && [world] <= site.history && site.pinned == pinned && site.origin == world
    {
      match requests[i] {
        case UpRequest(wanted, host) =>
          var ok := site.Up(wanted, host);
        case StopRequest(host) =>
          var ok := site.Stop(host);
      }
      site.Drift();
    }
    history, commands := site.history, site.commands;
  }
}
