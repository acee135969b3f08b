// What a controller does to the outside world, in order, and the rules it keeps.
//
// Watch is what an observer of the log knows at a point; Allowed says which event may come next.
// A log is accepted when every event was allowed at its place, so a crash between two events
// leaves an accepted log. The lemmas at the end restate acceptance without the observer.
module TransitionLog {
  import opened Wrappers
  import opened Ownership

  // A worker's answer to drain or status.
  datatype Status = Status(installed: bool, accepting: bool, job: bool, jobId: bool, busy: bool,
                           ownershipOk: bool, ownedRunning: bool)

  // installed, accepting: False only when the reply says false. job: some active job; jobId: it has an identity.
  predicate Settled(s: Status) {
    !s.busy && !s.job && s.ownershipOk && !s.ownedRunning
  }

  datatype Event =
    | Began(selected: set<Host>, cancelJobs: bool, token: Gen)
    | Saved(nodes: Nodes)                                  // one atomic replace of controller.json
    | Published(workers: seq<Receipt>, generation: Option<Gen>)  // one atomic replace of yue-workers.json
    | FenceSent(host: Host)
    | FenceAcked(host: Host)
    | DrainBegan                                           // one pass of draining all selected hosts
    | DrainSent(host: Host)
    | DrainReply(host: Host, status: Status)
    | CancelSent(host: Host)
    | StatusReply(host: Host, status: Status)              // asked after a cancel
    | ServiceStopped(host: Host)
    | AuditSent(host: Host)                                // which containers does the host run?
    | RemoveSent(host: Host)                               // docker rm of owned containers
    | IdleAudit(host: Host)                                // an audit that found the host idle
    | StartSent(host: Host)                                // a service restart or a model launch
    | AdmitSent(host: Host)
    | CleanupBegan

  // The latest pass of draining: hosts asked, hosts that closed admission, hosts told to
  // cancel, hosts with no unresolved job, hosts whose service was stopped.
  datatype Pass = Pass(number: nat, asked: set<Host>, closed: set<Host>, cancelled: set<Host>,
                       resolved: set<Host>, stopped: set<Host>)

  datatype Watch = Watch(selected: set<Host>, cancelJobs: bool, generation: Gen, persisted: Nodes,
                         withdrawn: bool, fences: set<Host>, acked: set<Host>, pass: Pass, drained: set<Host>,
                         audits: nat, idle: set<Host>, started: set<Host>, admitted: set<Host>, cleaning: bool)

  function FirstPass(number: nat): Pass {
    Pass(number, {}, {}, {}, {}, {})
  }

  function Fresh(selected: set<Host>, cancelJobs: bool, g: Gen, n: Nodes): Watch {
    Watch(selected, cancelJobs, g, n, false, {}, {}, FirstPass(0), {}, 0, {}, {}, {}, false)
  }

  function Initial(n: Nodes): Watch {
    Fresh({}, false, 0, n)
  }

  // A reply to a drain: nothing is installed, or admission is closed.
  predicate Closes(e: Event) {
    e.DrainReply? && (!e.status.installed || !e.status.accepting)
  }

  // The reply shows that nothing runs; for a drain reply, that admission is closed too.
  predicate Resolves(e: Event) {
    match e
    case DrainReply(_, s) => !s.installed || (!s.accepting && Settled(s))
    case StatusReply(_, s) => Settled(s)
    case _ => false
  }

  function Observe(w: Watch, e: Event): Watch {
    match e
    case Began(s, c, g) => Fresh(s, c, g, w.persisted)
    case Saved(n) => w.(persisted := n)
    case Published(ws, _) => w.(withdrawn := true)
    case FenceSent(h) => w.(fences := w.fences + {h})
    case FenceAcked(h) => w.(acked := w.acked + {h})
    case DrainBegan => w.(pass := FirstPass(w.pass.number + 1))
    case DrainSent(h) => w.(pass := w.pass.(asked := w.pass.asked + {h}))
    case DrainReply(h, _) => ObserveReply(if Closes(e) then w.(pass := w.pass.(closed := w.pass.closed + {h})) else w, e)
    case CancelSent(h) => w.(pass := w.pass.(cancelled := w.pass.cancelled + {h}))
    case StatusReply(_, _) => ObserveReply(w, e)
    case ServiceStopped(h) => w.(pass := w.pass.(stopped := w.pass.stopped + {h}))
    case AuditSent(_) => w.(audits := w.audits + 1)
    case RemoveSent(_) => w.(idle := {})
    case IdleAudit(h) => w.(idle := w.idle + {h})
    case StartSent(h) => w.(started := w.started + {h})
    case AdmitSent(h) => w.(admitted := w.admitted + {h})
    case CleanupBegan => w.(cleaning := true)
  }

  function ObserveReply(w: Watch, e: Event): Watch
    requires e.DrainReply? || e.StatusReply?
  {
    if Resolves(e) then w.(pass := w.pass.(resolved := w.pass.resolved + {e.host}), drained := w.drained + {e.host}) else w
  }

  // ---- the rules -----------------------------------------------------------------

  ghost predicate Allowed(w: Watch, e: Event) {
    match e
    case Began(s, _, g) => if s == {} then g == w.generation else g > w.generation
    case Saved(n) => SaveAllowed(w, n)
    case Published(ws, g) => PublishAllowed(w, ws, g)
    case FenceSent(h) => h in w.selected && w.withdrawn
    case FenceAcked(h) => h in w.selected && h in w.fences
    case DrainBegan => true
    case DrainSent(h) => h in w.selected && w.pass.number > 0
    case DrainReply(h, _) => h in w.selected && h in w.pass.asked
    case CancelSent(h) => h in w.selected && h in w.pass.closed && h !in w.pass.resolved && w.cancelJobs && !w.cleaning
    case StatusReply(h, _) => h in w.selected && h in w.pass.closed && h in w.pass.cancelled
    case ServiceStopped(h) => h in w.selected && w.selected <= w.pass.resolved
    case AuditSent(h) => h in w.selected
    case RemoveSent(h) => h in w.selected && w.selected <= w.drained && w.selected <= w.acked
    case IdleAudit(_) => true
    case StartSent(h) => h in w.selected && MayStart(w)
    case AdmitSent(h) => h in w.selected && MayStart(w) && h in w.started
    case CleanupBegan => true
  }

  ghost predicate MayStart(w: Watch) {
    w.selected <= w.idle && w.selected <= w.acked && !w.cleaning
  }

  // A save splits no allocation. Outside the selection it may only clear a failed idle
  // record found idle; it calls a host stopped only after an idle audit, and ready
  // only after a start.
  ghost predicate SaveAllowed(w: Watch, n: Nodes) {
    Unsplit(n) && forall h: Host :: n.Of(h) != w.persisted.Of(h) ==> RecordAllowed(w, h, n.Of(h))
  }

  ghost predicate RecordAllowed(w: Watch, h: Host, r: Record) {
    && (h !in w.selected ==> r.phase == Stopped && w.persisted.Of(h).mode == Idle && w.persisted.Of(h).phase == Failed)
    && (r.phase == Stopped ==> h in w.idle)
    && (r.worker.Some? ==> r.worker.value.host == h)
    && (r.phase == Ready ==> h in w.started && r.generation == Some(w.generation))
    && (r.phase == Ready && r.mode == Yue ==> h in w.admitted)
  }

  ghost predicate PublishAllowed(w: Watch, ws: seq<Receipt>, g: Option<Gen>) {
    && (forall i :: 0 <= i < |ws| ==> g == Some(ws[i].generation) && ReadyReceipt(w.persisted, ws[i]))
    && (forall i, j :: 0 <= i < j < |ws| ==> ws[i].host != ws[j].host && ws[i].id != ws[j].id)
    && (w.fences == {} ==> forall i :: 0 <= i < |ws| ==> ws[i].host !in w.selected)
  }

  // The receipt is the one persisted for its host, in a ready YuE record.
  ghost predicate ReadyReceipt(n: Nodes, r: Receipt) {
    n.Of(r.host).mode == Yue && n.Of(r.host).phase == Ready && n.Of(r.host).worker == Some(r)
  }

  function After(n: Nodes, log: seq<Event>): Watch {
    if log == [] then Initial(n) else Observe(After(n, log[..|log| - 1]), log[|log| - 1])
  }

  // Every event was allowed at its place.
  ghost predicate Accepted(n: Nodes, log: seq<Event>) {
    log != [] ==> Accepted(n, log[..|log| - 1]) && Allowed(After(n, log[..|log| - 1]), log[|log| - 1])
  }

  // The log is accepted and leads an observer to w.
  ghost predicate Tracks(n: Nodes, log: seq<Event>, w: Watch) {
    Accepted(n, log) && w == After(n, log)
  }

  lemma AcceptedExtends(n: Nodes, log: seq<Event>, w: Watch, e: Event)
    requires Tracks(n, log, w) && Allowed(w, e)
    ensures Tracks(n, log + [e], Observe(w, e))
  {
  }

  // A crash cuts the log anywhere.
  lemma {:induction false} AcceptedPrefix(n: Nodes, log: seq<Event>, k: nat)
    requires Accepted(n, log) && k <= |log|
    ensures Accepted(n, log[..k])
  {
    if k < |log| {
      AcceptedPrefix(n, log[..|log| - 1], k);
      assert log[..|log| - 1][..k] == log[..k];
    } else {
      assert log[..k] == log;
    }
  }

  // What an observer has seen when event i comes.
  function At(n: Nodes, log: seq<Event>, i: nat): Watch
    requires i <= |log|
  {
    if i == 0 then Initial(n) else Observe(At(n, log, i - 1), log[i - 1])
  }

  lemma {:induction false} AtIsAfter(n: Nodes, log: seq<Event>, i: nat)
    requires i <= |log|
    ensures At(n, log, i) == After(n, log[..i])
  {
    if i > 0 {
      AtIsAfter(n, log, i - 1);
      assert log[..i][..i - 1] == log[..i - 1];
    }
  }

  // Acceptance, event by event.
  lemma AllowedAt(n: Nodes, log: seq<Event>, i: nat)
    requires Accepted(n, log) && i < |log|
    ensures Allowed(At(n, log, i), log[i])
  {
    AcceptedPrefix(n, log, i + 1);
    AtIsAfter(n, log, i);
    assert log[..i + 1][..i] == log[..i];
  }

  // ---- what acceptance means ---------------------------------------------------------

  // The transition an event belongs to started here.
  ghost predicate StartOf(log: seq<Event>, b: nat, i: nat) {
    b < i <= |log| && log[b].Began? && forall j :: b < j < i ==> !log[j].Began?
  }

  // No new pass of draining begins between j and i.
  ghost predicate SamePass(log: seq<Event>, j: nat, i: nat)
    requires i <= |log|
  {
    forall k :: j < k < i ==> !log[k].DrainBegan?
  }

  // h was asked to drain and closed admission between b and i, in the pass that holds at i.
  ghost predicate ClosedBetween(log: seq<Event>, h: Host, b: nat, i: nat)
    requires i <= |log|
  {
    exists j :: b < j < i && Closes(log[j]) && log[j].host == h && SamePass(log, j, i)
  }

  // h closed admission, and in that reply or a later one of the same pass nothing was running.
  ghost predicate DrainedBetween(log: seq<Event>, h: Host, b: nat, i: nat)
    requires i <= |log|
  {
    exists k :: b < k < i && Resolves(log[k]) && log[k].host == h && ClosedBetween(log, h, b, k + 1)
  }

  // h was found idle between b and i, and no container was removed afterwards.
  ghost predicate IdleBetween(log: seq<Event>, h: Host, b: nat, i: nat)
    requires i <= |log|
  {
    exists j :: b < j < i && log[j] == IdleAudit(h) && NoRemovals(log, j, i)
  }

  ghost predicate NoRemovals(log: seq<Event>, j: nat, i: nat)
    requires i <= |log|
  {
    forall k :: j < k < i ==> !log[k].RemoveSent?
  }

  ghost predicate AckedBetween(log: seq<Event>, h: Host, b: nat, i: nat)
    requires i <= |log|
  {
    exists j :: b < j < i && log[j] == FenceAcked(h)
  }

  lemma {:induction false} WatchedClosed(n: Nodes, log: seq<Event>, b: nat, i: nat, h: Host)
    requires StartOf(log, b, i) && h in At(n, log, i).pass.closed
    ensures ClosedBetween(log, h, b, i)
    decreases i
  {
    if Closes(log[i - 1]) && log[i - 1].host == h {
      assert SamePass(log, i - 1, i);
    } else if i > b + 1 {
      WatchedClosed(n, log, b, i - 1, h);
      var j :| b < j < i - 1 && Closes(log[j]) && log[j].host == h && SamePass(log, j, i - 1);
      assert SamePass(log, j, i);
    } else {
      assert false;
    }
  }

  // A reply that resolves its host does so after the host closed admission, or in that reply.
  lemma ReplyDrains(n: Nodes, log: seq<Event>, b: nat, i: nat)
    requires Accepted(n, log) && StartOf(log, b, i) && Resolves(log[i - 1])
    ensures ClosedBetween(log, log[i - 1].host, b, i) && DrainedBetween(log, log[i - 1].host, b, i)
  {
    var h := log[i - 1].host;
    AllowedAt(n, log, i - 1);
    if log[i - 1].DrainReply? {
      assert SamePass(log, i - 1, i);
    } else {
      WatchedClosed(n, log, b, i - 1, h);
      var j :| b < j < i - 1 && Closes(log[j]) && log[j].host == h && SamePass(log, j, i - 1);
      assert SamePass(log, j, i);
    }
    assert ClosedBetween(log, h, b, i);
  }

  lemma {:induction false} WatchedDrain(n: Nodes, log: seq<Event>, b: nat, i: nat, h: Host)
    requires Accepted(n, log) && StartOf(log, b, i) && h in At(n, log, i).drained
    ensures DrainedBetween(log, h, b, i)
    decreases i
  {
    if Resolves(log[i - 1]) && log[i - 1].host == h {
      ReplyDrains(n, log, b, i);
    } else if i > b + 1 {
      WatchedDrain(n, log, b, i - 1, h);
    } else {
      assert false;
    }
  }

  // The pass that began at d still holds at i.
  ghost predicate PassOf(log: seq<Event>, b: nat, d: nat, i: nat) {
    b < d < i <= |log| && log[d].DrainBegan? && SamePass(log, d, i)
  }

  lemma {:induction false} WatchedPass(n: Nodes, log: seq<Event>, b: nat, i: nat) returns (d: nat)
    requires StartOf(log, b, i) && At(n, log, i).pass.number > 0
    ensures PassOf(log, b, d, i)
    decreases i
  {
    d := i - 1;
    if !log[i - 1].DrainBegan? {
      if i > b + 1 {
        d := WatchedPass(n, log, b, i - 1);
      } else {
        assert false;
      }
    }
  }

  lemma ClosedInPass(log: seq<Event>, h: Host, b: nat, d: nat, i: nat)
    requires PassOf(log, b, d, i) && ClosedBetween(log, h, b, i)
    ensures ClosedBetween(log, h, d, i)
  {
  }

  // In one pass, a resolved host closed admission and was seen settled in that same pass.
  lemma {:induction false} WatchedResolved(n: Nodes, log: seq<Event>, b: nat, d: nat, i: nat, h: Host)
    requires Accepted(n, log) && StartOf(log, b, i) && PassOf(log, b, d, i) && h in At(n, log, i).pass.resolved
    ensures DrainedBetween(log, h, d, i)
    decreases i
  {
    if Resolves(log[i - 1]) && log[i - 1].host == h {
      ReplyDrains(n, log, b, i);
      ClosedInPass(log, h, b, d, i);
    } else if i > d + 1 {
      WatchedResolved(n, log, b, d, i - 1, h);
    } else {
      assert false;
    }
  }

  lemma {:induction false} WatchedIdle(n: Nodes, log: seq<Event>, b: nat, i: nat, h: Host)
    requires StartOf(log, b, i) && h in At(n, log, i).idle
    ensures IdleBetween(log, h, b, i)
    decreases i
  {
    if log[i - 1] == IdleAudit(h) {
      assert NoRemovals(log, i - 1, i);
    } else if i > b + 1 {
      WatchedIdle(n, log, b, i - 1, h);
      var j :| b < j < i - 1 && log[j] == IdleAudit(h) && NoRemovals(log, j, i - 1);
      assert NoRemovals(log, j, i);
    } else {
      assert false;
    }
  }

  lemma {:induction false} WatchedAck(n: Nodes, log: seq<Event>, b: nat, i: nat, h: Host)
    requires StartOf(log, b, i) && h in At(n, log, i).acked
    ensures AckedBetween(log, h, b, i)
    decreases i
  {
    if log[i - 1] != FenceAcked(h) {
      if i > b + 1 {
        WatchedAck(n, log, b, i - 1, h);
      } else {
        assert false;
      }
    }
  }

  lemma {:induction false} WatchedBegan(n: Nodes, log: seq<Event>, b: nat, i: nat)
    requires StartOf(log, b, i)
    ensures At(n, log, i).selected == log[b].selected && At(n, log, i).cancelJobs == log[b].cancelJobs
    decreases i
  {
    if i > b + 1 {
      WatchedBegan(n, log, b, i - 1);
    }
  }

  ghost predicate NoCleanup(log: seq<Event>, b: nat, i: nat)
    requires i <= |log|
  {
    forall j :: b < j < i ==> !log[j].CleanupBegan?
  }

  lemma {:induction false} WatchedCleanup(n: Nodes, log: seq<Event>, b: nat, i: nat)
    requires StartOf(log, b, i) && !At(n, log, i).cleaning
    ensures NoCleanup(log, b, i)
    decreases i
  {
    if i > b + 1 {
      WatchedCleanup(n, log, b, i - 1);
    }
  }

  // Owned containers are removed only after every selected host closed admission and was
  // then seen with nothing running, and acknowledged its fence, in the same transition.
  lemma RemovalFollowsDrain(n: Nodes, log: seq<Event>, b: nat, i: nat)
    requires Accepted(n, log) && i < |log| && StartOf(log, b, i) && log[i].RemoveSent?
    ensures log[i].host in log[b].selected
    ensures forall h :: h in log[b].selected ==> DrainedBetween(log, h, b, i) && AckedBetween(log, h, b, i)
  {
    AllowedAt(n, log, i);
    WatchedBegan(n, log, b, i);
    forall h | h in log[b].selected ensures DrainedBetween(log, h, b, i) && AckedBetween(log, h, b, i) {
      WatchedDrain(n, log, b, i, h);
      WatchedAck(n, log, b, i, h);
    }
  }

  // A factory service is stopped only after every selected host was drained in that same
  // pass of draining, which began at d.
  lemma ServiceStopFollowsDrain(n: Nodes, log: seq<Event>, b: nat, i: nat) returns (d: nat)
    requires Accepted(n, log) && i < |log| && StartOf(log, b, i) && log[i].ServiceStopped?
    ensures log[i].host in log[b].selected && PassOf(log, b, d, i)
    ensures forall h :: h in log[b].selected ==> DrainedBetween(log, h, d, i)
  {
    AllowedAt(n, log, i);
    WatchedBegan(n, log, b, i);
    PassAlwaysFits(n, log, i);
    d := WatchedPass(n, log, b, i);
    forall h | h in log[b].selected ensures DrainedBetween(log, h, d, i) {
      WatchedResolved(n, log, b, d, i, h);
    }
  }

  // Nothing is asked, so nothing replies, before the first pass of a transition.
  predicate PassFits(p: Pass) {
    p.number == 0 ==> p.asked == {} && p.closed == {} && p.resolved == {}
  }

  // What every allowed event keeps.
  lemma EventKeeps(w: Watch, e: Event)
    requires Allowed(w, e)
    ensures PassFits(w.pass) ==> PassFits(Observe(w, e).pass)
    ensures w.generation <= Observe(w, e).generation
    ensures Unsplit(w.persisted) ==> Unsplit(Observe(w, e).persisted)
    ensures ReceiptsAtHome(w.persisted) ==> ReceiptsAtHome(Observe(w, e).persisted)
  {
    if e.Saved? {
      assert e.nodes.Of(Head) != w.persisted.Of(Head) ==> RecordAllowed(w, Head, e.nodes.Of(Head));
      assert e.nodes.Of(Worker) != w.persisted.Of(Worker) ==> RecordAllowed(w, Worker, e.nodes.Of(Worker));
    }
  }

  lemma {:induction false} PassAlwaysFits(n: Nodes, log: seq<Event>, i: nat)
    requires Accepted(n, log) && i <= |log|
    ensures PassFits(At(n, log, i).pass)
  {
    if i > 0 {
      PassAlwaysFits(n, log, i - 1);
      AllowedAt(n, log, i - 1);
      EventKeeps(At(n, log, i - 1), log[i - 1]);
    }
  }

  // Nothing is started or admitted until every selected host acknowledged its fence
  // and was found idle after the last removal; and never during failure cleanup.
  lemma StartFollowsFenceAndIdle(n: Nodes, log: seq<Event>, b: nat, i: nat)
    requires Accepted(n, log) && i < |log| && StartOf(log, b, i) && (log[i].StartSent? || log[i].AdmitSent?)
    ensures log[i].host in log[b].selected && NoCleanup(log, b, i)
    ensures forall h :: h in log[b].selected ==> AckedBetween(log, h, b, i) && IdleBetween(log, h, b, i)
  {
    AllowedAt(n, log, i);
    WatchedBegan(n, log, b, i);
    WatchedCleanup(n, log, b, i);
    forall h | h in log[b].selected ensures AckedBetween(log, h, b, i) && IdleBetween(log, h, b, i) {
      WatchedAck(n, log, b, i, h);
      WatchedIdle(n, log, b, i, h);
    }
  }

  // A job is cancelled only on request, and never by failure cleanup.
  lemma CancelOnlyOnRequest(n: Nodes, log: seq<Event>, b: nat, i: nat)
    requires Accepted(n, log) && i < |log| && StartOf(log, b, i) && log[i].CancelSent?
    ensures log[b].cancelJobs && NoCleanup(log, b, i)
  {
    AllowedAt(n, log, i);
    WatchedBegan(n, log, b, i);
    WatchedCleanup(n, log, b, i);
  }

  // Every persisted state describes a two-host allocation once.
  lemma EverySaveUnsplit(n: Nodes, log: seq<Event>, i: nat)
    requires Accepted(n, log) && i < |log| && log[i].Saved?
    ensures Unsplit(log[i].nodes)
  {
  }

  // What is on disk after any prefix is its last save, so it is never split.
  lemma {:induction false} PersistedUnsplit(n: Nodes, log: seq<Event>)
    requires Accepted(n, log) && Unsplit(n)
    ensures Unsplit(After(n, log).persisted)
  {
    if log != [] {
      var k := |log| - 1;
      PersistedUnsplit(n, log[..k]);
      EventKeeps(After(n, log[..k]), log[k]);
    }
  }

  // Receipts are persisted only in the record of their own host.
  lemma {:induction false} PersistedAtHome(n: Nodes, log: seq<Event>)
    requires Accepted(n, log) && ReceiptsAtHome(n)
    ensures ReceiptsAtHome(After(n, log).persisted)
  {
    if log != [] {
      var k := |log| - 1;
      PersistedAtHome(n, log[..k]);
      EventKeeps(After(n, log[..k]), log[k]);
    }
  }

  // A host resolved in the current pass is drained for the transition.
  lemma {:induction false} ResolvedIsDrained(n: Nodes, log: seq<Event>)
    ensures After(n, log).pass.resolved <= After(n, log).drained
  {
    if log != [] {
      ResolvedIsDrained(n, log[..|log| - 1]);
      ResolvedStaysDrained(After(n, log[..|log| - 1]), log[|log| - 1]);
    }
  }

  lemma ResolvedStaysDrained(w: Watch, e: Event)
    requires w.pass.resolved <= w.drained
    ensures Observe(w, e).pass.resolved <= Observe(w, e).drained
  {
  }

  // Tokens only grow along a log.
  lemma {:induction false} TokensGrow(n: Nodes, log: seq<Event>, k: nat)
    requires Accepted(n, log) && k <= |log|
    ensures After(n, log[..k]).generation <= After(n, log).generation
  {
    if k < |log| {
      var i := |log| - 1;
      TokensGrow(n, log[..i], k);
      EventKeeps(After(n, log[..i]), log[i]);
      assert log[..i][..k] == log[..k];
    } else {
      assert log[..k] == log;
    }
  }

  // ---- the discovery file --------------------------------------------------------------

  // What is on disk at i is the last save, or the first state when nothing was saved yet.
  ghost predicate OnDisk(n: Nodes, log: seq<Event>, i: nat, disk: Nodes)
    requires i <= |log|
  {
    || (disk == n && NoSave(log, 0, i))
    || (exists j :: 0 <= j < i && log[j] == Saved(disk) && NoSave(log, j + 1, i))
  }

  ghost predicate NoSave(log: seq<Event>, from: nat, i: nat)
    requires i <= |log|
  {
    forall k :: from <= k < i ==> !log[k].Saved?
  }

  lemma {:induction false} PersistedIsOnDisk(n: Nodes, log: seq<Event>, i: nat)
    requires i <= |log|
    ensures OnDisk(n, log, i, At(n, log, i).persisted)
    decreases i
  {
    if i > 0 {
      PersistedIsOnDisk(n, log, i - 1);
      var disk := At(n, log, i).persisted;
      if log[i - 1].Saved? {
        assert log[i - 1] == Saved(disk) && NoSave(log, i - 1 + 1, i);
      } else if !NoSave(log, 0, i - 1) {
        var j :| 0 <= j < i - 1 && log[j] == Saved(disk) && NoSave(log, j + 1, i - 1);
        assert NoSave(log, j + 1, i);
      }
    }
  }

  ghost predicate NoFence(log: seq<Event>, b: nat, i: nat)
    requires i <= |log|
  {
    forall j :: b < j < i ==> !log[j].FenceSent? && !log[j].FenceAcked?
  }

  lemma {:induction false} WatchedFence(n: Nodes, log: seq<Event>, b: nat, i: nat)
    requires StartOf(log, b, i) && NoFence(log, b, i)
    ensures At(n, log, i).fences == {}
    decreases i
  {
    if i > b + 1 {
      WatchedFence(n, log, b, i - 1);
    }
  }

  // Every write of the discovery file lists only receipts persisted as ready, of distinct
  // hosts and distinct workers, all carrying the file's own generation.
  lemma PublishesOnlyReady(n: Nodes, log: seq<Event>, i: nat) returns (disk: Nodes)
    requires Accepted(n, log) && i < |log| && log[i].Published?
    ensures OnDisk(n, log, i, disk)
    ensures forall w :: w in log[i].workers ==> ReadyReceipt(disk, w) && log[i].generation == Some(w.generation)
    ensures forall j, k :: 0 <= j < k < |log[i].workers| ==>
              log[i].workers[j].host != log[i].workers[k].host && log[i].workers[j].id != log[i].workers[k].id
  {
    AllowedAt(n, log, i);
    PersistedIsOnDisk(n, log, i);
    disk := At(n, log, i).persisted;
  }

  // A write made before the transition's first fence lists no selected host.
  lemma WithdrawnBeforeFence(n: Nodes, log: seq<Event>, b: nat, i: nat)
    requires Accepted(n, log) && i < |log| && StartOf(log, b, i) && log[i].Published? && NoFence(log, b, i)
    ensures forall w :: w in log[i].workers ==> w.host !in log[b].selected
  {
    AllowedAt(n, log, i);
    WatchedFence(n, log, b, i);
    WatchedBegan(n, log, b, i);
  }

  // No fence is sent before the transition has written the discovery file.
  lemma {:induction false} WatchedWithdrawal(n: Nodes, log: seq<Event>, b: nat, i: nat)
    requires StartOf(log, b, i) && At(n, log, i).withdrawn
    ensures exists j :: b < j < i && log[j].Published?
    decreases i
  {
    if !log[i - 1].Published? {
      if i > b + 1 {
        WatchedWithdrawal(n, log, b, i - 1);
      } else {
        assert false;
      }
    }
  }

  lemma FenceFollowsWithdrawal(n: Nodes, log: seq<Event>, b: nat, i: nat)
    requires Accepted(n, log) && i < |log| && StartOf(log, b, i) && log[i].FenceSent?
    ensures exists j :: b < j < i && log[j].Published?
  {
    AllowedAt(n, log, i);
    WatchedWithdrawal(n, log, b, i);
  }
}
