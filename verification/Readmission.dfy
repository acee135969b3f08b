// The capacity lease on a fenced node: its own protocol joined with the node's
// (spark_bench/runtime.py, NodeLease).
module Readmission {
  import opened Wrappers
  import opened Ownership
  import Lease = CapacityLease
  import NodeFence

  // A lease that read the node's fence as generation g when it took the node lock, and
  // admits while it still holds the lock, admits with the fence the node has at that
  // moment and leaves no container behind.
  lemma AdmitsUnderOwnFence(states: seq<Lease.State>, steps: seq<Lease.Step>, i: nat,
                            nodes: seq<NodeFence.State>, moves: seq<NodeFence.Step>, k: nat, m: nat, h: Host)
    requires Lease.Execution(states, steps) && i < |states| && states[i].phase.Admitted?
    requires NodeFence.Execution(nodes, moves) && k < m < |moves| && moves[k] == NodeFence.LeaseTake(h)
    requires moves[m] == NodeFence.LeaseAdmit(h, states[i].phase.gen)
    requires forall j :: k < j < m ==> moves[j] != NodeFence.LeaseEnd(h)
    requires nodes[k].sites.Of(h).fence == Some(states[0].generation)
    ensures nodes[m].sites.Of(h).fence == Some(states[i].phase.gen) && states[i].phase.gen == states[0].generation
    ensures states[i].present == {}
  {
    Lease.ReadmissionIsSound(states, steps, i);
    NodeFence.LeaseKeepsGeneration(nodes, moves, k, m, h);
  }
}
