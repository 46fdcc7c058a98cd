/**
  Replicas of the key-value store over a Raft cluster: what their servers hand
  out agrees, so their stores do.
 */
module KvReplicas {
  import opened RaftTypes
  import opened RaftHandlers
  import opened RaftCluster
  import opened RaftInvariant
  import opened RaftTheorems
  import opened RaftProgress
  import opened RaftAgreement
  import opened KvStore

  /** The store of a replica that has applied what its server handed out. */
  ghost function Store(s: Server): Kv { Fold(Commands(s.delivered)) }

  lemma GaplessAt(s: Server, p: nat)
    requires Gapless(s) && p < |s.delivered|
    ensures s.delivered[p].index == p + 1
  {
  }

  /** What one server has handed out is a beginning of what another handed out, or conversely. */
  lemma DeliveredAgree(n: nat, states: seq<Cluster>, labels: seq<Label>, j: nat, k: nat, a: nat, b: nat, p: nat)
    requires Run(n, states, labels) && CleanRun(states, labels) && NoGapRun(states, labels) && j <= k < |states| && a < n && b < n
    requires a < |states[j].servers| && b < |states[k].servers|
    requires p < |states[j].servers[a].delivered| && p < |states[k].servers[b].delivered|
    ensures states[j].servers[a].delivered[p] == states[k].servers[b].delivered[p]
  {
    GaplessApply(n, states, labels, j, a);
    GaplessApply(n, states, labels, k, b);
    GaplessAt(states[j].servers[a], p);
    GaplessAt(states[k].servers[b], p);
    StateMachineSafety(n, states, labels, j, k, a, b, p, p);
  }

  lemma SamePrefix(x: Server, y: Server, m: nat)
    requires m <= |x.delivered| && m <= |y.delivered| && forall p | 0 <= p < m :: x.delivered[p] == y.delivered[p]
    ensures x.delivered[..m] == y.delivered[..m] && Fold(Commands(x.delivered[..m])) == Fold(Commands(y.delivered[..m]))
  {
  }

  /** Replicas agree: after the same number of commands, two replicas hold equal maps
      and equal request ids, whenever they got there. */
  lemma ReplicasAgree(n: nat, states: seq<Cluster>, labels: seq<Label>, j: nat, k: nat, a: nat, b: nat, m: nat)
    requires Run(n, states, labels) && CleanRun(states, labels) && NoGapRun(states, labels) && j <= k < |states| && a < n && b < n
    requires a < |states[j].servers| && b < |states[k].servers|
    requires m <= |states[j].servers[a].delivered| && m <= |states[k].servers[b].delivered|
    ensures Fold(Commands(states[j].servers[a].delivered[..m])) == Fold(Commands(states[k].servers[b].delivered[..m]))
  {
    forall p | 0 <= p < m
      ensures states[j].servers[a].delivered[p] == states[k].servers[b].delivered[p]
    {
      DeliveredAgree(n, states, labels, j, k, a, b, p);
    }
    SamePrefix(states[j].servers[a], states[k].servers[b], m);
  }

  /** Two servers of one state with equal lastApplied have equal stores. */
  lemma EqualApplied(n: nat, states: seq<Cluster>, labels: seq<Label>, k: nat, a: nat, b: nat)
    requires Run(n, states, labels) && CleanRun(states, labels) && NoGapRun(states, labels) && k < |states| && a < n && b < n
    requires a < |states[k].servers| && b < |states[k].servers|
    requires states[k].servers[a].node.applied == states[k].servers[b].node.applied
    ensures Store(states[k].servers[a]) == Store(states[k].servers[b])
  {
    GaplessApply(n, states, labels, k, a);
    GaplessApply(n, states, labels, k, b);
    var m := states[k].servers[a].node.applied;
    WholeStream(states[k].servers[a], m);
    WholeStream(states[k].servers[b], m);
    ReplicasAgree(n, states, labels, k, k, a, b, m);
  }

  lemma WholeStream(s: Server, m: nat)
    requires Gapless(s) && s.node.applied == m
    ensures |s.delivered| == m && s.delivered[..m] == s.delivered
  {
  }
}
