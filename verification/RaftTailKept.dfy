/**
  A conflicting entry is overwritten in place and the entries behind it stay
  (raft_KV/src/raftCore/raft.cpp:91-94), so a log can end in an entry of an old
  term although it took over entries of a newer one.  Its last term then
  understates it in UpToDate, and it votes for a candidate that lacks a
  committed entry.  This module plays such a run of five nodes.
 */
module RaftTailKept {
  import opened RaftTypes
  import opened RaftHandlers
  import opened RaftCluster
  import opened RaftInvariant
  import opened RaftReplication
  import opened RaftTheorems

  ghost predicate Shows(c: Cluster, nodes: seq<Node>) {
    && |c.servers| == |nodes|
    && forall i | 0 <= i < |nodes| :: c.servers[i].node == nodes[i] && !c.servers[i].halted
  }

  datatype Trace = Trace(states: seq<Cluster>, labels: seq<Label>) {
    ghost predicate Ok(nodes: seq<Node>) {
      && Run(|nodes|, states, labels) && Shows(states[|labels|], nodes)
      && forall k | 0 <= k < |labels| :: !labels[k].DeliverSnapshot?
    }

    function Last(): Cluster
      requires |states| > 0
    {
      states[|states| - 1]
    }

    function Then(l: Label, c: Cluster): Trace { Trace(states + [c], labels + [l]) }
  }

  lemma Extends(t: Trace, nodes: seq<Node>, l: Label, nodes': seq<Node>)
    requires t.Ok(nodes) && WellTyped(t.Last()) && Enabled(t.Last(), l) && !l.DeliverSnapshot? && Shows(Next(t.Last(), l), nodes') && |nodes'| == |nodes|
    ensures t.Then(l, Next(t.Last(), l)).Ok(nodes')
  {
    var t' := t.Then(l, Next(t.Last(), l));
    forall k {:trigger t'.labels[k]} | 0 <= k < |t'.labels|
      ensures Steps(t'.states[k], t'.labels[k], t'.states[k + 1])
    {
      if k < |t.labels| { assert t'.labels[k] == t.labels[k]; }
    }
  }

  lemma LastTyped(t: Trace, nodes: seq<Node>)
    requires t.Ok(nodes)
    ensures WellTyped(t.Last()) && Shows(t.Last(), nodes)
  {
    RunInv(|nodes|, t.states, t.labels, |t.labels|);
    InvIsTyped(t.Last());
  }

  ghost predicate Has(c: Cluster, tid: ThreadId, th: Thread) { tid in c.threads && c.threads[tid] == th }

  // ----------------------------------------------------------------- election

  ghost predicate Tallied(c: Cluster, i: nat, term: nat, votes: int) {
    ElectionKey(i, term) in c.elections && c.elections[ElectionKey(i, term)].votedNum == votes
  }

  lemma Campaigns(c: Cluster, nodes: seq<Node>, i: nat)
    requires WellTyped(c) && Shows(c, nodes) && i < |nodes| && nodes[i].status != Leader
    ensures Enabled(c, Timeout(i))
    ensures var (nd, a) := StartElection(nodes[i]);
      var c' := Next(c, Timeout(i));
      && Shows(c', nodes[i := nd]) && Tallied(c', i, nd.term, 1) && c'.rounds == c.rounds
      && forall p: nat | p < |nodes| && p != i :: Has(c', VoteThread(i, nd.term, p), VoteSent(a))
  {
  }

  lemma Grants(c: Cluster, nodes: seq<Node>, i: nat, p: nat, a: VoteArgs)
    requires WellTyped(c) && Shows(c, nodes) && p < |nodes| && Has(c, VoteThread(i, a.term, p), VoteSent(a))
    requires RequestVote(nodes[p], a).Done? && RequestVote(nodes[p], a).reply.granted
    ensures Enabled(c, DeliverVote(i, a.term, p))
    ensures var c' := Next(c, DeliverVote(i, a.term, p));
      && Shows(c', nodes[p := RequestVote(nodes[p], a).node]) && c'.elections == c.elections && c'.rounds == c.rounds
      && Has(c', VoteThread(i, a.term, p), VoteAnswered(a, VoteReply(a.term, true)))
      && forall tid | tid in c.threads && tid != VoteThread(i, a.term, p) :: Has(c', tid, c.threads[tid])
  {
  }

  lemma Counts(c: Cluster, nodes: seq<Node>, i: nat, p: nat, a: VoteArgs, votes: int)
    requires WellTyped(c) && Shows(c, nodes) && i < |nodes| && nodes[i].peers == |nodes|
    requires Has(c, VoteThread(i, a.term, p), VoteAnswered(a, VoteReply(a.term, true)))
    requires Tallied(c, i, a.term, votes) && nodes[i].term == a.term && nodes[i].status == Candidate
    ensures Enabled(c, VoteReplied(i, a.term, p))
    ensures var c' := Next(c, VoteReplied(i, a.term, p));
      && Shows(c', if votes + 1 < nodes[i].Majority() then nodes else nodes[i := BecomeLeader(nodes[i])])
      && (votes + 1 < nodes[i].Majority() ==> Tallied(c', i, a.term, votes + 1))
      && c'.rounds == c.rounds
      && forall tid | tid in c.threads && tid != VoteThread(i, a.term, p) :: Has(c', tid, c.threads[tid])
  {
  }

  /** `t'` continues `t` and leaves threads outside `gone` and the rounds alone. */
  ghost predicate Continues(t: Trace, t': Trace, gone: set<ThreadId>)
    requires |t.states| > 0
  {
    && t.states <= t'.states
    && t'.Last().rounds == t.Last().rounds
    && forall tid | tid in t.Last().threads && tid !in gone :: Has(t'.Last(), tid, t.Last().threads[tid])
  }

  lemma Poll(t: Trace, nodes: seq<Node>, i: nat, p: nat, a: VoteArgs, votes: int, nodes': seq<Node>) returns (t': Trace)
    requires t.Ok(nodes) && i < |nodes| && p < |nodes| && i != p && nodes[i].peers == |nodes|
    requires nodes[i].term == a.term && nodes[i].status == Candidate
    requires Has(t.Last(), VoteThread(i, a.term, p), VoteSent(a)) && Tallied(t.Last(), i, a.term, votes)
    requires RequestVote(nodes[p], a).Done? && RequestVote(nodes[p], a).reply.granted
    requires var voted := nodes[p := RequestVote(nodes[p], a).node];
      nodes' == if votes + 1 < nodes[i].Majority() then voted else voted[i := BecomeLeader(nodes[i])]
    ensures t'.Ok(nodes') && Continues(t, t', {VoteThread(i, a.term, p)})
    ensures votes + 1 < nodes[i].Majority() ==> Tallied(t'.Last(), i, a.term, votes + 1)
  {
    var voted := nodes[p := RequestVote(nodes[p], a).node];
    LastTyped(t, nodes);
    Grants(t.Last(), nodes, i, p, a);
    Extends(t, nodes, DeliverVote(i, a.term, p), voted);
    var t1 := t.Then(DeliverVote(i, a.term, p), Next(t.Last(), DeliverVote(i, a.term, p)));
    LastTyped(t1, voted);
    Counts(t1.Last(), voted, i, p, a, votes);
    Extends(t1, voted, VoteReplied(i, a.term, p), nodes');
    t' := t1.Then(VoteReplied(i, a.term, p), Next(t1.Last(), VoteReplied(i, a.term, p)));
  }

  lemma Campaign(t: Trace, nodes: seq<Node>, i: nat) returns (t': Trace)
    requires t.Ok(nodes) && i < |nodes| && nodes[i].status != Leader
    ensures var (nd, a) := StartElection(nodes[i]);
      && t'.Ok(nodes[i := nd]) && t.states <= t'.states && t'.Last().rounds == t.Last().rounds
      && Tallied(t'.Last(), i, nd.term, 1)
      && forall p: nat | p < |nodes| && p != i :: Has(t'.Last(), VoteThread(i, nd.term, p), VoteSent(a))
  {
    LastTyped(t, nodes);
    Campaigns(t.Last(), nodes, i);
    Extends(t, nodes, Timeout(i), nodes[i := StartElection(nodes[i]).0]);
    t' := t.Then(Timeout(i), Next(t.Last(), Timeout(i)));
  }

  /** Node `i` of five is elected with the votes of `p` and `q`. */
  lemma Elect(t: Trace, nodes: seq<Node>, i: nat, p: nat, q: nat, nd: Node, a: VoteArgs, nodes': seq<Node>) returns (t': Trace)
    requires t.Ok(nodes) && |nodes| == 5 && i < 5 && p < 5 && q < 5 && i != p && i != q && p != q
    requires nodes[i].status != Leader && nodes[i].peers == 5 && (nd, a) == StartElection(nodes[i])
    requires RequestVote(nodes[p], a).Done? && RequestVote(nodes[p], a).reply.granted
    requires RequestVote(nodes[q], a).Done? && RequestVote(nodes[q], a).reply.granted
    requires nodes' == nodes[i := BecomeLeader(nd)][p := RequestVote(nodes[p], a).node][q := RequestVote(nodes[q], a).node]
    ensures t'.Ok(nodes') && t.states <= t'.states && t'.Last().rounds == t.Last().rounds
  {
    var n1 := nodes[i := nd];
    var n2 := n1[p := RequestVote(nodes[p], a).node];
    var n3 := n2[q := RequestVote(nodes[q], a).node][i := BecomeLeader(nd)];
    assert n3 == nodes';
    var t1 := Campaign(t, nodes, i);
    var t2 := Poll(t1, n1, i, p, a, 1, n2);
    t' := Poll(t2, n2, i, q, a, 2, n3);
  }

  // -------------------------------------------------------------- replication

  lemma Proposes(c: Cluster, nodes: seq<Node>, i: nat, op: Op)
    requires WellTyped(c) && Shows(c, nodes) && i < |nodes| && nodes[i].status == Leader
    ensures Enabled(c, ClientStart(i, op))
    ensures var c' := Next(c, ClientStart(i, op));
      Shows(c', nodes[i := Start(nodes[i], op)]) && c'.rounds == c.rounds && c'.threads == c.threads
  {
  }

  lemma Propose(t: Trace, nodes: seq<Node>, i: nat, op: Op, nd: Node, nodes': seq<Node>) returns (t': Trace)
    requires t.Ok(nodes) && i < |nodes| && nodes[i].status == Leader && nd == Start(nodes[i], op) && nodes' == nodes[i := nd]
    ensures t'.Ok(nodes') && Continues(t, t', {})
  {
    LastTyped(t, nodes);
    Proposes(t.Last(), nodes, i, op);
    Extends(t, nodes, ClientStart(i, op), nodes');
    t' := t.Then(ClientStart(i, op), Next(t.Last(), ClientStart(i, op)));
  }

  ghost predicate Reaches(nd: Node)
    requires nd.Valid()
  {
    forall p: nat | p < nd.peers && p != nd.me :: BeatFor(nd, p).SendAppend?
  }

  lemma Beats(c: Cluster, nodes: seq<Node>, i: nat, p: nat)
    requires WellTyped(c) && Shows(c, nodes) && i < |nodes| && nodes[i].status == Leader && nodes[i].Valid() && Reaches(nodes[i])
    requires p < |nodes| && p != i && nodes[i].peers == |nodes| && nodes[i].me == i
    ensures Enabled(c, HeartBeat(i))
    ensures var c' := Next(c, HeartBeat(i));
      && Shows(c', nodes) && c'.rounds == c.rounds + [Round(i, nodes[i].term, nodes[i].LastIndex(), 1, {}, false)]
      && Has(c', AppendThread(|c.rounds|, p), AppendSent(BeatFor(nodes[i], p).args))
  {
  }

  lemma SendRound(t: Trace, nodes: seq<Node>, i: nat, p: nat, q: nat) returns (t': Trace)
    requires t.Ok(nodes) && i < |nodes| && nodes[i].status == Leader && nodes[i].Valid() && Reaches(nodes[i])
    requires p < |nodes| && p != i && q < |nodes| && q != i && nodes[i].peers == |nodes| && nodes[i].me == i
    ensures t'.Ok(nodes) && t.states <= t'.states
    ensures var c, c' := t.Last(), t'.Last();
      && c'.rounds == c.rounds + [Round(i, nodes[i].term, nodes[i].LastIndex(), 1, {}, false)]
      && Has(c', AppendThread(|c.rounds|, p), AppendSent(BeatFor(nodes[i], p).args))
      && Has(c', AppendThread(|c.rounds|, q), AppendSent(BeatFor(nodes[i], q).args))
  {
    LastTyped(t, nodes);
    Beats(t.Last(), nodes, i, p);
    Beats(t.Last(), nodes, i, q);
    Extends(t, nodes, HeartBeat(i), nodes);
    t' := t.Then(HeartBeat(i), Next(t.Last(), HeartBeat(i)));
  }

  lemma Delivers(c: Cluster, nodes: seq<Node>, r: nat, p: nat, a: AppendArgs, nd: Node, reply: AppendReply)
    requires WellTyped(c) && Shows(c, nodes) && p < |nodes| && nodes[p].Valid()
    requires Has(c, AppendThread(r, p), AppendSent(a)) && AppendEntries(nodes[p], a) == Done(nd, reply)
    ensures Enabled(c, DeliverAppend(r, p))
    ensures var c' := Next(c, DeliverAppend(r, p));
      && Shows(c', nodes[p := nd]) && c'.rounds == c.rounds
      && c'.threads == c.threads[AppendThread(r, p) := AppendAnswered(a, reply)]
  {
  }

  lemma Deliver(t: Trace, nodes: seq<Node>, r: nat, p: nat, a: AppendArgs, nd: Node, reply: AppendReply, nodes': seq<Node>)
    returns (t': Trace)
    requires t.Ok(nodes) && p < |nodes| && nodes[p].Valid() && nodes' == nodes[p := nd]
    requires Has(t.Last(), AppendThread(r, p), AppendSent(a)) && AppendEntries(nodes[p], a) == Done(nd, reply)
    ensures t'.Ok(nodes') && Continues(t, t', {AppendThread(r, p)})
    ensures Has(t'.Last(), AppendThread(r, p), AppendAnswered(a, reply))
  {
    LastTyped(t, nodes);
    Delivers(t.Last(), nodes, r, p, a, nd, reply);
    Extends(t, nodes, DeliverAppend(r, p), nodes');
    t' := t.Then(DeliverAppend(r, p), Next(t.Last(), DeliverAppend(r, p)));
  }

  ghost predicate RoundIs(c: Cluster, r: nat, i: nat, count: int) {
    r < |c.rounds| && c.rounds[r].leader == i && c.rounds[r].count == count
  }

  lemma Returns(c: Cluster, nodes: seq<Node>, i: nat, r: nat, p: nat, a: AppendArgs, reply: AppendReply, count: int, nd: Node, count': int)
    requires WellTyped(c) && Shows(c, nodes) && i < |nodes| && nodes[i].Valid() && p < nodes[i].peers && nodes[i].status == Leader
    requires Has(c, AppendThread(r, p), AppendAnswered(a, reply)) && RoundIs(c, r, i, count) && reply.term == nodes[i].term
    requires HandleAppendReply(nodes[i], p, a, reply, count) == Done(nd, count')
    ensures Enabled(c, AppendReplied(r, p))
    ensures var c' := Next(c, AppendReplied(r, p));
      && Shows(c', nodes[i := nd]) && RoundIs(c', r, i, count') && |c'.rounds| == |c.rounds|
      && c'.threads == c.threads - {AppendThread(r, p)}
  {
  }

  lemma Return(t: Trace, nodes: seq<Node>, i: nat, r: nat, p: nat, a: AppendArgs, reply: AppendReply, count: int,
               nd: Node, count': int, nodes': seq<Node>)
    returns (t': Trace)
    requires t.Ok(nodes) && i < |nodes| && nodes' == nodes[i := nd] && nodes[i].Valid() && p < nodes[i].peers && nodes[i].status == Leader
    requires Has(t.Last(), AppendThread(r, p), AppendAnswered(a, reply)) && RoundIs(t.Last(), r, i, count) && reply.term == nodes[i].term
    requires HandleAppendReply(nodes[i], p, a, reply, count) == Done(nd, count')
    ensures t'.Ok(nodes') && t.states <= t'.states && RoundIs(t'.Last(), r, i, count') && |t'.Last().rounds| == |t.Last().rounds|
    ensures t'.Last().threads == t.Last().threads - {AppendThread(r, p)}
  {
    LastTyped(t, nodes);
    Returns(t.Last(), nodes, i, r, p, a, reply, count, nd, count');
    Extends(t, nodes, AppendReplied(r, p), nodes');
    t' := t.Then(AppendReplied(r, p), Next(t.Last(), AppendReplied(r, p)));
  }

  /** A message is delivered to `p` and its answer comes back to leader `i`. */
  lemma Exchange(t: Trace, nodes: seq<Node>, i: nat, r: nat, p: nat, a: AppendArgs, ndp: Node, reply: AppendReply, count: int,
                 ndi: Node, count': int, nodes': seq<Node>)
    returns (t': Trace)
    requires t.Ok(nodes) && i < |nodes| && p < |nodes| && i != p && nodes[i].Valid() && nodes[p].Valid() && nodes[i].peers == |nodes|
    requires Has(t.Last(), AppendThread(r, p), AppendSent(a)) && AppendEntries(nodes[p], a) == Done(ndp, reply)
    requires nodes[i].status == Leader && RoundIs(t.Last(), r, i, count) && reply.term == nodes[i].term
    requires HandleAppendReply(nodes[i], p, a, reply, count) == Done(ndi, count')
    requires nodes' == nodes[p := ndp][i := ndi]
    ensures t'.Ok(nodes') && t.states <= t'.states && RoundIs(t'.Last(), r, i, count') && |t'.Last().rounds| == |t.Last().rounds|
    ensures forall tid | tid in t.Last().threads && tid != AppendThread(r, p) :: Has(t'.Last(), tid, t.Last().threads[tid])
  {
    var t1 := Deliver(t, nodes, r, p, a, ndp, reply, nodes[p := ndp]);
    t' := Return(t1, nodes[p := ndp], i, r, p, a, reply, count, ndi, count', nodes');
  }

  lemma Applies(c: Cluster, nodes: seq<Node>, i: nat)
    requires WellTyped(c) && Shows(c, nodes) && i < |nodes| && nodes[i].Valid() && nodes[i].commit > nodes[i].applied
    ensures Enabled(c, Apply(i))
    ensures var c' := Next(c, Apply(i));
      && Shows(c', nodes[i := AfterApply(nodes[i])]) && c'.rounds == c.rounds && c'.threads == c.threads
      && ApplyMsgs(nodes[i])[0] in c'.servers[i].delivered
  {
  }

  lemma HandOut(t: Trace, nodes: seq<Node>, i: nat, nd: Node, msg: ApplyMsg, nodes': seq<Node>) returns (t': Trace)
    requires t.Ok(nodes) && i < |nodes| && nodes[i].Valid() && nodes[i].commit > nodes[i].applied
    requires nd == AfterApply(nodes[i]) && msg == ApplyMsgs(nodes[i])[0] && nodes' == nodes[i := nd]
    ensures t'.Ok(nodes') && Continues(t, t', {}) && |t'.Last().servers| == |nodes|
    ensures msg in t'.Last().servers[i].delivered
  {
    LastTyped(t, nodes);
    Applies(t.Last(), nodes, i);
    Extends(t, nodes, Apply(i), nodes');
    t' := t.Then(Apply(i), Next(t.Last(), Apply(i)));
  }
}
