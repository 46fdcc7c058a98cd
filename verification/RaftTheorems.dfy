/** What holds over whole runs of a Raft cluster. */
module RaftTheorems {
  import opened RaftTypes
  import opened RaftHandlers
  import opened RaftCluster
  import opened RaftInvariant
  import opened RaftElection
  import opened RaftReplication
  import opened RaftNodeLaws
  import opened RaftSafety
  import opened RaftSafeSteps
  import opened RaftSafeRuns

  // ---------------------------------------------------------------- every run

  ghost predicate StepKeeps(c: Cluster, c': Cluster) {
    exists i: nat :: StepOf(c, c', i)
  }

  lemma StepInv(c: Cluster, l: Label, c': Cluster)
    requires Inv(c) && Steps(c, l, c')
    ensures Inv(c') && StepKeeps(c, c')
  {
    NextKeepsInv(c, l);
    assert StepOf(c, c', Actor(c, l));
  }

  lemma FirstState(n: nat)
    requires n >= 2
    ensures Inv(Init(n)) && |Init(n).servers| == n
  {
    InitInv(n);
  }

  /** Every state of every run satisfies the invariant. */
  lemma {:induction false} RunInv(n: nat, states: seq<Cluster>, labels: seq<Label>, k: nat)
    requires Run(n, states, labels) && k < |states|
    ensures Inv(states[k]) && |states[k].servers| == n
  {
    if k == 0 {
      FirstState(n);
    } else {
      RunInv(n, states, labels, k - 1);
      StepInv(states[k - 1], labels[k - 1], states[k]);
      SameSize(states[k - 1], states[k]);
    }
  }

  lemma SameSize(c: Cluster, c': Cluster)
    requires StepKeeps(c, c')
    ensures |c'.servers| == |c.servers|
  {
  }

  /** The typing condition in `Steps` never stands in the way: whatever is enabled can happen. */
  lemma EnabledStepsHappen(n: nat, states: seq<Cluster>, labels: seq<Label>, l: Label)
    requires Run(n, states, labels) && Enabled(states[|labels|], l)
    ensures exists c' :: Run(n, states + [c'], labels + [l])
  {
    var c := states[|labels|];
    RunInv(n, states, labels, |labels|);
    InvIsTyped(c);
    ExtendRun(n, states, labels, l, Next(c, l));
  }

  lemma ExtendRun(n: nat, states: seq<Cluster>, labels: seq<Label>, l: Label, c': Cluster)
    requires Run(n, states, labels) && Steps(states[|labels|], l, c')
    ensures Run(n, states + [c'], labels + [l])
  {
    var ss, ls := states + [c'], labels + [l];
    forall k | 0 <= k < |ls|
      ensures Steps(ss[k], ls[k], ss[k + 1])
    {
      if k < |labels| { assert Steps(states[k], labels[k], states[k + 1]); }
    }
  }

  /** A reign, once begun, keeps its leader, and its log only extends. */
  ghost predicate ReignLasts(h: History, h': History, t: nat) {
    t in h.reigns ==> t in h'.reigns && h'.reigns[t].leader == h.reigns[t].leader && h.reigns[t].log <= h'.reigns[t].log
  }

  lemma StepReign(c: Cluster, c': Cluster, t: nat)
    requires StepKeeps(c, c')
    ensures ReignLasts(c.hist, c'.hist, t)
  {
    var i: nat :| StepOf(c, c', i);
    if t in c.hist.reigns { assert ReignGrows(c.hist.reigns[t], c'.hist.reigns[t], i); }
  }

  lemma {:induction false} RunReign(n: nat, states: seq<Cluster>, labels: seq<Label>, j: nat, k: nat, t: nat)
    requires Run(n, states, labels) && j <= k < |states|
    ensures ReignLasts(states[j].hist, states[k].hist, t)
  {
    if j < k {
      RunReign(n, states, labels, j, k - 1, t);
      RunInv(n, states, labels, k - 1);
      StepInv(states[k - 1], labels[k - 1], states[k]);
      StepReign(states[k - 1], states[k], t);
    }
  }

  lemma LeaderReigns(c: Cluster, i: nat)
    requires Inv(c) && i < |c.servers| && c.servers[i].node.status == Leader
    ensures var t := c.servers[i].node.term;
      t in c.hist.reigns && c.hist.reigns[t].leader == i && c.hist.reigns[t].log == c.servers[i].full
  {
  }

  /** The servers of `c` that lead, and in which term. */
  ghost predicate Leads(c: Cluster, i: nat, t: nat) {
    i < |c.servers| && c.servers[i].node.status == Leader && c.servers[i].node.term == t
  }

  /** Election Safety: in any run, at any two moments, two leaders of one term are one server. */
  lemma ElectionSafety(n: nat, states: seq<Cluster>, labels: seq<Label>, j: nat, k: nat, a: nat, b: nat, t: nat)
    requires Run(n, states, labels) && j <= k < |states| && Leads(states[j], a, t) && Leads(states[k], b, t)
    ensures a == b
  {
    RunInv(n, states, labels, j);
    RunInv(n, states, labels, k);
    LeaderReigns(states[j], a);
    LeaderReigns(states[k], b);
    RunReign(n, states, labels, j, k, t);
  }

  /** Leader Append-Only: while a server leads a term, its log only extends. */
  lemma LeaderAppendOnly(n: nat, states: seq<Cluster>, labels: seq<Label>, j: nat, k: nat, i: nat, t: nat)
    requires Run(n, states, labels) && j <= k < |states| && Leads(states[j], i, t) && Leads(states[k], i, t)
    ensures states[j].servers[i].full <= states[k].servers[i].full
  {
    RunInv(n, states, labels, j);
    RunInv(n, states, labels, k);
    LeaderReigns(states[j], i);
    LeaderReigns(states[k], i);
    RunReign(n, states, labels, j, k, t);
  }

  ghost predicate InLog(c: Cluster, e: Entry, i: nat, p: nat) {
    i < |c.servers| && p < |c.servers[i].full| && c.servers[i].full[p] == e
  }

  ghost predicate InMessage(c: Cluster, e: Entry, tid: ThreadId, p: nat) {
    && tid in c.threads && tid.AppendThread? && (c.threads[tid].AppendSent? || c.threads[tid].AppendAnswered?)
    && p < |c.threads[tid].args.entries| && c.threads[tid].args.entries[p] == e
  }

  /** `e` stands in a log or in a message of the state. */
  ghost predicate Appears(c: Cluster, e: Entry) {
    (exists i: nat, p: nat :: InLog(c, e, i, p)) || (exists tid, p: nat :: InMessage(c, e, tid, p))
  }

  lemma LogEntryFrom(c: Cluster, e: Entry, i: nat, p: nat)
    requires ServersOk(c) && InLog(c, e, i, p)
    ensures e.index >= 1 && EntryFrom(c.hist, e, e.index - 1)
  {
    assert ServerOk(c.hist, |c.servers|, c.servers[i], i);
    assert EntryFrom(c.hist, c.servers[i].full[p], p);
  }

  lemma MessageFrom(h: History, a: AppendArgs, p: nat)
    requires FromLeader(h, a) && p < |a.entries|
    ensures var e := a.entries[p]; e.index >= 1 && EntryFrom(h, e, e.index - 1)
  {
    assert a.entries[p] == h.reigns[a.term].log[a.prevIndex + p];
  }

  lemma ArgsFrom(h: History, a: AppendArgs, p: nat, e: Entry)
    requires FromLeader(h, a) && p < |a.entries| && e == a.entries[p]
    ensures e.index >= 1 && EntryFrom(h, e, e.index - 1)
  {
    MessageFrom(h, a, p);
  }

  lemma InLeaderMessage(c: Cluster, tid: ThreadId)
    requires HistoryOk(c) && ThreadsOk(c) && tid in c.threads && tid.AppendThread?
    ensures ThreadTyped(c, tid, c.threads[tid]) && FromLeader(c.hist, c.threads[tid].args)
  {
    assert ThreadOk(c, tid, c.threads[tid]);
    LeaderMessage(c, tid);
  }

  lemma MessageEntryFrom(c: Cluster, e: Entry, tid: ThreadId, p: nat)
    requires HistoryOk(c) && ThreadsOk(c) && InMessage(c, e, tid, p)
    ensures e.index >= 1 && EntryFrom(c.hist, e, e.index - 1)
  {
    InLeaderMessage(c, tid);
    ArgsFrom(c.hist, c.threads[tid].args, p, e);
  }

  lemma AppearsFrom(c: Cluster, e: Entry)
    requires Inv(c) && Appears(c, e)
    ensures e.index >= 1 && EntryFrom(c.hist, e, e.index - 1)
  {
    if i: nat, p: nat :| InLog(c, e, i, p) {
      LogEntryFrom(c, e, i, p);
    } else {
      var tid, p: nat :| InMessage(c, e, tid, p);
      MessageEntryFrom(c, e, tid, p);
    }
  }

  lemma RunAppears(n: nat, states: seq<Cluster>, labels: seq<Label>, k: nat, e: Entry)
    requires Run(n, states, labels) && k < |states| && Appears(states[k], e)
    ensures e.index >= 1 && EntryFrom(states[k].hist, e, e.index - 1)
  {
    RunInv(n, states, labels, k);
    AppearsFrom(states[k], e);
  }

  /** Entry identity: over a whole run, index and term fix the command, in every
      log and every message. */
  lemma EntryIdentity(n: nat, states: seq<Cluster>, labels: seq<Label>, j: nat, k: nat, d: Entry, e: Entry)
    requires Run(n, states, labels) && j <= k < |states| && Appears(states[j], d) && Appears(states[k], e)
    requires d.index == e.index && d.term == e.term
    ensures d.command == e.command
  {
    RunAppears(n, states, labels, j, d);
    RunAppears(n, states, labels, k, e);
    RunReign(n, states, labels, j, k, d.term);
  }

  // ------------------------------------------------------------ failed asserts

  /** The one assertion that a reachable cluster can fail: matchLog on a message
      whose previous index lies below the receiver's snapshot point. */
  ghost predicate StaleMessage(c: Cluster, l: Label)
    requires WellTyped(c) && Enabled(c, l)
  {
    && l.DeliverAppend?
    && (var a, nd := c.threads[AppendThread(l.round, l.peer)].args, c.servers[l.peer].node;
        a.term >= nd.term && a.prevIndex < nd.snapIndex)
  }

  lemma AppendHalts(c: Cluster, tid: ThreadId)
    requires HistoryOk(c) && tid.AppendThread? && tid in c.threads && ThreadOk(c, tid, c.threads[tid]) && tid.peer < |c.servers|
    requires ServerOk(c.hist, |c.servers|, c.servers[tid.peer], tid.peer)
    ensures var a, nd := c.threads[tid].args, c.servers[tid.peer].node;
      AppendEntries(nd, a).Halted? <==> a.term >= nd.term && a.prevIndex < nd.snapIndex
  {
    var a, s := c.threads[tid].args, c.servers[tid.peer];
    LeaderMessage(c, tid);
    if a.term >= s.node.term {
      if a.term > s.node.term { NoFutureVote(c, a.term, tid.peer); }
      AtTermServer(c.hist, |c.servers|, s, tid.peer, a.term);
      AnswerAppend(c.hist, |c.servers|, s.(node := AtTerm(s.node, a.term)), tid.peer, a);
    }
  }

  lemma VoteReplyNeverHalts(c: Cluster, tid: ThreadId, key: ElectionKey)
    requires tid.VoteThread? && tid in c.threads && c.threads[tid].VoteAnswered? && ThreadOk(c, tid, c.threads[tid])
    requires key == ElectionKey(tid.cand, tid.term) && ElectionOk(c, key, c.elections[key])
    requires tid.term in c.hist.reigns ==> ReignOk(c, tid.term, c.hist.reigns[tid.term])
    requires ServerOk(c.hist, |c.servers|, c.servers[tid.cand], tid.cand)
    ensures HandleVoteReply(c.servers[tid.cand].node, c.threads[tid].voteReply, c.elections[key].votedNum).Done?
  {
    var r, e := c.threads[tid].voteReply, c.elections[key];
    if r.granted && r.term == c.servers[tid.cand].node.term && e.votedNum + 1 >= |c.servers| / 2 + 1 {
      MajorityIsFirst(c, key, e, tid.peer);
    }
  }

  lemma AppendReplyNeverHalts(c: Cluster, tid: ThreadId, i: nat)
    requires tid.AppendThread? && tid in c.threads && c.threads[tid].AppendAnswered? && ThreadOk(c, tid, c.threads[tid])
    requires i == c.rounds[tid.round].leader && ServerOk(c.hist, |c.servers|, c.servers[i], i)
    ensures HandleAppendReply(c.servers[i].node, tid.peer, c.threads[tid].args, c.threads[tid].reply, c.rounds[tid.round].count).Done?
  {
    var nd, r := c.servers[i].node, c.threads[tid].reply;
    assert AppendThreadOk(c, tid, c.threads[tid]);
    if r.term == nd.term && nd.status == Leader && r.success {
      CountedReplyServer(c.hist, |c.servers|, c.servers[i], i, tid.peer, c.threads[tid].args, r, c.rounds[tid.round].count);
    }
  }

  /** Every handler that could halt ends normally, but for a stale message. */
  ghost predicate HandlersEnd(c: Cluster, l: Label)
    requires WellTyped(c) && Enabled(c, l)
  {
    match l
    case HeartBeat(i) => !BeatFails(c.servers[i].node)
    case VoteReplied(cand, term, peer) =>
      var th := c.threads[VoteThread(cand, term, peer)];
      HandleVoteReply(c.servers[cand].node, th.voteReply, c.elections[ElectionKey(cand, term)].votedNum).Done?
    case DeliverAppend(round, peer) =>
      AppendEntries(c.servers[peer].node, c.threads[AppendThread(round, peer)].args).Halted? <==> StaleMessage(c, l)
    case AppendReplied(round, peer) =>
      var th, r := c.threads[AppendThread(round, peer)], c.rounds[round];
      HandleAppendReply(c.servers[r.leader].node, peer, th.args, th.reply, r.count).Done?
    case _ => true
  }

  lemma HandlersDoEnd(c: Cluster, l: Label)
    requires Inv(c) && WellTyped(c) && Enabled(c, l)
    ensures HandlersEnd(c, l)
  {
    match l {
      case HeartBeat(i) => BeatNeverFails(c.hist, |c.servers|, c.servers[i], i);
      case VoteReplied(cand, term, peer) => VoteReplyNeverHalts(c, VoteThread(cand, term, peer), ElectionKey(cand, term));
      case DeliverAppend(round, peer) => AppendHalts(c, AppendThread(round, peer));
      case AppendReplied(round, peer) => AppendReplyNeverHalts(c, AppendThread(round, peer), c.rounds[round].leader);
      case _ =>
    }
  }

  lemma NextHalts(c: Cluster, l: Label, j: nat)
    requires WellTyped(c) && Enabled(c, l) && j < |c.servers| && HandlersEnd(c, l)
    ensures |Next(c, l).servers| == |c.servers|
    ensures Next(c, l).servers[j].halted <==> c.servers[j].halted || (StaleMessage(c, l) && j == l.peer)
  {
  }

  /** Of all assertions in the handlers only matchLog can fail, and it fails
      exactly on a message that starts below the receiver's snapshot point. */
  lemma HaltsOnlyOnStaleMessage(n: nat, states: seq<Cluster>, labels: seq<Label>, k: nat, j: nat)
    requires Run(n, states, labels) && k < |labels| && j < |states[k].servers|
    ensures |states[k + 1].servers| == |states[k].servers|
    ensures states[k + 1].servers[j].halted <==>
      states[k].servers[j].halted || (StaleMessage(states[k], labels[k]) && j == labels[k].peer)
  {
    RunInv(n, states, labels, k);
    HandlersDoEnd(states[k], labels[k]);
    NextHalts(states[k], labels[k], j);
  }
}
