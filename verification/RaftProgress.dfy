/** Commit quorums, probing, monotone nodes and the apply stream, over every run. */
module RaftProgress {
  import opened RaftTypes
  import opened RaftHandlers
  import opened RaftCluster
  import opened RaftInvariant
  import opened RaftElection
  import opened RaftReplication
  import opened RaftNodeLaws
  import opened RaftSafety
  import opened RaftSafeSteps
  import opened RaftTheorems

  // ------------------------------------------------------------ monotone nodes

  lemma NextAdvances(c: Cluster, l: Label, j: nat)
    requires WellTyped(c) && Enabled(c, l) && j < |c.servers|
    ensures |Next(c, l).servers| == |c.servers|
    ensures Next(c, l).servers[j].node == c.servers[j].node || Advances(c.servers[j].node, Next(c, l).servers[j].node)
  {
    match l {
      case Timeout(i) => ElectionAdvances(c.servers[i].node, VoteReply(0, false), 0);
      case DeliverVote(cand, term, peer) => RequestVoteAdvances(c.servers[peer].node, c.threads[VoteThread(cand, term, peer)].voteArgs);
      case VoteReplied(cand, term, peer) =>
        ElectionAdvances(c.servers[cand].node, c.threads[VoteThread(cand, term, peer)].voteReply, c.elections[ElectionKey(cand, term)].votedNum);
      case DeliverAppend(round, peer) => AppendEntriesAdvances(c.servers[peer].node, c.threads[AppendThread(round, peer)].args);
      case AppendReplied(round, peer) =>
        var th, r := c.threads[AppendThread(round, peer)], c.rounds[round];
        AppendReplyAdvances(c.servers[r.leader].node, peer, th.args, th.reply, r.count);
      case DeliverSnapshot(serial) =>
        var th := c.threads[SnapThread(serial)];
        SnapshotAdvances(c.servers[th.to].node, 0, th.snapArgs, SnapReply(0));
      case SnapshotReplied(serial) =>
        var th := c.threads[SnapThread(serial)];
        SnapshotAdvances(c.servers[th.from].node, th.to, th.snapArgs, th.snapReply);
      case ClientStart(i, op) => LocalAdvances(c.servers[i].node, op, 0);
      case Compact(i, index) => LocalAdvances(c.servers[i].node, Op("", "", "", "", 0), index);
      case Apply(i) => LocalAdvances(c.servers[i].node, Op("", "", "", "", 0), 0);
      case _ =>
    }
  }

  ghost predicate NoLower(s: Node, s': Node) {
    s.term <= s'.term && s.commit <= s'.commit && s.applied <= s'.applied && s.LastIndex() <= s'.LastIndex()
  }

  /** Over any run, a node's term, commitIndex, lastApplied and last log index never fall,
      and its stored entries stay contiguous above its snapshot point. */
  lemma {:induction false} NodesAdvance(n: nat, states: seq<Cluster>, labels: seq<Label>, j: nat, k: nat, i: nat)
    requires Run(n, states, labels) && j <= k < |states| && i < |states[j].servers|
    ensures i < |states[k].servers| && states[k].servers[i].node.Valid()
    ensures NoLower(states[j].servers[i].node, states[k].servers[i].node)
  {
    RunInv(n, states, labels, k);
    if j < k {
      NodesAdvance(n, states, labels, j, k - 1, i);
      assert Steps(states[k - 1], labels[k - 1], states[k]);
      NextAdvances(states[k - 1], labels[k - 1], i);
    }
  }

  // ------------------------------------------------------------- commit quorum

  /** `full` ends its first `index` entries with the leader log's segment behind `prev`, and meets it there in term. */
  ghost predicate AcceptedFrom(full: seq<Entry>, log: seq<Entry>, prev: nat, index: nat) {
    prev <= index <= |full| && index <= |log| && full[prev..index] == log[prev..index] && TermAt(full, prev) == TermAt(log, prev)
  }

  /** After the step, server `a.node` is in term `a.term` and has taken over the leader's log from `prev` to `a.index`. */
  ghost predicate TakenOver(c': Cluster, a: Ack, prev: nat) {
    && a.node < |c'.servers| && c'.servers[a.node].node.term == a.term && a.term in c'.hist.reigns
    && AcceptedFrom(c'.servers[a.node].full, c'.hist.reigns[a.term].log, prev, a.index)
  }

  /** The step is the leader's own heartbeat, at which it holds the whole of it, or the delivery to
      `a.node` of a message of that term that ends at `a.index`, whose entries it then holds. */
  ghost predicate AcceptedBy(c: Cluster, l: Label, c': Cluster, a: Ack) {
    match l
    case HeartBeat(i) => i == a.node && TakenOver(c', a, 0)
    case DeliverAppend(round, peer) =>
      var tid := AppendThread(round, peer);
      && peer == a.node && tid in c.threads && c.threads[tid].AppendSent?
      && c.threads[tid].args.term == a.term && c.threads[tid].args.End() == a.index
      && TakenOver(c', a, c.threads[tid].args.prevIndex)
    case _ => false
  }

  lemma MergedSegment(h: History, n: nat, s: Server, p: nat, a: AppendArgs)
    requires ServerOk(h, n, s, p) && FromLeader(h, a) && s.node.snapIndex <= a.prevIndex <= |s.full|
    requires s.node.TermOf(a.prevIndex) == a.prevTerm
    ensures AcceptedFrom(Overwrite(s.full, a.prevIndex, a.entries), h.reigns[a.term].log, a.prevIndex, a.End())
  {
    MergeIsLocal(s.full, a.prevIndex, a.entries);
    SyncedTerm(s, a.prevIndex);
    var r := Overwrite(s.full, a.prevIndex, a.entries);
    if a.prevIndex > 0 { assert r[..a.prevIndex][a.prevIndex - 1] == s.full[..a.prevIndex][a.prevIndex - 1]; }
  }

  lemma AppendAccepted(c: Cluster, c': Cluster, tid: ThreadId, a: Ack)
    requires tid.AppendThread? && tid in c.threads && c.threads[tid].AppendSent? && tid.peer < |c.servers|
    requires ServerOk(c.hist, |c.servers|, c.servers[tid.peer], tid.peer) && FromLeader(c.hist, c.threads[tid].args)
    requires var t := c.threads[tid].args.term; t > c.servers[tid.peer].node.term ==> VoteKey(t, tid.peer) !in c.hist.votes
    requires c' == DoDeliverAppend(c, tid) && a in c'.hist.acks && a !in c.hist.acks
    ensures a.node == tid.peer && a.term == c.threads[tid].args.term && a.index == c.threads[tid].args.End()
    ensures TakenOver(c', a, c.threads[tid].args.prevIndex)
  {
    var m, p := c.threads[tid].args, tid.peer;
    var s := c.servers[p];
    assert AppendEntries(s.node, m).Done? && AppendEntries(s.node, m).reply.success;
    AcceptedShape(c, c', tid);
    AcceptedMeets(s, m);
    MergedSegment(c.hist, |c.servers|, s, p, m);
  }

  lemma BeatAccepted(c: Cluster, c': Cluster, i: nat, a: Ack)
    requires i < |c.servers| && ServerOk(c.hist, |c.servers|, c.servers[i], i) && c.servers[i].node.status == Leader
    requires Beaten(c, c', i) && a in c'.hist.acks && a !in c.hist.acks
    ensures a.node == i && TakenOver(c', a, 0)
  {
  }

  lemma OldAck(c: Cluster, l: Label, a: Ack)
    requires WellTyped(c) && Enabled(c, l) && !l.DeliverAppend? && !l.HeartBeat? && a in Next(c, l).hist.acks
    ensures a in c.hist.acks
  {
  }

  lemma NewAckIsAccepted(c: Cluster, l: Label, c': Cluster, a: Ack)
    requires Inv(c) && Steps(c, l, c') && a in c'.hist.acks && a !in c.hist.acks
    ensures AcceptedBy(c, l, c', a)
  {
    match l {
      case HeartBeat(i) =>
        HeartBeatShape(c, i);
        BeatAccepted(c, c', i, a);
      case DeliverAppend(round, peer) =>
        var tid := AppendThread(round, peer);
        LeaderMessage(c, tid);
        var t := c.threads[tid].args.term;
        if t > c.servers[peer].node.term { NoFutureVote(c, t, peer); }
        AppendAccepted(c, c', tid, a);
      case _ => OldAck(c, l, a);
    }
  }

  ghost predicate AcceptedIn(states: seq<Cluster>, labels: seq<Label>, m: nat, a: Ack)
    requires |states| == |labels| + 1
  {
    m < |labels| && AcceptedBy(states[m], labels[m], states[m + 1], a)
  }

  lemma OldOrAccepted(n: nat, states: seq<Cluster>, labels: seq<Label>, m: nat, a: Ack)
    requires Run(n, states, labels) && m < |labels| && a in states[m + 1].hist.acks
    ensures a in states[m].hist.acks || AcceptedIn(states, labels, m, a)
  {
    RunInv(n, states, labels, m);
    assert Steps(states[m], labels[m], states[m + 1]);
    if a !in states[m].hist.acks { NewAckIsAccepted(states[m], labels[m], states[m + 1], a); }
  }

  /** Every acknowledgement was, at some earlier step, the acceptance of that very part of the leader's log. */
  lemma {:induction false} AckWasAccepted(n: nat, states: seq<Cluster>, labels: seq<Label>, k: nat, a: Ack)
    requires Run(n, states, labels) && k < |states| && a in states[k].hist.acks
    ensures exists m: nat | m < k :: AcceptedIn(states, labels, m, a)
  {
    if k > 0 {
      OldOrAccepted(n, states, labels, k - 1, a);
      if a in states[k - 1].hist.acks { AckWasAccepted(n, states, labels, k - 1, a); }
    }
  }

  /** A majority, `i` among it, acknowledged `index` in term `t`, and the entry there is of term `t`. */
  ghost predicate Quorum(c: Cluster, i: nat, t: nat, index: nat) {
    && OwnEntry(c.hist, t, index) && i in Ackers(c.hist, t, index)
    && |Ackers(c.hist, t, index)| >= |c.servers| / 2 + 1
    && forall j | j in Ackers(c.hist, t, index) :: j < |c.servers| && Ack(t, index, j) in c.hist.acks
  }

  lemma RaisedByReply(c: Cluster, l: Label, i: nat)
    requires WellTyped(c) && Enabled(c, l) && i < |c.servers| && |Next(c, l).servers| == |c.servers|
    requires c.servers[i].node.status == Leader && Next(c, l).servers[i].node.status == Leader
    requires Next(c, l).servers[i].node.commit != c.servers[i].node.commit
    ensures l.AppendReplied? && i == c.rounds[l.round].leader
  {
    if l.DeliverVote? || l.VoteReplied? {
      VotingCommit(c, l, i);
    } else if l.DeliverAppend? || l.DeliverSnapshot? {
      ReceivingCommit(c, l, i);
    } else if !l.AppendReplied? {
      LocalCommit(c, l, i);
    }
  }

  ghost predicate SameCommitOrFollower(s: Server, s': Server) {
    s'.node.commit == s.node.commit || s'.node.status == Follower
  }

  lemma VotingCommit(c: Cluster, l: Label, i: nat)
    requires WellTyped(c) && Enabled(c, l) && i < |c.servers| && (l.DeliverVote? || l.VoteReplied?)
    ensures |Next(c, l).servers| == |c.servers| && SameCommitOrFollower(c.servers[i], Next(c, l).servers[i])
  {
    var th := c.threads[VoteThread(l.cand, l.term, l.peer)];
    if l.DeliverVote? {
      VotingKeepsCommit(c.servers[l.peer].node, th.voteArgs, VoteReply(0, false), 0);
    } else {
      VotingKeepsCommit(c.servers[l.cand].node, VoteArgs(0, 0, 0, 0), th.voteReply, c.elections[ElectionKey(l.cand, l.term)].votedNum);
    }
  }

  lemma ReceivingCommit(c: Cluster, l: Label, i: nat)
    requires WellTyped(c) && Enabled(c, l) && i < |c.servers| && (l.DeliverAppend? || l.DeliverSnapshot?)
    ensures |Next(c, l).servers| == |c.servers| && SameCommitOrFollower(c.servers[i], Next(c, l).servers[i])
  {
    match l {
      case DeliverAppend(round, peer) =>
        FollowersCommit(c.servers[peer].node, c.threads[AppendThread(round, peer)].args, SnapArgs(0, 0, 0, 0));
      case DeliverSnapshot(serial) =>
        var th := c.threads[SnapThread(serial)];
        FollowersCommit(c.servers[th.to].node, AppendArgs(0, 0, 0, 0, [], 0), th.snapArgs);
    }
  }

  lemma LocalCommit(c: Cluster, l: Label, i: nat)
    requires WellTyped(c) && Enabled(c, l) && i < |c.servers|
    requires !(l.DeliverVote? || l.VoteReplied? || l.DeliverAppend? || l.DeliverSnapshot? || l.AppendReplied?)
    ensures |Next(c, l).servers| == |c.servers| && SameCommitOrFollower(c.servers[i], Next(c, l).servers[i])
  {
  }

  lemma VotingKeepsCommit(s: Node, a: VoteArgs, r: VoteReply, tally: int)
    ensures RequestVote(s, a).Done? && RequestVote(s, a).node.commit == s.commit
    ensures HandleVoteReply(s, r, tally).Done? ==> HandleVoteReply(s, r, tally).node.commit == s.commit
  {
  }

  /** A node that learns commitIndex from a message is, or becomes, a follower. */
  lemma FollowersCommit(s: Node, a: AppendArgs, b: SnapArgs)
    requires s.Valid()
    ensures var r := AppendEntries(s, a); r.Done? ==> r.node == s || r.node.status == Follower
    ensures var r := InstallSnapshot(s, b); r.Done? && (r.node == s || r.node.status == Follower)
  {
  }

  lemma ReplyQuorum(c: Cluster, c': Cluster, tid: ThreadId, i: nat)
    requires tid.AppendThread? && tid in c.threads && c.threads[tid].AppendAnswered? && ThreadOk(c, tid, c.threads[tid])
    requires i == c.rounds[tid.round].leader && ServerOk(c.hist, |c.servers|, c.servers[i], i) && RoundOk(c, c.rounds[tid.round])
    requires c' == DoAppendReplied(c, tid) && |c'.servers| == |c.servers| && c'.servers[i].node.commit != c.servers[i].node.commit
    requires forall a | a in c.hist.acks :: AckOk(c, a)
    ensures c'.servers[i].node.commit > c.servers[i].node.commit
    ensures Quorum(c, i, c.servers[i].node.term, c'.servers[i].node.commit)
  {
    AppendRepliedShape(c, c', tid, i);
    var r := c.rounds[tid.round];
    FiredRound(c, r, tid.peer);
    forall j | j in Ackers(c.hist, r.term, r.end)
      ensures j < |c.servers| && Ack(r.term, r.end, j) in c.hist.acks
    {
      assert AckOk(c, Ack(r.term, r.end, j));
    }
  }

  lemma StepQuorum(c: Cluster, l: Label, c': Cluster, i: nat)
    requires Inv(c) && Steps(c, l, c') && i < |c.servers| == |c'.servers| && l.AppendReplied? && i == c.rounds[l.round].leader
    requires c'.servers[i].node.commit != c.servers[i].node.commit
    ensures Quorum(c, i, c.servers[i].node.term, c'.servers[i].node.commit)
  {
    ReplyQuorum(c, c', AppendThread(l.round, l.peer), i);
  }

  /** Commit quorum: whenever a leader raises commitIndex to L in any run, a majority that
      includes it has acknowledged L in its current term, and entry L carries that term. */
  lemma CommitQuorum(n: nat, states: seq<Cluster>, labels: seq<Label>, k: nat, i: nat)
    requires Run(n, states, labels) && k < |labels| && i < |states[k].servers| && i < |states[k + 1].servers|
    requires states[k].servers[i].node.status == Leader && states[k + 1].servers[i].node.status == Leader
    requires states[k + 1].servers[i].node.commit != states[k].servers[i].node.commit
    ensures Quorum(states[k], i, states[k].servers[i].node.term, states[k + 1].servers[i].node.commit)
  {
    RunInv(n, states, labels, k);
    assert Steps(states[k], labels[k], states[k + 1]);
    NextAdvances(states[k], labels[k], i);
    RaisedByReply(states[k], labels[k], i);
    StepQuorum(states[k], labels[k], states[k + 1], i);
  }

  // ------------------------------------------------------------------- probing

  /** While a server leads, its nextIndex for every peer lies between 1 and one past its last index. */
  lemma NextIndexBounds(n: nat, states: seq<Cluster>, labels: seq<Label>, k: nat, i: nat, p: nat)
    requires Run(n, states, labels) && k < |states| && i < |states[k].servers| && states[k].servers[i].node.status == Leader
    requires p < |states[k].servers| && p != i
    ensures var nd := states[k].servers[i].node; p < |nd.nextIndex| && 1 <= nd.nextIndex[p] <= nd.LastIndex() + 1
  {
    RunInv(n, states, labels, k);
    SyncedServer(states[k], i);
  }

  lemma SyncedServer(c: Cluster, i: nat)
    requires ServersOk(c) && i < |c.servers|
    ensures ServerOk(c.hist, |c.servers|, c.servers[i], i) && c.servers[i].node.LastIndex() == |c.servers[i].full|
  {
    SyncedLast(c.servers[i]);
  }

  /** The reply refuses the probe that nextIndex currently stands for. */
  ghost predicate RefusesProbe(c: Cluster, round: nat, peer: nat)
    requires WellTyped(c) && Enabled(c, AppendReplied(round, peer))
  {
    var th, nd := c.threads[AppendThread(round, peer)], c.servers[c.rounds[round].leader].node;
    && nd.status == Leader && th.reply.term == nd.term && !th.reply.success && th.reply.next != -100
    && th.args.prevIndex + 1 == nd.nextIndex[peer]
  }

  /** Probing ends: a refusal of the current probe lowers nextIndex, and never below 1. */
  lemma RefusalLowersNextIndex(n: nat, states: seq<Cluster>, labels: seq<Label>, k: nat)
    requires Run(n, states, labels) && k < |labels| && labels[k].AppendReplied?
    requires RefusesProbe(states[k], labels[k].round, labels[k].peer)
    ensures var i, p := states[k].rounds[labels[k].round].leader, labels[k].peer;
      && i < |states[k + 1].servers| && p < |states[k + 1].servers[i].node.nextIndex|
      && 1 <= states[k + 1].servers[i].node.nextIndex[p] < states[k].servers[i].node.nextIndex[p]
  {
    RunInv(n, states, labels, k);
    RefusedProbe(states[k], AppendThread(labels[k].round, labels[k].peer));
    RefusalStep(states[k], labels[k].round, labels[k].peer);
  }

  lemma RefusalStep(c: Cluster, round: nat, peer: nat)
    requires WellTyped(c) && Enabled(c, AppendReplied(round, peer)) && RefusesProbe(c, round, peer)
    ensures var i, c' := c.rounds[round].leader, Next(c, AppendReplied(round, peer));
      && i < |c'.servers| && peer < |c'.servers[i].node.nextIndex|
      && c'.servers[i].node.nextIndex[peer] == c.threads[AppendThread(round, peer)].reply.next
  {
  }

  lemma RefusedProbe(c: Cluster, tid: ThreadId)
    requires ThreadsOk(c) && tid.AppendThread? && tid in c.threads && c.threads[tid].AppendAnswered?
    requires !c.threads[tid].reply.success && c.threads[tid].reply.next != -100
    ensures 1 <= c.threads[tid].reply.next <= c.threads[tid].args.prevIndex
  {
    assert ThreadOk(c, tid, c.threads[tid]);
    assert AppendThreadOk(c, tid, c.threads[tid]);
  }

  // -------------------------------------------------------------- apply stream

  /** What step `l` hands out at server `i`: the commands between the old and the new
      lastApplied, in order, as the log has them. */
  ghost predicate HandsOut(s: Server, s': Server, news: seq<ApplyMsg>) {
    && s'.delivered == s.delivered + news
    && (forall k | 0 <= k < |news| ::
        && news[k].index == s.node.applied + 1 + k
        && news[k].index <= s.node.commit && news[k].index <= |s.full| && news[k].command == s.full[news[k].index - 1].command)
  }

  /** The snapshot point stays among the applied indices, as when the key-value server asks for it. */
  ghost predicate NoGap(c: Cluster, l: Label)
    requires Enabled(c, l)
  {
    !l.DeliverSnapshot? && (l.Compact? ==> l.index <= c.servers[l.i].node.applied)
  }

  lemma ApplyHandsOut(s: Server)
    requires s.node.Valid() && Synced(s)
    ensures HandsOut(s, s.(node := AfterApply(s.node), delivered := s.delivered + ApplyMsgs(s.node)), ApplyMsgs(s.node))
    ensures |ApplyMsgs(s.node)| == s.node.commit - s.node.applied
  {
    var m := ApplyMsgs(s.node);
    forall k | 0 <= k < |m|
      ensures m[k].index <= |s.full| && m[k].command == s.full[m[k].index - 1].command
    {
      assert s.node.logs[s.node.applied + k - s.node.snapIndex] == s.full[s.node.applied + k];
    }
  }

  /** Election and replication handlers leave lastApplied alone. */
  lemma VotingKeepsApplied(s: Node, a: VoteArgs, r: VoteReply, tally: int)
    ensures RequestVote(s, a).Done? && RequestVote(s, a).node.applied == s.applied
    ensures HandleVoteReply(s, r, tally).Done? ==> HandleVoteReply(s, r, tally).node.applied == s.applied
  {
  }

  lemma AppendingKeepsApplied(s: Node, a: AppendArgs, p: nat, r: AppendReply, count: int)
    requires s.Valid() && p < s.peers
    ensures AppendEntries(s, a).Done? ==> AppendEntries(s, a).node.applied == s.applied
    ensures HandleAppendReply(s, p, a, r, count).Done? ==> HandleAppendReply(s, p, a, r, count).node.applied == s.applied
  {
  }

  lemma VotingHandsOut(c: Cluster, l: Label, i: nat)
    requires WellTyped(c) && Enabled(c, l) && i < |c.servers| && (l.Timeout? || l.DeliverVote? || l.VoteReplied? || l.HeartBeat?)
    ensures |Next(c, l).servers| == |c.servers| && Next(c, l).servers[i].delivered == c.servers[i].delivered
    ensures Next(c, l).servers[i].node.applied == c.servers[i].node.applied
  {
    match l {
      case DeliverVote(cand, term, peer) =>
        VotingKeepsApplied(c.servers[peer].node, c.threads[VoteThread(cand, term, peer)].voteArgs, VoteReply(0, false), 0);
      case VoteReplied(cand, term, peer) =>
        VotingKeepsApplied(c.servers[cand].node, VoteArgs(0, 0, 0, 0), c.threads[VoteThread(cand, term, peer)].voteReply,
                           c.elections[ElectionKey(cand, term)].votedNum);
      case _ =>
    }
  }

  lemma AppendingHandsOut(c: Cluster, l: Label, i: nat)
    requires WellTyped(c) && Enabled(c, l) && i < |c.servers| && (l.DeliverAppend? || l.AppendReplied?)
    ensures |Next(c, l).servers| == |c.servers| && Next(c, l).servers[i].delivered == c.servers[i].delivered
    ensures Next(c, l).servers[i].node.applied == c.servers[i].node.applied
  {
    var th := c.threads[AppendThread(l.round, l.peer)];
    match l {
      case DeliverAppend(round, peer) =>
        AppendingKeepsApplied(c.servers[peer].node, th.args, 0, AppendReply(0, false, 0), 0);
      case AppendReplied(round, peer) =>
        AppendingKeepsApplied(c.servers[c.rounds[round].leader].node, th.args, peer, th.reply, c.rounds[round].count);
    }
  }

  lemma OtherHandsOut(c: Cluster, l: Label, i: nat)
    requires WellTyped(c) && Enabled(c, l) && i < |c.servers| && (l.Apply? ==> l.i != i)
    requires !(l.Timeout? || l.DeliverVote? || l.VoteReplied? || l.HeartBeat? || l.DeliverAppend? || l.AppendReplied?)
    ensures |Next(c, l).servers| == |c.servers| && Next(c, l).servers[i].delivered == c.servers[i].delivered
    ensures NoGap(c, l) ==> Next(c, l).servers[i].node.applied == c.servers[i].node.applied
  {
  }

  /** Apply stream: a step hands out consecutive commands after lastApplied, and lastApplied
      moves without handing out only where a snapshot is installed. */
  lemma StepHandsOut(c: Cluster, l: Label, i: nat) returns (news: seq<ApplyMsg>)
    requires ServersOk(c) && WellTyped(c) && Enabled(c, l) && i < |c.servers|
    ensures |Next(c, l).servers| == |c.servers| && HandsOut(c.servers[i], Next(c, l).servers[i], news)
    ensures NoGap(c, l) ==> Next(c, l).servers[i].node.applied == c.servers[i].node.applied + |news|
  {
    if l.Apply? && l.i == i {
      news := ApplyMsgs(c.servers[i].node);
      ApplyHandsOut(c.servers[i]);
    } else {
      news := [];
      if l.Timeout? || l.DeliverVote? || l.VoteReplied? || l.HeartBeat? {
        VotingHandsOut(c, l, i);
      } else if l.DeliverAppend? || l.AppendReplied? {
        AppendingHandsOut(c, l, i);
      } else {
        OtherHandsOut(c, l, i);
      }
    }
  }

  /** Over any run, what a server handed out is never taken back, its indices rise
      strictly, and none exceeds commitIndex. */
  lemma {:induction false} ApplyStream(n: nat, states: seq<Cluster>, labels: seq<Label>, j: nat, k: nat, i: nat)
    requires Run(n, states, labels) && j <= k < |states| && i < n
    ensures i < |states[j].servers| && i < |states[k].servers|
    ensures states[j].servers[i].delivered <= states[k].servers[i].delivered
    ensures Rising(states[k].servers[i].delivered, states[k].servers[i].node.commit)
  {
    RunRising(n, states, labels, k, i);
    if j < k {
      ApplyStream(n, states, labels, j, k - 1, i);
      StepDelivers(n, states, labels, k - 1, i);
    }
  }

  lemma RunRising(n: nat, states: seq<Cluster>, labels: seq<Label>, k: nat, i: nat)
    requires Run(n, states, labels) && k < |states| && i < n
    ensures i < |states[k].servers| && Rising(states[k].servers[i].delivered, states[k].servers[i].node.commit)
  {
    RunInv(n, states, labels, k);
    RisingToCommit(states[k], i);
  }

  lemma StepDelivers(n: nat, states: seq<Cluster>, labels: seq<Label>, k: nat, i: nat)
    requires Run(n, states, labels) && k < |labels| && i < |states[k].servers| && i < |states[k + 1].servers|
    ensures states[k].servers[i].delivered <= states[k + 1].servers[i].delivered
  {
    RunInv(n, states, labels, k);
    assert Steps(states[k], labels[k], states[k + 1]);
    var news := StepHandsOut(states[k], labels[k], i);
  }

  lemma RisingToCommit(c: Cluster, i: nat)
    requires ServersOk(c) && i < |c.servers|
    ensures Rising(c.servers[i].delivered, c.servers[i].node.commit)
  {
    assert ServerOk(c.hist, |c.servers|, c.servers[i], i);
  }

  ghost predicate Gapless(s: Server) {
    |s.delivered| == s.node.applied && forall k | 0 <= k < |s.delivered| :: s.delivered[k].index == k + 1
  }

  ghost predicate NoGapRun(states: seq<Cluster>, labels: seq<Label>)
    requires |states| == |labels| + 1
  {
    forall k {:trigger labels[k]} | 0 <= k < |labels| :: Enabled(states[k], labels[k]) && NoGap(states[k], labels[k])
  }

  lemma GaplessStep(s: Server, s': Server, news: seq<ApplyMsg>)
    requires Gapless(s) && HandsOut(s, s', news) && s'.node.applied == s.node.applied + |news|
    ensures Gapless(s')
  {
  }

  /** Without snapshot installation, a server has handed out exactly the indices 1, 2, ..., lastApplied. */
  lemma {:induction false} GaplessApply(n: nat, states: seq<Cluster>, labels: seq<Label>, k: nat, i: nat)
    requires Run(n, states, labels) && NoGapRun(states, labels) && k < |states| && i < n
    ensures i < |states[k].servers| && Gapless(states[k].servers[i])
  {
    RunInv(n, states, labels, k);
    if k > 0 {
      GaplessApply(n, states, labels, k - 1, i);
      RunInv(n, states, labels, k - 1);
      assert Steps(states[k - 1], labels[k - 1], states[k]);
      var news := StepHandsOut(states[k - 1], labels[k - 1], i);
      GaplessStep(states[k - 1].servers[i], states[k].servers[i], news);
    }
  }
}
