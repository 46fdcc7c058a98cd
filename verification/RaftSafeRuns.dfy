/** Every clean step keeps `Safe`. */
module RaftSafeRuns {
  import opened RaftTypes
  import opened RaftHandlers
  import opened RaftCluster
  import opened RaftInvariant
  import opened RaftElection
  import opened RaftReplication
  import opened RaftSafety
  import opened RaftSafeSteps
  import opened RaftSafeSnapshots

  lemma UncountedVoteSafe(c: Cluster, c': Cluster, tid: ThreadId, i: nat)
    requires tid.VoteThread? && tid in c.threads && c.threads[tid].VoteAnswered? && i == tid.cand && i < |c.servers|
    requires ElectionKey(tid.cand, tid.term) in c.elections && c' == DoVoteReplied(c, tid)
    requires StepOf(c, c', i) && AcksIn(c.hist) && c'.servers[i].node.status != Leader
    requires SafeServer(c.hist, |c.servers|, c.servers[i], i) && ServerOk(c'.hist, |c.servers|, c'.servers[i], i)
    ensures GoodSafe(c, c', i)
  {
    QuietSafe(c, c', i);
  }

  /** A node that leads already only drops the reply or steps down. */
  lemma LeadingVoteSafe(c: Cluster, c': Cluster, tid: ThreadId, i: nat)
    requires tid.VoteThread? && tid in c.threads && c.threads[tid].VoteAnswered? && i == tid.cand && i < |c.servers|
    requires ElectionKey(tid.cand, tid.term) in c.elections && c' == DoVoteReplied(c, tid)
    requires StepOf(c, c', i) && AcksIn(c.hist) && c.servers[i].node.status == Leader
    requires SafeServer(c.hist, |c.servers|, c.servers[i], i) && ServerOk(c'.hist, |c.servers|, c'.servers[i], i)
    ensures GoodSafe(c, c', i)
  {
    QuietSafe(c, c', i);
  }

  lemma VictoryFacts(c: Cluster, c': Cluster, tid: ThreadId, i: nat)
    requires tid.VoteThread? && tid in c.threads && c.threads[tid].VoteAnswered? && i == tid.cand && i < |c.servers|
    requires ThreadOk(c, tid, c.threads[tid]) && c' == DoVoteReplied(c, tid)
    requires c.servers[i].node.Valid() && c.servers[i].node.peers == |c.servers|
    requires c.servers[i].node.status != Leader && c'.servers[i].node.status == Leader
    ensures var r, e := c.threads[tid].voteReply, c.elections[ElectionKey(tid.cand, tid.term)];
      r.granted && r.term == c.servers[i].node.term == tid.term && e.votedNum + 1 >= |c.servers| / 2 + 1
    ensures tid.peer != i && VotedFor(c, tid.term, tid.peer, i) && VotedFor(c, tid.term, i, i)
    ensures tid.peer !in c.elections[ElectionKey(tid.cand, tid.term)].counted
  {
  }

  lemma ElectedSafe(c: Cluster, c': Cluster, tid: ThreadId, i: nat)
    requires tid.VoteThread? && tid in c.threads && c.threads[tid].VoteAnswered? && i == tid.cand && i < |c.servers|
    requires ThreadOk(c, tid, c.threads[tid]) && c' == DoVoteReplied(c, tid)
    requires ElectionOk(c, ElectionKey(tid.cand, tid.term), c.elections[ElectionKey(tid.cand, tid.term)])
    requires tid.term in c.hist.reigns ==> ReignOk(c, tid.term, c.hist.reigns[tid.term])
    requires tid.term in c'.hist.reigns ==> ReignOk(c', tid.term, c'.hist.reigns[tid.term])
    requires forall key | key in c.hist.votes :: VoteOk(c, key, c.hist.votes[key])
    requires StepOf(c, c', i) && AcksIn(c.hist) && ServerOk(c.hist, |c.servers|, c.servers[i], i)
    requires SafeServer(c.hist, |c.servers|, c.servers[i], i)
    requires c.servers[i].node.status != Leader && c'.servers[i].node.status == Leader
    ensures GoodSafe(c, c', i)
  {
    VictoryFacts(c, c', tid, i);
    MajorityIsFirst(c, ElectionKey(tid.cand, tid.term), c.elections[ElectionKey(tid.cand, tid.term)], tid.peer);
    VictoryShape(c, c', tid);
    VictorySafe(c, c', i);
  }

  lemma VoteRepliedKeepsSafe(c: Cluster, c': Cluster, tid: ThreadId)
    requires Inv(c) && Inv(c') && Safe(c) && tid.VoteThread? && tid in c.threads && c.threads[tid].VoteAnswered?
    requires tid.cand < |c.servers| && ElectionKey(tid.cand, tid.term) in c.elections
    requires c' == DoVoteReplied(c, tid) && StepOf(c, c', tid.cand)
    ensures Safe(c')
  {
    AcksAreIn(c);
    if c.servers[tid.cand].node.status == Leader {
      LeadingVoteSafe(c, c', tid, tid.cand);
    } else if c'.servers[tid.cand].node.status == Leader {
      ElectedSafe(c, c', tid, tid.cand);
    } else {
      UncountedVoteSafe(c, c', tid, tid.cand);
    }
    GoodSafeKeepsSafe(c, c', tid.cand);
  }

  lemma TimeoutKeepsSafe(c: Cluster, c': Cluster, i: nat)
    requires Inv(c) && Inv(c') && Safe(c) && i < |c.servers| && c' == DoTimeout(c, i) && StepOf(c, c', i)
    ensures Safe(c')
  {
    AcksAreIn(c);
    TimeoutSafe(c, c', i);
    GoodSafeKeepsSafe(c, c', i);
  }

  lemma HeartBeatKeepsSafe(c: Cluster, c': Cluster, i: nat)
    requires Inv(c) && Inv(c') && Safe(c) && i < |c.servers| && c.servers[i].node.status == Leader
    requires c' == DoHeartBeat(c, i) && StepOf(c, c', i)
    ensures Safe(c')
  {
    AcksAreIn(c);
    HeartBeatShape(c, i);
    HeartBeatSafe(c, c', i);
    GoodSafeKeepsSafe(c, c', i);
  }

  lemma DeliverVoteKeepsSafe(c: Cluster, c': Cluster, tid: ThreadId)
    requires Inv(c) && Inv(c') && Safe(c) && tid.VoteThread? && tid in c.threads && c.threads[tid].VoteSent?
    requires tid.peer < |c.servers| && tid.peer != tid.cand && c' == DoDeliverVote(c, tid) && StepOf(c, c', tid.peer)
    ensures Safe(c')
  {
    AcksAreIn(c);
    DeliverVoteSafe(c, c', tid);
    GoodSafeKeepsSafe(c, c', tid.peer);
  }

  lemma DeliverAppendKeepsSafe(c: Cluster, c': Cluster, tid: ThreadId)
    requires Inv(c) && Inv(c') && Safe(c) && tid.AppendThread? && tid in c.threads && c.threads[tid].AppendSent?
    requires tid.peer < |c.servers| && c' == DoDeliverAppend(c, tid) && StepOf(c, c', tid.peer)
    requires CleanAppend(c.servers[tid.peer].node, c.threads[tid].args)
    ensures Safe(c')
  {
    AcksAreIn(c);
    DeliverAppendSafe(c, c', tid);
    GoodSafeKeepsSafe(c, c', tid.peer);
  }

  lemma AppendRepliedKeepsSafe(c: Cluster, c': Cluster, tid: ThreadId, i: nat)
    requires Inv(c) && Inv(c') && Safe(c) && tid.AppendThread? && tid in c.threads && c.threads[tid].AppendAnswered?
    requires tid.round < |c.rounds| && i == c.rounds[tid.round].leader && i < |c.servers| && tid.peer < |c.servers|
    requires c.servers[i].node.Valid() && c.servers[i].node.peers == |c.servers|
    requires c' == DoAppendReplied(c, tid) && StepOf(c, c', i)
    ensures Safe(c')
  {
    AcksAreIn(c);
    AppendRepliedSafe(c, c', tid, i);
    GoodSafeKeepsSafe(c, c', i);
  }

  lemma StartKeepsSafe(c: Cluster, c': Cluster, i: nat, op: Op)
    requires Inv(c) && Inv(c') && Safe(c) && i < |c.servers| && c.servers[i].node.status == Leader
    requires c' == DoStart(c, i, op) && StepOf(c, c', i)
    ensures Safe(c')
  {
    AcksAreIn(c);
    StartShape(c, i, op);
    ReignIsSafe(c, c.servers[i].node.term);
    StartSafe(c, c', i, op);
    GoodSafeKeepsSafe(c, c', i);
  }

  /** A step that touches neither history, nor the log and commit index of its server. */
  lemma StillKeepsSafe(c: Cluster, c': Cluster, i: nat)
    requires Inv(c) && Inv(c') && Safe(c) && StepOf(c, c', i) && c'.hist == c.hist
    requires c'.servers[i].full == c.servers[i].full && c'.servers[i].node.commit == c.servers[i].node.commit
    requires c'.servers[i].node.term == c.servers[i].node.term || c'.servers[i].node.votedFor == -1
    requires forall tid | tid in c'.threads :: (tid in c.threads && c'.threads[tid] == c.threads[tid]) || Plain(c'.threads[tid])
    ensures Safe(c')
  {
    AcksAreIn(c);
    QuietSafe(c, c', i);
    GoodSafeKeepsSafe(c, c', i);
  }

  predicate IsStill(l: Label) {
    l.SnapshotReplied? || l.Compact? || l.Apply? || l.Lose?
  }

  lemma StillShape(c: Cluster, l: Label, c': Cluster, i: nat)
    requires WellTyped(c) && Enabled(c, l) && IsStill(l) && c' == Next(c, l) && i == Actor(c, l) && i < |c.servers| == |c'.servers|
    ensures c'.hist == c.hist
    ensures c'.servers[i].full == c.servers[i].full && c'.servers[i].node.commit == c.servers[i].node.commit
    ensures c'.servers[i].node.term == c.servers[i].node.term || c'.servers[i].node.votedFor == -1
    ensures forall tid | tid in c'.threads :: (tid in c.threads && c'.threads[tid] == c.threads[tid]) || Plain(c'.threads[tid])
  {
  }

  /** Clean steps keep Log Matching, Leader Completeness and certified commits. */
  lemma NextKeepsSafe(c: Cluster, l: Label)
    requires Inv(c) && Safe(c) && WellTyped(c) && Enabled(c, l) && Clean(c, l)
    ensures Inv(Next(c, l)) && Safe(Next(c, l))
  {
    var c' := Next(c, l);
    NextKeepsInv(c, l);
    if IsStill(l) {
      StillShape(c, l, c', Actor(c, l));
      StillKeepsSafe(c, c', Actor(c, l));
    } else {
      ActingKeepsSafe(c, l, c');
    }
  }

  lemma ActingKeepsSafe(c: Cluster, l: Label, c': Cluster)
    requires Inv(c) && Inv(c') && Safe(c) && WellTyped(c) && Enabled(c, l) && Clean(c, l) && !IsStill(l)
    requires c' == Next(c, l) && StepOf(c, c', Actor(c, l))
    ensures Safe(c')
  {
    if l.Timeout? || l.DeliverVote? || l.VoteReplied? {
      ElectingKeepsSafe(c, l, c');
    } else if l.AppendReplied? {
      CommittingKeepsSafe(c, l.round, l.peer, c');
    } else if l.RunSnapshot? {
      RunSnapshotKeepsSafe(c, c', SnapThread(l.serial));
    } else if l.DeliverSnapshot? {
      DeliverSnapshotKeepsSafe(c, c', SnapThread(l.serial));
    } else {
      ReplicatingKeepsSafe(c, l, c');
    }
  }

  lemma ElectingKeepsSafe(c: Cluster, l: Label, c': Cluster)
    requires Inv(c) && Inv(c') && Safe(c) && WellTyped(c) && Enabled(c, l) && (l.Timeout? || l.DeliverVote? || l.VoteReplied?)
    requires c' == Next(c, l) && StepOf(c, c', Actor(c, l))
    ensures Safe(c')
  {
    match l {
      case Timeout(i) => TimeoutKeepsSafe(c, c', i);
      case DeliverVote(cand, term, peer) => DeliverVoteKeepsSafe(c, c', VoteThread(cand, term, peer));
      case VoteReplied(cand, term, peer) => VoteRepliedKeepsSafe(c, c', VoteThread(cand, term, peer));
    }
  }

  lemma ReplicatingKeepsSafe(c: Cluster, l: Label, c': Cluster)
    requires Inv(c) && Inv(c') && Safe(c) && WellTyped(c) && Enabled(c, l) && Clean(c, l)
    requires l.HeartBeat? || l.DeliverAppend? || l.ClientStart?
    requires c' == Next(c, l) && StepOf(c, c', Actor(c, l))
    ensures Safe(c')
  {
    match l {
      case HeartBeat(i) => HeartBeatKeepsSafe(c, c', i);
      case DeliverAppend(round, peer) => DeliverAppendKeepsSafe(c, c', AppendThread(round, peer));
      case ClientStart(i, op) => StartKeepsSafe(c, c', i, op);
    }
  }

  lemma CommittingKeepsSafe(c: Cluster, round: nat, peer: nat, c': Cluster)
    requires Inv(c) && Inv(c') && Safe(c) && WellTyped(c) && Enabled(c, AppendReplied(round, peer))
    requires c' == DoAppendReplied(c, AppendThread(round, peer)) && StepOf(c, c', c.rounds[round].leader)
    ensures Safe(c')
  {
    assert ThreadTyped(c, AppendThread(round, peer), c.threads[AppendThread(round, peer)]);
    AppendRepliedKeepsSafe(c, c', AppendThread(round, peer), c.rounds[round].leader);
  }

  lemma RunSnapshotKeepsSafe(c: Cluster, c': Cluster, tid: ThreadId)
    requires Inv(c) && Inv(c') && Safe(c) && tid in c.threads && c.threads[tid].SnapPending? && c.threads[tid].from < |c.servers|
    requires c' == DoRunSnapshot(c, tid) && StepOf(c, c', c.threads[tid].from)
    ensures Safe(c')
  {
    AcksAreIn(c);
    RunSnapshotSafe(c, c', tid, c.threads[tid].from);
    GoodSafeKeepsSafe(c, c', c.threads[tid].from);
  }

  lemma DeliverSnapshotKeepsSafe(c: Cluster, c': Cluster, tid: ThreadId)
    requires Inv(c) && Inv(c') && Safe(c) && tid in c.threads && c.threads[tid].SnapSent? && c.threads[tid].to < |c.servers|
    requires c.servers[c.threads[tid].to].node.Valid() && CleanSnapshot(c.servers[c.threads[tid].to].node, c.threads[tid].snapArgs)
    requires c' == DoDeliverSnapshot(c, tid) && StepOf(c, c', c.threads[tid].to)
    ensures Safe(c')
  {
    AcksAreIn(c);
    DeliverSnapshotSafe(c, c', tid, c.threads[tid].to);
    GoodSafeKeepsSafe(c, c', c.threads[tid].to);
  }

  lemma InitSafe(n: nat)
    requires n >= 2
    ensures Safe(Init(n))
  {
  }
}
