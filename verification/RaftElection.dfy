/** Election steps keep the invariant; two leaders of one term cannot exist. */
module RaftElection {
  import opened RaftTypes
  import opened RaftHandlers
  import opened RaftCluster
  import opened RaftInvariant

  /** The accessors of a node answer for the whole history log. */
  lemma SyncedLast(s: Server)
    requires s.node.Valid() && Synced(s)
    ensures s.node.LastIndex() == |s.full|
    ensures s.node.LastTerm() == TermAt(s.full, |s.full|)
  {
  }

  lemma SyncedTerm(s: Server, k: nat)
    requires s.node.Valid() && Synced(s) && s.node.snapIndex <= k <= |s.full|
    ensures s.node.TermOf(k) == TermAt(s.full, k)
  {
  }

  lemma SubsetSize<T>(a: set<T>, b: set<T>)
    requires a <= b
    ensures |a| <= |b|
  {
    assert b == a + (b - a);
  }

  /** The server numbers of an n-node cluster. */
  function Everyone(n: nat): (s: set<nat>)
    ensures |s| == n && forall i: nat :: i in s <==> i < n
  {
    if n == 0 then {} else Everyone(n - 1) + {n - 1}
  }

  /** Two majorities of one cluster share a member. */
  lemma QuorumsMeet(a: set<nat>, b: set<nat>, n: nat) returns (x: nat)
    requires forall i | i in a :: i < n
    requires forall i | i in b :: i < n
    requires |a| >= n / 2 + 1 && |b| >= n / 2 + 1
    ensures x in a && x in b
  {
    if a * b == {} {
      SubsetSize(a + b, Everyone(n));
      assert false;
    }
    x :| x in a * b;
  }

  // ---------------------------------------------------------- server by server

  lemma TimeoutServer(h: History, h': History, n: nat, s: Server, i: nat)
    requires ServerOk(h, n, s, i) && HistGrows(h, h', i)
    requires VoteKey(s.node.term + 1, i) in h'.votes && h'.votes[VoteKey(s.node.term + 1, i)].cand == i
    ensures ServerOk(h', n, s.(node := StartElection(s.node).0), i)
  {
    LogFromGrows(h, h', i, s.full, s.node.term, s.node.term + 1);
  }

  /** Adopting a larger term, in which this server has not voted. */
  lemma StepDownServer(h: History, n: nat, s: Server, i: nat, t: nat)
    requires ServerOk(h, n, s, i) && t > s.node.term && VoteKey(t, i) !in h.votes
    ensures ServerOk(h, n, s.(node := s.node.StepDown(t)), i)
  {
    LogFromGrows(h, h, i, s.full, s.node.term, t);
  }

  lemma GrantServer(h: History, h': History, n: nat, s: Server, i: nat, cand: nat)
    requires ServerOk(h, n, s, i) && HistGrows(h, h', i) && h'.reigns == h.reigns
    requires VoteKey(s.node.term, i) in h'.votes && h'.votes[VoteKey(s.node.term, i)].cand == cand
    ensures ServerOk(h', n, s.(node := s.node.(votedFor := cand)), i)
  {
    LogFromGrows(h, h', i, s.full, s.node.term, s.node.term);
  }

  lemma NewLeaderOk(h: History, n: nat, s: Server, s': Server, i: nat)
    requires ServerTyped(s, i, n) && Synced(s) && s' == s.(node := BecomeLeader(s.node))
    requires s.node.term in h.reigns && h.reigns[s.node.term].leader == i && h.reigns[s.node.term].log == s.full
    ensures ServerTyped(s', i, n) && Synced(s') && LeaderOk(h, s', i)
  {
    SyncedLast(s);
  }

  lemma VictoryServer(h: History, h': History, n: nat, s: Server, s': Server, i: nat)
    requires ServerOk(h, n, s, i) && HistGrows(h, h', i) && h'.votes == h.votes
    requires s' == s.(node := BecomeLeader(s.node))
    requires s.node.term in h'.reigns && h'.reigns[s.node.term].leader == i && h'.reigns[s.node.term].log == s.full
    ensures ServerOk(h', n, s', i)
  {
    NewLeaderOk(h', n, s, s', i);
    LogFromGrows(h, h', i, s.full, s.node.term, s.node.term);
  }

  /** No server has voted in a term it has not reached. */
  lemma NoFutureVote(c: Cluster, t: nat, j: nat)
    requires HistoryOk(c) && j < |c.servers| && t > c.servers[j].node.term
    ensures VoteKey(t, j) !in c.hist.votes
    ensures !Won(c.hist, ElectionKey(j, t))
  {
  }
  // ---------------------------------------------------------- step by step

  lemma TimeoutHistory(c: Cluster, c': Cluster, i: nat)
    requires HistoryOk(c) && i < |c.servers| && c' == DoTimeout(c, i)
    ensures StepOf(c, c', i) && NewHistoryOk(c, c')
  {
    NoFutureVote(c, c.servers[i].node.term + 1, i);
    TimeoutVote(c, c', i);
  }

  lemma TimeoutVote(c: Cluster, c': Cluster, i: nat)
    requires i < |c.servers| && c' == DoTimeout(c, i) && VoteKey(c.servers[i].node.term + 1, i) !in c.hist.votes
    ensures StepOf(c, c', i) && NewHistoryOk(c, c')
  {
  }

  lemma TimeoutElections(c: Cluster, c': Cluster, i: nat)
    requires HistoryOk(c) && 2 <= |c.servers| && i < |c.servers| && c' == DoTimeout(c, i)
    ensures NewElectionsOk(c, c')
  {
    var t := c.servers[i].node.term + 1;
    NoFutureVote(c, t, i);
    assert ElectionOk(c', ElectionKey(i, t), c'.elections[ElectionKey(i, t)]);
  }

  lemma TimeoutThreads(c: Cluster, c': Cluster, i: nat)
    requires i < |c.servers| && c' == DoTimeout(c, i) && ServerTyped(c.servers[i], i, |c.servers|) && Synced(c.servers[i])
    ensures NewThreadsOk(c, c', VoteThreads(i, |c.servers|, StartElection(c.servers[i].node).1).Keys)
  {
    SyncedLast(c.servers[i]);
  }

  lemma TimeoutKeepsInv(c: Cluster, i: nat)
    requires Inv(c) && i < |c.servers|
    ensures Inv(DoTimeout(c, i)) && StepOf(c, DoTimeout(c, i), i)
  {
    var c', n := DoTimeout(c, i), |c.servers|;
    TimeoutHistory(c, c', i);
    TimeoutServer(c.hist, c'.hist, n, c.servers[i], i);
    TimeoutElections(c, c', i);
    TimeoutThreads(c, c', i);
    GoodStepKeepsInv(c, c', i, VoteThreads(i, n, StartElection(c.servers[i].node).1).Keys);
  }

  /** A vote request as the voter sees it. */
  lemma AnswerVoteServer(h: History, h': History, n: nat, s: Server, p: nat, a: VoteArgs, nd: Node, reply: VoteReply)
    requires ServerOk(h, n, s, p) && (a.term > s.node.term ==> VoteKey(a.term, p) !in h.votes)
    requires RequestVote(s.node, a) == Done(nd, reply)
    requires h' == if reply.granted then RecordVote(h, s, p, a) else h
    ensures HistGrows(h, h', p)
    ensures ServerOk(h', n, s.(node := nd), p)
    ensures reply.granted ==> reply.term == a.term && VoteKey(a.term, p) in h'.votes && h'.votes[VoteKey(a.term, p)].cand == a.candidate
  {
    if a.term >= s.node.term {
      var s1 := if a.term > s.node.term then s.(node := s.node.StepDown(a.term)) else s;
      if a.term > s.node.term {
        StepDownServer(h, n, s, p, a.term);
      }
      if reply.granted {
        GrantServer(h, h', n, s1, p, a.candidate);
      }
    }
  }

  lemma DeliverVoteHistory(c: Cluster, c': Cluster, tid: ThreadId)
    requires tid.VoteThread? && tid in c.threads && c.threads[tid].VoteSent? && tid.peer < |c.servers|
    requires c' == DoDeliverVote(c, tid) && ThreadOk(c, tid, c.threads[tid])
    requires HistGrows(c.hist, c'.hist, tid.peer)
    requires ServerTyped(c.servers[tid.peer], tid.peer, |c.servers|) && Synced(c.servers[tid.peer])
    requires VotedFor(c, tid.term, tid.cand, tid.cand) ==> 1 <= tid.term
    ensures NewHistoryOk(c, c')
  {
    SyncedLast(c.servers[tid.peer]);
  }

  lemma DeliverVoteStep(c: Cluster, c': Cluster, tid: ThreadId)
    requires tid.VoteThread? && tid in c.threads && c.threads[tid].VoteSent? && tid.peer < |c.servers|
    requires c' == DoDeliverVote(c, tid) && ThreadOk(c, tid, c.threads[tid])
    requires ServerOk(c.hist, |c.servers|, c.servers[tid.peer], tid.peer)
    requires tid.term > c.servers[tid.peer].node.term ==> VoteKey(tid.term, tid.peer) !in c.hist.votes
    requires VotedFor(c, tid.term, tid.cand, tid.cand) ==> 1 <= tid.term
    ensures GoodStep(c, c', tid.peer, {tid})
  {
    var p, a := tid.peer, c.threads[tid].voteArgs;
    AnswerVoteServer(c.hist, c'.hist, |c.servers|, c.servers[p], p, a, c'.servers[p].node, c'.threads[tid].voteReply);
    DeliverVoteHistory(c, c', tid);
  }

  lemma DeliverVoteKeepsInv(c: Cluster, tid: ThreadId)
    requires Inv(c) && tid.VoteThread? && tid in c.threads && c.threads[tid].VoteSent? && tid.peer < |c.servers|
    ensures Inv(DoDeliverVote(c, tid)) && StepOf(c, DoDeliverVote(c, tid), tid.peer)
  {
    var c' := DoDeliverVote(c, tid);
    if tid.term > c.servers[tid.peer].node.term { NoFutureVote(c, tid.term, tid.peer); }
    DeliverVoteStep(c, c', tid);
    GoodStepKeepsInv(c, c', tid.peer, {tid});
  }

  /** A tally about to reach the majority has not done so before, and its term has no leader yet. */
  lemma MajorityIsFirst(c: Cluster, key: ElectionKey, e: Election, peer: nat)
    requires ElectionOk(c, key, e) && peer != key.cand && peer !in e.counted && VotedFor(c, key.term, peer, key.cand)
    requires key.term in c.hist.reigns ==> ReignOk(c, key.term, c.hist.reigns[key.term])
    requires e.votedNum + 1 >= |c.servers| / 2 + 1
    ensures key.term !in c.hist.reigns
  {
    var n, backers := |c.servers|, e.counted + {peer} + {key.cand};
    assert |backers| == |e.counted| + 2;
    SubsetSize(backers, Everyone(n));
    if key.term in c.hist.reigns && !Won(c.hist, key) {
      var x := QuorumsMeet(backers, c.hist.reigns[key.term].voters, n);
    }
  }

  /** A reply that is stale, refused, or of a larger term. */
  lemma UncountedVoteStep(c: Cluster, c': Cluster, tid: ThreadId)
    requires tid.VoteThread? && tid in c.threads && c.threads[tid].VoteAnswered? && tid.cand < |c.servers|
    requires ElectionKey(tid.cand, tid.term) in c.elections && c' == DoVoteReplied(c, tid)
    requires ServerOk(c.hist, |c.servers|, c.servers[tid.cand], tid.cand)
    requires var r, t := c.threads[tid].voteReply, c.servers[tid.cand].node.term;
      !(r.granted && r.term == t) && (r.term > t ==> VoteKey(r.term, tid.cand) !in c.hist.votes)
    ensures GoodStep(c, c', tid.cand, {})
  {
    var i, s, r := tid.cand, c.servers[tid.cand], c.threads[tid].voteReply;
    if r.term > s.node.term { StepDownServer(c.hist, |c.servers|, s, i, r.term); }
    assert c'.elections == c.elections;
    QuietStep(c, c', i, {});
  }

  lemma CountedElection(c: Cluster, c': Cluster, tid: ThreadId, e: Election)
    requires tid.VoteThread? && StepOf(c, c', tid.cand) && c'.hist == c.hist && tid.cand != tid.peer
    requires ElectionOk(c, ElectionKey(tid.cand, tid.term), e)
    requires VotedFor(c, tid.term, tid.peer, tid.cand) && tid.peer !in e.counted
    requires e.votedNum + 1 < |c.servers| / 2 + 1
    ensures ElectionOk(c', ElectionKey(tid.cand, tid.term), Election(e.votedNum + 1, e.counted + {tid.peer}))
  {
  }

  /** A granted vote below the majority. */
  lemma CountedVoteStep(c: Cluster, c': Cluster, tid: ThreadId)
    requires tid.VoteThread? && tid in c.threads && c.threads[tid].VoteAnswered? && tid.cand < |c.servers|
    requires ElectionKey(tid.cand, tid.term) in c.elections && c' == DoVoteReplied(c, tid)
    requires ServerOk(c.hist, |c.servers|, c.servers[tid.cand], tid.cand) && ThreadOk(c, tid, c.threads[tid])
    requires ElectionOk(c, ElectionKey(tid.cand, tid.term), c.elections[ElectionKey(tid.cand, tid.term)])
    requires var r := c.threads[tid].voteReply; r.granted && r.term == c.servers[tid.cand].node.term
    requires c.elections[ElectionKey(tid.cand, tid.term)].votedNum + 1 < |c.servers| / 2 + 1
    ensures GoodStep(c, c', tid.cand, {})
  {
    CountedElection(c, c', tid, c.elections[ElectionKey(tid.cand, tid.term)]);
  }

  /** The reign that a deciding vote starts. */
  lemma NewReign(c: Cluster, c': Cluster, key: ElectionKey, e: Election, peer: nat, r: Reign)
    requires StepOf(c, c', key.cand) && c'.hist.votes == c.hist.votes
    requires ElectionOk(c, key, e) && peer != key.cand && peer !in e.counted && VotedFor(c, key.term, peer, key.cand)
    requires e.votedNum + 1 >= |c.servers| / 2 + 1 && key.term !in c.hist.reigns
    requires HistoryOk(c) && ServerOk(c.hist, |c.servers|, c.servers[key.cand], key.cand)
    requires c.servers[key.cand].node.term == key.term
    requires r == Reign(key.cand, {key.cand} + (e.counted + {peer}), c.servers[key.cand].full, c.servers[key.cand].full)
    ensures ReignOk(c', key.term, r)
  {
    assert |r.voters| == |e.counted| + 2;
    LogFromGrows(c.hist, c'.hist, key.cand, r.log, key.term, key.term);
    forall j | j in r.voters
      ensures VotedFor(c', key.term, j, r.leader) && !c'.hist.votes[VoteKey(key.term, j)].late
    {
      assert VoteOk(c, VoteKey(key.term, j), c.hist.votes[VoteKey(key.term, j)]);
    }
    assert VoteOk(c, VoteKey(key.term, key.cand), c.hist.votes[VoteKey(key.term, key.cand)]);
  }

  lemma VictoryShape(c: Cluster, c': Cluster, tid: ThreadId)
    requires tid.VoteThread? && tid in c.threads && c.threads[tid].VoteAnswered? && tid.cand < |c.servers|
    requires ElectionKey(tid.cand, tid.term) in c.elections && c' == DoVoteReplied(c, tid)
    requires ServerOk(c.hist, |c.servers|, c.servers[tid.cand], tid.cand)
    requires var r := c.threads[tid].voteReply; r.granted && r.term == c.servers[tid.cand].node.term == tid.term
    requires c.elections[ElectionKey(tid.cand, tid.term)].votedNum + 1 >= |c.servers| / 2 + 1
    requires tid.term !in c.hist.reigns
    ensures StepOf(c, c', tid.cand)
    ensures c'.servers[tid.cand] == c.servers[tid.cand].(node := BecomeLeader(c.servers[tid.cand].node))
    ensures c'.hist.votes == c.hist.votes && c'.hist.acks == c.hist.acks && c'.rounds == c.rounds && c'.serials == c.serials
    ensures c'.threads == c.threads - {tid}
    ensures var s, e := c.servers[tid.cand], c.elections[ElectionKey(tid.cand, tid.term)];
      && c'.hist.reigns == c.hist.reigns[tid.term := Reign(tid.cand, {tid.cand} + (e.counted + {tid.peer}), s.full, s.full)]
      && c'.elections == c.elections[ElectionKey(tid.cand, tid.term) := Election(0, e.counted + {tid.peer})]
  {
  }

  /** A granted vote that decides the election. */
  lemma VictoryStep(c: Cluster, c': Cluster, tid: ThreadId)
    requires tid.VoteThread? && tid in c.threads && c.threads[tid].VoteAnswered? && tid.cand < |c.servers|
    requires ElectionKey(tid.cand, tid.term) in c.elections && c' == DoVoteReplied(c, tid)
    requires HistoryOk(c) && ServerOk(c.hist, |c.servers|, c.servers[tid.cand], tid.cand) && ThreadOk(c, tid, c.threads[tid])
    requires ElectionOk(c, ElectionKey(tid.cand, tid.term), c.elections[ElectionKey(tid.cand, tid.term)])
    requires var r := c.threads[tid].voteReply; r.granted && r.term == c.servers[tid.cand].node.term
    requires c.elections[ElectionKey(tid.cand, tid.term)].votedNum + 1 >= |c.servers| / 2 + 1
    ensures GoodStep(c, c', tid.cand, {})
  {
    var i, key := tid.cand, ElectionKey(tid.cand, tid.term);
    var e := c.elections[key];
    MajorityIsFirst(c, key, e, tid.peer);
    VictoryShape(c, c', tid);
    VictoryServer(c.hist, c'.hist, |c.servers|, c.servers[i], c'.servers[i], i);
    NewReign(c, c', key, e, tid.peer, c'.hist.reigns[tid.term]);
    VictoryElections(c, c', key, e, tid.peer);
    VictoryRest(c, c', tid);
  }

  lemma VictoryElections(c: Cluster, c': Cluster, key: ElectionKey, e: Election, peer: nat)
    requires StepOf(c, c', key.cand) && c'.hist.votes == c.hist.votes && key.term !in c.hist.reigns
    requires ElectionOk(c, key, e) && peer != key.cand && peer !in e.counted && VotedFor(c, key.term, peer, key.cand)
    requires e.votedNum + 1 >= |c.servers| / 2 + 1
    requires key.term in c'.hist.reigns && c'.hist.reigns == c.hist.reigns[key.term := c'.hist.reigns[key.term]]
    requires c'.hist.reigns[key.term].leader == key.cand
    requires c'.elections == c.elections[key := Election(0, e.counted + {peer})]
    ensures NewElectionsOk(c, c')
  {
    assert |e.counted + {peer}| == |e.counted| + 1;
    assert ElectionOk(c', key, c'.elections[key]);
  }

  lemma VictoryRest(c: Cluster, c': Cluster, tid: ThreadId)
    requires tid.VoteThread? && ElectionKey(tid.cand, tid.term) in c.elections
    requires c'.hist.votes == c.hist.votes && c'.hist.acks == c.hist.acks && c'.rounds == c.rounds && c'.serials == c.serials
    requires c'.threads == c.threads - {tid}
    requires c'.elections == c.elections[ElectionKey(tid.cand, tid.term) :=
      Election(0, c.elections[ElectionKey(tid.cand, tid.term)].counted + {tid.peer})]
    requires tid.term in c'.hist.reigns && c'.hist.reigns == c.hist.reigns[tid.term := c'.hist.reigns[tid.term]]
    requires ReignOk(c', tid.term, c'.hist.reigns[tid.term])
    ensures NewHistoryOk(c, c') && NewRoundsOk(c, c') && NewThreadsOk(c, c', {})
  {
  }

  lemma VoteRepliedKeepsInv(c: Cluster, tid: ThreadId)
    requires Inv(c) && tid.VoteThread? && tid in c.threads && c.threads[tid].VoteAnswered? && tid.cand < |c.servers|
    requires ElectionKey(tid.cand, tid.term) in c.elections
    ensures Inv(DoVoteReplied(c, tid)) && StepOf(c, DoVoteReplied(c, tid), tid.cand)
  {
    var c', r, t := DoVoteReplied(c, tid), c.threads[tid].voteReply, c.servers[tid.cand].node.term;
    if r.granted && r.term == t {
      if c.elections[ElectionKey(tid.cand, tid.term)].votedNum + 1 >= |c.servers| / 2 + 1 {
        VictoryStep(c, c', tid);
      } else {
        CountedVoteStep(c, c', tid);
      }
    } else {
      if r.term > t { NoFutureVote(c, r.term, tid.cand); }
      UncountedVoteStep(c, c', tid);
    }
    GoodStepKeepsInv(c, c', tid.cand, {});
  }
}
