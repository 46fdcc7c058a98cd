/** The clean steps keep `Safe`. */
module RaftSafeSteps {
  import opened RaftTypes
  import opened RaftHandlers
  import opened RaftCluster
  import opened RaftInvariant
  import opened RaftElection
  import opened RaftReplication
  import opened RaftSafety

  /** Acknowledgements point into the logs of leaders. */
  ghost predicate AcksIn(h: History) {
    forall a | a in h.acks :: a.term in h.reigns && a.index <= |h.reigns[a.term].log|
  }

  lemma AcksAreIn(c: Cluster)
    requires HistoryOk(c)
    ensures AcksIn(c.hist)
  {
    forall a | a in c.hist.acks
      ensures a.term in c.hist.reigns && a.index <= |c.hist.reigns[a.term].log|
    {
      assert AckOk(c, a);
    }
  }

  // -------------------------------------------------------------- quiet steps

  /** A thread that carries neither entries nor a snapshot. */
  predicate Plain(th: Thread) { !th.AppendSent? && !th.SnapSent? }

  /** Same log and commit index; the term is the old one or one without a vote of this server. */
  lemma SteadyServer(h: History, n: nat, s: Server, s': Server, i: nat)
    requires SafeServer(h, n, s, i) && AcksIn(h)
    requires s'.full == s.full && s'.node.commit == s.node.commit && s'.node.term >= s.node.term
    requires s'.node.term == s.node.term || VoteKey(s'.node.term, i) !in h.votes
    ensures SafeServer(h, n, s', i)
  {
    forall a | a in h.acks && a.node == i
      ensures AckKept(h, s'.full, s'.node.term, a)
    {
      AckKeptGrows(h, h, i, s.full, s.node.term, s'.node.term, a);
    }
    CertifiedGrows(h, h, i, n, s.full, s.full, s.node.commit, s.node.term, s'.node.term);
  }

  lemma QuietSafe(c: Cluster, c': Cluster, i: nat)
    requires StepOf(c, c', i) && c'.hist == c.hist && AcksIn(c.hist)
    requires SafeServer(c.hist, |c.servers|, c.servers[i], i) && ServerOk(c'.hist, |c.servers|, c'.servers[i], i)
    requires c'.servers[i].full == c.servers[i].full && c'.servers[i].node.commit == c.servers[i].node.commit
    requires c'.servers[i].node.term == c.servers[i].node.term || c'.servers[i].node.votedFor == -1
    requires forall tid | tid in c'.threads :: (tid in c.threads && c'.threads[tid] == c.threads[tid]) || Plain(c'.threads[tid])
    ensures GoodSafe(c, c', i)
  {
    SteadyServer(c.hist, |c.servers|, c.servers[i], c'.servers[i], i);
  }

  // ---------------------------------------------------------- election steps

  /** A vote cast in a term without a leader so far. */
  lemma CastVote(h: History, h': History, n: nat, s: Server, i: nat, key: VoteKey, v: Vote)
    requires SafeServer(h, n, s, i) && AcksIn(h) && HistGrows(h, h', i) && h'.reigns == h.reigns && h'.acks == h.acks
    requires key.voter == i && key.term >= s.node.term && v.log == s.full && (v.late <==> key.term in h.reigns)
    requires v.cand == i ==> forall p | 0 <= p < |s.full| :: s.full[p].term < key.term
    ensures SafeVote(h', key, v)
  {
    MatchesGrow(h, h', i, s.full);
    forall a | a in h'.acks
      ensures VoteKept(h', key, v, a)
    {
      if !v.late && a.node == i && a.term < key.term && OwnEntry(h, a.term, a.index) && !Holds(h, s.full, a.term, a.index) {
        assert AckKept(h, s.full, s.node.term, a);
        var w: nat :| Skipped(h, a.term, a.index, w, s.node.term);
        assert w != key.term;
        assert Skipped(h', a.term, a.index, w, key.term - 1);
      }
    }
  }

  lemma VotingServer(h: History, h': History, n: nat, s: Server, s': Server, i: nat)
    requires SafeServer(h, n, s, i) && AcksIn(h) && HistGrows(h, h', i) && h'.reigns == h.reigns && h'.acks == h.acks
    requires s'.full == s.full && s'.node.commit == s.node.commit && s'.node.term >= s.node.term
    requires CandidateCarries(h', n, s', i)
    ensures SafeServer(h', n, s', i)
  {
    MatchesGrow(h, h', i, s.full);
    forall a | a in h'.acks && a.node == i
      ensures AckKept(h', s'.full, s'.node.term, a)
    {
      AckKeptGrows(h, h', i, s.full, s.node.term, s'.node.term, a);
    }
    CertifiedGrows(h, h', i, n, s.full, s.full, s.node.commit, s.node.term, s'.node.term);
  }

  lemma TimeoutSafe(c: Cluster, c': Cluster, i: nat)
    requires i < |c.servers| && c' == DoTimeout(c, i) && StepOf(c, c', i) && AcksIn(c.hist)
    requires SafeServer(c.hist, |c.servers|, c.servers[i], i) && LogFrom(c.hist, c.servers[i].full, c.servers[i].node.term)
    ensures GoodSafe(c, c', i)
  {
    var s, key := c.servers[i], VoteKey(c.servers[i].node.term + 1, i);
    CastVote(c.hist, c'.hist, |c.servers|, s, i, key, c'.hist.votes[key]);
    VotingServer(c.hist, c'.hist, |c.servers|, s, c'.servers[i], i);
  }

  lemma DeliverVoteSafe(c: Cluster, c': Cluster, tid: ThreadId)
    requires tid.VoteThread? && tid in c.threads && c.threads[tid].VoteSent? && tid.peer < |c.servers| && tid.peer != tid.cand
    requires c' == DoDeliverVote(c, tid) && StepOf(c, c', tid.peer) && AcksIn(c.hist) && ThreadOk(c, tid, c.threads[tid])
    requires SafeServer(c.hist, |c.servers|, c.servers[tid.peer], tid.peer)
    requires ServerOk(c'.hist, |c.servers|, c'.servers[tid.peer], tid.peer)
    ensures GoodSafe(c, c', tid.peer)
  {
    var p, s, a := tid.peer, c.servers[tid.peer], c.threads[tid].voteArgs;
    var key, s' := VoteKey(a.term, p), c'.servers[p];
    assert VoteThreadOk(c, tid, c.threads[tid]);
    DeliverVoteShape(c, c', tid);
    if key in c'.hist.votes && key !in c.hist.votes {
      CastVote(c.hist, c'.hist, |c.servers|, s, p, key, c'.hist.votes[key]);
    }
    VotersCandidacy(c.hist, c'.hist, |c.servers|, s, s', p);
    VotingServer(c.hist, c'.hist, |c.servers|, s, s', p);
  }

  /** A vote for another server: own candidacies are those of before. */
  ghost predicate VotesForOthers(h: History, h': History, s: Server, s': Server, p: nat) {
    var key := VoteKey(s'.node.term, p);
    key in h'.votes && h'.votes[key].cand == p ==> s'.node.term == s.node.term && key in h.votes && h'.votes[key] == h.votes[key]
  }

  lemma VotersCandidacy(h: History, h': History, n: nat, s: Server, s': Server, p: nat)
    requires CandidateCarries(h, n, s, p) && VotesForOthers(h, h', s, s', p) && s'.full == s.full
    requires HistGrows(h, h', p) && h'.reigns == h.reigns
    ensures CandidateCarries(h', n, s', p)
  {
    var key := VoteKey(s'.node.term, p);
    if key in h'.votes && h'.votes[key].cand == p && s'.node.term !in h'.reigns {
      CarriedGrows(h, h', p, n, h.votes[key].log, s.full, s.node.term);
    }
  }

  lemma DeliverVoteShape(c: Cluster, c': Cluster, tid: ThreadId)
    requires tid.VoteThread? && tid in c.threads && c.threads[tid].VoteSent? && tid.peer < |c.servers| && tid.peer != tid.cand
    requires c' == DoDeliverVote(c, tid) && c.threads[tid].voteArgs.candidate == tid.cand
    requires ServerOk(c'.hist, |c.servers|, c'.servers[tid.peer], tid.peer)
    ensures var p, a := tid.peer, c.threads[tid].voteArgs; var s, s' := c.servers[p], c'.servers[p];
      && s'.full == s.full && s'.node.commit == s.node.commit && VotesForOthers(c.hist, c'.hist, s, s', p)
      && c'.hist.reigns == c.hist.reigns && c'.hist.acks == c.hist.acks
      && (forall k | k in c'.hist.votes && k !in c.hist.votes ::
          k == VoteKey(a.term, p) && k.term >= s.node.term && c'.hist.votes[k] == Vote(a.candidate, s.full, a.term in c.hist.reigns))
      && c'.threads == c.threads[tid := c'.threads[tid]] && c'.threads[tid].VoteAnswered?
  {
  }

  lemma VictorySafe(c: Cluster, c': Cluster, i: nat)
    requires StepOf(c, c', i) && AcksIn(c.hist) && SafeServer(c.hist, |c.servers|, c.servers[i], i)
    requires c'.hist.votes == c.hist.votes && c'.hist.acks == c.hist.acks
    requires var s, t := c.servers[i], c.servers[i].node.term;
      && c'.servers[i].full == s.full && c'.servers[i].node.commit == s.node.commit && c'.servers[i].node.term == t
      && t !in c.hist.reigns && t in c'.hist.reigns && c'.hist.reigns == c.hist.reigns[t := c'.hist.reigns[t]]
      && c'.hist.reigns[t].leader == i && c'.hist.reigns[t].start == s.full && c'.hist.reigns[t].log == s.full
      && VotedFor(c, t, i, i) && ReignOk(c', t, c'.hist.reigns[t])
    requires forall key | key in c.hist.votes :: VoteOk(c, key, c.hist.votes[key])
    requires forall tid | tid in c'.threads :: tid in c.threads && c'.threads[tid] == c.threads[tid]
    ensures GoodSafe(c, c', i)
  {
    var s, t := c.servers[i], c.servers[i].node.term;
    var r := c'.hist.reigns[t];
    MatchesGrow(c.hist, c'.hist, i, s.full);
    forall j | j in r.voters
      ensures VoteKey(t, j) in c'.hist.votes
      ensures UpToDateLog(c'.hist.votes[VoteKey(t, i)].log, c'.hist.votes[VoteKey(t, j)].log)
    {
      assert VotedFor(c', t, j, i);
      assert VoteOk(c, VoteKey(t, j), c.hist.votes[VoteKey(t, j)]);
    }
    CarriedGrows(c.hist, c'.hist, i, |c.servers|, c.hist.votes[VoteKey(t, i)].log, s.full, t);
    CrownedServer(c.hist, c'.hist, |c.servers|, s, c'.servers[i], i);
  }

  lemma CrownedServer(h: History, h': History, n: nat, s: Server, s': Server, i: nat)
    requires SafeServer(h, n, s, i) && AcksIn(h) && HistGrows(h, h', i) && h'.acks == h.acks
    requires s'.full == s.full && s'.node.commit == s.node.commit && s'.node.term == s.node.term && s.node.term in h'.reigns
    ensures SafeServer(h', n, s', i)
  {
    MatchesGrow(h, h', i, s.full);
    forall a | a in h'.acks && a.node == i
      ensures AckKept(h', s'.full, s'.node.term, a)
    {
      AckKeptGrows(h, h', i, s.full, s.node.term, s'.node.term, a);
    }
    CertifiedGrows(h, h', i, n, s.full, s.full, s.node.commit, s.node.term, s'.node.term);
  }

  // ------------------------------------------------------- replication steps

  lemma StartSafe(c: Cluster, c': Cluster, i: nat, op: Op)
    requires i < |c.servers| && Started(c, c', i, op) && StepOf(c, c', i) && AcksIn(c.hist)
    requires SafeServer(c.hist, |c.servers|, c.servers[i], i) && c.hist.reigns[c.servers[i].node.term].log == c.servers[i].full
    requires SafeReign(c.hist, |c.servers|, c.servers[i].node.term, c.hist.reigns[c.servers[i].node.term])
    ensures GoodSafe(c, c', i)
  {
    var s, s', t := c.servers[i], c'.servers[i], c.servers[i].node.term;
    var h, h' := c.hist, c'.hist;
    SafeReignGrows(h, h', i, |c.servers|, t, h.reigns[t]);
    MatchesGrow(h, h', i, s.full);
    forall p: nat | p < |s'.full|
      ensures MatchAt(h', s'.full, p)
    {
      if p < |s.full| {
        assert MatchAt(h', s.full, p);
        TakeLess(s.full, s'.full, |s.full|, p + 1);
      }
    }
    forall a | a in h'.acks && a.node == i
      ensures AckKept(h', s'.full, s'.node.term, a)
    {
      AckKeptGrows(h, h', i, s.full, s.node.term, s'.node.term, a);
      if OwnEntry(h', a.term, a.index) && Holds(h', s.full, a.term, a.index) {
        HoldsLonger(h', s.full, s'.full, a.term, a.index);
      }
    }
    if s.node.commit <= |s.full| { TakeLess(s.full, s'.full, |s.full|, s.node.commit); }
    CertifiedGrows(h, h', i, |c.servers|, s.full, s'.full, s.node.commit, s.node.term, s'.node.term);
  }

  lemma HeartBeatSafe(c: Cluster, c': Cluster, i: nat)
    requires i < |c.servers| && ServerOk(c.hist, |c.servers|, c.servers[i], i) && c.servers[i].node.status == Leader
    requires Beaten(c, c', i) && StepOf(c, c', i) && AcksIn(c.hist) && SafeServer(c.hist, |c.servers|, c.servers[i], i)
    ensures GoodSafe(c, c', i)
  {
    var s, h, h' := c.servers[i], c.hist, c'.hist;
    MatchesGrow(h, h', i, s.full);
    forall a | a in h'.acks && a.node == i
      ensures AckKept(h', s.full, s.node.term, a)
    {
      if a in h.acks { AckKeptGrows(h, h', i, s.full, s.node.term, s.node.term, a); }
    }
    CertifiedGrows(h, h', i, |c.servers|, s.full, s.full, s.node.commit, s.node.term, s.node.term);
    forall tid | tid in c'.threads && !(tid in c.threads && c'.threads[tid] == c.threads[tid])
      ensures SafeThread(h', |c.servers|, c'.threads[tid])
    {
      if tid.AppendThread? {
        BeatCommit(s.node, tid.peer);
        assert c'.threads[tid] == AppendSent(BeatFor(s.node, tid.peer).args);
      }
    }
  }

  lemma BeatCommit(nd: Node, p: nat)
    requires nd.Valid() && p < nd.peers && BeatFor(nd, p).SendAppend?
    ensures BeatFor(nd, p).args.leaderCommit == nd.commit && BeatFor(nd, p).args.term == nd.term
  {
  }

  /** A merge without a stale tail: it yields the leader's log up to the end of
      the message, or changes nothing that the log does not extend. */
  lemma CleanMerge(h: History, full: seq<Entry>, t: nat, a: AppendArgs)
    requires Matches(h, full) && LogFrom(h, full, t) && FromLeader(h, a) && Matches(h, h.reigns[a.term].log)
    requires a.prevIndex <= |full| && TermAt(full, a.prevIndex) == a.prevTerm
    requires Conflict(full, a.prevIndex, a.entries) ==> a.End() >= |full|
    ensures var r, src := Overwrite(full, a.prevIndex, a.entries), h.reigns[a.term].log;
      && a.End() <= |r| && r[..a.End()] == src[..a.End()]
      && (r == src[..a.End()] || r == full)
      && (full <= r || |full| <= a.End())
  {
    var r, src := Overwrite(full, a.prevIndex, a.entries), h.reigns[a.term].log;
    if a.prevIndex > 0 {
      assert MatchAt(h, full, a.prevIndex - 1) && MatchAt(h, src, a.prevIndex - 1);
    }
    assert full[..a.prevIndex] == src[..a.prevIndex];
    assert src[..a.prevIndex] + a.entries == src[..a.End()];
    if |full| > a.End() {
      SameEntries(h, full, t, a);
      assert r == full;
      assert full[..a.End()] == full[..a.prevIndex] + full[a.prevIndex..a.End()];
    }
  }

  lemma SameEntries(h: History, full: seq<Entry>, t: nat, a: AppendArgs)
    requires LogFrom(h, full, t) && FromLeader(h, a) && a.End() <= |full| && !Conflict(full, a.prevIndex, a.entries)
    ensures full[a.prevIndex..a.End()] == a.entries
  {
    var src := h.reigns[a.term].log;
    forall k | 0 <= k < |a.entries|
      ensures full[a.prevIndex + k] == a.entries[k]
    {
      assert a.entries[k] == src[a.prevIndex + k];
      assert EntryFrom(h, full[a.prevIndex + k], a.prevIndex + k);
      assert EntryFrom(h, src[a.prevIndex + k], a.prevIndex + k);
    }
  }

  /** What the merge leaves of a prefix held so far, when the leader holds it too. */
  lemma MergeHolds(h: History, full: seq<Entry>, r: seq<Entry>, src: seq<Entry>, end: nat, t: nat, index: nat)
    requires OwnEntry(h, t, index) && Holds(h, full, t, index) && Holds(h, src, t, index)
    requires end <= |r| && end <= |src| && r[..end] == src[..end]
    requires full <= r || |full| <= end
    ensures Holds(h, r, t, index)
  {
    if full <= r {
      HoldsLonger(h, full, r, t, index);
    } else {
      TakeLess(r, src, end, index);
    }
  }

  lemma MergeMatches(h: History, full: seq<Entry>, r: seq<Entry>, src: seq<Entry>, end: nat)
    requires Matches(h, full) && Matches(h, src) && end <= |src| && (r == src[..end] || r == full)
    ensures Matches(h, r)
  {
    if r == src[..end] {
      forall p: nat | p < |r|
        ensures MatchAt(h, r, p)
      {
        assert MatchAt(h, src, p);
        TakeLess(r, src, end, p + 1);
      }
    }
  }

  lemma MergeAckKept(h: History, full: seq<Entry>, r: seq<Entry>, t: nat, a: AppendArgs, ack: Ack)
    requires a.term in h.reigns && AckKept(h, full, t, ack) && t <= a.term && ack.term <= t
    requires var src := h.reigns[a.term].log; a.End() <= |r| && a.End() <= |src| && r[..a.End()] == src[..a.End()]
    requires h.reigns[a.term].start <= h.reigns[a.term].log
    requires full <= r || |full| <= a.End()
    ensures AckKept(h, r, a.term, ack)
  {
    if OwnEntry(h, ack.term, ack.index) {
      var src := h.reigns[a.term].log;
      if Holds(h, full, ack.term, ack.index) {
        if ack.term == a.term || Holds(h, h.reigns[a.term].start, ack.term, ack.index) {
          if ack.term != a.term { HoldsLonger(h, h.reigns[a.term].start, src, ack.term, ack.index); }
          MergeHolds(h, full, r, src, a.End(), ack.term, ack.index);
        } else {
          assert Skipped(h, ack.term, ack.index, a.term, a.term);
        }
      } else {
        var w: nat :| Skipped(h, ack.term, ack.index, w, t);
        assert Skipped(h, ack.term, ack.index, w, a.term);
      }
    }
  }

  /** The leader of term `w` holds everything committed in terms up to `w`. */
  ghost predicate Complete(h: History, n: nat, w: nat) {
    w in h.reigns && forall t: nat, index: nat | Committed(h, n, t, index) && t <= w :: Holds(h, h.reigns[w].log, t, index)
  }

  lemma StartInLog(c: Cluster, u: nat)
    requires HistoryOk(c) && u in c.hist.reigns
    ensures c.hist.reigns[u].start <= c.hist.reigns[u].log
  {
    assert ReignOk(c, u, c.hist.reigns[u]);
  }

  lemma LeaderHolds(h: History, n: nat, t: nat, index: nat, u: nat)
    requires Committed(h, n, t, index) && u in h.reigns && h.reigns[u].start <= h.reigns[u].log
    requires t == u || Holds(h, h.reigns[u].start, t, index)
    ensures Holds(h, h.reigns[u].log, t, index)
  {
    if t != u { HoldsLonger(h, h.reigns[u].start, h.reigns[u].log, t, index); }
  }

  /** Leader Completeness in terms of the leader's log as it is now. */
  lemma LeadersAreComplete(c: Cluster, w: nat)
    requires Inv(c) && Safe(c) && w in c.hist.reigns
    ensures Complete(c.hist, |c.servers|, w)
  {
    StartInLog(c, w);
    forall t: nat, index: nat | Committed(c.hist, |c.servers|, t, index) && t <= w
      ensures Holds(c.hist, c.hist.reigns[w].log, t, index)
    {
      if t < w { LeaderCompleteness(c, t, index, w); }
      LeaderHolds(c.hist, |c.servers|, t, index, w);
    }
  }

  lemma MergeCertified(h: History, n: nat, full: seq<Entry>, r: seq<Entry>, k: nat, t: nat, a: AppendArgs)
    requires Complete(h, n, a.term) && Certified(h, n, full, k, t) && t <= a.term
    requires var src := h.reigns[a.term].log; a.End() <= |r| && a.End() <= |src| && r[..a.End()] == src[..a.End()]
    requires full <= r || |full| <= a.End()
    ensures Certified(h, n, r, k, a.term)
  {
    if k > 0 {
      var u: nat, index: nat :| CertifiedBy(h, n, full, k, t, u, index);
      MergePrefix(full, r, h.reigns[a.term].log, h.reigns[u].log, a.End(), k, index);
      assert CertifiedBy(h, n, r, k, a.term, u, index);
    }
  }

  lemma MergePrefix(full: seq<Entry>, r: seq<Entry>, src: seq<Entry>, own: seq<Entry>, end: nat, k: nat, index: nat)
    requires k <= |full| && k <= index <= |own| && full[..k] == own[..k]
    requires index <= |src| && src[..index] == own[..index]
    requires end <= |r| && end <= |src| && r[..end] == src[..end] && (full <= r || |full| <= end)
    ensures k <= |r| && r[..k] == own[..k]
  {
    if full <= r {
      TakeLess(full, r, |full|, k);
    } else {
      TakeLess(r, src, end, k);
      TakeLess(src, own, index, k);
    }
  }

  // ---------------------------------------------------- accepting a message

  /** The merged log as the step's history has it. */
  ghost predicate Merged(full: seq<Entry>, r: seq<Entry>, src: seq<Entry>, end: nat) {
    && end <= |r| && end <= |src| && r[..end] == src[..end]
    && (r == src[..end] || r == full)
    && (full <= r || |full| <= end)
  }

  lemma MergedServer(h: History, h': History, n: nat, s: Server, s': Server, p: nat, a: AppendArgs)
    requires AcksIn(h) && a.term in h.reigns && SafeServer(h, n, s, p) && s.node.term <= a.term
    requires h.reigns[a.term].start <= h.reigns[a.term].log && Matches(h, h.reigns[a.term].log)
    requires forall ack | ack in h.acks && ack.node == p :: ack.term <= s.node.term
    requires Merged(s.full, s'.full, h.reigns[a.term].log, a.End()) && s'.node.term == a.term
    requires HistGrows(h, h', p) && h'.reigns == h.reigns && h'.acks == h.acks + {Ack(a.term, a.End(), p)}
    requires Certified(h, n, s'.full, s'.node.commit, a.term)
    ensures SafeServer(h', n, s', p)
  {
    MergeMatches(h, s.full, s'.full, h.reigns[a.term].log, a.End());
    MatchesGrow(h, h', p, s'.full);
    MergedAcks(h, h', n, s, s', p, a);
    CertifiedGrows(h, h', p, n, s'.full, s'.full, s'.node.commit, a.term, a.term);
  }

  lemma ReignIsSafe(c: Cluster, t: nat)
    requires Safe(c) && t in c.hist.reigns
    ensures SafeReign(c.hist, |c.servers|, t, c.hist.reigns[t])
  {
  }

  lemma MergedAcks(h: History, h': History, n: nat, s: Server, s': Server, p: nat, a: AppendArgs)
    requires AcksIn(h) && a.term in h.reigns && SafeServer(h, n, s, p) && s.node.term <= a.term
    requires h.reigns[a.term].start <= h.reigns[a.term].log
    requires forall ack | ack in h.acks && ack.node == p :: ack.term <= s.node.term
    requires Merged(s.full, s'.full, h.reigns[a.term].log, a.End())
    requires HistGrows(h, h', p) && h'.reigns == h.reigns && h'.acks == h.acks + {Ack(a.term, a.End(), p)}
    ensures forall ack | ack in h'.acks && ack.node == p :: AckKept(h', s'.full, a.term, ack)
  {
    forall ack | ack in h'.acks && ack.node == p
      ensures AckKept(h', s'.full, a.term, ack)
    {
      if ack in h.acks {
        MergeAckKept(h, s.full, s'.full, s.node.term, a, ack);
        AckKeptGrows(h, h', p, s'.full, a.term, a.term, ack);
      }
    }
  }

  lemma MergedCommit(h: History, n: nat, s: Server, s': Server, a: AppendArgs)
    requires Complete(h, n, a.term) && s.node.term <= a.term && a.leaderCommit <= a.End()
    requires Certified(h, n, s.full, s.node.commit, s.node.term)
    requires Certified(h, n, h.reigns[a.term].log, a.leaderCommit, a.term)
    requires Merged(s.full, s'.full, h.reigns[a.term].log, a.End())
    requires s'.node.commit == s.node.commit || s'.node.commit == a.leaderCommit
    ensures Certified(h, n, s'.full, s'.node.commit, a.term)
  {
    var src := h.reigns[a.term].log;
    if s'.node.commit == s.node.commit {
      MergeCertified(h, n, s.full, s'.full, s.node.commit, s.node.term, a);
    } else {
      TakeLess(s'.full, src, a.End(), a.leaderCommit);
      CertifiedGrows(h, h, 0, n, src, s'.full, a.leaderCommit, a.term, a.term);
    }
  }

  lemma SyncedConflict(s: Server, a: AppendArgs)
    requires Synced(s) && s.node.snapIndex <= a.prevIndex <= |s.full| && Conflict(s.full, a.prevIndex, a.entries)
    ensures Conflict(s.node.logs, a.prevIndex - s.node.snapIndex, a.entries)
  {
    var k :| 0 <= k < |a.entries| && a.prevIndex + k < |s.full| && s.full[a.prevIndex + k].term != a.entries[k].term;
    assert s.node.logs[a.prevIndex - s.node.snapIndex + k] == s.full[a.prevIndex + k];
  }

  /** An accepted message, seen from the receiver before it looked at the term. */
  lemma AcceptMerges(h: History, n: nat, s: Server, p: nat, a: AppendArgs)
    requires ServerOk(h, n, s, p) && SafeServer(h, n, s, p) && FromLeader(h, a) && Matches(h, h.reigns[a.term].log)
    requires s.node.snapIndex <= a.prevIndex <= |s.full| && s.node.TermOf(a.prevIndex) == a.prevTerm
    requires CleanAppend(s.node, a) && AppendEntries(s.node, a).Done? && AppendEntries(s.node, a).reply.success
    ensures Merged(s.full, Overwrite(s.full, a.prevIndex, a.entries), h.reigns[a.term].log, a.End())
    ensures var nd' := Accept(s.node, a); nd'.commit == s.node.commit || nd'.commit == a.leaderCommit
  {
    SyncedLast(s);
    SyncedTerm(s, a.prevIndex);
    if Conflict(s.full, a.prevIndex, a.entries) { SyncedConflict(s, a); }
    CleanMerge(h, s.full, s.node.term, a);
    AcceptNode(s.node, a);
  }

  /** What a step that accepts message `a` at server `p` changes. */
  ghost predicate Accepting(c: Cluster, c': Cluster, p: nat, a: AppendArgs)
    requires p < |c.servers| == |c'.servers| && a.term in c.hist.reigns
  {
    var s, s' := c.servers[p], c'.servers[p];
    && s.node.term <= a.term && s'.node.term == a.term
    && Merged(s.full, s'.full, c.hist.reigns[a.term].log, a.End())
    && (s'.node.commit == s.node.commit || s'.node.commit == a.leaderCommit)
    && c'.hist == c.hist.(acks := c.hist.acks + {Ack(a.term, a.End(), p)})
    && (forall x | x in c'.threads :: (x in c.threads && c'.threads[x] == c.threads[x]) || Plain(c'.threads[x]))
  }

  lemma AcceptSafe(c: Cluster, c': Cluster, p: nat, a: AppendArgs)
    requires StepOf(c, c', p) && AcksIn(c.hist) && Complete(c.hist, |c.servers|, a.term)
    requires FromLeader(c.hist, a) && Certified(c.hist, |c.servers|, c.hist.reigns[a.term].log, a.leaderCommit, a.term)
    requires SafeServer(c.hist, |c.servers|, c.servers[p], p)
    requires c.hist.reigns[a.term].start <= c.hist.reigns[a.term].log && Matches(c.hist, c.hist.reigns[a.term].log)
    requires forall ack | ack in c.hist.acks && ack.node == p :: ack.term <= c.servers[p].node.term
    requires Accepting(c, c', p, a)
    ensures GoodSafe(c, c', p)
  {
    MergedCommit(c.hist, |c.servers|, c.servers[p], c'.servers[p], a);
    MergedServer(c.hist, c'.hist, |c.servers|, c.servers[p], c'.servers[p], p, a);
  }

  /** The step that delivers an AppendEntries message. */
  lemma DeliverAppendShape(c: Cluster, c': Cluster, tid: ThreadId)
    requires tid.AppendThread? && tid in c.threads && c.threads[tid].AppendSent? && tid.peer < |c.servers|
    requires ServerOk(c.hist, |c.servers|, c.servers[tid.peer], tid.peer)
    requires SafeServer(c.hist, |c.servers|, c.servers[tid.peer], tid.peer)
    requires FromLeader(c.hist, c.threads[tid].args) && Matches(c.hist, c.hist.reigns[c.threads[tid].args.term].log)
    requires var t := c.threads[tid].args.term; t > c.servers[tid.peer].node.term ==> VoteKey(t, tid.peer) !in c.hist.votes
    requires var r := AppendEntries(c.servers[tid.peer].node, c.threads[tid].args); r.Done? && r.reply.success
    requires CleanAppend(c.servers[tid.peer].node, c.threads[tid].args)
    requires c' == DoDeliverAppend(c, tid)
    requires |c'.servers| == |c.servers|
    ensures Accepting(c, c', tid.peer, c.threads[tid].args)
  {
    AcceptedShape(c, c', tid);
    var a, p, s := c.threads[tid].args, tid.peer, c.servers[tid.peer];
    AcceptedMeets(s, a);
    AcceptMerges(c.hist, |c.servers|, s, p, a);
    AcceptCommit(s.node, a);
  }

  lemma AcceptedMeets(s: Server, a: AppendArgs)
    requires s.node.Valid() && Synced(s) && AppendEntries(s.node, a).Done? && AppendEntries(s.node, a).reply.success
    ensures s.node.snapIndex <= a.prevIndex <= |s.full| && s.node.TermOf(a.prevIndex) == a.prevTerm
  {
    SyncedLast(s);
  }

  lemma AcceptCommit(nd: Node, a: AppendArgs)
    requires nd.Valid() && nd.snapIndex <= a.prevIndex <= nd.snapIndex + |nd.logs|
    ensures Accept(AtTerm(nd, a.term), a).commit == Accept(nd, a).commit
  {
  }

  lemma RefusedShape(c: Cluster, c': Cluster, tid: ThreadId)
    requires tid.AppendThread? && tid in c.threads && c.threads[tid].AppendSent? && tid.peer < |c.servers|
    requires ServerOk(c.hist, |c.servers|, c.servers[tid.peer], tid.peer)
    requires var r := AppendEntries(c.servers[tid.peer].node, c.threads[tid].args); r.Done? ==> !r.reply.success
    requires c' == DoDeliverAppend(c, tid)
    ensures var s, s' := c.servers[tid.peer], c'.servers[tid.peer];
      && s'.full == s.full && s'.node.commit == s.node.commit && c'.hist == c.hist
      && (s'.node.term == s.node.term || s'.node.votedFor == -1)
      && (forall x | x in c'.threads :: (x in c.threads && c'.threads[x] == c.threads[x]) || Plain(c'.threads[x]))
  {
  }

  lemma AcksUpTo(c: Cluster, p: nat)
    requires HistoryOk(c) && p < |c.servers|
    ensures forall ack | ack in c.hist.acks && ack.node == p :: ack.term <= c.servers[p].node.term
  {
    forall ack | ack in c.hist.acks && ack.node == p
      ensures ack.term <= c.servers[p].node.term
    {
      assert AckOk(c, ack);
    }
  }

  lemma AcceptedAppendSafe(c: Cluster, c': Cluster, tid: ThreadId, p: nat, a: AppendArgs)
    requires tid.AppendThread? && tid in c.threads && c.threads[tid] == AppendSent(a) && p == tid.peer && p < |c.servers|
    requires StepOf(c, c', p) && AcksIn(c.hist) && Complete(c.hist, |c.servers|, a.term) && FromLeader(c.hist, a)
    requires ServerOk(c.hist, |c.servers|, c.servers[p], p) && SafeServer(c.hist, |c.servers|, c.servers[p], p)
    requires SafeReign(c.hist, |c.servers|, a.term, c.hist.reigns[a.term]) && SafeThread(c.hist, |c.servers|, AppendSent(a))
    requires c.hist.reigns[a.term].start <= c.hist.reigns[a.term].log
    requires a.term > c.servers[p].node.term ==> VoteKey(a.term, p) !in c.hist.votes
    requires forall ack | ack in c.hist.acks && ack.node == p :: ack.term <= c.servers[p].node.term
    requires var r := AppendEntries(c.servers[p].node, a); r.Done? && r.reply.success
    requires CleanAppend(c.servers[p].node, a) && c' == DoDeliverAppend(c, tid)
    ensures GoodSafe(c, c', p)
  {
    DeliverAppendShape(c, c', tid);
    AcceptSafe(c, c', p, a);
  }

  lemma RefusedAppendSafe(c: Cluster, c': Cluster, tid: ThreadId)
    requires tid.AppendThread? && tid in c.threads && c.threads[tid].AppendSent? && tid.peer < |c.servers|
    requires StepOf(c, c', tid.peer) && AcksIn(c.hist)
    requires ServerOk(c.hist, |c.servers|, c.servers[tid.peer], tid.peer) && SafeServer(c.hist, |c.servers|, c.servers[tid.peer], tid.peer)
    requires ServerOk(c'.hist, |c.servers|, c'.servers[tid.peer], tid.peer)
    requires var r := AppendEntries(c.servers[tid.peer].node, c.threads[tid].args); r.Done? ==> !r.reply.success
    requires c' == DoDeliverAppend(c, tid)
    ensures GoodSafe(c, c', tid.peer)
  {
    RefusedShape(c, c', tid);
    QuietSafe(c, c', tid.peer);
  }

  lemma DeliverAppendSafe(c: Cluster, c': Cluster, tid: ThreadId)
    requires Inv(c) && Safe(c) && tid.AppendThread? && tid in c.threads && c.threads[tid].AppendSent? && tid.peer < |c.servers|
    requires CleanAppend(c.servers[tid.peer].node, c.threads[tid].args)
    requires c' == DoDeliverAppend(c, tid) && StepOf(c, c', tid.peer) && AcksIn(c.hist)
    requires ServerOk(c'.hist, |c.servers|, c'.servers[tid.peer], tid.peer)
    ensures GoodSafe(c, c', tid.peer)
  {
    var a, nd := c.threads[tid].args, c.servers[tid.peer].node;
    var r := AppendEntries(nd, a);
    if r.Done? && r.reply.success {
      LeaderMessage(c, tid);
      if a.term > nd.term { NoFutureVote(c, a.term, tid.peer); }
      AcksUpTo(c, tid.peer);
      LeadersAreComplete(c, a.term);
      StartInLog(c, a.term);
      AcceptedAppendSafe(c, c', tid, tid.peer, a);
    } else {
      RefusedAppendSafe(c, c', tid);
    }
  }

  // --------------------------------------------------------------- committing

  lemma AckersAre(h: History, t: nat, index: nat, q: set<nat>)
    requires forall j | j in q :: Ack(t, index, j) in h.acks
    ensures q <= Ackers(h, t, index)
  {
    forall j | j in q
      ensures j in Ackers(h, t, index)
    {
      assert Ack(t, index, j).node == j;
    }
  }

  /** When a round's counter fires, a majority has acknowledged the round's end. */
  lemma FiredRound(c: Cluster, r: Round, p: nat)
    requires RoundOk(c, r) && p < |c.servers| && p != r.leader && p !in r.counted && Ack(r.term, r.end, p) in c.hist.acks
    requires r.count + 1 >= |c.servers| / 2 + 1
    ensures |Ackers(c.hist, r.term, r.end)| >= |c.servers| / 2 + 1
    ensures {r.leader, p} + r.counted <= Ackers(c.hist, r.term, r.end)
    ensures |{r.leader, p} + r.counted| == |r.counted| + 2 >= |c.servers| / 2 + 1
  {
    var q := {r.leader, p} + r.counted;
    AckersAre(c.hist, r.term, r.end, q);
    SubsetSize(q, Ackers(c.hist, r.term, r.end));
    assert q == r.counted + {p} + {r.leader};
  }

  lemma CommitServer(h: History, n: nat, s: Server, s': Server, i: nat, index: nat)
    requires SafeServer(h, n, s, i) && AcksIn(h) && s'.full == s.full && s'.node.term == s.node.term
    requires s'.node.commit == s.node.commit || (s'.node.commit == index && Committed(h, n, s.node.term, index))
    requires s.node.term in h.reigns && h.reigns[s.node.term].log == s.full
    ensures SafeServer(h, n, s', i)
  {
    if s'.node.commit != s.node.commit {
      assert CertifiedBy(h, n, s'.full, index, s.node.term, s.node.term, index);
    }
  }

  lemma AppendRepliedShape(c: Cluster, c': Cluster, tid: ThreadId, i: nat)
    requires tid.AppendThread? && tid in c.threads && c.threads[tid].AppendAnswered? && ThreadOk(c, tid, c.threads[tid])
    requires i == c.rounds[tid.round].leader && ServerOk(c.hist, |c.servers|, c.servers[i], i)
    requires c' == DoAppendReplied(c, tid) && |c'.servers| == |c.servers|
    ensures var s, s', a, r, k := c.servers[i], c'.servers[i], c.threads[tid].args, c.threads[tid].reply, c.rounds[tid.round];
      && s'.full == s.full && c'.hist == c.hist && c'.threads == c.threads - {tid}
      && (s'.node.term == s.node.term || s'.node.votedFor == -1)
      && (s'.node.commit != s.node.commit ==>
          && s.node.status == Leader && s'.node.term == s.node.term == k.term && s'.node.commit == k.end > s.node.commit
          && k.count + 1 >= |c.servers| / 2 + 1
          && OwnEntry(c.hist, k.term, k.end) && c.hist.reigns[k.term].log == s.full
          && Ack(k.term, k.end, tid.peer) in c.hist.acks && tid.peer !in k.counted)
  {
    assert AppendThreadOk(c, tid, c.threads[tid]);
    var s, a := c.servers[i], c.threads[tid].args;
    if c.threads[tid].reply.success && c.threads[tid].reply.term == s.node.term && s.node.status == Leader && |a.entries| > 0 {
      assert a.entries[|a.entries| - 1] == s.full[a.End() - 1];
    }
  }

  lemma AppendRepliedSafe(c: Cluster, c': Cluster, tid: ThreadId, i: nat)
    requires tid.AppendThread? && tid in c.threads && c.threads[tid].AppendAnswered? && ThreadOk(c, tid, c.threads[tid])
    requires i == c.rounds[tid.round].leader && ServerOk(c.hist, |c.servers|, c.servers[i], i) && RoundOk(c, c.rounds[tid.round])
    requires c' == DoAppendReplied(c, tid) && StepOf(c, c', i) && AcksIn(c.hist)
    requires SafeServer(c.hist, |c.servers|, c.servers[i], i) && ServerOk(c'.hist, |c.servers|, c'.servers[i], i)
    ensures GoodSafe(c, c', i)
  {
    AppendRepliedShape(c, c', tid, i);
    if c'.servers[i].node.commit == c.servers[i].node.commit {
      QuietSafe(c, c', i);
    } else {
      FiredRound(c, c.rounds[tid.round], tid.peer);
      CommitServer(c.hist, |c.servers|, c.servers[i], c'.servers[i], i, c.rounds[tid.round].end);
    }
  }
}
