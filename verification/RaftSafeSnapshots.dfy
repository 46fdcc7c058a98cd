/** Steps that take and install snapshots keep `Safe` when they are clean. */
module RaftSafeSnapshots {
  import opened RaftTypes
  import opened RaftHandlers
  import opened RaftCluster
  import opened RaftInvariant
  import opened RaftElection
  import opened RaftReplication
  import opened RaftSafety
  import opened RaftSafeSteps

  // ---------------------------------------------------------------- sending

  lemma PrefixMatches(h: History, log: seq<Entry>, k: nat)
    requires Matches(h, log) && k <= |log|
    ensures Matches(h, log[..k])
  {
    forall p: nat | p < k
      ensures MatchAt(h, log[..k], p)
    {
      assert MatchAt(h, log, p);
      assert log[..k][..p + 1] == log[..p + 1];
    }
  }

  /** What is compacted is committed, so a snapshot stands for committed entries. */
  lemma SnapshotPrefix(h: History, n: nat, s: Server, i: nat)
    requires SafeServer(h, n, s, i) && Synced(s) && s.node.snapIndex <= s.node.commit <= |s.full|
    ensures SafePrefix(h, n, s.full[..s.node.snapIndex], s.node.term)
  {
    var k, prefix := s.node.commit, s.full[..s.node.snapIndex];
    PrefixMatches(h, s.full, s.node.snapIndex);
    if |prefix| > 0 {
      var t: nat, index: nat :| CertifiedBy(h, n, s.full, k, s.node.term, t, index);
      TakeLess(s.full, h.reigns[t].log, k, |prefix|);
      assert CertifiedBy(h, n, prefix, |prefix|, s.node.term, t, index);
    }
  }

  lemma CommitStored(h: History, n: nat, s: Server, i: nat)
    requires ServerOk(h, n, s, i)
    ensures s.node.snapIndex <= s.node.commit <= |s.full|
  {
    SyncedLast(s);
  }

  lemma RunSnapshotSafe(c: Cluster, c': Cluster, tid: ThreadId, i: nat)
    requires tid in c.threads && c.threads[tid].SnapPending? && i == c.threads[tid].from && i < |c.servers|
    requires c' == DoRunSnapshot(c, tid) && StepOf(c, c', i) && AcksIn(c.hist)
    requires ServerOk(c.hist, |c.servers|, c.servers[i], i) && SafeServer(c.hist, |c.servers|, c.servers[i], i)
    ensures GoodSafe(c, c', i)
  {
    CommitStored(c.hist, |c.servers|, c.servers[i], i);
    SnapshotPrefix(c.hist, |c.servers|, c.servers[i], i);
  }

  // -------------------------------------------------------------- installing

  /** A clean installation puts the snapshot in the place of a log no longer than it, or changes no entry. */
  ghost predicate InstallsCleanly(full: seq<Entry>, r: seq<Entry>, prefix: seq<Entry>) {
    || (r == prefix && |full| <= |prefix|)
    || (r == full && |prefix| <= |full| && full[..|prefix|] == prefix)
  }

  lemma CleanInstall(h: History, s: Server, a: SnapArgs, prefix: seq<Entry>)
    requires s.node.Valid() && Synced(s) && Matches(h, s.full) && Matches(h, prefix)
    requires a.snapIndex == |prefix| && a.snapTerm == TermAt(prefix, |prefix|)
    requires Installs(s.node, a) && CleanSnapshot(s.node, a)
    ensures InstallsCleanly(s.full, InstalledLog(s.full, prefix), prefix)
  {
    SyncedLast(s);
    if |s.full| > |prefix| {
      var k := |prefix|;
      SyncedTerm(s, k);
      assert MatchAt(h, s.full, k - 1) && MatchAt(h, prefix, k - 1);
      assert s.full[..k] == prefix[..k] == prefix;
      assert s.full == s.full[..k] + s.full[k..];
    }
  }

  ghost predicate AllComplete(h: History, n: nat) {
    forall w | w in h.reigns :: Complete(h, n, w) && h.reigns[w].start <= h.reigns[w].log
  }

  lemma AllAreComplete(c: Cluster)
    requires Inv(c) && Safe(c)
    ensures AllComplete(c.hist, |c.servers|)
  {
    forall w | w in c.hist.reigns ensures Complete(c.hist, |c.servers|, w) && c.hist.reigns[w].start <= c.hist.reigns[w].log {
      LeadersAreComplete(c, w);
      StartInLog(c, w);
    }
  }

  /** Committed entries hold what was acknowledged of a log no longer, unless their leader lacked it. */
  lemma CommittedKeepsAck(h: History, n: nat, full: seq<Entry>, prefix: seq<Entry>, t: nat, bound: nat, w: nat, k: nat, a: Ack)
    requires AllComplete(h, n) && AckKept(h, full, t, a) && t <= bound && a.term in h.reigns && a.index <= |h.reigns[a.term].log|
    requires CertifiedBy(h, n, prefix, |prefix|, bound, w, k) && |full| <= |prefix|
    ensures AckKept(h, prefix, bound, a)
  {
    if OwnEntry(h, a.term, a.index) {
      if Holds(h, full, a.term, a.index) {
        TakeLess(prefix, h.reigns[w].log, |prefix|, a.index);
        if w > a.term {
          if Holds(h, h.reigns[w].start, a.term, a.index) {
            HoldsLonger(h, h.reigns[w].start, h.reigns[w].log, a.term, a.index);
          } else {
            assert Skipped(h, a.term, a.index, w, bound);
          }
        } else {
          assert Complete(h, n, a.term);
          TakeLess(h.reigns[a.term].log, h.reigns[w].log, k, a.index);
        }
      } else {
        var v: nat :| Skipped(h, a.term, a.index, v, t);
        assert Skipped(h, a.term, a.index, v, bound);
      }
    }
  }

  /** A candidate over whose log a snapshot of its own term's number is installed. */
  lemma CandidateInstalls(h: History, n: nat, s: Server, s': Server, i: nat, w: nat, k: nat)
    requires CandidateCarries(h, n, s, i) && |s.full| <= |s'.full|
    requires s'.node.term == s.node.term || VoteKey(s'.node.term, i) !in h.votes
    requires CertifiedBy(h, n, s'.full, |s'.full|, s'.node.term, w, k)
    ensures CandidateCarries(h, n, s', i)
  {
    assert w < s'.node.term || s'.node.term in h.reigns;
    if s'.node.term !in h.reigns { assert CoveredBy(h, n, s'.full, s'.node.term, w, k); }
  }

  lemma ReplacedServer(h: History, n: nat, s: Server, s': Server, i: nat)
    requires SafeServer(h, n, s, i) && AcksIn(h) && AllComplete(h, n) && SafePrefix(h, n, s'.full, s'.node.term)
    requires |s.full| <= |s'.full| == s'.node.commit && s'.full != [] && s.node.term <= s'.node.term
    requires s'.node.term == s.node.term || VoteKey(s'.node.term, i) !in h.votes
    ensures SafeServer(h, n, s', i)
  {
    var w: nat, k: nat :| CertifiedBy(h, n, s'.full, |s'.full|, s'.node.term, w, k);
    CandidateInstalls(h, n, s, s', i, w, k);
    forall a | a in h.acks && a.node == i
      ensures AckKept(h, s'.full, s'.node.term, a)
    {
      CommittedKeepsAck(h, n, s.full, s'.full, s.node.term, s'.node.term, w, k, a);
    }
  }

  lemma KeptServer(h: History, n: nat, s: Server, s': Server, i: nat, prefix: seq<Entry>)
    requires SafeServer(h, n, s, i) && AcksIn(h) && SafePrefix(h, n, prefix, s'.node.term)
    requires s'.full == s.full && |prefix| <= |s.full| && s.full[..|prefix|] == prefix
    requires s'.node.commit == Max(s.node.commit, |prefix|) && s.node.term <= s'.node.term
    requires s'.node.term == s.node.term || VoteKey(s'.node.term, i) !in h.votes
    ensures SafeServer(h, n, s', i)
  {
    SteadyServer(h, n, s, s'.(node := s'.node.(commit := s.node.commit)), i);
    if s'.node.commit == |prefix| {
      CertifiedGrows(h, h, 0, n, prefix, s'.full, |prefix|, s'.node.term, s'.node.term);
    }
  }

  lemma InstalledServerSafe(h: History, n: nat, s: Server, s': Server, i: nat, prefix: seq<Entry>)
    requires SafeServer(h, n, s, i) && AcksIn(h) && AllComplete(h, n) && SafePrefix(h, n, prefix, s'.node.term) && prefix != []
    requires InstallsCleanly(s.full, s'.full, prefix) && s.node.commit <= |s.full|
    requires s'.node.commit == Max(s.node.commit, |prefix|) && s.node.term <= s'.node.term
    requires s'.node.term == s.node.term || VoteKey(s'.node.term, i) !in h.votes
    ensures SafeServer(h, n, s', i)
  {
    if s'.full == prefix && |s.full| <= |prefix| {
      ReplacedServer(h, n, s, s', i);
    } else {
      KeptServer(h, n, s, s', i, prefix);
    }
  }

  /** What the delivery of a snapshot changes. */
  ghost predicate Delivering(c: Cluster, c': Cluster, i: nat, a: SnapArgs, prefix: seq<Entry>)
    requires i < |c.servers| == |c'.servers|
  {
    var s, s' := c.servers[i], c'.servers[i];
    && c'.hist == c.hist && s.node.term <= s'.node.term
    && (s'.node.term == s.node.term || VoteKey(s'.node.term, i) !in c.hist.votes)
    && (if Installs(s.node, a) then
          && s'.node.term == a.term && s'.node.commit == Max(s.node.commit, a.snapIndex)
          && s'.full == InstalledLog(s.full, prefix)
        else s'.full == s.full && s'.node.commit == s.node.commit)
    && (forall x | x in c'.threads :: (x in c.threads && c'.threads[x] == c.threads[x]) || Plain(c'.threads[x]))
  }

  lemma DeliverSnapshotShape(c: Cluster, c': Cluster, tid: ThreadId, i: nat)
    requires tid in c.threads && c.threads[tid].SnapSent? && i == c.threads[tid].to && i < |c.servers| == |c'.servers|
    requires c.servers[i].node.Valid() && c' == DoDeliverSnapshot(c, tid)
    requires var t := c.threads[tid].snapArgs.term; t > c.servers[i].node.term ==> VoteKey(t, i) !in c.hist.votes
    ensures Delivering(c, c', i, c.threads[tid].snapArgs, c.threads[tid].prefix)
  {
  }

  lemma DeliveredSafe(c: Cluster, c': Cluster, i: nat, a: SnapArgs, prefix: seq<Entry>)
    requires StepOf(c, c', i) && Delivering(c, c', i, a, prefix)
    requires AcksIn(c.hist) && AllComplete(c.hist, |c.servers|)
    requires ServerOk(c.hist, |c.servers|, c.servers[i], i) && SafeServer(c.hist, |c.servers|, c.servers[i], i)
    requires CleanSnapshot(c.servers[i].node, a)
    requires SafePrefix(c.hist, |c.servers|, prefix, a.term)
    requires a.snapIndex == |prefix| && a.snapTerm == TermAt(prefix, |prefix|)
    ensures GoodSafe(c, c', i)
  {
    var h, n, s, s' := c.hist, |c.servers|, c.servers[i], c'.servers[i];
    if Installs(s.node, a) {
      CommitStored(h, n, s, i);
      CleanInstall(h, s, a, prefix);
      InstalledServerSafe(h, n, s, s', i, prefix);
    } else {
      SteadyServer(h, n, s, s', i);
    }
  }

  lemma SentPrefix(c: Cluster, tid: ThreadId)
    requires ThreadsOk(c) && tid in c.threads && c.threads[tid].SnapSent?
    ensures var th := c.threads[tid]; th.snapArgs.snapIndex == |th.prefix| && th.snapArgs.snapTerm == TermAt(th.prefix, |th.prefix|)
  {
    assert ThreadOk(c, tid, c.threads[tid]);
    assert SnapThreadOk(c, tid, c.threads[tid]);
  }

  lemma ThreadIsSafe(c: Cluster, tid: ThreadId)
    requires Safe(c) && tid in c.threads
    ensures SafeThread(c.hist, |c.servers|, c.threads[tid])
  {
  }

  lemma DeliverSnapshotSafe(c: Cluster, c': Cluster, tid: ThreadId, i: nat)
    requires Inv(c) && Safe(c) && tid in c.threads && c.threads[tid].SnapSent? && i == c.threads[tid].to
    requires i < |c.servers| == |c'.servers| && c.servers[i].node.Valid() && CleanSnapshot(c.servers[i].node, c.threads[tid].snapArgs)
    requires c' == DoDeliverSnapshot(c, tid) && StepOf(c, c', i) && AcksIn(c.hist)
    ensures GoodSafe(c, c', i)
  {
    var th := c.threads[tid];
    if th.snapArgs.term > c.servers[i].node.term { NoFutureVote(c, th.snapArgs.term, i); }
    DeliverSnapshotShape(c, c', tid, i);
    AllAreComplete(c);
    SentPrefix(c, tid);
    ThreadIsSafe(c, tid);
    DeliveredSafe(c, c', i, th.snapArgs, th.prefix);
  }
}
