/**
  Log Matching, Leader Completeness and State Machine Safety over the clean runs:
  an AppendEntries that is accepted and overwrites a conflicting entry reaches at
  least the receiver's last index, and a snapshot that is installed reaches the
  receiver's last index or meets an entry of its own term at its boundary.
 */
module RaftAgreement {
  import opened RaftTypes
  import opened RaftHandlers
  import opened RaftCluster
  import opened RaftInvariant
  import opened RaftElection
  import opened RaftReplication
  import opened RaftNodeLaws
  import opened RaftSafety
  import opened RaftSafeSteps
  import opened RaftSafeSnapshots
  import opened RaftSafeRuns
  import opened RaftTheorems
  import opened RaftProgress

  ghost predicate CleanRun(states: seq<Cluster>, labels: seq<Label>)
    requires |states| == |labels| + 1
  {
    forall k {:trigger labels[k]} | 0 <= k < |labels| ::
      WellTyped(states[k]) && Enabled(states[k], labels[k]) && Clean(states[k], labels[k])
  }

  lemma StepSafe(c: Cluster, l: Label, c': Cluster)
    requires Inv(c) && Safe(c) && Steps(c, l, c') && Clean(c, l)
    ensures Safe(c')
  {
    NextKeepsSafe(c, l);
  }

  lemma {:induction false} RunSafe(n: nat, states: seq<Cluster>, labels: seq<Label>, k: nat)
    requires Run(n, states, labels) && CleanRun(states, labels) && k < |states|
    ensures Inv(states[k]) && Safe(states[k]) && |states[k].servers| == n
  {
    RunInv(n, states, labels, k);
    if k == 0 {
      InitSafe(n);
    } else {
      RunSafe(n, states, labels, k - 1);
      StepSafe(states[k - 1], labels[k - 1], states[k]);
    }
  }

  // -------------------------------------------------------------- log matching

  /** The two logs hold entries of one term at position `p`. */
  ghost predicate Share(x: seq<Entry>, y: seq<Entry>, p: nat) {
    p < |x| && p < |y| && x[p].term == y[p].term
  }

  lemma ServerMatches(c: Cluster, i: nat, p: nat)
    requires Safe(c) && i < |c.servers| && p < |c.servers[i].full|
    ensures MatchAt(c.hist, c.servers[i].full, p)
  {
    assert SafeServer(c.hist, |c.servers|, c.servers[i], i);
  }

  lemma SharedPrefix(h: History, h': History, x: seq<Entry>, y: seq<Entry>, p: nat)
    requires Share(x, y, p) && MatchAt(h, x, p) && MatchAt(h', y, p) && ReignLasts(h, h', x[p].term)
    ensures x[..p + 1] == y[..p + 1]
  {
    var a, b := h.reigns[x[p].term].log, h'.reigns[x[p].term].log;
    TakeLess(a, b, |a|, p + 1);
  }

  /** Log Matching: logs that share an entry of equal index and term, at any two
      moments, agree on it and on every earlier entry. */
  lemma LogMatching(n: nat, states: seq<Cluster>, labels: seq<Label>, j: nat, k: nat, a: nat, b: nat, p: nat)
    requires Run(n, states, labels) && CleanRun(states, labels) && j <= k < |states|
    requires a < |states[j].servers| && b < |states[k].servers| && Share(states[j].servers[a].full, states[k].servers[b].full, p)
    ensures states[j].servers[a].full[..p + 1] == states[k].servers[b].full[..p + 1]
  {
    RunSafe(n, states, labels, j);
    RunSafe(n, states, labels, k);
    ServerMatches(states[j], a, p);
    ServerMatches(states[k], b, p);
    RunReign(n, states, labels, j, k, states[j].servers[a].full[p].term);
    SharedPrefix(states[j].hist, states[k].hist, states[j].servers[a].full, states[k].servers[b].full, p);
  }

  // ------------------------------------------------ exactly the clean deliveries

  /** A kept tail behind an overwritten entry no longer follows what its leader's log has before it. */
  lemma KeptTailMismatches(h: History, full: seq<Entry>, prev: nat, entries: seq<Entry>)
    requires Matches(h, full) && prev <= |full| && Conflict(full, prev, entries) && prev + |entries| < |full|
    ensures !Matches(h, Overwrite(full, prev, entries))
  {
    var r, q := Overwrite(full, prev, entries), |full| - 1;
    var k :| 0 <= k < |entries| && prev + k < |full| && full[prev + k].term != entries[k].term;
    OverwriteAt(full, prev, entries, prev + k);
    OverwriteAt(full, prev, entries, q);
    assert MatchAt(h, full, q);
    var src := h.reigns[full[q].term].log;
    assert full[..q + 1][prev + k] == src[..q + 1][prev + k];
    assert r[..q + 1][prev + k] != src[..q + 1][prev + k];
    assert !MatchAt(h, r, q);
  }

  lemma StoredConflict(s: Server, prev: nat, entries: seq<Entry>)
    requires Synced(s) && s.node.snapIndex <= prev
    ensures Conflict(s.node.logs, prev - s.node.snapIndex, entries) <==> Conflict(s.full, prev, entries)
  {
  }

  /** An accepted delivery that is not clean leaves a log that no longer matches. */
  lemma UncleanMismatches(c: Cluster, c': Cluster, tid: ThreadId, s: Server)
    requires tid.AppendThread? && tid in c.threads && c.threads[tid].AppendSent? && tid.peer < |c.servers| && s == c.servers[tid.peer]
    requires ServerOk(c.hist, |c.servers|, s, tid.peer) && Matches(c.hist, s.full) && FromLeader(c.hist, c.threads[tid].args)
    requires var t := c.threads[tid].args.term; t > s.node.term ==> VoteKey(t, tid.peer) !in c.hist.votes
    requires c' == DoDeliverAppend(c, tid) && !CleanAppend(s.node, c.threads[tid].args) && |c'.servers| == |c.servers|
    ensures !Matches(c'.hist, c'.servers[tid.peer].full)
  {
    var a := c.threads[tid].args;
    AcceptedShape(c, c', tid);
    UncleanOverwrite(c.hist, s, a);
    SameReignsMatch(c.hist, c'.hist, c'.servers[tid.peer].full);
  }

  lemma UncleanOverwrite(h: History, s: Server, a: AppendArgs)
    requires s.node.Valid() && Synced(s) && Matches(h, s.full) && !CleanAppend(s.node, a)
    ensures a.prevIndex <= |s.full| && !Matches(h, Overwrite(s.full, a.prevIndex, a.entries))
  {
    SyncedLast(s);
    StoredConflict(s, a.prevIndex, a.entries);
    KeptTailMismatches(h, s.full, a.prevIndex, a.entries);
  }

  lemma SameReignsMatch(h: History, h': History, log: seq<Entry>)
    requires h'.reigns == h.reigns
    ensures Matches(h', log) <==> Matches(h, log)
  {
    forall p: nat | p < |log| ensures MatchAt(h', log, p) <==> MatchAt(h, log, p) { }
  }

  /** A suffix kept behind a boundary entry of another term no longer follows what its leader's log has before it. */
  lemma KeptSuffixMismatches(h: History, full: seq<Entry>, prefix: seq<Entry>)
    requires Matches(h, full) && 1 <= |prefix| < |full| && full[|prefix| - 1].term != TermAt(prefix, |prefix|)
    ensures !Matches(h, InstalledLog(full, prefix))
  {
    var r, q := InstalledLog(full, prefix), |full| - 1;
    assert MatchAt(h, full, q);
    var src, k := h.reigns[full[q].term].log, |prefix| - 1;
    assert full[..q + 1][k] == src[..q + 1][k];
    assert r[..q + 1][k] != src[..q + 1][k];
    assert !MatchAt(h, r, q);
  }

  lemma UncleanSnapshotMismatches(h: History, h': History, s: Server, r: seq<Entry>, a: SnapArgs, prefix: seq<Entry>)
    requires s.node.Valid() && Synced(s) && Matches(h, s.full) && h'.reigns == h.reigns
    requires a.snapIndex == |prefix| && a.snapTerm == TermAt(prefix, |prefix|) && r == InstalledLog(s.full, prefix)
    requires !CleanSnapshot(s.node, a)
    ensures !Matches(h', r)
  {
    SyncedLast(s);
    SyncedTerm(s, |prefix|);
    KeptSuffixMismatches(h, s.full, prefix);
    SameReignsMatch(h, h', r);
  }

  /** What a step delivers, and to whom; only deliveries can be unclean. */
  predicate Delivers(l: Label) { l.DeliverAppend? || l.DeliverSnapshot? }

  /** The condition is exact: after a clean run, the delivery of an AppendEntries or of a
      snapshot leaves its receiver a log that matches the logs of its entries' leaders
      if and only if the delivery is clean. */
  lemma CleanIsExact(n: nat, states: seq<Cluster>, labels: seq<Label>, l: Label, c': Cluster)
    requires Run(n, states, labels) && CleanRun(states, labels) && Steps(states[|labels|], l, c') && Delivers(l)
    ensures Actor(states[|labels|], l) < |c'.servers|
    ensures Matches(c'.hist, c'.servers[Actor(states[|labels|], l)].full) <==> Clean(states[|labels|], l)
  {
    RunSafe(n, states, labels, |labels|);
    DeliveryMatches(states[|labels|], l, c');
  }

  lemma DeliveryMatches(c: Cluster, l: Label, c': Cluster)
    requires Inv(c) && Safe(c) && Steps(c, l, c') && Delivers(l)
    ensures Actor(c, l) < |c'.servers|
    ensures Matches(c'.hist, c'.servers[Actor(c, l)].full) <==> Clean(c, l)
  {
    NextKeepsInv(c, l);
    if Clean(c, l) {
      StepSafe(c, l, c');
      LogMatches(c', Actor(c, l));
    } else if l.DeliverAppend? {
      UncleanAppend(c, c', AppendThread(l.round, l.peer), l.peer);
    } else {
      UncleanSnapshot(c, c', SnapThread(l.serial), c.threads[SnapThread(l.serial)].to);
    }
  }

  lemma UncleanAppend(c: Cluster, c': Cluster, tid: ThreadId, p: nat)
    requires Inv(c) && Safe(c) && tid.AppendThread? && tid in c.threads && c.threads[tid].AppendSent?
    requires p == tid.peer && p < |c.servers| == |c'.servers| && c.servers[p].node.Valid()
    requires !CleanAppend(c.servers[p].node, c.threads[tid].args) && c' == DoDeliverAppend(c, tid)
    ensures !Matches(c'.hist, c'.servers[p].full)
  {
    LogMatches(c, p);
    LeaderMessage(c, tid);
    if c.threads[tid].args.term > c.servers[p].node.term { NoFutureVote(c, c.threads[tid].args.term, p); }
    UncleanMismatches(c, c', tid, c.servers[p]);
  }

  lemma UncleanSnapshot(c: Cluster, c': Cluster, tid: ThreadId, i: nat)
    requires Inv(c) && Safe(c) && tid in c.threads && c.threads[tid].SnapSent? && i == c.threads[tid].to
    requires i < |c.servers| == |c'.servers| && c.servers[i].node.Valid()
    requires !CleanSnapshot(c.servers[i].node, c.threads[tid].snapArgs) && c' == DoDeliverSnapshot(c, tid)
    ensures !Matches(c'.hist, c'.servers[i].full)
  {
    var th := c.threads[tid];
    LogMatches(c, i);
    SyncedServer(c, i);
    SentPrefix(c, tid);
    if th.snapArgs.term > c.servers[i].node.term { NoFutureVote(c, th.snapArgs.term, i); }
    DeliverSnapshotShape(c, c', tid, i);
    UncleanSnapshotMismatches(c.hist, c'.hist, c.servers[i], c'.servers[i].full, th.snapArgs, th.prefix);
  }

  lemma LogMatches(c: Cluster, i: nat)
    requires Safe(c) && i < |c.servers|
    ensures Matches(c.hist, c.servers[i].full)
  {
    assert SafeServer(c.hist, |c.servers|, c.servers[i], i);
  }

  /** In matching logs a taken over segment means the whole log up to its end. */
  lemma SegmentIsWhole(h: History, full: seq<Entry>, log: seq<Entry>, prev: nat, index: nat)
    requires Matches(h, full) && Matches(h, log) && AcceptedFrom(full, log, prev, index)
    ensures full[..index] == log[..index]
  {
    if prev > 0 { assert MatchAt(h, full, prev - 1) && MatchAt(h, log, prev - 1); }
    assert full[..index] == full[..prev] + full[prev..index];
    assert log[..index] == log[..prev] + log[prev..index];
  }

  lemma TakenOverWhole(c: Cluster, a: Ack, prev: nat)
    requires Safe(c) && TakenOver(c, a, prev)
    ensures TakenOver(c, a, 0)
  {
    LogMatches(c, a.node);
    SafeAt(c, a.term);
    SegmentIsWhole(c.hist, c.servers[a.node].full, c.hist.reigns[a.term].log, prev, a.index);
  }

  /** In clean runs every acknowledgement was, at some earlier moment, the possession of the whole
      leader log up to its index. */
  lemma AckHeldWhole(n: nat, states: seq<Cluster>, labels: seq<Label>, k: nat, a: Ack)
    requires Run(n, states, labels) && CleanRun(states, labels) && k < |states| && a in states[k].hist.acks
    ensures exists m: nat | m <= k :: TakenOver(states[m], a, 0)
  {
    AckWasAccepted(n, states, labels, k, a);
    var m: nat :| m < k && AcceptedIn(states, labels, m, a);
    RunSafe(n, states, labels, m + 1);
    var prev: nat := if labels[m].HeartBeat? then 0
      else states[m].threads[AppendThread(labels[m].round, labels[m].peer)].args.prevIndex;
    TakenOverWhole(states[m + 1], a, prev);
  }

  // -------------------------------------------------------- leader completeness

  /** Every leader's log holds all that a majority acknowledged in an earlier term. */
  lemma LeadersHoldCommitted(n: nat, states: seq<Cluster>, labels: seq<Label>, k: nat, i: nat, t: nat, index: nat)
    requires Run(n, states, labels) && CleanRun(states, labels) && k < |states| && i < |states[k].servers|
    requires Leads(states[k], i, states[k].servers[i].node.term)
    requires Committed(states[k].hist, |states[k].servers|, t, index) && t <= states[k].servers[i].node.term
    ensures index <= |states[k].servers[i].full|
    ensures states[k].servers[i].full[..index] == states[k].hist.reigns[t].log[..index]
  {
    var c, u := states[k], states[k].servers[i].node.term;
    RunSafe(n, states, labels, k);
    LeaderReigns(c, i);
    LeadersAreComplete(c, u);
    CompleteHolds(c.hist, |c.servers|, u, t, index);
  }

  lemma CompleteHolds(h: History, n: nat, w: nat, t: nat, index: nat)
    requires Complete(h, n, w) && Committed(h, n, t, index) && t <= w
    ensures Holds(h, h.reigns[w].log, t, index)
  {
  }

  // ------------------------------------------------------------ committed logs

  lemma CertificatesAgree(c: Cluster, x: seq<Entry>, y: seq<Entry>, t: nat, i: nat, u: nat, j: nat, m: nat, k: nat, q: nat)
    requires Inv(c) && Safe(c) && t <= u && k <= m && k <= q
    requires CertifiedBy(c.hist, |c.servers|, x, m, t, t, i) && CertifiedBy(c.hist, |c.servers|, y, q, u, u, j)
    ensures x[..k] == y[..k]
  {
    LeadersAreComplete(c, u);
    CompleteHolds(c.hist, |c.servers|, u, t, i);
    var a, b := c.hist.reigns[t].log, c.hist.reigns[u].log;
    TakeLess(b, a, i, k);
    TakeLess(x, a, m, k);
    TakeLess(y, b, q, k);
  }

  lemma Certificate(h: History, n: nat, x: seq<Entry>, k: nat, bound: nat) returns (t: nat, index: nat)
    requires Certified(h, n, x, k, bound) && k > 0
    ensures CertifiedBy(h, n, x, k, t, t, index)
  {
    var u: nat, i: nat :| CertifiedBy(h, n, x, k, bound, u, i);
    t, index := u, i;
  }

  /** Two servers agree on what both have committed. */
  lemma CommittedAgree(c: Cluster, a: nat, b: nat, k: nat)
    requires Inv(c) && Safe(c) && a < |c.servers| && b < |c.servers|
    requires k <= c.servers[a].node.commit && k <= c.servers[b].node.commit
    ensures k <= |c.servers[a].full| && k <= |c.servers[b].full| && c.servers[a].full[..k] == c.servers[b].full[..k]
  {
    CommitInLog(c, a);
    CommitInLog(c, b);
    if k > 0 {
      var h, n := c.hist, |c.servers|;
      var x, y := c.servers[a], c.servers[b];
      assert SafeServer(h, n, x, a) && SafeServer(h, n, y, b);
      var t, i := Certificate(h, n, x.full, x.node.commit, x.node.term);
      var u, j := Certificate(h, n, y.full, y.node.commit, y.node.term);
      if t <= u {
        CertificatesAgree(c, x.full, y.full, t, i, u, j, x.node.commit, k, y.node.commit);
      } else {
        CertificatesAgree(c, y.full, x.full, u, j, t, i, y.node.commit, k, x.node.commit);
      }
    }
  }

  lemma CommitInLog(c: Cluster, i: nat)
    requires ServersOk(c) && i < |c.servers|
    ensures c.servers[i].node.applied <= c.servers[i].node.commit <= |c.servers[i].full|
  {
    assert ServerOk(c.hist, |c.servers|, c.servers[i], i);
  }

  // --------------------------------------------- committed prefixes never change

  lemma FullSame(c: Cluster, l: Label, i: nat)
    requires WellTyped(c) && Enabled(c, l) && i < |c.servers| && !l.DeliverAppend? && !l.DeliverSnapshot? && !l.ClientStart?
    ensures |Next(c, l).servers| == |c.servers| && Next(c, l).servers[i].full == c.servers[i].full
  {
  }

  ghost predicate KeepsCommitted(s: Server, s': Server) {
    s.node.commit <= |s.full| && s.node.commit <= |s'.full| && s'.full[..s.node.commit] == s.full[..s.node.commit]
  }

  lemma MergeKeepsCommitted(h: History, n: nat, s: Server, s': Server, a: AppendArgs)
    requires Complete(h, n, a.term) && s.node.term <= a.term && Certified(h, n, s.full, s.node.commit, s.node.term)
    requires s.node.commit <= |s.full| && Merged(s.full, s'.full, h.reigns[a.term].log, a.End())
    ensures KeepsCommitted(s, s')
  {
    var k := s.node.commit;
    if k > 0 {
      var t: nat, index: nat :| CertifiedBy(h, n, s.full, k, s.node.term, t, index);
      MergePrefix(s.full, s'.full, h.reigns[a.term].log, h.reigns[t].log, a.End(), k, index);
    }
  }

  lemma AppendKeepsCommitted(c: Cluster, c': Cluster, tid: ThreadId, p: nat, a: AppendArgs)
    requires tid.AppendThread? && tid in c.threads && c.threads[tid] == AppendSent(a) && p == tid.peer && p < |c.servers| == |c'.servers|
    requires ServerOk(c.hist, |c.servers|, c.servers[p], p) && SafeServer(c.hist, |c.servers|, c.servers[p], p)
    requires FromLeader(c.hist, a) && Matches(c.hist, c.hist.reigns[a.term].log) && Complete(c.hist, |c.servers|, a.term)
    requires a.term > c.servers[p].node.term ==> VoteKey(a.term, p) !in c.hist.votes
    requires CleanAppend(c.servers[p].node, a) && c' == DoDeliverAppend(c, tid)
    ensures KeepsCommitted(c.servers[p], c'.servers[p])
  {
    var r := AppendEntries(c.servers[p].node, a);
    if r.Done? && r.reply.success {
      DeliverAppendShape(c, c', tid);
      MergeKeepsCommitted(c.hist, |c.servers|, c.servers[p], c'.servers[p], a);
    } else {
      RefusedShape(c, c', tid);
    }
  }

  lemma DeliverKeepsCommitted(c: Cluster, c': Cluster, tid: ThreadId, p: nat)
    requires Inv(c) && Safe(c) && tid.AppendThread? && tid in c.threads && c.threads[tid].AppendSent?
    requires p == tid.peer && p < |c.servers| == |c'.servers|
    requires CleanAppend(c.servers[p].node, c.threads[tid].args) && c' == DoDeliverAppend(c, tid)
    ensures KeepsCommitted(c.servers[p], c'.servers[p])
  {
    var a := c.threads[tid].args;
    LeaderMessage(c, tid);
    if a.term > c.servers[p].node.term { NoFutureVote(c, a.term, p); }
    ReignIsSafe(c, a.term);
    LeadersAreComplete(c, a.term);
    AppendKeepsCommitted(c, c', tid, p, a);
  }

  lemma InstallKeepsCommitted(c: Cluster, s: Server, s': Server, prefix: seq<Entry>, bound: nat)
    requires Inv(c) && Safe(c) && Certified(c.hist, |c.servers|, s.full, s.node.commit, s.node.term) && s.node.commit <= |s.full|
    requires Certified(c.hist, |c.servers|, prefix, |prefix|, bound) && InstallsCleanly(s.full, s'.full, prefix)
    ensures KeepsCommitted(s, s')
  {
    var h, n, k := c.hist, |c.servers|, s.node.commit;
    if k > 0 && s'.full == prefix && |s.full| <= |prefix| {
      var t, i := Certificate(h, n, s.full, k, s.node.term);
      var u, j := Certificate(h, n, prefix, |prefix|, bound);
      if t <= u {
        CertificatesAgree(c, s.full, prefix, t, i, u, j, k, k, |prefix|);
      } else {
        CertificatesAgree(c, prefix, s.full, u, j, t, i, |prefix|, k, k);
      }
    }
  }

  lemma SnapshotKeepsCommitted(c: Cluster, c': Cluster, tid: ThreadId, i: nat)
    requires Inv(c) && Safe(c) && tid in c.threads && c.threads[tid].SnapSent? && i == c.threads[tid].to
    requires i < |c.servers| == |c'.servers| && c.servers[i].node.Valid()
    requires CleanSnapshot(c.servers[i].node, c.threads[tid].snapArgs) && c' == DoDeliverSnapshot(c, tid)
    ensures KeepsCommitted(c.servers[i], c'.servers[i])
  {
    var th, s := c.threads[tid], c.servers[i];
    if th.snapArgs.term > s.node.term { NoFutureVote(c, th.snapArgs.term, i); }
    DeliverSnapshotShape(c, c', tid, i);
    CommitInLog(c, i);
    SentPrefix(c, tid);
    ThreadIsSafe(c, tid);
    if Installs(s.node, th.snapArgs) {
      CertifiedServer(c, i);
      CleanInstall(c.hist, s, th.snapArgs, th.prefix);
      InstallKeepsCommitted(c, s, c'.servers[i], th.prefix, th.snapArgs.term);
    }
  }

  lemma CertifiedServer(c: Cluster, i: nat)
    requires Safe(c) && ServersOk(c) && i < |c.servers|
    ensures Certified(c.hist, |c.servers|, c.servers[i].full, c.servers[i].node.commit, c.servers[i].node.term)
    ensures Matches(c.hist, c.servers[i].full) && Synced(c.servers[i])
  {
    assert SafeServer(c.hist, |c.servers|, c.servers[i], i);
    assert ServerOk(c.hist, |c.servers|, c.servers[i], i);
  }

  lemma OthersSame(c: Cluster, c': Cluster, i: nat, p: nat)
    requires StepOf(c, c', p) && i < |c.servers| && i != p && c.servers[i].node.commit <= |c.servers[i].full|
    ensures KeepsCommitted(c.servers[i], c'.servers[i])
  {
  }

  lemma StartKeepsCommitted(c: Cluster, c': Cluster, p: nat, op: Op)
    requires p < |c.servers| == |c'.servers| && c' == DoStart(c, p, op) && c.servers[p].node.commit <= |c.servers[p].full|
    ensures KeepsCommitted(c.servers[p], c'.servers[p])
  {
  }

  /** A clean step changes no committed entry. */
  lemma StepKeepsCommitted(c: Cluster, l: Label, c': Cluster, i: nat)
    requires Inv(c) && Safe(c) && Steps(c, l, c') && Clean(c, l) && i < |c.servers|
    ensures i < |c'.servers| && KeepsCommitted(c.servers[i], c'.servers[i])
  {
    NextKeepsInv(c, l);
    CommitInLog(c, i);
    if i != Actor(c, l) {
      OthersSame(c, c', i, Actor(c, l));
    } else if l.DeliverAppend? {
      DeliverKeepsCommitted(c, c', AppendThread(l.round, l.peer), i);
    } else if l.DeliverSnapshot? {
      SnapshotKeepsCommitted(c, c', SnapThread(l.serial), i);
    } else if l.ClientStart? {
      StartKeepsCommitted(c, c', i, l.op);
    } else {
      FullSame(c, l, i);
    }
  }

  lemma KeepsOn(s: Server, s': Server, u: Server)
    requires KeepsCommitted(s, s') && KeepsCommitted(s', u) && s.node.commit <= s'.node.commit
    ensures KeepsCommitted(s, u)
  {
    TakeLess(u.full, s'.full, s'.node.commit, s.node.commit);
  }

  lemma NextCommitted(n: nat, states: seq<Cluster>, labels: seq<Label>, k: nat, i: nat)
    requires Run(n, states, labels) && CleanRun(states, labels) && k < |labels| && i < |states[k].servers|
    ensures i < |states[k + 1].servers| && KeepsCommitted(states[k].servers[i], states[k + 1].servers[i])
  {
    RunSafe(n, states, labels, k);
    StepKeepsCommitted(states[k], labels[k], states[k + 1], i);
  }

  /** Over a clean run, what a server has committed stays in its log. */
  lemma {:induction false} RunKeepsCommitted(n: nat, states: seq<Cluster>, labels: seq<Label>, j: nat, k: nat, i: nat)
    requires Run(n, states, labels) && CleanRun(states, labels) && j <= k < |states| && i < |states[j].servers|
    ensures i < |states[k].servers| && KeepsCommitted(states[j].servers[i], states[k].servers[i])
  {
    if j == k {
      RunSafe(n, states, labels, k);
      CommitInLog(states[k], i);
    } else {
      RunKeepsCommitted(n, states, labels, j, k - 1, i);
      NextCommitted(n, states, labels, k - 1, i);
      NodesAdvance(n, states, labels, j, k - 1, i);
      KeepsOn(states[j].servers[i], states[k - 1].servers[i], states[k].servers[i]);
    }
  }

  /** Over a clean run, two servers agree on what both have committed, whenever they did. */
  lemma CommittedForever(n: nat, states: seq<Cluster>, labels: seq<Label>, j: nat, k: nat, a: nat, b: nat, m: nat)
    requires Run(n, states, labels) && CleanRun(states, labels) && j <= k < |states|
    requires a < |states[j].servers| && b < |states[k].servers|
    requires m <= states[j].servers[a].node.commit && m <= states[k].servers[b].node.commit
    ensures m <= |states[j].servers[a].full| && m <= |states[k].servers[b].full|
    ensures states[j].servers[a].full[..m] == states[k].servers[b].full[..m]
  {
    RunKeepsCommitted(n, states, labels, j, k, a);
    NodesAdvance(n, states, labels, j, k, a);
    RunSafe(n, states, labels, k);
    CommittedAgree(states[k], a, b, m);
    TakeLess(states[k].servers[a].full, states[j].servers[a].full, states[j].servers[a].node.commit, m);
  }

  // ------------------------------------------------------- state machine safety

  /** Everything handed out is what the log still says. */
  ghost predicate Faithful(s: Server) {
    forall k | 0 <= k < |s.delivered| ::
      var m := s.delivered[k];
      1 <= m.index <= s.node.commit && m.index <= |s.full| && m.command == s.full[m.index - 1].command
  }

  lemma FaithfulStep(s: Server, s': Server, news: seq<ApplyMsg>)
    requires Faithful(s) && HandsOut(s, s', news) && KeepsCommitted(s, s') && s.node.commit <= s'.node.commit
    ensures Faithful(s')
  {
    forall k | 0 <= k < |s'.delivered|
      ensures var m := s'.delivered[k];
        1 <= m.index <= s'.node.commit && m.index <= |s'.full| && m.command == s'.full[m.index - 1].command
    {
      var m := s'.delivered[k];
      if k < |s.delivered| { assert m == s.delivered[k]; } else { assert m == news[k - |s.delivered|]; }
      assert s'.full[m.index - 1] == s'.full[..s.node.commit][m.index - 1] == s.full[..s.node.commit][m.index - 1];
    }
  }

  lemma StepFaithful(c: Cluster, l: Label, c': Cluster, i: nat)
    requires Inv(c) && Safe(c) && Steps(c, l, c') && Clean(c, l) && i < |c.servers| && Faithful(c.servers[i])
    ensures i < |c'.servers| && Faithful(c'.servers[i])
  {
    StepKeepsCommitted(c, l, c', i);
    NextAdvances(c, l, i);
    var news := StepHandsOut(c, l, i);
    FaithfulStep(c.servers[i], c'.servers[i], news);
  }

  lemma StartFaithful(n: nat, i: nat)
    requires n >= 2 && i < n
    ensures i < |Init(n).servers| && Faithful(Init(n).servers[i])
  {
  }

  lemma NextFaithful(n: nat, states: seq<Cluster>, labels: seq<Label>, k: nat, i: nat)
    requires Run(n, states, labels) && CleanRun(states, labels) && k < |labels|
    requires i < |states[k].servers| && Faithful(states[k].servers[i])
    ensures i < |states[k + 1].servers| && Faithful(states[k + 1].servers[i])
  {
    RunSafe(n, states, labels, k);
    StepFaithful(states[k], labels[k], states[k + 1], i);
  }

  lemma {:induction false} RunFaithful(n: nat, states: seq<Cluster>, labels: seq<Label>, k: nat, i: nat)
    requires Run(n, states, labels) && CleanRun(states, labels) && k < |states| && i < n
    ensures i < |states[k].servers| && Faithful(states[k].servers[i])
  {
    if k == 0 {
      StartFaithful(n, i);
    } else {
      RunFaithful(n, states, labels, k - 1, i);
      NextFaithful(n, states, labels, k - 1, i);
    }
  }

  lemma SameIndexSameCommand(s: Server, u: Server, x: nat, y: nat, p: nat)
    requires Faithful(s) && Faithful(u) && x < |s.delivered| && y < |u.delivered|
    requires s.delivered[x].index == p == u.delivered[y].index
    requires p <= |s.full| && p <= |u.full| && s.full[..p] == u.full[..p]
    ensures s.delivered[x].command == u.delivered[y].command
  {
    assert s.full[p - 1] == s.full[..p][p - 1];
    assert u.full[p - 1] == u.full[..p][p - 1];
  }

  lemma DeliveredIndex(s: Server, x: nat)
    requires Faithful(s) && x < |s.delivered|
    ensures 1 <= s.delivered[x].index <= s.node.commit
  {
  }

  lemma FaithfulAgree(c: Cluster, a: nat, b: nat, x: nat, y: nat, p: nat)
    requires Inv(c) && Safe(c) && a < |c.servers| && b < |c.servers| && Faithful(c.servers[a]) && Faithful(c.servers[b])
    requires x < |c.servers[a].delivered| && y < |c.servers[b].delivered|
    requires c.servers[a].delivered[x].index == p == c.servers[b].delivered[y].index
    ensures c.servers[a].delivered[x].command == c.servers[b].delivered[y].command
  {
    DeliveredIndex(c.servers[a], x);
    DeliveredIndex(c.servers[b], y);
    CommittedAgree(c, a, b, p);
    SameIndexSameCommand(c.servers[a], c.servers[b], x, y, p);
  }

  /** State Machine Safety: no two servers ever hand out different commands for one index,
      whenever they do so. */
  lemma StateMachineSafety(n: nat, states: seq<Cluster>, labels: seq<Label>, j: nat, k: nat, a: nat, b: nat, x: nat, y: nat)
    requires Run(n, states, labels) && CleanRun(states, labels) && j <= k < |states| && a < n && b < n
    requires a < |states[j].servers| && b < |states[k].servers|
    requires x < |states[j].servers[a].delivered| && y < |states[k].servers[b].delivered|
    requires states[j].servers[a].delivered[x].index == states[k].servers[b].delivered[y].index
    ensures states[j].servers[a].delivered[x].command == states[k].servers[b].delivered[y].command
  {
    ApplyStream(n, states, labels, j, k, a);
    RunFaithful(n, states, labels, k, a);
    RunFaithful(n, states, labels, k, b);
    RunSafe(n, states, labels, k);
    FaithfulAgree(states[k], a, b, x, y, states[j].servers[a].delivered[x].index);
  }
}
