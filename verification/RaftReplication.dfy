/** Replication, compaction and snapshot steps keep the invariant. */
module RaftReplication {
  import opened RaftTypes
  import opened RaftHandlers
  import opened RaftCluster
  import opened RaftInvariant
  import opened RaftElection

  // --------------------------------------------------------------- heartbeat

  lemma SuffixOfSuffix(log: seq<Entry>, snap: nat, prev: nat)
    requires snap <= prev <= |log|
    ensures log[snap..][prev - snap..] == log[prev..|log|]
  {
  }

  /** What a leader sends to one peer covers its log from there to the end. */
  lemma BeatCarries(h: History, n: nat, s: Server, i: nat, p: nat)
    requires ServerOk(h, n, s, i) && s.node.status == Leader && p < n && p != i
    ensures var b := BeatFor(s.node, p);
      && (b.SendAppend? || b.SendSnapshot?)
      && (b.SendAppend? ==>
          && b.args.term == s.node.term && b.args.leader == i && b.args.End() == |s.full|
          && b.args.entries == s.full[b.args.prevIndex..|s.full|] && b.args.prevTerm == TermAt(s.full, b.args.prevIndex)
          && b.args.leaderCommit <= |s.full| && b.args.Numbered())
  {
    SyncedLast(s);
    var nd := s.node;
    if nd.nextIndex[p] > nd.snapIndex {
      var prev: nat := nd.nextIndex[p] - 1;
      SyncedTerm(s, prev);
      SuffixOfSuffix(s.full, nd.snapIndex, prev);
    }
  }

  lemma BeatNeverFails(h: History, n: nat, s: Server, i: nat)
    requires ServerOk(h, n, s, i) && s.node.status == Leader
    ensures !BeatFails(s.node)
  {
    forall p: nat | p < n
      ensures !BeatFor(s.node, p).BeatHalts?
    {
      if p != i { BeatCarries(h, n, s, i, p); }
    }
  }

  /** The state after a leader's heartbeat. */
  ghost predicate Beaten(c: Cluster, c': Cluster, i: nat)
    requires i < |c.servers| && c.servers[i].node.Valid()
  {
    var s := c.servers[i];
    && c' == c.(
      threads := c.threads + AppendThreads(s.node, |c.rounds|) + SnapThreads(s.node, c.serials),
      rounds := c.rounds + [Round(i, s.node.term, |s.full|, 1, {}, false)],
      serials := c.serials + s.node.peers,
      hist := c.hist.(acks := c.hist.acks + {Ack(s.node.term, |s.full|, i)}))
  }

  lemma HeartBeatShape(c: Cluster, i: nat)
    requires i < |c.servers| && ServerOk(c.hist, |c.servers|, c.servers[i], i) && c.servers[i].node.status == Leader
    ensures Beaten(c, DoHeartBeat(c, i), i)
  {
    SyncedLast(c.servers[i]);
    BeatNeverFails(c.hist, |c.servers|, c.servers[i], i);
  }

  lemma HeartBeatAppend(c: Cluster, c': Cluster, i: nat, tid: ThreadId)
    requires i < |c.servers| && ServerOk(c.hist, |c.servers|, c.servers[i], i) && c.servers[i].node.status == Leader
    requires |c'.servers| == |c.servers| && c'.hist.reigns == c.hist.reigns
    requires tid.AppendThread? && tid.peer < |c.servers| && tid.peer != i && tid.round < |c'.rounds|
    requires c'.rounds[tid.round] == Round(i, c.servers[i].node.term, |c.servers[i].full|, 1, {}, false)
    requires BeatFor(c.servers[i].node, tid.peer).SendAppend?
    ensures ThreadOk(c', tid, AppendSent(BeatFor(c.servers[i].node, tid.peer).args))
  {
    BeatCarries(c.hist, |c.servers|, c.servers[i], i, tid.peer);
    var a := BeatFor(c.servers[i].node, tid.peer).args;
    assert Carries(c', c'.rounds[tid.round], a);
  }

  lemma HeartBeatSnapshot(c: Cluster, c': Cluster, i: nat, tid: ThreadId)
    requires i < |c.servers| == |c'.servers| && ServerTyped(c.servers[i], i, |c.servers|)
    requires c'.serials == c.serials + |c.servers|
    requires tid in SnapThreads(c.servers[i].node, c.serials)
    ensures ThreadOk(c', tid, SnapThreads(c.servers[i].node, c.serials)[tid])
  {
  }

  lemma HeartBeatNew(c: Cluster, c': Cluster, i: nat, tid: ThreadId)
    requires i < |c.servers| && ServerOk(c.hist, |c.servers|, c.servers[i], i) && c.servers[i].node.status == Leader
    requires Beaten(c, c', i)
    requires tid in AppendThreads(c.servers[i].node, |c.rounds|) || tid in SnapThreads(c.servers[i].node, c.serials)
    ensures tid in c'.threads && ThreadOk(c', tid, c'.threads[tid])
  {
    if tid in AppendThreads(c.servers[i].node, |c.rounds|) {
      HeartBeatAppend(c, c', i, tid);
      assert tid !in SnapThreads(c.servers[i].node, c.serials);
    } else {
      HeartBeatSnapshot(c, c', i, tid);
    }
  }

  lemma HeartBeatThreads(c: Cluster, c': Cluster, i: nat, touched: set<ThreadId>)
    requires i < |c.servers| && ServerOk(c.hist, |c.servers|, c.servers[i], i) && c.servers[i].node.status == Leader
    requires Beaten(c, c', i)
    requires touched == AppendThreads(c.servers[i].node, |c.rounds|).Keys + SnapThreads(c.servers[i].node, c.serials).Keys
    ensures NewThreadsOk(c, c', touched)
  {
    forall tid | tid in c'.threads && tid in touched
      ensures ThreadOk(c', tid, c'.threads[tid])
    {
      HeartBeatNew(c, c', i, tid);
    }
  }

  lemma HeartBeatRound(c: Cluster, c': Cluster, i: nat)
    requires i < |c.servers| && 2 <= |c.servers|
    requires ServerOk(c.hist, |c.servers|, c.servers[i], i) && c.servers[i].node.status == Leader
    requires Beaten(c, c', i)
    ensures StepOf(c, c', i) && NewRoundsOk(c, c') && NewHistoryOk(c, c') && NewElectionsOk(c, c')
    ensures ServerOk(c'.hist, |c.servers|, c'.servers[i], i)
  {
    assert RoundOk(c', c'.rounds[|c.rounds|]);
    LogFromGrows(c.hist, c'.hist, i, c.servers[i].full, c.servers[i].node.term, c.servers[i].node.term);
  }

  lemma HeartBeatKeepsInv(c: Cluster, i: nat)
    requires Inv(c) && i < |c.servers| && c.servers[i].node.status == Leader
    ensures Inv(DoHeartBeat(c, i)) && StepOf(c, DoHeartBeat(c, i), i)
  {
    var c', nd := DoHeartBeat(c, i), c.servers[i].node;
    HeartBeatShape(c, i);
    var touched := AppendThreads(nd, |c.rounds|).Keys + SnapThreads(nd, c.serials).Keys;
    HeartBeatThreads(c, c', i, touched);
    HeartBeatRound(c, c', i);
    GoodStepKeepsInv(c, c', i, touched);
  }

  // ----------------------------------------------------------- AppendEntries

  lemma AtTermServer(h: History, n: nat, s: Server, i: nat, t: nat)
    requires ServerOk(h, n, s, i) && t >= s.node.term && (t > s.node.term ==> VoteKey(t, i) !in h.votes)
    ensures ServerOk(h, n, s.(node := AtTerm(s.node, t)), i)
  {
    if t > s.node.term { StepDownServer(h, n, s, i, t); }
  }

  /** A message that carries a segment of the log of the leader of term `a.term`. */
  ghost predicate FromLeader(h: History, a: AppendArgs) {
    && a.term in h.reigns && a.End() <= |h.reigns[a.term].log| && LogFrom(h, h.reigns[a.term].log, a.term)
    && a.entries == h.reigns[a.term].log[a.prevIndex..a.End()]
    && a.prevTerm == TermAt(h.reigns[a.term].log, a.prevIndex)
    && a.leaderCommit <= a.End()
    && a.Numbered()
  }

  lemma OverwriteAt(log: seq<Entry>, at: nat, entries: seq<Entry>, k: nat)
    requires at <= |log| && k < |Overwrite(log, at, entries)|
    ensures |Overwrite(log, at, entries)| == Max(|log|, at + |entries|)
    ensures Overwrite(log, at, entries)[k] == if at <= k < at + |entries| then entries[k - at] else log[k]
  {
  }

  lemma OverwriteSuffix(log: seq<Entry>, snap: nat, at: nat, entries: seq<Entry>)
    requires snap <= at <= |log|
    ensures Overwrite(log, at, entries)[snap..] == Overwrite(log[snap..], at - snap, entries)
    ensures |Overwrite(log, at, entries)| == Max(|log|, at + |entries|)
    ensures Overwrite(log, at, entries)[..at] == log[..at]
  {
  }

  /** Entry identity at work: a stored entry and a sent one of equal index and term are equal. */
  lemma NoClash(h: History, s: Server, a: AppendArgs)
    requires Synced(s) && LogFrom(h, s.full, s.node.term) && FromLeader(h, a)
    requires s.node.snapIndex <= a.prevIndex <= |s.full|
    ensures !Clash(s.node.logs, a.prevIndex - s.node.snapIndex, a.entries)
  {
    var at, log := a.prevIndex - s.node.snapIndex, h.reigns[a.term].log;
    forall k | 0 <= k < |a.entries| && at + k < |s.node.logs| && s.node.logs[at + k].term == a.entries[k].term
      ensures s.node.logs[at + k].command == a.entries[k].command
    {
      assert s.node.logs[at + k] == s.full[a.prevIndex + k];
      assert a.entries[k] == log[a.prevIndex + k];
      assert EntryFrom(h, s.full[a.prevIndex + k], a.prevIndex + k);
      assert EntryFrom(h, log[a.prevIndex + k], a.prevIndex + k);
    }
  }

  lemma OverwrittenLog(h: History, log: seq<Entry>, a: AppendArgs, t: nat)
    requires LogFrom(h, log, t) && t <= a.term && FromLeader(h, a) && a.prevIndex <= |log|
    ensures LogFrom(h, Overwrite(log, a.prevIndex, a.entries), a.term)
  {
    var r, src := Overwrite(log, a.prevIndex, a.entries), h.reigns[a.term].log;
    forall k | 0 <= k < |r|
      ensures EntryFrom(h, r[k], k) && r[k].term <= a.term
    {
      OverwriteAt(log, a.prevIndex, a.entries, k);
      if a.prevIndex <= k < a.End() { assert r[k] == src[k]; } else { assert r[k] == log[k]; }
    }
  }

  lemma AcceptNode(s: Node, a: AppendArgs)
    requires s.Valid() && a.Numbered() && s.snapIndex <= a.prevIndex <= s.snapIndex + |s.logs|
    ensures Accept(s, a).Valid()
    ensures var s' := Accept(s, a); s'.commit == s.commit || s'.commit == Min(a.leaderCommit, s'.LastIndex())
    ensures Accept(s, a).LastIndex() == Max(s.LastIndex(), a.End())
    ensures Accept(s, a).commit >= s.commit
  {
    var logs := Overwrite(s.logs, a.prevIndex - s.snapIndex, a.entries);
    OverwriteNumbered(s.logs, s.snapIndex, a.prevIndex - s.snapIndex, a.entries);
    CommitWithin(s, logs, Accept(s, a), a);
  }

  lemma CommitWithin(s: Node, logs: seq<Entry>, s': Node, a: AppendArgs)
    requires s.Valid() && s.snapIndex <= a.prevIndex && |logs| == Max(|s.logs|, a.End() - s.snapIndex)
    requires forall k | 0 <= k < |logs| :: logs[k].index == s.snapIndex + 1 + k
    requires var s1 := s.(logs := logs);
      s' == if a.leaderCommit > s1.commit then s1.(commit := Min(a.leaderCommit, s1.LastIndex())) else s1
    ensures s'.Valid() && (s'.commit == s.commit || s'.commit == Min(a.leaderCommit, s'.LastIndex()))
    ensures s'.LastIndex() == Max(s.LastIndex(), a.End()) && s'.commit >= s.commit
  {
  }

  lemma OverwriteNumbered(logs: seq<Entry>, snap: nat, at: nat, entries: seq<Entry>)
    requires at <= |logs|
    requires forall k | 0 <= k < |logs| :: logs[k].index == snap + 1 + k
    requires forall k | 0 <= k < |entries| :: entries[k].index == snap + at + 1 + k
    ensures var r := Overwrite(logs, at, entries);
      |r| == Max(|logs|, at + |entries|) && forall k | 0 <= k < |r| :: r[k].index == snap + 1 + k
  {
  }

  lemma AcceptServer(h: History, h': History, n: nat, s: Server, s': Server, p: nat, a: AppendArgs)
    requires ServerOk(h, n, s, p) && s.node.status == Follower && s.node.term == a.term && FromLeader(h, a)
    requires s.node.snapIndex <= a.prevIndex <= |s.full|
    requires HistGrows(h, h', p) && h'.reigns == h.reigns && h'.votes == h.votes
    requires s' == s.(node := Accept(s.node, a), full := Overwrite(s.full, a.prevIndex, a.entries))
    ensures ServerOk(h', n, s', p)
  {
    AcceptNode(s.node, a);
    AcceptSynced(s, s', a);
    OverwrittenLog(h, s.full, a, a.term);
    LogFromGrows(h, h', p, s'.full, a.term, a.term);
  }

  lemma AcceptSynced(s: Server, s': Server, a: AppendArgs)
    requires Synced(s) && s.node.snapIndex <= a.prevIndex <= |s.full|
    requires s' == s.(node := Accept(s.node, a), full := Overwrite(s.full, a.prevIndex, a.entries))
    ensures Synced(s')
  {
    OverwriteSuffix(s.full, s.node.snapIndex, a.prevIndex, a.entries);
    AcceptSnapTerm(s.full, s'.full, s.node.snapIndex, a.prevIndex);
  }

  lemma AcceptSnapTerm(full: seq<Entry>, full': seq<Entry>, snap: nat, prev: nat)
    requires snap <= prev <= |full| && prev <= |full'| && full'[..prev] == full[..prev]
    ensures TermAt(full', snap) == TermAt(full, snap)
  {
    if snap > 0 { assert full'[..prev][snap - 1] == full[..prev][snap - 1]; }
  }

  /** The fast back-up hint: it skips only entries of the one term found at `prev`. */
  lemma {:induction false} BackUpHint(s: Node, prev: nat, index: int)
    requires s.snapIndex <= prev <= s.snapIndex + |s.logs| && s.snapIndex - 1 <= index <= prev
    requires forall k: nat | index < k <= prev :: s.TermOf(k) == s.TermOf(prev)
    ensures var hint := BackUp(s, prev, index);
      && s.snapIndex <= hint <= prev
      && (forall k: nat | hint <= k <= prev :: s.TermOf(k) == s.TermOf(prev))
      && (hint < prev ==> hint > s.snapIndex && s.TermOf(hint - 1) != s.TermOf(prev))
      && (hint == prev && s.snapIndex < prev ==>
          s.TermOf(prev - 1) != s.TermOf(prev) || forall k: nat | s.snapIndex <= k <= prev :: s.TermOf(k) == s.TermOf(prev))
    decreases index - s.snapIndex + 1
  {
    if index >= s.snapIndex && s.TermOf(index) == s.TermOf(prev) { BackUpHint(s, prev, index - 1); }
  }

  /** An answer to a message of the current leader, and when the process ends instead. */
  lemma AnswerAppend(h: History, n: nat, s: Server, p: nat, a: AppendArgs)
    requires ServerOk(h, n, s, p) && s.node.term == a.term && FromLeader(h, a)
    ensures AppendAtTerm(s.node, a).Halted? <==> a.prevIndex < s.node.snapIndex
    ensures AppendAtTerm(s.node, a).Done? && !AppendAtTerm(s.node, a).reply.success ==>
      var r := AppendAtTerm(s.node, a); r.node == s.node && r.reply.term == a.term && 1 <= r.reply.next <= a.prevIndex
    ensures AppendAtTerm(s.node, a).Done? && AppendAtTerm(s.node, a).reply.success ==>
      var r := AppendAtTerm(s.node, a);
      s.node.snapIndex <= a.prevIndex <= |s.full| && r.node == Accept(s.node, a) && r.reply.term == a.term
  {
    SyncedLast(s);
    if s.node.snapIndex <= a.prevIndex <= |s.full| {
      SyncedTerm(s, a.prevIndex);
      NoClash(h, s, a);
      if s.node.TermOf(a.prevIndex) != a.prevTerm {
        BackUpHint(s.node, a.prevIndex, a.prevIndex);
        if a.prevIndex == s.node.snapIndex { assert a.prevIndex > 0; }
      }
    }
  }

  lemma RefusedAppendStep(c: Cluster, c': Cluster, tid: ThreadId)
    requires tid.AppendThread? && tid in c.threads && c.threads[tid].AppendSent? && tid.peer < |c.servers|
    requires ServerOk(c.hist, |c.servers|, c.servers[tid.peer], tid.peer) && ThreadOk(c, tid, c.threads[tid])
    requires FromLeader(c.hist, c.threads[tid].args)
    requires var t := c.threads[tid].args.term; t > c.servers[tid.peer].node.term ==> VoteKey(t, tid.peer) !in c.hist.votes
    requires var r := AppendEntries(c.servers[tid.peer].node, c.threads[tid].args); r.Done? ==> !r.reply.success
    requires c' == DoDeliverAppend(c, tid)
    ensures GoodStep(c, c', tid.peer, {tid})
  {
    var p, a, s := tid.peer, c.threads[tid].args, c.servers[tid.peer];
    if a.term >= s.node.term {
      AtTermServer(c.hist, |c.servers|, s, p, a.term);
      AnswerAppend(c.hist, |c.servers|, s.(node := AtTerm(s.node, a.term)), p, a);
    }
    QuietStep(c, c', p, {tid});
  }

  lemma AcceptedShape(c: Cluster, c': Cluster, tid: ThreadId)
    requires tid.AppendThread? && tid in c.threads && c.threads[tid].AppendSent? && tid.peer < |c.servers|
    requires ServerOk(c.hist, |c.servers|, c.servers[tid.peer], tid.peer)
    requires FromLeader(c.hist, c.threads[tid].args)
    requires var t := c.threads[tid].args.term; t > c.servers[tid.peer].node.term ==> VoteKey(t, tid.peer) !in c.hist.votes
    requires var r := AppendEntries(c.servers[tid.peer].node, c.threads[tid].args); r.Done? && r.reply.success
    requires c' == DoDeliverAppend(c, tid)
    ensures var a, p := c.threads[tid].args, tid.peer;
      var s := c.servers[p].(node := AtTerm(c.servers[p].node, a.term));
      && a.term >= c.servers[p].node.term
      && ServerOk(c.hist, |c.servers|, s, p) && s.node.snapIndex <= a.prevIndex <= |s.full|
      && c'.servers == c.servers[p := s.(node := Accept(s.node, a), full := Overwrite(s.full, a.prevIndex, a.entries))]
      && c'.hist == c.hist.(acks := c.hist.acks + {Ack(a.term, a.End(), p)})
      && c'.threads == c.threads[tid := AppendAnswered(a, AppendReply(a.term, true, 0))]
      && c'.elections == c.elections && c'.rounds == c.rounds && c'.serials == c.serials
  {
    var p, a, s := tid.peer, c.threads[tid].args, c.servers[tid.peer];
    AtTermServer(c.hist, |c.servers|, s, p, a.term);
    AnswerAppend(c.hist, |c.servers|, s.(node := AtTerm(s.node, a.term)), p, a);
  }

  lemma AcceptedThread(c: Cluster, c': Cluster, tid: ThreadId)
    requires tid.AppendThread? && tid in c.threads && c.threads[tid].AppendSent?
    requires ThreadOk(c, tid, c.threads[tid]) && StepOf(c, c', tid.peer)
    requires var a := c.threads[tid].args;
      && Ack(a.term, a.End(), tid.peer) in c'.hist.acks
      && c'.threads == c.threads[tid := AppendAnswered(a, AppendReply(a.term, true, 0))]
    requires c'.elections == c.elections && c'.rounds == c.rounds && c'.serials == c.serials
    ensures NewThreadsOk(c, c', {tid})
  {
    CarriesFrame(c, c', tid.peer, c.rounds[tid.round], c.rounds[tid.round], c.threads[tid].args);
  }

  lemma AcceptedAppendStep(c: Cluster, c': Cluster, tid: ThreadId)
    requires tid.AppendThread? && tid in c.threads && c.threads[tid].AppendSent? && tid.peer < |c.servers|
    requires ServerOk(c.hist, |c.servers|, c.servers[tid.peer], tid.peer) && ThreadOk(c, tid, c.threads[tid])
    requires FromLeader(c.hist, c.threads[tid].args)
    requires var t := c.threads[tid].args.term; t > c.servers[tid.peer].node.term ==> VoteKey(t, tid.peer) !in c.hist.votes
    requires var r := AppendEntries(c.servers[tid.peer].node, c.threads[tid].args); r.Done? && r.reply.success
    requires c' == DoDeliverAppend(c, tid)
    ensures GoodStep(c, c', tid.peer, {tid})
  {
    var p, a, s := tid.peer, c.threads[tid].args, c.servers[tid.peer];
    AcceptedShape(c, c', tid);
    AcceptedRest(c, c', tid, s.(node := AtTerm(s.node, a.term)));
  }

  lemma AcceptedRest(c: Cluster, c': Cluster, tid: ThreadId, s: Server)
    requires tid.AppendThread? && tid in c.threads && c.threads[tid].AppendSent? && tid.peer < |c.servers|
    requires ThreadOk(c, tid, c.threads[tid]) && FromLeader(c.hist, c.threads[tid].args)
    requires var a := c.threads[tid].args;
      && ServerOk(c.hist, |c.servers|, s, tid.peer) && s.node.status == Follower && s.node.term == a.term
      && s.node.snapIndex <= a.prevIndex <= |s.full|
      && s.node.term >= c.servers[tid.peer].node.term && s.node.snapIndex == c.servers[tid.peer].node.snapIndex
      && c'.servers == c.servers[tid.peer := s.(node := Accept(s.node, a), full := Overwrite(s.full, a.prevIndex, a.entries))]
      && c'.hist == c.hist.(acks := c.hist.acks + {Ack(a.term, a.End(), tid.peer)})
      && c'.threads == c.threads[tid := AppendAnswered(a, AppendReply(a.term, true, 0))]
      && c'.elections == c.elections && c'.rounds == c.rounds && c'.serials == c.serials
    ensures GoodStep(c, c', tid.peer, {tid})
  {
    var p, a := tid.peer, c.threads[tid].args;
    AcceptServer(c.hist, c'.hist, |c.servers|, s, c'.servers[p], p, a);
    AcceptedThread(c, c', tid);
  }

  lemma LeaderMessage(c: Cluster, tid: ThreadId)
    requires HistoryOk(c) && tid.AppendThread? && tid in c.threads && ThreadOk(c, tid, c.threads[tid])
    ensures FromLeader(c.hist, c.threads[tid].args)
  {
    assert AppendThreadOk(c, tid, c.threads[tid]);
    var a := c.threads[tid].args;
    assert ReignOk(c, a.term, c.hist.reigns[a.term]);
  }

  lemma DeliverAppendKeepsInv(c: Cluster, tid: ThreadId)
    requires Inv(c) && tid.AppendThread? && tid in c.threads && c.threads[tid].AppendSent? && tid.peer < |c.servers|
    ensures Inv(DoDeliverAppend(c, tid)) && StepOf(c, DoDeliverAppend(c, tid), tid.peer)
  {
    var c', a, nd := DoDeliverAppend(c, tid), c.threads[tid].args, c.servers[tid.peer].node;
    LeaderMessage(c, tid);
    if a.term > nd.term { NoFutureVote(c, a.term, tid.peer); }
    var r := AppendEntries(nd, a);
    if r.Done? && r.reply.success { AcceptedAppendStep(c, c', tid); } else { RefusedAppendStep(c, c', tid); }
    GoodStepKeepsInv(c, c', tid.peer, {tid});
  }

  // ---------------------------------------------------------- append replies

  /** Replies that change no counter: a larger or older term, no longer Leader, or a refusal. */
  lemma UncountedReplyServer(h: History, n: nat, s: Server, i: nat, p: nat, a: AppendArgs, r: AppendReply, count: int)
    requires ServerOk(h, n, s, i) && p < n && p != i
    requires r.term > s.node.term ==> VoteKey(r.term, i) !in h.votes
    requires !(r.term == s.node.term && s.node.status == Leader && r.success)
    requires r.next == -100 || (1 <= r.next && (r.term == s.node.term && s.node.status == Leader ==> r.next <= |s.full| + 1))
    ensures var res := HandleAppendReply(s.node, p, a, r, count);
      res.Done? && res.reply == count && ServerOk(h, n, s.(node := res.node), i) &&
      res.node.term >= s.node.term && res.node.snapIndex == s.node.snapIndex
  {
    if r.term > s.node.term { StepDownServer(h, n, s, i, r.term); }
  }

  lemma UncountedReplyStep(c: Cluster, c': Cluster, tid: ThreadId, i: nat)
    requires tid.AppendThread? && tid in c.threads && c.threads[tid].AppendAnswered? && ThreadOk(c, tid, c.threads[tid])
    requires i == c.rounds[tid.round].leader && ServerOk(c.hist, |c.servers|, c.servers[i], i)
    requires c' == DoAppendReplied(c, tid)
    requires var r, t := c.threads[tid].reply, c.servers[i].node.term;
      (r.term > t ==> VoteKey(r.term, i) !in c.hist.votes) && !(r.term == t && c.servers[i].node.status == Leader && r.success)
    ensures GoodStep(c, c', i, {})
  {
    var s, a, r := c.servers[i], c.threads[tid].args, c.threads[tid].reply;
    assert AppendThreadOk(c, tid, c.threads[tid]);
    if !r.success {
      UncountedReplyServer(c.hist, |c.servers|, s, i, tid.peer, a, r, c.rounds[tid.round].count);
    } else {
      UncountedReplyServer(c.hist, |c.servers|, s, i, tid.peer, a, r.(next := -100), c.rounds[tid.round].count);
    }
    assert c'.rounds == c.rounds;
    QuietStep(c, c', i, {});
  }

  lemma CountedReplyServer(h: History, n: nat, s: Server, i: nat, p: nat, a: AppendArgs, r: AppendReply, count: int)
    requires ServerOk(h, n, s, i) && p < n && p != i
    requires r.term == s.node.term && s.node.status == Leader && r.success && a.End() <= |s.full|
    ensures var res := HandleAppendReply(s.node, p, a, r, count);
      && res.Done? && res.reply == (if count + 1 < n / 2 + 1 then count + 1 else 0)
      && ServerOk(h, n, s.(node := res.node), i) && res.node.term == s.node.term && res.node.snapIndex == s.node.snapIndex
  {
    SyncedLast(s);
  }

  /** The counter of a round fires at most once. */
  lemma CountedRound(c: Cluster, c': Cluster, i: nat, r: Round, p: nat, r': Round)
    requires StepOf(c, c', i) && c'.hist == c.hist && RoundOk(c, r) && p < |c.servers| && p != r.leader && p !in r.counted
    requires Ack(r.term, r.end, p) in c.hist.acks
    requires var majority := |c.servers| / 2 + 1;
      r' == r.(count := if r.count + 1 < majority then r.count + 1 else 0, counted := r.counted + {p},
               fired := r.fired || r.count + 1 >= majority)
    ensures RoundOk(c', r')
    ensures r.fired ==> r.count + 1 < |c.servers| / 2 + 1
  {
    SubsetSize(r.counted + {p} + {r.leader}, Everyone(|c.servers|));
    assert |r.counted + {p} + {r.leader}| == |r.counted| + 2;
    assert |r'.counted| == |r.counted| + 1;
  }

  lemma CountedReplyShape(c: Cluster, c': Cluster, tid: ThreadId, i: nat)
    requires tid.AppendThread? && tid in c.threads && c.threads[tid].AppendAnswered? && ThreadOk(c, tid, c.threads[tid])
    requires i == c.rounds[tid.round].leader && ServerOk(c.hist, |c.servers|, c.servers[i], i)
    requires c' == DoAppendReplied(c, tid)
    requires var r := c.threads[tid].reply; r.term == c.servers[i].node.term && c.servers[i].node.status == Leader && r.success
    ensures var r, nd' := c.rounds[tid.round], c'.servers[i].node;
      && c'.servers == c.servers[i := c.servers[i].(node := nd')] && c'.threads == c.threads - {tid}
      && ServerOk(c.hist, |c.servers|, c'.servers[i], i)
      && nd'.term == c.servers[i].node.term && nd'.snapIndex == c.servers[i].node.snapIndex
      && c'.hist == c.hist && c'.elections == c.elections && c'.serials == c.serials
      && c'.rounds == c.rounds[tid.round :=
           r.(count := if r.count + 1 < |c.servers| / 2 + 1 then r.count + 1 else 0, counted := r.counted + {tid.peer},
              fired := r.fired || r.count + 1 >= |c.servers| / 2 + 1)]
    ensures var a := c.threads[tid].args; a.term == c.servers[i].node.term && a.End() <= |c.servers[i].full|
  {
    assert AppendThreadOk(c, tid, c.threads[tid]);
    CountedReplyServer(c.hist, |c.servers|, c.servers[i], i, tid.peer, c.threads[tid].args, c.threads[tid].reply, c.rounds[tid.round].count);
  }

  lemma CountedReplyStep(c: Cluster, c': Cluster, tid: ThreadId, i: nat)
    requires tid.AppendThread? && tid in c.threads && c.threads[tid].AppendAnswered? && ThreadOk(c, tid, c.threads[tid])
    requires i == c.rounds[tid.round].leader && ServerOk(c.hist, |c.servers|, c.servers[i], i) && RoundOk(c, c.rounds[tid.round])
    requires c' == DoAppendReplied(c, tid)
    requires var r := c.threads[tid].reply; r.term == c.servers[i].node.term && c.servers[i].node.status == Leader && r.success
    ensures GoodStep(c, c', i, {})
  {
    CountedReplyShape(c, c', tid, i);
    CountedRound(c, c', i, c.rounds[tid.round], tid.peer, c'.rounds[tid.round]);
  }

  lemma AppendRepliedKeepsInv(c: Cluster, tid: ThreadId)
    requires Inv(c) && tid.AppendThread? && tid in c.threads && c.threads[tid].AppendAnswered?
    requires tid.round < |c.rounds| && c.rounds[tid.round].leader < |c.servers|
    requires var nd := c.servers[c.rounds[tid.round].leader].node; nd.Valid() && tid.peer < nd.peers
    ensures Inv(DoAppendReplied(c, tid)) && StepOf(c, DoAppendReplied(c, tid), c.rounds[tid.round].leader)
  {
    var c', i, r := DoAppendReplied(c, tid), c.rounds[tid.round].leader, c.threads[tid].reply;
    var nd := c.servers[i].node;
    if r.term == nd.term && nd.status == Leader && r.success {
      CountedReplyStep(c, c', tid, i);
    } else {
      if r.term > nd.term { NoFutureVote(c, r.term, i); }
      UncountedReplyStep(c, c', tid, i);
    }
    GoodStepKeepsInv(c, c', i, {});
  }

  // ------------------------------------------------- Start, compaction, apply

  lemma StartServer(h: History, h': History, n: nat, s: Server, i: nat, op: Op, s': Server)
    requires ServerOk(h, n, s, i) && s.node.status == Leader && HistGrows(h, h', i) && h'.votes == h.votes
    requires s' == s.(node := Start(s.node, op), full := s.full + [Entry(|s.full| + 1, s.node.term, op)])
    requires s.node.term in h'.reigns && h'.reigns[s.node.term] == h.reigns[s.node.term].(log := s'.full) && s.node.term >= 1
    ensures ServerOk(h', n, s', i)
  {
    SyncedLast(s);
    LogFromGrows(h, h', i, s.full, s.node.term, s.node.term);
    assert s'.full[s.node.snapIndex..] == s.full[s.node.snapIndex..] + [Entry(|s.full| + 1, s.node.term, op)];
  }

  /** The state after a leader appended a command. */
  ghost predicate Started(c: Cluster, c': Cluster, i: nat, op: Op)
    requires i < |c.servers|
  {
    var s := c.servers[i];
    var full := s.full + [Entry(|s.full| + 1, s.node.term, op)];
    && s.node.term in c.hist.reigns
    && c' == c.(servers := c.servers[i := s.(node := Start(s.node, op), full := full)],
                hist := c.hist.(reigns := c.hist.reigns[s.node.term := c.hist.reigns[s.node.term].(log := full)]))
  }

  lemma StartShape(c: Cluster, i: nat, op: Op)
    requires i < |c.servers| && ServerOk(c.hist, |c.servers|, c.servers[i], i) && c.servers[i].node.status == Leader
    ensures Started(c, DoStart(c, i, op), i, op)
  {
    SyncedLast(c.servers[i]);
  }

  lemma StartHistory(c: Cluster, c': Cluster, i: nat, op: Op)
    requires i < |c.servers| && ServerOk(c.hist, |c.servers|, c.servers[i], i) && c.servers[i].node.status == Leader
    requires Started(c, c', i, op)
    ensures StepOf(c, c', i)
  {
  }

  lemma StartReign(c: Cluster, c': Cluster, i: nat, op: Op, t: nat)
    requires i < |c.servers| && t == c.servers[i].node.term && t in c.hist.reigns && c.hist.reigns[t].log == c.servers[i].full
    requires Started(c, c', i, op) && StepOf(c, c', i) && ReignOk(c, t, c.hist.reigns[t])
    ensures ReignOk(c', t, c'.hist.reigns[t]) && NewHistoryOk(c, c')
  {
    LogFromGrows(c.hist, c'.hist, i, c.servers[i].full, t, t);
    assert ReignOk(c', t, c'.hist.reigns[t]);
  }

  lemma StartStep(c: Cluster, c': Cluster, i: nat, op: Op)
    requires i < |c.servers| && ServerOk(c.hist, |c.servers|, c.servers[i], i) && c.servers[i].node.status == Leader
    requires Started(c, c', i, op) && ReignOk(c, c.servers[i].node.term, c.hist.reigns[c.servers[i].node.term])
    ensures GoodStep(c, c', i, {})
  {
    StartHistory(c, c', i, op);
    StartReign(c, c', i, op, c.servers[i].node.term);
    StartServer(c.hist, c'.hist, |c.servers|, c.servers[i], i, op, c'.servers[i]);
  }

  lemma StartKeepsInv(c: Cluster, i: nat, op: Op)
    requires Inv(c) && i < |c.servers| && c.servers[i].node.status == Leader
    ensures Inv(DoStart(c, i, op)) && StepOf(c, DoStart(c, i, op), i)
  {
    StartShape(c, i, op);
    StartStep(c, DoStart(c, i, op), i, op);
    GoodStepKeepsInv(c, DoStart(c, i, op), i, {});
  }

  lemma CompactServer(h: History, n: nat, s: Server, i: nat, index: nat)
    requires ServerOk(h, n, s, i)
    ensures ServerOk(h, n, s.(node := Snapshot(s.node, index)), i)
    ensures Snapshot(s.node, index).term == s.node.term && Snapshot(s.node, index).snapIndex >= s.node.snapIndex
  {
    if s.node.snapIndex < index <= s.node.commit {
      SyncedTerm(s, index);
      SuffixOfSuffix(s.full, s.node.snapIndex, index);
    }
  }

  lemma CompactKeepsInv(c: Cluster, i: nat, index: nat)
    requires Inv(c) && i < |c.servers| && c.servers[i].node.Valid()
    ensures Inv(c.SetNode(i, Snapshot(c.servers[i].node, index))) && StepOf(c, c.SetNode(i, Snapshot(c.servers[i].node, index)), i)
  {
    var c' := c.SetNode(i, Snapshot(c.servers[i].node, index));
    CompactServer(c.hist, |c.servers|, c.servers[i], i, index);
    QuietStep(c, c', i, {});
    GoodStepKeepsInv(c, c', i, {});
  }

  lemma ApplyServer(h: History, n: nat, s: Server, i: nat)
    requires ServerOk(h, n, s, i)
    ensures ServerOk(h, n, s.(node := AfterApply(s.node), delivered := s.delivered + ApplyMsgs(s.node)), i)
  {
  }

  lemma ApplyKeepsInv(c: Cluster, i: nat)
    requires Inv(c) && i < |c.servers| && c.servers[i].node.Valid()
    ensures Inv(DoApply(c, i)) && StepOf(c, DoApply(c, i), i)
  {
    ApplyServer(c.hist, |c.servers|, c.servers[i], i);
    QuietStep(c, DoApply(c, i), i, {});
    GoodStepKeepsInv(c, DoApply(c, i), i, {});
  }

  // --------------------------------------------------------------- snapshots

  lemma RunSnapshotKeepsInv(c: Cluster, tid: ThreadId)
    requires Inv(c) && tid in c.threads && c.threads[tid].SnapPending? && c.threads[tid].from < |c.servers|
    ensures Inv(DoRunSnapshot(c, tid)) && StepOf(c, DoRunSnapshot(c, tid), c.threads[tid].from)
  {
    var c', i := DoRunSnapshot(c, tid), c.threads[tid].from;
    RunSnapshotStep(c, c', tid, i);
    GoodStepKeepsInv(c, c', i, {tid});
  }

  lemma RunSnapshotStep(c: Cluster, c': Cluster, tid: ThreadId, i: nat)
    requires tid in c.threads && c.threads[tid].SnapPending? && ThreadOk(c, tid, c.threads[tid]) && i == c.threads[tid].from
    requires i < |c.servers| && ServerOk(c.hist, |c.servers|, c.servers[i], i) && c' == DoRunSnapshot(c, tid)
    ensures GoodStep(c, c', i, {tid})
  {
    var s := c.servers[i];
    var prefix := s.full[..s.node.snapIndex];
    assert c'.threads[tid] == SnapSent(i, c.threads[tid].to, SnapshotArgs(s.node), prefix);
    assert LogFrom(c.hist, prefix, s.node.term);
    assert TermAt(prefix, |prefix|) == TermAt(s.full, s.node.snapIndex);
    QuietStep(c, c', i, {tid});
  }

  lemma InstalledLogAt(full: seq<Entry>, prefix: seq<Entry>, snap: nat)
    requires snap <= |full| && snap <= |prefix|
    ensures var r := InstalledLog(full, prefix);
      && |r| == Max(|full|, |prefix|) && r[..|prefix|] == prefix
      && (forall k | 0 <= k < |r| :: r[k] == if k < |prefix| then prefix[k] else full[k])
      && r[|prefix|..] == (if |full| > |prefix| then full[snap..][|prefix| - snap..] else [])
  {
  }

  lemma InstalledFrom(h: History, full: seq<Entry>, prefix: seq<Entry>, t: nat)
    requires LogFrom(h, full, t) && LogFrom(h, prefix, t)
    ensures LogFrom(h, InstalledLog(full, prefix), t)
  {
    var r := InstalledLog(full, prefix);
    forall k | 0 <= k < |r|
      ensures EntryFrom(h, r[k], k) && r[k].term <= t
    {
      InstalledLogAt(full, prefix, 0);
      if k < |prefix| { assert r[k] == prefix[k]; } else { assert r[k] == full[k]; }
    }
  }

  lemma InstalledSync(s: Server, s': Server, a: SnapArgs, prefix: seq<Entry>)
    requires s.node.Valid() && Synced(s) && a.snapIndex > s.node.snapIndex
    requires a.snapIndex == |prefix| && a.snapTerm == TermAt(prefix, |prefix|)
    requires s' == s.(node := Installed(s.node, a), full := InstalledLog(s.full, prefix))
    ensures Synced(s')
  {
    SyncedLast(s);
    InstalledLogAt(s.full, prefix, s.node.snapIndex);
  }

  lemma InstallServer(h: History, n: nat, s: Server, s': Server, i: nat, a: SnapArgs, prefix: seq<Entry>)
    requires ServerOk(h, n, s, i) && s.node.status == Follower && a.snapIndex > s.node.snapIndex && a.term == s.node.term
    requires LogFrom(h, prefix, a.term) && a.snapIndex == |prefix| && a.snapTerm == TermAt(prefix, |prefix|)
    requires s' == s.(node := Installed(s.node, a), full := InstalledLog(s.full, prefix))
    ensures ServerOk(h, n, s', i)
  {
    InstalledSync(s, s', a, prefix);
    InstalledFrom(h, s.full, prefix, a.term);
    InstalledNode(s.node, a);
  }

  lemma InstalledNode(s: Node, a: SnapArgs)
    requires s.Valid() && a.snapIndex > s.snapIndex
    ensures Installed(s, a).Valid()
    ensures Installed(s, a).LastIndex() == Max(s.LastIndex(), a.snapIndex)
  {
  }

  lemma SnapshotServer(h: History, n: nat, s: Server, s': Server, i: nat, a: SnapArgs, prefix: seq<Entry>)
    requires ServerOk(h, n, s, i) && (a.term > s.node.term ==> VoteKey(a.term, i) !in h.votes)
    requires LogFrom(h, prefix, a.term) && a.snapIndex == |prefix| && a.snapTerm == TermAt(prefix, |prefix|)
    requires s' == s.(node := InstallSnapshot(s.node, a).node,
      full := if a.term >= s.node.term && a.snapIndex > s.node.snapIndex then InstalledLog(s.full, prefix) else s.full)
    ensures ServerOk(h, n, s', i) && s'.node.term >= s.node.term && s'.node.snapIndex >= s.node.snapIndex
  {
    if a.term >= s.node.term {
      AtTermServer(h, n, s, i, a.term);
      if a.snapIndex > s.node.snapIndex {
        InstallServer(h, n, s.(node := AtTerm(s.node, a.term)), s', i, a, prefix);
      }
    }
  }

  lemma SnapshotAnswered(c: Cluster, c': Cluster, tid: ThreadId, i: nat)
    requires tid in c.threads && c.threads[tid].SnapSent? && tid.SnapThread? && ThreadOk(c, tid, c.threads[tid])
    requires i == c.threads[tid].to && i < |c.servers| && c.servers[i].node.Valid()
    requires c' == DoDeliverSnapshot(c, tid)
    ensures tid in c'.threads && ThreadOk(c', tid, c'.threads[tid])
    ensures Answers(c, c', i, tid)
  {
  }

  /** Only server `i` and thread `tid` change, in place. */
  ghost predicate Answers(c: Cluster, c': Cluster, i: nat, tid: ThreadId) {
    && i < |c.servers| == |c'.servers| && c'.servers == c.servers[i := c'.servers[i]]
    && c'.hist == c.hist && c'.elections == c.elections && c'.rounds == c.rounds && c'.serials == c.serials
    && tid in c'.threads && c'.threads == c.threads[tid := c'.threads[tid]]
    && c.servers[i].node.term <= c'.servers[i].node.term && c.servers[i].node.snapIndex <= c'.servers[i].node.snapIndex
  }

  lemma AnsweredStep(c: Cluster, c': Cluster, i: nat, tid: ThreadId)
    requires Answers(c, c', i, tid) && ServerOk(c.hist, |c.servers|, c'.servers[i], i)
    requires ThreadOk(c', tid, c'.threads[tid])
    ensures GoodStep(c, c', i, {tid})
  {
    QuietStep(c, c', i, {tid});
  }

  lemma DeliverSnapshotStep(c: Cluster, c': Cluster, tid: ThreadId, i: nat)
    requires tid in c.threads && c.threads[tid].SnapSent? && ThreadOk(c, tid, c.threads[tid]) && i == c.threads[tid].to
    requires i < |c.servers| && ServerOk(c.hist, |c.servers|, c.servers[i], i)
    requires var t := c.threads[tid].snapArgs.term; t > c.servers[i].node.term ==> VoteKey(t, i) !in c.hist.votes
    requires c' == DoDeliverSnapshot(c, tid)
    ensures GoodStep(c, c', i, {tid})
  {
    assert SnapThreadOk(c, tid, c.threads[tid]);
    SnapshotServer(c.hist, |c.servers|, c.servers[i], c'.servers[i], i, c.threads[tid].snapArgs, c.threads[tid].prefix);
    SnapshotAnswered(c, c', tid, i);
    AnsweredStep(c, c', i, tid);
  }

  lemma DeliverSnapshotKeepsInv(c: Cluster, tid: ThreadId)
    requires Inv(c) && tid in c.threads && c.threads[tid].SnapSent? && c.threads[tid].to < |c.servers|
    requires c.servers[c.threads[tid].to].node.Valid()
    ensures Inv(DoDeliverSnapshot(c, tid)) && StepOf(c, DoDeliverSnapshot(c, tid), c.threads[tid].to)
  {
    var c', i, t := DoDeliverSnapshot(c, tid), c.threads[tid].to, c.threads[tid].snapArgs.term;
    if t > c.servers[i].node.term { NoFutureVote(c, t, i); }
    DeliverSnapshotStep(c, c', tid, i);
    GoodStepKeepsInv(c, c', i, {tid});
  }

  lemma SnapshotRepliedStep(c: Cluster, c': Cluster, tid: ThreadId, i: nat)
    requires tid in c.threads && c.threads[tid].SnapAnswered? && ThreadOk(c, tid, c.threads[tid]) && i == c.threads[tid].from
    requires i < |c.servers| && ServerOk(c.hist, |c.servers|, c.servers[i], i)
    requires var t := c.threads[tid].snapReply.term; t > c.servers[i].node.term ==> VoteKey(t, i) !in c.hist.votes
    requires c' == DoSnapshotReplied(c, tid)
    ensures GoodStep(c, c', i, {})
  {
    var s, r := c.servers[i], c.threads[tid].snapReply;
    assert SnapThreadOk(c, tid, c.threads[tid]);
    if r.term > s.node.term { StepDownServer(c.hist, |c.servers|, s, i, r.term); }
    QuietStep(c, c', i, {});
  }

  lemma SnapshotRepliedKeepsInv(c: Cluster, tid: ThreadId)
    requires Inv(c) && tid in c.threads && c.threads[tid].SnapAnswered? && c.threads[tid].from < |c.servers|
    requires var nd := c.servers[c.threads[tid].from].node; nd.Valid() && c.threads[tid].to < nd.peers
    ensures Inv(DoSnapshotReplied(c, tid)) && StepOf(c, DoSnapshotReplied(c, tid), c.threads[tid].from)
  {
    var c', i, t := DoSnapshotReplied(c, tid), c.threads[tid].from, c.threads[tid].snapReply.term;
    if t > c.servers[i].node.term { NoFutureVote(c, t, i); }
    SnapshotRepliedStep(c, c', tid, i);
    GoodStepKeepsInv(c, c', i, {});
  }

  lemma LoseKeepsInv(c: Cluster, tid: ThreadId)
    requires Inv(c)
    ensures Inv(c.Drop(tid)) && StepOf(c, c.Drop(tid), 0)
  {
    QuietStep(c, c.Drop(tid), 0, {});
    GoodStepKeepsInv(c, c.Drop(tid), 0, {});
  }

  // ------------------------------------------------------------------- steps

  lemma InvIsTyped(c: Cluster)
    requires Inv(c)
    ensures WellTyped(c)
  {
  }

  /** The server whose lock a step holds. */
  ghost function Actor(c: Cluster, l: Label): nat
    requires Enabled(c, l)
  {
    match l
    case DeliverVote(_, _, peer) => peer
    case VoteReplied(cand, _, _) => cand
    case DeliverAppend(_, peer) => peer
    case AppendReplied(round, _) => c.rounds[round].leader
    case RunSnapshot(serial) => c.threads[SnapThread(serial)].from
    case DeliverSnapshot(serial) => c.threads[SnapThread(serial)].to
    case SnapshotReplied(serial) => c.threads[SnapThread(serial)].from
    case Lose(_) => 0
    case _ => l.i
  }

  /** Every step of every handler keeps the invariant and only adds to the history. */
  lemma NextKeepsInv(c: Cluster, l: Label)
    requires Inv(c) && WellTyped(c) && Enabled(c, l)
    ensures Inv(Next(c, l)) && StepOf(c, Next(c, l), Actor(c, l))
  {
    match l {
      case Timeout(i) => TimeoutKeepsInv(c, i);
      case HeartBeat(i) => HeartBeatKeepsInv(c, i);
      case DeliverVote(cand, term, peer) => DeliverVoteKeepsInv(c, VoteThread(cand, term, peer));
      case VoteReplied(cand, term, peer) => VoteRepliedKeepsInv(c, VoteThread(cand, term, peer));
      case DeliverAppend(round, peer) => DeliverAppendKeepsInv(c, AppendThread(round, peer));
      case AppendReplied(round, peer) => AppendRepliedKeepsInv(c, AppendThread(round, peer));
      case RunSnapshot(serial) => RunSnapshotKeepsInv(c, SnapThread(serial));
      case DeliverSnapshot(serial) => DeliverSnapshotKeepsInv(c, SnapThread(serial));
      case SnapshotReplied(serial) => SnapshotRepliedKeepsInv(c, SnapThread(serial));
      case ClientStart(i, op) => StartKeepsInv(c, i, op);
      case Compact(i, index) => CompactKeepsInv(c, i, index);
      case Apply(i) => ApplyKeepsInv(c, i);
      case Lose(tid) => LoseKeepsInv(c, tid);
    }
  }

  lemma InitInv(n: nat)
    requires n >= 2
    ensures Inv(Init(n))
  {
  }
}
