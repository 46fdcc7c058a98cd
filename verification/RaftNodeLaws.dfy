/**
  Laws of the handlers of one node: what every handler keeps, how the merge
  relates to the log of Figure 2 of the Raft paper, and what compaction hides.
 */
module RaftNodeLaws {
  import opened RaftTypes
  import opened RaftHandlers
  import opened RaftReplication

  // ------------------------------------------------------------ node invariant

  /** The node stays valid; term, commitIndex, lastApplied, the last log index
      and the snapshot point never fall. */
  predicate Advances(s: Node, s': Node) {
    && s'.Valid() && s'.me == s.me && s'.peers == s.peers
    && s.term <= s'.term && s.commit <= s'.commit && s.applied <= s'.applied
    && s.LastIndex() <= s'.LastIndex() && s.snapIndex <= s'.snapIndex
  }

  lemma RequestVoteAdvances(s: Node, a: VoteArgs)
    requires s.Valid()
    ensures RequestVote(s, a).Done? && Advances(s, RequestVote(s, a).node)
  {
  }

  lemma ElectionAdvances(s: Node, r: VoteReply, tally: int)
    requires s.Valid()
    ensures Advances(s, StartElection(s).0)
    ensures HandleVoteReply(s, r, tally).Done? ==> Advances(s, HandleVoteReply(s, r, tally).node)
  {
  }

  lemma AppendEntriesAdvances(s: Node, a: AppendArgs)
    requires s.Valid() && a.Numbered()
    ensures AppendEntries(s, a).Done? ==> Advances(s, AppendEntries(s, a).node)
  {
    if a.term >= s.term {
      var s1 := AtTerm(s, a.term);
      if s1.snapIndex <= a.prevIndex <= s1.LastIndex() { AcceptNode(s1, a); }
    }
  }

  lemma AppendReplyAdvances(s: Node, p: nat, a: AppendArgs, r: AppendReply, count: int)
    requires s.Valid() && p < s.peers
    ensures HandleAppendReply(s, p, a, r, count).Done? ==> Advances(s, HandleAppendReply(s, p, a, r, count).node)
  {
  }

  lemma LocalAdvances(s: Node, op: Op, index: nat)
    requires s.Valid()
    ensures Advances(s, Start(s, op)) && Advances(s, AfterApply(s)) && Advances(s, Snapshot(s, index))
  {
  }

  lemma SnapshotAdvances(s: Node, p: nat, a: SnapArgs, r: SnapReply)
    requires s.Valid() && p < s.peers
    ensures InstallSnapshot(s, a).Done? && Advances(s, InstallSnapshot(s, a).node)
    ensures Advances(s, HandleSnapshotReply(s, p, a, r))
  {
    if a.term >= s.term && a.snapIndex > s.snapIndex { InstalledNode(AtTerm(s, a.term), a); }
  }

  // ---------------------------------------------------------- merge refinement

  /** The first position at which a stored entry conflicts with a sent one. */
  ghost predicate FirstConflict(logs: seq<Entry>, at: nat, entries: seq<Entry>, k: nat) {
    && k < |entries| && at + k < |logs| && logs[at + k].term != entries[k].term
    && forall j | 0 <= j < k :: logs[at + j].term == entries[j].term
  }

  /** Figure 2, AppendEntries steps 3 and 4: delete a conflicting entry and all
      that follow it, then append what is missing. */
  ghost function PaperMerge(logs: seq<Entry>, at: nat, entries: seq<Entry>): seq<Entry>
    requires at <= |logs|
  {
    if exists k: nat :: FirstConflict(logs, at, entries, k) then
      var k: nat :| FirstConflict(logs, at, entries, k);
      logs[..at + k] + entries[k..]
    else if at + |entries| <= |logs| then logs
    else logs + entries[|logs| - at..]
  }

  lemma FirstConflictIs(logs: seq<Entry>, at: nat, entries: seq<Entry>, from: nat) returns (k: nat)
    requires from <= |entries| && at + from <= |logs|
    requires forall j | 0 <= j < from :: logs[at + j].term == entries[j].term
    requires exists j | from <= j < |entries| && at + j < |logs| :: logs[at + j].term != entries[j].term
    ensures FirstConflict(logs, at, entries, k)
    decreases |entries| - from
  {
    if logs[at + from].term != entries[from].term {
      k := from;
    } else {
      k := FirstConflictIs(logs, at, entries, from + 1);
    }
  }

  lemma ConflictHasFirst(logs: seq<Entry>, at: nat, entries: seq<Entry>)
    requires at <= |logs|
    ensures Conflict(logs, at, entries) <==> exists k: nat :: FirstConflict(logs, at, entries, k)
  {
    if Conflict(logs, at, entries) { var k := FirstConflictIs(logs, at, entries, 0); }
  }

  /** Sent and stored entries are numbered alike and agree when their terms do. */
  predicate Aligned(logs: seq<Entry>, at: nat, entries: seq<Entry>) {
    && !Clash(logs, at, entries)
    && forall k | 0 <= k < |entries| && at + k < |logs| :: logs[at + k].index == entries[k].index
  }

  lemma AgreeUpTo(logs: seq<Entry>, at: nat, entries: seq<Entry>, k: nat)
    requires Aligned(logs, at, entries) && k <= |entries| && at + k <= |logs|
    requires forall j | 0 <= j < k :: logs[at + j].term == entries[j].term
    ensures logs[at..at + k] == entries[..k]
  {
    forall j | 0 <= j < k
      ensures logs[at + j] == entries[j]
    {
      assert logs[at + j].command == entries[j].command;
    }
  }

  /** The merge is the one of Figure 2 exactly when nothing conflicts or the
      message reaches the last stored entry. */
  lemma MergeRefinesPaper(logs: seq<Entry>, at: nat, entries: seq<Entry>)
    requires at <= |logs| && Aligned(logs, at, entries)
    ensures Overwrite(logs, at, entries) == PaperMerge(logs, at, entries) <==>
      !Conflict(logs, at, entries) || |logs| <= at + |entries|
  {
    ConflictHasFirst(logs, at, entries);
    if exists k: nat :: FirstConflict(logs, at, entries, k) {
      var k: nat :| FirstConflict(logs, at, entries, k) && PaperMerge(logs, at, entries) == logs[..at + k] + entries[k..];
      ConflictMerge(logs, at, entries, k);
    } else {
      NoConflictMerge(logs, at, entries);
    }
  }

  lemma ConflictMerge(logs: seq<Entry>, at: nat, entries: seq<Entry>, k: nat)
    requires at <= |logs| && Aligned(logs, at, entries) && FirstConflict(logs, at, entries, k)
    ensures Overwrite(logs, at, entries) == logs[..at + k] + entries[k..] <==> |logs| <= at + |entries|
  {
    AgreeUpTo(logs, at, entries, k);
    assert logs[..at + k] == logs[..at] + logs[at..at + k];
    assert entries == entries[..k] + entries[k..];
    assert logs[..at + k] + entries[k..] == logs[..at] + entries;
  }

  lemma NoConflictMerge(logs: seq<Entry>, at: nat, entries: seq<Entry>)
    requires at <= |logs| && Aligned(logs, at, entries) && !Conflict(logs, at, entries)
    ensures Overwrite(logs, at, entries) == if at + |entries| <= |logs| then logs else logs + entries[|logs| - at..]
  {
    var k := Min(|entries|, |logs| - at);
    AgreeUpTo(logs, at, entries, k);
    if at + |entries| <= |logs| {
      assert logs == logs[..at] + logs[at..at + k] + logs[at + k..];
    } else {
      assert logs == logs[..at] + logs[at..at + k];
      assert entries == entries[..k] + entries[k..];
    }
  }

  /** In all cases the segment after `at` becomes the sent entries and the rest stays. */
  lemma MergeIsLocal(logs: seq<Entry>, at: nat, entries: seq<Entry>)
    requires at <= |logs|
    ensures var r := Overwrite(logs, at, entries);
      && |r| == Max(|logs|, at + |entries|)
      && r[..at] == logs[..at] && r[at..at + |entries|] == entries
      && (at + |entries| <= |logs| ==> r[at + |entries|..] == logs[at + |entries|..])
  {
  }

  // ---------------------------------------------------- compaction transparency

  /** `s'` is `s` with its log compacted further. */
  ghost predicate Compacts(s: Node, s': Node) {
    && s.snapIndex <= s'.snapIndex <= s.snapIndex + |s.logs|
    && s'.logs == s.logs[s'.snapIndex - s.snapIndex..]
    && s'.snapTerm == s.TermOf(s'.snapIndex)
    && SameRest(s, s')
  }

  lemma SnapshotCompacts(s: Node, index: nat)
    requires s.Valid()
    ensures Compacts(s, Snapshot(s, index))
    ensures s.snapIndex < index <= s.commit ==> Snapshot(s, index).snapIndex == index
  {
    assert s.logs[0..] == s.logs;
  }

  /** What a compacted node says of its log is what the whole log says. */
  lemma CompactionLast(s: Node, s': Node)
    requires s.Valid() && s'.Valid() && Compacts(s, s')
    ensures s'.LastIndex() == s.LastIndex() && s'.LastTerm() == s.LastTerm()
  {
  }

  lemma CompactionTerm(s: Node, s': Node, k: nat)
    requires Compacts(s, s') && s'.snapIndex <= k <= s.snapIndex + |s.logs|
    ensures s'.TermOf(k) == s.TermOf(k)
  {
  }

  /** Neither log nor snapshot point changed. */
  predicate SameLog(s: Node, t: Node) {
    t.logs == s.logs && t.snapIndex == s.snapIndex && t.snapTerm == s.snapTerm
  }

  predicate SameRest(s: Node, t: Node) {
    && t.me == s.me && t.peers == s.peers && t.term == s.term && t.votedFor == s.votedFor && t.status == s.status
    && t.commit == s.commit && t.nextIndex == s.nextIndex && t.matchIndex == s.matchIndex
  }

  lemma CompactedSame(s: Node, s': Node, t: Node, t': Node)
    requires Compacts(s, s') && SameLog(s, t) && SameLog(s', t') && SameRest(t, t')
    ensures Compacts(t, t')
  {
  }

  lemma SameVote(s: Node, s': Node, a: VoteArgs)
    requires SameRest(s, s') && s'.LastIndex() == s.LastIndex() && s'.LastTerm() == s.LastTerm()
    ensures RequestVote(s', a).reply == RequestVote(s, a).reply
    ensures var t, t' := RequestVote(s, a).node, RequestVote(s', a).node; SameLog(s, t) && SameLog(s', t') && SameRest(t, t')
  {
  }

  /** Votes are answered as the uncompacted log would answer them. */
  lemma CompactedVote(s: Node, s': Node, a: VoteArgs)
    requires s.Valid() && s'.Valid() && Compacts(s, s')
    ensures RequestVote(s', a).reply == RequestVote(s, a).reply
    ensures Compacts(RequestVote(s, a).node, RequestVote(s', a).node)
  {
    CompactionLast(s, s');
    SameVote(s, s', a);
    CompactedSame(s, s', RequestVote(s, a).node, RequestVote(s', a).node);
  }

  /** Messages that start at or above the snapshot point are matched, merged and
      committed as the uncompacted log would. */
  lemma CompactedAppend(s: Node, s': Node, a: AppendArgs)
    requires s.Valid() && s'.Valid() && Compacts(s, s') && a.prevIndex >= s'.snapIndex
    ensures var r, r' := AppendEntries(s, a), AppendEntries(s', a);
      && (r.Halted? <==> r'.Halted?)
      && (r.Done? ==> r'.reply.success == r.reply.success && r'.reply.term == r.reply.term && Compacts(r.node, r'.node))
  {
    if a.term >= s.term {
      CompactedSame(s, s', AtTerm(s, a.term), AtTerm(s', a.term));
      CompactedAppendAtTerm(AtTerm(s, a.term), AtTerm(s', a.term), a);
    }
  }

  /** The answer of AppendAtTerm depends on the log only through these accessors. */
  lemma SameAnswer(s: Node, s': Node, a: AppendArgs)
    requires s.Valid() && s'.Valid() && s.snapIndex <= s'.snapIndex <= a.prevIndex
    requires s'.LastIndex() == s.LastIndex() && s'.term == s.term
    requires a.prevIndex <= s.LastIndex() ==> s'.TermOf(a.prevIndex) == s.TermOf(a.prevIndex)
    requires a.prevIndex <= s.LastIndex() ==>
      (Clash(s.logs, a.prevIndex - s.snapIndex, a.entries) <==> Clash(s'.logs, a.prevIndex - s'.snapIndex, a.entries))
    ensures var r, r' := AppendAtTerm(s, a), AppendAtTerm(s', a);
      && (r.Halted? <==> r'.Halted?)
      && (r.Done? ==> r'.reply.success == r.reply.success && r'.reply.term == r.reply.term)
      && (r.Done? && !r.reply.success ==> r.node == s && r'.node == s')
      && (r.Done? && r.reply.success ==>
          a.prevIndex <= s.LastIndex() && r.node == Accept(s, a) && r'.node == Accept(s', a))
  {
  }

  lemma CompactedAnswer(s: Node, s': Node, a: AppendArgs)
    requires s.Valid() && s'.Valid() && Compacts(s, s') && a.prevIndex >= s'.snapIndex
    ensures var r, r' := AppendAtTerm(s, a), AppendAtTerm(s', a);
      && (r.Halted? <==> r'.Halted?)
      && (r.Done? ==> r'.reply.success == r.reply.success && r'.reply.term == r.reply.term)
      && (r.Done? && !r.reply.success ==> r.node == s && r'.node == s')
      && (r.Done? && r.reply.success ==>
          a.prevIndex <= s.snapIndex + |s.logs| && r.node == Accept(s, a) && r'.node == Accept(s', a))
  {
    CompactionLast(s, s');
    if a.prevIndex <= s.LastIndex() {
      CompactionTerm(s, s', a.prevIndex);
      CompactedClash(s.logs, s'.snapIndex - s.snapIndex, a.prevIndex - s.snapIndex, a.entries);
    }
    SameAnswer(s, s', a);
  }

  lemma CompactedAppendAtTerm(s: Node, s': Node, a: AppendArgs)
    requires s.Valid() && s'.Valid() && Compacts(s, s') && a.prevIndex >= s'.snapIndex
    ensures var r, r' := AppendAtTerm(s, a), AppendAtTerm(s', a);
      && (r.Halted? <==> r'.Halted?)
      && (r.Done? ==> r'.reply.success == r.reply.success && r'.reply.term == r.reply.term && Compacts(r.node, r'.node))
  {
    CompactedAnswer(s, s', a);
    if a.prevIndex <= s.snapIndex + |s.logs| { CompactedAccept(s, s', a); }
  }

  lemma CompactedClash(logs: seq<Entry>, d: nat, at: nat, entries: seq<Entry>)
    requires d <= at <= |logs|
    ensures Clash(logs, at, entries) <==> Clash(logs[d..], at - d, entries)
  {
    if Clash(logs, at, entries) {
      var k :| 0 <= k < |entries| && at + k < |logs| && logs[at + k].term == entries[k].term && logs[at + k].command != entries[k].command;
      assert logs[d..][at - d + k] == logs[at + k];
    }
  }

  lemma CompactedAccept(s: Node, s': Node, a: AppendArgs)
    requires s.Valid() && s'.Valid() && Compacts(s, s') && s'.snapIndex <= a.prevIndex <= s.snapIndex + |s.logs|
    ensures Compacts(Accept(s, a), Accept(s', a))
  {
    var t := s.(logs := Overwrite(s.logs, a.prevIndex - s.snapIndex, a.entries));
    var t' := s'.(logs := Overwrite(s'.logs, a.prevIndex - s'.snapIndex, a.entries));
    CompactedMerge(s, s', t, t', a);
    CompactedCommit(s, s', t, t', a);
  }

  lemma CompactedMerge(s: Node, s': Node, t: Node, t': Node, a: AppendArgs)
    requires Compacts(s, s') && s'.snapIndex <= a.prevIndex <= s.snapIndex + |s.logs|
    requires var d := s'.snapIndex - s.snapIndex; d > 0 ==> s.logs[d - 1].index == s'.snapIndex
    requires t == s.(logs := Overwrite(s.logs, a.prevIndex - s.snapIndex, a.entries))
    requires t' == s'.(logs := Overwrite(s'.logs, a.prevIndex - s'.snapIndex, a.entries))
    ensures t'.LastIndex() == t.LastIndex() && Compacts(t, t')
  {
    var d, at := s'.snapIndex - s.snapIndex, a.prevIndex - s.snapIndex;
    CompactedOverwrite(s.logs, d, at, a.entries);
    CompactedWith(s, s', t, t', t.logs, t'.logs);
  }

  lemma CompactedWith(s: Node, s': Node, t: Node, t': Node, logs: seq<Entry>, logs': seq<Entry>)
    requires Compacts(s, s') && |logs| >= s'.snapIndex - s.snapIndex && logs' == logs[s'.snapIndex - s.snapIndex..]
    requires var d := s'.snapIndex - s.snapIndex; d > 0 ==> s.logs[d - 1].index == s'.snapIndex && logs[d - 1] == s.logs[d - 1]
    requires t == s.(logs := logs) && t' == s'.(logs := logs')
    ensures t'.LastIndex() == t.LastIndex() && Compacts(t, t')
  {
    CompactedLogs(s, s', t, t', logs);
  }

  lemma CompactedCommit(s: Node, s': Node, t: Node, t': Node, a: AppendArgs)
    requires SameRest(s, s') && s.snapIndex <= s'.snapIndex <= a.prevIndex <= s.snapIndex + |s.logs|
    requires a.prevIndex <= s'.snapIndex + |s'.logs|
    requires t == s.(logs := Overwrite(s.logs, a.prevIndex - s.snapIndex, a.entries))
    requires t' == s'.(logs := Overwrite(s'.logs, a.prevIndex - s'.snapIndex, a.entries))
    requires t'.LastIndex() == t.LastIndex() && Compacts(t, t')
    ensures Compacts(Accept(s, a), Accept(s', a))
  {
    SameCommit(s, s', t, t', a);
    CompactedSame(t, t', Accept(s, a), Accept(s', a));
  }

  lemma CompactedOverwrite(logs: seq<Entry>, d: nat, at: nat, entries: seq<Entry>)
    requires d <= at <= |logs|
    ensures var r := Overwrite(logs, at, entries);
      && |r| == Max(|logs|, at + |entries|) && r[d..] == Overwrite(logs[d..], at - d, entries) && (d > 0 ==> r[d - 1] == logs[d - 1])
  {
    OverwriteSuffix(logs, d, at, entries);
    if d > 0 { OverwriteAt(logs, at, entries, d - 1); }
  }

  lemma SameCommit(s: Node, s': Node, t: Node, t': Node, a: AppendArgs)
    requires SameRest(s, s') && s.snapIndex <= s'.snapIndex <= a.prevIndex <= s.snapIndex + |s.logs|
    requires a.prevIndex <= s'.snapIndex + |s'.logs|
    requires t == s.(logs := Overwrite(s.logs, a.prevIndex - s.snapIndex, a.entries))
    requires t' == s'.(logs := Overwrite(s'.logs, a.prevIndex - s'.snapIndex, a.entries))
    requires t'.LastIndex() == t.LastIndex()
    ensures SameLog(t, Accept(s, a)) && SameLog(t', Accept(s', a)) && SameRest(Accept(s, a), Accept(s', a))
  {
  }

  lemma CompactedLogs(s: Node, s': Node, t: Node, t': Node, logs: seq<Entry>)
    requires Compacts(s, s') && |logs| >= s'.snapIndex - s.snapIndex
    requires var d := s'.snapIndex - s.snapIndex; d > 0 ==> s.logs[d - 1].index == s'.snapIndex
    requires var d := s'.snapIndex - s.snapIndex; d > 0 ==> logs[d - 1] == s.logs[d - 1]
    requires t == s.(logs := logs) && t' == s'.(logs := logs[s'.snapIndex - s.snapIndex..])
    ensures t'.LastIndex() == t.LastIndex() && Compacts(t, t')
  {
  }

  lemma SameBeat(s: Node, s': Node, p: nat)
    requires s.Valid() && s'.Valid() && SameRest(s, s') && s.snapIndex <= s'.snapIndex && s'.LastIndex() == s.LastIndex()
    requires p < s.peers && p != s.me && s.nextIndex[p] > s'.snapIndex
    requires var prev := s.nextIndex[p] - 1;
      prev <= s.LastIndex() ==> s'.TermOf(prev) == s.TermOf(prev) && s'.logs[prev - s'.snapIndex..] == s.logs[prev - s.snapIndex..]
    ensures BeatFor(s', p) == BeatFor(s, p)
  {
  }

  /** A leader tells every peer above the snapshot point the same previous entry and entries. */
  lemma CompactedBeat(s: Node, s': Node, p: nat)
    requires s.Valid() && s'.Valid() && Compacts(s, s') && p < s.peers && p != s.me && s.nextIndex[p] > s'.snapIndex
    ensures BeatFor(s', p) == BeatFor(s, p)
  {
    CompactionLast(s, s');
    if s.nextIndex[p] - 1 <= s.LastIndex() { CompactedPrevious(s, s', s.nextIndex[p] - 1); }
    SameBeat(s, s', p);
  }

  lemma CompactedPrevious(s: Node, s': Node, prev: nat)
    requires s.Valid() && s'.Valid() && Compacts(s, s') && s'.snapIndex <= prev <= s.LastIndex() == s'.LastIndex()
    ensures s'.TermOf(prev) == s.TermOf(prev) && s'.logs[prev - s'.snapIndex..] == s.logs[prev - s.snapIndex..]
  {
    CompactionTerm(s, s', prev);
    CompactedSuffix(s.logs, s'.snapIndex - s.snapIndex, prev - s.snapIndex);
  }

  lemma CompactedSuffix(logs: seq<Entry>, d: nat, at: nat)
    requires d <= at <= |logs|
    ensures logs[d..][at - d..] == logs[at..]
  {
  }
}
