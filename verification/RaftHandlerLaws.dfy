/**
  What every handler does, written out in the fields of node and message: when a
  vote is granted, when a message is taken over and what the commit index becomes,
  when a node steps down, becomes leader or commits
  (raft_KV/src/raftCore/raft.cpp).
 */
module RaftHandlerLaws {
  import opened RaftTypes
  import opened RaftHandlers
  import opened RaftReplication

  // -------------------------------------------------------------------- the log

  /** The term of the entry at `index`, with the snapshot standing for the one at its point. */
  predicate TermIs(s: Node, index: nat, term: nat) {
    || (index == s.snapIndex && s.snapTerm == term)
    || (s.snapIndex < index <= s.snapIndex + |s.logs| && s.logs[index - s.snapIndex - 1].term == term)
  }

  lemma LastEntry(s: Node)
    requires s.Valid()
    ensures s.LastIndex() == s.snapIndex + |s.logs| && TermIs(s, s.LastIndex(), s.LastTerm())
    ensures forall k: nat | s.snapIndex <= k <= s.snapIndex + |s.logs| :: TermIs(s, k, s.TermOf(k))
  {
  }

  // --------------------------------------------------------------------- voting

  /** A vote is granted exactly when the term is not over, no other vote was cast in it,
      and the candidate's log ends no earlier than the voter's. */
  lemma VoteGranted(s: Node, a: VoteArgs)
    requires s.Valid()
    ensures RequestVote(s, a).Done?
    ensures RequestVote(s, a).reply.granted <==>
      && a.term >= s.term
      && (a.term > s.term || s.votedFor == -1 || s.votedFor == a.candidate)
      && (a.lastTerm > s.LastTerm() || (a.lastTerm == s.LastTerm() && a.lastIndex >= s.snapIndex + |s.logs|))
  {
    LastEntry(s);
  }

  /** Voter and answer are in the larger of the two terms, and nothing but term, vote and status changes. */
  lemma VoteAnswered(s: Node, a: VoteArgs)
    ensures RequestVote(s, a).Done?
    ensures var r, term := RequestVote(s, a), if a.term > s.term then a.term else s.term;
      && r.reply.term == term
      && r.node == s.(
           term := term,
           votedFor := if r.reply.granted then a.candidate else if a.term > s.term then -1 else s.votedFor,
           status := if a.term > s.term then Follower else s.status)
  {
  }

  /** A candidate votes for itself in a new term and asks with its last entry. */
  lemma ElectionStarts(s: Node)
    requires s.Valid()
    ensures var (s', a) := StartElection(s);
      && s' == s.(status := Candidate, term := s.term + 1, votedFor := s.me)
      && a.term == s.term + 1 && a.candidate == s.me
      && a.lastIndex == s.snapIndex + |s.logs| && TermIs(s, a.lastIndex, a.lastTerm)
  {
    LastEntry(s);
  }

  /** A vote reply of a larger term makes the node step down; one of its own term that grants is counted;
      the majority makes it leader, unless it leads already; every other reply changes nothing. */
  lemma VoteReplyCounts(s: Node, r: VoteReply, tally: int)
    requires s.Valid()
    ensures var o := HandleVoteReply(s, r, tally);
      var counts := r.term == s.term && r.granted;
      var wins := counts && tally + 1 >= s.peers / 2 + 1;
      && (o.Halted? <==> wins && s.status == Leader)
      && (r.term > s.term ==> o == Done(s.(term := r.term, votedFor := -1, status := Follower), tally))
      && (r.term <= s.term && !counts ==> o == Done(s, tally))
      && (counts && !wins ==> o == Done(s, tally + 1))
      && (wins && s.status != Leader ==>
          && o.reply == 0 && o.node.status == Leader
          && (forall p | 0 <= p < s.peers :: o.node.nextIndex[p] == s.snapIndex + |s.logs| + 1 && o.node.matchIndex[p] == 0)
          && o.node == s.(status := Leader, nextIndex := o.node.nextIndex, matchIndex := o.node.matchIndex)
          && |o.node.nextIndex| == |o.node.matchIndex| == s.peers)
  {
    LastEntry(s);
  }

  // ------------------------------------------------------------- append entries

  /** A stored entry of the term of the sent one at its index, with another command. */
  predicate Differs(s: Node, a: AppendArgs) {
    exists k | 0 <= k < |a.entries| && s.snapIndex <= a.prevIndex + k < s.snapIndex + |s.logs| ::
      var e := s.logs[a.prevIndex + k - s.snapIndex];
      e.term == a.entries[k].term && e.command != a.entries[k].command
  }

  /** A message is taken over exactly when its term is not over, the previous entry is stored with the
      same term, and no entry differs from one of its term; the process ends exactly when the message
      starts below the snapshot point or an entry differs. */
  lemma AppendOutcome(s: Node, a: AppendArgs)
    requires s.Valid()
    ensures var r := AppendEntries(s, a);
      && (r.Halted? <==> a.term >= s.term && (a.prevIndex < s.snapIndex || (TermIs(s, a.prevIndex, a.prevTerm) && Differs(s, a))))
      && (r.Done? ==> (r.reply.success <==> a.term >= s.term && TermIs(s, a.prevIndex, a.prevTerm) && !Differs(s, a)))
  {
    LastEntry(s);
    if s.snapIndex <= a.prevIndex { DiffersIsClash(s, a); }
  }

  lemma DiffersIsClash(s: Node, a: AppendArgs)
    requires s.snapIndex <= a.prevIndex
    ensures Differs(s, a) <==> Clash(s.logs, a.prevIndex - s.snapIndex, a.entries)
  {
    var at := a.prevIndex - s.snapIndex;
    if Clash(s.logs, at, a.entries) {
      var k :| 0 <= k < |a.entries| && at + k < |s.logs| &&
        s.logs[at + k].term == a.entries[k].term && s.logs[at + k].command != a.entries[k].command;
      assert s.logs[a.prevIndex + k - s.snapIndex] == s.logs[at + k];
    }
    if Differs(s, a) {
      var k :| 0 <= k < |a.entries| && s.snapIndex <= a.prevIndex + k < s.snapIndex + |s.logs| &&
        s.logs[a.prevIndex + k - s.snapIndex].term == a.entries[k].term &&
        s.logs[a.prevIndex + k - s.snapIndex].command != a.entries[k].command;
      assert s.logs[at + k] == s.logs[a.prevIndex + k - s.snapIndex];
    }
  }

  /** The follower's commit index follows the leader's, as far as its new log goes, whenever a message is
      taken over, empty ones included; no other outcome moves it. */
  lemma CommitFollows(s: Node, a: AppendArgs)
    requires s.Valid() && a.Numbered() && AppendEntries(s, a).Done?
    ensures var r := AppendEntries(s, a);
      r.node.commit ==
        if r.reply.success then Max(s.commit, Min(a.leaderCommit, Max(s.snapIndex + |s.logs|, a.prevIndex + |a.entries|)))
        else s.commit
  {
    LastEntry(s);
    if a.term >= s.term && s.snapIndex <= a.prevIndex <= s.snapIndex + |s.logs| {
      AcceptCommits(AtTerm(s, a.term), a);
    }
  }

  lemma AcceptCommits(s: Node, a: AppendArgs)
    requires s.Valid() && a.Numbered() && s.snapIndex <= a.prevIndex <= s.snapIndex + |s.logs|
    ensures Accept(s, a).commit == Max(s.commit, Min(a.leaderCommit, Max(s.snapIndex + |s.logs|, a.prevIndex + |a.entries|)))
  {
    var logs := Overwrite(s.logs, a.prevIndex - s.snapIndex, a.entries);
    OverwriteNumbered(s.logs, s.snapIndex, a.prevIndex - s.snapIndex, a.entries);
    CommitIs(s, logs, Accept(s, a), a);
  }

  lemma CommitIs(s: Node, logs: seq<Entry>, s': Node, a: AppendArgs)
    requires s.Valid() && s.snapIndex <= a.prevIndex && |logs| == Max(|s.logs|, a.End() - s.snapIndex)
    requires forall k | 0 <= k < |logs| :: logs[k].index == s.snapIndex + 1 + k
    requires var s1 := s.(logs := logs);
      s' == if a.leaderCommit > s1.commit then s1.(commit := Min(a.leaderCommit, s1.LastIndex())) else s1
    ensures s'.commit == Max(s.commit, Min(a.leaderCommit, Max(s.snapIndex + |s.logs|, a.prevIndex + |a.entries|)))
  {
  }

  /** What a message does to the log: the sent entries stand at their indices, all others stay. */
  lemma LogFollows(s: Node, a: AppendArgs)
    requires s.Valid() && AppendEntries(s, a).Done?
    ensures var r := AppendEntries(s, a);
      if r.reply.success then
        var at := a.prevIndex - s.snapIndex;
        && at >= 0 && |r.node.logs| == Max(|s.logs|, at + |a.entries|)
        && forall k | 0 <= k < |r.node.logs| ::
             r.node.logs[k] == if at <= k < at + |a.entries| then a.entries[k - at] else s.logs[k]
      else r.node.logs == s.logs
  {
    LastEntry(s);
    if AppendEntries(s, a).reply.success { AcceptLogs(AtTerm(s, a.term), a); }
  }

  lemma AcceptLogs(s: Node, a: AppendArgs)
    requires s.snapIndex <= a.prevIndex <= s.snapIndex + |s.logs|
    ensures var at, logs := a.prevIndex - s.snapIndex, Accept(s, a).logs;
      && |logs| == Max(|s.logs|, at + |a.entries|)
      && forall k | 0 <= k < |logs| :: logs[k] == if at <= k < at + |a.entries| then a.entries[k - at] else s.logs[k]
  {
  }

  /** Whoever sends, a message of an older term changes nothing; any other makes the receiver a follower in
      its term; vote, snapshot point, lastApplied and the peers' indices are its own affair. */
  lemma AppendRest(s: Node, a: AppendArgs)
    requires s.Valid() && AppendEntries(s, a).Done?
    ensures var r := AppendEntries(s, a);
      && (a.term < s.term ==> r.node == s)
      && (a.term >= s.term ==> r.node == s.(
            term := a.term, votedFor := if a.term > s.term then -1 else s.votedFor, status := Follower,
            logs := r.node.logs, commit := r.node.commit))
      && r.reply.term == r.node.term
  {
  }

  /** The hint of a refusal: none to an older term, one past the last index to a message beyond it, and
      else the first index of the run of entries that share the term at prev, when something differs below it. */
  lemma RefusalHint(s: Node, a: AppendArgs)
    requires s.Valid() && AppendEntries(s, a).Done? && !AppendEntries(s, a).reply.success
    ensures var next := AppendEntries(s, a).reply.next;
      && (a.term < s.term ==> next == -100)
      && (a.term >= s.term && a.prevIndex > s.snapIndex + |s.logs| ==> next == s.snapIndex + |s.logs| + 1)
      && (a.term >= s.term && a.prevIndex <= s.snapIndex + |s.logs| ==> s.snapIndex <= a.prevIndex && RunStart(s, a.prevIndex, next))
  {
    LastEntry(s);
    if a.term >= s.term && s.snapIndex <= a.prevIndex <= s.snapIndex + |s.logs| {
      BackUpHint(AtTerm(s, a.term), a.prevIndex, a.prevIndex);
      SameTerms(s, AtTerm(s, a.term));
    }
  }

  ghost predicate SharesTerm(s: Node, j: nat, k: nat) {
    exists t: nat :: TermIs(s, j, t) && TermIs(s, k, t)
  }

  /** `hint` is where the run of entries of the term at `prev` starts; `prev` itself when nothing stored differs. */
  ghost predicate RunStart(s: Node, prev: nat, hint: int) {
    if forall k: nat | s.snapIndex <= k <= prev :: SharesTerm(s, k, prev) then hint == prev
    else
      && s.snapIndex < hint <= prev && !SharesTerm(s, hint - 1, prev)
      && forall k: nat | hint <= k <= prev :: SharesTerm(s, k, prev)
  }

  lemma SameTerms(s: Node, t: Node)
    requires s.Valid() && t.logs == s.logs && t.snapIndex == s.snapIndex && t.snapTerm == s.snapTerm
    ensures forall j: nat, k: nat | s.snapIndex <= j <= s.snapIndex + |s.logs| && s.snapIndex <= k <= s.snapIndex + |s.logs| ::
      SharesTerm(s, j, k) <==> t.TermOf(j) == t.TermOf(k)
  {
    forall j: nat, k: nat | s.snapIndex <= j <= s.snapIndex + |s.logs| && s.snapIndex <= k <= s.snapIndex + |s.logs|
      ensures SharesTerm(s, j, k) <==> t.TermOf(j) == t.TermOf(k)
    {
      assert TermIs(s, j, t.TermOf(j)) && TermIs(s, k, t.TermOf(k));
    }
  }

  // ---------------------------------------------------------- heartbeat, replies

  /** A peer whose next entry is compacted is sent a snapshot, any other all stored entries from its
      next one on, with the term of the entry before them and the commit index. */
  lemma BeatCarriesAll(s: Node, p: nat)
    requires s.Valid() && p < s.peers && p != s.me
    ensures var b, next := BeatFor(s, p), s.nextIndex[p];
      && (b.BeatHalts? <==> next < 1 || next > s.snapIndex + |s.logs| + 1)
      && (b.SendSnapshot? <==> 1 <= next <= s.snapIndex)
      && !b.NoBeat?
      && (b.SendAppend? ==>
          && b.args.term == s.term && b.args.leader == s.me && b.args.prevIndex == next - 1 && b.args.leaderCommit == s.commit
          && TermIs(s, b.args.prevIndex, b.args.prevTerm)
          && b.args.prevIndex + |b.args.entries| == s.snapIndex + |s.logs|
          && forall k | 0 <= k < |b.args.entries| :: b.args.entries[k] == s.logs[next - 1 - s.snapIndex + k])
  {
    LastEntry(s);
  }

  /** An append reply of a larger term makes the node step down; to one of its own term a leader moves
      nextIndex back on a refusal with a hint, and both indices of the peer forward on a success. */
  lemma AppendReplyMoves(s: Node, p: nat, a: AppendArgs, r: AppendReply, count: int)
    requires s.Valid() && p < s.peers
    ensures var o := HandleAppendReply(s, p, a, r, count);
      var heard := r.term == s.term && s.status == Leader;
      var match_ := Max(s.matchIndex[p], a.prevIndex + |a.entries|);
      && (o.Halted? <==> heard && r.success && match_ > s.snapIndex + |s.logs|)
      && (r.term > s.term ==> o == Done(s.(term := r.term, votedFor := -1, status := Follower), count))
      && (r.term <= s.term && !heard ==> o == Done(s, count))
      && (heard && !r.success ==>
          o == Done(if r.next == -100 then s else s.(nextIndex := s.nextIndex[p := r.next]), count))
      && (heard && r.success && o.Done? ==>
          && o.node == s.(matchIndex := s.matchIndex[p := match_], nextIndex := s.nextIndex[p := match_ + 1], commit := o.node.commit)
          && o.reply == if count + 1 >= s.peers / 2 + 1 then 0 else count + 1)
  {
    LastEntry(s);
  }

  /** A leader's commit index rises to the end of the message exactly when this success makes the majority
      of its round and the message's last entry is of the current term. */
  lemma LeaderCommits(s: Node, p: nat, a: AppendArgs, r: AppendReply, count: int)
    requires s.Valid() && p < s.peers && HandleAppendReply(s, p, a, r, count).Done?
    ensures HandleAppendReply(s, p, a, r, count).node.commit ==
      if r.term == s.term && s.status == Leader && r.success && count + 1 >= s.peers / 2 + 1 &&
         a.entries != [] && a.entries[|a.entries| - 1].term == s.term
      then Max(s.commit, a.prevIndex + |a.entries|) else s.commit
  {
  }

  // ----------------------------------------------------- commands and snapshots

  lemma StartAppends(s: Node, op: Op)
    requires s.Valid()
    ensures Start(s, op) == s.(logs := s.logs + [Entry(s.snapIndex + |s.logs| + 1, s.term, op)])
  {
    LastEntry(s);
  }

  /** All committed commands that are not applied yet are handed out, in order, once. */
  lemma ApplyHandsAll(s: Node)
    requires s.Valid()
    ensures AfterApply(s) == s.(applied := s.commit)
    ensures |ApplyMsgs(s)| == s.commit - s.applied
    ensures forall m | 0 <= m < |ApplyMsgs(s)| ::
      ApplyMsgs(s)[m] == ApplyMsg(s.applied + 1 + m, s.logs[s.applied + m - s.snapIndex].command)
  {
  }

  /** A local snapshot compacts exactly when its index is new and committed. */
  lemma SnapshotTaken(s: Node, index: nat)
    requires s.Valid()
    ensures var s', taken := Snapshot(s, index), s.snapIndex < index <= s.commit;
      && (!taken ==> s' == s)
      && (taken ==>
          && s'.snapIndex == index && TermIs(s, index, s'.snapTerm) && |s'.logs| == s.snapIndex + |s.logs| - index
          && (forall k | 0 <= k < |s'.logs| :: s'.logs[k] == s.logs[index - s.snapIndex + k])
          && s' == s.(snapIndex := index, snapTerm := s'.snapTerm, logs := s'.logs, applied := Max(s.applied, index)))
  {
    LastEntry(s);
  }

  /** A snapshot is installed exactly when its term is not over and its index is new; entries behind it stay. */
  lemma SnapshotInstalled(s: Node, a: SnapArgs)
    requires s.Valid()
    ensures InstallSnapshot(s, a).Done?
    ensures var r, installs := InstallSnapshot(s, a), a.term >= s.term && a.snapIndex > s.snapIndex;
      && (a.term < s.term ==> r.node == s && r.reply.term == s.term)
      && (a.term >= s.term && !installs ==>
          r.node == s.(term := a.term, votedFor := if a.term > s.term then -1 else s.votedFor, status := Follower) && r.reply.term == 0)
      && (installs ==>
          && r.reply.term == a.term && r.node.snapIndex == a.snapIndex && r.node.snapTerm == a.snapTerm
          && |r.node.logs| == Max(0, s.snapIndex + |s.logs| - a.snapIndex)
          && (forall k | 0 <= k < |r.node.logs| :: r.node.logs[k] == s.logs[a.snapIndex - s.snapIndex + k])
          && r.node == s.(
               term := a.term, votedFor := if a.term > s.term then -1 else s.votedFor, status := Follower,
               logs := r.node.logs, snapIndex := a.snapIndex, snapTerm := a.snapTerm,
               commit := Max(s.commit, a.snapIndex), applied := Max(s.applied, a.snapIndex)))
  {
    LastEntry(s);
  }

  /** A snapshot reply counts only for a leader still in the term it sent in: a larger term makes it step
      down, any other sets both indices of the peer to the snapshot. */
  lemma SnapshotReplyMoves(s: Node, p: nat, a: SnapArgs, r: SnapReply)
    requires s.Valid() && p < s.peers
    ensures var s', heard := HandleSnapshotReply(s, p, a, r), s.status == Leader && s.term == a.term;
      && (!heard ==> s' == s)
      && (heard && r.term > s.term ==> s' == s.(term := r.term, votedFor := -1, status := Follower))
      && (heard && r.term <= s.term ==>
          s' == s.(matchIndex := s.matchIndex[p := a.snapIndex], nextIndex := s.nextIndex[p := a.snapIndex + 1]))
  {
  }
}
