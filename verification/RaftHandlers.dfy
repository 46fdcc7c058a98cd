/**
  The lock-held handlers of a Raft node as functions on its state
  (raft_KV/src/raftCore/raft.cpp).  `RaftObject.Raft` runs the same handlers
  step by step and is proved to compute these functions.
 */
module RaftHandlers {
  import opened RaftTypes

  // ---------------------------------------------------------------- election

  function RequestVote(s: Node, a: VoteArgs): Result<VoteReply> {
    if a.term < s.term then Done(s, VoteReply(s.term, false))
    else
      var s1 := if a.term > s.term then s.StepDown(a.term) else s;
      if !s1.UpToDate(a.lastIndex, a.lastTerm) then Done(s1, VoteReply(s1.term, false))
      else if s1.votedFor != -1 && s1.votedFor != a.candidate then Done(s1, VoteReply(s1.term, false))
      else Done(s1.(votedFor := a.candidate), VoteReply(s1.term, true))
  }

  /** doElection of a node that is not Leader. */
  function StartElection(s: Node): (Node, VoteArgs) {
    var s1 := s.(status := Candidate, term := s.term + 1, votedFor := s.me);
    (s1, VoteArgs(s1.term, s.me, s1.LastIndex(), s1.LastTerm()))
  }

  /** The reply half of sendRequestVote; the answer is the new shared tally. */
  function HandleVoteReply(s: Node, r: VoteReply, tally: int): Result<int> {
    if r.term > s.term then Done(s.StepDown(r.term), tally)
    else if r.term < s.term || !r.granted then Done(s, tally)
    else if tally + 1 < s.Majority() then Done(s, tally + 1)
    else if s.status == Leader then Halted
    else Done(BecomeLeader(s), 0)
  }

  function BecomeLeader(s: Node): Node {
    var next := s.LastIndex() + 1;
    s.(status := Leader, nextIndex := seq(|s.nextIndex|, _ => next), matchIndex := seq(|s.matchIndex|, _ => 0))
  }

  // ------------------------------------------------------------- replication

  /** `entries` written over `logs` from position `at`; what lies behind them stays. */
  function Overwrite(logs: seq<Entry>, at: nat, entries: seq<Entry>): (r: seq<Entry>)
    requires at <= |logs|
  {
    if at + |entries| >= |logs| then logs[..at] + entries
    else logs[..at] + entries + logs[at + |entries|..]
  }

  /** A stored entry with the term of the sent one but another command. */
  predicate Clash(logs: seq<Entry>, at: nat, entries: seq<Entry>) {
    exists k | 0 <= k < |entries| && at + k < |logs| ::
      logs[at + k].term == entries[k].term && logs[at + k].command != entries[k].command
  }

  /** A stored entry with a term different from the sent one. */
  predicate Conflict(logs: seq<Entry>, at: nat, entries: seq<Entry>) {
    exists k | 0 <= k < |entries| && at + k < |logs| :: logs[at + k].term != entries[k].term
  }

  /** The fast back-up hint: one past the last index, going down from `index`,
      whose term differs from the one at `prev`; `prev` when there is none. */
  function BackUp(s: Node, prev: nat, index: int): int
    requires s.snapIndex <= prev <= s.snapIndex + |s.logs|
    requires s.snapIndex - 1 <= index <= prev
    decreases index - s.snapIndex + 1
  {
    if index < s.snapIndex then prev
    else if s.TermOf(index) != s.TermOf(prev) then index + 1
    else BackUp(s, prev, index - 1)
  }

  /** The part of AppendEntries1 that follows the term checks. */
  function AppendAtTerm(s: Node, a: AppendArgs): Result<AppendReply>
    requires s.Valid()
  {
    if a.prevIndex > s.LastIndex() then Done(s, AppendReply(s.term, false, s.LastIndex() + 1))
    else if a.prevIndex < s.snapIndex then Halted
    else if s.TermOf(a.prevIndex) != a.prevTerm then
      Done(s, AppendReply(s.term, false, BackUp(s, a.prevIndex, a.prevIndex)))
    else if Clash(s.logs, a.prevIndex - s.snapIndex, a.entries) then Halted
    else Done(Accept(s, a), AppendReply(s.term, true, 0))
  }

  function Accept(s: Node, a: AppendArgs): Node
    requires s.snapIndex <= a.prevIndex <= s.snapIndex + |s.logs|
  {
    var s1 := s.(logs := Overwrite(s.logs, a.prevIndex - s.snapIndex, a.entries));
    if a.leaderCommit > s1.commit then s1.(commit := Min(a.leaderCommit, s1.LastIndex())) else s1
  }

  function AtTerm(s: Node, term: nat): Node {
    if term > s.term then s.StepDown(term) else s.(status := Follower)
  }

  function AppendEntries(s: Node, a: AppendArgs): Result<AppendReply>
    requires s.Valid()
  {
    if a.term < s.term then Done(s, AppendReply(s.term, false, -100))
    else AppendAtTerm(AtTerm(s, a.term), a)
  }

  datatype Beat = NoBeat | BeatHalts | SendSnapshot | SendAppend(args: AppendArgs)

  /** What doHeartBeat sends to peer `p`. */
  function BeatFor(s: Node, p: nat): Beat
    requires s.Valid() && p < s.peers
  {
    if p == s.me then NoBeat
    else if s.nextIndex[p] < 1 then BeatHalts
    else if s.nextIndex[p] <= s.snapIndex then SendSnapshot
    else if s.nextIndex[p] - 1 > s.LastIndex() then BeatHalts
    else
      var prev := s.nextIndex[p] - 1;
      SendAppend(AppendArgs(s.term, s.me, prev, s.TermOf(prev), s.logs[prev - s.snapIndex..], s.commit))
  }

  /** The reply half of sendAppendEntries; the answer is the new round counter. */
  function HandleAppendReply(s: Node, p: nat, a: AppendArgs, r: AppendReply, count: int): Result<int>
    requires s.Valid() && p < s.peers
  {
    if r.term > s.term then Done(s.StepDown(r.term), count)
    else if r.term < s.term || s.status != Leader then Done(s, count)
    else if !r.success then
      Done(if r.next != -100 then s.(nextIndex := s.nextIndex[p := r.next]) else s, count)
    else
      var m := Max(s.matchIndex[p], a.End());
      var s1 := s.(matchIndex := s.matchIndex[p := m], nextIndex := s.nextIndex[p := m + 1]);
      if m > s.LastIndex() then Halted
      else if count + 1 < s.Majority() then Done(s1, count + 1)
      else Done(if CommitsAt(s, a) then s1.(commit := Max(s.commit, a.End())) else s1, 0)
  }

  /** The current-term commit rule. */
  predicate CommitsAt(s: Node, a: AppendArgs) {
    |a.entries| > 0 && a.entries[|a.entries| - 1].term == s.term
  }

  /** Start on a Leader. */
  function Start(s: Node, command: Op): Node {
    s.(logs := s.logs + [Entry(s.LastIndex() + 1, s.term, command)])
  }

  // ------------------------------------------------- apply stream, compaction

  /** The messages getApplyLogs hands out. */
  function ApplyMsgs(s: Node): seq<ApplyMsg>
    requires s.Valid()
  {
    seq(s.commit - s.applied, k requires 0 <= k < s.commit - s.applied =>
      ApplyMsg(s.applied + 1 + k, s.logs[s.applied + k - s.snapIndex].command))
  }

  function AfterApply(s: Node): Node
    requires s.Valid()
  {
    s.(applied := s.commit)
  }

  /** Snapshot: a local call compacts the log up to `index`. */
  function Snapshot(s: Node, index: nat): Node
    requires s.Valid()
  {
    if s.snapIndex >= index || index > s.commit then s
    else s.(snapIndex := index, snapTerm := s.TermOf(index), logs := s.logs[index - s.snapIndex..],
            applied := Max(s.applied, index))
  }

  /** InstallSnapshot.  An outdated snapshot leaves the reply at its default term 0. */
  function InstallSnapshot(s: Node, a: SnapArgs): Result<SnapReply>
    requires s.Valid()
  {
    if a.term < s.term then Done(s, SnapReply(s.term))
    else
      var s1 := AtTerm(s, a.term);
      if a.snapIndex <= s1.snapIndex then Done(s1, SnapReply(0))
      else Done(Installed(s1, a), SnapReply(s1.term))
  }

  function Installed(s: Node, a: SnapArgs): Node
    requires s.Valid() && a.snapIndex > s.snapIndex
  {
    s.(logs := if s.LastIndex() > a.snapIndex then s.logs[a.snapIndex - s.snapIndex..] else [],
       commit := Max(s.commit, a.snapIndex), applied := Max(s.applied, a.snapIndex),
       snapIndex := a.snapIndex, snapTerm := a.snapTerm)
  }

  /** The request half of leaderSendSnapShot; it does not check that the node still leads. */
  function SnapshotArgs(s: Node): SnapArgs { SnapArgs(s.term, s.me, s.snapIndex, s.snapTerm) }

  /** The reply half of leaderSendSnapShot. */
  function HandleSnapshotReply(s: Node, p: nat, a: SnapArgs, r: SnapReply): Node
    requires s.Valid() && p < s.peers
  {
    if s.status != Leader || s.term != a.term then s
    else if r.term > s.term then s.StepDown(r.term)
    else s.(matchIndex := s.matchIndex[p := a.snapIndex], nextIndex := s.nextIndex[p := a.snapIndex + 1])
  }
}
