/**
  What every reachable state of a cluster satisfies, in every run of the code as
  written: tail-keeping merges, snapshot installation, stale replies and halts
  included.
 */
module RaftInvariant {
  import opened RaftTypes
  import opened RaftHandlers
  import opened RaftCluster

  function TermAt(log: seq<Entry>, k: nat): nat
    requires k <= |log|
  {
    if k == 0 then 0 else log[k - 1].term
  }

  /** The comparison of UpToDate between two whole logs. */
  predicate UpToDateLog(cand: seq<Entry>, voter: seq<Entry>) {
    var x, y := TermAt(cand, |cand|), TermAt(voter, |voter|);
    x > y || (x == y && |cand| >= |voter|)
  }

  /** `e` is the entry the leader of its term has at position `p`. */
  ghost predicate EntryFrom(h: History, e: Entry, p: nat) {
    && e.term >= 1 && e.index == p + 1
    && e.term in h.reigns && p < |h.reigns[e.term].log| && h.reigns[e.term].log[p] == e
  }

  ghost predicate LogFrom(h: History, log: seq<Entry>, term: nat) {
    forall p | 0 <= p < |log| :: EntryFrom(h, log[p], p) && log[p].term <= term
  }

  /** The stored log is the history log without its compacted part. */
  ghost predicate Synced(s: Server) {
    && s.node.snapIndex <= |s.full|
    && s.node.logs == s.full[s.node.snapIndex..]
    && s.node.snapTerm == TermAt(s.full, s.node.snapIndex)
  }

  ghost predicate LeaderOk(h: History, s: Server, i: nat)
    requires s.node.Valid()
  {
    var nd := s.node;
    && nd.term in h.reigns && h.reigns[nd.term].leader == i && h.reigns[nd.term].log == s.full
    && (forall p | 0 <= p < nd.peers && p != i :: 1 <= nd.nextIndex[p] <= |s.full| + 1)
    && (forall p | 0 <= p < nd.peers && p != i :: 0 <= nd.matchIndex[p] <= |s.full|)
  }

  /** votedFor is what the history says of the current term. */
  ghost predicate VotedForOk(h: History, nd: Node, i: nat) {
    var key := VoteKey(nd.term, i);
    if nd.votedFor == -1 then key !in h.votes
    else key in h.votes && h.votes[key].cand == nd.votedFor
  }

  /** Handed-out indices rise and stay at or below lastApplied. */
  predicate Rising(msgs: seq<ApplyMsg>, bound: nat) {
    && (forall j, k | 0 <= j < k < |msgs| :: msgs[j].index < msgs[k].index)
    && (forall k | 0 <= k < |msgs| :: 1 <= msgs[k].index <= bound)
  }

  ghost predicate ServerOk(h: History, n: nat, s: Server, i: nat) {
    && ServerTyped(s, i, n)
    && Synced(s)
    && LogFrom(h, s.full, s.node.term)
    && (s.node.status == Leader ==> LeaderOk(h, s, i))
    && VotedForOk(h, s.node, i)
    && Rising(s.delivered, s.node.applied)
  }

  ghost predicate ReignOk(c: Cluster, t: nat, r: Reign) {
    && t >= 1 && r.leader < |c.servers| && t <= c.servers[r.leader].node.term
    && r.start <= r.log
    && LogFrom(c.hist, r.log, t)
    && (forall p | 0 <= p < |r.log| :: r.log[p].term == t <==> p >= |r.start|)
    && |r.voters| >= |c.servers| / 2 + 1
    && (forall j | j in r.voters :: VotedFor(c, t, j, r.leader) && !c.hist.votes[VoteKey(t, j)].late)
  }

  ghost predicate VotedFor(c: Cluster, t: nat, j: nat, cand: nat) {
    j < |c.servers| && VoteKey(t, j) in c.hist.votes && c.hist.votes[VoteKey(t, j)].cand == cand
  }

  ghost predicate VoteOk(c: Cluster, key: VoteKey, v: Vote) {
    && key.voter < |c.servers| && v.cand < |c.servers| && 1 <= key.term <= c.servers[key.voter].node.term
    && VotedFor(c, key.term, v.cand, v.cand)
    && UpToDateLog(c.hist.votes[VoteKey(key.term, v.cand)].log, v.log)
    && (v.late ==> key.term in c.hist.reigns)
  }

  ghost predicate AckOk(c: Cluster, a: Ack) {
    && a.node < |c.servers| && a.term <= c.servers[a.node].node.term
    && a.term in c.hist.reigns && a.index <= |c.hist.reigns[a.term].log|
  }

  ghost predicate Won(h: History, key: ElectionKey) {
    key.term in h.reigns && h.reigns[key.term].leader == key.cand
  }

  /** The tally counts distinct granted votes, and again from zero once won. */
  ghost predicate ElectionOk(c: Cluster, key: ElectionKey, e: Election) {
    var majority := |c.servers| / 2 + 1;
    && VotedFor(c, key.term, key.cand, key.cand)
    && (forall p | p in e.counted :: p != key.cand && VotedFor(c, key.term, p, key.cand))
    && (if Won(c.hist, key) then e.votedNum == |e.counted| - (majority - 1)
        else e.votedNum == 1 + |e.counted| && e.votedNum < majority)
  }

  ghost predicate RoundOk(c: Cluster, r: Round) {
    var majority := |c.servers| / 2 + 1;
    && r.leader < |c.servers| && Won(c.hist, ElectionKey(r.leader, r.term))
    && r.end <= |c.hist.reigns[r.term].log|
    && Ack(r.term, r.end, r.leader) in c.hist.acks
    && (forall p | p in r.counted :: p < |c.servers| && p != r.leader && Ack(r.term, r.end, p) in c.hist.acks)
    && (if r.fired then r.count == |r.counted| - (majority - 1)
        else r.count == 1 + |r.counted| && r.count < majority)
  }

  /** A request carries what its candidate's own vote recorded; a grant is a vote. */
  ghost predicate VoteThreadOk(c: Cluster, tid: ThreadId, th: Thread)
    requires tid.VoteThread? && ThreadTyped(c, tid, th)
  {
    var a := th.voteArgs;
    && VotedFor(c, tid.term, tid.cand, tid.cand)
    && tid.peer !in c.elections[ElectionKey(tid.cand, tid.term)].counted
    && (var log := c.hist.votes[VoteKey(tid.term, tid.cand)].log;
        a == VoteArgs(tid.term, tid.cand, |log|, TermAt(log, |log|)))
    && (th.VoteAnswered? && th.voteReply.granted ==>
        th.voteReply.term == tid.term && VotedFor(c, tid.term, tid.peer, tid.cand))
  }

  /** `a` carries the segment of term `a.term`'s leader log that ends at the round's end. */
  ghost predicate Carries(c: Cluster, r: Round, a: AppendArgs) {
    && Won(c.hist, ElectionKey(r.leader, r.term))
    && a.term == r.term && a.leader == r.leader && a.End() == r.end
    && r.end <= |c.hist.reigns[r.term].log|
    && a.entries == c.hist.reigns[r.term].log[a.prevIndex..r.end]
    && a.prevTerm == TermAt(c.hist.reigns[r.term].log, a.prevIndex)
    && a.leaderCommit <= r.end
  }

  /** Success means an acknowledgement; a rejection hint lies in 1..prevIndex. */
  ghost predicate AppendAnswerOk(c: Cluster, p: nat, a: AppendArgs, reply: AppendReply) {
    if reply.success then reply.term == a.term && Ack(a.term, a.End(), p) in c.hist.acks
    else reply.next == -100 || (reply.term == a.term && 1 <= reply.next <= a.prevIndex)
  }

  ghost predicate AppendThreadOk(c: Cluster, tid: ThreadId, th: Thread)
    requires tid.AppendThread? && ThreadTyped(c, tid, th)
  {
    var r := c.rounds[tid.round];
    && Carries(c, r, th.args)
    && tid.peer !in r.counted
    && (th.AppendAnswered? ==> AppendAnswerOk(c, tid.peer, th.args, th.reply))
  }

  ghost predicate SnapThreadOk(c: Cluster, tid: ThreadId, th: Thread)
    requires tid.SnapThread? && ThreadTyped(c, tid, th)
  {
    var nd := c.servers[th.from].node;
    && (th.SnapSent? || th.SnapAnswered? ==> th.snapArgs.term <= nd.term && th.snapArgs.snapIndex <= nd.snapIndex)
    && (th.SnapSent? ==>
        && th.snapArgs.snapIndex == |th.prefix|
        && th.snapArgs.snapTerm == TermAt(th.prefix, |th.prefix|)
        && LogFrom(c.hist, th.prefix, th.snapArgs.term))
  }

  ghost predicate ThreadOk(c: Cluster, tid: ThreadId, th: Thread) {
    && ThreadTyped(c, tid, th)
    && match tid
       case VoteThread(_, _, _) => VoteThreadOk(c, tid, th)
       case AppendThread(_, _) => AppendThreadOk(c, tid, th)
       case SnapThread(_) => SnapThreadOk(c, tid, th)
  }

  ghost predicate ServersOk(c: Cluster) {
    forall i | 0 <= i < |c.servers| :: ServerOk(c.hist, |c.servers|, c.servers[i], i)
  }

  ghost predicate HistoryOk(c: Cluster) {
    && (forall t | t in c.hist.reigns :: ReignOk(c, t, c.hist.reigns[t]))
    && (forall key | key in c.hist.votes :: VoteOk(c, key, c.hist.votes[key]))
    && (forall a | a in c.hist.acks :: AckOk(c, a))
  }

  ghost predicate ElectionsOk(c: Cluster) {
    forall key | key in c.elections :: ElectionOk(c, key, c.elections[key])
  }

  ghost predicate RoundsOk(c: Cluster) {
    forall k | 0 <= k < |c.rounds| :: RoundOk(c, c.rounds[k])
  }

  ghost predicate ThreadsOk(c: Cluster) {
    forall tid | tid in c.threads :: ThreadOk(c, tid, c.threads[tid])
  }

  ghost predicate Inv(c: Cluster) {
    |c.servers| >= 2 && ServersOk(c) && HistoryOk(c) && ElectionsOk(c) && RoundsOk(c) && ThreadsOk(c)
  }

  // ------------------------------------------------------------------ frames

  ghost predicate ReignGrows(r: Reign, r': Reign, i: nat) {
    && r'.leader == r.leader && r'.voters == r.voters && r'.start == r.start && r.log <= r'.log
    && (r.leader != i ==> r'.log == r.log)
  }

  /** History only grows, and only through server `i`. */
  ghost predicate HistGrows(h: History, h': History, i: nat) {
    && (forall t | t in h.reigns :: t in h'.reigns && ReignGrows(h.reigns[t], h'.reigns[t], i))
    && (forall key | key in h.votes :: key in h'.votes && h'.votes[key] == h.votes[key])
    && (forall key | key in h'.votes && key !in h.votes :: key.voter == i)
    && h.acks <= h'.acks
  }

  /** A step of server `i`: others keep still, and its term and snapshot point do not fall. */
  ghost predicate StepOf(c: Cluster, c': Cluster, i: nat) {
    && i < |c.servers| == |c'.servers|
    && (forall j | 0 <= j < |c.servers| && j != i :: c'.servers[j] == c.servers[j])
    && c.servers[i].node.term <= c'.servers[i].node.term
    && c.servers[i].node.snapIndex <= c'.servers[i].node.snapIndex
    && HistGrows(c.hist, c'.hist, i)
  }

  lemma LogFromGrows(h: History, h': History, i: nat, log: seq<Entry>, t: nat, t': nat)
    requires HistGrows(h, h', i) && LogFrom(h, log, t) && t <= t'
    ensures LogFrom(h', log, t')
  {
  }

  lemma ServersFrame(c: Cluster, c': Cluster, i: nat)
    requires ServersOk(c) && StepOf(c, c', i) && ServerOk(c'.hist, |c.servers|, c'.servers[i], i)
    ensures ServersOk(c')
  {
    forall j | 0 <= j < |c.servers|
      ensures ServerOk(c'.hist, |c.servers|, c'.servers[j], j)
    {
      if j != i {
        var s := c.servers[j];
        LogFromGrows(c.hist, c'.hist, i, s.full, s.node.term, s.node.term);
        if s.node.status == Leader {
          assert ReignGrows(c.hist.reigns[s.node.term], c'.hist.reigns[s.node.term], i);
        }
      }
    }
  }

  lemma VoteFrame(c: Cluster, c': Cluster, i: nat, key: VoteKey, v: Vote)
    requires StepOf(c, c', i) && VoteOk(c, key, v)
    ensures VoteOk(c', key, v)
  {
  }

  lemma AckFrame(c: Cluster, c': Cluster, i: nat, a: Ack)
    requires StepOf(c, c', i) && AckOk(c, a)
    ensures AckOk(c', a)
  {
    assert ReignGrows(c.hist.reigns[a.term], c'.hist.reigns[a.term], i);
  }

  lemma ReignFrame(c: Cluster, c': Cluster, i: nat, t: nat, r: Reign)
    requires StepOf(c, c', i) && ReignOk(c, t, r)
    ensures ReignOk(c', t, r)
  {
    LogFromGrows(c.hist, c'.hist, i, r.log, t, t);
  }

  /** Reigns, votes and acks that are new or changed are well formed. */
  ghost predicate NewHistoryOk(c: Cluster, c': Cluster) {
    && (forall t | t in c'.hist.reigns :: (t in c.hist.reigns && c'.hist.reigns[t] == c.hist.reigns[t]) || ReignOk(c', t, c'.hist.reigns[t]))
    && (forall key | key in c'.hist.votes :: key in c.hist.votes || VoteOk(c', key, c'.hist.votes[key]))
    && (forall a | a in c'.hist.acks :: a in c.hist.acks || AckOk(c', a))
  }

  lemma HistoryFrame(c: Cluster, c': Cluster, i: nat)
    requires HistoryOk(c) && StepOf(c, c', i) && NewHistoryOk(c, c')
    ensures HistoryOk(c')
  {
    forall t | t in c'.hist.reigns
      ensures ReignOk(c', t, c'.hist.reigns[t])
    {
      if t in c.hist.reigns && c'.hist.reigns[t] == c.hist.reigns[t] { ReignFrame(c, c', i, t, c.hist.reigns[t]); }
    }
    forall key | key in c'.hist.votes
      ensures VoteOk(c', key, c'.hist.votes[key])
    {
      if key in c.hist.votes { VoteFrame(c, c', i, key, c.hist.votes[key]); }
    }
    forall a | a in c'.hist.acks
      ensures AckOk(c', a)
    {
      if a in c.hist.acks { AckFrame(c, c', i, a); }
    }
  }

  lemma ElectionFrame(c: Cluster, c': Cluster, i: nat, key: ElectionKey, e: Election)
    requires StepOf(c, c', i) && ElectionOk(c, key, e)
    requires Won(c'.hist, key) ==> Won(c.hist, key)
    ensures ElectionOk(c', key, e)
  {
    if Won(c.hist, key) {
      assert ReignGrows(c.hist.reigns[key.term], c'.hist.reigns[key.term], i);
    }
  }

  lemma RoundFrame(c: Cluster, c': Cluster, i: nat, r: Round)
    requires StepOf(c, c', i) && RoundOk(c, r)
    ensures RoundOk(c', r)
  {
    assert ReignGrows(c.hist.reigns[r.term], c'.hist.reigns[r.term], i);
  }

  /** Counters that are new or changed are well formed. */
  ghost predicate NewElectionsOk(c: Cluster, c': Cluster) {
    forall key | key in c'.elections ::
      || (key in c.elections && c'.elections[key] == c.elections[key] && (Won(c'.hist, key) ==> Won(c.hist, key)))
      || ElectionOk(c', key, c'.elections[key])
  }

  ghost predicate NewRoundsOk(c: Cluster, c': Cluster) {
    forall k | 0 <= k < |c'.rounds| :: (k < |c.rounds| && c'.rounds[k] == c.rounds[k]) || RoundOk(c', c'.rounds[k])
  }

  lemma CountersFrame(c: Cluster, c': Cluster, i: nat)
    requires ElectionsOk(c) && RoundsOk(c) && StepOf(c, c', i)
    requires NewElectionsOk(c, c') && NewRoundsOk(c, c')
    ensures ElectionsOk(c') && RoundsOk(c')
  {
    forall key | key in c'.elections
      ensures ElectionOk(c', key, c'.elections[key])
    {
      if key in c.elections && c'.elections[key] == c.elections[key] && (Won(c'.hist, key) ==> Won(c.hist, key)) {
        ElectionFrame(c, c', i, key, c.elections[key]);
      }
    }
    forall k | 0 <= k < |c'.rounds|
      ensures RoundOk(c', c'.rounds[k])
    {
      if k < |c.rounds| && c'.rounds[k] == c.rounds[k] { RoundFrame(c, c', i, c.rounds[k]); }
    }
  }

  /** The counters a thread shares with its siblings have not counted its peer. */
  ghost predicate Uncounted(c: Cluster, c': Cluster, tid: ThreadId) {
    match tid
    case VoteThread(cand, term, peer) =>
      var key := ElectionKey(cand, term);
      key in c.elections ==> key in c'.elections && (peer in c'.elections[key].counted ==> peer in c.elections[key].counted)
    case AppendThread(round, peer) =>
      round < |c.rounds| ==>
        && round < |c'.rounds|
        && c'.rounds[round].leader == c.rounds[round].leader && c'.rounds[round].term == c.rounds[round].term
        && c'.rounds[round].end == c.rounds[round].end
        && (peer in c'.rounds[round].counted ==> peer in c.rounds[round].counted)
    case SnapThread(_) => c.serials <= c'.serials
  }

  lemma CarriesFrame(c: Cluster, c': Cluster, i: nat, r: Round, r': Round, a: AppendArgs)
    requires StepOf(c, c', i) && Carries(c, r, a)
    requires r'.leader == r.leader && r'.term == r.term && r'.end == r.end
    ensures Carries(c', r', a)
  {
    var log, log' := c.hist.reigns[r.term].log, c'.hist.reigns[r.term].log;
    assert ReignGrows(c.hist.reigns[r.term], c'.hist.reigns[r.term], i);
    assert log'[a.prevIndex..r.end] == log[a.prevIndex..r.end];
  }

  lemma ThreadFrame(c: Cluster, c': Cluster, i: nat, tid: ThreadId, th: Thread)
    requires StepOf(c, c', i) && ThreadOk(c, tid, th) && Uncounted(c, c', tid)
    ensures ThreadOk(c', tid, th)
  {
    match tid {
      case VoteThread(_, _, _) =>
        assert VoteThreadOk(c, tid, th);
      case AppendThread(round, _) =>
        assert AppendThreadOk(c, tid, th);
        CarriesFrame(c, c', i, c.rounds[round], c'.rounds[round], th.args);
      case SnapThread(_) =>
        if th.SnapSent? {
          LogFromGrows(c.hist, c'.hist, i, th.prefix, th.snapArgs.term, th.snapArgs.term);
        }
    }
  }

  /** Threads of the new state are old ones, or `touched` ones that are well formed. */
  ghost predicate NewThreadsOk(c: Cluster, c': Cluster, touched: set<ThreadId>) {
    forall tid | tid in c'.threads ::
      if tid in touched then ThreadOk(c', tid, c'.threads[tid])
      else tid in c.threads && c'.threads[tid] == c.threads[tid] && Uncounted(c, c', tid)
  }

  lemma ThreadsFrame(c: Cluster, c': Cluster, i: nat, touched: set<ThreadId>)
    requires ThreadsOk(c) && StepOf(c, c', i) && NewThreadsOk(c, c', touched)
    ensures ThreadsOk(c')
  {
    forall tid | tid in c'.threads
      ensures ThreadOk(c', tid, c'.threads[tid])
    {
      if tid !in touched { ThreadFrame(c, c', i, tid, c.threads[tid]); }
    }
  }

  /** All that a step of server `i` has to show for itself. */
  ghost predicate GoodStep(c: Cluster, c': Cluster, i: nat, touched: set<ThreadId>) {
    && StepOf(c, c', i)
    && ServerOk(c'.hist, |c.servers|, c'.servers[i], i)
    && NewHistoryOk(c, c')
    && NewElectionsOk(c, c')
    && NewRoundsOk(c, c')
    && NewThreadsOk(c, c', touched)
  }

  lemma GoodStepKeepsInv(c: Cluster, c': Cluster, i: nat, touched: set<ThreadId>)
    requires Inv(c) && GoodStep(c, c', i, touched)
    ensures Inv(c')
  {
    ServersFrame(c, c', i);
    HistoryFrame(c, c', i);
    CountersFrame(c, c', i);
    ThreadsFrame(c, c', i, touched);
  }

  /** A step that leaves history and counters alone. */
  lemma QuietStep(c: Cluster, c': Cluster, i: nat, touched: set<ThreadId>)
    requires i < |c.servers| == |c'.servers| && c'.servers == c.servers[i := c'.servers[i]]
    requires c.servers[i].node.term <= c'.servers[i].node.term && c.servers[i].node.snapIndex <= c'.servers[i].node.snapIndex
    requires c'.hist == c.hist && c'.elections == c.elections && c'.rounds == c.rounds && c'.serials == c.serials
    requires ServerOk(c.hist, |c.servers|, c'.servers[i], i)
    requires forall tid | tid in c'.threads ::
      if tid in touched then ThreadOk(c', tid, c'.threads[tid]) else tid in c.threads && c'.threads[tid] == c.threads[tid]
    ensures GoodStep(c, c', i, touched)
  {
  }
}
