/**
  Log Matching, Leader Completeness and the commit certificate, kept by the
  steps in which no snapshot is installed and every AppendEntries that meets a
  conflicting term reaches at least the receiver's last index.
 */
module RaftSafety {
  import opened RaftTypes
  import opened RaftHandlers
  import opened RaftCluster
  import opened RaftInvariant
  import opened RaftElection
  import opened RaftReplication

  /** The step keeps no stale tail behind what it overwrites. */
  ghost predicate Clean(c: Cluster, l: Label)
    requires WellTyped(c) && Enabled(c, l)
  {
    match l
    case DeliverSnapshot(serial) => CleanSnapshot(c.servers[c.threads[SnapThread(serial)].to].node, c.threads[SnapThread(serial)].snapArgs)
    case DeliverAppend(round, peer) => CleanAppend(c.servers[peer].node, c.threads[AppendThread(round, peer)].args)
    case _ => true
  }

  /** If the message is accepted and overwrites a conflicting entry, it reaches the last index. */
  predicate CleanAppend(nd: Node, a: AppendArgs)
    requires nd.Valid()
  {
    var r := AppendEntries(nd, a);
    r.Done? && r.reply.success && nd.snapIndex <= a.prevIndex <= nd.LastIndex() &&
    Conflict(nd.logs, a.prevIndex - nd.snapIndex, a.entries) ==>
      a.End() >= nd.LastIndex()
  }

  /** The snapshot is neither refused for its term nor outdated. */
  predicate Installs(nd: Node, a: SnapArgs) { a.term >= nd.term && a.snapIndex > nd.snapIndex }

  /** If the snapshot is installed, it reaches the last index, or the stored entry at
      its boundary is of its term. */
  predicate CleanSnapshot(nd: Node, a: SnapArgs)
    requires nd.Valid()
  {
    Installs(nd, a) ==> nd.LastIndex() <= a.snapIndex || nd.TermOf(a.snapIndex) == a.snapTerm
  }

  // -------------------------------------------------------------- the invariant

  /** Up to `p` the log is the log of the leader whose entry it holds there. */
  ghost predicate MatchAt(h: History, log: seq<Entry>, p: nat)
    requires p < |log|
  {
    var t := log[p].term;
    t in h.reigns && p < |h.reigns[t].log| && log[..p + 1] == h.reigns[t].log[..p + 1]
  }

  ghost predicate Matches(h: History, log: seq<Entry>) {
    forall p: nat | p < |log| :: MatchAt(h, log, p)
  }

  /** (t, index) names an entry that the leader of term t created itself. */
  ghost predicate OwnEntry(h: History, t: nat, index: nat) {
    t in h.reigns && 1 <= index <= |h.reigns[t].log| && h.reigns[t].log[index - 1].term == t
  }

  /** `log` holds the leader log of term `t` up to `index`. */
  ghost predicate Holds(h: History, log: seq<Entry>, t: nat, index: nat)
    requires t in h.reigns && index <= |h.reigns[t].log|
  {
    index <= |log| && log[..index] == h.reigns[t].log[..index]
  }

  /** A later leader, of a term up to `bound`, that was elected without them. */
  ghost predicate Skipped(h: History, t: nat, index: nat, w: nat, bound: nat)
    requires t in h.reigns && index <= |h.reigns[t].log|
  {
    t < w <= bound && w in h.reigns && !Holds(h, h.reigns[w].start, t, index)
  }

  ghost predicate HeldOrSkipped(h: History, log: seq<Entry>, t: nat, index: nat, bound: nat)
    requires t in h.reigns && index <= |h.reigns[t].log|
  {
    Holds(h, log, t, index) || exists w: nat :: Skipped(h, t, index, w, bound)
  }

  /** A server keeps what it acknowledged until some leader lacks it. */
  ghost predicate AckKept(h: History, log: seq<Entry>, bound: nat, a: Ack) {
    OwnEntry(h, a.term, a.index) ==> HeldOrSkipped(h, log, a.term, a.index, bound)
  }

  /** A vote given before the term had a leader shows what the voter had acknowledged. */
  ghost predicate VoteKept(h: History, key: VoteKey, v: Vote, a: Ack) {
    !v.late && a.node == key.voter && a.term < key.term ==> AckKept(h, v.log, key.term - 1, a)
  }

  /** `log` is part of a log that was committed in a term before `term`. */
  ghost predicate CoveredBy(h: History, n: nat, log: seq<Entry>, term: nat, t: nat, index: nat) {
    t < term && CertifiedBy(h, n, log, |log|, t, t, index)
  }

  /** `log` is the asked-with log, or a snapshot at least as long was installed over it. */
  ghost predicate Carried(h: History, n: nat, asked: seq<Entry>, log: seq<Entry>, term: nat) {
    log == asked || (|asked| <= |log| && exists t: nat, index: nat :: CoveredBy(h, n, log, term, t, index))
  }

  /** A candidate that may still win has the log it asked votes with, or committed entries in its place. */
  ghost predicate CandidateCarries(h: History, n: nat, s: Server, i: nat) {
    var key := VoteKey(s.node.term, i);
    key in h.votes && h.votes[key].cand == i && s.node.term !in h.reigns ==>
      Carried(h, n, h.votes[key].log, s.full, s.node.term)
  }

  ghost predicate VotersBehind(h: History, t: nat, r: Reign) {
    && VoteKey(t, r.leader) in h.votes && h.votes[VoteKey(t, r.leader)].cand == r.leader
    && forall j | j in r.voters ::
         VoteKey(t, j) in h.votes && UpToDateLog(h.votes[VoteKey(t, r.leader)].log, h.votes[VoteKey(t, j)].log)
  }

  ghost function Ackers(h: History, t: nat, index: nat): set<nat> {
    set a | a in h.acks && a.term == t && a.index == index :: a.node
  }

  /** A majority took over the leader log of term `t` up to its own entry at `index`. */
  ghost predicate Committed(h: History, n: nat, t: nat, index: nat) {
    OwnEntry(h, t, index) && |Ackers(h, t, index)| >= n / 2 + 1
  }

  /** The first `k` entries are part of some committed leader log. */
  ghost predicate CertifiedBy(h: History, n: nat, log: seq<Entry>, k: nat, bound: nat, t: nat, index: nat) {
    t <= bound && Committed(h, n, t, index) && k <= index && k <= |log| && log[..k] == h.reigns[t].log[..k]
  }

  ghost predicate Certified(h: History, n: nat, log: seq<Entry>, k: nat, bound: nat) {
    k == 0 || exists t: nat, index: nat :: CertifiedBy(h, n, log, k, bound, t, index)
  }

  ghost predicate SafeServer(h: History, n: nat, s: Server, i: nat) {
    && Matches(h, s.full)
    && CandidateCarries(h, n, s, i)
    && (forall a | a in h.acks && a.node == i :: AckKept(h, s.full, s.node.term, a))
    && Certified(h, n, s.full, s.node.commit, s.node.term)
  }

  ghost predicate SafeReign(h: History, n: nat, t: nat, r: Reign) {
    Matches(h, r.log) && VotersBehind(h, t, r) && Carried(h, n, h.votes[VoteKey(t, r.leader)].log, r.start, t)
  }

  ghost predicate SafeVote(h: History, key: VoteKey, v: Vote) {
    && Matches(h, v.log)
    && (v.cand == key.voter ==> forall p | 0 <= p < |v.log| :: v.log[p].term < key.term)
    && forall a | a in h.acks :: VoteKept(h, key, v, a)
  }

  /** A snapshot stands for committed entries of its sender's log. */
  ghost predicate SafePrefix(h: History, n: nat, prefix: seq<Entry>, term: nat) {
    Matches(h, prefix) && Certified(h, n, prefix, |prefix|, term)
  }

  ghost predicate SafeThread(h: History, n: nat, th: Thread) {
    && (th.AppendSent? ==>
        && th.args.term in h.reigns
        && Certified(h, n, h.reigns[th.args.term].log, th.args.leaderCommit, th.args.term))
    && (th.SnapSent? ==> SafePrefix(h, n, th.prefix, th.snapArgs.term))
  }

  ghost predicate Safe(c: Cluster) {
    && (forall i | 0 <= i < |c.servers| :: SafeServer(c.hist, |c.servers|, c.servers[i], i))
    && (forall t | t in c.hist.reigns :: SafeReign(c.hist, |c.servers|, t, c.hist.reigns[t]))
    && (forall key | key in c.hist.votes :: SafeVote(c.hist, key, c.hist.votes[key]))
    && (forall tid | tid in c.threads :: SafeThread(c.hist, |c.servers|, c.threads[tid]))
  }

  // ------------------------------------------------------- Leader Completeness

  lemma LogOf(h: History, log: seq<Entry>, k: nat)
    requires Matches(h, log) && 1 <= k <= |log|
    ensures log[k - 1].term in h.reigns
    ensures var src := h.reigns[log[k - 1].term].log; k <= |src| && log[..k] == src[..k]
  {
    assert MatchAt(h, log, k - 1);
  }

  lemma TakeLess(a: seq<Entry>, b: seq<Entry>, k: nat, j: nat)
    requires j <= k <= |a| && k <= |b| && a[..k] == b[..k]
    ensures a[..j] == b[..j]
  {
    assert a[..j] == a[..k][..j];
    assert b[..j] == b[..k][..j];
  }

  lemma LongEnough(own: seq<Entry>, later: seq<Entry>, start: seq<Entry>, t: nat, index: nat)
    requires index <= |own| && index <= |later| && later[..index] == own[..index]
    requires forall p | 0 <= p < |own| :: own[p].term <= t
    requires 1 <= |start| <= |later| && start == later[..|start|] && start[|start| - 1].term > t
    ensures |start| >= index
  {
    forall p | 0 <= p < index
      ensures later[p].term <= t
    {
      assert later[p] == later[..index][p] == own[..index][p];
    }
    assert start[|start| - 1] == later[|start| - 1];
  }

  /** The vote rule carries committed entries into the log of a newly elected leader. */
  lemma VoteRule(h: History, t: nat, index: nat, start: seq<Entry>, voter: seq<Entry>)
    requires OwnEntry(h, t, index) && Matches(h, start) && Matches(h, voter) && Holds(h, voter, t, index)
    requires forall u | u in h.reigns :: LogFrom(h, h.reigns[u].log, u)
    requires UpToDateLog(start, voter)
    requires forall p | 0 <= p < |start| && start[p].term > t && start[p].term in h.reigns ::
      Holds(h, h.reigns[start[p].term].log, t, index)
    ensures Holds(h, start, t, index)
  {
    var x, y := TermAt(start, |start|), TermAt(voter, |voter|);
    var own := h.reigns[t].log;
    LogOf(h, voter, |voter|);
    assert voter[index - 1] == voter[..index][index - 1] == own[index - 1];
    assert voter[index - 1] == h.reigns[y].log[index - 1] by {
      assert voter[..|voter|][index - 1] == h.reigns[y].log[..|voter|][index - 1];
    }
    assert y >= t;
    LogOf(h, start, |start|);
    if x == y {
      TakeLess(start, h.reigns[x].log, |start|, index);
      TakeLess(voter, h.reigns[y].log, |voter|, index);
    } else {
      var later := h.reigns[x].log;
      assert Holds(h, later, t, index);
      assert LogFrom(h, own, t);
      LongEnough(own, later, start, t, index);
      TakeLess(start, later, |start|, index);
    }
  }

  lemma HoldsLonger(h: History, a: seq<Entry>, b: seq<Entry>, t: nat, index: nat)
    requires OwnEntry(h, t, index) && a <= b && Holds(h, a, t, index)
    ensures Holds(h, b, t, index)
  {
    TakeLess(a, b, |a|, index);
  }

  /** Leaders of the terms between `t` and `u` were elected with the entries. */
  ghost predicate HeldBetween(h: History, t: nat, index: nat, u: nat)
    requires OwnEntry(h, t, index)
  {
    forall w | w in h.reigns && t < w < u :: Holds(h, h.reigns[w].start, t, index)
  }

  /** The later leaders whose entries a log of terms below `u` contains hold the entries too. */
  lemma SourcesHold(c: Cluster, t: nat, index: nat, u: nat, log: seq<Entry>)
    requires HistoryOk(c) && OwnEntry(c.hist, t, index) && HeldBetween(c.hist, t, index, u)
    requires forall p | 0 <= p < |log| :: log[p].term < u
    ensures forall p | 0 <= p < |log| && log[p].term > t && log[p].term in c.hist.reigns ::
      Holds(c.hist, c.hist.reigns[log[p].term].log, t, index)
  {
    forall p | 0 <= p < |log| && log[p].term > t && log[p].term in c.hist.reigns
      ensures Holds(c.hist, c.hist.reigns[log[p].term].log, t, index)
    {
      LaterLogHolds(c, t, index, u, log[p].term);
    }
  }

  lemma LaterLogHolds(c: Cluster, t: nat, index: nat, u: nat, w: nat)
    requires HistoryOk(c) && OwnEntry(c.hist, t, index) && HeldBetween(c.hist, t, index, u) && t < w < u && w in c.hist.reigns
    ensures Holds(c.hist, c.hist.reigns[w].log, t, index)
  {
    assert ReignOk(c, w, c.hist.reigns[w]);
    HoldsLonger(c.hist, c.hist.reigns[w].start, c.hist.reigns[w].log, t, index);
  }

  /** The log a winner asked votes with holds what a common voter had acknowledged. */
  lemma AskedLogHolds(c: Cluster, n: nat, t: nat, index: nat, u: nat, j: nat)
    requires HistoryOk(c) && OwnEntry(c.hist, t, index) && HeldBetween(c.hist, t, index, u)
    requires u in c.hist.reigns && SafeReign(c.hist, n, u, c.hist.reigns[u]) && j in c.hist.reigns[u].voters && t < u
    requires SafeVote(c.hist, VoteKey(u, j), c.hist.votes[VoteKey(u, j)])
    requires var key := VoteKey(u, c.hist.reigns[u].leader); SafeVote(c.hist, key, c.hist.votes[key])
    requires !c.hist.votes[VoteKey(u, j)].late && Ack(t, index, j) in c.hist.acks
    ensures Holds(c.hist, c.hist.votes[VoteKey(u, c.hist.reigns[u].leader)].log, t, index)
  {
    var h, v := c.hist, c.hist.votes[VoteKey(u, j)];
    var asked := h.votes[VoteKey(u, h.reigns[u].leader)].log;
    assert VoteKept(h, VoteKey(u, j), v, Ack(t, index, j));
    assert Holds(h, v.log, t, index);
    SourcesHold(c, t, index, u, asked);
    LogsFrom(c);
    VoteRule(h, t, index, asked, v.log);
  }

  /** Committed entries put in the place of the asked-with log hold what that log held;
      they cannot be of an earlier term, for they reach behind its leader's start. */
  lemma CoverHolds(c: Cluster, n: nat, t: nat, index: nat, u: nat, log: seq<Entry>, w: nat, k: nat)
    requires HistoryOk(c) && OwnEntry(c.hist, t, index) && HeldBetween(c.hist, t, index, u)
    requires index <= |log| && CoveredBy(c.hist, n, log, u, w, k)
    requires w < t ==> Holds(c.hist, c.hist.reigns[t].start, w, k)
    ensures Holds(c.hist, log, t, index)
  {
    TakeLess(log, c.hist.reigns[w].log, |log|, index);
    OwnBehindStart(c, t, index);
    if w > t { LaterLogHolds(c, t, index, u, w); }
  }

  /** What a leader created itself lies behind the log it was elected with. */
  lemma OwnBehindStart(c: Cluster, t: nat, index: nat)
    requires HistoryOk(c) && OwnEntry(c.hist, t, index)
    ensures |c.hist.reigns[t].start| < index
  {
    assert ReignOk(c, t, c.hist.reigns[t]);
  }

  /** What a majority acknowledged is in the log of every later leader from its election on. */
  lemma LeaderCompleteness(c: Cluster, t: nat, index: nat, u: nat)
    requires Inv(c) && Safe(c) && Committed(c.hist, |c.servers|, t, index) && u in c.hist.reigns && u > t
    ensures Holds(c.hist, c.hist.reigns[u].start, t, index)
    decreases u
  {
    forall w | w in c.hist.reigns && t < w < u
      ensures Holds(c.hist, c.hist.reigns[w].start, t, index)
    {
      LeaderCompleteness(c, t, index, w);
    }
    var n, r := |c.servers|, c.hist.reigns[u];
    var j := WitnessVoter(c, t, index, u);
    SafeAt(c, u);
    AskedLogHolds(c, n, t, index, u, j);
    if r.start != c.hist.votes[VoteKey(u, r.leader)].log {
      var w: nat, k: nat :| CoveredBy(c.hist, n, r.start, u, w, k);
      if w < t { LeaderCompleteness(c, w, k, t); }
      CoverHolds(c, n, t, index, u, r.start, w, k);
    }
  }

  lemma SafeAt(c: Cluster, u: nat)
    requires Safe(c) && u in c.hist.reigns
    ensures SafeReign(c.hist, |c.servers|, u, c.hist.reigns[u])
    ensures forall key | key in c.hist.votes :: SafeVote(c.hist, key, c.hist.votes[key])
  {
  }

  lemma LogsFrom(c: Cluster)
    requires HistoryOk(c)
    ensures forall u | u in c.hist.reigns :: LogFrom(c.hist, c.hist.reigns[u].log, u)
  {
  }

  /** Somebody acknowledged (t, index) and voted for the leader of term `u`. */
  lemma WitnessVoter(c: Cluster, t: nat, index: nat, u: nat) returns (j: nat)
    requires HistoryOk(c) && Committed(c.hist, |c.servers|, t, index) && u in c.hist.reigns
    ensures Ack(t, index, j) in c.hist.acks && j in c.hist.reigns[u].voters
    ensures VoteKey(u, j) in c.hist.votes && !c.hist.votes[VoteKey(u, j)].late
  {
    var r := c.hist.reigns[u];
    assert ReignOk(c, u, r);
    forall x | x in Ackers(c.hist, t, index)
      ensures x < |c.servers|
    {
      assert AckOk(c, Ack(t, index, x));
    }
    j := QuorumsMeet(Ackers(c.hist, t, index), r.voters, |c.servers|);
    assert VotedFor(c, u, j, r.leader);
  }

  // ------------------------------------------------------------------ frames

  lemma MatchesGrow(h: History, h': History, i: nat, log: seq<Entry>)
    requires HistGrows(h, h', i) && Matches(h, log)
    ensures Matches(h', log)
  {
    forall p: nat | p < |log|
      ensures MatchAt(h', log, p)
    {
      assert MatchAt(h, log, p);
      var t := log[p].term;
      TakeLess(h.reigns[t].log, h'.reigns[t].log, |h.reigns[t].log|, p + 1);
    }
  }

  lemma OwnLogGrows(h: History, h': History, i: nat, t: nat, index: nat)
    requires HistGrows(h, h', i) && t in h.reigns && index <= |h.reigns[t].log|
    ensures t in h'.reigns && index <= |h'.reigns[t].log| && h'.reigns[t].log[..index] == h.reigns[t].log[..index]
    ensures OwnEntry(h', t, index) <==> OwnEntry(h, t, index)
  {
    TakeLess(h.reigns[t].log, h'.reigns[t].log, |h.reigns[t].log|, index);
  }

  lemma AckKeptGrows(h: History, h': History, i: nat, log: seq<Entry>, bound: nat, bound': nat, a: Ack)
    requires HistGrows(h, h', i) && AckKept(h, log, bound, a) && bound <= bound'
    requires a.term in h.reigns && a.index <= |h.reigns[a.term].log|
    ensures AckKept(h', log, bound', a)
  {
    OwnLogGrows(h, h', i, a.term, a.index);
    if OwnEntry(h, a.term, a.index) && !Holds(h, log, a.term, a.index) {
      var w: nat :| Skipped(h, a.term, a.index, w, bound);
      assert Skipped(h', a.term, a.index, w, bound');
    }
  }

  lemma CommittedGrows(h: History, h': History, i: nat, n: nat, t: nat, index: nat)
    requires HistGrows(h, h', i) && Committed(h, n, t, index)
    ensures Committed(h', n, t, index)
  {
    OwnLogGrows(h, h', i, t, index);
    SubsetSize(Ackers(h, t, index), Ackers(h', t, index));
  }

  lemma CertifiedGrows(h: History, h': History, i: nat, n: nat, log: seq<Entry>, log': seq<Entry>, k: nat, bound: nat, bound': nat)
    requires HistGrows(h, h', i) && Certified(h, n, log, k, bound) && bound <= bound'
    requires k <= |log| ==> k <= |log'| && log'[..k] == log[..k]
    ensures Certified(h', n, log', k, bound')
  {
    if k > 0 {
      var t: nat, index: nat :| CertifiedBy(h, n, log, k, bound, t, index);
      CommittedGrows(h, h', i, n, t, index);
      OwnLogGrows(h, h', i, t, index);
      TakeLess(h.reigns[t].log, h'.reigns[t].log, index, k);
      assert CertifiedBy(h', n, log', k, bound', t, index);
    }
  }

  lemma CarriedGrows(h: History, h': History, i: nat, n: nat, asked: seq<Entry>, log: seq<Entry>, term: nat)
    requires HistGrows(h, h', i) && Carried(h, n, asked, log, term)
    ensures Carried(h', n, asked, log, term)
  {
    if log != asked {
      var t: nat, index: nat :| CoveredBy(h, n, log, term, t, index);
      CommittedGrows(h, h', i, n, t, index);
      OwnLogGrows(h, h', i, t, index);
      TakeLess(h.reigns[t].log, h'.reigns[t].log, index, |log|);
      assert CoveredBy(h', n, log, term, t, index);
    }
  }

  lemma SafeThreadGrows(h: History, h': History, i: nat, n: nat, th: Thread)
    requires HistGrows(h, h', i) && SafeThread(h, n, th)
    ensures SafeThread(h', n, th)
  {
    if th.AppendSent? {
      var t, k := th.args.term, th.args.leaderCommit;
      if k <= |h.reigns[t].log| { TakeLess(h.reigns[t].log, h'.reigns[t].log, |h.reigns[t].log|, k); }
      CertifiedGrows(h, h', i, n, h.reigns[t].log, h'.reigns[t].log, k, t, t);
    }
    if th.SnapSent? {
      MatchesGrow(h, h', i, th.prefix);
      CertifiedGrows(h, h', i, n, th.prefix, th.prefix, |th.prefix|, th.snapArgs.term, th.snapArgs.term);
    }
  }

  lemma CandidateGrows(h: History, h': History, i: nat, n: nat, s: Server, j: nat)
    requires HistGrows(h, h', i) && CandidateCarries(h, n, s, j) && j != i
    ensures CandidateCarries(h', n, s, j)
  {
    var key := VoteKey(s.node.term, j);
    if key in h'.votes && h'.votes[key].cand == j && s.node.term !in h'.reigns {
      CarriedGrows(h, h', i, n, h.votes[key].log, s.full, s.node.term);
    }
  }

  lemma SafeServerGrows(c: Cluster, c': Cluster, i: nat, j: nat)
    requires StepOf(c, c', i) && j < |c.servers| && j != i && SafeServer(c.hist, |c.servers|, c.servers[j], j)
    requires forall a | a in c.hist.acks :: AckOk(c, a)
    requires forall a | a in c'.hist.acks && a !in c.hist.acks :: a.node == i
    ensures SafeServer(c'.hist, |c.servers|, c'.servers[j], j)
  {
    var h, h', s := c.hist, c'.hist, c.servers[j];
    MatchesGrow(h, h', i, s.full);
    CandidateGrows(h, h', i, |c.servers|, s, j);
    forall a | a in h'.acks && a.node == j
      ensures AckKept(h', s.full, s.node.term, a)
    {
      assert AckOk(c, a);
      AckKeptGrows(h, h', i, s.full, s.node.term, s.node.term, a);
    }
    CertifiedGrows(h, h', i, |c.servers|, s.full, s.full, s.node.commit, s.node.term, s.node.term);
  }

  lemma SafeVoteGrows(c: Cluster, c': Cluster, i: nat, key: VoteKey, v: Vote)
    requires StepOf(c, c', i) && SafeVote(c.hist, key, v) && VoteOk(c', key, v)
    requires forall a | a in c.hist.acks :: AckOk(c, a)
    requires forall a | a in c'.hist.acks && a !in c.hist.acks :: a.node == i && a.term == c'.servers[i].node.term
    ensures SafeVote(c'.hist, key, v)
  {
    MatchesGrow(c.hist, c'.hist, i, v.log);
    forall a | a in c'.hist.acks
      ensures VoteKept(c'.hist, key, v, a)
    {
      if a in c.hist.acks {
        assert AckOk(c, a) && VoteKept(c.hist, key, v, a);
        if !v.late && a.node == key.voter && a.term < key.term {
          AckKeptGrows(c.hist, c'.hist, i, v.log, key.term - 1, key.term - 1, a);
        }
      }
    }
  }

  lemma SafeReignGrows(h: History, h': History, i: nat, n: nat, t: nat, r: Reign)
    requires HistGrows(h, h', i) && SafeReign(h, n, t, r)
    ensures SafeReign(h', n, t, r)
  {
    MatchesGrow(h, h', i, r.log);
    CarriedGrows(h, h', i, n, h.votes[VoteKey(t, r.leader)].log, r.start, t);
  }

  /** All that a step of server `i` has to show to keep the cluster safe. */
  ghost predicate GoodSafe(c: Cluster, c': Cluster, i: nat) {
    && StepOf(c, c', i)
    && SafeServer(c'.hist, |c.servers|, c'.servers[i], i)
    && (forall a | a in c'.hist.acks :: a in c.hist.acks || (a.node == i && a.term == c'.servers[i].node.term))
    && (forall t | t in c'.hist.reigns :: (t in c.hist.reigns && c'.hist.reigns[t] == c.hist.reigns[t]) || SafeReign(c'.hist, |c.servers|, t, c'.hist.reigns[t]))
    && (forall key | key in c'.hist.votes :: key in c.hist.votes || SafeVote(c'.hist, key, c'.hist.votes[key]))
    && (forall tid | tid in c'.threads :: (tid in c.threads && c'.threads[tid] == c.threads[tid]) || SafeThread(c'.hist, |c.servers|, c'.threads[tid]))
  }

  lemma GoodSafeKeepsSafe(c: Cluster, c': Cluster, i: nat)
    requires HistoryOk(c) && HistoryOk(c') && Safe(c) && GoodSafe(c, c', i)
    ensures Safe(c')
  {
    forall j | 0 <= j < |c'.servers|
      ensures SafeServer(c'.hist, |c'.servers|, c'.servers[j], j)
    {
      if j != i { SafeServerGrows(c, c', i, j); }
    }
    forall t | t in c'.hist.reigns
      ensures SafeReign(c'.hist, |c'.servers|, t, c'.hist.reigns[t])
    {
      if t in c.hist.reigns && c'.hist.reigns[t] == c.hist.reigns[t] { SafeReignGrows(c.hist, c'.hist, i, |c.servers|, t, c.hist.reigns[t]); }
    }
    forall key | key in c'.hist.votes
      ensures SafeVote(c'.hist, key, c'.hist.votes[key])
    {
      if key in c.hist.votes { SafeVoteGrows(c, c', i, key, c.hist.votes[key]); }
    }
    forall tid | tid in c'.threads
      ensures SafeThread(c'.hist, |c'.servers|, c'.threads[tid])
    {
      if tid in c.threads && c'.threads[tid] == c.threads[tid] { SafeThreadGrows(c.hist, c'.hist, i, |c.servers|, c.threads[tid]); }
    }
  }
}
