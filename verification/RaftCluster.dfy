/**
  A cluster of Raft nodes.  Every handler runs under its node's lock, so a run
  is a sequence of handler executions; each RPC is a detached thread that holds
  its request and later its answer, and may be delayed, reordered or lost.  A
  failed assertion stops the process for good, and there are no restarts
  (raft_KV/src/raftCore/Persister.cpp:70-80 wipes the saved state).
 */
module RaftCluster {
  import opened RaftTypes
  import opened RaftHandlers

  /** A process.  `full` and `delivered` are history: the log including what
      compaction removed, and everything handed to the key-value server. */
  datatype Server = Server(node: Node, full: seq<Entry>, delivered: seq<ApplyMsg>, halted: bool)

  datatype ThreadId =
    | VoteThread(cand: nat, term: nat, peer: nat)
    | AppendThread(round: nat, peer: nat)
    | SnapThread(serial: nat)

  /** An RPC thread: request under way, or answer on its way back.  A snapshot
      is represented by the log prefix it summarises. */
  datatype Thread =
    | VoteSent(voteArgs: VoteArgs)
    | VoteAnswered(voteArgs: VoteArgs, voteReply: VoteReply)
    | AppendSent(args: AppendArgs)
    | AppendAnswered(args: AppendArgs, reply: AppendReply)
    | SnapPending(from: nat, to: nat)
    | SnapSent(from: nat, to: nat, snapArgs: SnapArgs, prefix: seq<Entry>)
    | SnapAnswered(from: nat, to: nat, snapArgs: SnapArgs, snapReply: SnapReply)

  datatype ElectionKey = ElectionKey(cand: nat, term: nat)

  /** The tally shared by the threads of one election; `counted` is history. */
  datatype Election = Election(votedNum: int, counted: set<nat>)

  /** The counter shared by the threads of one heartbeat; all but `leader` and
      `count` is history. */
  datatype Round = Round(leader: nat, term: nat, end: nat, count: int, counted: set<nat>, fired: bool)

  /** History of a term's leader: who voted for it, its log when elected, and
      its log as far as it got while leading. */
  datatype Reign = Reign(leader: nat, voters: set<nat>, start: seq<Entry>, log: seq<Entry>)

  datatype VoteKey = VoteKey(term: nat, voter: nat)

  /** History of a granted vote; `late` when the term already had a leader. */
  datatype Vote = Vote(cand: nat, log: seq<Entry>, late: bool)

  /** History: `node` took over the log of term `term`'s leader up to `index`. */
  datatype Ack = Ack(term: nat, index: nat, node: nat)

  datatype History = History(reigns: map<nat, Reign>, votes: map<VoteKey, Vote>, acks: set<Ack>)

  datatype Cluster = Cluster(
    servers: seq<Server>, threads: map<ThreadId, Thread>,
    elections: map<ElectionKey, Election>, rounds: seq<Round>, serials: nat, hist: History)
  {
    predicate Up(i: nat) { i < |servers| && !servers[i].halted }

    function Halt(i: nat): Cluster
      requires i < |servers|
    {
      this.(servers := servers[i := servers[i].(halted := true)])
    }

    function SetNode(i: nat, nd: Node): Cluster
      requires i < |servers|
    {
      this.(servers := servers[i := servers[i].(node := nd)])
    }

    function Drop(tid: ThreadId): Cluster { this.(threads := threads - {tid}) }
  }

  function InitServer(i: nat, n: nat): Server { Server(InitNode(i, n), [], [], false) }

  function Init(n: nat): Cluster {
    Cluster(seq(n, i requires 0 <= i < n => InitServer(i, n)), map[], map[], [], 0, History(map[], map[], {}))
  }

  /** What the types of the program guarantee of every cluster state. */
  ghost predicate WellTyped(c: Cluster) {
    && (forall i | 0 <= i < |c.servers| :: ServerTyped(c.servers[i], i, |c.servers|))
    && (forall tid | tid in c.threads :: ThreadTyped(c, tid, c.threads[tid]))
  }

  ghost predicate ServerTyped(s: Server, i: nat, n: nat) {
    s.node.Valid() && s.node.me == i && s.node.peers == n
  }

  ghost predicate ThreadTyped(c: Cluster, tid: ThreadId, th: Thread) {
    match tid
    case VoteThread(cand, term, peer) =>
      && (th.VoteSent? || th.VoteAnswered?)
      && cand < |c.servers| && peer < |c.servers| && cand != peer
      && ElectionKey(cand, term) in c.elections
    case AppendThread(round, peer) =>
      && (th.AppendSent? || th.AppendAnswered?)
      && peer < |c.servers| && round < |c.rounds|
      && c.rounds[round].leader < |c.servers| && c.rounds[round].leader != peer
      && th.args.Numbered()
    case SnapThread(serial) =>
      && (th.SnapPending? || th.SnapSent? || th.SnapAnswered?)
      && serial < c.serials
      && th.from < |c.servers| && th.to < |c.servers| && th.from != th.to
  }

  datatype Label =
    | Timeout(i: nat)
    | HeartBeat(i: nat)
    | DeliverVote(cand: nat, term: nat, peer: nat)
    | VoteReplied(cand: nat, term: nat, peer: nat)
    | DeliverAppend(round: nat, peer: nat)
    | AppendReplied(round: nat, peer: nat)
    | RunSnapshot(serial: nat)
    | DeliverSnapshot(serial: nat)
    | SnapshotReplied(serial: nat)
    | ClientStart(i: nat, op: Op)
    | Compact(i: nat, index: nat)
    | Apply(i: nat)
    | Lose(tid: ThreadId)

  ghost predicate Enabled(c: Cluster, l: Label) {
    match l
    case Timeout(i) => c.Up(i) && c.servers[i].node.status != Leader
    case HeartBeat(i) => c.Up(i) && c.servers[i].node.status == Leader
    case DeliverVote(cand, term, peer) =>
      VoteThread(cand, term, peer) in c.threads && c.threads[VoteThread(cand, term, peer)].VoteSent? && c.Up(peer)
    case VoteReplied(cand, term, peer) =>
      VoteThread(cand, term, peer) in c.threads && c.threads[VoteThread(cand, term, peer)].VoteAnswered? && c.Up(cand)
    case DeliverAppend(round, peer) =>
      AppendThread(round, peer) in c.threads && c.threads[AppendThread(round, peer)].AppendSent? && c.Up(peer)
    case AppendReplied(round, peer) =>
      && AppendThread(round, peer) in c.threads && c.threads[AppendThread(round, peer)].AppendAnswered?
      && round < |c.rounds| && c.Up(c.rounds[round].leader)
    case RunSnapshot(serial) =>
      SnapThread(serial) in c.threads && c.threads[SnapThread(serial)].SnapPending? &&
      c.Up(c.threads[SnapThread(serial)].from)
    case DeliverSnapshot(serial) =>
      SnapThread(serial) in c.threads && c.threads[SnapThread(serial)].SnapSent? &&
      c.Up(c.threads[SnapThread(serial)].to)
    case SnapshotReplied(serial) =>
      SnapThread(serial) in c.threads && c.threads[SnapThread(serial)].SnapAnswered? &&
      c.Up(c.threads[SnapThread(serial)].from)
    case ClientStart(i, _) => c.Up(i) && c.servers[i].node.status == Leader
    case Compact(i, _) => c.Up(i)
    case Apply(i) => c.Up(i)
    case Lose(tid) => tid in c.threads
  }

  ghost function Next(c: Cluster, l: Label): Cluster
    requires WellTyped(c) && Enabled(c, l)
  {
    match l
    case Timeout(i) => DoTimeout(c, i)
    case HeartBeat(i) => DoHeartBeat(c, i)
    case DeliverVote(cand, term, peer) => DoDeliverVote(c, VoteThread(cand, term, peer))
    case VoteReplied(cand, term, peer) => DoVoteReplied(c, VoteThread(cand, term, peer))
    case DeliverAppend(round, peer) => DoDeliverAppend(c, AppendThread(round, peer))
    case AppendReplied(round, peer) => DoAppendReplied(c, AppendThread(round, peer))
    case RunSnapshot(serial) => DoRunSnapshot(c, SnapThread(serial))
    case DeliverSnapshot(serial) => DoDeliverSnapshot(c, SnapThread(serial))
    case SnapshotReplied(serial) => DoSnapshotReplied(c, SnapThread(serial))
    case ClientStart(i, op) => DoStart(c, i, op)
    case Compact(i, index) => c.SetNode(i, Snapshot(c.servers[i].node, index))
    case Apply(i) => DoApply(c, i)
    case Lose(tid) => c.Drop(tid)
  }

  // ---------------------------------------------------------------- election

  function VoteThreads(cand: nat, n: nat, a: VoteArgs): (m: map<ThreadId, Thread>)
    ensures forall tid :: tid in m <==> tid.VoteThread? && tid.cand == cand && tid.term == a.term && tid.peer < n && tid.peer != cand
    ensures forall tid | tid in m :: m[tid] == VoteSent(a)
  {
    map p: nat | p < n && p != cand :: VoteThread(cand, a.term, p) := VoteSent(a)
  }

  function DoTimeout(c: Cluster, i: nat): Cluster
    requires i < |c.servers|
  {
    var (nd, a) := StartElection(c.servers[i].node);
    c.SetNode(i, nd).(
      threads := c.threads + VoteThreads(i, |c.servers|, a),
      elections := c.elections[ElectionKey(i, nd.term) := Election(1, {})],
      hist := c.hist.(votes := c.hist.votes[VoteKey(nd.term, i) := Vote(i, c.servers[i].full, nd.term in c.hist.reigns)]))
  }

  function DoDeliverVote(c: Cluster, tid: ThreadId): Cluster
    requires tid.VoteThread? && tid in c.threads && c.threads[tid].VoteSent? && tid.peer < |c.servers|
  {
    var p, a := tid.peer, c.threads[tid].voteArgs;
    match RequestVote(c.servers[p].node, a)
    case Halted => c.Halt(p)
    case Done(nd, reply) =>
      c.SetNode(p, nd).(
        threads := c.threads[tid := VoteAnswered(a, reply)],
        hist := if reply.granted then RecordVote(c.hist, c.servers[p], p, a) else c.hist)
  }

  function RecordVote(h: History, s: Server, p: nat, a: VoteArgs): History {
    var key := VoteKey(a.term, p);
    if key in h.votes then h else h.(votes := h.votes[key := Vote(a.candidate, s.full, a.term in h.reigns)])
  }

  function DoVoteReplied(c: Cluster, tid: ThreadId): Cluster
    requires tid.VoteThread? && tid in c.threads && c.threads[tid].VoteAnswered?
    requires tid.cand < |c.servers| && ElectionKey(tid.cand, tid.term) in c.elections
  {
    var i, key, r := tid.cand, ElectionKey(tid.cand, tid.term), c.threads[tid].voteReply;
    var s, e := c.servers[i], c.elections[key];
    match HandleVoteReply(s.node, r, e.votedNum)
    case Halted => c.Halt(i).Drop(tid)
    case Done(nd, tally) =>
      var counted := if r.term == s.node.term && r.granted then e.counted + {tid.peer} else e.counted;
      c.SetNode(i, nd).Drop(tid).(
        elections := c.elections[key := Election(tally, counted)],
        hist := if nd.status == Leader && s.node.status != Leader
                then c.hist.(reigns := c.hist.reigns[nd.term := Reign(i, {i} + counted, s.full, s.full)])
                else c.hist)
  }

  // ------------------------------------------------------------- replication

  function AppendThreads(nd: Node, round: nat): (m: map<ThreadId, Thread>)
    requires nd.Valid()
    ensures forall tid :: tid in m <==>
      tid.AppendThread? && tid.round == round && tid.peer < nd.peers && BeatFor(nd, tid.peer).SendAppend?
    ensures forall tid | tid in m :: m[tid] == AppendSent(BeatFor(nd, tid.peer).args)
  {
    map p: nat | p < nd.peers && BeatFor(nd, p).SendAppend? :: AppendThread(round, p) := AppendSent(BeatFor(nd, p).args)
  }

  predicate BeginsSnapshot(nd: Node, base: nat, serial: nat)
    requires nd.Valid()
  {
    base <= serial < base + nd.peers && BeatFor(nd, serial - base).SendSnapshot?
  }

  function SnapThreads(nd: Node, base: nat): (m: map<ThreadId, Thread>)
    requires nd.Valid()
    ensures forall tid :: tid in m <==> tid.SnapThread? && BeginsSnapshot(nd, base, tid.serial)
    ensures forall tid | tid in m :: tid.serial >= base && m[tid] == SnapPending(nd.me, tid.serial - base)
  {
    map k: nat | k < base + nd.peers && BeginsSnapshot(nd, base, k) :: SnapThread(k) := SnapPending(nd.me, k - base)
  }

  ghost predicate BeatFails(nd: Node)
    requires nd.Valid()
  {
    exists p: nat | p < nd.peers :: BeatFor(nd, p).BeatHalts?
  }

  ghost function DoHeartBeat(c: Cluster, i: nat): Cluster
    requires i < |c.servers| && c.servers[i].node.Valid()
  {
    var nd := c.servers[i].node;
    if BeatFails(nd) then c.Halt(i)
    else
      c.(threads := c.threads + AppendThreads(nd, |c.rounds|) + SnapThreads(nd, c.serials),
         rounds := c.rounds + [Round(i, nd.term, nd.LastIndex(), 1, {}, false)],
         serials := c.serials + nd.peers,
         hist := c.hist.(acks := c.hist.acks + {Ack(nd.term, nd.LastIndex(), i)}))
  }

  function DoDeliverAppend(c: Cluster, tid: ThreadId): Cluster
    requires tid.AppendThread? && tid in c.threads && c.threads[tid].AppendSent?
    requires tid.peer < |c.servers| && c.servers[tid.peer].node.Valid()
  {
    var p, a := tid.peer, c.threads[tid].args;
    var s := c.servers[p];
    match AppendEntries(s.node, a)
    case Halted => c.Halt(p).Drop(tid)
    case Done(nd, reply) =>
      if reply.success && a.prevIndex <= |s.full| then
        c.(servers := c.servers[p := s.(node := nd, full := Overwrite(s.full, a.prevIndex, a.entries))],
           threads := c.threads[tid := AppendAnswered(a, reply)],
           hist := c.hist.(acks := c.hist.acks + {Ack(a.term, a.End(), p)}))
      else
        c.SetNode(p, nd).(threads := c.threads[tid := AppendAnswered(a, reply)])
  }

  function DoAppendReplied(c: Cluster, tid: ThreadId): Cluster
    requires tid.AppendThread? && tid in c.threads && c.threads[tid].AppendAnswered?
    requires tid.round < |c.rounds| && c.rounds[tid.round].leader < |c.servers|
    requires var nd := c.servers[c.rounds[tid.round].leader].node; nd.Valid() && tid.peer < nd.peers
  {
    var r, a, reply := c.rounds[tid.round], c.threads[tid].args, c.threads[tid].reply;
    var nd := c.servers[r.leader].node;
    match HandleAppendReply(nd, tid.peer, a, reply, r.count)
    case Halted => c.Halt(r.leader).Drop(tid)
    case Done(nd', count) =>
      var counts := reply.term == nd.term && nd.status == Leader && reply.success;
      var r' := if counts
                then r.(count := count, counted := r.counted + {tid.peer}, fired := r.fired || r.count + 1 >= nd.Majority())
                else r;
      c.SetNode(r.leader, nd').Drop(tid).(rounds := c.rounds[tid.round := r'])
  }

  function DoStart(c: Cluster, i: nat, op: Op): Cluster
    requires i < |c.servers|
  {
    var s := c.servers[i];
    var nd := Start(s.node, op);
    var full := s.full + [nd.logs[|nd.logs| - 1]];
    c.(servers := c.servers[i := s.(node := nd, full := full)],
       hist := if nd.term in c.hist.reigns
               then c.hist.(reigns := c.hist.reigns[nd.term := c.hist.reigns[nd.term].(log := full)])
               else c.hist)
  }

  function DoApply(c: Cluster, i: nat): Cluster
    requires i < |c.servers| && c.servers[i].node.Valid()
  {
    var s := c.servers[i];
    c.(servers := c.servers[i := s.(node := AfterApply(s.node), delivered := s.delivered + ApplyMsgs(s.node))])
  }

  // --------------------------------------------------------------- snapshots

  function DoRunSnapshot(c: Cluster, tid: ThreadId): Cluster
    requires tid in c.threads && c.threads[tid].SnapPending? && c.threads[tid].from < |c.servers|
  {
    var th := c.threads[tid];
    var s := c.servers[th.from];
    var prefix := if s.node.snapIndex <= |s.full| then s.full[..s.node.snapIndex] else s.full;
    c.(threads := c.threads[tid := SnapSent(th.from, th.to, SnapshotArgs(s.node), prefix)])
  }

  /** The history log after a snapshot that stands for `prefix` was installed. */
  function InstalledLog(full: seq<Entry>, prefix: seq<Entry>): seq<Entry> {
    if |full| > |prefix| then prefix + full[|prefix|..] else prefix
  }

  function DoDeliverSnapshot(c: Cluster, tid: ThreadId): Cluster
    requires tid in c.threads && c.threads[tid].SnapSent? && c.threads[tid].to < |c.servers|
    requires c.servers[c.threads[tid].to].node.Valid()
  {
    var th := c.threads[tid];
    var s, a := c.servers[th.to], th.snapArgs;
    match InstallSnapshot(s.node, a)
    case Halted => c.Halt(th.to)
    case Done(nd, reply) =>
      var full := if a.term >= s.node.term && a.snapIndex > s.node.snapIndex then InstalledLog(s.full, th.prefix) else s.full;
      c.(servers := c.servers[th.to := s.(node := nd, full := full)],
         threads := c.threads[tid := SnapAnswered(th.from, th.to, a, reply)])
  }

  function DoSnapshotReplied(c: Cluster, tid: ThreadId): Cluster
    requires tid in c.threads && c.threads[tid].SnapAnswered? && c.threads[tid].from < |c.servers|
    requires var nd := c.servers[c.threads[tid].from].node; nd.Valid() && c.threads[tid].to < nd.peers
  {
    var th := c.threads[tid];
    c.SetNode(th.from, HandleSnapshotReply(c.servers[th.from].node, th.to, th.snapArgs, th.snapReply)).Drop(tid)
  }

  // -------------------------------------------------------------------- runs

  /** `states` is a run of an n-node cluster that takes the steps `labels`. */
  ghost predicate Run(n: nat, states: seq<Cluster>, labels: seq<Label>) {
    && n >= 2
    && |states| == |labels| + 1
    && states[0] == Init(n)
    && forall k {:trigger labels[k]} | 0 <= k < |labels| :: Steps(states[k], labels[k], states[k + 1])
  }

  ghost predicate Steps(c: Cluster, l: Label, c': Cluster) {
    WellTyped(c) && Enabled(c, l) && c' == Next(c, l)
  }
}
