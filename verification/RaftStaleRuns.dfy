/**
  Two runs of five nodes.  In the first, a delayed AppendEntries arrives after its
  receiver has compacted what the message starts with, and the matchLog assertion
  ends the process (raft_KV/src/raftCore/raft.cpp:53-65, 591-594).  In the second,
  a snapshot is installed below a suffix of another term, which the code keeps
  (raft_KV/src/raftCore/raft.cpp:452-453), and Log Matching fails.
 */
module RaftStaleRuns {
  import opened RaftTypes
  import opened RaftHandlers
  import opened RaftCluster
  import opened RaftInvariant
  import opened RaftReplication
  import opened RaftSafety
  import opened RaftTheorems
  import opened RaftAgreement
  import opened RaftProgress
  import opened RaftTailKept
  import opened RaftTailKeptRun

  // ------------------------------------------------------------------- more steps

  lemma BeatShows(c: Cluster, nodes: seq<Node>, i: nat)
    requires WellTyped(c) && Shows(c, nodes) && i < |nodes| && nodes[i].status == Leader && nodes[i].Valid() && !BeatFails(nodes[i])
    ensures Enabled(c, HeartBeat(i)) && Shows(Next(c, HeartBeat(i)), nodes)
    ensures var c' := Next(c, HeartBeat(i));
      && c'.rounds == c.rounds + [Round(i, nodes[i].term, nodes[i].LastIndex(), 1, {}, false)]
      && c'.threads == c.threads + AppendThreads(nodes[i], |c.rounds|) + SnapThreads(nodes[i], c.serials)
  {
  }

  lemma ThreadsOfBeat(nd: Node, i: nat, p: nat, round: nat, base: nat)
    requires nd.Valid() && p < nd.peers && nd.me == i
    ensures var b, m := BeatFor(nd, p), AppendThreads(nd, round) + SnapThreads(nd, base);
      && (b.SendAppend? ==> AppendThread(round, p) in m && m[AppendThread(round, p)] == AppendSent(b.args))
      && (b.SendSnapshot? ==> SnapThread(base + p) in m && m[SnapThread(base + p)] == SnapPending(i, p))
  {
  }

  ghost predicate SendsTo(c: Cluster, c': Cluster, i: nat, p: nat, b: Beat) {
    && (b.SendAppend? ==> Has(c', AppendThread(|c.rounds|, p), AppendSent(b.args)))
    && (b.SendSnapshot? ==> Has(c', SnapThread(c.serials + p), SnapPending(i, p)))
  }

  /** A new round of `nd`; the messages of earlier rounds are still under way. */
  ghost predicate NewRound(c: Cluster, c': Cluster, i: nat, nd: Node)
    requires nd.Valid()
  {
    && c'.rounds == c.rounds + [Round(i, nd.term, nd.LastIndex(), 1, {}, false)]
    && (forall p: nat | p < nd.peers :: SendsTo(c, c', i, p, BeatFor(nd, p)))
    && (forall tid | tid in c.threads && tid.AppendThread? && tid.round < |c.rounds| :: Has(c', tid, c.threads[tid]))
  }

  lemma BeatsAll(c: Cluster, nodes: seq<Node>, i: nat)
    requires WellTyped(c) && Shows(c, nodes) && i < |nodes| && nodes[i].status == Leader && nodes[i].Valid() && !BeatFails(nodes[i])
    requires nodes[i].peers == |nodes| && nodes[i].me == i
    ensures Enabled(c, HeartBeat(i)) && Shows(Next(c, HeartBeat(i)), nodes) && NewRound(c, Next(c, HeartBeat(i)), i, nodes[i])
  {
    BeatShows(c, nodes, i);
    RoundFollows(c, Next(c, HeartBeat(i)), i, nodes[i]);
  }

  lemma OneSent(c: Cluster, c': Cluster, i: nat, p: nat, nd: Node)
    requires nd.Valid() && nd.me == i && p < nd.peers
    requires c'.threads == c.threads + AppendThreads(nd, |c.rounds|) + SnapThreads(nd, c.serials)
    ensures SendsTo(c, c', i, p, BeatFor(nd, p))
  {
    ThreadsOfBeat(nd, i, p, |c.rounds|, c.serials);
  }

  lemma EarlierKept(c: Cluster, c': Cluster, nd: Node, tid: ThreadId)
    requires nd.Valid() && tid in c.threads && tid.AppendThread? && tid.round < |c.rounds|
    requires c'.threads == c.threads + AppendThreads(nd, |c.rounds|) + SnapThreads(nd, c.serials)
    ensures Has(c', tid, c.threads[tid])
  {
  }

  lemma RoundFollows(c: Cluster, c': Cluster, i: nat, nd: Node)
    requires nd.Valid() && nd.me == i && c'.rounds == c.rounds + [Round(i, nd.term, nd.LastIndex(), 1, {}, false)]
    requires c'.threads == c.threads + AppendThreads(nd, |c.rounds|) + SnapThreads(nd, c.serials)
    ensures NewRound(c, c', i, nd)
  {
    forall p: nat | p < nd.peers ensures SendsTo(c, c', i, p, BeatFor(nd, p)) { OneSent(c, c', i, p, nd); }
    forall tid | tid in c.threads && tid.AppendThread? && tid.round < |c.rounds| ensures Has(c', tid, c.threads[tid]) {
      EarlierKept(c, c', nd, tid);
    }
  }

  /** A heartbeat that may start snapshots. */
  lemma SendMore(t: Trace, nodes: seq<Node>, i: nat) returns (t': Trace)
    requires t.Ok(nodes) && i < |nodes| && nodes[i].status == Leader && nodes[i].Valid() && !BeatFails(nodes[i])
    requires nodes[i].peers == |nodes| && nodes[i].me == i
    ensures t'.Ok(nodes) && t.states <= t'.states && NewRound(t.Last(), t'.Last(), i, nodes[i])
  {
    LastTyped(t, nodes);
    BeatsAll(t.Last(), nodes, i);
    Extends(t, nodes, HeartBeat(i), nodes);
    t' := t.Then(HeartBeat(i), Next(t.Last(), HeartBeat(i)));
  }

  lemma Compacted(c: Cluster, nodes: seq<Node>, i: nat, index: nat)
    requires WellTyped(c) && Shows(c, nodes) && i < |nodes| && nodes[i].Valid()
    ensures Enabled(c, Compact(i, index))
    ensures var c' := Next(c, Compact(i, index));
      Shows(c', nodes[i := Snapshot(nodes[i], index)]) && c'.rounds == c.rounds && c'.threads == c.threads
  {
  }

  lemma CompactAt(t: Trace, nodes: seq<Node>, i: nat, index: nat, nd: Node, nodes': seq<Node>) returns (t': Trace)
    requires t.Ok(nodes) && i < |nodes| && nodes[i].Valid() && nd == Snapshot(nodes[i], index) && nodes' == nodes[i := nd]
    ensures t'.Ok(nodes') && Continues(t, t', {})
  {
    LastTyped(t, nodes);
    Compacted(t.Last(), nodes, i, index);
    Extends(t, nodes, Compact(i, index), nodes');
    t' := t.Then(Compact(i, index), Next(t.Last(), Compact(i, index)));
  }

  lemma Taken(c: Cluster, nodes: seq<Node>, serial: nat, i: nat, p: nat)
    requires WellTyped(c) && Shows(c, nodes) && i < |nodes| && Has(c, SnapThread(serial), SnapPending(i, p))
    requires nodes[i].snapIndex <= |c.servers[i].full|
    ensures Enabled(c, RunSnapshot(serial))
    ensures var c' := Next(c, RunSnapshot(serial));
      Shows(c', nodes) && Has(c', SnapThread(serial), SnapSent(i, p, SnapshotArgs(nodes[i]), c.servers[i].full[..nodes[i].snapIndex]))
  {
  }

  lemma StoredBehind(t: Trace, nodes: seq<Node>, i: nat)
    requires t.Ok(nodes) && i < |nodes|
    ensures |t.Last().servers| == |nodes| && nodes[i].snapIndex <= |t.Last().servers[i].full|
    ensures t.Last().servers[i].full[nodes[i].snapIndex..] == nodes[i].logs
    ensures nodes[i].snapTerm == TermAt(t.Last().servers[i].full, nodes[i].snapIndex)
  {
    RunInv(|nodes|, t.states, t.labels, |t.labels|);
    assert ServerOk(t.Last().hist, |nodes|, t.Last().servers[i], i);
  }

  lemma TakeSnapshot(t: Trace, nodes: seq<Node>, serial: nat, i: nat, p: nat) returns (t': Trace, prefix: seq<Entry>)
    requires t.Ok(nodes) && i < |nodes| && Has(t.Last(), SnapThread(serial), SnapPending(i, p))
    ensures t'.Ok(nodes) && t.states <= t'.states && |prefix| == nodes[i].snapIndex && TermAt(prefix, |prefix|) == nodes[i].snapTerm
    ensures Has(t'.Last(), SnapThread(serial), SnapSent(i, p, SnapshotArgs(nodes[i]), prefix))
  {
    LastTyped(t, nodes);
    StoredBehind(t, nodes, i);
    prefix := t.Last().servers[i].full[..nodes[i].snapIndex];
    Taken(t.Last(), nodes, serial, i, p);
    Extends(t, nodes, RunSnapshot(serial), nodes);
    t' := t.Then(RunSnapshot(serial), Next(t.Last(), RunSnapshot(serial)));
  }

  /** The run with one step more, whatever the step. */
  lemma LastStep(t: Trace, nodes: seq<Node>, l: Label) returns (states: seq<Cluster>, labels: seq<Label>)
    requires t.Ok(nodes) && Enabled(t.Last(), l) && WellTyped(t.Last())
    ensures states == t.states + [Next(t.Last(), l)] && labels == t.labels + [l] && Run(|nodes|, states, labels)
  {
    states, labels := t.states + [Next(t.Last(), l)], t.labels + [l];
    ExtendRun(|nodes|, t.states, t.labels, l, Next(t.Last(), l));
  }

  // -------------------------------------------------------------- a stale message

  function Fresh(i: nat): Node { Mk(i, 1, 0, Follower, [], 0) }

  function First(): AppendArgs { AppendArgs(1, 0, 0, 0, [A(), B()], 0) }

  /** The same entries, sent again with the commit index. */
  function Second(): AppendArgs { AppendArgs(1, 0, 0, 0, [A(), B()], 2) }

  function Got(i: nat, votedFor: int): Node { Mk(i, 1, votedFor, Follower, [A(), B()], 0) }

  function Acked2(): Node { Leader0([A(), B()]).(matchIndex := Five(0)[2 := 2], nextIndex := Five(1)[2 := 3]) }

  function Acked23(): Node {
    Leader0([A(), B()]).(matchIndex := Five(0)[2 := 2][3 := 2], nextIndex := Five(1)[2 := 3][3 := 3], commit := 2)
  }

  function Told(): Node { Got(1, 0).(commit := 2) }

  function Trimmed(): Node { Told().(applied := 2, snapIndex := 1, snapTerm := 1, logs := [B()]) }

  lemma Sends0(nd: Node, p: nat, a: AppendArgs)
    requires nd.Valid() && nd.me == 0 && nd.peers == 5 && nd.term == 1 && nd.snapIndex == 0 && nd.snapTerm == 0 && nd.logs == [A(), B()]
    requires 0 < p < 5 && nd.nextIndex[p] == 1 && a == AppendArgs(1, 0, 0, 0, [A(), B()], nd.commit)
    ensures BeatFor(nd, p) == SendAppend(a)
  {
    assert nd.logs[0..] == nd.logs;
  }

  lemma NoFailure(nd: Node)
    requires nd.Valid() && forall p | 0 <= p < nd.peers :: 1 <= nd.nextIndex[p] <= nd.snapIndex + |nd.logs| + 1
    ensures !BeatFails(nd)
  {
  }

  lemma FirstRound() returns (t: Trace)
    ensures t.Ok([Leader0([A(), B()]), Fresh(1), Fresh(2), Starter(3), Starter(4)]) && |t.Last().rounds| == 1 && RoundIs(t.Last(), 0, 0, 1)
    ensures forall p: nat | 1 <= p <= 3 :: Has(t.Last(), AppendThread(0, p), AppendSent(First()))
  {
    t := Term1();
    var n := [Leader0([A(), B()]), Fresh(1), Fresh(2), Starter(3), Starter(4)];
    var c := t.Last();
    NoFailure(n[0]);
    t := SendMore(t, n, 0);
    forall p: nat | 1 <= p <= 3 ensures Has(t.Last(), AppendThread(0, p), AppendSent(First())) {
      Sends0(n[0], p, First());
      assert SendsTo(c, t.Last(), 0, p, BeatFor(n[0], p));
    }
  }

  lemma Takes(i: nat, votedFor: int, s: Node)
    requires s == Mk(i, s.term, votedFor, Follower, [], 0) && s.term <= 1 && i < 5 && (s.term == 1 || votedFor == -1)
    ensures s.Valid() && AppendEntries(s, First()) == Done(Got(i, votedFor), AppendReply(1, true, 0))
  {
    Accepted(s, First(), Got(i, votedFor));
  }

  lemma Counts2()
    ensures Leader0([A(), B()]).Valid() && Acked2().Valid() && Acked23().Valid()
    ensures HandleAppendReply(Leader0([A(), B()]), 2, First(), AppendReply(1, true, 0), 1) == Done(Acked2(), 2)
    ensures HandleAppendReply(Acked2(), 3, First(), AppendReply(1, true, 0), 2) == Done(Acked23(), 0)
  {
  }

  /** Peers 2 and 3 answer; the message to 1 is still under way. */
  lemma TwoAnswer(t: Trace, m0: Node, m1: Node, m2: Node, m3: Node, m4: Node, a: AppendArgs, m2': Node, m3': Node, once: Node, twice: Node)
    returns (t': Trace)
    requires t.Ok([m0, m1, m2, m3, m4]) && m2.Valid() && m3.Valid() && RoundIs(t.Last(), 0, 0, 1)
    requires m0.Valid() && m0.peers == 5 && m0.status == Leader && m0.term == 1 && once.Valid() && once.peers == 5 && once.status == Leader && once.term == 1
    requires forall p: nat | 1 <= p <= 3 :: Has(t.Last(), AppendThread(0, p), AppendSent(a))
    requires AppendEntries(m2, a) == Done(m2', AppendReply(1, true, 0)) && AppendEntries(m3, a) == Done(m3', AppendReply(1, true, 0))
    requires HandleAppendReply(m0, 2, a, AppendReply(1, true, 0), 1) == Done(once, 2)
    requires HandleAppendReply(once, 3, a, AppendReply(1, true, 0), 2) == Done(twice, 0)
    ensures t'.Ok([twice, m1, m2', m3', m4]) && |t'.Last().rounds| == |t.Last().rounds|
    ensures Has(t'.Last(), AppendThread(0, 1), AppendSent(a))
  {
    var reply := AppendReply(1, true, 0);
    assert Has(t.Last(), AppendThread(0, 1), AppendSent(a)) && Has(t.Last(), AppendThread(0, 3), AppendSent(a));
    t' := Exchange(t, [m0, m1, m2, m3, m4], 0, 0, 2, a, m2', reply, 1, once, 2, [once, m1, m2', m3, m4]);
    t' := Exchange(t', [once, m1, m2', m3, m4], 0, 0, 3, a, m3', reply, 2, twice, 0, [twice, m1, m2', m3', m4]);
  }

  lemma CommittedRound() returns (t: Trace)
    ensures t.Ok([Acked23(), Fresh(1), Got(2, 0), Got(3, -1), Starter(4)]) && |t.Last().rounds| == 1
    ensures Has(t.Last(), AppendThread(0, 1), AppendSent(First()))
  {
    t := FirstRound();
    Counts2();
    Takes(2, 0, Fresh(2));
    Takes(3, -1, Starter(3));
    t := TwoAnswer(t, Leader0([A(), B()]), Fresh(1), Fresh(2), Starter(3), Starter(4), First(), Got(2, 0), Got(3, -1), Acked2(), Acked23());
  }

  lemma SecondRound() returns (t: Trace)
    ensures t.Ok([Acked23(), Fresh(1), Got(2, 0), Got(3, -1), Starter(4)])
    ensures Has(t.Last(), AppendThread(0, 1), AppendSent(First())) && Has(t.Last(), AppendThread(1, 1), AppendSent(Second()))
  {
    t := CommittedRound();
    var c := t.Last();
    Counts2();
    NoFailure(Acked23());
    Sends0(Acked23(), 1, Second());
    t := SendMore(t, [Acked23(), Fresh(1), Got(2, 0), Got(3, -1), Starter(4)], 0);
    assert SendsTo(c, t.Last(), 0, 1, BeatFor(Acked23(), 1));
  }

  /** The receiver's commit index follows the leader's when the whole message is new. */
  lemma AcceptsAll(s: Node, a: AppendArgs, t: Node)
    requires s.Valid() && s.snapIndex == 0 && s.snapTerm == 0 && s.logs == [] && s.commit == 0 && s.term == a.term
    requires a.prevIndex == 0 && a.prevTerm == 0 && a.Numbered() && 0 < a.leaderCommit <= |a.entries|
    requires t == s.(status := Follower, logs := a.entries, commit := a.leaderCommit)
    ensures AppendEntries(s, a) == Done(t, AppendReply(a.term, true, 0))
  {
    assert Overwrite([], 0, a.entries) == a.entries;
  }

  lemma Told1()
    ensures Fresh(1).Valid() && AppendEntries(Fresh(1), Second()) == Done(Told(), AppendReply(1, true, 0))
    ensures Told().Valid() && AfterApply(Told()).Valid() && Snapshot(AfterApply(Told()), 1) == Trimmed()
    ensures Told().commit > Told().applied
  {
    AcceptsAll(Fresh(1), Second(), Told());
    Trims(AfterApply(Told()), Trimmed());
  }

  lemma Trims(s: Node, t: Node)
    requires s.Valid() && s.snapIndex == 0 && s.commit == 2 && s.applied == 2 && s.logs == [A(), B()]
    requires t == s.(snapIndex := 1, snapTerm := 1, logs := [B()])
    ensures Snapshot(s, 1) == t
  {
    assert [A(), B()][1..] == [B()];
  }

  /** Node 1 applies what it has committed and compacts the first entry. */
  lemma AppliesAndTrims(t: Trace, m0: Node, m1: Node, m2: Node, m3: Node, m4: Node, done: Node, trimmed: Node) returns (t': Trace)
    requires t.Ok([m0, m1, m2, m3, m4]) && m1.Valid() && done.Valid() && m1.commit > m1.applied
    requires done == AfterApply(m1) && trimmed == Snapshot(done, 1)
    ensures t'.Ok([m0, trimmed, m2, m3, m4]) && t.states <= t'.states && t'.Last().rounds == t.Last().rounds
    ensures forall tid | tid in t.Last().threads :: Has(t'.Last(), tid, t.Last().threads[tid])
  {
    var u := HandOut(t, [m0, m1, m2, m3, m4], 1, done, ApplyMsgs(m1)[0], [m0, done, m2, m3, m4]);
    t' := CompactAt(u, [m0, done, m2, m3, m4], 1, 1, trimmed, [m0, trimmed, m2, m3, m4]);
  }

  lemma Told1By(t: Trace, m0: Node, m1: Node, m2: Node, m3: Node, m4: Node, a: AppendArgs, told: Node, early: AppendArgs)
    returns (t': Trace)
    requires t.Ok([m0, m1, m2, m3, m4]) && m1.Valid()
    requires Has(t.Last(), AppendThread(0, 1), AppendSent(early)) && Has(t.Last(), AppendThread(1, 1), AppendSent(a))
    requires AppendEntries(m1, a) == Done(told, AppendReply(1, true, 0))
    ensures t'.Ok([m0, told, m2, m3, m4]) && Has(t'.Last(), AppendThread(0, 1), AppendSent(early))
  {
    t' := Deliver(t, [m0, m1, m2, m3, m4], 1, 1, a, told, AppendReply(1, true, 0), [m0, told, m2, m3, m4]);
  }

  lemma ReadyToHalt() returns (t: Trace)
    ensures t.Ok([Acked23(), Trimmed(), Got(2, 0), Got(3, -1), Starter(4)]) && Has(t.Last(), AppendThread(0, 1), AppendSent(First()))
  {
    t := SecondRound();
    Told1();
    t := Told1By(t, Acked23(), Fresh(1), Got(2, 0), Got(3, -1), Starter(4), Second(), Told(), First());
    t := AppliesAndTrims(t, Acked23(), Told(), Got(2, 0), Got(3, -1), Starter(4), AfterApply(Told()), Trimmed());
  }

  lemma HaltsOn(c: Cluster, nodes: seq<Node>)
    requires WellTyped(c) && Shows(c, nodes) && |nodes| == 5 && nodes[1].term == 1 && nodes[1].snapIndex == 1
    requires Has(c, AppendThread(0, 1), AppendSent(First()))
    ensures Enabled(c, DeliverAppend(0, 1)) && StaleMessage(c, DeliverAppend(0, 1)) && !c.servers[1].halted
  {
  }

  /** A process does end: a message of the current leader, delayed until its receiver has applied and
      compacted the entries it starts with, fails the assertion of matchLog. */
  lemma StaleMessageHalts() returns (states: seq<Cluster>, labels: seq<Label>, k: nat, j: nat)
    ensures Run(5, states, labels) && k < |labels| && (forall m | 0 <= m < |labels| :: !labels[m].DeliverSnapshot?)
    ensures j < |states[k].servers| && j < |states[k + 1].servers|
    ensures !states[k].servers[j].halted && states[k + 1].servers[j].halted
  {
    var t := ReadyToHalt();
    var n := [Acked23(), Trimmed(), Got(2, 0), Got(3, -1), Starter(4)];
    LastTyped(t, n);
    HaltsOn(t.Last(), n);
    states, labels := LastStep(t, n, DeliverAppend(0, 1));
    k, j := |t.labels|, 1;
    HaltsOnlyOnStaleMessage(5, states, labels, k, j);
  }

  // ---------------------------------------------------- a snapshot below a stale suffix

  function Voted(i: nat, logs: seq<Entry>): Node { Mk(i, 2, 1, Follower, logs, 0) }

  function Leads1(): Node { Leader1([C()]) }

  function Leads1Once(): Node { Leads1().(matchIndex := Five(0)[2 := 1], nextIndex := Five(1)[2 := 2]) }

  function Leads1Twice(): Node {
    Leads1().(matchIndex := Five(0)[2 := 1][4 := 1], nextIndex := Five(1)[2 := 2][4 := 2], commit := 1)
  }

  function Leads1Trimmed(): Node { Leads1Twice().(applied := 1, snapIndex := 1, snapTerm := 2, logs := []) }

  lemma Sends1(p: nat)
    requires p == 2 || p == 4
    ensures Leads1().Valid() && BeatFor(Leads1(), p) == SendAppend(Args2())
  {
    assert [C()][0..] == [C()];
  }

  lemma RoundOf1() returns (t: Trace)
    ensures t.Ok([Leader0([A(), B()]), Leads1(), Voted(2, []), Follower3(), Voted(4, [])]) && RoundIs(t.Last(), 1, 1, 1)
    ensures Has(t.Last(), AppendThread(1, 2), AppendSent(Args2())) && Has(t.Last(), AppendThread(1, 4), AppendSent(Args2()))
  {
    t := Term2();
    var c := t.Last();
    Sends1(2);
    Sends1(4);
    NoFailure(Leads1());
    t := SendMore(t, [Leader0([A(), B()]), Leads1(), Voted(2, []), Follower3(), Voted(4, [])], 1);
    assert SendsTo(c, t.Last(), 1, 2, BeatFor(Leads1(), 2)) && SendsTo(c, t.Last(), 1, 4, BeatFor(Leads1(), 4));
  }

  /** Peers 2 and 4 answer leader 1. */
  lemma TwoAnswer1(t: Trace, m0: Node, m1: Node, m2: Node, m3: Node, m4: Node, a: AppendArgs, m2': Node, m4': Node, once: Node, twice: Node)
    returns (t': Trace)
    requires t.Ok([m0, m1, m2, m3, m4]) && m2.Valid() && m4.Valid() && RoundIs(t.Last(), 1, 1, 1)
    requires m1.Valid() && m1.peers == 5 && m1.status == Leader && m1.term == 2 && once.Valid() && once.peers == 5 && once.status == Leader && once.term == 2
    requires Has(t.Last(), AppendThread(1, 2), AppendSent(a)) && Has(t.Last(), AppendThread(1, 4), AppendSent(a))
    requires AppendEntries(m2, a) == Done(m2', AppendReply(2, true, 0)) && AppendEntries(m4, a) == Done(m4', AppendReply(2, true, 0))
    requires HandleAppendReply(m1, 2, a, AppendReply(2, true, 0), 1) == Done(once, 2)
    requires HandleAppendReply(once, 4, a, AppendReply(2, true, 0), 2) == Done(twice, 0)
    ensures t'.Ok([m0, twice, m2', m3, m4'])
  {
    var reply := AppendReply(2, true, 0);
    t' := Exchange(t, [m0, m1, m2, m3, m4], 1, 1, 2, a, m2', reply, 1, once, 2, [m0, once, m2', m3, m4]);
    t' := Exchange(t', [m0, once, m2', m3, m4], 1, 1, 4, a, m4', reply, 2, twice, 0, [m0, twice, m2', m3, m4']);
  }

  lemma Counts1()
    ensures Leads1().Valid() && Leads1Once().Valid() && Leads1Twice().Valid()
    ensures HandleAppendReply(Leads1(), 2, Args2(), AppendReply(2, true, 0), 1) == Done(Leads1Once(), 2)
    ensures HandleAppendReply(Leads1Once(), 4, Args2(), AppendReply(2, true, 0), 2) == Done(Leads1Twice(), 0)
  {
  }

  lemma TakesC(i: nat)
    requires i < 5
    ensures Voted(i, []).Valid() && AppendEntries(Voted(i, []), Args2()) == Done(Voted(i, [C()]), AppendReply(2, true, 0))
  {
    Accepted(Voted(i, []), Args2(), Voted(i, [C()]));
  }

  lemma CommitsC() returns (t: Trace)
    ensures t.Ok([Leader0([A(), B()]), Leads1Twice(), Voted(2, [C()]), Follower3(), Voted(4, [C()])])
  {
    t := RoundOf1();
    Counts1();
    TakesC(2);
    TakesC(4);
    t := TwoAnswer1(t, Leader0([A(), B()]), Leads1(), Voted(2, []), Follower3(), Voted(4, []), Args2(), Voted(2, [C()]), Voted(4, [C()]),
                    Leads1Once(), Leads1Twice());
  }

  lemma Trimmed1()
    ensures Leads1Twice().Valid() && AfterApply(Leads1Twice()).Valid() && Leads1Twice().commit > Leads1Twice().applied
    ensures Snapshot(AfterApply(Leads1Twice()), 1) == Leads1Trimmed()
    ensures Leads1Trimmed().Valid() && BeatFor(Leads1Trimmed(), 0) == SendSnapshot
    ensures SnapshotArgs(Leads1Trimmed()) == SnapArgs(2, 1, 1, 2)
  {
    assert [C()][1..] == [];
  }

  lemma SnapshotStarts() returns (t: Trace, serial: nat)
    ensures t.Ok([Leader0([A(), B()]), Leads1Trimmed(), Voted(2, [C()]), Follower3(), Voted(4, [C()])])
    ensures Has(t.Last(), SnapThread(serial), SnapPending(1, 0))
  {
    t := CommitsC();
    Trimmed1();
    t := AppliesAndTrims(t, Leader0([A(), B()]), Leads1Twice(), Voted(2, [C()]), Follower3(), Voted(4, [C()]),
                         AfterApply(Leads1Twice()), Leads1Trimmed());
    var c := t.Last();
    NoFailure(Leads1Trimmed());
    t := SendMore(t, [Leader0([A(), B()]), Leads1Trimmed(), Voted(2, [C()]), Follower3(), Voted(4, [C()])], 1);
    serial := c.serials;
    assert SendsTo(c, t.Last(), 1, 0, BeatFor(Leads1Trimmed(), 0));
  }

  lemma SnapshotSent() returns (t: Trace, serial: nat, prefix: seq<Entry>)
    ensures t.Ok([Leader0([A(), B()]), Leads1Trimmed(), Voted(2, [C()]), Follower3(), Voted(4, [C()])])
    ensures |prefix| == 1 && prefix[0].term == 2
    ensures Has(t.Last(), SnapThread(serial), SnapSent(1, 0, SnapArgs(2, 1, 1, 2), prefix))
  {
    t, serial := SnapshotStarts();
    Trimmed1();
    t, prefix := TakeSnapshot(t, [Leader0([A(), B()]), Leads1Trimmed(), Voted(2, [C()]), Follower3(), Voted(4, [C()])], serial, 1, 0);
  }

  lemma InstallsBelow(c: Cluster, nodes: seq<Node>, serial: nat, a: SnapArgs, prefix: seq<Entry>)
    requires WellTyped(c) && Shows(c, nodes) && 0 < |nodes| && nodes[0].term <= a.term && nodes[0].snapIndex < a.snapIndex
    requires Has(c, SnapThread(serial), SnapSent(1, 0, a, prefix))
    ensures Enabled(c, DeliverSnapshot(serial))
    ensures var c' := Next(c, DeliverSnapshot(serial));
      && |c'.servers| == |c.servers| && c'.servers[0].full == InstalledLog(c.servers[0].full, prefix)
      && forall i | 0 < i < |c.servers| :: c'.servers[i] == c.servers[i]
  {
  }

  lemma SuffixKept(full: seq<Entry>, prefix: seq<Entry>)
    requires full == [A(), B()] && |prefix| == 1 && prefix[0].term == 2
    ensures Share(InstalledLog(full, prefix), full, 1) && InstalledLog(full, prefix)[..2] != full[..2]
  {
    assert InstalledLog(full, prefix)[..2][0].term != full[..2][0].term;
  }

  /** Log Matching fails when a snapshot is installed below entries that its boundary entry does not precede:
      the last step of the run is that installation. */
  lemma SnapshotCanBreakMatching() returns (states: seq<Cluster>, labels: seq<Label>, a: nat, b: nat, p: nat)
    ensures Run(5, states, labels) && labels != [] && labels[|labels| - 1].DeliverSnapshot?
    ensures var c := states[|labels|];
      && a < |c.servers| && b < |c.servers| && Share(c.servers[a].full, c.servers[b].full, p)
      && c.servers[a].full[..p + 1] != c.servers[b].full[..p + 1]
  {
    var t, serial, prefix := SnapshotSent();
    var n := [Leader0([A(), B()]), Leads1Trimmed(), Voted(2, [C()]), Follower3(), Voted(4, [C()])];
    LastTyped(t, n);
    FullIsStored(t, n, 0);
    FullIsStored(t, n, 3);
    InstallsBelow(t.Last(), n, serial, SnapArgs(2, 1, 1, 2), prefix);
    states, labels := LastStep(t, n, DeliverSnapshot(serial));
    a, b, p := 0, 3, 1;
    SuffixKept(t.Last().servers[0].full, prefix);
  }
}
