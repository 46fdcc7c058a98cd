/**
  The run of RaftTailKept.  Term 1: node 0 gives its entries A, B to node 3 only.
  Term 2: node 1 replaces A by C on node 0, which keeps B behind it, and commits
  C with nodes 0 and 4.  Term 3: node 0, whose log ends in a term-1 entry, votes
  for node 3, which commits A where C was committed.
 */
module RaftTailKeptRun {
  import opened RaftTypes
  import opened RaftHandlers
  import opened RaftCluster
  import opened RaftInvariant
  import opened RaftReplication
  import opened RaftTheorems
  import opened RaftAgreement
  import opened RaftProgress
  import opened RaftTailKept

  function Put(key: string): Op { Op("Put", key, "", "", 1) }

  function A(): Entry { Entry(1, 1, Put("a")) }
  function B(): Entry { Entry(2, 1, Put("b")) }
  function C(): Entry { Entry(1, 2, Put("c")) }
  function E(): Entry { Entry(3, 3, Put("e")) }

  function Five(v: int): (s: seq<int>)
    ensures |s| == 5 && forall k | 0 <= k < 5 :: s[k] == v
  {
    [v, v, v, v, v]
  }

  function Mk(me: nat, term: nat, votedFor: int, status: Status, logs: seq<Entry>, next: int): Node {
    Node(me, 5, term, votedFor, status, logs, 0, 0, 0, 0, Five(next), Five(0))
  }

  function Starter(i: nat): Node { Mk(i, 0, -1, Follower, [], 0) }

  lemma StartersShow()
    ensures Trace([Init(5)], []).Ok([Starter(0), Starter(1), Starter(2), Starter(3), Starter(4)])
  {
    assert seq(5, _ => 0) == Five(0);
    var nodes := [Starter(0), Starter(1), Starter(2), Starter(3), Starter(4)];
    forall i: nat | i < 5 ensures Init(5).servers[i].node == nodes[i] { }
  }

  lemma Crowned(s: Node, t: Node, next: int)
    requires s.nextIndex == Five(0) || s.nextIndex == Five(1)
    requires s.matchIndex == Five(0) && next == s.LastIndex() + 1
    requires t == s.(status := Leader, nextIndex := Five(next), matchIndex := Five(0))
    ensures BecomeLeader(s) == t
  {
    assert BecomeLeader(s).nextIndex == Five(next);
    assert BecomeLeader(s).matchIndex == Five(0);
  }

  lemma Started(s: Node, op: Op, t: Node)
    requires |t.logs| == |s.logs| + 1 && t == s.(logs := t.logs) && t.logs[..|s.logs|] == s.logs
    requires t.logs[|s.logs|] == Entry(s.LastIndex() + 1, s.term, op)
    ensures Start(s, op) == t
  {
  }

  // ------------------------------------------------------------------ term 1

  function Leader0(logs: seq<Entry>): Node { Mk(0, 1, 0, Leader, logs, 1) }

  lemma Term1() returns (t: Trace)
    ensures t.Ok([Leader0([A(), B()]), Mk(1, 1, 0, Follower, [], 0), Mk(2, 1, 0, Follower, [], 0), Starter(3), Starter(4)])
    ensures t.Last().rounds == []
  {
    StartersShow();
    var nodes := [Starter(0), Starter(1), Starter(2), Starter(3), Starter(4)];
    var (nd, a) := StartElection(Starter(0));
    Crowned(nd, Leader0([]), 1);
    var n1 := [Leader0([]), Mk(1, 1, 0, Follower, [], 0), Mk(2, 1, 0, Follower, [], 0), Starter(3), Starter(4)];
    t := Elect(Trace([Init(5)], []), nodes, 0, 1, 2, nd, a, n1);
    var n2 := n1[0 := Leader0([A()])];
    Started(n1[0], Put("a"), n2[0]);
    t := Propose(t, n1, 0, Put("a"), n2[0], n2);
    Started(n2[0], Put("b"), Leader0([A(), B()]));
    t := Propose(t, n2, 0, Put("b"), Leader0([A(), B()]), n1[0 := Leader0([A(), B()])]);
  }

  // ------------------------------------------------------------- handler values

  lemma BeatIs(s: Node, p: nat, prev: nat, prevTerm: nat, entries: seq<Entry>)
    requires s.Valid() && s.snapIndex == 0 && p < s.peers && p != s.me && s.nextIndex[p] == prev + 1 && prev <= |s.logs|
    requires prevTerm == s.TermOf(prev) && entries == s.logs[prev..]
    ensures BeatFor(s, p) == SendAppend(AppendArgs(s.term, s.me, prev, prevTerm, entries, s.commit))
  {
  }

  lemma ReachesAll(s: Node)
    requires s.Valid() && s.snapIndex == 0 && forall p | 0 <= p < s.peers :: 1 <= s.nextIndex[p] <= |s.logs| + 1
    ensures Reaches(s)
  {
  }

  lemma Accepted(s: Node, a: AppendArgs, t: Node)
    requires s.Valid() && s.snapIndex == 0 && a.term >= s.term && a.leaderCommit == 0
    requires a.prevIndex <= |s.logs| && s.TermOf(a.prevIndex) == a.prevTerm
    requires forall k | 0 <= k < |a.entries| && a.prevIndex + k < |s.logs| :: s.logs[a.prevIndex + k].term != a.entries[k].term
    requires t == AtTerm(s, a.term).(logs := Overwrite(s.logs, a.prevIndex, a.entries))
    ensures AppendEntries(s, a) == Done(t, AppendReply(a.term, true, 0))
  {
  }

  // ------------------------------------------------------------- term 1, sent

  function Follower3(): Node { Mk(3, 1, -1, Follower, [A(), B()], 0) }

  lemma Sent1() returns (t: Trace)
    ensures t.Ok([Leader0([A(), B()]), Mk(1, 1, 0, Follower, [], 0), Mk(2, 1, 0, Follower, [], 0), Follower3(), Starter(4)])
    ensures |t.Last().rounds| == 1
  {
    t := Term1();
    var n := [Leader0([A(), B()]), Mk(1, 1, 0, Follower, [], 0), Mk(2, 1, 0, Follower, [], 0), Starter(3), Starter(4)];
    var a := AppendArgs(1, 0, 0, 0, [A(), B()], 0);
    ReachesAll(n[0]);
    BeatIs(n[0], 3, 0, 0, [A(), B()]);
    t := SendRound(t, n, 0, 3, 1);
    Accepted(n[3], a, Follower3());
    t := Deliver(t, n, 0, 3, a, Follower3(), AppendReply(1, true, 0), n[3 := Follower3()]);
  }

  // ------------------------------------------------------------------ term 2

  function Leader1(logs: seq<Entry>): Node { Mk(1, 2, 1, Leader, logs, 1) }

  lemma Term2() returns (t: Trace)
    ensures t.Ok([Leader0([A(), B()]), Leader1([C()]), Mk(2, 2, 1, Follower, [], 0), Follower3(), Mk(4, 2, 1, Follower, [], 0)])
    ensures |t.Last().rounds| == 1
  {
    t := Sent1();
    var n := [Leader0([A(), B()]), Mk(1, 1, 0, Follower, [], 0), Mk(2, 1, 0, Follower, [], 0), Follower3(), Starter(4)];
    var (nd, a) := StartElection(n[1]);
    Crowned(nd, Leader1([]), 1);
    var n1 := [n[0], Leader1([]), Mk(2, 2, 1, Follower, [], 0), n[3], Mk(4, 2, 1, Follower, [], 0)];
    t := Elect(t, n, 1, 2, 4, nd, a, n1);
    Started(n1[1], Put("c"), Leader1([C()]));
    t := Propose(t, n1, 1, Put("c"), Leader1([C()]), n1[1 := Leader1([C()])]);
  }

  function Args2(): AppendArgs { AppendArgs(2, 1, 0, 0, [C()], 0) }

  /** Node 0 took over C and kept B behind it. */
  function Mixed(): Node { Mk(0, 2, -1, Follower, [C(), B()], 1) }

  lemma Sent2() returns (t: Trace)
    ensures t.Ok([Mixed(), Leader1([C()]), Mk(2, 2, 1, Follower, [], 0), Follower3(), Mk(4, 2, 1, Follower, [], 0)])
    ensures |t.Last().rounds| == 2 && RoundIs(t.Last(), 1, 1, 1)
    ensures Has(t.Last(), AppendThread(1, 0), AppendAnswered(Args2(), AppendReply(2, true, 0)))
    ensures Has(t.Last(), AppendThread(1, 4), AppendSent(Args2()))
  {
    t := Term2();
    var n := [Leader0([A(), B()]), Leader1([C()]), Mk(2, 2, 1, Follower, [], 0), Follower3(), Mk(4, 2, 1, Follower, [], 0)];
    ReachesAll(n[1]);
    BeatIs(n[1], 0, 0, 0, [C()]);
    BeatIs(n[1], 4, 0, 0, [C()]);
    t := SendRound(t, n, 1, 0, 4);
    Accepted(n[0], Args2(), Mixed());
    t := Deliver(t, n, 1, 0, Args2(), Mixed(), AppendReply(2, true, 0), n[0 := Mixed()]);
  }

  function Leader1Acked(): Node { Leader1([C()]).(matchIndex := Five(0)[0 := 1], nextIndex := Five(1)[0 := 2]) }

  function Leader1Committed(): Node {
    Leader1([C()]).(matchIndex := Five(0)[0 := 1][4 := 1], nextIndex := Five(1)[0 := 2][4 := 2], commit := 1)
  }

  lemma Committed2(t: Trace) returns (t': Trace)
    requires t.Ok([Mixed(), Leader1([C()]), Mk(2, 2, 1, Follower, [], 0), Follower3(), Mk(4, 2, 1, Follower, [], 0)])
    requires |t.Last().rounds| == 2 && RoundIs(t.Last(), 1, 1, 1)
    requires Has(t.Last(), AppendThread(1, 0), AppendAnswered(Args2(), AppendReply(2, true, 0)))
    requires Has(t.Last(), AppendThread(1, 4), AppendSent(Args2()))
    ensures t'.Ok([Mixed(), Leader1Committed(), Mk(2, 2, 1, Follower, [], 0), Follower3(), Mk(4, 2, 1, Follower, [C()], 0)])
    ensures t.states <= t'.states && |t'.Last().rounds| == 2
  {
    var n := [Mixed(), Leader1([C()]), Mk(2, 2, 1, Follower, [], 0), Follower3(), Mk(4, 2, 1, Follower, [], 0)];
    var reply := AppendReply(2, true, 0);
    var n1 := n[1 := Leader1Acked()];
    t' := Return(t, n, 1, 1, 0, Args2(), reply, 1, Leader1Acked(), 2, n1);
    Accepted(n[4], Args2(), Mk(4, 2, 1, Follower, [C()], 0));
    var nd4 := Mk(4, 2, 1, Follower, [C()], 0);
    t' := Exchange(t', n1, 1, 1, 4, Args2(), nd4, reply, 2, Leader1Committed(), 0, n1[4 := nd4][1 := Leader1Committed()]);
  }

  function Leader1Applied(): Node { Leader1Committed().(applied := 1) }

  /** Node 1 hands out C. */
  lemma Applied2(t: Trace) returns (t': Trace)
    requires t.Ok([Mixed(), Leader1Committed(), Mk(2, 2, 1, Follower, [], 0), Follower3(), Mk(4, 2, 1, Follower, [C()], 0)])
    requires |t.Last().rounds| == 2
    ensures t'.Ok([Mixed(), Leader1Applied(), Mk(2, 2, 1, Follower, [], 0), Follower3(), Mk(4, 2, 1, Follower, [C()], 0)])
    ensures t.states <= t'.states && |t'.Last().rounds| == 2 && |t'.Last().servers| == 5
    ensures ApplyMsg(1, Put("c")) in t'.Last().servers[1].delivered
  {
    AppliedValues();
    t' := HandOutBy1(t, Mixed(), Leader1Committed(), Mk(2, 2, 1, Follower, [], 0), Follower3(), Mk(4, 2, 1, Follower, [C()], 0),
                     Leader1Applied(), ApplyMsg(1, Put("c")));
  }

  lemma AppliedValues()
    ensures Leader1Committed().Valid() && AfterApply(Leader1Committed()) == Leader1Applied() && Leader1Committed().applied == 0
    ensures Leader1Committed().commit == 1 && ApplyMsgs(Leader1Committed())[0] == ApplyMsg(1, Put("c"))
  {
  }

  lemma HandOutBy1(t: Trace, nd0: Node, nd1: Node, nd2: Node, nd3: Node, nd4: Node, nd1': Node, msg: ApplyMsg) returns (t': Trace)
    requires t.Ok([nd0, nd1, nd2, nd3, nd4]) && |t.Last().rounds| == 2 && nd1.Valid() && nd1.commit > nd1.applied
    requires nd1' == AfterApply(nd1) && msg == ApplyMsgs(nd1)[0]
    ensures t'.Ok([nd0, nd1', nd2, nd3, nd4]) && t.states <= t'.states && |t'.Last().rounds| == 2 && |t'.Last().servers| == 5
    ensures msg in t'.Last().servers[1].delivered
  {
    t' := HandOut(t, [nd0, nd1, nd2, nd3, nd4], 1, nd1', msg, [nd0, nd1', nd2, nd3, nd4]);
  }

  // ------------------------------------------------------------------ term 3

  function Leader3(logs: seq<Entry>): Node { Mk(3, 3, 3, Leader, logs, 3) }

  function Voter0(): Node { Mk(0, 3, 3, Follower, [C(), B()], 1) }

  function Nodes3(nd0: Node, nd2: Node, nd3: Node): seq<Node> {
    [nd0, Leader1Applied(), nd2, nd3, Mk(4, 2, 1, Follower, [C()], 0)]
  }

  lemma Term3(t: Trace) returns (t': Trace)
    requires t.Ok([Mixed(), Leader1Applied(), Mk(2, 2, 1, Follower, [], 0), Follower3(), Mk(4, 2, 1, Follower, [C()], 0)])
    requires |t.Last().rounds| == 2
    ensures t'.Ok(Nodes3(Voter0(), Mk(2, 3, 3, Follower, [], 0), Leader3([A(), B(), E()])))
    ensures t.states <= t'.states && |t'.Last().rounds| == 2
  {
    var n := Nodes3(Mixed(), Mk(2, 2, 1, Follower, [], 0), Follower3());
    t' := Campaign(t, n, 3);
    var n1 := Nodes3(n[0], n[2], Mk(3, 2, 3, Candidate, [A(), B()], 0));
    assert n[3 := StartElection(n[3]).0] == n1;
    var (nd, a) := StartElection(n1[3]);
    Crowned(nd, Leader3([A(), B()]), 3);
    var n2 := Nodes3(Voter0(), Mk(2, 3, 3, Follower, [], 0), Leader3([A(), B()]));
    t' := Elect(t', n1, 3, 0, 2, nd, a, n2);
    Started(n2[3], Put("e"), Leader3([A(), B(), E()]));
    t' := Propose(t', n2, 3, Put("e"), Leader3([A(), B(), E()]), Nodes3(n2[0], n2[2], Leader3([A(), B(), E()])));
  }

  function Probe3(): AppendArgs { AppendArgs(3, 3, 2, 1, [E()], 0) }

  function Whole3(): AppendArgs { AppendArgs(3, 3, 0, 0, [A(), B(), E()], 0) }

  function Leader3Refused(): Node { Leader3([A(), B(), E()]).(nextIndex := Five(3)[2 := 1]) }

  lemma Probed3(t: Trace) returns (t': Trace)
    requires t.Ok(Nodes3(Voter0(), Mk(2, 3, 3, Follower, [], 0), Leader3([A(), B(), E()]))) && |t.Last().rounds| == 2
    ensures t'.Ok(Nodes3(Voter0(), Mk(2, 3, 3, Follower, [], 0), Leader3Refused()))
    ensures t.states <= t'.states && |t'.Last().rounds| == 3
  {
    var n := Nodes3(Voter0(), Mk(2, 3, 3, Follower, [], 0), Leader3([A(), B(), E()]));
    ReachesAll(n[3]);
    BeatIs(n[3], 2, 2, 1, [E()]);
    t' := SendRound(t, n, 3, 2, 0);
    var reply := AppendReply(3, false, 1);
    t' := Deliver(t', n, 2, 2, Probe3(), n[2], reply, n);
    t' := Return(t', n, 3, 2, 2, Probe3(), reply, 1, Leader3Refused(), 1, Nodes3(n[0], n[2], Leader3Refused()));
  }

  function Leader3Acked(): Node { Leader3Refused().(matchIndex := Five(0)[2 := 3], nextIndex := Five(3)[2 := 4]) }

  function Leader3Committed(): Node {
    Leader3Refused().(matchIndex := Five(0)[2 := 3][0 := 3], nextIndex := Five(3)[2 := 4][0 := 4], commit := 3)
  }

  function Full2(): Node { Mk(2, 3, 3, Follower, [A(), B(), E()], 0) }

  function Full0(): Node { Mk(0, 3, 3, Follower, [C(), B(), E()], 1) }

  lemma Refused3()
    ensures Leader3Refused().Valid() && Reaches(Leader3Refused())
  {
    ReachesAll(Leader3Refused());
  }

  lemma BeatWhole3()
    requires Leader3Refused().Valid()
    ensures BeatFor(Leader3Refused(), 2) == SendAppend(Whole3())
  {
    BeatIs(Leader3Refused(), 2, 0, 0, [A(), B(), E()]);
  }

  lemma BeatProbe3()
    requires Leader3Refused().Valid()
    ensures BeatFor(Leader3Refused(), 0) == SendAppend(Probe3())
  {
    BeatIs(Leader3Refused(), 0, 2, 1, [E()]);
  }

  lemma AcceptWhole3()
    ensures Mk(2, 3, 3, Follower, [], 0).Valid()
    ensures AppendEntries(Mk(2, 3, 3, Follower, [], 0), Whole3()) == Done(Full2(), AppendReply(3, true, 0))
  {
    Accepted(Mk(2, 3, 3, Follower, [], 0), Whole3(), Full2());
  }

  lemma AcceptProbe3()
    ensures Voter0().Valid()
    ensures AppendEntries(Voter0(), Probe3()) == Done(Full0(), AppendReply(3, true, 0))
  {
    Accepted(Voter0(), Probe3(), Full0());
  }

  lemma Replies3()
    ensures Leader3Refused().Valid() && Leader3Acked().Valid() && Leader3Committed().Valid()
    ensures HandleAppendReply(Leader3Refused(), 2, Whole3(), AppendReply(3, true, 0), 1) == Done(Leader3Acked(), 2)
    ensures HandleAppendReply(Leader3Acked(), 0, Probe3(), AppendReply(3, true, 0), 2) == Done(Leader3Committed(), 0)
    ensures ApplyMsgs(Leader3Committed())[0] == ApplyMsg(1, Put("a"))
  {
  }

  lemma Beaten3(t: Trace) returns (t': Trace)
    requires t.Ok(Nodes3(Voter0(), Mk(2, 3, 3, Follower, [], 0), Leader3Refused())) && |t.Last().rounds| == 3
    ensures t'.Ok(Nodes3(Voter0(), Mk(2, 3, 3, Follower, [], 0), Leader3Refused())) && t.states <= t'.states
    ensures RoundIs(t'.Last(), 3, 3, 1)
    ensures Has(t'.Last(), AppendThread(3, 2), AppendSent(Whole3())) && Has(t'.Last(), AppendThread(3, 0), AppendSent(Probe3()))
  {
    Refused3();
    BeatWhole3();
    BeatProbe3();
    t' := SendRound(t, Nodes3(Voter0(), Mk(2, 3, 3, Follower, [], 0), Leader3Refused()), 3, 2, 0);
  }

  lemma Sent3(t: Trace) returns (t': Trace)
    requires t.Ok(Nodes3(Voter0(), Mk(2, 3, 3, Follower, [], 0), Leader3Refused())) && RoundIs(t.Last(), 3, 3, 1)
    requires Has(t.Last(), AppendThread(3, 2), AppendSent(Whole3())) && Has(t.Last(), AppendThread(3, 0), AppendSent(Probe3()))
    ensures t'.Ok(Nodes3(Voter0(), Full2(), Leader3Acked())) && t.states <= t'.states && RoundIs(t'.Last(), 3, 3, 2)
    ensures Has(t'.Last(), AppendThread(3, 0), AppendSent(Probe3()))
  {
    AcceptWhole3();
    Replies3();
    t' := ExchangeWith2(t, Voter0(), Mk(2, 3, 3, Follower, [], 0), Leader3Refused(), Whole3(), Full2(), Leader3Acked(), Probe3());
  }

  lemma ExchangeWith2(t: Trace, nd0: Node, nd2: Node, nd3: Node, a: AppendArgs, nd2': Node, nd3': Node, b: AppendArgs) returns (t': Trace)
    requires t.Ok(Nodes3(nd0, nd2, nd3)) && RoundIs(t.Last(), 3, 3, 1)
    requires nd2.Valid() && nd3.Valid() && nd3.peers == 5 && nd3.status == Leader && nd3.term == 3
    requires Has(t.Last(), AppendThread(3, 2), AppendSent(a)) && Has(t.Last(), AppendThread(3, 0), AppendSent(b))
    requires AppendEntries(nd2, a) == Done(nd2', AppendReply(3, true, 0))
    requires HandleAppendReply(nd3, 2, a, AppendReply(3, true, 0), 1) == Done(nd3', 2)
    ensures t'.Ok(Nodes3(nd0, nd2', nd3')) && t.states <= t'.states && RoundIs(t'.Last(), 3, 3, 2)
    ensures Has(t'.Last(), AppendThread(3, 0), AppendSent(b))
  {
    t' := Exchange(t, Nodes3(nd0, nd2, nd3), 3, 3, 2, a, nd2', AppendReply(3, true, 0), 1, nd3', 2, Nodes3(nd0, nd2', nd3'));
  }

  lemma Committed3(t: Trace) returns (t': Trace)
    requires t.Ok(Nodes3(Voter0(), Full2(), Leader3Acked())) && RoundIs(t.Last(), 3, 3, 2)
    requires Has(t.Last(), AppendThread(3, 0), AppendSent(Probe3()))
    ensures t'.Ok(Nodes3(Full0(), Full2(), Leader3Committed())) && t.states <= t'.states
  {
    var n := Nodes3(Voter0(), Full2(), Leader3Acked());
    var n1, reply := Nodes3(Full0(), Full2(), Leader3Committed()), AppendReply(3, true, 0);
    AcceptProbe3();
    Replies3();
    t' := Exchange(t, n, 3, 3, 0, Probe3(), Full0(), reply, 2, Leader3Committed(), 0, n1);
  }

  /** Node 3 hands out A. */
  lemma Applied3(t: Trace) returns (t': Trace)
    requires t.Ok(Nodes3(Full0(), Full2(), Leader3Committed()))
    ensures |t'.states| > 0 && Run(5, t'.states, t'.labels) && forall k | 0 <= k < |t'.labels| :: !t'.labels[k].DeliverSnapshot?
    ensures t.states <= t'.states && |t'.Last().servers| == 5 && ApplyMsg(1, Put("a")) in t'.Last().servers[3].delivered
  {
    var n := Nodes3(Full0(), Full2(), Leader3Committed());
    Replies3();
    t' := HandOut(t, n, 3, AfterApply(Leader3Committed()), ApplyMsg(1, Put("a")), n[3 := AfterApply(Leader3Committed())]);
  }

  // ---------------------------------------------------------------- the failures

  lemma FullIsStored(t: Trace, nodes: seq<Node>, i: nat)
    requires t.Ok(nodes) && i < |nodes| && nodes[i].snapIndex == 0
    ensures |t.Last().servers| == |nodes| && t.Last().servers[i].full == nodes[i].logs
  {
    RunInv(|nodes|, t.states, t.labels, |t.labels|);
    assert ServerOk(t.Last().hist, |nodes|, t.Last().servers[i], i);
  }

  /** Log Matching fails when a conflicting message ends below the receiver's last index. */
  lemma LogMatchingCanFail() returns (states: seq<Cluster>, labels: seq<Label>, a: nat, b: nat, p: nat)
    ensures Run(5, states, labels) && (forall k | 0 <= k < |labels| :: !labels[k].DeliverSnapshot?)
    ensures var c := states[|labels|];
      && a < |c.servers| && b < |c.servers| && Share(c.servers[a].full, c.servers[b].full, p)
      && c.servers[a].full[..p + 1] != c.servers[b].full[..p + 1]
  {
    var t := Sent2();
    var n := [Mixed(), Leader1([C()]), Mk(2, 2, 1, Follower, [], 0), Follower3(), Mk(4, 2, 1, Follower, [], 0)];
    states, labels, a, b, p := t.states, t.labels, 0, 3, 1;
    FullIsStored(t, n, 0);
    FullIsStored(t, n, 3);
    assert n[0].logs[..2][0] != n[3].logs[..2][0];
  }

  /** State Machine Safety fails with it: in a run without snapshots, two nodes hand
      out different commands for index 1. */
  lemma StateMachineSafetyCanFail()
    returns (states: seq<Cluster>, labels: seq<Label>, j: nat, k: nat, a: nat, b: nat, x: nat, y: nat)
    ensures Run(5, states, labels) && (forall k | 0 <= k < |labels| :: !labels[k].DeliverSnapshot?)
    ensures j <= k < |states| && a < |states[j].servers| && b < |states[k].servers|
    ensures x < |states[j].servers[a].delivered| && y < |states[k].servers[b].delivered|
    ensures states[j].servers[a].delivered[x].index == states[k].servers[b].delivered[y].index
    ensures states[j].servers[a].delivered[x].command != states[k].servers[b].delivered[y].command
  {
    var t := Sent2();
    t := Committed2(t);
    var u := Applied2(t);
    var v := Term3(u);
    v := Probed3(v);
    v := Beaten3(v);
    v := Sent3(v);
    v := Committed3(v);
    v := Applied3(v);
    states, labels, a, b := v.states, v.labels, 1, 3;
    j, k := |u.states| - 1, |v.states| - 1;
    assert states[j] == u.Last();
    x :| 0 <= x < |u.Last().servers[1].delivered| && u.Last().servers[1].delivered[x] == ApplyMsg(1, Put("c"));
    y :| 0 <= y < |v.Last().servers[3].delivered| && v.Last().servers[3].delivered[y] == ApplyMsg(1, Put("a"));
  }
}
