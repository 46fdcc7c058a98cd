/**
  Values exchanged and stored by a Raft node (raft_KV/src/raftCore/raft.cpp,
  raft_KV/src/raftRpcPro/raftRPC.proto).
 */
module RaftTypes {

  /** A client operation; log entries carry it as their command. */
  datatype Op = Op(operation: string, key: string, value: string, clientId: string, requestId: int)

  datatype Entry = Entry(index: nat, term: nat, command: Op)

  datatype Status = Follower | Candidate | Leader

  /** What `getApplyLogs` hands to the key-value server. */
  datatype ApplyMsg = ApplyMsg(index: nat, command: Op)

  datatype VoteArgs = VoteArgs(term: nat, candidate: nat, lastIndex: nat, lastTerm: nat)
  datatype VoteReply = VoteReply(term: nat, granted: bool)

  datatype AppendArgs = AppendArgs(
    term: nat, leader: nat, prevIndex: nat, prevTerm: nat, entries: seq<Entry>, leaderCommit: nat)
  {
    /** The index of the last entry the message covers. */
    function End(): nat { prevIndex + |entries| }

    /** Entries are numbered consecutively from the one after `prevIndex`. */
    predicate Numbered() {
      forall k | 0 <= k < |entries| :: entries[k].index == prevIndex + 1 + k
    }
  }

  /** `next` is UpdateNextIndex; -100 marks a reply that carries no hint. */
  datatype AppendReply = AppendReply(term: nat, success: bool, next: int)

  datatype SnapArgs = SnapArgs(term: nat, leader: nat, snapIndex: nat, snapTerm: nat)
  datatype SnapReply = SnapReply(term: nat)

  /** The fields of one Raft object, read together under its lock. */
  datatype Node = Node(
    me: nat, peers: nat, term: nat, votedFor: int, status: Status, logs: seq<Entry>,
    commit: nat, applied: nat, snapIndex: nat, snapTerm: nat,
    nextIndex: seq<int>, matchIndex: seq<int>)
  {
    /** The object invariant: indices of stored entries are contiguous above the
        snapshot point, and 0 <= snapshot <= applied <= commit <= last. */
    predicate Valid() {
      && me < peers
      && (forall k | 0 <= k < |logs| :: logs[k].index == snapIndex + 1 + k)
      && snapIndex <= applied <= commit <= snapIndex + |logs|
      && |nextIndex| == peers
      && |matchIndex| == peers
    }

    /** getLastLogIndex */
    function LastIndex(): nat {
      if |logs| == 0 then snapIndex else logs[|logs| - 1].index
    }

    /** getLastLogTerm */
    function LastTerm(): nat {
      if |logs| == 0 then snapTerm else logs[|logs| - 1].term
    }

    /** getLogTermFromLogIndex */
    function TermOf(index: nat): nat
      requires snapIndex <= index <= snapIndex + |logs|
    {
      if index == snapIndex then snapTerm else logs[index - snapIndex - 1].term
    }

    /** UpToDate: a candidate whose last entry is (index, term) may get this node's vote. */
    predicate UpToDate(index: nat, lastTerm: nat) {
      lastTerm > LastTerm() || (lastTerm == LastTerm() && index >= LastIndex())
    }

    function Majority(): nat { peers / 2 + 1 }

    /** The three changes made whenever a larger term is seen. */
    function StepDown(newTerm: nat): Node {
      this.(term := newTerm, votedFor := -1, status := Follower)
    }
  }

  /** The state `Raft::init` leaves when there is nothing persisted. */
  function InitNode(me: nat, peers: nat): Node {
    Node(me, peers, 0, -1, Follower, [], 0, 0, 0, 0, seq(peers, _ => 0), seq(peers, _ => 0))
  }

  /** A handler either ends with a new node and an answer, or a failed myAssert
      ends the process (raft_KV/src/common/util.cpp:8-13). */
  datatype Result<+R> = Halted | Done(node: Node, reply: R)

  function Max(a: int, b: int): int { if a >= b then a else b }

  function Min(a: int, b: int): int { if a <= b then a else b }
}
