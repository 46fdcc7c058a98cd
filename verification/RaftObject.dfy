/**
  The Raft object: the lock-held handlers as methods that change its fields step
  by step, each proved to compute the handler function of the cluster model
  (raft_KV/src/raftCore/raft.cpp).

  A handler that ends in a failed myAssert returns `halted`.  The assertions
  that hold of every valid node are Dafny assertions here.
 */
module RaftObject {
  import opened RaftTypes
  import H = RaftHandlers
  import opened RaftNodeLaws

  // ------------------------------------------------------------ the merge loop

  ghost predicate Numbered(logs: seq<Entry>, snap: nat) {
    forall k | 0 <= k < |logs| :: logs[k].index == snap + 1 + k
  }

  /** `e` at position `k`, which is stored or one past the end. */
  ghost function Put(logs: seq<Entry>, k: nat, e: Entry): seq<Entry>
    requires k <= |logs|
  {
    if k < |logs| then logs[k := e] else logs + [e]
  }

  /** Two entries of one term that differ in their command. */
  predicate Clashes(x: Entry, y: Entry) { x.term == y.term && x.command != y.command }

  /** The log after the first `i` turns of the merge. */
  ghost function MergedTo(logs: seq<Entry>, at: nat, entries: seq<Entry>, i: nat): (r: seq<Entry>)
    requires at <= |logs| && i <= |entries|
    ensures |r| == Max(|logs|, at + i) && forall k | at + i <= k < |logs| :: r[k] == logs[k]
  {
    if i == 0 then logs else Put(MergedTo(logs, at, entries, i - 1), at + i - 1, entries[i - 1])
  }

  lemma {:induction false} MergedIsOverwrite(logs: seq<Entry>, at: nat, entries: seq<Entry>, i: nat)
    requires at <= |logs| && i <= |entries|
    ensures MergedTo(logs, at, entries, i) == H.Overwrite(logs, at, entries[..i])
  {
    if i > 0 {
      MergedIsOverwrite(logs, at, entries, i - 1);
      assert entries[..i] == entries[..i - 1] + [entries[i - 1]];
    }
  }

  /** No stored entry clashes with one of the first `i` sent ones. */
  ghost predicate NoClashTo(logs: seq<Entry>, at: nat, entries: seq<Entry>, i: nat)
    requires i <= |entries|
  {
    forall k | 0 <= k < i && at + k < |logs| :: !Clashes(logs[at + k], entries[k])
  }

  lemma NoClashIs(logs: seq<Entry>, at: nat, entries: seq<Entry>)
    ensures NoClashTo(logs, at, entries, |entries|) <==> !H.Clash(logs, at, entries)
  {
  }

  /** The counter that the RPC threads of one election or heartbeat share. */
  class Tally {
    var n: int

    constructor ()
      ensures n == 1
    {
      n := 1;
    }
  }

  class Raft {
    const me: nat
    const peers: nat
    var term: nat
    var votedFor: int
    var status: Status
    var logs: seq<Entry>
    var commit: nat
    var applied: nat
    var snapIndex: nat
    var snapTerm: nat
    var nextIndex: seq<int>
    var matchIndex: seq<int>

    function State(): Node
      reads this
    {
      Node(me, peers, term, votedFor, status, logs, commit, applied, snapIndex, snapTerm, nextIndex, matchIndex)
    }

    ghost predicate Valid()
      reads this
    {
      State().Valid()
    }

    /** init */
    constructor (id: nat, n: nat)
      requires id < n
      ensures Valid() && State() == InitNode(id, n)
    {
      me, peers := id, n;
      term, status, commit, applied, logs := 0, Follower, 0, 0, [];
      votedFor, snapIndex, snapTerm := -1, 0, 0;
      new;
      matchIndex, nextIndex := [], [];
      for i := 0 to peers
        invariant |matchIndex| == |nextIndex| == i
        invariant forall k | 0 <= k < i :: matchIndex[k] == 0 && nextIndex[k] == 0
        invariant (term, status, commit, applied, logs, votedFor, snapIndex, snapTerm) == (0, Follower, 0, 0, [], -1, 0, 0)
      {
        matchIndex := matchIndex + [0];
        nextIndex := nextIndex + [0];
      }
      assert matchIndex == seq(peers, _ => 0);
      assert nextIndex == seq(peers, _ => 0);
    }

    // ------------------------------------------------------------ index helpers

    /** getLastLogIndexAndTerm */
    method GetLastLogIndexAndTerm() returns (index: nat, lastTerm: nat)
      requires Valid()
      ensures index == State().LastIndex() == snapIndex + |logs| && lastTerm == State().LastTerm()
    {
      if logs == [] {
        index, lastTerm := snapIndex, snapTerm;
      } else {
        index, lastTerm := logs[|logs| - 1].index, logs[|logs| - 1].term;
      }
    }

    /** getSlicesIndexFromLogIndex */
    method GetSlicesIndex(index: nat) returns (k: nat)
      requires Valid() && snapIndex < index <= State().LastIndex()
      ensures k < |logs| && logs[k].index == index && k == index - snapIndex - 1
    {
      var last, _ := GetLastLogIndexAndTerm();
      assert index <= last;
      k := index - snapIndex - 1;
    }

    /** getLogTermFromLogIndex */
    method GetLogTerm(index: nat) returns (t: nat)
      requires Valid() && snapIndex <= index <= State().LastIndex()
      ensures t == State().TermOf(index)
    {
      if index == snapIndex {
        t := snapTerm;
      } else {
        var k := GetSlicesIndex(index);
        t := logs[k].term;
      }
    }

    // ----------------------------------------------------------------- election

    method RequestVote(a: VoteArgs) returns (reply: VoteReply)
      requires Valid()
      modifies this
      ensures Valid() && Done(State(), reply) == H.RequestVote(old(State()), a)
      ensures Advances(old(State()), State())
    {
      RequestVoteAdvances(State(), a);
      if a.term < term { return VoteReply(term, false); }
      if a.term > term { status, term, votedFor := Follower, a.term, -1; }
      assert a.term == term;
      var lastIndex, lastTerm := GetLastLogIndexAndTerm();
      if !(a.lastTerm > lastTerm || (a.lastTerm == lastTerm && a.lastIndex >= lastIndex)) { return VoteReply(term, false); }
      if votedFor != -1 && votedFor != a.candidate { return VoteReply(term, false); }
      votedFor := a.candidate;
      return VoteReply(term, true);
    }

    /** doElection: one request per peer, sharing a tally that starts at the own vote. */
    method DoElection() returns (requests: map<nat, VoteArgs>, votedNum: Tally)
      requires Valid()
      modifies this
      ensures Valid() && Advances(old(State()), State())
      ensures fresh(votedNum) && votedNum.n == 1
      ensures old(status) == Leader ==> State() == old(State()) && requests == map[]
      ensures old(status) != Leader ==> State() == H.StartElection(old(State())).0
      ensures old(status) != Leader ==> forall p: nat :: p in requests <==> p < peers && p != me
      ensures old(status) != Leader ==> forall p | p in requests :: requests[p] == H.StartElection(old(State())).1
    {
      ElectionAdvances(State(), VoteReply(0, false), 0);
      requests := map[];
      votedNum := new Tally();
      if status != Leader {
        status := Candidate;
        term := term + 1;
        votedFor := me;
        for i := 0 to peers
          invariant State() == H.StartElection(old(State())).0 && Valid() && votedNum.n == 1
          invariant forall p: nat :: p in requests <==> p < i && p != me
          invariant forall p | p in requests :: requests[p] == H.StartElection(old(State())).1
        {
          if i != me {
            var lastIndex, lastTerm := GetLastLogIndexAndTerm();
            requests := requests[i := VoteArgs(term, me, lastIndex, lastTerm)];
          }
        }
      }
    }

    /** The reply half of sendRequestVote. */
    method VoteReplied(r: VoteReply, votedNum: Tally) returns (halted: bool)
      requires Valid()
      modifies this, votedNum
      ensures halted <==> H.HandleVoteReply(old(State()), r, old(votedNum.n)).Halted?
      ensures !halted ==> Done(State(), votedNum.n) == H.HandleVoteReply(old(State()), r, old(votedNum.n))
      ensures !halted ==> Valid() && Advances(old(State()), State())
    {
      ElectionAdvances(State(), r, votedNum.n);
      halted := false;
      if r.term > term {
        status, term, votedFor := Follower, r.term, -1;
        return;
      } else if r.term < term {
        return;
      }
      if !r.granted { return; }
      votedNum.n := votedNum.n + 1;
      if votedNum.n >= peers / 2 + 1 {
        votedNum.n := 0;
        if status == Leader { return true; }
        status := Leader;
        var last, _ := GetLastLogIndexAndTerm();
        ResetIndices(last);
      }
    }

    /** The loop that a new leader runs over nextIndex and matchIndex. */
    method ResetIndices(last: nat)
      requires |nextIndex| == |matchIndex| == peers
      modifies this`nextIndex, this`matchIndex
      ensures nextIndex == seq(peers, _ => last + 1) && matchIndex == seq(peers, _ => 0)
    {
      for i := 0 to |nextIndex|
        invariant |nextIndex| == |matchIndex| == peers
        invariant forall k | 0 <= k < i :: nextIndex[k] == last + 1 && matchIndex[k] == 0
      {
        nextIndex := nextIndex[i := last + 1];
        matchIndex := matchIndex[i := 0];
      }
    }

    // -------------------------------------------------------------- replication

    /** The entry-by-entry merge of AppendEntries1: `ok` unless a stored entry
        clashes with a sent one of the same index and term. */
    method Merge(a: AppendArgs) returns (ok: bool)
      requires Valid() && a.Numbered() && snapIndex <= a.prevIndex <= State().LastIndex()
      modifies this`logs
      ensures ok <==> !H.Clash(old(logs), a.prevIndex - snapIndex, a.entries)
      ensures ok ==> logs == H.Overwrite(old(logs), a.prevIndex - snapIndex, a.entries)
    {
      ghost var before, at := logs, a.prevIndex - snapIndex;
      NoClashIs(before, at, a.entries);
      for i := 0 to |a.entries|
        invariant logs == MergedTo(before, at, a.entries, i) && NoClashTo(before, at, a.entries, i)
        invariant Numbered(logs, snapIndex)
      {
        ok := MergeOne(a.entries[i]);
        if !ok { return; }
      }
      MergedIsOverwrite(before, at, a.entries, |a.entries|);
      assert a.entries[..|a.entries|] == a.entries;
      return true;
    }

    /** One turn of the merge: an entry past the end is appended, a stored one of
        another term replaced. */
    method MergeOne(e: Entry) returns (ok: bool)
      requires Numbered(logs, snapIndex) && snapIndex < e.index <= snapIndex + |logs| + 1
      modifies this`logs
      ensures var k := e.index - snapIndex - 1;
        && (ok <==> !(k < |old(logs)| && Clashes(old(logs)[k], e)))
        && (ok ==> logs == Put(old(logs), k, e) && Numbered(logs, snapIndex))
    {
      var last := if logs == [] then snapIndex else logs[|logs| - 1].index;
      if e.index > last {
        logs := logs + [e];
      } else {
        var k := e.index - snapIndex - 1;
        if logs[k].term == e.term && logs[k].command != e.command { return false; }
        if logs[k].term != e.term { logs := logs[k := e]; }
      }
      return true;
    }

    /** The fast back-up loop. */
    method FastBackUp(prev: nat) returns (next: int)
      requires Valid() && snapIndex <= prev <= State().LastIndex()
      ensures next == H.BackUp(State(), prev, prev)
    {
      next := prev;
      var prevTerm := GetLogTerm(prev);
      var index: int := prev;
      while index >= snapIndex
        invariant snapIndex - 1 <= index <= prev && next == prev
        invariant H.BackUp(State(), prev, prev) == H.BackUp(State(), prev, index)
      {
        var t := GetLogTerm(index);
        if t != prevTerm { return index + 1; }
        index := index - 1;
      }
    }

    /** AppendEntries1 */
    method AppendEntries(a: AppendArgs) returns (halted: bool, reply: AppendReply)
      requires Valid() && a.Numbered()
      modifies this
      ensures halted <==> H.AppendEntries(old(State()), a).Halted?
      ensures !halted ==> Done(State(), reply) == H.AppendEntries(old(State()), a)
      ensures !halted ==> Valid() && Advances(old(State()), State())
    {
      AppendEntriesAdvances(State(), a);
      halted := false;
      if a.term < term {
        reply := AppendReply(term, false, -100);
        return;
      }
      if a.term > term { status, term, votedFor := Follower, a.term, -1; }
      assert a.term == term;
      status := Follower;
      assert State() == H.AtTerm(old(State()), a.term);
      halted, reply := AppendMatching(a);
    }

    /** What AppendEntries1 does once the terms agree. */
    method AppendMatching(a: AppendArgs) returns (halted: bool, reply: AppendReply)
      requires Valid() && a.Numbered()
      modifies this`logs, this`commit
      ensures halted <==> H.AppendAtTerm(old(State()), a).Halted?
      ensures !halted ==> Done(State(), reply) == H.AppendAtTerm(old(State()), a)
    {
      halted := false;
      reply := AppendReply(term, false, 0);
      var last, _ := GetLastLogIndexAndTerm();
      if a.prevIndex > last {
        reply := AppendReply(term, false, last + 1);
        return;
      }
      if a.prevIndex < snapIndex { return true, reply; }
      var t := GetLogTerm(a.prevIndex);
      if a.prevTerm != t {
        var next := FastBackUp(a.prevIndex);
        reply := AppendReply(term, false, next);
        return;
      }
      var ok := Merge(a);
      if !ok { return true, reply; }
      Advance(a);
      reply := AppendReply(term, true, 0);
    }

    /** The end of AppendEntries1: the commit index follows the leader's, within the log. */
    method Advance(a: AppendArgs)
      modifies this`commit
      ensures State() == if a.leaderCommit > old(commit)
        then old(State()).(commit := Min(a.leaderCommit, old(State()).LastIndex())) else old(State())
    {
      if a.leaderCommit > commit {
        var last := if logs == [] then snapIndex else logs[|logs| - 1].index;
        commit := Min(a.leaderCommit, last);
      }
    }

    /** The two loops of doHeartBeat that copy the entries behind `prev`. */
    method EntriesAfter(prev: nat) returns (entries: seq<Entry>)
      requires Valid() && snapIndex <= prev <= State().LastIndex()
      ensures entries == logs[prev - snapIndex..] && prev + |entries| == State().LastIndex()
    {
      entries := [];
      if prev != snapIndex {
        var k := GetSlicesIndex(prev);
        for j := k + 1 to |logs|
          invariant entries == logs[prev - snapIndex..j]
        {
          entries := entries + [logs[j]];
        }
      } else {
        for j := 0 to |logs|
          invariant entries == logs[..j]
        {
          entries := entries + [logs[j]];
        }
      }
    }

    /** doHeartBeat: what goes to each peer, unless nextIndex is out of range for one of them. */
    method DoHeartBeat() returns (halted: bool, beats: map<nat, H.Beat>, appendNums: Tally)
      requires Valid()
      ensures fresh(appendNums) && appendNums.n == 1
      ensures status != Leader ==> !halted && beats == map[]
      ensures status == Leader ==> (halted <==> exists p: nat | p < peers :: H.BeatFor(State(), p).BeatHalts?)
      ensures status == Leader && !halted ==> forall p: nat :: p in beats <==> p < peers && p != me
      ensures status == Leader && !halted ==> forall p | p in beats :: p < peers && beats[p] == H.BeatFor(State(), p)
    {
      halted, beats := false, map[];
      appendNums := new Tally();
      if status == Leader {
        for i := 0 to peers
          invariant appendNums.n == 1 && forall p: nat | p < i :: !H.BeatFor(State(), p).BeatHalts?
          invariant forall p: nat :: p in beats <==> p < i && p != me
          invariant forall p | p in beats :: p < peers && beats[p] == H.BeatFor(State(), p)
        {
          if i != me {
            var beat := BeatPeer(i);
            if beat.BeatHalts? { return true, beats, appendNums; }
            beats := beats[i := beat];
          }
        }
      }
    }

    /** One turn of the heartbeat loop. */
    method BeatPeer(i: nat) returns (beat: H.Beat)
      requires Valid() && i < peers && i != me
      ensures beat == H.BeatFor(State(), i)
    {
      var last, _ := GetLastLogIndexAndTerm();
      if nextIndex[i] < 1 { return H.BeatHalts; }
      if nextIndex[i] <= snapIndex { return H.SendSnapshot; }
      var prev := nextIndex[i] - 1;
      if prev > last { return H.BeatHalts; }
      var prevTerm := GetLogTerm(prev);
      var entries := EntriesAfter(prev);
      assert prev + |entries| == last;
      return H.SendAppend(AppendArgs(term, me, prev, prevTerm, entries, commit));
    }

    /** The reply half of sendAppendEntries. */
    method AppendReplied(p: nat, a: AppendArgs, r: AppendReply, appendNums: Tally) returns (halted: bool)
      requires Valid() && p < peers
      modifies this, appendNums
      ensures halted <==> H.HandleAppendReply(old(State()), p, a, r, old(appendNums.n)).Halted?
      ensures !halted ==> Done(State(), appendNums.n) == H.HandleAppendReply(old(State()), p, a, r, old(appendNums.n))
      ensures !halted ==> Valid() && Advances(old(State()), State())
    {
      AppendReplyAdvances(State(), p, a, r, appendNums.n);
      halted := false;
      if r.term > term {
        status, term, votedFor := Follower, r.term, -1;
        return;
      } else if r.term < term {
        return;
      }
      if status != Leader { return; }
      if !r.success {
        if r.next != -100 { nextIndex := nextIndex[p := r.next]; }
      } else {
        halted := Acknowledged(p, a, r, appendNums);
      }
    }

    /** A success of the current term: the round's counter decides whether to commit. */
    method Acknowledged(p: nat, a: AppendArgs, r: AppendReply, appendNums: Tally) returns (halted: bool)
      requires Valid() && p < peers && r.term == term && status == Leader && r.success
      modifies this`matchIndex, this`nextIndex, this`commit, appendNums
      ensures halted <==> H.HandleAppendReply(old(State()), p, a, r, old(appendNums.n)).Halted?
      ensures !halted ==> Done(State(), appendNums.n) == H.HandleAppendReply(old(State()), p, a, r, old(appendNums.n))
    {
      appendNums.n := appendNums.n + 1;
      matchIndex := matchIndex[p := Max(matchIndex[p], a.prevIndex + |a.entries|)];
      nextIndex := nextIndex[p := matchIndex[p] + 1];
      var last := if logs == [] then snapIndex else logs[|logs| - 1].index;
      if nextIndex[p] > last + 1 { return true; }
      if appendNums.n >= 1 + peers / 2 {
        appendNums.n := 0;
        if |a.entries| > 0 && a.entries[|a.entries| - 1].term == term {
          commit := Max(commit, a.prevIndex + |a.entries|);
        }
        assert commit <= last;
      }
      return false;
    }

    method Start(command: Op) returns (index: int, newTerm: int, isLeader: bool)
      requires Valid()
      modifies this`logs
      ensures Valid() && Advances(old(State()), State())
      ensures isLeader == (status == Leader)
      ensures !isLeader ==> logs == old(logs) && index == -1 && newTerm == -1
      ensures isLeader ==> State() == H.Start(old(State()), command)
      ensures isLeader ==> index == State().LastIndex() && newTerm == State().LastTerm() == term
    {
      LocalAdvances(State(), command, 0);
      if status != Leader { return -1, -1, false; }
      var last, _ := GetLastLogIndexAndTerm();
      logs := logs + [Entry(last + 1, term, command)];
      return last + 1, term, true;
    }

    // --------------------------------------------------- apply stream, snapshots

    /** getApplyLogs */
    method GetApplyLogs() returns (msgs: seq<ApplyMsg>)
      requires Valid()
      modifies this`applied
      ensures Valid() && State() == H.AfterApply(old(State())) && msgs == H.ApplyMsgs(old(State()))
      ensures Advances(old(State()), State())
    {
      LocalAdvances(State(), Op("", "", "", "", 0), 0);
      msgs := [];
      ghost var first, all := applied, H.ApplyMsgs(State());
      while applied < commit
        invariant first <= applied <= commit && msgs == all[..applied - first]
        invariant Valid()
      {
        applied := applied + 1;
        var k := applied - snapIndex - 1;
        assert logs[k].index == applied;
        msgs := msgs + [ApplyMsg(applied, logs[k].command)];
      }
    }

    /** The copying loop of Snapshot. */
    method EntriesFrom(from: nat) returns (entries: seq<Entry>)
      requires Valid() && snapIndex < from <= State().LastIndex() + 1
      ensures entries == logs[from - snapIndex - 1..]
    {
      entries := [];
      var last, _ := GetLastLogIndexAndTerm();
      for i := from to last + 1
        invariant entries == logs[from - snapIndex - 1..i - 1 - snapIndex]
      {
        var k := GetSlicesIndex(i);
        entries := entries + [logs[k]];
      }
    }

    method Snapshot(index: nat)
      requires Valid()
      modifies this
      ensures Valid() && State() == H.Snapshot(old(State()), index)
      ensures Advances(old(State()), State()) && Compacts(old(State()), State())
    {
      LocalAdvances(State(), Op("", "", "", "", 0), index);
      SnapshotCompacts(State(), index);
      if snapIndex >= index || index > commit { return; }
      var last, _ := GetLastLogIndexAndTerm();
      var t := GetLogTerm(index);
      var truncated := EntriesFrom(index + 1);
      snapIndex, snapTerm, logs := index, t, truncated;
      commit := Max(commit, index);
      applied := Max(applied, index);
      assert |logs| + snapIndex == last;
    }

    method InstallSnapshot(a: SnapArgs) returns (reply: SnapReply)
      requires Valid()
      modifies this
      ensures Valid() && Done(State(), reply) == H.InstallSnapshot(old(State()), a)
      ensures Advances(old(State()), State())
    {
      SnapshotAdvances(State(), me, a, SnapReply(0));
      if a.term < term { return SnapReply(term); }
      if a.term > term { term, votedFor, status := a.term, -1, Follower; }
      status := Follower;
      if a.snapIndex <= snapIndex { return SnapReply(0); }
      Install(a);
      return SnapReply(term);
    }

    method Install(a: SnapArgs)
      requires Valid() && a.snapIndex > snapIndex
      modifies this`logs, this`commit, this`applied, this`snapIndex, this`snapTerm
      ensures State() == H.Installed(old(State()), a)
    {
      var last, _ := GetLastLogIndexAndTerm();
      if last > a.snapIndex {
        var k := GetSlicesIndex(a.snapIndex);
        logs := logs[k + 1..];
      } else {
        logs := [];
      }
      commit := Max(commit, a.snapIndex);
      applied := Max(applied, a.snapIndex);
      snapIndex, snapTerm := a.snapIndex, a.snapTerm;
    }

    /** The reply half of leaderSendSnapShot. */
    method SnapshotReplied(p: nat, a: SnapArgs, r: SnapReply)
      requires Valid() && p < peers
      modifies this
      ensures Valid() && State() == H.HandleSnapshotReply(old(State()), p, a, r)
      ensures Advances(old(State()), State())
    {
      SnapshotAdvances(State(), p, a, r);
      if status != Leader || term != a.term { return; }
      if r.term > term {
        term, votedFor, status := r.term, -1, Follower;
        return;
      }
      matchIndex := matchIndex[p := a.snapIndex];
      nextIndex := nextIndex[p := matchIndex[p] + 1];
    }
  }
}
