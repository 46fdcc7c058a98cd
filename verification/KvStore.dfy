/**
  The apply path of the key-value server: commands handed out by Raft change the
  map, and repeated requests of a client are filtered out
  (raft_KV/src/raftCore/kvServer.cpp).
 */
module KvStore {
  import opened RaftTypes
  import SL = SkipListModel

  /** The map and the last request id of every client. */
  datatype Kv = Kv(data: map<string, string>, last: map<string, int>)

  const Empty := Kv(map[], map[])

  /** ifRequestDuplicate */
  predicate Duplicate(kv: Kv, clientId: string, requestId: int) {
    clientId in kv.last && requestId <= kv.last[clientId]
  }

  /** "Append" overwrites exactly as "Put" does. */
  predicate IsWrite(op: Op) { op.operation == "Put" || op.operation == "Append" }

  /** GetCommandFromRaft without its snapshot test. */
  function Step(kv: Kv, op: Op): Kv {
    if IsWrite(op) && !Duplicate(kv, op.clientId, op.requestId)
    then Kv(kv.data[op.key := op.value], kv.last[op.clientId := op.requestId])
    else kv
  }

  /** A "Put" or an "Append" whose id exceeds the one recorded for its client, if any, sets its key and
      records its id; every other command changes nothing. */
  lemma StepExactly(kv: Kv, op: Op)
    ensures (op.operation == "Put" || op.operation == "Append") && (op.clientId !in kv.last || op.requestId > kv.last[op.clientId]) ==>
      Step(kv, op) == Kv(kv.data[op.key := op.value], kv.last[op.clientId := op.requestId])
    ensures !((op.operation == "Put" || op.operation == "Append") && (op.clientId !in kv.last || op.requestId > kv.last[op.clientId])) ==>
      Step(kv, op) == kv
  {
  }

  function Fold(ops: seq<Op>): Kv {
    if ops == [] then Empty else Step(Fold(ops[..|ops| - 1]), ops[|ops| - 1])
  }

  /** The command at position `k` is executed when `ops` are applied in order. */
  predicate Executed(ops: seq<Op>, k: nat)
    requires k < |ops|
  {
    IsWrite(ops[k]) && !Duplicate(Fold(ops[..k]), ops[k].clientId, ops[k].requestId)
  }

  // -------------------------------------------------------------- at most once

  /** The writes of `client` among the first `n` commands all have smaller ids than `id`. */
  predicate AllBelow(ops: seq<Op>, n: nat, client: string, id: int)
    requires n <= |ops|
  {
    forall j | 0 <= j < n && IsWrite(ops[j]) && ops[j].clientId == client :: ops[j].requestId < id
  }

  /** The filter compares with the largest id a write of the client has carried so far. */
  lemma {:induction false} LastIsLargest(ops: seq<Op>, client: string, id: int)
    ensures Duplicate(Fold(ops), client, id) <==> !AllBelow(ops, |ops|, client, id)
  {
    if ops != [] {
      var n, op := |ops| - 1, ops[|ops| - 1];
      var before := ops[..n];
      LastIsLargest(before, client, id);
      LastIsLargest(before, client, op.requestId);
      forall j | 0 <= j < n ensures before[j] == ops[j] { }
      assert AllBelow(ops, n, client, id) <==> AllBelow(before, n, client, id);
      assert AllBelow(ops, n, client, op.requestId) <==> AllBelow(before, n, client, op.requestId);
      assert AllBelow(ops, |ops|, client, id) <==>
        AllBelow(ops, n, client, id) && (IsWrite(op) && op.clientId == client ==> op.requestId < id);
    }
  }

  /** A "Put" or "Append" with an id above those of all earlier ones of its client. */
  predicate Effective(ops: seq<Op>, k: nat)
    requires k < |ops|
  {
    && (ops[k].operation == "Put" || ops[k].operation == "Append")
    && forall j | 0 <= j < k && (ops[j].operation == "Put" || ops[j].operation == "Append") && ops[j].clientId == ops[k].clientId ::
         ops[j].requestId < ops[k].requestId
  }

  /** A command is executed if and only if it is effective. */
  lemma ExecutedExactly(ops: seq<Op>, k: nat)
    requires k < |ops|
    ensures Executed(ops, k) <==> Effective(ops, k)
  {
    LastIsLargest(ops[..k], ops[k].clientId, ops[k].requestId);
    forall j | 0 <= j < k ensures ops[..k][j] == ops[j] { }
    assert AllBelow(ops[..k], k, ops[k].clientId, ops[k].requestId) <==> AllBelow(ops, k, ops[k].clientId, ops[k].requestId);
  }

  /** Applying one more command changes the store exactly when the command is effective. */
  lemma FoldExactly(ops: seq<Op>, k: nat)
    requires k < |ops|
    ensures var kv := Fold(ops[..k]);
      Fold(ops[..k + 1]) ==
        if Effective(ops, k) then Kv(kv.data[ops[k].key := ops[k].value], kv.last[ops[k].clientId := ops[k].requestId]) else kv
  {
    FoldGrows(ops, k);
    ExecutedExactly(ops, k);
  }

  /** Ids of a client's executed writes strictly rise, so no request is executed twice. */
  lemma AtMostOnce(ops: seq<Op>, j: nat, k: nat)
    requires j < k < |ops| && Executed(ops, j) && Executed(ops, k) && ops[j].clientId == ops[k].clientId
    ensures ops[j].requestId < ops[k].requestId
  {
    ExecutedExactly(ops, k);
  }

  // ------------------------------------------------------------- what is stored

  /** Position `k` holds the last executed write of `key` among the first `n` commands. */
  predicate LastWrite(ops: seq<Op>, n: nat, key: string, k: nat)
    requires n <= |ops|
  {
    && k < n && Executed(ops, k) && ops[k].key == key
    && forall j | k < j < n && ops[j].key == key :: !Executed(ops, j)
  }

  /** What the map says of `key` after `n` commands. */
  ghost predicate StoresLast(ops: seq<Op>, n: nat, key: string)
    requires n <= |ops|
  {
    var data := Fold(ops[..n]).data;
    && (key in data ==> exists k: nat :: LastWrite(ops, n, key, k))
    && (forall k: nat | LastWrite(ops, n, key, k) :: key in data && data[key] == ops[k].value)
  }

  lemma StoresNext(ops: seq<Op>, m: nat, key: string)
    requires m < |ops| && StoresLast(ops, m, key)
    ensures StoresLast(ops, m + 1, key)
  {
    FoldGrows(ops, m);
    if Executed(ops, m) && ops[m].key == key {
      assert LastWrite(ops, m + 1, key, m);
    } else {
      if key in Fold(ops[..m]).data {
        var k: nat :| LastWrite(ops, m, key, k);
        SameLastWrite(ops, m + 1, key, k);
      }
      forall k: nat | LastWrite(ops, m + 1, key, k) ensures LastWrite(ops, m, key, k) { SameLastWrite(ops, m + 1, key, k); }
    }
  }

  /** The map holds for each key the value of its last executed write, and no other keys. */
  lemma {:induction false} StoredIsLast(ops: seq<Op>, n: nat, key: string)
    requires n <= |ops|
    ensures StoresLast(ops, n, key)
  {
    if n > 0 {
      StoredIsLast(ops, n - 1, key);
      StoresNext(ops, n - 1, key);
    }
  }

  lemma FoldGrows(ops: seq<Op>, k: nat)
    requires k < |ops|
    ensures Fold(ops[..k + 1]) == Step(Fold(ops[..k]), ops[k])
  {
    assert ops[..k + 1][..k] == ops[..k];
  }

  lemma SameLastWrite(ops: seq<Op>, n: nat, key: string, k: nat)
    requires 0 < n <= |ops| && !(Executed(ops, n - 1) && ops[n - 1].key == key)
    ensures LastWrite(ops, n, key, k) <==> LastWrite(ops, n - 1, key, k)
  {
  }

  // ------------------------------------------------------------------ the object

  class KvServer {
    const skipList: SL.SkipList
    var lastRequestId: map<string, int>
    var lastSnapShotRaftLogIndex: int

    ghost predicate Valid()
      reads this, skipList, skipList.repr
    {
      skipList.Valid()
    }

    ghost function State(): Kv
      reads this, skipList
    {
      Kv(skipList.model, lastRequestId)
    }

    constructor (maxLevel: nat)
      ensures Valid() && State() == Empty && lastSnapShotRaftLogIndex == 0
      ensures fresh(skipList) && fresh(skipList.repr)
    {
      skipList := new SL.SkipList(maxLevel);
      lastRequestId := map[];
      lastSnapShotRaftLogIndex := 0;
    }

    method IfRequestDuplicate(clientId: string, requestId: int) returns (dup: bool)
      ensures dup == Duplicate(State(), clientId, requestId)
    {
      if clientId !in lastRequestId { return false; }
      return requestId <= lastRequestId[clientId];
    }

    /** ExecutePutOpOnKVDB and, with the same effect, ExecuteAppendOpOnKVDB. */
    method ExecuteWrite(op: Op, heads: nat)
      requires Valid()
      modifies this`lastRequestId, skipList, skipList.repr
      ensures Valid() && fresh(skipList.repr - old(skipList.repr))
      ensures State() == Kv(old(State()).data[op.key := op.value], old(State()).last[op.clientId := op.requestId])
    {
      skipList.InsertSetElement(op.key, op.value, heads);
      lastRequestId := lastRequestId[op.clientId := op.requestId];
    }

    /** GetCommandFromRaft up to the snapshot and wait-channel calls. */
    method GetCommandFromRaft(message: ApplyMsg, heads: nat)
      requires Valid()
      modifies this`lastRequestId, skipList, skipList.repr
      ensures Valid() && fresh(skipList.repr - old(skipList.repr))
      ensures State() == if message.index <= lastSnapShotRaftLogIndex then old(State()) else Step(old(State()), message.command)
    {
      var op := message.command;
      if message.index <= lastSnapShotRaftLogIndex { return; }
      var dup := IfRequestDuplicate(op.clientId, op.requestId);
      if !dup {
        if op.operation == "Put" { ExecuteWrite(op, heads); }
        if op.operation == "Append" { ExecuteWrite(op, heads); }
      }
    }

    /** ExecuteGetOpOnKVDB: looks the value up, then records the request id as the last one. */
    method ExecuteGet(op: Op) returns (value: string, exist: bool)
      requires Valid()
      modifies this`lastRequestId
      ensures Valid() && State() == old(State()).(last := old(State()).last[op.clientId := op.requestId])
      ensures exist <==> op.key in State().data
      ensures value == if exist then State().data[op.key] else ""
    {
      value, exist := "", false;
      var found, v := skipList.SearchElement(op.key);
      if found { value, exist := v, true; }
      lastRequestId := lastRequestId[op.clientId := op.requestId];
    }

    /** The loop of ReadRaftApplyCommandLoop over a server's messages, with any random levels. */
    method ApplyAll(messages: seq<ApplyMsg>, levels: seq<nat>)
      requires Valid() && State() == Empty && lastSnapShotRaftLogIndex == 0 && |levels| == |messages|
      requires forall k | 0 <= k < |messages| :: messages[k].index >= 1
      modifies this`lastRequestId, skipList, skipList.repr
      ensures Valid() && State() == Fold(Commands(messages))
    {
      for k := 0 to |messages|
        invariant Valid() && fresh(skipList.repr - old(skipList.repr))
        invariant State() == Fold(Commands(messages[..k]))
      {
        GetCommandFromRaft(messages[k], levels[k]);
        CommandsGrow(messages, k);
      }
      assert messages[..|messages|] == messages;
    }
  }

  function Commands(messages: seq<ApplyMsg>): (ops: seq<Op>)
    ensures |ops| == |messages| && forall k | 0 <= k < |ops| :: ops[k] == messages[k].command
  {
    seq(|messages|, k requires 0 <= k < |messages| => messages[k].command)
  }

  lemma CommandsGrow(messages: seq<ApplyMsg>, k: nat)
    requires k < |messages|
    ensures Fold(Commands(messages[..k + 1])) == Step(Fold(Commands(messages[..k])), messages[k].command)
  {
    var ops := Commands(messages[..k + 1]);
    assert ops[..|ops| - 1] == Commands(messages[..k]);
  }
}
