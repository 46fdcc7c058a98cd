/**
  The skip list of the key-value server, proved to act as a map for every choice
  of random levels (raft_KV/src/skipList/include/skipList.h).
 */
module SkipListModel {
  import opened SkipOrder

  ghost predicate Shaped(order: seq<Node>) {
    && (forall p | 0 <= p < |order| :: order[p].forward.Length == order[p].level + 1)
    && (forall p, q | 0 <= p < q < |order| :: order[p].forward != order[q].forward && order[p] != order[q])
  }

  ghost predicate Sorted(order: seq<Node>) {
    forall p, q | 1 <= p < q < |order| :: Less(order[p].key, order[q].key)
  }

  /** Level `i` chains exactly the nodes that reach it, in order. */
  ghost predicate Chained(order: seq<Node>, i: nat)
    requires Shaped(order)
    reads set n | n in order :: n.forward
  {
    forall p | 0 <= p < |order| && i <= order[p].level :: order[p].forward[i] == Link(order, p, i)
  }

  ghost predicate HasKey(order: seq<Node>, k: string) {
    exists p :: 1 <= p < |order| && order[p].key == k
  }

  /** The nodes behind the header hold exactly the pairs of `m`. */
  ghost predicate Holds(order: seq<Node>, m: map<string, string>) {
    && |order| == |m| + 1
    && (forall p | 1 <= p < |order| :: order[p].key in m && m[order[p].key] == order[p].value)
    && (forall k | k in m :: HasKey(order, k))
  }

  /** Position `t` is the last whose key is below `key`; the header counts as below all. */
  ghost predicate SplitAt(order: seq<Node>, key: string, t: nat) {
    && t < |order|
    && (forall p | 1 <= p <= t :: Less(order[p].key, key))
    && (forall p | t < p < |order| :: !Less(order[p].key, key))
  }

  lemma Split(order: seq<Node>, key: string, n: nat) returns (t: nat)
    requires Sorted(order) && 1 <= n <= |order| && forall p | n <= p < |order| :: !Less(order[p].key, key)
    ensures SplitAt(order, key, t)
    decreases n
  {
    if n == 1 {
      t := 0;
    } else if Less(order[n - 1].key, key) {
      t := n - 1;
      forall p | 1 <= p < t ensures Less(order[p].key, key) { LessTransitive(order[p].key, order[t].key, key); }
    } else {
      t := Split(order, key, n - 1);
    }
  }

  /** The node behind the split has the key, or no node has. */
  lemma Found(order: seq<Node>, m: map<string, string>, key: string, t: nat)
    requires Sorted(order) && Holds(order, m) && SplitAt(order, key, t)
    ensures key in m <==> t + 1 < |order| && order[t + 1].key == key
    ensures key in m ==> m[key] == order[t + 1].value
  {
    if key in m {
      var p :| 1 <= p < |order| && order[p].key == key;
      if p <= t { LessStrict(order[p].key, key); }
    }
  }

  lemma InsertedSorted(order: seq<Node>, key: string, t: nat, n: Node)
    requires Sorted(order) && SplitAt(order, key, t) && n.key == key
    requires t + 1 < |order| ==> order[t + 1].key != key
    ensures Sorted(Inserted(order, t, n))
  {
    forall p | t < p < |order| ensures Less(key, order[p].key) {
      LessTotal(order[t + 1].key, key);
      if p > t + 1 { LessTransitive(key, order[t + 1].key, order[p].key); }
    }
  }

  lemma InsertedHas(order: seq<Node>, t: nat, n: Node, k: string)
    requires t < |order|
    ensures HasKey(Inserted(order, t, n), k) <==> HasKey(order, k) || k == n.key
  {
    var order' := Inserted(order, t, n);
    assert order'[t + 1] == n;
    if HasKey(order, k) {
      var p :| 1 <= p < |order| && order[p].key == k;
      if p <= t { assert order'[p].key == k; } else { assert order'[p + 1].key == k; }
    }
    if HasKey(order', k) && k != n.key {
      var p :| 1 <= p < |order'| && order'[p].key == k;
      if p <= t { assert order[p].key == k; } else { assert order[p - 1].key == k; }
    }
  }

  lemma InsertedHolds(order: seq<Node>, t: nat, n: Node, m: map<string, string>, m': map<string, string>)
    requires t < |order| && Holds(order, m) && n.key !in m && m' == m[n.key := n.value]
    ensures Holds(Inserted(order, t, n), m')
  {
    forall k | k in m' ensures HasKey(Inserted(order, t, n), k) { InsertedHas(order, t, n, k); }
  }

  /** Removing the node at `t + 1`. */
  ghost function Removed(order: seq<Node>, t: nat): seq<Node>
    requires t + 1 < |order|
  {
    order[..t + 1] + order[t + 2..]
  }

  lemma RemovedInserted(order: seq<Node>, t: nat)
    requires t + 1 < |order|
    ensures Inserted(Removed(order, t), t, order[t + 1]) == order
  {
  }

  lemma RemovedSorted(order: seq<Node>, t: nat)
    requires t + 1 < |order| && Sorted(order)
    ensures Sorted(Removed(order, t))
  {
  }

  lemma RemovedHolds(order: seq<Node>, t: nat, m: map<string, string>, m': map<string, string>)
    requires t + 1 < |order| && Sorted(order) && Holds(order, m) && m' == m - {order[t + 1].key}
    ensures Holds(Removed(order, t), m')
  {
    var order', key := Removed(order, t), order[t + 1].key;
    forall p | 1 <= p < |order'| ensures order'[p].key != key && order'[p].key in m && m[order'[p].key] == order'[p].value {
      if p <= t { LessStrict(order[p].key, key); } else { LessStrict(key, order[p + 1].key); }
    }
    assert m.Keys == m'.Keys + {key};
    RemovedInserted(order, t);
    forall k | k in m' ensures HasKey(order', k) { InsertedHas(order', t, order[t + 1], k); }
  }

  // ---------------------------------------------------------------- relinking

  /** `u` is the last position up to `t` that reaches level `i`: its level-i link crosses `t`. */
  ghost predicate Crosses(order: seq<Node>, t: nat, i: nat, u: nat) {
    u <= t < |order| && order[u].level >= i && NextPos(order, u + 1, i) > t
  }

  lemma CrossingLink(order: seq<Node>, t: nat, i: nat, u: nat, p: nat)
    requires Crosses(order, t, i, u) && p <= t && order[p].level >= i
    ensures Link(order, u, i) == Link(order, t, i)
    ensures p < u ==> NextPos(order, p + 1, i) <= t
    ensures p <= u
  {
    LinkIs(order, t, i, NextPos(order, u + 1, i));
  }

  /** What every position of the longer list has to point to, in terms of the shorter one. */
  ghost function Target(order: seq<Node>, t: nat, n: Node, i: nat, u: nat, p: nat): Node? {
    if p == u && i <= n.level then n else if p <= t then Link(order, p, i) else if p == t + 1 then Link(order, u, i) else Link(order, p - 1, i)
  }

  lemma TargetIs(order: seq<Node>, t: nat, n: Node, i: nat, u: nat, p: nat)
    requires Crosses(order, t, i, u) && p <= |order| && (p <= t ==> order[p].level >= i)
    ensures Link(Inserted(order, t, n), p, i) == Target(order, t, n, i, u, p)
  {
    InsertedLink(order, t, n, p, i);
    CrossingLink(order, t, i, u, u);
    if p <= t { CrossingLink(order, t, i, u, p); }
  }

  /** Levels above a node keep their chains when it is put in or taken out. */
  lemma ChainedAbove(order: seq<Node>, t: nat, n: Node, i: nat)
    requires t < |order| && Shaped(order) && Shaped(Inserted(order, t, n)) && i > n.level && Chained(order, i)
    ensures Chained(Inserted(order, t, n), i)
  {
    var order' := Inserted(order, t, n);
    forall p | 0 <= p < |order'| && i <= order'[p].level
      ensures order'[p].forward[i] == Link(order', p, i)
    {
      InsertedLink(order, t, n, p, i);
      if p <= t { assert order'[p] == order[p]; } else { assert order'[p] == order[p - 1]; }
    }
  }

  lemma ChainedWithout(order: seq<Node>, t: nat, n: Node, i: nat)
    requires t < |order| && Shaped(order) && Shaped(Inserted(order, t, n)) && i > n.level && Chained(Inserted(order, t, n), i)
    ensures Chained(order, i)
  {
    var order' := Inserted(order, t, n);
    forall p | 0 <= p < |order| && i <= order[p].level
      ensures order[p].forward[i] == Link(order, p, i)
    {
      InsertedLink(order, t, n, if p <= t then p else p + 1, i);
      if p <= t { assert order'[p] == order[p]; } else { assert order'[p + 1] == order[p]; }
    }
  }

  /** The chains of levels from..to-1 hold. */
  ghost predicate Chains(order: seq<Node>, from: nat, to: nat)
    requires Shaped(order)
    reads set n | n in order :: n.forward
  {
    forall k | from <= k < to :: Chained(order, k)
  }

  /** One turn of the loop in insert_element that links a new node in. */
  method LinkIn(n: Node, u: Node, i: nat, ghost order: seq<Node>, ghost t: nat, ghost up: nat)
    requires t < |order| && Shaped(order) && Shaped(Inserted(order, t, n)) && Chained(order, i)
    requires Crosses(order, t, i, up) && order[up] == u && i <= n.level
    requires forall p | 0 <= p < |order| :: order[p].forward != n.forward
    modifies n.forward, u.forward
    ensures Chained(Inserted(order, t, n), i)
    ensures forall k | 0 <= k < u.forward.Length && k != i :: u.forward[k] == old(u.forward[k])
    ensures forall k | 0 <= k < n.forward.Length && k != i :: n.forward[k] == old(n.forward[k])
  {
    ghost var order' := Inserted(order, t, n);
    assert order'[t + 1] == n;
    n.forward[i] := u.forward[i];
    u.forward[i] := n;
    forall p | 0 <= p < |order'| && i <= order'[p].level
      ensures order'[p].forward[i] == Link(order', p, i)
    {
      TargetIs(order, t, n, i, up, p);
      if p <= t {
        assert order'[p] == order[p];
        assert p != up ==> order[p].forward != u.forward;
      } else if p > t + 1 {
        assert order'[p] == order[p - 1] && order[p - 1].forward != u.forward;
      }
    }
  }

  /** One turn of the loop in delete_element that takes the node behind `t` out. */
  method LinkOut(n: Node, u: Node, i: nat, ghost order: seq<Node>, ghost t: nat, ghost up: nat)
    requires t < |order| && Shaped(order) && Shaped(Inserted(order, t, n)) && Chained(Inserted(order, t, n), i)
    requires Crosses(order, t, i, up) && order[up] == u && i <= n.level
    requires forall p | 0 <= p < |order| :: order[p].forward != n.forward
    modifies u.forward
    ensures Chained(order, i)
    ensures forall k | 0 <= k < u.forward.Length && k != i :: u.forward[k] == old(u.forward[k])
  {
    ghost var order' := Inserted(order, t, n);
    assert order'[t + 1] == n;
    TargetIs(order, t, n, i, up, t + 1);
    u.forward[i] := n.forward[i];
    forall p | 0 <= p < |order| && i <= order[p].level
      ensures order[p].forward[i] == Link(order, p, i)
    {
      TargetIs(order, t, n, i, up, if p <= t then p else p + 1);
      if p <= t {
        assert order'[p] == order[p];
      } else {
        assert order'[p + 1] == order[p];
      }
      assert p != up ==> order[p].forward != u.forward;
    }
  }

  /** The same turn, seen from all levels: those below `i` are done, those above still to do. */
  method LinkLevelIn(n: Node, u: Node, i: nat, ghost order: seq<Node>, ghost t: nat, ghost up: nat, ghost top: nat)
    requires t < |order| && Shaped(order) && Shaped(Inserted(order, t, n)) && i < top
    requires Chains(Inserted(order, t, n), 0, i) && Chains(order, i, top)
    requires Crosses(order, t, i, up) && order[up] == u && i <= n.level
    requires forall p | 0 <= p < |order| :: order[p].forward != n.forward
    modifies n.forward, u.forward
    ensures Chains(Inserted(order, t, n), 0, i + 1) && Chains(order, i + 1, top)
  {
    ghost var order' := Inserted(order, t, n);
    assert Chained(order, i);
    LinkIn(n, u, i, order, t, up);
    forall k | 0 <= k < i ensures Chained(order', k) { assert old(Chained(order', k)); }
    forall k | i < k < top ensures Chained(order, k) { assert old(Chained(order, k)); }
  }

  method LinkLevelOut(n: Node, u: Node, i: nat, ghost order: seq<Node>, ghost t: nat, ghost up: nat, ghost top: nat)
    requires t < |order| && Shaped(order) && Shaped(Inserted(order, t, n)) && i < top
    requires Chains(order, 0, i) && Chains(Inserted(order, t, n), i, top)
    requires Crosses(order, t, i, up) && order[up] == u && i <= n.level
    requires forall p | 0 <= p < |order| :: order[p].forward != n.forward
    modifies u.forward
    ensures Chains(order, 0, i + 1) && Chains(Inserted(order, t, n), i + 1, top)
  {
    ghost var order' := Inserted(order, t, n);
    assert Chained(order', i);
    LinkOut(n, u, i, order, t, up);
    forall k | 0 <= k < i ensures Chained(order, k) { assert old(Chained(order, k)); }
    forall k | i < k < top ensures Chained(order', k) { assert old(Chained(order', k)); }
  }

  lemma CrossesWithout(order: seq<Node>, t: nat, n: Node, i: nat, u: nat)
    requires t < |order| && Crosses(Inserted(order, t, n), t, i, u)
    ensures Crosses(order, t, i, u)
  {
    forall k | u < k <= t ensures order[k].level < i { assert Inserted(order, t, n)[k] == order[k]; }
    assert Inserted(order, t, n)[u] == order[u];
  }

  lemma BottomLink(order: seq<Node>, p: nat)
    requires p < |order|
    ensures NextPos(order, p + 1, 0) == p + 1 && Link(order, p, 0) == At(order, p + 1)
  {
    LinkIs(order, p, 0, p + 1);
  }

  lemma MinusAbsent(m: map<string, string>, key: string)
    requires key !in m
    ensures m - {key} == m
  {
  }

  lemma PutAfterDelete(m: map<string, string>, key: string, value: string)
    ensures (m - {key})[key := value] == m[key := value]
  {
  }

  // --------------------------------------------------------------- the object

  class SkipList {
    const maxLevel: nat
    const header: Node
    var level: nat
    var count: int
    /** The header and all nodes, in the order of their keys. */
    ghost var order: seq<Node>
    /** The map this list stands for. */
    ghost var model: map<string, string>
    ghost var repr: set<array<Node?>>

    /** Every level chains the nodes that reach it; no level above `level` is in use. */
    ghost predicate Linked()
      reads this, repr
    {
      && |order| >= 1 && order[0] == header && header.level == maxLevel && level <= maxLevel
      && (forall p | 0 <= p < |order| :: order[p].forward in repr)
      && (forall p | 1 <= p < |order| :: order[p].level <= level)
      && Shaped(order)
      && Chains(order, 0, maxLevel + 1)
    }

    ghost predicate Valid()
      reads this, repr
    {
      Linked() && Sorted(order) && Holds(order, model) && count == |model|
    }

    constructor (max: nat)
      ensures Valid() && fresh(repr) && model == map[] && maxLevel == max
    {
      maxLevel, level, count := max, 0, 0;
      var h := new Node("", "", max);
      header := h;
      order, model, repr := [h], map[], {h.forward};
    }

    lemma LinkOf(p: nat, i: nat)
      requires Linked() && p < |order| && i <= order[p].level && i <= maxLevel
      ensures i < order[p].forward.Length && order[p].forward[i] == Link(order, p, i)
    {
      assert Chained(order, i);
    }

    method Size() returns (n: int)
      requires Valid()
      ensures n == |model|
    {
      n := count;
    }

    /** The inner loop of the three searches: along level `i` while keys stay below `key`. */
    method Walk(from: Node, i: nat, key: string, ghost c: nat, ghost t: nat) returns (current: Node, ghost u: nat)
      requires Linked() && SplitAt(order, key, t) && c <= t && order[c] == from && i <= from.level
      requires i <= maxLevel
      ensures c <= u && Crosses(order, t, i, u) && order[u] == current
    {
      current, u := from, c;
      while current.forward[i] != null && Less(current.forward[i].key, key)
        invariant c <= u <= t && order[u] == current && i <= current.level
        decreases |order| - u
      {
        LinkOf(u, i);
        u := NextPos(order, u + 1, i);
        current := current.forward[i];
      }
      LinkOf(u, i);
    }

    method SearchElement(key: string) returns (found: bool, value: string)
      requires Valid()
      ensures found <==> key in model
      ensures found ==> value == model[key]
    {
      ghost var t := Split(order, key, |order|);
      ghost var u := 0;
      var current := header;
      for i := level + 1 downto 0
        invariant u <= t && order[u] == current && current.level >= i - 1
        invariant i <= level ==> Crosses(order, t, i, u)
      {
        current, u := Walk(current, i, key, u, t);
      }
      BottomLink(order, u);
      var node := Behind(current, key, t);
      if node != null && node.key == key { return true, node.value; }
      return false, "";
    }

    /** get_random_level after `heads` odd draws in a row. */
    method GetRandomLevel(heads: nat) returns (k: nat)
      ensures k <= maxLevel && k == if 1 + heads < maxLevel then 1 + heads else maxLevel
    {
      k := 1;
      for h := 0 to heads
        invariant k == 1 + h
      {
        k := k + 1;
      }
      k := if k < maxLevel then k else maxLevel;
    }

    /** The searching loop of insert_element and delete_element; `update[i]` is the node
        whose level-i link crosses the place of `key`. */
    method Locate(key: string, ghost t: nat) returns (update: array<Node?>, current: Node, ghost us: seq<nat>)
      requires Linked() && SplitAt(order, key, t)
      ensures fresh(update) && update.Length == maxLevel + 1
      ensures |us| == level + 1 && Updates(update, t, us, 0, level + 1) && current == order[t]
    {
      update := new Node?[maxLevel + 1](_ => null);
      current := header;
      ghost var u := 0;
      us := seq(level + 1, _ => 0);
      for i := level + 1 downto 0
        invariant Linked() && update !in repr && |us| == level + 1 && Updates(update, t, us, i, level + 1)
        invariant u <= t && order[u] == current && current.level >= i - 1
        invariant i == 0 ==> u == t
      {
        current, u := Walk(current, i, key, u, t);
        us := Mark(update, i, current, t, us, u);
        if i == 0 { BottomLink(order, u); }
      }
    }

    /** The test that follows each search: is the node behind the place of `key` the one sought? */
    method Behind(before: Node, key: string, ghost t: nat) returns (current: Node?)
      requires Valid() && SplitAt(order, key, t) && before == order[t]
      ensures current == At(order, t + 1)
      ensures current != null && current.key == key <==> key in model
      ensures key in model ==> current.value == model[key]
    {
      BottomLink(order, t);
      LinkOf(t, 0);
      Found(order, model, key, t);
      current := before.forward[0];
    }

    /** On levels from..to-1, `update` holds the nodes whose links cross `t`, at positions `us`. */
    ghost predicate Updates(update: array<Node?>, t: nat, us: seq<nat>, from: nat, to: nat)
      reads this, update
    {
      && to <= |us| && to <= update.Length
      && forall k | from <= k < to :: Crosses(order, t, k, us[k]) && update[k] == order[us[k]]
    }

    method Mark(update: array<Node?>, i: nat, node: Node, ghost t: nat, ghost us: seq<nat>, ghost u: nat) returns (ghost us': seq<nat>)
      requires i < |us| <= update.Length && Updates(update, t, us, i + 1, |us|)
      requires Crosses(order, t, i, u) && order[u] == node
      modifies update
      ensures |us'| == |us| && Updates(update, t, us', i, |us|)
    {
      update[i] := node;
      us' := us[i := u];
    }

    /** Levels the list did not have yet start at the header. */
    method Raise(update: array<Node?>, top: nat, ghost t: nat, ghost us: seq<nat>) returns (ghost us': seq<nat>)
      requires Linked() && level < top <= maxLevel && update !in repr && update.Length == maxLevel + 1
      requires t < |order| && |us| == level + 1 && Updates(update, t, us, 0, level + 1)
      modifies update
      ensures |us'| == top + 1 && Updates(update, t, us', 0, top + 1)
    {
      us' := us;
      for i := level + 1 to top + 1
        invariant |us'| == i && Updates(update, t, us', 0, i)
      {
        update[i] := header;
        us' := us' + [0];
        LinkIs(order, 0, i, |order|);
      }
    }

    /** The relinking loop of insert_element. */
    method Splice(n: Node, update: array<Node?>, ghost t: nat, ghost us: seq<nat>)
      requires Linked() && t < |order| && update !in repr && n.forward !in repr && update != n.forward && n !in order
      requires n.level <= maxLevel && n.forward.Length == n.level + 1 && Updates(update, t, us, 0, n.level + 1)
      modifies repr, n.forward
      ensures Shaped(Inserted(order, t, n)) && Chains(Inserted(order, t, n), 0, maxLevel + 1)
    {
      ghost var order' := Inserted(order, t, n);
      for i := 0 to n.level + 1
        invariant Shaped(order) && Shaped(order') && Updates(update, t, us, 0, n.level + 1)
        invariant Chains(order', 0, i) && Chains(order, i, maxLevel + 1)
      {
        LinkLevelIn(n, update[i], i, order, t, us[i], maxLevel + 1);
      }
      forall k | n.level < k <= maxLevel ensures Chained(order', k) { ChainedAbove(order, t, n, k); }
    }

    method InsertElement(key: string, value: string, heads: nat) returns (r: int)
      requires Valid()
      modifies this, repr
      ensures Valid() && fresh(repr - old(repr))
      ensures r == if key in old(model) then 1 else 0
      ensures model == if key in old(model) then old(model) else old(model)[key := value]
    {
      ghost var t := Split(order, key, |order|);
      var update, before, us := Locate(key, t);
      var current := Behind(before, key, t);
      if current != null && current.key == key { return 1; }
      InsertBehind(key, value, heads, update, t, us);
      return 0;
    }

    method InsertBehind(key: string, value: string, heads: nat, update: array<Node?>, ghost t: nat, ghost us: seq<nat>)
      requires Valid() && SplitAt(order, key, t) && key !in model
      requires update !in repr && update.Length == maxLevel + 1 && |us| == level + 1 && Updates(update, t, us, 0, level + 1)
      modifies this, repr, update
      ensures Valid() && fresh(repr - old(repr)) && model == old(model)[key := value]
    {
      var random := GetRandomLevel(heads);
      ghost var us' := us;
      if random > level { us' := Raise(update, random, t, us); }
      var n := new Node(key, value, random);
      Attach(n, update, t, us');
    }

    method Attach(n: Node, update: array<Node?>, ghost t: nat, ghost us: seq<nat>)
      requires Valid() && SplitAt(order, n.key, t) && n.key !in model
      requires update !in repr && n.forward !in repr && update != n.forward && n !in order
      requires n.level <= maxLevel && n.forward.Length == n.level + 1 && Updates(update, t, us, 0, n.level + 1)
      modifies this, repr, n.forward
      ensures Valid() && repr == old(repr) + {n.forward} && model == old(model)[n.key := n.value]
    {
      Found(order, model, n.key, t);
      InsertedSorted(order, n.key, t, n);
      InsertedHolds(order, t, n, model, model[n.key := n.value]);
      Relink(n, update, t, us);
      model := model[n.key := n.value];
      count := count + 1;
    }

    method Relink(n: Node, update: array<Node?>, ghost t: nat, ghost us: seq<nat>)
      requires Linked() && t < |order| && update !in repr && n.forward !in repr && update != n.forward && n !in order
      requires n.level <= maxLevel && n.forward.Length == n.level + 1 && Updates(update, t, us, 0, n.level + 1)
      modifies this`level, this`order, this`repr, repr, n.forward
      ensures Linked() && repr == old(repr) + {n.forward} && order == Inserted(old(order), t, n)
    {
      Splice(n, update, t, us);
      ghost var order' := Inserted(order, t, n);
      assert order'[0] == header;
      forall p | 0 <= p < |order'|
        ensures order'[p].forward in repr + {n.forward}
        ensures p >= 1 ==> order'[p].level <= level || order'[p].level <= n.level
      {
        assert order'[p] == if p <= t then order[p] else if p == t + 1 then n else order[p - 1];
      }
      if n.level > level { level := n.level; }
      order := order';
      repr := repr + {n.forward};
    }

    // ----------------------------------------------------------------- removal

    lemma UpdateLink(n: Node, t: nat, i: nat, u: nat)
      requires Shaped(order) && t + 1 < |order| && order[t + 1] == n && Crosses(order, t, i, u)
      ensures Link(order, u, i) == n <==> i <= n.level
      ensures Crosses(Removed(order, t), t, i, u) && Removed(order, t)[u] == order[u]
    {
      var order' := Removed(order, t);
      RemovedInserted(order, t);
      CrossesWithout(order', t, n, i, u);
      TargetIs(order', t, n, i, u, u);
      forall p | 0 <= p < |order'| ensures order'[p] != n { assert order'[p] == if p <= t then order[p] else order[p + 1]; }
    }

    lemma RemovedShaped(n: Node, t: nat)
      requires Shaped(order) && t + 1 < |order| && order[t + 1] == n
      ensures Shaped(Removed(order, t)) && Inserted(Removed(order, t), t, n) == order
      ensures forall p | 0 <= p < |order| - 1 :: Removed(order, t)[p].forward != n.forward
    {
      RemovedInserted(order, t);
    }

    /** The unlinking loop of delete_element. */
    method Unsplice(n: Node, update: array<Node?>, ghost t: nat, ghost us: seq<nat>)
      requires Linked() && t + 1 < |order| && order[t + 1] == n && update !in repr
      requires |us| == level + 1 && Updates(update, t, us, 0, level + 1)
      modifies repr
      ensures Shaped(Removed(order, t)) && Chains(Removed(order, t), 0, maxLevel + 1)
    {
      ghost var order' := Removed(order, t);
      RemovedShaped(n, t);
      var i := 0;
      while i <= level
        invariant i <= n.level + 1 && i <= level + 1 && Updates(update, t, us, 0, level + 1)
        invariant Chains(order', 0, i) && Chains(order, i, maxLevel + 1)
      {
        UpdateLink(n, t, i, us[i]);
        assert Chained(order, i);
        if update[i].forward[i] != n { break; }
        LinkLevelOut(n, update[i], i, order', t, us[i], maxLevel + 1);
        i := i + 1;
      }
      forall k | n.level < k <= maxLevel ensures Chained(order', k) { ChainedWithout(order', t, n, k); }
    }

    method Unlink(n: Node, update: array<Node?>, ghost t: nat, ghost us: seq<nat>)
      requires Linked() && t + 1 < |order| && order[t + 1] == n && update !in repr
      requires |us| == level + 1 && Updates(update, t, us, 0, level + 1)
      modifies this`order, this`level, repr
      ensures Linked() && order == Removed(old(order), t)
    {
      Unsplice(n, update, t, us);
      ghost var order' := Removed(order, t);
      forall p | 0 <= p < |order'|
        ensures order'[p].forward in repr && (p >= 1 ==> order'[p].level <= level)
      {
        assert order'[p] == if p <= t then order[p] else order[p + 1];
      }
      order := order';
      while level > 0 && header.forward[level] == null
        invariant Linked() && order == order'
      {
        LinkOf(0, level);
        level := level - 1;
      }
    }

    method DeleteElement(key: string)
      requires Valid()
      modifies this, repr
      ensures Valid() && repr == old(repr) && model == old(model) - {key}
    {
      ghost var t := Split(order, key, |order|);
      var update, before, us := Locate(key, t);
      var current := Behind(before, key, t);
      if current != null && current.key == key {
        Detach(current, update, t, us);
      } else {
        MinusAbsent(model, key);
      }
    }

    method Detach(n: Node, update: array<Node?>, ghost t: nat, ghost us: seq<nat>)
      requires Valid() && t + 1 < |order| && order[t + 1] == n && update !in repr
      requires |us| == level + 1 && Updates(update, t, us, 0, level + 1)
      modifies this, repr
      ensures Valid() && repr == old(repr) && model == old(model) - {n.key}
    {
      RemovedSorted(order, t);
      RemovedHolds(order, t, model, model - {n.key});
      Unlink(n, update, t, us);
      count := count - 1;
      model := model - {n.key};
    }

    /** Put: an existing element is deleted and inserted anew. */
    method InsertSetElement(key: string, value: string, heads: nat)
      requires Valid()
      modifies this, repr
      ensures Valid() && fresh(repr - old(repr)) && model == old(model)[key := value]
    {
      var found, _ := SearchElement(key);
      if found { DeleteElement(key); }
      var _ := InsertElement(key, value, heads);
      PutAfterDelete(old(model), key, value);
    }

    /** The inner loop of display_list: what hangs on level `i`. */
    method DisplayLevel(i: nat) returns (nodes: seq<Node>)
      requires Valid() && i <= level
      ensures nodes == Chain(order, 1, i) && InOrder(nodes)
    {
      ChainSorted(order, 1, i);
      nodes := WalkLevel(i);
    }

    method WalkLevel(i: nat) returns (nodes: seq<Node>)
      requires Linked() && i <= level
      ensures nodes == Chain(order, 1, i)
    {
      nodes := [];
      ghost var c := 0;
      LinkOf(0, i);
      var node := header.forward[i];
      while node != null
        invariant c < |order| && i <= order[c].level && node == Link(order, c, i)
        invariant nodes + Chain(order, c + 1, i) == Chain(order, 1, i)
        decreases |order| - c
      {
        ChainStep(order, c, i, nodes, Chain(order, 1, i));
        nodes := nodes + [node];
        c := NextPos(order, c + 1, i);
        LinkOf(c, i);
        node := node.forward[i];
      }
      ChainStep(order, c, i, nodes, Chain(order, 1, i));
    }

    /** dump_file: keys and values along level 0. */
    method DumpFile() returns (keys: seq<string>, values: seq<string>)
      requires Valid()
      ensures |keys| == |values| == |model|
      ensures forall p, q | 0 <= p < q < |keys| :: Less(keys[p], keys[q])
      ensures forall p | 0 <= p < |keys| :: keys[p] in model && model[keys[p]] == values[p]
    {
      keys, values := BottomChain();
    }

    method BottomChain() returns (keys: seq<string>, values: seq<string>)
      requires Linked()
      ensures |keys| == |values| == |order| - 1
      ensures forall p | 0 <= p < |keys| :: keys[p] == order[p + 1].key && values[p] == order[p + 1].value
    {
      keys, values := [], [];
      ghost var c := 0;
      BottomLink(order, 0);
      LinkOf(0, 0);
      var node := header.forward[0];
      while node != null
        invariant c < |order| && node == At(order, c + 1) && |keys| == |values| == c
        invariant forall p | 0 <= p < c :: keys[p] == order[p + 1].key && values[p] == order[p + 1].value
        decreases |order| - c
      {
        keys, values := keys + [node.key], values + [node.value];
        c := c + 1;
        BottomLink(order, c);
        LinkOf(c, 0);
        node := node.forward[0];
      }
    }
  }
}
