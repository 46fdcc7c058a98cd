/**
  The order of string keys, and the chains of a skip list seen as positions in
  one sorted list of nodes (raft_KV/src/skipList/include/skipList.h).
 */
module SkipOrder {

  // ------------------------------------------------------------------- strings

  /** The comparison of std::string. */
  predicate Less(a: string, b: string) {
    if b == [] then false
    else if a == [] then true
    else a[0] < b[0] || (a[0] == b[0] && Less(a[1..], b[1..]))
  }

  lemma {:induction false} LessTotal(a: string, b: string)
    ensures Less(a, b) || a == b || Less(b, a)
  {
    if a != [] && b != [] && a[0] == b[0] {
      LessTotal(a[1..], b[1..]);
      assert a == [a[0]] + a[1..] && b == [b[0]] + b[1..];
    }
  }

  /** A proper prefix comes first; otherwise the first place where the strings differ decides. */
  lemma {:induction false} LessIsLexicographic(a: string, b: string)
    ensures Less(a, b) <==>
      exists k: nat :: k <= |a| && k < |b| && a[..k] == b[..k] && (k == |a| || a[k] < b[k])
  {
    if a != [] && b != [] && a[0] == b[0] {
      LessIsLexicographic(a[1..], b[1..]);
      forall k: nat | k < |a| && k < |b|
        ensures a[1..][..k] == b[1..][..k] <==> a[..k + 1] == b[..k + 1]
      {
        assert a[..k + 1] == [a[0]] + a[1..][..k] && b[..k + 1] == [b[0]] + b[1..][..k];
      }
      if k: nat :| k < |a| && k + 1 < |b| && a[1..][..k] == b[1..][..k] && (k + 1 == |a| || a[1..][k] < b[1..][k]) {
        assert a[..k + 1] == b[..k + 1] && (k + 1 == |a| || a[k + 1] < b[k + 1]);
      }
      if k: nat :| k <= |a| && k < |b| && a[..k] == b[..k] && (k == |a| || a[k] < b[k]) {
        assert k > 0;
        assert a[1..][..k - 1] == b[1..][..k - 1];
      }
    } else if Less(a, b) {
      assert a[..0] == b[..0];
    } else if k: nat :| k <= |a| && k < |b| && a[..k] == b[..k] && (k == |a| || a[k] < b[k]) {
      assert k > 0 ==> a[..k][0] == b[..k][0];
    }
  }

  lemma {:induction false} LessTransitive(a: string, b: string, c: string)
    requires Less(a, b) && Less(b, c)
    ensures Less(a, c)
  {
    if a != [] && a[0] == b[0] == c[0] { LessTransitive(a[1..], b[1..], c[1..]); }
  }

  lemma {:induction false} LessStrict(a: string, b: string)
    requires Less(a, b)
    ensures !Less(b, a) && a != b
  {
    if a != [] && a[0] == b[0] { LessStrict(a[1..], b[1..]); }
  }

  // --------------------------------------------------------------------- nodes

  /** forward[i] is the next node that reaches level i, for 0 <= i <= level. */
  class Node {
    const key: string
    const value: string
    const level: nat
    const forward: array<Node?>

    constructor (k: string, v: string, lev: nat)
      ensures key == k && value == v && level == lev
      ensures fresh(forward) && forward.Length == lev + 1 && forall i | 0 <= i <= lev :: forward[i] == null
    {
      key, value, level := k, v, lev;
      forward := new Node?[lev + 1](_ => null);
    }
  }

  /** The first position from `q` on whose node reaches level `i`. */
  ghost function NextPos(order: seq<Node>, q: nat, i: nat): (r: nat)
    ensures r <= |order| && (q <= |order| ==> q <= r)
    ensures r < |order| ==> order[r].level >= i
    ensures forall k | q <= k < r && k < |order| :: order[k].level < i
    decreases |order| - q
  {
    if q >= |order| then |order|
    else if order[q].level >= i then q
    else NextPos(order, q + 1, i)
  }

  ghost function At(order: seq<Node>, k: nat): Node? {
    if k < |order| then order[k] else null
  }

  /** The node that forward[i] of the node at position `p` has to point to. */
  ghost function Link(order: seq<Node>, p: nat, i: nat): Node? { At(order, NextPos(order, p + 1, i)) }

  lemma LinkIs(order: seq<Node>, p: nat, i: nat, r: nat)
    requires p < r <= |order| && (r < |order| ==> order[r].level >= i)
    requires forall k | p < k < r :: order[k].level < i
    ensures NextPos(order, p + 1, i) == r && Link(order, p, i) == At(order, r)
  {
  }

  /** `order` with `n` put behind position `t`. */
  ghost function Inserted(order: seq<Node>, t: nat, n: Node): seq<Node>
    requires t < |order|
  {
    order[..t + 1] + [n] + order[t + 1..]
  }

  /** What an insertion does to the chains: before the new node only links that
      cross it on its levels change, behind it none does. */
  lemma InsertedLink(order: seq<Node>, t: nat, n: Node, p: nat, i: nat)
    requires t < |order| && p <= |order|
    ensures p <= t && NextPos(order, p + 1, i) <= t ==> Link(Inserted(order, t, n), p, i) == Link(order, p, i)
    ensures p <= t && NextPos(order, p + 1, i) > t && i <= n.level ==> Link(Inserted(order, t, n), p, i) == n
    ensures p <= t && NextPos(order, p + 1, i) > t && i > n.level ==> Link(Inserted(order, t, n), p, i) == Link(order, p, i)
    ensures p == t + 1 ==> Link(Inserted(order, t, n), p, i) == Link(order, t, i)
    ensures p > t + 1 ==> Link(Inserted(order, t, n), p, i) == Link(order, p - 1, i)
  {
    var order' := Inserted(order, t, n);
    if p <= t {
      var r := NextPos(order, p + 1, i);
      if r <= t { LinkIs(order', p, i, r); } else if i <= n.level { LinkIs(order', p, i, t + 1); } else { LinkIs(order', p, i, r + 1); }
    } else {
      var r := NextPos(order, p, i);
      LinkIs(order', p, i, r + 1);
    }
  }

  /** The nodes from position `q` on that reach level `i`. */
  ghost function Chain(order: seq<Node>, q: nat, i: nat): seq<Node>
    decreases |order| - q
  {
    if q >= |order| then []
    else if order[q].level >= i then [order[q]] + Chain(order, q + 1, i)
    else Chain(order, q + 1, i)
  }

  ghost function Reaching(nodes: seq<Node>, i: nat): seq<Node> {
    if nodes == [] then []
    else if nodes[0].level >= i then [nodes[0]] + Reaching(nodes[1..], i)
    else Reaching(nodes[1..], i)
  }

  /** Each level is the sub-chain of the level below made of the nodes that reach it. */
  lemma {:induction false} SubChain(order: seq<Node>, q: nat, i: nat)
    ensures Chain(order, q, i + 1) == Reaching(Chain(order, q, i), i + 1)
    decreases |order| - q
  {
    if q < |order| {
      SubChain(order, q + 1, i);
      assert order[q].level >= i ==> Chain(order, q, i)[1..] == Chain(order, q + 1, i);
    }
  }

  /** Following links from any position walks the chain. */
  lemma {:induction false} ChainSteps(order: seq<Node>, q: nat, i: nat)
    requires q <= |order|
    ensures var r := NextPos(order, q, i);
      Chain(order, q, i) == if r < |order| then [order[r]] + Chain(order, r + 1, i) else []
    decreases |order| - q
  {
    if q < |order| && order[q].level < i { ChainSteps(order, q + 1, i); }
  }

  ghost predicate InOrder(nodes: seq<Node>) {
    forall p, q | 0 <= p < q < |nodes| :: Less(nodes[p].key, nodes[q].key)
  }

  lemma {:induction false} ChainSorted(order: seq<Node>, q: nat, i: nat)
    requires 1 <= q && forall p, r | 1 <= p < r < |order| :: Less(order[p].key, order[r].key)
    ensures InOrder(Chain(order, q, i))
    ensures forall n | n in Chain(order, q, i) :: exists p :: q <= p < |order| && order[p] == n
    decreases |order| - q
  {
    if q < |order| {
      ChainSorted(order, q + 1, i);
      var rest := Chain(order, q + 1, i);
      forall k | 0 <= k < |rest| ensures Less(order[q].key, rest[k].key) { assert rest[k] in rest; }
    }
  }

  /** One step along level `i` moves one node of the chain to the visited ones. */
  lemma ChainStep(order: seq<Node>, c: nat, i: nat, visited: seq<Node>, all: seq<Node>)
    requires c < |order| && visited + Chain(order, c + 1, i) == all
    ensures var r := NextPos(order, c + 1, i);
      if r < |order| then c < r && visited + [order[r]] + Chain(order, r + 1, i) == all else visited == all
  {
    ChainSteps(order, c + 1, i);
    var r := NextPos(order, c + 1, i);
    if r < |order| { assert visited + ([order[r]] + Chain(order, r + 1, i)) == visited + [order[r]] + Chain(order, r + 1, i); }
  }
}
