/**
 Spreading a run's connections over its workers and over the endpoints (src/worker.rs), and
 the check that routed requests need (src/runner.rs).
 */
module Spread {
  import opened Numbers
  import RoutedQueues

  /** A worker's number of connections, and the global index of its first one. */
  function ConnectionShare(total: nat, threads: nat, w: nat): (nat, nat) {
    var n := Max(threads, 1);
    var base, rem := total / n, total % n;
    (if w < rem then base + 1 else base,
     if w < rem then w * (base + 1) else rem * (base + 1) + (w - rem) * base)
  }

  function Mine(total: nat, threads: nat, w: nat): nat { ConnectionShare(total, threads, w).0 }

  function First(total: nat, threads: nat, w: nat): nat { ConnectionShare(total, threads, w).1 }

  /** The endpoint of connection `i` when connections are dealt out in turn. */
  function RoundRobin(endpoints: nat, i: nat): nat
    requires endpoints >= 1
  {
    i % endpoints
  }

  /** Each worker's connections begin where the previous worker's end. */
  lemma SlicesMeet(total: nat, threads: nat, w: nat)
    ensures First(total, threads, w + 1) == First(total, threads, w) + Mine(total, threads, w)
  {
    var n := Max(threads, 1);
    var base, rem := total / n, total % n;
    NextProduct(w, base + 1);
    if w + 1 == rem {
      assert (w + 1 - rem) * base == 0;
    } else if w >= rem {
      NextProduct(w - rem, base);
    }
  }

  /** The workers' slices tile the run's connections: the last one ends at the total. */
  lemma SlicesTile(total: nat, threads: nat)
    ensures First(total, threads, 0) == 0
    ensures First(total, threads, Max(threads, 1)) == total
    ensures forall w: nat :: First(total, threads, w + 1) == First(total, threads, w) + Mine(total, threads, w)
  {
    var n := Max(threads, 1);
    var base, rem := total / n, total % n;
    assert total == n * base + rem;
    assert rem * (base + 1) == rem * base + rem;
    assert (n - rem) * base == n * base - rem * base;
    forall w: nat ensures First(total, threads, w + 1) == First(total, threads, w) + Mine(total, threads, w) {
      SlicesMeet(total, threads, w);
    }
  }

  /** Every connection belongs to the slice of exactly one worker. */
  lemma {:induction false} EachConnectionHasOneWorker(total: nat, threads: nat, i: nat)
    requires i < total
    ensures exists w: nat :: w < Max(threads, 1) && InSlice(total, threads, w, i)
    ensures forall v: nat, w: nat | InSlice(total, threads, v, i) && InSlice(total, threads, w, i) :: v == w
  {
    SlicesTile(total, threads);
    FindSlice(total, threads, i, Max(threads, 1));
    forall v: nat, w: nat | InSlice(total, threads, v, i) && InSlice(total, threads, w, i) ensures v == w {
      if v < w {
        FirstGrows(total, threads, v + 1, w);
      } else if w < v {
        FirstGrows(total, threads, w + 1, v);
      }
    }
  }

  predicate InSlice(total: nat, threads: nat, w: nat, i: nat) {
    First(total, threads, w) <= i < First(total, threads, w) + Mine(total, threads, w)
  }

  lemma {:induction false} FindSlice(total: nat, threads: nat, i: nat, upTo: nat)
    requires i < First(total, threads, upTo)
    ensures exists w: nat :: w < upTo && InSlice(total, threads, w, i)
    decreases upTo
  {
    if upTo == 0 {
      SlicesTile(total, threads);
    } else {
      SlicesMeet(total, threads, upTo - 1);
      if First(total, threads, upTo - 1) <= i {
        assert InSlice(total, threads, upTo - 1, i);
      } else {
        FindSlice(total, threads, i, upTo - 1);
      }
    }
  }

  lemma {:induction false} FirstGrows(total: nat, threads: nat, v: nat, w: nat)
    requires v <= w
    ensures First(total, threads, v) <= First(total, threads, w)
    decreases w
  {
    if v < w {
      FirstGrows(total, threads, v, w - 1);
      SlicesMeet(total, threads, w - 1);
    }
  }

  // ---- Routed requests -----------------------------------------------------------------------------

  /** Worker `w` has a connection to `node`. */
  ghost predicate Serves(total: nat, threads: nat, nodes: nat, w: nat, node: nat)
    requires nodes >= 1
  {
    exists i: nat :: InSlice(total, threads, w, i) && RoundRobin(nodes, i) == node
  }

  /** Any run of `nodes` consecutive connections has one to every node. */
  lemma RunMeetsEveryNode(from: nat, nodes: nat, node: nat)
    requires nodes >= 1 && node < nodes
    ensures exists i: nat :: from <= i < from + nodes && RoundRobin(nodes, i) == node
  {
    var q, r := from / nodes, from % nodes;
    assert from == nodes * q + r;
    var i := if r <= node then nodes * q + node else nodes * (q + 1) + node;
    assert nodes * (q + 1) == nodes * q + nodes;
    ModOfSum(nodes, q, node);
    ModOfSum(nodes, q + 1, node);
    assert from <= i < from + nodes && RoundRobin(nodes, i) == node;
  }

  lemma ModOfSum(d: nat, q: nat, r: nat)
    requires r < d
    ensures (d * q + r) % d == r
  {
    var x := d * q + r;
    var q', r' := x / d, x % d;
    assert d * q' + r' == d * q + r;
    ProductOrder(q', q, d);
    ProductOrder(q, q', d);
  }

  /** Fewer consecutive connections than nodes miss the node that would come next. */
  lemma ShortRunMissesOne(from: nat, len: nat, nodes: nat, i: nat)
    requires nodes >= 1 && len < nodes && from <= i < from + len
    ensures RoundRobin(nodes, i) != RoundRobin(nodes, from + len)
  {
    var a, b := i / nodes, (from + len) / nodes;
    assert i == nodes * a + i % nodes && from + len == nodes * b + (from + len) % nodes;
    ProductOrder(a, b, nodes);
    ProductOrder(b, a, nodes);
  }

  /** With enough connections, every worker's slice is long enough to meet every node. */
  lemma EnoughServesAll(total: nat, threads: nat, nodes: nat, w: nat, node: nat)
    requires threads >= 1 && nodes >= 1 && total >= threads * nodes && node < nodes
    ensures Serves(total, threads, nodes, w, node)
  {
    var base, rem := total / threads, total % threads;
    assert total == threads * base + rem;
    ProductOrder(base, nodes, threads);
    assert base >= nodes;
    RunMeetsEveryNode(First(total, threads, w), nodes, node);
    var i: nat :| First(total, threads, w) <= i < First(total, threads, w) + nodes && RoundRobin(nodes, i) == node;
    assert InSlice(total, threads, w, i);
  }

  /** With too few, the last worker misses a node. */
  lemma TooFewMissOne(total: nat, threads: nat, nodes: nat) returns (node: nat)
    requires threads >= 1 && nodes >= 1 && total < threads * nodes
    ensures node < nodes && !Serves(total, threads, nodes, threads - 1, node)
  {
    var base, rem := total / threads, total % threads;
    assert total == threads * base + rem;
    ProductOrder(nodes, base, threads);
    assert base < nodes;
    var w := threads - 1;
    var from, len := First(total, threads, w), Mine(total, threads, w);
    assert len == base;
    node := RoundRobin(nodes, from + len);
    forall i: nat | InSlice(total, threads, w, i) ensures RoundRobin(nodes, i) != node {
      ShortRunMissesOne(from, len, nodes, i);
    }
  }

  /** The check on a routed run's node list is exact: it passes when, and only when, every worker serves every node. */
  lemma NodeCheckIsExact(total: nat, threads: nat, nodes: nat)
    requires threads >= 1 && nodes >= 1
    ensures total >= threads * nodes <==>
            forall w: nat, node: nat | w < threads && node < nodes :: Serves(total, threads, nodes, w, node)
  {
    if total >= threads * nodes {
      forall w: nat, node: nat | w < threads && node < nodes ensures Serves(total, threads, nodes, w, node) {
        EnoughServesAll(total, threads, nodes, w, node);
      }
    } else {
      var node := TooFewMissOne(total, threads, nodes);
    }
  }

  // ---- And so every queue has room -----------------------------------------------------------------

  /** How many of `len` connections from `from` on serve `node`. */
  function PerNode(from: nat, len: nat, nodes: nat, node: nat): nat
    requires nodes >= 1
  {
    if len == 0 then 0
    else PerNode(from, len - 1, nodes, node) + if RoundRobin(nodes, from + len - 1) == node then 1 else 0
  }

  lemma {:induction false} PerNodeCounts(from: nat, len: nat, nodes: nat, node: nat)
    requires nodes >= 1
    ensures PerNode(from, len, nodes, node) >= 1 <==>
            exists i: nat :: from <= i < from + len && RoundRobin(nodes, i) == node
    decreases len
  {
    if len > 0 {
      PerNodeCounts(from, len - 1, nodes, node);
    }
  }

  /** Worker `w`'s queue for `node`. */
  function QueueOf(total: nat, threads: nat, nodes: nat, w: nat, node: nat, depth: nat): RoutedQueues.Node
    requires nodes >= 1
  {
    RoutedQueues.Empty(PerNode(First(total, threads, w), Mine(total, threads, w), nodes, node), depth)
  }

  lemma AtLeastOnce(n: nat, x: nat)
    ensures n >= 1 ==> n * x >= x
    ensures n == 0 ==> n * x == 0
  {
  }

  /** A worker's queue for a node takes its first request exactly when the worker has a connection to the node. */
  lemma RoomExactlyWhereServed(total: nat, threads: nat, nodes: nat, w: nat, node: nat, depth: nat, request: nat)
    requires nodes >= 1 && depth >= 1
    ensures RoutedQueues.Pushed(QueueOf(total, threads, nodes, w, node, depth), request).1 <==>
            Serves(total, threads, nodes, w, node)
  {
    var from, len := First(total, threads, w), Mine(total, threads, w);
    PerNodeCounts(from, len, nodes, node);
    var n := PerNode(from, len, nodes, node);
    AtLeastOnce(n, depth);
    if Serves(total, threads, nodes, w, node) {
      var i: nat :| InSlice(total, threads, w, i) && RoundRobin(nodes, i) == node;
      assert from <= i < from + len;
    }
    if n >= 1 {
      var i: nat :| from <= i < from + len && RoundRobin(nodes, i) == node;
      assert InSlice(total, threads, w, i);
    }
  }

  /** The node check passes exactly when no worker's queue for any node is one that takes nothing. */
  lemma NodeCheckGivesRoom(total: nat, threads: nat, nodes: nat, depth: nat, request: nat)
    requires threads >= 1 && nodes >= 1 && depth >= 1
    ensures total >= threads * nodes <==>
            forall w: nat, node: nat | w < threads && node < nodes ::
              RoutedQueues.Pushed(QueueOf(total, threads, nodes, w, node, depth), request).1
  {
    NodeCheckIsExact(total, threads, nodes);
    forall w: nat, node: nat | w < threads && node < nodes
      ensures RoutedQueues.Pushed(QueueOf(total, threads, nodes, w, node, depth), request).1 <==>
              Serves(total, threads, nodes, w, node)
    {
      RoomExactlyWhereServed(total, threads, nodes, w, node, depth, request);
    }
  }
}
