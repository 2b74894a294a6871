/**
 One node's queue of routed requests and the connections waiting on it (src/worker.rs).

 A wait's entry is a slot number; the slot is dead once its wait returned, was dropped or was
 woken. A connection owes a look at the queue from the moment it is woken until it takes a
 request or finds the queue empty.
 */
module RoutedQueues {
  import opened Numbers
  import opened Options

  const ROUTED_QUEUE_PIPELINES: nat := 16

  datatype Node = Node(
    requests: seq<nat>,
    cap: nat,
    waiters: seq<nat>,
    waitersCap: nat,
    // Per slot: whether it is live, and the connection it wakes.
    live: seq<bool>,
    owner: seq<nat>,
    // Per connection: the slot of its wait, once that has registered.
    slots: seq<Option<nat>>,
    closed: bool,
    // The connections that were woken and have yet to look, which no code reads.
    owing: set<nat>)

  function Empty(connections: nat, depth: nat): Node {
    Node([], connections * depth * ROUTED_QUEUE_PIPELINES, [], 2 * connections + 16,
         [], [], seq(connections, i => None), false, {})
  }

  predicate IsLive(n: Node, w: nat) { w < |n.live| && n.live[w] }

  /** How many entries at the front of the list are dead. */
  function DeadFront(waiters: seq<nat>, live: seq<bool>): (k: nat)
    ensures k <= |waiters|
    ensures forall i | 0 <= i < k :: waiters[i] < |live| ==> !live[waiters[i]]
    ensures k < |waiters| ==> waiters[k] < |live| && live[waiters[k]]
  {
    if waiters == [] || (waiters[0] < |live| && live[waiters[0]]) then 0
    else 1 + DeadFront(waiters[1..], live)
  }

  /** The entries still live, in order. */
  function Retained(waiters: seq<nat>, live: seq<bool>): seq<nat> {
    if waiters == [] then []
    else (if waiters[0] < |live| && live[waiters[0]] then [waiters[0]] else []) + Retained(waiters[1..], live)
  }

  lemma {:induction false} RetainedContents(waiters: seq<nat>, live: seq<bool>)
    ensures |Retained(waiters, live)| <= |waiters|
    ensures forall w: nat :: w in Retained(waiters, live) <==> w in waiters && w < |live| && live[w]
  {
    if waiters != [] {
      RetainedContents(waiters[1..], live);
      assert waiters == [waiters[0]] + waiters[1..];
    }
  }

  // ---- The operations ------------------------------------------------------------------------------

  /** Queue a request and wake the connection that has waited longest. */
  function Pushed(n: Node, request: nat): (r: (Node, bool))
    requires |n.owner| == |n.live|
  {
    if |n.requests| >= n.cap then (n, false)
    else
      var more := n.(requests := n.requests + [request]);
      var k := DeadFront(n.waiters, n.live);
      if k == |n.waiters| then (more.(waiters := []), true)
      else
        var w := n.waiters[k];
        (more.(waiters := n.waiters[k + 1..], live := n.live[w := false], owing := n.owing + {n.owner[w]}), true)
  }

  /** Connection `c` takes the oldest request, or finds none. */
  function Popped(n: Node, c: nat): (Node, Option<nat>) {
    var looked := n.(owing := n.owing - {c});
    if n.requests == [] then (looked, None)
    else (looked.(requests := n.requests[1..]), Some(n.requests[0]))
  }

  /** Connection `c`'s wait returns or is dropped. */
  function Released(n: Node, c: nat): Node
    requires c < |n.slots| && (n.slots[c].Some? ==> n.slots[c].value < |n.live|)
  {
    match n.slots[c]
    case None => n
    case Some(w) => n.(live := n.live[w := false], slots := n.slots[c := None])
  }

  /** Connection `c`'s wait is polled: is it ready? */
  function Polled(n: Node, c: nat): (Node, bool)
    requires c < |n.slots| && (n.slots[c].Some? ==> n.slots[c].value < |n.live|)
  {
    if n.closed || n.requests != [] then (Released(n, c), true)
    else
      var looked := n.(owing := n.owing - {c});
      if n.slots[c].Some? && n.live[n.slots[c].value] then (looked, false)
      else
        var kept := if |n.waiters| >= n.waitersCap then Retained(n.waiters, n.live) else n.waiters;
        (looked.(waiters := kept + [|n.live|], live := n.live + [true], owner := n.owner + [c],
                 slots := n.slots[c := Some(|n.live|)]), false)
  }

  /** The slots once everything on the list is dead. */
  function Drained(live: seq<bool>, waiters: seq<nat>): (r: seq<bool>)
    ensures |r| == |live| && forall w | 0 <= w < |live| :: r[w] == (live[w] && w !in waiters)
  {
    seq(|live|, w requires 0 <= w < |live| => live[w] && w !in waiters)
  }

  /** The connections whose live entries are on the list. */
  function Woken(waiters: seq<nat>, live: seq<bool>, owner: seq<nat>): set<nat>
    requires |owner| == |live|
  {
    set w | w in waiters && w < |live| && live[w] :: owner[w]
  }

  /** The dispatcher stopped: every waiter is woken. */
  function Closed(n: Node): Node
    requires |n.owner| == |n.live|
  {
    n.(closed := true, waiters := [], live := Drained(n.live, n.waiters),
       owing := n.owing + Woken(n.waiters, n.live, n.owner))
  }

  // ---- What every operation keeps --------------------------------------------------------------------

  predicate SlotsOk(n: Node) {
    && |n.owner| == |n.live|
    && (forall i | 0 <= i < |n.waiters| :: n.waiters[i] < |n.live|)
    && Increasing(n.waiters)
    && (forall c | 0 <= c < |n.slots| && n.slots[c].Some? ::
          n.slots[c].value < |n.live| && n.owner[n.slots[c].value] == c)
  }

  /** A live slot is listed, and is the one its connection's wait holds: a wait has at most one. */
  ghost predicate LiveOk(n: Node)
    requires SlotsOk(n)
  {
    forall w: nat | IsLive(n, w) ::
      && w in n.waiters
      && n.owner[w] < |n.slots| && n.slots[n.owner[w]] == Some(w)
  }

  predicate Bounded(n: Node) {
    && |n.requests| <= n.cap
    && |n.waiters| <= n.waitersCap == 2 * |n.slots| + 16
    && (forall c | c in n.owing :: c < |n.slots|)
  }

  ghost predicate SomeoneWaits(n: Node) { exists w: nat :: IsLive(n, w) }

  /** No wake is lost: while a connection waits, every queued request has a woken connection to take it. */
  ghost predicate NoLostWake(n: Node) {
    SomeoneWaits(n) ==> |n.requests| <= |n.owing|
  }

  ghost predicate Valid(n: Node) {
    SlotsOk(n) && LiveOk(n) && Bounded(n) && NoLostWake(n)
  }

  lemma EmptyValid(connections: nat, depth: nat)
    ensures Valid(Empty(connections, depth))
  {
  }

  // ---- Pushing ---------------------------------------------------------------------------------------

  lemma PushKeepsList(n: Node, request: nat)
    requires SlotsOk(n)
    ensures SlotsOk(Pushed(n, request).0)
  {
  }

  lemma PushKeepsSlots(n: Node, request: nat)
    requires SlotsOk(n) && LiveOk(n)
    ensures var n' := Pushed(n, request).0; SlotsOk(n') && LiveOk(n')
  {
    var n' := Pushed(n, request).0;
    var k := DeadFront(n.waiters, n.live);
    PushKeepsList(n, request);
    hide Increasing;
    forall w: nat | IsLive(n', w)
      ensures w in n'.waiters && n'.owner[w] < |n'.slots| && n'.slots[n'.owner[w]] == Some(w)
    {
      assert IsLive(n, w);
      var i :| 0 <= i < |n.waiters| && n.waiters[i] == w;
      if |n.requests| < n.cap {
        assert i > k;
        assert n'.waiters[i - k - 1] == w;
      }
    }
  }

  /** The connection a push wakes has no wake outstanding: its wait still held a live slot. */
  ghost predicate OwesNothing(n: Node)
    requires SlotsOk(n)
  {
    forall w: nat | IsLive(n, w) :: n.owner[w] !in n.owing
  }

  lemma PushKeepsBounds(n: Node, request: nat)
    requires Valid(n)
    ensures Bounded(Pushed(n, request).0)
  {
    var k := DeadFront(n.waiters, n.live);
    if |n.requests| < n.cap && k < |n.waiters| {
      assert IsLive(n, n.waiters[k]);
    }
  }

  lemma PushLosesNoWake(n: Node, request: nat)
    requires Valid(n) && OwesNothing(n)
    ensures NoLostWake(Pushed(n, request).0) && OwesNothing(Pushed(n, request).0)
  {
    var n' := Pushed(n, request).0;
    var k := DeadFront(n.waiters, n.live);
    if |n.requests| < n.cap && k < |n.waiters| {
      var woken := n.waiters[k];
      assert IsLive(n, woken);
      assert n.owner[woken] !in n.owing;
      assert |n'.owing| == |n.owing| + 1;
      forall w: nat | IsLive(n', w) ensures n'.owner[w] !in n'.owing {
        assert IsLive(n, w) && w != woken;
        assert n.slots[n.owner[w]] == Some(w) && n.slots[n.owner[woken]] == Some(woken);
      }
    } else if |n.requests| < n.cap {
      forall w: nat ensures !IsLive(n', w) {
        assert IsLive(n, w) ==> w in n.waiters;
      }
    }
  }

  /** The connection woken is the live one that registered first, and no other is. */
  lemma PushWakesLongestWaiting(n: Node, request: nat, w: nat)
    requires Valid(n) && |n.requests| < n.cap
    requires IsLive(n, w) && forall v: nat | IsLive(n, v) :: w <= v
    ensures var n' := Pushed(n, request).0;
            && n'.owing == n.owing + {n.owner[w]}
            && forall v: nat :: IsLive(n', v) <==> IsLive(n, v) && v != w
  {
    var k := DeadFront(n.waiters, n.live);
    var i :| 0 <= i < |n.waiters| && n.waiters[i] == w;
    assert k <= i;
    assert IsLive(n, n.waiters[k]);
    assert n.waiters[k] == w;
  }

  // ---- Polling, dropping and popping -----------------------------------------------------------------

  lemma ReleaseKeepsValid(n: Node, c: nat)
    requires Valid(n) && OwesNothing(n) && c < |n.slots|
    ensures Valid(Released(n, c)) && OwesNothing(Released(n, c))
  {
    var n' := Released(n, c);
    forall w: nat | IsLive(n', w)
      ensures w in n'.waiters && n'.owner[w] < |n'.slots|
              && n'.slots[n'.owner[w]] == Some(w) && n'.owner[w] !in n'.owing
    {
      assert IsLive(n, w);
    }
    if SomeoneWaits(n') {
      var w: nat :| IsLive(n', w);
      assert IsLive(n, w);
    }
  }

  lemma PopKeepsValid(n: Node, c: nat)
    requires Valid(n) && OwesNothing(n) && c < |n.slots|
    ensures Valid(Popped(n, c).0) && OwesNothing(Popped(n, c).0)
  {
    var n' := Popped(n, c).0;
    forall w: nat | IsLive(n', w)
      ensures w in n'.waiters && n'.owner[w] < |n'.slots|
              && n'.slots[n'.owner[w]] == Some(w) && n'.owner[w] !in n'.owing
    {
      assert IsLive(n, w);
    }
    if SomeoneWaits(n') {
      var w: nat :| IsLive(n', w);
      assert IsLive(n, w);
    }
    if c in n.owing {
      assert |n'.owing| == |n.owing| - 1;
    } else {
      assert n'.owing == n.owing;
    }
  }

  lemma {:induction false} RetainedSorted(waiters: seq<nat>, live: seq<bool>)
    requires Increasing(waiters)
    ensures Increasing(Retained(waiters, live))
  {
    if waiters != [] {
      var tail := waiters[1..];
      assert Increasing(tail);
      RetainedSorted(tail, live);
      RetainedContents(tail, live);
      var rest := Retained(tail, live);
      forall i | 0 <= i < |rest| ensures waiters[0] < rest[i] {
        assert rest[i] in rest;
        var k :| 0 <= k < |tail| && tail[k] == rest[i];
        assert waiters[k + 1] == rest[i];
      }
      assert Increasing([waiters[0]] + rest);
    }
  }

  /** Different entries that are all below `bound` are at most `bound`. */
  lemma {:induction false} DistinctBelow(xs: seq<nat>, bound: nat)
    requires forall i | 0 <= i < |xs| :: xs[i] < bound
    requires forall i, j | 0 <= i < j < |xs| :: xs[i] != xs[j]
    ensures |xs| <= bound
    decreases bound
  {
    if xs != [] {
      assert xs[0] < bound;
      if k: nat :| k < |xs| && xs[k] == bound - 1 {
        var rest := xs[..k] + xs[k + 1..];
        DistinctBelow(rest, bound - 1);
      } else {
        DistinctBelow(xs, bound - 1);
      }
    }
  }

  /** The live entries are at most one to a connection, so a compacted list has room for one more. */
  lemma LiveAreFew(n: Node)
    requires SlotsOk(n) && LiveOk(n)
    ensures |Retained(n.waiters, n.live)| <= |n.slots|
  {
    var kept := Retained(n.waiters, n.live);
    RetainedSorted(n.waiters, n.live);
    RetainedContents(n.waiters, n.live);
    forall i | 0 <= i < |kept| ensures IsLive(n, kept[i]) && n.slots[n.owner[kept[i]]] == Some(kept[i]) {
      assert kept[i] in kept;
      assert IsLive(n, kept[i]);
    }
    var owners := seq(|kept|, i requires 0 <= i < |kept| => n.owner[kept[i]]);
    forall i, j | 0 <= i < j < |owners| ensures owners[i] != owners[j] {
      assert kept[i] < kept[j];
    }
    DistinctBelow(owners, |n.slots|);
  }

  lemma RegisterKeepsSlots(n: Node, c: nat)
    requires Valid(n) && OwesNothing(n) && c < |n.slots| && !n.closed && n.requests == []
    requires !(n.slots[c].Some? && n.live[n.slots[c].value])
    ensures var n' := Polled(n, c).0; SlotsOk(n') && LiveOk(n') && OwesNothing(n')
  {
    hide Retained, Bounded, NoLostWake;
    var n' := Polled(n, c).0;
    RetainedSorted(n.waiters, n.live);
    RetainedContents(n.waiters, n.live);
    var kept := if |n.waiters| >= n.waitersCap then Retained(n.waiters, n.live) else n.waiters;
    forall i | 0 <= i < |kept| ensures kept[i] < |n.live| {
      assert kept[i] in kept;
      assert kept[i] in n.waiters;
    }
    forall w: nat | IsLive(n', w)
      ensures w in n'.waiters && n'.owner[w] < |n'.slots|
              && n'.slots[n'.owner[w]] == Some(w) && n'.owner[w] !in n'.owing
    {
      if w < |n.live| {
        assert IsLive(n, w);
        assert w in kept;
      } else {
        assert n'.waiters[|kept|] == w;
      }
    }
  }

  lemma PollKeepsValid(n: Node, c: nat)
    requires Valid(n) && OwesNothing(n) && c < |n.slots|
    ensures Valid(Polled(n, c).0) && OwesNothing(Polled(n, c).0)
  {
    var n' := Polled(n, c).0;
    if n.closed || n.requests != [] {
      ReleaseKeepsValid(n, c);
    } else if n.slots[c].Some? && n.live[n.slots[c].value] {
      forall w: nat | IsLive(n', w)
        ensures n'.owner[w] !in n'.owing && w in n'.waiters && n'.slots[n'.owner[w]] == Some(w)
      {
        assert IsLive(n, w);
      }
    } else {
      RegisterKeepsSlots(n, c);
      LiveAreFew(n);
    }
  }

  lemma CloseKeepsValid(n: Node)
    requires Valid(n)
    ensures Valid(Closed(n)) && OwesNothing(Closed(n)) && !SomeoneWaits(Closed(n)) && Closed(n).waiters == []
  {
    var n' := Closed(n);
    forall w: nat ensures !IsLive(n', w) {
      if IsLive(n, w) {
        assert w in n.waiters;
      }
    }
    forall c | c in n'.owing ensures c < |n'.slots| {
      if c !in n.owing {
        var w :| w in n.waiters && w < |n.live| && n.live[w] && n.owner[w] == c;
        assert IsLive(n, w);
      }
    }
  }

  lemma PushValid(n: Node, request: nat)
    requires Valid(n) && OwesNothing(n)
    ensures Valid(Pushed(n, request).0) && OwesNothing(Pushed(n, request).0)
  {
    PushKeepsSlots(n, request);
    PushKeepsBounds(n, request);
    PushLosesNoWake(n, request);
  }

  // ---- The queue -------------------------------------------------------------------------------------

  class NodeQueue {
    var requests: seq<nat>
    const cap: nat
    var waiters: seq<nat>
    const waitersCap: nat
    var live: seq<bool>
    var owner: seq<nat>
    var slots: seq<Option<nat>>
    var closed: bool
    ghost var owing: set<nat>

    ghost function View(): Node
      reads this
    {
      Node(requests, cap, waiters, waitersCap, live, owner, slots, closed, owing)
    }

    ghost predicate Ok()
      reads this
    {
      Valid(View()) && OwesNothing(View())
    }

    constructor (connections: nat, depth: nat)
      ensures Ok() && View() == Empty(connections, depth)
    {
      requests, waiters, live, owner, closed := [], [], [], [], false;
      slots := seq(connections, i => None);
      cap := connections * depth * ROUTED_QUEUE_PIPELINES;
      waitersCap := 2 * connections + 16;
      owing := {};
      new;
      EmptyValid(connections, depth);
    }

    method Push(request: nat) returns (ok: bool)
      requires Ok()
      modifies this
      ensures Ok() && (View(), ok) == Pushed(old(View()), request)
    {
      PushValid(View(), request);
      assert |owner| == |live| && forall i | 0 <= i < |waiters| :: waiters[i] < |live|;
      hide Valid, OwesNothing;
      if |requests| >= cap {
        return false;
      }
      requests := requests + [request];
      var woken := WakeNext();
      ok := true;
    }

    /** Wake the longest-waiting live entry, dropping the dead ones before it. */
    method WakeNext() returns (woken: bool)
      requires |owner| == |live| && forall i | 0 <= i < |waiters| :: waiters[i] < |live|
      modifies this`waiters, this`live, this`owing
      ensures var k := DeadFront(old(waiters), old(live));
              if k == |old(waiters)| then !woken && waiters == [] && live == old(live) && owing == old(owing)
              else
                && woken && waiters == old(waiters)[k + 1..]
                && live == old(live)[old(waiters)[k] := false]
                && owing == old(owing) + {owner[old(waiters)[k]]}
    {
      ghost var k := 0;
      while waiters != []
        invariant k <= |old(waiters)| && waiters == old(waiters)[k..]
        invariant live == old(live) && owing == old(owing)
        invariant DeadFront(old(waiters), live) == k + DeadFront(waiters, live)
        decreases |waiters|
      {
        var w := waiters[0];
        assert w == old(waiters)[k];
        waiters := waiters[1..];
        if live[w] {
          live := live[w := false];
          owing := owing + {owner[w]};
          return true;
        }
        k := k + 1;
      }
      woken := false;
    }

    /** Connection `c` takes the oldest request. */
    method Pop(c: nat) returns (request: Option<nat>)
      requires Ok() && c < |slots|
      modifies this
      ensures Ok() && (View(), request) == Popped(old(View()), c)
    {
      PopKeepsValid(View(), c);
      owing := owing - {c};
      if requests == [] {
        return None;
      }
      request := Some(requests[0]);
      requests := requests[1..];
    }

    /** Drop the dead entries. */
    method Compact()
      requires forall i | 0 <= i < |waiters| :: waiters[i] < |live|
      modifies this`waiters
      ensures waiters == Retained(old(waiters), live)
    {
      var kept: seq<nat>, rest: seq<nat> := [], waiters;
      while rest != []
        invariant forall i | 0 <= i < |rest| :: rest[i] < |live|
        invariant kept + Retained(rest, live) == Retained(old(waiters), live)
        decreases |rest|
      {
        var w := rest[0];
        var more: seq<nat> := if live[w] then [w] else [];
        assert kept + (more + Retained(rest[1..], live)) == (kept + more) + Retained(rest[1..], live);
        kept, rest := kept + more, rest[1..];
      }
      waiters := kept;
    }

    /** Connection `c`'s wait is polled. */
    method Poll(c: nat) returns (ready: bool)
      requires Ok() && c < |slots|
      modifies this
      ensures Ok() && (View(), ready) == Polled(old(View()), c)
    {
      PollKeepsValid(View(), c);
      assert slots[c].Some? ==> slots[c].value < |live|;
      assert forall i | 0 <= i < |waiters| :: waiters[i] < |live|;
      if closed || requests != [] {
        Release(c);
        return true;
      }
      hide Valid, OwesNothing;
      owing := owing - {c};
      if slots[c].Some? && live[slots[c].value] {
        return false;
      }
      if |waiters| >= waitersCap {
        Compact();
      }
      slots := slots[c := Some(|live|)];
      waiters := waiters + [|live|];
      live := live + [true];
      owner := owner + [c];
      ready := false;
    }

    /** Connection `c`'s wait has returned or is dropped. */
    method Release(c: nat)
      requires Ok() && c < |slots|
      modifies this
      ensures Ok() && View() == Released(old(View()), c)
    {
      ReleaseKeepsValid(View(), c);
      if slots[c].Some? {
        live := live[slots[c].value := false];
        slots := slots[c := None];
      }
    }

    /** Wake every live entry, and empty the list. */
    method WakeAll()
      requires |owner| == |live| && Increasing(waiters) && forall i | 0 <= i < |waiters| :: waiters[i] < |live|
      modifies this`waiters, this`live, this`owing
      ensures waiters == [] && live == Drained(old(live), old(waiters))
      ensures owing == old(owing) + Woken(old(waiters), old(live), owner)
    {
      while waiters != []
        invariant |live| == |owner| && Increasing(waiters) && forall i | 0 <= i < |waiters| :: waiters[i] < |live|
        invariant Drained(live, waiters) == Drained(old(live), old(waiters))
        invariant owing + Woken(waiters, live, owner) == old(owing) + Woken(old(waiters), old(live), owner)
        decreases |waiters|
      {
        var w := waiters[0];
        DrainOne(waiters, live, owner);
        hide Drained, Woken, Increasing;
        waiters := waiters[1..];
        if live[w] {
          live := live[w := false];
          owing := owing + {owner[w]};
        } else {
          assert live[w := false] == live;
        }
      }
      assert Drained(live, []) == live;
      assert Woken([], live, owner) == {};
    }

    /** The dispatcher stopped. */
    method Close()
      requires Ok()
      modifies this
      ensures Ok() && View() == Closed(old(View()))
      ensures !SomeoneWaits(View()) && waiters == []
    {
      CloseKeepsValid(View());
      assert |owner| == |live| && Increasing(waiters) && forall i | 0 <= i < |waiters| :: waiters[i] < |live|;
      hide Valid, OwesNothing, SomeoneWaits, Drained, Woken;
      closed := true;
      WakeAll();
    }
  }

  /** Draining the first entry leaves the rest to be drained as before. */
  lemma DrainOne(waiters: seq<nat>, live: seq<bool>, owner: seq<nat>)
    requires waiters != [] && Increasing(waiters) && |owner| == |live|
    requires forall i | 0 <= i < |waiters| :: waiters[i] < |live|
    ensures var w, rest := waiters[0], waiters[1..];
            var live' := live[w := false];
            && Increasing(rest)
            && Drained(live', rest) == Drained(live, waiters)
            && Woken(waiters, live, owner) == Woken(rest, live', owner) + if live[w] then {owner[w]} else {}
  {
    var w, rest := waiters[0], waiters[1..];
    var live' := live[w := false];
    assert waiters == [w] + rest;
    assert w !in rest;
    if !live[w] {
      assert live' == live;
    }
    forall c | c in Woken(waiters, live, owner)
      ensures c in Woken(rest, live', owner) + if live[w] then {owner[w]} else {}
    {
      var v :| v in waiters && v < |live| && live[v] && owner[v] == c;
      assert v == w || (v in rest && live'[v]);
    }
    forall c | c in Woken(rest, live', owner) ensures c in Woken(waiters, live, owner) {
      var v :| v in rest && v < |live'| && live'[v] && owner[v] == c;
      assert v in waiters && live[v];
    }
  }

  // ---- Every run ---------------------------------------------------------------------------------------

  datatype Op =
    | Push(request: nat)
    | Pop(c: nat)
    | Poll(c: nat)
    | DropWait(c: nat)
    | Close

  predicate Possible(n: Node, op: Op) {
    (op.Pop? || op.Poll? || op.DropWait?) ==> op.c < |n.slots|
  }

  /** What an operation answers its caller. */
  datatype Reply = Queued(ok: bool) | Given(request: Option<nat>) | Awake(ready: bool) | Done

  function Apply(n: Node, op: Op): (Node, Reply)
    requires SlotsOk(n) && Possible(n, op)
  {
    match op
    case Push(request) => var (n', ok) := Pushed(n, request); (n', Queued(ok))
    case Pop(c) => var (n', request) := Popped(n, c); (n', Given(request))
    case Poll(c) => var (n', ready) := Polled(n, c); (n', Awake(ready))
    case DropWait(c) => (Released(n, c), Done)
    case Close => (Closed(n), Done)
  }

  lemma ApplyKeepsValid(n: Node, op: Op)
    requires Valid(n) && OwesNothing(n) && Possible(n, op)
    ensures var n' := Apply(n, op).0; Valid(n') && OwesNothing(n') && |n'.slots| == |n.slots| && n'.cap == n.cap
  {
    hide Valid, OwesNothing;
    match op
    case Push(request) => PushValid(n, request);
    case Pop(c) => PopKeepsValid(n, c);
    case Poll(c) => PollKeepsValid(n, c);
    case DropWait(c) => ReleaseKeepsValid(n, c);
    case Close => CloseKeepsValid(n);
  }

  /** The node after every operation, with what each of them keeps, and what each of them answered. */
  ghost function Run(n: Node, ops: seq<Op>): (r: (Node, seq<Reply>))
    requires Valid(n) && OwesNothing(n)
    requires forall i | 0 <= i < |ops| :: Possible(n, ops[i])
    ensures Valid(r.0) && OwesNothing(r.0) && |r.0.slots| == |n.slots| && r.0.cap == n.cap && |r.1| == |ops|
  {
    if ops == [] then (n, [])
    else
      var last := |ops| - 1;
      var (before, replies) := Run(n, ops[..last]);
      assert Possible(n, ops[last]);
      ApplyKeepsValid(before, ops[last]);
      var (after, reply) := Apply(before, ops[last]);
      (after, replies + [reply])
  }

  /**
   However pushes, pops, polls, dropped waits and a close interleave: while any connection waits, the queued requests
   are no more than the connections that were woken and have yet to look, and those are the node's own. A wait owns at
   most one live entry, and the list and the queue keep to their bounds.
   */
  lemma NoWakeIsLost(connections: nat, depth: nat, ops: seq<Op>)
    requires forall i | 0 <= i < |ops| :: Possible(Empty(connections, depth), ops[i])
    ensures Valid(Empty(connections, depth)) && OwesNothing(Empty(connections, depth))
    ensures var n := Run(Empty(connections, depth), ops).0;
            && (SomeoneWaits(n) ==> |n.requests| <= |n.owing| && forall c | c in n.owing :: c < connections)
            && (SomeoneWaits(n) && n.owing == {} ==> n.requests == [])
            && (forall v: nat, w: nat | IsLive(n, v) && IsLive(n, w) && n.owner[v] == n.owner[w] :: v == w)
            && |n.waiters| <= 2 * connections + 16
            && |n.requests| <= connections * depth * ROUTED_QUEUE_PIPELINES
  {
    EmptyValid(connections, depth);
    var n := Run(Empty(connections, depth), ops).0;
    forall v: nat, w: nat | IsLive(n, v) && IsLive(n, w) && n.owner[v] == n.owner[w] ensures v == w {
      assert n.slots[n.owner[v]] == Some(v) && n.slots[n.owner[w]] == Some(w);
    }
  }

  // ---- What the callers see ------------------------------------------------------------------------------

  /** The requests that pushes answered they had queued, in order. */
  function Taken(ops: seq<Op>, replies: seq<Reply>): seq<nat>
    requires |ops| == |replies|
  {
    if ops == [] then []
    else
      var last := |ops| - 1;
      Taken(ops[..last], replies[..last]) +
      if ops[last].Push? && replies[last] == Queued(true) then [ops[last].request] else []
  }

  /** The requests that pops returned, in order. */
  function Returned(replies: seq<Reply>): seq<nat> {
    if replies == [] then []
    else
      var last := |replies| - 1;
      Returned(replies[..last]) +
      if replies[last].Given? && replies[last].request.Some? then [replies[last].request.value] else []
  }

  predicate HasClosed(ops: seq<Op>) { exists i :: 0 <= i < |ops| && ops[i].Close? }

  /** What an operation must answer, given what the ones before it were and answered. */
  predicate Answers(ops: seq<Op>, replies: seq<Reply>, cap: nat, op: Op, reply: Reply)
    requires |ops| == |replies|
  {
    var taken, returned := Taken(ops, replies), Returned(replies);
    match op
    case Push(_) => reply == Queued(|taken| - |returned| < cap)
    case Pop(_) => reply == Given(if |returned| < |taken| then Some(taken[|returned|]) else None)
    case Poll(_) => reply == Awake(HasClosed(ops) || |returned| < |taken|)
    case _ => reply == Done
  }

  /** What an operation answers, and does to the queued requests. */
  lemma ApplyMoves(n: Node, op: Op)
    requires SlotsOk(n) && Possible(n, op)
    ensures var (n', reply) := Apply(n, op);
            && (n'.closed <==> n.closed || op.Close?)
            && match op
               case Push(request) =>
                 var ok := |n.requests| < n.cap;
                 reply == Queued(ok) && n'.requests == if ok then n.requests + [request] else n.requests
               case Pop(_) =>
                 if n.requests == [] then reply == Given(None) && n'.requests == []
                 else reply == Given(Some(n.requests[0])) && n'.requests == n.requests[1..]
               case Poll(_) => reply == Awake(n.closed || n.requests != []) && n'.requests == n.requests
               case _ => reply == Done && n'.requests == n.requests
  {
  }

  lemma OneMore(ops: seq<Op>, replies: seq<Reply>, op: Op, reply: Reply)
    requires |ops| == |replies|
    ensures Taken(ops + [op], replies + [reply]) ==
            Taken(ops, replies) + if op.Push? && reply == Queued(true) then [op.request] else []
    ensures Returned(replies + [reply]) ==
            Returned(replies) + if reply.Given? && reply.request.Some? then [reply.request.value] else []
  {
    assert (ops + [op])[..|ops|] == ops && (replies + [reply])[..|ops|] == replies;
  }

  lemma ApplyAnswers(n: Node, ops: seq<Op>, replies: seq<Reply>, op: Op)
    requires Valid(n) && Possible(n, op) && |ops| == |replies|
    requires Taken(ops, replies) == Returned(replies) + n.requests && (n.closed <==> HasClosed(ops))
    ensures var (n', reply) := Apply(n, op);
            && Answers(ops, replies, n.cap, op, reply)
            && Taken(ops + [op], replies + [reply]) == Returned(replies + [reply]) + n'.requests
            && (n'.closed <==> HasClosed(ops + [op]))
  {
    hide SlotsOk, LiveOk, Bounded, NoLostWake, Apply, Taken, Returned, HasClosed;
    var (n', reply) := Apply(n, op);
    ApplyMoves(n, op);
    OneMore(ops, replies, op, reply);
    OneMoreClosed(ops, op);
    var returned := Returned(replies);
    if op.Push? && reply == Queued(true) {
      assert returned + n.requests + [op.request] == returned + n'.requests;
    } else if op.Pop? && n.requests != [] {
      assert returned + n.requests == returned + [n.requests[0]] + n'.requests;
    }
  }

  lemma NothingYet()
    ensures Taken([], []) == Returned([]) == [] && !HasClosed([])
  {
  }

  lemma OneMoreClosed(ops: seq<Op>, op: Op)
    ensures HasClosed(ops + [op]) <==> HasClosed(ops) || op.Close?
  {
    var all := ops + [op];
    assert all[|ops|] == op;
    if HasClosed(ops) {
      var i :| 0 <= i < |ops| && ops[i].Close?;
      assert all[i].Close?;
    }
  }

  lemma {:induction false} RunAnswers(n: Node, ops: seq<Op>)
    requires Valid(n) && OwesNothing(n) && n.requests == [] && !n.closed
    requires forall i | 0 <= i < |ops| :: Possible(n, ops[i])
    ensures var (after, replies) := Run(n, ops);
            && Taken(ops, replies) == Returned(replies) + after.requests
            && (after.closed <==> HasClosed(ops))
            && forall i | 0 <= i < |ops| :: Answers(ops[..i], replies[..i], n.cap, ops[i], replies[i])
  {
    hide Valid, OwesNothing, Answers, Apply, Taken, Returned, HasClosed;
    if ops == [] {
      NothingYet();
    } else {
      var last := |ops| - 1;
      var (before, replies) := Run(n, ops[..last]);
      RunAnswers(n, ops[..last]);
      assert Possible(n, ops[last]) && Possible(before, ops[last]);
      ApplyAnswers(before, ops[..last], replies, ops[last]);
      assert ops == ops[..last] + [ops[last]];
      var all := Run(n, ops).1;
      assert all[..last] == replies;
      forall i | 0 <= i < |ops| ensures Answers(ops[..i], all[..i], n.cap, ops[i], all[i]) {
        if i < last {
          assert ops[..last][..i] == ops[..i] && replies[..i] == all[..i];
        }
      }
    }
  }

  /**
   A node's queue is first-in first-out to those who use it, however they interleave. A push is refused exactly when as
   many accepted requests as the queue holds have not been popped; a pop returns the oldest of those, and nothing
   exactly when there is none; a wait is ready exactly when there is one, or the queue was closed.
   */
  lemma FirstInFirstOut(connections: nat, depth: nat, ops: seq<Op>)
    requires forall i | 0 <= i < |ops| :: Possible(Empty(connections, depth), ops[i])
    ensures Valid(Empty(connections, depth)) && OwesNothing(Empty(connections, depth))
    ensures var (n, replies) := Run(Empty(connections, depth), ops);
            && Taken(ops, replies) == Returned(replies) + n.requests
            && forall i | 0 <= i < |ops| ::
                 Answers(ops[..i], replies[..i], connections * depth * ROUTED_QUEUE_PIPELINES, ops[i], replies[i])
  {
    EmptyValid(connections, depth);
    RunAnswers(Empty(connections, depth), ops);
  }
}
