/**
 The per-endpoint queues that prefill and append keys travel through, and the part of a
 connection task that moves keys between its queue and its pipeline (src/worker.rs).
 */
module KeyQueues {
  import opened Ledgers
  import opened Numbers
  import opened Options

  function PushedBack(queues: seq<seq<nat>>, e: nat, key: nat): (r: seq<seq<nat>>)
    requires e < |queues|
    ensures |r| == |queues|
  {
    queues[e := queues[e] + [key]]
  }

  function PushedFront(queues: seq<seq<nat>>, e: nat, key: nat): (r: seq<seq<nat>>)
    requires e < |queues|
    ensures |r| == |queues|
  {
    queues[e := [key] + queues[e]]
  }

  function Popped(queues: seq<seq<nat>>, e: nat): (r: seq<seq<nat>>)
    requires e < |queues| && queues[e] != []
    ensures |r| == |queues|
  {
    queues[e := queues[e][1..]]
  }

  predicate InRange(routes: seq<nat>, n: nat) {
    forall i | 0 <= i < |routes| :: routes[i] < n
  }

  /** Each key pushed to the back of the queue it is routed to, in order. */
  function Routed(queues: seq<seq<nat>>, keys: seq<nat>, routes: seq<nat>): (r: seq<seq<nat>>)
    requires |keys| == |routes| && InRange(routes, |queues|)
    ensures |r| == |queues|
  {
    if keys == [] then queues
    else
      var last := |keys| - 1;
      PushedBack(Routed(queues, keys[..last], routes[..last]), routes[last], keys[last])
  }

  function NoKeys(n: nat): seq<seq<nat>> { seq(n, i => []) }

  function Ids(start: nat, count: nat): (ids: seq<nat>)
    ensures |ids| == count && forall i | 0 <= i < count :: ids[i] == start + i
  {
    seq(count, i => start + i)
  }

  // ---- Pushing and popping move one key --------------------------------------------------------

  lemma PushTally(queues: seq<seq<nat>>, e: nat, key: nat, p: nat -> bool)
    requires e < |queues|
    ensures TallyAll(PushedBack(queues, e, key), p) == TallyAll(queues, p) + if p(key) then 1 else 0
    ensures TallyAll(PushedFront(queues, e, key), p) == TallyAll(queues, p) + if p(key) then 1 else 0
  {
    TallyUpdate(queues, e, queues[e] + [key], p);
    TallyUpdate(queues, e, [key] + queues[e], p);
    TallyConcat(queues[e], [key], p);
    TallyConcat([key], queues[e], p);
    TallyOne(key, p);
  }

  lemma PopTally(queues: seq<seq<nat>>, e: nat, p: nat -> bool)
    requires e < |queues| && queues[e] != []
    ensures TallyAll(Popped(queues, e), p) + (if p(queues[e][0]) then 1 else 0) == TallyAll(queues, p)
  {
    TallyUpdate(queues, e, queues[e][1..], p);
  }

  lemma PopThenPush(queues: seq<seq<nat>>, e: nat)
    requires e < |queues| && queues[e] != []
    ensures PushedFront(Popped(queues, e), e, queues[e][0]) == queues
  {
    assert [queues[e][0]] + queues[e][1..] == queues[e];
  }

  /** Routing keys anywhere loses and doubles none of them. */
  lemma {:induction false} RoutedTally(queues: seq<seq<nat>>, keys: seq<nat>, routes: seq<nat>, p: nat -> bool)
    requires |keys| == |routes| && InRange(routes, |queues|)
    ensures TallyAll(Routed(queues, keys, routes), p) == TallyAll(queues, p) + Tally(keys, p)
  {
    if keys != [] {
      var last := |keys| - 1;
      RoutedTally(queues, keys[..last], routes[..last], p);
      PushTally(Routed(queues, keys[..last], routes[..last]), routes[last], keys[last], p);
      TallySplit(keys, last, p);
      TallyOne(keys[last], p);
      assert keys[last..] == [keys[last]];
    }
  }

  /** Of `keys`, those that route to `e`, in order. */
  function Among(keys: seq<nat>, routes: seq<nat>, e: nat): seq<nat>
    requires |keys| == |routes|
  {
    if keys == [] then []
    else
      var last := |keys| - 1;
      Among(keys[..last], routes[..last], e) + if routes[last] == e then [keys[last]] else []
  }

  /** Routing keys puts each, in order, behind what its endpoint has queued. */
  lemma {:induction false} RoutedInOrder(queues: seq<seq<nat>>, keys: seq<nat>, routes: seq<nat>, e: nat)
    requires |keys| == |routes| && InRange(routes, |queues|) && e < |queues|
    ensures Routed(queues, keys, routes)[e] == queues[e] + Among(keys, routes, e)
  {
    if keys != [] {
      var last := |keys| - 1;
      RoutedInOrder(queues, keys[..last], routes[..last], e);
    }
  }

  /** Id `id`, of those from `start` on, is routed to `e`. */
  predicate GoesTo(id: nat, start: nat, routes: seq<nat>, e: nat) {
    start <= id < start + |routes| && routes[id - start] == e
  }

  /** `q` holds exactly the ids that are routed to `e`, in increasing order. */
  ghost predicate HoldsRouted(q: seq<nat>, start: nat, routes: seq<nat>, e: nat) {
    Increasing(q) && forall id: nat :: id in q <==> GoesTo(id, start, routes, e)
  }

  /** The keyspace partitioned: each endpoint's queue holds exactly its own ids, in increasing order. */
  lemma {:induction false} PartitionIsByRoute(n: nat, start: nat, routes: seq<nat>, e: nat)
    requires e < n && InRange(routes, n)
    ensures HoldsRouted(Routed(NoKeys(n), Ids(start, |routes|), routes)[e], start, routes, e)
    decreases |routes|
  {
    if routes != [] {
      var last := |routes| - 1;
      var shorter := routes[..last];
      PartitionIsByRoute(n, start, shorter, e);
      assert Ids(start, |routes|)[..last] == Ids(start, |shorter|);
      var before := Routed(NoKeys(n), Ids(start, |shorter|), shorter)[e];
      OneMoreRoute(before, start, routes, e);
      hide HoldsRouted;
      assert Routed(NoKeys(n), Ids(start, |routes|), routes)[e] ==
             if routes[last] == e then before + [start + last] else before;
    }
  }

  lemma OneMoreRoute(before: seq<nat>, start: nat, routes: seq<nat>, e: nat)
    requires routes != [] && HoldsRouted(before, start, routes[..|routes| - 1], e)
    ensures var last := |routes| - 1;
            HoldsRouted(if routes[last] == e then before + [start + last] else before, start, routes, e)
  {
    var last := |routes| - 1;
    var q := if routes[last] == e then before + [start + last] else before;
    forall id: nat
      ensures GoesTo(id, start, routes, e) <==>
              GoesTo(id, start, routes[..last], e) || (id == start + last && routes[last] == e)
    {
    }
    forall i | 0 <= i < |before| ensures before[i] < start + last {
      assert before[i] in before;
      assert GoesTo(before[i], start, routes[..last], e);
    }
  }

  // ---- The queues ------------------------------------------------------------------------------

  class PrefillQueues {
    var queues: seq<seq<nat>>

    constructor (num: nat)
      ensures queues == NoKeys(if num < 1 then 1 else num)
    {
      queues := NoKeys(if num < 1 then 1 else num);
    }

    method PushBack(e: nat, key: nat)
      requires e < |queues|
      modifies this
      ensures queues == PushedBack(old(queues), e, key)
    {
      queues := queues[e := queues[e] + [key]];
    }

    method PushFront(e: nat, key: nat)
      requires e < |queues|
      modifies this
      ensures queues == PushedFront(old(queues), e, key)
    {
      queues := queues[e := [key] + queues[e]];
    }

    method PopFront(e: nat) returns (key: Option<nat>)
      requires e < |queues|
      modifies this
      ensures old(queues)[e] == [] ==> key.None? && queues == old(queues)
      ensures old(queues)[e] != [] ==> key == Some(old(queues)[e][0]) && queues == Popped(old(queues), e)
    {
      if queues[e] == [] {
        return None;
      }
      key := Some(queues[e][0]);
      queues := queues[e := queues[e][1..]];
    }

    method IsEmpty(e: nat) returns (empty: bool)
      requires e < |queues|
      ensures empty == (queues[e] == [])
    {
      empty := queues[e] == [];
    }

    /** Put the `n` newest of `inFlight` back at the front of a queue, in their original order. */
    method RequeueNewest(e: nat, inFlight: seq<nat>, n: nat) returns (left: seq<nat>)
      requires e < |queues|
      modifies this
      ensures var kept := if n < |inFlight| then |inFlight| - n else 0;
              && left == inFlight[..kept]
              && queues == old(queues)[e := inFlight[kept..] + old(queues)[e]]
    {
      left := inFlight;
      assert inFlight[|inFlight|..] + queues[e] == queues[e];
      for i := 0 to n
        invariant var kept := if i < |inFlight| then |inFlight| - i else 0;
                  && left == inFlight[..kept]
                  && queues == old(queues)[e := inFlight[kept..] + old(queues)[e]]
      {
        if left != [] {
          var key := left[|left| - 1];
          left := left[..|left| - 1];
          PushFront(e, key);
          assert inFlight[|left|..] == [key] + inFlight[|left| + 1..];
          assert [key] + (inFlight[|left| + 1..] + old(queues)[e]) == inFlight[|left|..] + old(queues)[e];
        }
      }
    }

    /** Route what a lost connection had in flight again, key by key. */
    method RequeueDrained(drained: seq<nat>, routes: seq<nat>)
      requires |drained| == |routes| && InRange(routes, |queues|)
      modifies this
      ensures queues == Routed(old(queues), drained, routes)
    {
      for i := 0 to |drained|
        invariant queues == Routed(old(queues), drained[..i], routes[..i])
      {
        PushBack(routes[i], drained[i]);
        assert drained[..i + 1][..i] == drained[..i] && routes[..i + 1][..i] == routes[..i];
      }
      assert drained[..|drained|] == drained && routes[..|drained|] == routes;
    }

    /** Queue ids `start..start + |routes|`, each on the endpoint it is routed to. */
    method Enqueue(start: nat, routes: seq<nat>)
      requires InRange(routes, |queues|)
      modifies this
      ensures queues == Routed(old(queues), Ids(start, |routes|), routes)
    {
      for i := 0 to |routes|
        invariant queues == Routed(old(queues), Ids(start, i), routes[..i])
      {
        PushBack(routes[i], start + i);
        assert Ids(start, i + 1)[..i] == Ids(start, i) && routes[..i + 1][..i] == routes[..i];
      }
      assert routes[..|routes|] == routes;
    }
  }
}
