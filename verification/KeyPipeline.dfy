/**
 The part of a connection task that moves keys between its queue and its pipeline
 (src/worker.rs): the fill loop, the flush, the replies and the loss of the connection, each
 made of the moves of `KeyMoves`.
 */
module KeyPipeline {
  import opened KeyMoves
  import opened KeyQueues
  import opened Ledgers
  import opened Numbers
  import opened Options

  /** What the world answers in each turn of a fill loop: where a key routes, and who refuses it. */
  datatype World = World(
    route: (nat, nat) -> nat,
    refuses: nat -> bool,
    fails: nat -> bool)

  /** What one turn did with its key. */
  datatype Turned = HandedOn | Paced | Failed | Sent

  /** Why a fill loop ended. */
  datatype Stop = Full | Drained | Refused | SendFailed

  // ---- The loops, as moves -----------------------------------------------------------------------

  /** Every key the client dropped requeued, newest first. */
  function Requeued(queues: seq<seq<nat>>, conn: Conn): (r: (seq<seq<nat>>, Conn))
    requires ConnOk(conn, |queues|)
    ensures |r.0| == |queues| && ConnOk(r.1, |r.0|)
    decreases conn.excess
  {
    if conn.excess == 0 then (queues, conn)
    else
      ConnOkKept(queues, conn, Requeue);
      var (q, c, _) := React(queues, conn, Requeue);
      Requeued(q, c)
  }

  predicate Ready(queues: seq<seq<nat>>, conn: Conn) {
    ConnOk(conn, |queues|) && Settled(conn)
  }

  /** One turn of the fill loop. */
  function Turn(queues: seq<seq<nat>>, conn: Conn, routed: nat, refuses: bool, fails: bool)
    : (r: (seq<seq<nat>>, Conn, Turned))
    requires Ready(queues, conn) && queues[conn.endpoint] != [] && routed < |queues|
    ensures |r.0| == |queues| && Ready(r.0, r.1) && r.1.endpoint == conn.endpoint
    ensures r.2.HandedOn? || r.2.Sent? ==> |r.0[conn.endpoint]| < |queues[conn.endpoint]|
  {
    ConnOkKept(queues, conn, Take);
    var (q, c, _) := React(queues, conn, Take);
    if routed != conn.endpoint then
      (React(q, c, HandOn(routed)).0, React(q, c, HandOn(routed)).1, HandedOn)
    else if refuses then
      (React(q, c, Pace).0, React(q, c, Pace).1, Paced)
    else if fails then
      ConnOkKept(q, c, FailFire);
      var (q', c', _) := React(q, c, FailFire);
      RequeuedAll(q', c');
      (Requeued(q', c').0, Requeued(q', c').1, Failed)
    else
      ConnOkKept(q, c, Fire);
      (React(q, c, Fire).0, React(q, c, Fire).1, Sent)
  }

  /** Requeueing key by key puts back everything past the client's record, in its order. */
  lemma {:induction false} RequeuedAll(queues: seq<seq<nat>>, conn: Conn)
    requires ConnOk(conn, |queues|)
    ensures Requeued(queues, conn).0 ==
            queues[conn.endpoint := conn.inFlight[|conn.pending|..] + queues[conn.endpoint]]
    ensures Requeued(queues, conn).1 == conn.(inFlight := conn.pending, excess := 0)
    decreases conn.excess
  {
    var e, kept := conn.endpoint, |conn.pending|;
    if conn.excess == 0 {
      assert conn.inFlight[kept..] + queues[e] == queues[e];
      assert conn.inFlight[..kept] == conn.inFlight;
    } else {
      var last := |conn.inFlight| - 1;
      ConnOkKept(queues, conn, Requeue);
      var (q, c, _) := React(queues, conn, Requeue);
      RequeuedAll(q, c);
      assert conn.inFlight[kept..] == c.inFlight[kept..] + [conn.inFlight[last]];
      assert c.inFlight[kept..] + ([conn.inFlight[last]] + queues[e]) == conn.inFlight[kept..] + queues[e];
    }
  }

  /** Every route is an endpoint's. */
  ghost predicate InBounds(world: World, n: nat) {
    forall i: nat, key: nat :: world.route(i, key) < n
  }

  /** The fill loop from its `i`-th turn on: the queues and the connection it leaves, and why it ended. */
  function Filled(queues: seq<seq<nat>>, conn: Conn, depth: nat, world: World, i: nat): (r: (seq<seq<nat>>, Conn, Stop))
    requires Ready(queues, conn) && InBounds(world, |queues|)
    ensures |r.0| == |queues| && Ready(r.0, r.1) && r.1.endpoint == conn.endpoint
    decreases |queues[conn.endpoint]|
  {
    var e := conn.endpoint;
    if |conn.pending| >= depth then (queues, conn, Full)
    else if queues[e] == [] then (queues, conn, Drained)
    else
      var (q, c, turned) := Turn(queues, conn, world.route(i, queues[e][0]), world.refuses(i), world.fails(i));
      match turned
      case Paced => (q, c, Refused)
      case Failed => (q, c, SendFailed)
      case _ => Filled(q, c, depth, world, i + 1)
  }

  // ---- What a fill loop does -----------------------------------------------------------------------

  /** The keys in flight that have been flushed. */
  function Flushed(conn: Conn): seq<nat>
    requires conn.buffered <= |conn.pending| <= |conn.inFlight|
  {
    conn.inFlight[..|conn.pending| - conn.buffered]
  }

  /**
   One turn keeps what was flushed, and either sends one key more, or changes nothing in flight,
   or takes back all that was not flushed.
   */
  lemma TurnInFlight(queues: seq<seq<nat>>, conn: Conn, routed: nat, refuses: bool, fails: bool)
    requires Ready(queues, conn) && queues[conn.endpoint] != [] && routed < |queues|
    ensures var (q, c, turned) := Turn(queues, conn, routed, refuses, fails);
            && Flushed(c) == Flushed(conn)
            && (turned.Sent? ==> c.inFlight == conn.inFlight + [queues[conn.endpoint][0]])
            && (turned.Failed? ==> c.inFlight == Flushed(conn) && c.buffered == 0)
            && (turned.Paced? || turned.HandedOn? ==> c == conn)
            && (turned.HandedOn? <==> routed != conn.endpoint)
            && (turned.Paced? <==> routed == conn.endpoint && refuses)
            && (turned.Failed? <==> routed == conn.endpoint && !refuses && fails)
  {
    ConnOkKept(queues, conn, Take);
    var (q, c, _) := React(queues, conn, Take);
    if routed == conn.endpoint && !refuses && fails {
      ConnOkKept(q, c, FailFire);
      RequeuedAll(React(q, c, FailFire).0, React(q, c, FailFire).1);
    }
  }

  /** Where the key stays here, the pipeline followed by the queue is what it was, sent or put back. */
  lemma TurnInOrder(queues: seq<seq<nat>>, conn: Conn, refuses: bool, fails: bool)
    requires Ready(queues, conn) && queues[conn.endpoint] != []
    ensures var (q, c, _) := Turn(queues, conn, conn.endpoint, refuses, fails);
            c.inFlight + q[conn.endpoint] == conn.inFlight + queues[conn.endpoint]
  {
    hide Requeued;
    var e := conn.endpoint;
    var key := queues[e][0];
    assert queues[e] == [key] + queues[e][1..];
    ConnOkKept(queues, conn, Take);
    var (q, c, _) := React(queues, conn, Take);
    if !refuses && fails {
      ConnOkKept(q, c, FailFire);
      var (q', c', _) := React(q, c, FailFire);
      RequeuedAll(q', c');
      assert conn.inFlight == c'.pending + conn.inFlight[|c'.pending|..];
    }
  }

  /** Why the loop ended, and what is in flight then: everything sent, or only what was flushed before a failed send. */
  lemma {:induction false} FillStops(queues: seq<seq<nat>>, conn: Conn, depth: nat, world: World, i: nat)
    requires Ready(queues, conn) && InBounds(world, |queues|)
    ensures var (q, c, stop) := Filled(queues, conn, depth, world, i);
            && Flushed(c) == Flushed(conn)
            && match stop
               case Full => |c.pending| == Max(depth, |conn.pending|)
               case Drained => q[conn.endpoint] == [] && |c.pending| < depth
               case Refused => q[conn.endpoint] != [] && exists j: nat :: j >= i && world.refuses(j)
               case SendFailed =>
                 c.inFlight == Flushed(conn) && c.buffered == 0 && exists j: nat :: j >= i && world.fails(j)
    ensures var (_, c, stop) := Filled(queues, conn, depth, world, i);
            stop != SendFailed ==> conn.inFlight <= c.inFlight
    decreases |queues[conn.endpoint]|
  {
    var e := conn.endpoint;
    if |conn.pending| < depth && queues[e] != [] {
      var routed := world.route(i, queues[e][0]);
      TurnInFlight(queues, conn, routed, world.refuses(i), world.fails(i));
      var (q, c, turned) := Turn(queues, conn, routed, world.refuses(i), world.fails(i));
      if turned.HandedOn? || turned.Sent? {
        FillStops(q, c, depth, world, i + 1);
      } else if turned.Paced? {
        assert q == queues by { PopThenPush(queues, e); }
      }
    }
  }

  /** Where no key moved endpoint, the pipeline followed by the queue is what it was, sends failed or not. */
  lemma {:induction false} FillInOrder(queues: seq<seq<nat>>, conn: Conn, depth: nat, world: World, i: nat)
    requires Ready(queues, conn) && InBounds(world, |queues|)
    requires forall j: nat, key: nat :: world.route(j, key) == conn.endpoint
    ensures var (q, c, _) := Filled(queues, conn, depth, world, i);
            c.inFlight + q[conn.endpoint] == conn.inFlight + queues[conn.endpoint]
    decreases |queues[conn.endpoint]|
  {
    var e := conn.endpoint;
    if |conn.pending| < depth && queues[e] != [] {
      TurnInOrder(queues, conn, world.refuses(i), world.fails(i));
      var (q, c, turned) := Turn(queues, conn, e, world.refuses(i), world.fails(i));
      if turned.HandedOn? || turned.Sent? {
        FillInOrder(q, c, depth, world, i + 1);
      }
    }
  }

  /** Of `keys`, taken in the turns from `i` on, those that route to endpoint `e` in their turn. */
  function RoutedTo(world: World, keys: seq<nat>, i: nat, e: nat): seq<nat> {
    if keys == [] then []
    else (if world.route(i, keys[0]) == e then [keys[0]] else []) + RoutedTo(world, keys[1..], i + 1, e)
  }

  /** The loop got past the first `n` keys of its queue. */
  ghost predicate RoutedFor(
    q0: seq<seq<nat>>, c0: Conn, q1: seq<seq<nat>>, c1: Conn, world: World, i: nat, n: nat)
    requires |q0| == |q1| && c0.endpoint < |q0|
  {
    var e, mine := c0.endpoint, q0[c0.endpoint];
    && n <= |mine|
    && (forall to | 0 <= to < |q0| && to != e :: q1[to] == q0[to] + RoutedTo(world, mine[..n], i, to))
    && c1.inFlight + q1[e] == c0.inFlight + RoutedTo(world, mine[..n], i, e) + mine[n..]
  }

  ghost predicate SentWhereRouted(q0: seq<seq<nat>>, c0: Conn, q1: seq<seq<nat>>, c1: Conn, world: World, i: nat)
    requires |q0| == |q1| && c0.endpoint < |q0|
  {
    exists n: nat :: RoutedFor(q0, c0, q1, c1, world, i, n)
  }

  /** A turn hands its key to the endpoint it routes to, behind what is queued there, and touches no other queue. */
  lemma TurnRoutes(queues: seq<seq<nat>>, conn: Conn, routed: nat, refuses: bool, fails: bool)
    requires Ready(queues, conn) && queues[conn.endpoint] != [] && routed < |queues|
    ensures var (q, c, turned) := Turn(queues, conn, routed, refuses, fails);
            var e, key := conn.endpoint, queues[conn.endpoint][0];
            && (forall to | 0 <= to < |queues| && to != e ::
                  q[to] == if to == routed then queues[to] + [key] else queues[to])
            && (turned.HandedOn? || turned.Sent? ==> q[e] == queues[e][1..])
  {
    hide Requeued;
    ConnOkKept(queues, conn, Take);
    var (q, c, _) := React(queues, conn, Take);
    if routed == conn.endpoint && !refuses && fails {
      ConnOkKept(q, c, FailFire);
      RequeuedAll(React(q, c, FailFire).0, React(q, c, FailFire).1);
    }
  }

  /**
   Whatever moves, is refused or fails: of the keys the loop gets past, each that routes elsewhere in its turn is put
   behind what is queued where it routes, in order, and the others, sent or put back, and the rest of the queue keep
   their order.
   */
  lemma {:induction false} FillRoutes(queues: seq<seq<nat>>, conn: Conn, depth: nat, world: World, i: nat)
    requires Ready(queues, conn) && InBounds(world, |queues|)
    ensures var (q, c, _) := Filled(queues, conn, depth, world, i);
            SentWhereRouted(queues, conn, q, c, world, i)
    decreases |queues[conn.endpoint]|
  {
    var e, mine := conn.endpoint, queues[conn.endpoint];
    var (q', c', _) := Filled(queues, conn, depth, world, i);
    if |conn.pending| >= depth || mine == [] {
      NonePast(queues, conn, q', c', world, i);
    } else {
      var routed := world.route(i, mine[0]);
      var (q, c, turned) := Turn(queues, conn, routed, world.refuses(i), world.fails(i));
      TurnRoutes(queues, conn, routed, world.refuses(i), world.fails(i));
      TurnInFlight(queues, conn, routed, world.refuses(i), world.fails(i));
      if turned.HandedOn? || turned.Sent? {
        FillRoutes(q, c, depth, world, i + 1);
        var n :| RoutedFor(q, c, q', c', world, i + 1, n);
        OnePast(queues, conn, q, c, q', c', world, i, n);
      } else {
        TurnInOrder(queues, conn, world.refuses(i), world.fails(i));
        NonePast(queues, conn, q', c', world, i);
      }
    }
  }

  lemma NonePast(queues: seq<seq<nat>>, conn: Conn, q: seq<seq<nat>>, c: Conn, world: World, i: nat)
    requires |q| == |queues| && conn.endpoint < |q|
    requires forall to | 0 <= to < |q| && to != conn.endpoint :: q[to] == queues[to]
    requires c.inFlight + q[conn.endpoint] == conn.inFlight + queues[conn.endpoint]
    ensures SentWhereRouted(queues, conn, q, c, world, i)
  {
    var mine := queues[conn.endpoint];
    assert mine[..0] == [] && mine[0..] == mine;
    assert conn.inFlight + [] + mine == conn.inFlight + mine;
    assert RoutedFor(queues, conn, q, c, world, i, 0);
  }

  /** One key past, and then the loop from there. */
  lemma OnePast(
    q0: seq<seq<nat>>, c0: Conn, q1: seq<seq<nat>>, c1: Conn, q2: seq<seq<nat>>, c2: Conn, world: World, i: nat, n: nat)
    requires |q0| == |q1| == |q2| && c0.endpoint == c1.endpoint < |q0| && q0[c0.endpoint] != []
    requires RoutedFor(q1, c1, q2, c2, world, i + 1, n)
    requires q1[c0.endpoint] == q0[c0.endpoint][1..]
    requires var e, key := c0.endpoint, q0[c0.endpoint][0];
             && (forall to | 0 <= to < |q0| && to != e ::
                   q1[to] == if to == world.route(i, key) then q0[to] + [key] else q0[to])
             && c1.inFlight == if world.route(i, key) == e then c0.inFlight + [key] else c0.inFlight
    ensures RoutedFor(q0, c0, q2, c2, world, i, n + 1)
  {
    hide RoutedTo;
    var e, mine := c0.endpoint, q0[c0.endpoint];
    var key, rest := mine[0], mine[1..];
    assert mine[..n + 1] == [key] + rest[..n] && mine[n + 1..] == rest[n..];
    forall to | 0 <= to < |q0| && to != e ensures q2[to] == q0[to] + RoutedTo(world, mine[..n + 1], i, to) {
      RoutedBehind(world, key, rest[..n], i, to, q0[to]);
    }
    RoutedBehind(world, key, rest[..n], i, e, c0.inFlight);
  }

  lemma RoutedBehind(world: World, key: nat, rest: seq<nat>, i: nat, to: nat, before: seq<nat>)
    ensures before + RoutedTo(world, [key] + rest, i, to) ==
            (if world.route(i, key) == to then before + [key] else before) + RoutedTo(world, rest, i + 1, to)
  {
    assert ([key] + rest)[1..] == rest;
  }

  /** With nothing in its way the loop sends, in order, as many keys as the queue has and the pipeline has room for. */
  lemma FillSendsAllItCan(queues: seq<seq<nat>>, conn: Conn, depth: nat, world: World)
    requires Ready(queues, conn) && InBounds(world, |queues|) && |conn.pending| <= depth
    requires forall j: nat, key: nat :: world.route(j, key) == conn.endpoint
    requires forall j: nat :: !world.refuses(j) && !world.fails(j)
    ensures var (q, c, _) := Filled(queues, conn, depth, world, 0);
            var room, mine := depth - |conn.pending|, queues[conn.endpoint];
            var n := if room < |mine| then room else |mine|;
            c.inFlight == conn.inFlight + mine[..n] && q[conn.endpoint] == mine[n..]
  {
    var (q, c, stop) := Filled(queues, conn, depth, world, 0);
    var mine := queues[conn.endpoint];
    FillStops(queues, conn, depth, world, 0);
    FillInOrder(queues, conn, depth, world, 0);
    var n := |c.inFlight| - |conn.inFlight|;
    assert c.inFlight + q[conn.endpoint] == conn.inFlight + mine;
    assert c.inFlight == (c.inFlight + q[conn.endpoint])[..|c.inFlight|];
    assert q[conn.endpoint] == (c.inFlight + q[conn.endpoint])[|c.inFlight|..];
    assert (conn.inFlight + mine)[..|c.inFlight|] == conn.inFlight + mine[..n];
    assert (conn.inFlight + mine)[|c.inFlight|..] == mine[n..];
  }

  // ---- No key is lost or doubled ---------------------------------------------------------------------

  /** Queues and connection hold the same keys, each as often. */
  ghost predicate SameKeys(q0: seq<seq<nat>>, c0: Conn, q1: seq<seq<nat>>, c1: Conn) {
    forall p: nat -> bool :: TallyAll(q1, p) + Tally(Held(c1), p) == TallyAll(q0, p) + Tally(Held(c0), p)
  }

  lemma SameKeysThrough(q0: seq<seq<nat>>, c0: Conn, q1: seq<seq<nat>>, c1: Conn, q2: seq<seq<nat>>, c2: Conn)
    requires SameKeys(q0, c0, q1, c1) && SameKeys(q1, c1, q2, c2)
    ensures SameKeys(q0, c0, q2, c2)
  {
    hide Tally, TallyAll, Held;
  }

  /** A move that confirms nothing keeps every key. */
  lemma MoveKeepsKeys(queues: seq<seq<nat>>, conn: Conn, m: Move)
    requires ConnOk(conn, |queues|) && CanMove(queues, conn, m) && !m.Confirm?
    ensures SameKeys(queues, conn, React(queues, conn, m).0, React(queues, conn, m).1)
  {
    var (q, c, acked) := React(queues, conn, m);
    assert acked == [];
    forall p: nat -> bool ensures TallyAll(q, p) + Tally(Held(c), p) == TallyAll(queues, p) + Tally(Held(conn), p) {
      MoveBalance(queues, conn, m, p);
      TallyNothing(p);
    }
  }

  lemma {:induction false} RequeuedKeepsKeys(queues: seq<seq<nat>>, conn: Conn)
    requires ConnOk(conn, |queues|)
    ensures SameKeys(queues, conn, Requeued(queues, conn).0, Requeued(queues, conn).1)
    decreases conn.excess
  {
    if conn.excess > 0 {
      ConnOkKept(queues, conn, Requeue);
      var (q, c, _) := React(queues, conn, Requeue);
      MoveKeepsKeys(queues, conn, Requeue);
      RequeuedKeepsKeys(q, c);
      hide SameKeys;
      SameKeysThrough(queues, conn, q, c, Requeued(q, c).0, Requeued(q, c).1);
    }
  }

  lemma TurnKeepsKeys(queues: seq<seq<nat>>, conn: Conn, routed: nat, refuses: bool, fails: bool)
    requires Ready(queues, conn) && queues[conn.endpoint] != [] && routed < |queues|
    ensures var (q, c, _) := Turn(queues, conn, routed, refuses, fails); SameKeys(queues, conn, q, c)
  {
    hide SameKeys;
    ConnOkKept(queues, conn, Take);
    MoveKeepsKeys(queues, conn, Take);
    var (q, c, _) := React(queues, conn, Take);
    var m := if routed != conn.endpoint then HandOn(routed)
             else if refuses then Pace
             else if fails then FailFire
             else Fire;
    ConnOkKept(q, c, m);
    MoveKeepsKeys(q, c, m);
    var (q', c', _) := React(q, c, m);
    SameKeysThrough(queues, conn, q, c, q', c');
    if m.FailFire? {
      RequeuedKeepsKeys(q', c');
      SameKeysThrough(queues, conn, q', c', Requeued(q', c').0, Requeued(q', c').1);
    }
  }

  /** Whatever routes change, pacers refuse and sends fail, a fill loop loses and doubles no key. */
  lemma {:induction false} FillKeepsKeys(queues: seq<seq<nat>>, conn: Conn, depth: nat, world: World, i: nat)
    requires Ready(queues, conn) && InBounds(world, |queues|)
    ensures var (q, c, _) := Filled(queues, conn, depth, world, i); SameKeys(queues, conn, q, c)
    decreases |queues[conn.endpoint]|
  {
    var e := conn.endpoint;
    if |conn.pending| < depth && queues[e] != [] {
      var routed := world.route(i, queues[e][0]);
      TurnKeepsKeys(queues, conn, routed, world.refuses(i), world.fails(i));
      var (q, c, turned) := Turn(queues, conn, routed, world.refuses(i), world.fails(i));
      if turned.HandedOn? || turned.Sent? {
        FillKeepsKeys(q, c, depth, world, i + 1);
        var (q', c', _) := Filled(q, c, depth, world, i + 1);
        hide SameKeys;
        SameKeysThrough(queues, conn, q, c, q', c');
      }
    }
  }

  // ---- A lost connection -----------------------------------------------------------------------------

  /** Everything a lost connection had, routed again key by key. */
  function Rerouted(queues: seq<seq<nat>>, conn: Conn, routes: seq<nat>): (r: (seq<seq<nat>>, Conn))
    requires conn.endpoint < |queues| && conn.buffered <= |conn.pending|
    requires |routes| == |conn.draining| && InRange(routes, |queues|)
    decreases |routes|
  {
    if routes == [] then (queues, conn)
    else
      var (q, c, _) := React(queues, conn, Reroute(routes[0]));
      Rerouted(q, c, routes[1..])
  }

  /** Routing the drained keys one by one is routing all of them. */
  lemma {:induction false} ReroutedAll(queues: seq<seq<nat>>, conn: Conn, routes: seq<nat>)
    requires conn.endpoint < |queues| && conn.buffered <= |conn.pending|
    requires |routes| == |conn.draining| && InRange(routes, |queues|)
    ensures Rerouted(queues, conn, routes) == (Routed(queues, conn.draining, routes), conn.(draining := []))
    decreases |routes|
  {
    if routes != [] {
      var (q, c, _) := React(queues, conn, Reroute(routes[0]));
      ReroutedAll(q, c, routes[1..]);
      RoutedFirst(queues, conn.draining, routes);
    }
  }

  lemma {:induction false} RoutedFirst(queues: seq<seq<nat>>, keys: seq<nat>, routes: seq<nat>)
    requires |keys| == |routes| && keys != [] && InRange(routes, |queues|)
    ensures Routed(queues, keys, routes) == Routed(PushedBack(queues, routes[0], keys[0]), keys[1..], routes[1..])
    decreases |keys|
  {
    var last := |keys| - 1;
    if last > 0 {
      RoutedFirst(queues, keys[..last], routes[..last]);
      assert keys[..last][1..] == keys[1..][..last - 1] && routes[..last][1..] == routes[1..][..last - 1];
    } else {
      assert keys[..0] == [] && routes[..0] == [];
      assert keys[1..] == [] && routes[1..] == [];
    }
  }

  // ---- The object ------------------------------------------------------------------------------------

  /**
   One connection's keys: `inFlight` is the connection's own record, `pending` the client's unanswered
   requests, of which the newest `buffered` are not yet flushed.
   */
  class Pipeline {
    const endpoint: nat
    var inFlight: seq<nat>
    var pending: seq<nat>
    var buffered: nat

    /** The connection, with nothing half done. */
    ghost function View(): (conn: Conn)
      reads this
      ensures Settled(conn)
    {
      Conn(endpoint, None, inFlight, pending, buffered, 0, [])
    }

    ghost predicate Valid(queues: PrefillQueues)
      reads this, queues
    {
      Ready(queues.queues, View())
    }

    constructor (endpoint: nat)
      ensures this.endpoint == endpoint && View() == Fresh(endpoint)
    {
      this.endpoint := endpoint;
      inFlight, pending, buffered := [], [], 0;
    }

    /** The client refuses a request or a flush: it drops everything it had buffered. */
    method Discard() returns (discarded: nat)
      requires buffered <= |pending|
      modifies this
      ensures inFlight == old(inFlight) && buffered == 0 && discarded == old(buffered)
      ensures pending == old(pending)[..|old(pending)| - old(buffered)]
    {
      discarded := buffered;
      pending := pending[..|pending| - buffered];
      buffered := 0;
    }

    /** One key through the fill loop: handed on, put back, refused with all that was buffered, or sent. */
    method Advance(queues: PrefillQueues, routed: nat, refuses: bool, fails: bool) returns (turned: Turned)
      requires Valid(queues) && queues.queues[endpoint] != [] && routed < |queues.queues|
      modifies this, queues
      ensures (queues.queues, View(), turned) == Turn(old(queues.queues), old(View()), routed, refuses, fails)
      ensures Valid(queues)
    {
      ghost var q0, c0 := queues.queues, View();
      ConnOkKept(q0, c0, Take);
      ghost var q1, c1 := React(q0, c0, Take).0, React(q0, c0, Take).1;
      var next := queues.PopFront(endpoint);
      var key := next.value;
      if routed != endpoint {
        queues.PushBack(routed, key);
        return HandedOn;
      }
      if refuses {
        queues.PushFront(endpoint, key);
        return Paced;
      }
      if fails {
        ConnOkKept(q1, c1, FailFire);
        RequeuedAll(React(q1, c1, FailFire).0, React(q1, c1, FailFire).1);
        queues.PushFront(endpoint, key);
        var discarded := Discard();
        inFlight := queues.RequeueNewest(endpoint, inFlight, discarded);
        return Failed;
      }
      pending := pending + [key];
      buffered := buffered + 1;
      inFlight := inFlight + [key];
      turned := Sent;
    }

    /**
     The fill loop: take keys from the endpoint's queue, hand on the ones that moved, send the
     others until the pipeline is full, the pacer refuses or a send fails.
     */
    method Fill(queues: PrefillQueues, depth: nat, world: World) returns (stop: Stop)
      requires Valid(queues) && InBounds(world, |queues.queues|)
      modifies this, queues
      ensures (queues.queues, View(), stop) == Filled(old(queues.queues), old(View()), depth, world, 0)
      ensures Valid(queues) && |queues.queues| == |old(queues.queues)|
    {
      hide Turn;
      var i := 0;
      while |pending| < depth
        invariant Valid(queues) && |queues.queues| == |old(queues.queues)|
        invariant Filled(queues.queues, View(), depth, world, i) ==
                  Filled(old(queues.queues), old(View()), depth, world, 0)
        decreases |queues.queues[endpoint]|
      {
        var empty := queues.IsEmpty(endpoint);
        if empty {
          return Drained;
        }
        var routed := world.route(i, queues.queues[endpoint][0]);
        var turned := Advance(queues, routed, world.refuses(i), world.fails(i));
        match turned {
          case Paced => return Refused;
          case Failed => return SendFailed;
          case _ =>
        }
        i := i + 1;
      }
      stop := Full;
    }

    /** Send what is buffered; a failed flush puts the dropped keys back in front of the queue. */
    method Flush(queues: PrefillQueues, fails: bool)
      requires Valid(queues)
      modifies this, queues
      ensures !fails ==> (queues.queues, View(), []) == React(old(queues.queues), old(View()), Move.Flush)
      ensures fails ==>
                (queues.queues, View()) ==
                Requeued(old(queues.queues), React(old(queues.queues), old(View()), FailFlush).1)
      ensures Valid(queues) && buffered == 0
      // A failed one puts what was not flushed back in front of the queue, in order.
      ensures fails ==>
                && pending == inFlight == Flushed(old(View()))
                && inFlight + queues.queues[endpoint] == old(inFlight) + old(queues.queues)[endpoint]
                && queues.queues == old(queues.queues)[endpoint := queues.queues[endpoint]]
    {
      if fails {
        ConnOkKept(queues.queues, View(), FailFlush);
        RequeuedAll(queues.queues, React(queues.queues, View(), FailFlush).1);
        var discarded := Discard();
        inFlight := queues.RequeueNewest(endpoint, inFlight, discarded);
      } else {
        buffered := 0;
      }
    }

    /** A reply: confirm the oldest key, or queue it again. */
    method Reply(queues: PrefillQueues, success: bool) returns (confirmed: Option<nat>)
      requires Valid(queues) && buffered == 0 && pending != []
      modifies this, queues
      ensures var (q, c, acked) := React(old(queues.queues), old(View()), if success then Confirm else Refuse);
              && (queues.queues, View()) == (q, c)
              && acked == (if confirmed.Some? then [confirmed.value] else [])
      ensures Valid(queues)
      // The oldest key is confirmed, or goes to the end of its queue.
      ensures inFlight == old(inFlight)[1..] && confirmed == if success then Some(old(inFlight)[0]) else None
      ensures queues.queues ==
              if success then old(queues.queues)
              else old(queues.queues)[endpoint := old(queues.queues)[endpoint] + [old(inFlight)[0]]]
    {
      ConnOkKept(queues.queues, View(), if success then Confirm else Refuse);
      pending := pending[1..];
      var key := inFlight[0];
      inFlight := inFlight[1..];
      if success {
        confirmed := Some(key);
      } else {
        confirmed := None;
        queues.PushBack(endpoint, key);
      }
    }

    /** The connection is lost: every key in flight is routed again, `routes[i]` being where the `i`-th goes now. */
    method Lose(queues: PrefillQueues, routes: seq<nat>)
      requires Valid(queues) && buffered == 0 && |routes| == |inFlight| && InRange(routes, |queues.queues|)
      modifies this, queues
      ensures (queues.queues, View()) ==
              Rerouted(old(queues.queues), React(old(queues.queues), old(View()), Move.Lose).1, routes)
      // Each key goes, in order, to the end of the queue where it routes now.
      ensures inFlight == pending == [] && |queues.queues| == |old(queues.queues)|
      ensures forall e | 0 <= e < |queues.queues| ::
                queues.queues[e] == old(queues.queues)[e] + Among(old(inFlight), routes, e)
    {
      forall e | 0 <= e < |queues.queues|
        ensures Routed(queues.queues, inFlight, routes)[e] == queues.queues[e] + Among(inFlight, routes, e)
      {
        RoutedInOrder(queues.queues, inFlight, routes, e);
      }
      ReroutedAll(queues.queues, React(queues.queues, View(), Move.Lose).1, routes);
      queues.RequeueDrained(inFlight, routes);
      inFlight, pending := [], [];
    }
  }
}
