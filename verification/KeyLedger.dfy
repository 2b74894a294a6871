/**
 Prefill and append as a whole: the queues, any number of connections and the runner that
 fills the queues and watches the counters, interleaved in every way they can be.

 An event touches the shared queues or counters once. A key is routed by a table that may
 change between any two events, so a route is whatever the event says. Prefill is the machine
 started with its one batch already queued; the append stream opens batch after batch.
 */
module KeyLedger {
  import opened KeyMoves
  import opened KeyQueues
  import opened Ledgers

  /** What the runner is doing about the current batch. */
  datatype Runner = Between | Enqueuing(next: nat) | Open

  datatype Ledger = Ledger(
    queues: seq<seq<nat>>,
    conns: seq<Conn>,
    confirmed: nat,
    total: nat,
    runner: Runner,
    batch: nat,
    nextId: nat,
    head: nat,
    // What has happened, which no code reads: where the ids start, and the SETs the server acknowledged.
    first: nat,
    acked: seq<nat>)

  datatype Event =
    | OnConn(c: nat, m: Move)
    | BatchOpened
    | IdQueued(to: nat)
    | BatchCounted
    | BatchCommitted

  function Idle(endpoints: seq<nat>): seq<Conn> {
    seq(|endpoints|, i requires 0 <= i < |endpoints| => Fresh(endpoints[i]))
  }

  /** Prefill: every id is queued and counted before the first worker starts. */
  function Prefill(n: nat, endpoints: seq<nat>, routes: seq<nat>): Ledger
    requires InRange(routes, n)
  {
    Ledger(Routed(NoKeys(n), Ids(0, |routes|), routes), Idle(endpoints),
           0, |routes|, Open, |routes|, |routes|, 0, 0, [])
  }

  /** The append stream over a keyspace whose ids below `first` are already written. */
  function Append(n: nat, endpoints: seq<nat>, first: nat, batch: nat): Ledger {
    Ledger(NoKeys(n), Idle(endpoints), 0, 0, Between, batch, first, first, first, [])
  }

  // ---- What each event does --------------------------------------------------------------------

  predicate Enabled(s: Ledger, e: Event) {
    match e
    case OnConn(c, m) => c < |s.conns| && CanMove(s.queues, s.conns[c], m)
    case BatchOpened => s.runner.Between?
    case IdQueued(to) => s.runner.Enqueuing? && s.runner.next < s.nextId + s.batch && to < |s.queues|
    case BatchCounted => s.runner.Enqueuing? && s.runner.next == s.nextId + s.batch
    case BatchCommitted => s.runner.Open? && s.confirmed >= s.total
  }

  function Apply(s: Ledger, e: Event): Ledger
    requires Enabled(s, e)
  {
    match e
    case OnConn(c, m) =>
      var (queues, conn, acked) := React(s.queues, s.conns[c], m);
      s.(queues := queues, conns := s.conns[c := conn],
         confirmed := s.confirmed + |acked|, acked := s.acked + acked)
    case BatchOpened => s.(runner := Enqueuing(s.nextId))
    case IdQueued(to) => s.(queues := PushedBack(s.queues, to, s.runner.next), runner := Enqueuing(s.runner.next + 1))
    case BatchCounted => s.(total := s.total + s.batch, nextId := s.nextId + s.batch, runner := Open)
    case BatchCommitted => s.(head := s.nextId, runner := Between)
  }

  predicate Legal(s: Ledger, events: seq<Event>)
    decreases events
  {
    events == [] || (Enabled(s, events[0]) && Legal(Apply(s, events[0]), events[1..]))
  }

  function After(s: Ledger, events: seq<Event>): Ledger
    requires Legal(s, events)
    decreases events
  {
    if events == [] then s else After(Apply(s, events[0]), events[1..])
  }

  // ---- A connection's record is its client's -------------------------------------------------------

  predicate Shape(s: Ledger) {
    && (forall c | 0 <= c < |s.conns| :: ConnOk(s.conns[c], |s.queues|))
    && (s.runner.Enqueuing? ==> s.nextId <= s.runner.next <= s.nextId + s.batch)
  }

  lemma ShapeKept(s: Ledger, e: Event)
    requires Shape(s) && Enabled(s, e)
    ensures Shape(Apply(s, e))
  {
    if e.OnConn? {
      ConnOkKept(s.queues, s.conns[e.c], e.m);
    }
    hide React, CanMove, ConnOk;
  }

  // ---- Where a key is ------------------------------------------------------------------------------

  ghost function AllHeld(conns: seq<Conn>): (h: seq<seq<nat>>)
    ensures |h| == |conns| && forall i | 0 <= i < |h| :: h[i] == Held(conns[i])
  {
    seq(|conns|, i requires 0 <= i < |conns| => Held(conns[i]))
  }

  /** How often key `n` waits in a queue or at a connection. */
  ghost function Waiting(s: Ledger, n: nat): nat {
    TallyAll(s.queues, Is(n)) + TallyAll(AllHeld(s.conns), Is(n))
  }

  /** The ids put into the queues so far are those from `first` to here. */
  function Issued(s: Ledger): nat {
    if s.runner.Enqueuing? then s.runner.next else s.nextId
  }

  ghost predicate Conserved(s: Ledger) {
    && (forall n: nat :: Waiting(s, n) + Tally(s.acked, Is(n)) == if s.first <= n < Issued(s) then 1 else 0)
    && s.confirmed == |s.acked|
    && s.first <= s.head <= s.nextId
    && s.total == s.nextId - s.first
    && (forall n: nat | s.first <= n < s.head :: Tally(s.acked, Is(n)) == 1)
    && s.nextId == s.head + if s.runner.Open? then s.batch else 0
  }

  lemma HeldTally(conns: seq<Conn>, c: nat, conn: Conn, n: nat)
    requires c < |conns|
    ensures TallyAll(AllHeld(conns[c := conn]), Is(n)) ==
            TallyAll(AllHeld(conns), Is(n)) - Tally(Held(conns[c]), Is(n)) + Tally(Held(conn), Is(n))
  {
    TallyUpdate(AllHeld(conns), c, Held(conn), Is(n));
    assert AllHeld(conns[c := conn]) == AllHeld(conns)[c := Held(conn)];
  }

  predicate OfRunner(e: Event) { !e.OnConn? }

  lemma Balance(s: Ledger, e: Event, n: nat)
    requires Shape(s) && Enabled(s, e)
    ensures var s' := Apply(s, e);
            Waiting(s', n) + Tally(s'.acked, Is(n)) ==
              Waiting(s, n) + Tally(s.acked, Is(n)) + if e.IdQueued? && s.runner.next == n then 1 else 0
  {
    hide React, CanMove, Held;
    if e.IdQueued? {
      PushTally(s.queues, e.to, s.runner.next, Is(n));
    } else if e.OnConn? {
      var (queues, conn, acked) := React(s.queues, s.conns[e.c], e.m);
      MoveBalance(s.queues, s.conns[e.c], e.m, Is(n));
      HeldTally(s.conns, e.c, conn, n);
      TallyConcat(s.acked, acked, Is(n));
    }
  }

  /** Once as many keys are confirmed as were counted, every counted key was acknowledged, once, and none waits. */
  lemma CountersSettle(s: Ledger)
    requires Conserved(s) && !s.runner.Enqueuing? && s.confirmed >= s.total
    ensures forall n: nat :: Waiting(s, n) == 0 && Tally(s.acked, Is(n)) == if s.first <= n < s.nextId then 1 else 0
  {
    var all := Range(s.first, s.nextId);
    forall n: nat ensures Tally(s.acked, Is(n)) <= 1 {
      assert Waiting(s, n) + Tally(s.acked, Is(n)) <= 1;
    }
    forall n | n in s.acked ensures n in all {
      TallyZero(s.acked, Is(n));
      assert Is(n)(n);
      assert Waiting(s, n) + Tally(s.acked, Is(n)) > 0;
    }
    NamesFill(s.acked, all);
    forall n: nat ensures Waiting(s, n) == 0 && Tally(s.acked, Is(n)) == if s.first <= n < s.nextId then 1 else 0 {
      assert Waiting(s, n) + Tally(s.acked, Is(n)) == if s.first <= n < s.nextId then 1 else 0;
      if s.first <= n < s.nextId {
        assert n in all;
      }
    }
  }

  /** The counters meet exactly when no counted key waits. */
  lemma SettledExactly(s: Ledger)
    requires Conserved(s) && !s.runner.Enqueuing?
    ensures s.confirmed >= s.total <==> forall n: nat :: Waiting(s, n) == 0
  {
    var all := Range(s.first, s.nextId);
    if s.confirmed >= s.total {
      CountersSettle(s);
    }
    if forall n: nat :: Waiting(s, n) == 0 {
      forall n | n in all ensures n in s.acked {
        TallyZero(s.acked, Is(n));
        assert Waiting(s, n) == 0;
      }
      NamesCover(s.acked, all);
    }
  }

  function Range(lo: nat, hi: nat): (r: set<nat>)
    requires lo <= hi
    ensures |r| == hi - lo && forall n: nat :: n in r <==> lo <= n < hi
    decreases hi
  {
    if lo == hi then {} else Range(lo, hi - 1) + {hi - 1}
  }

  lemma Grows(s: Ledger, e: Event, n: nat)
    requires Enabled(s, e)
    ensures Tally(s.acked, Is(n)) <= Tally(Apply(s, e).acked, Is(n))
  {
    if e.OnConn? {
      TallyConcat(s.acked, React(s.queues, s.conns[e.c], e.m).2, Is(n));
    }
  }

  lemma ConservedKept(s: Ledger, e: Event)
    requires Shape(s) && Conserved(s) && Enabled(s, e)
    ensures Conserved(Apply(s, e))
  {
    var s' := Apply(s, e);
    hide React, CanMove, Waiting, Shape;
    forall n: nat ensures Waiting(s', n) + Tally(s'.acked, Is(n)) == if s'.first <= n < Issued(s') then 1 else 0 {
      assert Waiting(s, n) + Tally(s.acked, Is(n)) == if s.first <= n < Issued(s) then 1 else 0;
      Balance(s, e, n);
    }
    if e.BatchCommitted? {
      CountersSettle(s);
    }
    forall n: nat | s'.first <= n < s'.head ensures Tally(s'.acked, Is(n)) == 1 {
      if e.BatchCommitted? {
        assert Waiting(s, n) == 0 && Tally(s.acked, Is(n)) == 1;
      } else {
        assert Tally(s.acked, Is(n)) == 1;
        Grows(s, e, n);
        assert Waiting(s', n) + Tally(s'.acked, Is(n)) <= 1;
      }
    }
  }

  // ---- Every run -------------------------------------------------------------------------------------

  ghost predicate Sound(s: Ledger) { Shape(s) && Conserved(s) }

  lemma {:induction false} SoundAfter(s: Ledger, events: seq<Event>)
    requires Sound(s) && Legal(s, events)
    ensures Sound(After(s, events))
    ensures After(s, events).first == s.first && After(s, events).batch == s.batch
    decreases events
  {
    if events != [] {
      ShapeKept(s, events[0]);
      ConservedKept(s, events[0]);
      SoundAfter(Apply(s, events[0]), events[1..]);
    }
  }

  lemma NothingHeld(endpoints: seq<nat>, n: nat)
    ensures TallyAll(AllHeld(Idle(endpoints)), Is(n)) == 0
  {
    TallyNone(AllHeld(Idle(endpoints)), Is(n));
  }

  lemma {:induction false} IdsTally(start: nat, count: nat, n: nat)
    ensures Tally(Ids(start, count), Is(n)) == if start <= n < start + count then 1 else 0
    decreases count
  {
    if count > 0 {
      IdsTally(start, count - 1, n);
      TallySplit(Ids(start, count), count - 1, Is(n));
      assert Ids(start, count)[..count - 1] == Ids(start, count - 1);
      assert Ids(start, count)[count - 1..] == [start + count - 1];
      TallyOne<nat>(start + count - 1, Is(n));
    }
  }

  lemma PrefillSound(n: nat, endpoints: seq<nat>, routes: seq<nat>)
    requires InRange(routes, n) && InRange(endpoints, n)
    ensures Sound(Prefill(n, endpoints, routes))
  {
    var s := Prefill(n, endpoints, routes);
    forall k: nat ensures Waiting(s, k) == if k < |routes| then 1 else 0 {
      RoutedTally(NoKeys(n), Ids(0, |routes|), routes, Is(k));
      TallyNone(NoKeys(n), Is(k));
      IdsTally(0, |routes|, k);
      NothingHeld(endpoints, k);
    }
  }

  lemma AppendSound(n: nat, endpoints: seq<nat>, first: nat, batch: nat)
    requires InRange(endpoints, n)
    ensures Sound(Append(n, endpoints, first, batch))
  {
    var s := Append(n, endpoints, first, batch);
    forall k: nat ensures Waiting(s, k) == 0 {
      TallyNone(NoKeys(n), Is(k));
      NothingHeld(endpoints, k);
    }
  }

  // ---- Prefill ------------------------------------------------------------------------------------------

  /** The runner's gate from prefill to warmup. */
  predicate PrefillComplete(s: Ledger) { s.total > 0 && s.confirmed >= s.total }

  /**
   Whatever sends fail, replies refuse, connections drop and routes change, every key is in exactly one place or
   was acknowledged exactly once. So when the gate opens every key was acknowledged once and nothing is queued
   or in flight; and when there are keys and none is queued or in flight, the gate opens.
   */
  lemma PrefillWritesEachKeyOnce(n: nat, endpoints: seq<nat>, routes: seq<nat>, events: seq<Event>)
    requires InRange(routes, n) && InRange(endpoints, n)
    requires Legal(Prefill(n, endpoints, routes), events) && forall e | e in events :: !OfRunner(e)
    ensures var s := After(Prefill(n, endpoints, routes), events);
            && (forall k: nat :: Waiting(s, k) + Tally(s.acked, Is(k)) == if k < |routes| then 1 else 0)
            && (PrefillComplete(s) <==> |routes| > 0 && forall k: nat :: Waiting(s, k) == 0)
            && (PrefillComplete(s) ==> forall k: nat :: Tally(s.acked, Is(k)) == if k < |routes| then 1 else 0)
  {
    var s0 := Prefill(n, endpoints, routes);
    PrefillSound(n, endpoints, routes);
    SoundAfter(s0, events);
    RunnerIdle(s0, events);
    var s := After(s0, events);
    forall k: nat ensures Waiting(s, k) + Tally(s.acked, Is(k)) == if k < |routes| then 1 else 0 {
    }
    if PrefillComplete(s) {
      CountersSettle(s);
    }
    SettledExactly(s);
  }

  lemma {:induction false} RunnerIdle(s: Ledger, events: seq<Event>)
    requires Legal(s, events) && forall e | e in events :: !OfRunner(e)
    ensures var s' := After(s, events); s'.runner == s.runner && s'.nextId == s.nextId && s'.total == s.total
    decreases events
  {
    if events != [] {
      assert events[0] in events;
      RunnerIdle(Apply(s, events[0]), events[1..]);
    }
  }

  // ---- The append stream ----------------------------------------------------------------------------------

  /**
   In every reachable state of the append stream: every id below the published head is one of the prefilled or was
   acknowledged by exactly one successful SET, and none of them is queued or in flight; at most one batch is open,
   and it starts where the head is.
   */
  lemma HeadIsWritten(n: nat, endpoints: seq<nat>, first: nat, batch: nat, events: seq<Event>)
    requires InRange(endpoints, n) && Legal(Append(n, endpoints, first, batch), events)
    ensures var s := After(Append(n, endpoints, first, batch), events);
            && first <= s.head
            && (forall id: nat | first <= id < s.head :: Tally(s.acked, Is(id)) == 1 && Waiting(s, id) == 0)
            && (forall id: nat | Waiting(s, id) > 0 :: s.head <= id < s.head + batch)
  {
    var s0 := Append(n, endpoints, first, batch);
    AppendSound(n, endpoints, first, batch);
    SoundAfter(s0, events);
    var s := After(s0, events);
    forall id: nat | first <= id < s.head ensures Tally(s.acked, Is(id)) == 1 && Waiting(s, id) == 0 {
      assert Waiting(s, id) + Tally(s.acked, Is(id)) <= 1;
    }
    forall id: nat | Waiting(s, id) > 0 ensures s.head <= id < s.head + batch {
      assert Waiting(s, id) + Tally(s.acked, Is(id)) == if s.first <= id < Issued(s) then 1 else 0;
    }
  }

  /** The head only ever moves by one whole batch, and only when that batch has been acknowledged to the last id. */
  lemma HeadAdvancesByBatch(n: nat, endpoints: seq<nat>, first: nat, batch: nat, events: seq<Event>, e: Event)
    requires InRange(endpoints, n) && Legal(Append(n, endpoints, first, batch), events)
    requires Enabled(After(Append(n, endpoints, first, batch), events), e)
    ensures var s := After(Append(n, endpoints, first, batch), events);
            var s' := Apply(s, e);
            if e.BatchCommitted? then
              && s'.head == s.head + batch
              && forall id: nat :: Waiting(s, id) == 0 && (s.head <= id < s'.head ==> Tally(s.acked, Is(id)) == 1)
            else s'.head == s.head
  {
    var s0 := Append(n, endpoints, first, batch);
    AppendSound(n, endpoints, first, batch);
    SoundAfter(s0, events);
    var s := After(s0, events);
    if e.BatchCommitted? {
      CountersSettle(s);
    }
  }

  /** And it does: with a batch open, the runner may commit it exactly when nothing of it waits. */
  lemma CommitsExactly(n: nat, endpoints: seq<nat>, first: nat, batch: nat, events: seq<Event>)
    requires InRange(endpoints, n) && Legal(Append(n, endpoints, first, batch), events)
    requires After(Append(n, endpoints, first, batch), events).runner.Open?
    ensures var s := After(Append(n, endpoints, first, batch), events);
            Enabled(s, BatchCommitted) <==> forall id: nat :: Waiting(s, id) == 0
  {
    AppendSound(n, endpoints, first, batch);
    SoundAfter(Append(n, endpoints, first, batch), events);
    SettledExactly(After(Append(n, endpoints, first, batch), events));
  }
}
