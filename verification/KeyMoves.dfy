/**
 What a connection does with keys, move by move (src/worker.rs): taking one from its queue,
 handing it on, sending it, and putting back what was not sent or not confirmed.
 */
module KeyMoves {
  import opened KeyQueues
  import opened Ledgers
  import opened Options

  /**
   One connection. `hand` is a key taken from the queue and not yet sent or put back, `excess`
   how many keys dropped by the client are still to be requeued, and `draining` what a lost
   connection has still to route again.
   */
  datatype Conn = Conn(
    endpoint: nat,
    hand: Option<nat>,
    inFlight: seq<nat>,
    pending: seq<nat>,
    buffered: nat,
    excess: nat,
    draining: seq<nat>)

  /** What a connection does. */
  datatype Move =
    | Take
    | HandOn(to: nat)
    | Pace
    | Fire
    | FailFire
    | Requeue
    | Flush
    | FailFlush
    | Confirm
    | Refuse
    | Lose
    | Reroute(to: nat)

  function Fresh(endpoint: nat): Conn { Conn(endpoint, None, [], [], 0, 0, []) }

  // ---- What each move does ---------------------------------------------------------------------

  /** Nothing of the connection is half done. */
  predicate Settled(conn: Conn) {
    conn.hand.None? && conn.excess == 0 && conn.draining == []
  }

  predicate CanMove(queues: seq<seq<nat>>, conn: Conn, m: Move) {
    && conn.endpoint < |queues| && conn.buffered <= |conn.pending|
    && match m
       case Take => Settled(conn) && queues[conn.endpoint] != []
       case HandOn(to) => conn.hand.Some? && to < |queues|
       case Pace => conn.hand.Some?
       case Fire => conn.hand.Some?
       case FailFire => conn.hand.Some?
       case Requeue => conn.excess > 0 && conn.inFlight != []
       case Flush => Settled(conn)
       case FailFlush => Settled(conn)
       case Confirm => Settled(conn) && conn.buffered == 0 && conn.pending != [] && conn.inFlight != []
       case Refuse => Settled(conn) && conn.buffered == 0 && conn.pending != [] && conn.inFlight != []
       case Lose => Settled(conn) && conn.buffered == 0
       case Reroute(to) => conn.draining != [] && to < |queues|
  }

  /** The client drops its newest, unflushed requests. */
  function Dropped(conn: Conn): Conn
    requires conn.buffered <= |conn.pending|
  {
    conn.(pending := conn.pending[..|conn.pending| - conn.buffered], buffered := 0, excess := conn.buffered)
  }

  /** The queues, the connection and the keys whose SET the server acknowledged. */
  function React(queues: seq<seq<nat>>, conn: Conn, m: Move): (r: (seq<seq<nat>>, Conn, seq<nat>))
    requires CanMove(queues, conn, m)
    ensures |r.0| == |queues|
  {
    match m
    case Take =>
      (Popped(queues, conn.endpoint), conn.(hand := Some(queues[conn.endpoint][0])), [])
    case HandOn(to) =>
      (PushedBack(queues, to, conn.hand.value), conn.(hand := None), [])
    case Pace =>
      (PushedFront(queues, conn.endpoint, conn.hand.value), conn.(hand := None), [])
    case Fire =>
      (queues, conn.(hand := None, buffered := conn.buffered + 1,
                     inFlight := conn.inFlight + [conn.hand.value], pending := conn.pending + [conn.hand.value]), [])
    case FailFire =>
      (PushedFront(queues, conn.endpoint, conn.hand.value), Dropped(conn).(hand := None), [])
    case Requeue =>
      var last := |conn.inFlight| - 1;
      (PushedFront(queues, conn.endpoint, conn.inFlight[last]),
       conn.(inFlight := conn.inFlight[..last], excess := conn.excess - 1), [])
    case Flush =>
      (queues, conn.(buffered := 0), [])
    case FailFlush =>
      (queues, Dropped(conn), [])
    case Confirm =>
      (queues, conn.(inFlight := conn.inFlight[1..], pending := conn.pending[1..]), [conn.pending[0]])
    case Refuse =>
      (PushedBack(queues, conn.endpoint, conn.inFlight[0]),
       conn.(inFlight := conn.inFlight[1..], pending := conn.pending[1..]), [])
    case Lose =>
      (queues, conn.(inFlight := [], pending := [], draining := conn.inFlight), [])
    case Reroute(to) =>
      (PushedBack(queues, to, conn.draining[0]), conn.(draining := conn.draining[1..]), [])
  }

  // ---- A connection's record is its client's -------------------------------------------------------

  predicate ConnOk(conn: Conn, n: nat) {
    && conn.endpoint < n
    && |conn.inFlight| == |conn.pending| + conn.excess
    && conn.inFlight[..|conn.pending|] == conn.pending
    && conn.buffered <= |conn.pending|
    && (conn.excess > 0 ==> conn.buffered == 0)
    && (conn.hand.Some? ==> conn.excess == 0)
  }

  lemma ConnOkKept(queues: seq<seq<nat>>, conn: Conn, m: Move)
    requires ConnOk(conn, |queues|) && CanMove(queues, conn, m)
    ensures ConnOk(React(queues, conn, m).1, |queues|)
  {
  }

  // ---- Where a key is ------------------------------------------------------------------------------

  ghost function InHand(hand: Option<nat>): seq<nat> {
    match hand
    case None => []
    case Some(key) => [key]
  }

  /** What a connection holds. */
  ghost function Held(conn: Conn): seq<nat> {
    InHand(conn.hand) + conn.inFlight + conn.draining
  }

  ghost function One(hand: Option<nat>, p: nat -> bool): nat { if hand.Some? && p(hand.value) then 1 else 0 }

  lemma HeldParts(conn: Conn, p: nat -> bool)
    ensures Tally(Held(conn), p) == One(conn.hand, p) + Tally(conn.inFlight, p) + Tally(conn.draining, p)
  {
    TallyConcat(InHand(conn.hand) + conn.inFlight, conn.draining, p);
    TallyConcat(InHand(conn.hand), conn.inFlight, p);
    if conn.hand.Some? {
      TallyOne(conn.hand.value, p);
    }
  }

  lemma HandBalance(queues: seq<seq<nat>>, conn: Conn, m: Move, p: nat -> bool)
    requires ConnOk(conn, |queues|) && CanMove(queues, conn, m) && (m.Take? || m.HandOn? || m.Pace? || m.FailFire?)
    ensures var (queues', conn', acked) := React(queues, conn, m);
            TallyAll(queues', p) + Tally(Held(conn'), p) + Tally(acked, p) ==
            TallyAll(queues, p) + Tally(Held(conn), p)
  {
    hide Held, Tally, TallyAll, Popped, PushedBack, PushedFront;
    HeldParts(conn, p);
    HeldParts(React(queues, conn, m).1, p);
    TallyNothing(p);
    match m
    case Take => PopTally(queues, conn.endpoint, p);
    case HandOn(to) => PushTally(queues, to, conn.hand.value, p);
    case Pace => PushTally(queues, conn.endpoint, conn.hand.value, p);
    case FailFire => PushTally(queues, conn.endpoint, conn.hand.value, p);
  }

  /** A move takes each key from one place and puts it in one other. */
  lemma MoveBalance(queues: seq<seq<nat>>, conn: Conn, m: Move, p: nat -> bool)
    requires ConnOk(conn, |queues|) && CanMove(queues, conn, m)
    ensures var (queues', conn', acked) := React(queues, conn, m);
            TallyAll(queues', p) + Tally(Held(conn'), p) + Tally(acked, p) ==
            TallyAll(queues, p) + Tally(Held(conn), p)
  {
    hide Held, Tally, TallyAll, Popped, PushedBack, PushedFront;
    HeldParts(conn, p);
    HeldParts(React(queues, conn, m).1, p);
    TallyNothing(p);
    match m
    case Take => HandBalance(queues, conn, m, p);
    case HandOn(_) => HandBalance(queues, conn, m, p);
    case Pace => HandBalance(queues, conn, m, p);
    case FailFire => HandBalance(queues, conn, m, p);
    case Fire =>
      TallyConcat(conn.inFlight, [conn.hand.value], p);
      TallyOne(conn.hand.value, p);
    case Requeue =>
      var last := |conn.inFlight| - 1;
      PushTally(queues, conn.endpoint, conn.inFlight[last], p);
      TallySplit(conn.inFlight, last, p);
      assert conn.inFlight[last..] == [conn.inFlight[last]];
      TallyOne(conn.inFlight[last], p);
    case Flush =>
    case FailFlush =>
    case Confirm =>
      assert conn.inFlight[0] == conn.inFlight[..|conn.pending|][0] == conn.pending[0];
      FrontTally(conn.inFlight, p);
      TallyOne(conn.pending[0], p);
    case Refuse =>
      FrontTally(conn.inFlight, p);
      PushTally(queues, conn.endpoint, conn.inFlight[0], p);
    case Lose =>
    case Reroute(to) =>
      FrontTally(conn.draining, p);
      PushTally(queues, to, conn.draining[0], p);
  }

  lemma TallyNothing(p: nat -> bool)
    ensures Tally<nat>([], p) == 0
  {
  }

  lemma FrontTally(keys: seq<nat>, p: nat -> bool)
    requires keys != []
    ensures Tally(keys, p) == (if p(keys[0]) then 1 else 0) + Tally(keys[1..], p)
  {
  }
}
