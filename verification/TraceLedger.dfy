/**
 The trace replay as a whole: the reader thread, any number of workers and connections, and
 the runner asking whether the replay is over, interleaved in every way they can be.

 An event is a piece of the code between two awaits that touches the state the threads share
 at most once, or twice where the first touch only takes rows and the second only counts them.
 `running` names the connection a worker is executing: a worker is single-threaded, so its
 other connections wait until that one awaits.
 */
module TraceLedger {
  import opened Numbers
  import opened Options
  import opened TraceRows

  const READ_AHEAD_BATCHES: nat := 256
  const BACKFILL_QUEUE_CAP: nat := 1024

  /** What the reader thread is about to do. */
  datatype Stage =
    | Reading
    | Handing(batch: seq<Row>, last: bool)
    | Ended
    | Stopped
    | Closed

  datatype Reader = Reader(pos: nat, batch: seq<Row>, stage: Stage)

  datatype Life = Down | Open | Failing

  /**
   One connection. `pending` is the client's count of unanswered requests and `buffered` how
   many of those it holds unflushed; `sent` and `inflight` are the replay's own records of them.
   */
  datatype Conn = Conn(
    worker: nat,
    life: Life,
    pending: nat,
    buffered: nat,
    sent: seq<Sent>,
    inflight: nat,
    backfill: seq<(nat, nat)>)

  /** The runner's question, asked one load at a time. */
  datatype Watch = Watching | SawStopped | SawDone(seen: nat) | Finished

  datatype Replay = Replay(
    reader: Reader,
    sent: nat,
    batches: seq<seq<Row>>,
    returned: seq<Row>,
    claimed: seq<seq<Row>>,
    running: seq<Option<nat>>,
    conns: seq<Conn>,
    done: nat,
    watch: Watch,
    // What has happened, which no code reads.
    counted: set<nat>,
    wire: seq<seq<Row>>,
    answered: seq<Row>,
    lost: seq<Row>,
    givenUp: seq<Row>)

  /** Where a connection's next request comes from. */
  datatype Source = Fill | Mine | Shared | Channel

  datatype Event =
    // The reader thread.
    | RowRead(objId: nat, size: nat, op: RowOp)
    | RowSkipped
    | BatchCounted
    | BatchHanded
    | TraceEnded
    | ReaderPanicked
    | StoppedSet
    | SenderDropped
    // A connection.
    | Connected(c: nat)
    | Resumed(c: nat)
    | Replied(c: nat, missed: bool)
    | Fired(c: nat, from: Source)
    | FireFailed(c: nat, from: Source, charge: Charge)
    | FlushedFirstFailed(c: nat, from: Source, charge: Charge)
    | Flushed(c: nat)
    | FlushFailed(c: nat, charge: Charge)
    | Parked(c: nat)
    | Lost(c: nat)
    | HandedOn(c: nat)
    // The runner.
    | LoadStopped
    | LoadDone
    | LoadSent

  /** A replay about to begin: `home[c]` is connection `c`'s worker. */
  function Init(workers: nat, home: seq<nat>): Replay {
    Replay(Reader(0, [], Reading), 0, [], [], seq(workers, i => []), seq(workers, i => None),
           seq(|home|, i requires 0 <= i < |home| => Conn(home[i], Down, 0, 0, [], 0, [])), 0, Watching,
           {}, seq(workers, i => []), [], [], [])
  }

  // ---- Taking the next request -----------------------------------------------------------

  predicate IsConn(s: Replay, c: nat) {
    && c < |s.conns|
    && s.conns[c].worker < |s.claimed| == |s.running| == |s.wire|
  }

  /** Connection `c` is executing on its worker. */
  predicate Runs(s: Replay, c: nat) {
    IsConn(s, c) && s.conns[c].life.Open? && s.running[s.conns[c].worker] == Some(c)
  }

  /** Connection `c` waits, and nothing else executes on its worker. */
  predicate Waits(s: Replay, c: nat) {
    IsConn(s, c) && s.conns[c].life.Open? && s.running[s.conns[c].worker] == None
  }

  predicate CanTake(s: Replay, c: nat, from: Source) {
    && Runs(s, c)
    && var conn, mine := s.conns[c], s.claimed[s.conns[c].worker];
       match from
       case Fill => conn.backfill != []
       case Mine => conn.backfill == [] && mine != []
       case Shared => conn.backfill == [] && mine == [] && s.returned != []
       case Channel => conn.backfill == [] && mine == [] && s.batches != [] && s.batches[0] != []
  }

  function Taken(s: Replay, c: nat, from: Source): Sent
    requires CanTake(s, c, from)
  {
    match from
    case Fill => Backfill(s.conns[c].backfill[0].0, s.conns[c].backfill[0].1)
    case Mine => Trace(s.claimed[s.conns[c].worker][0])
    case Shared => Trace(s.returned[0])
    case Channel => Trace(s.batches[0][0])
  }

  /** The replay once the next request is in the connection's hand. */
  function Take(s: Replay, c: nat, from: Source): Replay
    requires CanTake(s, c, from)
  {
    var w := s.conns[c].worker;
    match from
    case Fill => s.(conns := s.conns[c := s.conns[c].(backfill := s.conns[c].backfill[1..])])
    case Mine => s.(claimed := s.claimed[w := s.claimed[w][1..]])
    case Shared =>
      var n := Claimable(s.returned);
      s.(claimed := s.claimed[w := s.returned[1..n]], returned := s.returned[n..])
    case Channel => s.(claimed := s.claimed[w := s.batches[0][1..]], batches := s.batches[1..])
  }

  /** What the code takes next is one of the sources' rows: its step is one of the model's. */
  lemma TakeIsNext(s: Replay, c: nat)
    requires Runs(s, c) && s.conns[c].backfill == []
    ensures var w := s.conns[c].worker;
            var (next, claimed, returned, batches) :=
              NextFrom(s.claimed[w], s.returned, s.batches, s.reader.stage.Closed?);
            if next.NextRow? then
              exists from: Source ::
                && CanTake(s, c, from) && Taken(s, c, from) == Trace(next.row)
                && Take(s, c, from) == s.(claimed := s.claimed[w := claimed], returned := returned, batches := batches)
            else
              s.claimed[w] == [] && s.returned == [] && (s.batches == [] || s.batches[0] == [])
  {
    var w := s.conns[c].worker;
    if s.claimed[w] != [] {
      assert CanTake(s, c, Mine);
    } else if s.returned != [] {
      assert CanTake(s, c, Shared);
    } else if s.batches != [] && s.batches[0] != [] {
      assert CanTake(s, c, Channel);
    }
  }

  // ---- What each event does ---------------------------------------------------------------

  function Fire(s: Replay, c: nat, next: Sent): Replay
    requires IsConn(s, c)
  {
    var conn := s.conns[c];
    s.(conns := s.conns[c := conn.(
      pending := conn.pending + 1, buffered := conn.buffered + 1,
      sent := conn.sent + [next], inflight := conn.inflight + 1)])
  }

  /** The client dropped what it had buffered, and the replay put those rows, and `back`, in front again. */
  function Rollback(s: Replay, c: nat, failed: Option<Sent>, back: seq<Row>, charge: Charge): Replay
    requires IsConn(s, c)
  {
    var conn, w := s.conns[c], s.conns[c].worker;
    var after := Monus(conn.pending, conn.buffered);
    var discarded := Monus(conn.pending, after);
    var unsent := Unsent(conn.sent, discarded, failed, charge);
    s.(conns := s.conns[c := conn.(
         pending := after, buffered := 0,
         sent := StillSent(conn.sent, discarded), inflight := Monus(conn.inflight, discarded))],
       claimed := s.claimed[w := Sendable(unsent) + back + s.claimed[w]],
       done := s.done + |GivenUp(unsent)|,
       givenUp := s.givenUp + GivenUp(unsent))
  }

  function Flush(s: Replay, c: nat): Replay
    requires IsConn(s, c)
  {
    var conn, w := s.conns[c], s.conns[c].worker;
    s.(conns := s.conns[c := conn.(buffered := 0)],
       wire := s.wire[w := s.wire[w] + RowsOf(Discarded(conn.sent, conn.buffered))])
  }

  /** A reply answers the oldest request; a GET that missed is queued to be filled. */
  function Reply(s: Replay, c: nat, missed: bool): Replay
    requires IsConn(s, c) && s.conns[c].sent != [] && s.conns[c].pending > 0
  {
    var conn := s.conns[c];
    var rest := conn.(pending := conn.pending - 1, sent := conn.sent[1..], inflight := Monus(conn.inflight, 1));
    var s1 := s.(running := s.running[conn.worker := Some(c)]);
    match conn.sent[0]
    case Backfill(_, _) => s1.(conns := s.conns[c := rest])
    case Trace(row) =>
      var fills := missed && row.op.Get? && |conn.backfill| < BACKFILL_QUEUE_CAP;
      s1.(conns := s.conns[c := if fills then rest.(backfill := conn.backfill + [(row.objId, row.size)]) else rest],
          done := s.done + 1,
          answered := s.answered + [row])
  }

  /** What the reader thread counts and hands over next. */
  function CountBatch(s: Replay, last: bool): Replay {
    s.(sent := s.sent + |s.reader.batch|,
       counted := s.counted + set r | r in s.reader.batch :: r.line,
       reader := s.reader.(batch := [], stage := Handing(s.reader.batch, last)))
  }

  predicate Enabled(s: Replay, e: Event) {
    match e
    case RowRead(_, _, _) => s.reader.stage.Reading? && |s.reader.batch| < CLAIM_BATCH
    case RowSkipped => s.reader.stage.Reading? && |s.reader.batch| < CLAIM_BATCH
    case BatchCounted => s.reader.stage.Reading? && |s.reader.batch| == CLAIM_BATCH
    case BatchHanded => s.reader.stage.Handing? && |s.batches| < READ_AHEAD_BATCHES
    case TraceEnded => s.reader.stage.Reading? && |s.reader.batch| < CLAIM_BATCH
    case ReaderPanicked => s.reader.stage.Reading?
    case StoppedSet => s.reader.stage.Ended?
    case SenderDropped => s.reader.stage.Stopped?
    case Connected(c) => IsConn(s, c) && s.conns[c].life.Down? && s.running[s.conns[c].worker] == None
    case Resumed(c) => Waits(s, c)
    case Replied(c, _) => Waits(s, c) && s.conns[c].pending > 0 && s.conns[c].sent != []
    case Fired(c, from) => CanTake(s, c, from)
    case FireFailed(c, from, charge) => CanTake(s, c, from) && !charge.All?
    case FlushedFirstFailed(c, from, charge) => CanTake(s, c, from) && !charge.Failed?
    case Flushed(c) => Runs(s, c)
    case FlushFailed(c, charge) => Runs(s, c) && !charge.Failed?
    case Parked(c) => Runs(s, c) && s.conns[c].buffered == 0
    case Lost(c) => (Runs(s, c) || Waits(s, c)) && s.conns[c].buffered == 0
    case HandedOn(c) => IsConn(s, c) && s.conns[c].life.Failing?
    case LoadStopped => s.watch.Watching?
    case LoadDone => s.watch.SawStopped?
    case LoadSent => s.watch.SawDone?
  }

  function Apply(s: Replay, e: Event): Replay
    requires Enabled(s, e)
  {
    match e
    case RowRead(objId, size, op) =>
      s.(reader := s.reader.(pos := s.reader.pos + 1,
                             batch := s.reader.batch + [Row(s.reader.pos, objId, size, op, 0)]))
    case RowSkipped => s.(reader := s.reader.(pos := s.reader.pos + 1))
    case BatchCounted => CountBatch(s, false)
    case BatchHanded =>
      s.(batches := s.batches + [s.reader.stage.batch],
         reader := s.reader.(stage := if s.reader.stage.last then Ended else Reading))
    case TraceEnded =>
      if s.reader.batch == [] then s.(reader := s.reader.(stage := Ended)) else CountBatch(s, true)
    case ReaderPanicked => s.(reader := s.reader.(batch := [], stage := Ended))
    case StoppedSet => s.(reader := s.reader.(stage := Stopped))
    case SenderDropped => s.(reader := s.reader.(stage := Closed))
    case Connected(c) =>
      var conn := s.conns[c];
      s.(conns := s.conns[c := Conn(conn.worker, Open, 0, 0, [], 0, [])],
         running := s.running[conn.worker := Some(c)])
    case Resumed(c) => s.(running := s.running[s.conns[c].worker := Some(c)])
    case Replied(c, missed) => Reply(s, c, missed)
    case Fired(c, from) => Fire(Take(s, c, from), c, Taken(s, c, from))
    case FireFailed(c, from, charge) => Rollback(Take(s, c, from), c, Some(Taken(s, c, from)), [], charge)
    case FlushedFirstFailed(c, from, charge) =>
      Rollback(Take(s, c, from), c, None, RowsOf([Taken(s, c, from)]), charge)
    case Flushed(c) => Flush(s, c)
    case FlushFailed(c, charge) => Rollback(s, c, None, [], charge)
    case Parked(c) => s.(running := s.running[s.conns[c].worker := None])
    case Lost(c) =>
      var conn := s.conns[c];
      s.(conns := s.conns[c := conn.(life := Failing, pending := 0, sent := [], inflight := 0)],
         running := s.running[conn.worker := Some(c)],
         done := s.done + |RowsOf(conn.sent)|,
         lost := s.lost + RowsOf(conn.sent))
    case HandedOn(c) =>
      var w := s.conns[c].worker;
      s.(conns := s.conns[c := s.conns[c].(life := Down)],
         running := s.running[w := None],
         returned := s.claimed[w] + s.returned,
         claimed := s.claimed[w := []])
    case LoadStopped =>
      s.(watch := if s.reader.stage.Stopped? || s.reader.stage.Closed? then SawStopped else Watching)
    case LoadDone => s.(watch := SawDone(s.done))
    case LoadSent => s.(watch := if s.watch.seen >= s.sent then Finished else Watching)
  }

  /**
   The claim of a lost connection's worker is the next to be taken from the returned rows, by whichever worker runs out
   first: in its order, ahead of what was returned before, a batch at a time.
   */
  lemma HandedOnAreNext(s: Replay, c: nat, d: nat)
    requires Enabled(s, HandedOn(c)) && CanTake(Apply(s, HandedOn(c)), d, Shared)
    ensures var t := Apply(s, HandedOn(c));
            var u, w := Take(t, d, Shared), t.conns[d].worker;
            var all := s.claimed[s.conns[c].worker] + s.returned;
            var n := if |all| < 64 then |all| else 64;
            && RowsOf([Taken(t, d, Shared)]) + u.claimed[w] == all[..n]
            && u.returned == all[n..]
  {
    var t := Apply(s, HandedOn(c));
    RowOf(Taken(t, d, Shared));
    assert [t.returned[0]] + t.returned[1..Claimable(t.returned)] == t.returned[..Claimable(t.returned)];
  }

  // ---- Runs ----------------------------------------------------------------------------------

  predicate Legal(s: Replay, events: seq<Event>)
    decreases events
  {
    events == [] || (Enabled(s, events[0]) && Legal(Apply(s, events[0]), events[1..]))
  }

  function After(s: Replay, events: seq<Event>): Replay
    requires Legal(s, events)
    decreases events
  {
    if events == [] then s else After(Apply(s, events[0]), events[1..])
  }

  predicate Start(workers: nat, home: seq<nat>) {
    forall i | 0 <= i < |home| :: home[i] < workers
  }

  // ---- The replay's own records agree with the client's ---------------------------------------

  predicate ConnOk(s: Replay, c: nat)
    requires c < |s.conns|
  {
    var conn := s.conns[c];
    && IsConn(s, c)
    && conn.pending == |conn.sent| == conn.inflight
    && conn.buffered <= conn.pending
    && (conn.life.Down? ==> conn.sent == [])
    && (conn.life.Failing? ==> conn.sent == [])
    && (conn.buffered > 0 || conn.life.Failing? ==> s.running[conn.worker] == Some(c))
  }

  predicate Shape(s: Replay) {
    && |s.claimed| == |s.running| == |s.wire|
    && (forall c: nat | c < |s.conns| :: ConnOk(s, c))
    && (forall i | 0 <= i < |s.batches| :: s.batches[i] != [])
    && (s.reader.stage.Handing? ==> s.reader.stage.batch != [])
    && (!s.reader.stage.Reading? ==> s.reader.batch == [])
  }

  /** A failed send discards exactly what the connection recorded since its last flush. */
  lemma DiscardsTheUnflushed(s: Replay, c: nat)
    requires Shape(s) && c < |s.conns|
    ensures var conn := s.conns[c];
            Monus(conn.pending, Monus(conn.pending, conn.buffered)) == conn.buffered
  {
    assert ConnOk(s, c);
  }

  lemma TakeKeepsShape(s: Replay, c: nat, from: Source)
    requires Shape(s) && CanTake(s, c, from)
    ensures var s' := Take(s, c, from);
            && Shape(s') && Runs(s', c)
            && s'.conns[c] == s.conns[c].(backfill := s'.conns[c].backfill)
  {
    var s' := Take(s, c, from);
    forall k: nat | k < |s'.conns| ensures ConnOk(s', k) {
      assert ConnOk(s, k);
    }
  }

  lemma RollbackKeepsShape(s: Replay, c: nat, failed: Option<Sent>, back: seq<Row>, charge: Charge)
    requires Shape(s) && Runs(s, c)
    ensures Shape(Rollback(s, c, failed, back, charge))
  {
    var s' := Rollback(s, c, failed, back, charge);
    DiscardsTheUnflushed(s, c);
    forall k: nat | k < |s'.conns| ensures ConnOk(s', k) {
      assert ConnOk(s, k);
    }
  }

  lemma FireKeepsShape(s: Replay, c: nat, next: Sent)
    requires Shape(s) && Runs(s, c)
    ensures Shape(Fire(s, c, next))
  {
    var s' := Fire(s, c, next);
    forall k: nat | k < |s'.conns| ensures ConnOk(s', k) {
      assert ConnOk(s, k);
    }
  }

  /** An event of the reader thread or of the runner, which touches no connection. */
  predicate Outside(e: Event) {
    e.RowRead? || e.RowSkipped? || e.BatchCounted? || e.BatchHanded? || e.TraceEnded? || e.ReaderPanicked? ||
    e.StoppedSet? || e.SenderDropped? || e.LoadStopped? || e.LoadDone? || e.LoadSent?
  }

  lemma OutsideKeepsShape(s: Replay, e: Event)
    requires Shape(s) && Enabled(s, e) && Outside(e)
    ensures Shape(Apply(s, e))
  {
    var s' := Apply(s, e);
    assert s'.conns == s.conns && s'.claimed == s.claimed && s'.running == s.running && s'.wire == s.wire;
    forall k: nat | k < |s'.conns| ensures ConnOk(s', k) {
      assert ConnOk(s, k);
    }
  }

  /** An event of connection `c` that sends and takes nothing. */
  predicate Quiet(e: Event) {
    e.Connected? || e.Resumed? || e.Replied? || e.Flushed? || e.Parked? || e.Lost? || e.HandedOn?
  }

  lemma QuietKeepsShape(s: Replay, e: Event)
    requires Shape(s) && Enabled(s, e) && Quiet(e)
    ensures Shape(Apply(s, e))
  {
    hide RowsOf;
    var s' := Apply(s, e);
    assert ConnOk(s, e.c);
    forall k: nat | k < |s'.conns| ensures ConnOk(s', k) {
      assert ConnOk(s, k);
    }
  }

  lemma ShapeKept(s: Replay, e: Event)
    requires Shape(s) && Enabled(s, e)
    ensures Shape(Apply(s, e))
  {
    hide Charged, Sendable, GivenUp, RowsOf, ConnOk, Shape, Take, Rollback, Fire;
    if Outside(e) {
      OutsideKeepsShape(s, e);
    } else if Quiet(e) {
      QuietKeepsShape(s, e);
    } else {
      match e
      case Fired(c, from) =>
        TakeKeepsShape(s, c, from);
        FireKeepsShape(Take(s, c, from), c, Taken(s, c, from));
      case FireFailed(c, from, charge) =>
        TakeKeepsShape(s, c, from);
        RollbackKeepsShape(Take(s, c, from), c, Some(Taken(s, c, from)), [], charge);
      case FlushedFirstFailed(c, from, charge) =>
        TakeKeepsShape(s, c, from);
        RollbackKeepsShape(Take(s, c, from), c, None, RowsOf([Taken(s, c, from)]), charge);
      case FlushFailed(c, charge) =>
        RollbackKeepsShape(s, c, None, [], charge);
    }
  }
}
