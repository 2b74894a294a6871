/**
 Runs of the trace replay: what holds after any sequence of events, in particular when the
 runner has seen the replay finished.
 */
module TraceRuns {
  import opened Ledgers
  import opened Numbers
  import opened Options
  import opened TraceLedger
  import opened TraceRows
  import opened TraceSafety

  // ---- Attempts ---------------------------------------------------------------------------

  ghost predicate Untired(rows: seq<Row>) {
    forall r | r in rows :: r.failedSends < MAX_SEND_ATTEMPTS
  }

  /** A row anywhere on its way has attempts left; a row given up has used exactly all of them. */
  ghost predicate Attempts(s: Replay) {
    && Untired(s.reader.batch) && Untired(InHand(s)) && Untired(s.returned)
    && (forall i | 0 <= i < |s.batches| :: Untired(s.batches[i]))
    && (forall i | 0 <= i < |s.claimed| :: Untired(s.claimed[i]))
    && (forall i | 0 <= i < |s.conns| :: Untired(RowsOf(s.conns[i].sent)))
    && (forall r | r in s.givenUp :: r.failedSends == MAX_SEND_ATTEMPTS)
  }

  lemma UntiredSplit(sent: seq<Sent>, k: nat)
    requires k <= |sent| && Untired(RowsOf(sent))
    ensures Untired(RowsOf(sent[..k])) && Untired(RowsOf(sent[k..]))
  {
    assert sent[..k] + sent[k..] == sent;
    RowsOfConcat(sent[..k], sent[k..]);
    forall r | r in RowsOf(sent[..k]) ensures r in RowsOf(sent) {}
    forall r | r in RowsOf(sent[k..]) ensures r in RowsOf(sent) {}
  }

  /** Sorting rows with attempts left after one charge gives up exactly those that have none. */
  lemma SortedOut(items: seq<Sent>, from: int)
    requires Untired(RowsOf(items))
    ensures Untired(Sendable(Charged(items, from)))
    ensures forall r | r in GivenUp(Charged(items, from)) :: r.failedSends == MAX_SEND_ATTEMPTS
  {
    var charged := Charged(items, from);
    ChargedRows(items, from);
    SendableRows(charged);
    forall r | r in charged ensures r.failedSends <= MAX_SEND_ATTEMPTS {
      var i :| 0 <= i < |charged| && charged[i] == r;
      assert SameRow(RowsOf(items)[i], r) && RowsOf(items)[i] in RowsOf(items);
    }
  }

  lemma TakeAttempts(s: Replay, c: nat, from: Source)
    requires Attempts(s) && CanTake(s, c, from)
    ensures Attempts(Take(s, c, from)) && Untired(RowsOf([Taken(s, c, from)]))
  {
    var w := s.conns[c].worker;
    var t := Take(s, c, from);
    match from
    case Fill =>
    case Mine =>
      assert Untired(s.claimed[w]);
    case Shared =>
    case Channel =>
      assert Untired(s.batches[0]);
      forall i | 0 <= i < |t.batches| ensures Untired(t.batches[i]) {
        assert t.batches[i] == s.batches[i + 1];
      }
  }

  lemma FireAttempts(s: Replay, c: nat, next: Sent)
    requires Attempts(s) && IsConn(s, c) && Untired(RowsOf([next]))
    ensures Attempts(Fire(s, c, next))
  {
    RowsOfConcat(s.conns[c].sent, [next]);
  }

  lemma RollbackAttempts(s: Replay, c: nat, failed: Option<Sent>, back: seq<Row>, charge: Charge)
    requires Attempts(s) && IsConn(s, c) && Untired(RowsOf(AsSeq(failed))) && Untired(back)
    ensures Attempts(Rollback(s, c, failed, back, charge))
  {
    var conn, w := s.conns[c], s.conns[c].worker;
    var discarded := Monus(conn.pending, Monus(conn.pending, conn.buffered));
    var gone := Discarded(conn.sent, discarded);
    var items := gone + AsSeq(failed);
    UntiredSplit(conn.sent, Monus(|conn.sent|, discarded));
    RowsOfConcat(gone, AsSeq(failed));
    SortedOut(items, ChargedFrom(charge, |gone|, |items|));
    assert Untired(s.claimed[w]);
    hide Charged, Sendable, GivenUp, RowsOf;
  }

  lemma SendingAttempts(s: Replay, e: Event)
    requires Shape(s) && Attempts(s) && Enabled(s, e) && !Outside(e) && !Quiet(e)
    ensures Attempts(Apply(s, e))
  {
    hide Charged, Sendable, GivenUp, Take, Rollback, Fire, Attempts;
    match e
    case Fired(c, from) =>
      TakeAttempts(s, c, from);
      TakeKeepsShape(s, c, from);
      FireAttempts(Take(s, c, from), c, Taken(s, c, from));
    case FireFailed(c, from, charge) =>
      TakeAttempts(s, c, from);
      TakeKeepsShape(s, c, from);
      RollbackAttempts(Take(s, c, from), c, Some(Taken(s, c, from)), [], charge);
    case FlushedFirstFailed(c, from, charge) =>
      TakeAttempts(s, c, from);
      TakeKeepsShape(s, c, from);
      RollbackAttempts(Take(s, c, from), c, None, RowsOf([Taken(s, c, from)]), charge);
    case FlushFailed(c, charge) =>
      RollbackAttempts(s, c, None, [], charge);
  }

  lemma OutsideAttempts(s: Replay, e: Event)
    requires Attempts(s) && Enabled(s, e) && Outside(e)
    ensures Attempts(Apply(s, e))
  {
    hide RowsOf;
  }

  lemma AttemptsKept(s: Replay, e: Event)
    requires Shape(s) && Attempts(s) && Enabled(s, e)
    ensures Attempts(Apply(s, e))
  {
    hide Charged, Sendable, GivenUp, Take, Rollback, Fire;
    if !Outside(e) && !Quiet(e) {
      SendingAttempts(s, e);
    } else if Outside(e) {
      OutsideAttempts(s, e);
    } else if e.Replied? {
      UntiredSplit(s.conns[e.c].sent, 1);
    }
  }

  // ---- The wire -----------------------------------------------------------------------------

  /** The rows in flight on each connection that have left the client. */
  ghost function FlushedRows(conns: seq<Conn>): (rows: seq<seq<Row>>)
    ensures |rows| == |conns|
    ensures forall i | 0 <= i < |conns| :: rows[i] == Flown(conns[i])
  {
    seq(|conns|, i requires 0 <= i < |conns| => Flown(conns[i]))
  }

  function Flown(conn: Conn): seq<Row> {
    RowsOf(StillSent(conn.sent, conn.buffered))
  }

  /** Every row put on the wire is still unanswered, answered, or lost with its connection. */
  ghost predicate WireOk(s: Replay) {
    forall n: nat :: TallyAll(s.wire, OnLine(n)) == OnWire(s, n)
  }

  ghost function OnWire(s: Replay, n: nat): nat {
    TallyAll(FlushedRows(s.conns), OnLine(n)) + Tally(s.answered, OnLine(n)) + Tally(s.lost, OnLine(n))
  }

  lemma FlownTally(conns: seq<Conn>, c: nat, conn: Conn, n: nat)
    requires c < |conns|
    ensures TallyAll(FlushedRows(conns[c := conn]), OnLine(n)) ==
            TallyAll(FlushedRows(conns), OnLine(n)) - Tally(Flown(conns[c]), OnLine(n)) + Tally(Flown(conn), OnLine(n))
  {
    assert FlushedRows(conns[c := conn]) == FlushedRows(conns)[c := Flown(conn)];
    TallyUpdate(FlushedRows(conns), c, Flown(conn), OnLine(n));
  }

  lemma FlushWire(s: Replay, c: nat, n: nat)
    requires Shape(s) && Runs(s, c)
    ensures var s' := Flush(s, c);
            TallyAll(s'.wire, OnLine(n)) - OnWire(s', n) == TallyAll(s.wire, OnLine(n)) - OnWire(s, n)
  {
    var conn, w := s.conns[c], s.conns[c].worker;
    var s' := Flush(s, c);
    FlownTally(s.conns, c, s'.conns[c], n);
    var kept, gone := StillSent(conn.sent, conn.buffered), Discarded(conn.sent, conn.buffered);
    assert kept + gone == conn.sent == StillSent(conn.sent, 0);
    RowsOfConcat(kept, gone);
    TallyConcat(RowsOf(kept), RowsOf(gone), OnLine(n));
    TallyUpdate(s.wire, w, s.wire[w] + RowsOf(gone), OnLine(n));
    TallyConcat(s.wire[w], RowsOf(gone), OnLine(n));
  }

  /** Taking, firing and rolling back leave what has flown as it was. */
  lemma UnflownWire(s: Replay, s': Replay, c: nat, n: nat)
    requires c < |s.conns| == |s'.conns| && s'.conns == s.conns[c := s'.conns[c]]
    requires Flown(s'.conns[c]) == Flown(s.conns[c])
    requires s'.wire == s.wire && s'.answered == s.answered && s'.lost == s.lost
    ensures TallyAll(s'.wire, OnLine(n)) - OnWire(s', n) == TallyAll(s.wire, OnLine(n)) - OnWire(s, n)
  {
    FlownTally(s.conns, c, s'.conns[c], n);
  }

  lemma FireFlown(s: Replay, c: nat, next: Sent)
    requires IsConn(s, c)
    ensures Flown(Fire(s, c, next).conns[c]) == Flown(s.conns[c])
  {
    var conn := s.conns[c];
    assert StillSent(conn.sent + [next], conn.buffered + 1) == StillSent(conn.sent, conn.buffered);
  }

  lemma RollbackFlown(s: Replay, c: nat, failed: Option<Sent>, back: seq<Row>, charge: Charge)
    requires Shape(s) && Runs(s, c)
    ensures Flown(Rollback(s, c, failed, back, charge).conns[c]) == Flown(s.conns[c])
  {
    hide Charged, Sendable, GivenUp, RowsOf;
    DiscardsTheUnflushed(s, c);
    var kept := StillSent(s.conns[c].sent, s.conns[c].buffered);
    assert StillSent(kept, 0) == kept;
  }

  lemma SendingWire(s: Replay, e: Event, n: nat)
    requires Shape(s) && Enabled(s, e)
    requires e.Fired? || e.FireFailed? || e.FlushedFirstFailed? || e.FlushFailed?
    ensures var s' := Apply(s, e);
            TallyAll(s'.wire, OnLine(n)) - OnWire(s', n) == TallyAll(s.wire, OnLine(n)) - OnWire(s, n)
  {
    hide Charged, Sendable, GivenUp, RowsOf, ConnOk, Flown, OnWire, Shape;
    match e
    case Fired(c, from) =>
      TakeFlown(s, c, from);
      FireFlown(Take(s, c, from), c, Taken(s, c, from));
      UnflownWire(s, Apply(s, e), c, n);
    case FireFailed(c, from, charge) =>
      TakeFlown(s, c, from);
      RollbackFlown(Take(s, c, from), c, Some(Taken(s, c, from)), [], charge);
      UnflownWire(s, Apply(s, e), c, n);
    case FlushedFirstFailed(c, from, charge) =>
      TakeFlown(s, c, from);
      RollbackFlown(Take(s, c, from), c, None, RowsOf([Taken(s, c, from)]), charge);
      UnflownWire(s, Apply(s, e), c, n);
    case FlushFailed(c, charge) =>
      RollbackFlown(s, c, None, [], charge);
      UnflownWire(s, Apply(s, e), c, n);
  }

  lemma TakeFlown(s: Replay, c: nat, from: Source)
    requires Shape(s) && CanTake(s, c, from)
    ensures var t := Take(s, c, from);
            && Shape(t) && Runs(t, c) && Flown(t.conns[c]) == Flown(s.conns[c])
            && t.conns == s.conns[c := t.conns[c]]
            && t.wire == s.wire && t.answered == s.answered && t.lost == s.lost
  {
    TakeKeepsShape(s, c, from);
  }

  lemma ReplyWire(s: Replay, c: nat, missed: bool, n: nat)
    requires Shape(s) && Enabled(s, Replied(c, missed))
    ensures var s' := Reply(s, c, missed);
            TallyAll(s'.wire, OnLine(n)) - OnWire(s', n) == TallyAll(s.wire, OnLine(n)) - OnWire(s, n)
  {
    assert ConnOk(s, c);
    var s', conn := Reply(s, c, missed), s.conns[c];
    FlownTally(s.conns, c, s'.conns[c], n);
    assert conn.buffered == 0 && StillSent(conn.sent, 0) == conn.sent && StillSent(conn.sent[1..], 0) == conn.sent[1..];
    if conn.sent[0].Trace? {
      TallyConcat(s.answered, [conn.sent[0].row], OnLine(n));
      TallyOne(conn.sent[0].row, OnLine(n));
    }
  }

  lemma LostWire(s: Replay, c: nat, n: nat)
    requires Shape(s) && Enabled(s, Lost(c))
    ensures var s' := Apply(s, Lost(c));
            TallyAll(s'.wire, OnLine(n)) - OnWire(s', n) == TallyAll(s.wire, OnLine(n)) - OnWire(s, n)
  {
    var s', conn := Apply(s, Lost(c)), s.conns[c];
    FlownTally(s.conns, c, s'.conns[c], n);
    assert StillSent(conn.sent, 0) == conn.sent;
    TallyConcat(s.lost, RowsOf(conn.sent), OnLine(n));
  }

  lemma WireKept(s: Replay, e: Event)
    requires Shape(s) && WireOk(s) && Enabled(s, e)
    ensures WireOk(Apply(s, e))
  {
    var s' := Apply(s, e);
    forall n: nat ensures TallyAll(s'.wire, OnLine(n)) == OnWire(s', n) {
      hide Apply, Enabled, OnWire, Shape;
      if e.Fired? || e.FireFailed? || e.FlushedFirstFailed? || e.FlushFailed? {
        SendingWire(s, e, n);
      } else {
        QuietWire(s, e, n);
      }
    }
  }

  lemma QuietWire(s: Replay, e: Event, n: nat)
    requires Shape(s) && Enabled(s, e) && !(e.Fired? || e.FireFailed? || e.FlushedFirstFailed? || e.FlushFailed?)
    ensures var s' := Apply(s, e);
            TallyAll(s'.wire, OnLine(n)) - OnWire(s', n) == TallyAll(s.wire, OnLine(n)) - OnWire(s, n)
  {
    hide Take, Rollback, Fire, Tally, TallyAll, RowsOf;
    match e
    case Flushed(c) => FlushWire(s, c, n);
    case Replied(c, missed) => ReplyWire(s, c, missed, n);
    case Lost(c) => LostWire(s, c, n);
    case Connected(c) =>
      assert ConnOk(s, c);
      UnflownWire(s, Apply(s, e), c, n);
    case HandedOn(c) => UnflownWire(s, Apply(s, e), c, n);
    case _ =>
  }

  // ---- Being finished ------------------------------------------------------------------------

  predicate ReaderStopped(s: Replay) {
    s.reader.stage.Stopped? || s.reader.stage.Closed?
  }

  /** What the runner's three separate loads have established so far. */
  predicate WatchOk(s: Replay) {
    && (!s.watch.Watching? ==> ReaderStopped(s))
    && (s.watch.SawDone? ==> s.watch.seen <= s.done)
    && (s.watch.Finished? ==> s.sent <= s.done)
  }

  lemma WatchKept(s: Replay, e: Event)
    requires WatchOk(s) && Enabled(s, e)
    ensures WatchOk(Apply(s, e))
  {
    hide Charged, Sendable, GivenUp, Take, Fire, Rollback;
    if !Outside(e) && !Quiet(e) {
      SendingOnlySends(s, e);
    }
  }

  /** No row is anywhere between the reader and its end. */
  ghost predicate NothingWaits(s: Replay) {
    forall n: nat :: Waiting(s, n) == 0
  }

  function Ends(s: Replay): seq<Row> { s.answered + s.lost + s.givenUp }

  function Names(rows: seq<Row>): (names: seq<nat>)
    ensures |names| == |rows|
    ensures forall i | 0 <= i < |rows| :: names[i] == rows[i].line
  {
    seq(|rows|, i requires 0 <= i < |rows| => rows[i].line)
  }

  lemma {:induction false} NamesTally(rows: seq<Row>, n: nat)
    ensures Tally(Names(rows), Is(n)) == Tally(rows, OnLine(n))
  {
    if rows != [] {
      NamesTally(rows[1..], n);
      assert Names(rows)[1..] == Names(rows[1..]);
    }
  }

  lemma EndsTally(s: Replay, n: nat)
    ensures Tally(Names(Ends(s)), Is(n)) == Over(s, n)
  {
    TallyConcat(s.answered + s.lost, s.givenUp, OnLine(n));
    TallyConcat(s.answered, s.lost, OnLine(n));
    NamesTally(Ends(s), n);
  }

  /** The rows counted done are distinct rows the reader counted. */
  lemma EndsAreCounted(s: Replay)
    requires Conserved(s)
    ensures forall n | n in Names(Ends(s)) :: n in s.counted
    ensures forall n: nat :: Tally(Names(Ends(s)), Is(n)) <= 1
  {
    forall n: nat ensures Tally(Names(Ends(s)), Is(n)) <= 1 {
      EndsTally(s, n);
    }
    forall n | n in Names(Ends(s)) ensures n in s.counted {
      EndsTally(s, n);
      TallyZero(Names(Ends(s)), Is(n));
      assert Is(n)(n);
    }
  }

  /**
   The one comparison the end of a run rests on: rows done reach rows sent exactly when no
   counted row is left in the reader's hand, the channel, any worker's claim, the returned
   queue, or on any connection.
   */
  lemma DoneMeansNothingWaits(s: Replay)
    requires Conserved(s)
    ensures s.done >= s.sent <==> NothingWaits(s)
  {
    var names := Names(Ends(s));
    EndsAreCounted(s);
    NamesFill(names, s.counted);
    if s.done >= s.sent {
      forall n: nat ensures Waiting(s, n) == 0 {
        EndsTally(s, n);
      }
    }
    if NothingWaits(s) {
      forall n | n in s.counted ensures n in names {
        EndsTally(s, n);
        TallyZero(names, Is(n));
        assert Waiting(s, n) == 0;
        var m :| m in names && Is(n)(m);
      }
      NamesCover(names, s.counted);
    }
  }

  // ---- Every run -----------------------------------------------------------------------------

  ghost predicate Sound(s: Replay) {
    Shape(s) && Conserved(s) && Attempts(s) && WireOk(s) && WatchOk(s)
  }

  lemma InitSound(workers: nat, home: seq<nat>)
    requires Start(workers, home)
    ensures Sound(Init(workers, home))
  {
    var s := Init(workers, home);
    forall n: nat
      ensures Waiting(s, n) == 0 && TallyAll(s.wire, OnLine(n)) == OnWire(s, n) == 0
    {
      TallyNone(s.claimed, OnLine(n));
      TallyNone(s.wire, OnLine(n));
      TallyNone(SentRows(s.conns), OnLine(n));
      TallyNone(FlushedRows(s.conns), OnLine(n));
    }
  }

  lemma {:induction false} SoundAfter(s: Replay, events: seq<Event>)
    requires Sound(s) && Legal(s, events)
    ensures Sound(After(s, events))
    decreases events
  {
    if events != [] {
      var e := events[0];
      ShapeKept(s, e);
      ConservedKept(s, e);
      AttemptsKept(s, e);
      WireKept(s, e);
      WatchKept(s, e);
      SoundAfter(Apply(s, e), events[1..]);
    }
  }

  /** The reader is never further ahead of the workers than the channel holds, in batches of no more than 64 rows. */
  ghost predicate AheadBounded(s: Replay) {
    && |s.batches| <= 256 && |s.reader.batch| <= 64
    && (s.reader.stage.Handing? ==> |s.reader.stage.batch| <= 64)
    && forall i | 0 <= i < |s.batches| :: |s.batches[i]| <= 64
  }

  lemma AheadKept(s: Replay, e: Event)
    requires AheadBounded(s) && Enabled(s, e)
    ensures AheadBounded(Apply(s, e))
  {
    if !Outside(e) {
      OnlyTakes(s, e);
      hide Apply, Enabled;
    }
  }

  /** A connection takes a batch from the channel, or leaves channel and reader alone. */
  lemma OnlyTakes(s: Replay, e: Event)
    requires Enabled(s, e) && !Outside(e)
    ensures var s' := Apply(s, e);
            s'.reader == s.reader && (s'.batches == s.batches || (s.batches != [] && s'.batches == s.batches[1..]))
  {
    hide RowsOf, Unsent, Sendable, GivenUp, StillSent, Discarded;
  }

  lemma {:induction false} ReadAheadIsBounded(s: Replay, events: seq<Event>)
    requires AheadBounded(s) && Legal(s, events)
    ensures AheadBounded(After(s, events))
    decreases events
  {
    hide Apply, Enabled, AheadBounded;
    if events != [] {
      AheadKept(s, events[0]);
      ReadAheadIsBounded(Apply(s, events[0]), events[1..]);
    }
  }

  lemma {:induction false} FlownIsSent(conns: seq<Conn>, n: nat)
    ensures TallyAll(FlushedRows(conns), OnLine(n)) <= TallyAll(SentRows(conns), OnLine(n))
  {
    if conns != [] {
      FlownIsSent(conns[1..], n);
      assert FlushedRows(conns)[1..] == FlushedRows(conns[1..]);
      assert SentRows(conns)[1..] == SentRows(conns[1..]);
      var conn := conns[0];
      var kept, gone := StillSent(conn.sent, conn.buffered), Discarded(conn.sent, conn.buffered);
      assert kept + gone == conn.sent;
      RowsOfConcat(kept, gone);
      TallyConcat(RowsOf(kept), RowsOf(gone), OnLine(n));
    }
  }

  /**
   Whatever the reader, the workers, their connections and the runner do, in any order: a row
   is put on the wire at most once, and never if it was given up; it is given up only after
   exactly three refused sends; and it is counted done at most once.
   */
  lemma EachRowOnce(workers: nat, home: seq<nat>, events: seq<Event>, n: nat)
    requires Start(workers, home) && Legal(Init(workers, home), events)
    ensures var s := After(Init(workers, home), events);
            && Waiting(s, n) + Over(s, n) == (if n in s.counted then 1 else 0)
            && TallyAll(s.wire, OnLine(n)) + Tally(s.givenUp, OnLine(n)) <= 1
            && (forall r | r in s.givenUp :: r.failedSends == MAX_SEND_ATTEMPTS)
  {
    InitSound(workers, home);
    SoundAfter(Init(workers, home), events);
    var s := After(Init(workers, home), events);
    FlownIsSent(s.conns, n);
    assert TallyAll(s.wire, OnLine(n)) == OnWire(s, n);
  }

  /**
   The runner is never told too early: once its three loads say the replay is finished, the
   reader has stopped, nothing waits anywhere, and every row the reader counted has been
   answered, lost with its connection, or given up, exactly once.
   */
  lemma FinishedMeansAllDone(workers: nat, home: seq<nat>, events: seq<Event>)
    requires Start(workers, home) && Legal(Init(workers, home), events)
    requires After(Init(workers, home), events).watch.Finished?
    ensures var s := After(Init(workers, home), events);
            && ReaderStopped(s)
            && NothingWaits(s)
            && (forall n: nat :: Over(s, n) == if n in s.counted then 1 else 0)
  {
    InitSound(workers, home);
    SoundAfter(Init(workers, home), events);
    var s := After(Init(workers, home), events);
    DoneMeansNothingWaits(s);
    forall n: nat ensures Over(s, n) == if n in s.counted then 1 else 0 {
      assert Waiting(s, n) == 0;
    }
  }

  lemma AskingIsAnswered(s: Replay)
    requires ReaderStopped(s) && s.watch.Watching? && s.sent <= s.done
    ensures var ask := [LoadStopped, LoadDone, LoadSent];
            Legal(s, ask) && After(s, ask).watch.Finished?
  {
    var ask := [LoadStopped, LoadDone, LoadSent];
    var s1 := Apply(s, LoadStopped);
    var s2 := Apply(s1, LoadDone);
    assert ask[1..] == [LoadDone, LoadSent] && ask[1..][1..] == [LoadSent] && ask[1..][1..][1..] == [];
    assert Legal(Apply(s2, LoadSent), []);
    assert Legal(s2, ask[1..][1..]);
    assert Legal(s1, ask[1..]);
  }

  /**
   Nor is it kept waiting: when the reader has stopped and nothing waits, asking is answered
   yes at once.
   */
  lemma NothingWaitingFinishes(workers: nat, home: seq<nat>, events: seq<Event>)
    requires Start(workers, home) && Legal(Init(workers, home), events)
    requires var s := After(Init(workers, home), events);
             ReaderStopped(s) && NothingWaits(s) && s.watch.Watching?
    ensures var s := After(Init(workers, home), events);
            var ask := [LoadStopped, LoadDone, LoadSent];
            Legal(s, ask) && After(s, ask).watch.Finished?
  {
    InitSound(workers, home);
    SoundAfter(Init(workers, home), events);
    var s := After(Init(workers, home), events);
    DoneMeansNothingWaits(s);
    AskingIsAnswered(s);
  }
}
