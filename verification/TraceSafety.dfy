/**
 The conservation law every event of the trace replay keeps: each row the reader counted is in
 exactly one place, and the two counters count what they say.
 */
module TraceSafety {
  import opened Ledgers
  import opened Numbers
  import opened Options
  import opened TraceLedger
  import opened TraceRows

  // ---- The ledger -------------------------------------------------------------------------

  /** The rows in flight on each connection. */
  ghost function SentRows(conns: seq<Conn>): (rows: seq<seq<Row>>)
    ensures |rows| == |conns|
    ensures forall i | 0 <= i < |conns| :: rows[i] == RowsOf(conns[i].sent)
  {
    seq(|conns|, i requires 0 <= i < |conns| => RowsOf(conns[i].sent))
  }

  ghost function InHand(s: Replay): seq<Row> {
    if s.reader.stage.Handing? then s.reader.stage.batch else []
  }

  /** How often line `n` is somewhere between the reader and the server. */
  ghost function Waiting(s: Replay, n: nat): nat {
    Tally(InHand(s), OnLine(n)) + TallyAll(s.batches, OnLine(n)) + Tally(s.returned, OnLine(n))
    + TallyAll(s.claimed, OnLine(n)) + TallyAll(SentRows(s.conns), OnLine(n))
  }

  /** How often line `n` has been counted done. */
  ghost function Over(s: Replay, n: nat): nat {
    Tally(s.answered, OnLine(n)) + Tally(s.lost, OnLine(n)) + Tally(s.givenUp, OnLine(n))
  }

  /** Every counted row is in exactly one place, and no other row is in any. */
  ghost predicate Placed(s: Replay) {
    forall n: nat :: Waiting(s, n) + Over(s, n) == if n in s.counted then 1 else 0
  }

  /** The two counters the end of the run is decided by count what they say. */
  predicate Tallied(s: Replay) {
    s.sent == |s.counted| && s.done == |s.answered| + |s.lost| + |s.givenUp|
  }

  /** The reader has counted only lines it is past, and the batch it is filling holds new ones. */
  ghost predicate ReadsOn(s: Replay) {
    && (forall n | n in s.counted :: n < s.reader.pos)
    && (forall i | 0 <= i < |s.reader.batch| ::
          s.reader.batch[i].line < s.reader.pos && s.reader.batch[i].line !in s.counted)
    && (forall i, j | 0 <= i < j < |s.reader.batch| :: s.reader.batch[i].line < s.reader.batch[j].line)
  }

  ghost predicate Conserved(s: Replay) {
    Placed(s) && Tallied(s) && ReadsOn(s)
  }

  lemma SentRowsUpdate(conns: seq<Conn>, c: nat, conn: Conn)
    requires c < |conns|
    ensures SentRows(conns[c := conn]) == SentRows(conns)[c := RowsOf(conn.sent)]
  {
  }

  /** A connection's part of the tally, changed. */
  lemma ConnTally(conns: seq<Conn>, c: nat, conn: Conn, n: nat)
    requires c < |conns|
    ensures TallyAll(SentRows(conns[c := conn]), OnLine(n))
         == TallyAll(SentRows(conns), OnLine(n))
            - Tally(RowsOf(conns[c].sent), OnLine(n)) + Tally(RowsOf(conn.sent), OnLine(n))
  {
    SentRowsUpdate(conns, c, conn);
    TallyUpdate(SentRows(conns), c, RowsOf(conn.sent), OnLine(n));
  }

  lemma TakeBalance(s: Replay, c: nat, from: Source, n: nat)
    requires CanTake(s, c, from)
    ensures Waiting(Take(s, c, from), n) + Tally(RowsOf([Taken(s, c, from)]), OnLine(n)) == Waiting(s, n)
    ensures Over(Take(s, c, from), n) == Over(s, n)
  {
    var w, p := s.conns[c].worker, OnLine(n);
    match from
    case Fill =>
      ConnTally(s.conns, c, s.conns[c].(backfill := s.conns[c].backfill[1..]), n);
    case Mine =>
      TallyUpdate(s.claimed, w, s.claimed[w][1..], p);
      TallyOne(s.claimed[w][0], p);
    case Shared =>
      var k := Claimable(s.returned);
      TallyUpdate(s.claimed, w, s.returned[1..k], p);
      TallySplit(s.returned, k, p);
      assert s.returned[..k] == [s.returned[0]] + s.returned[1..k];
      TallyConcat([s.returned[0]], s.returned[1..k], p);
    case Channel =>
      TallyUpdate(s.claimed, w, s.batches[0][1..], p);
      TallyOne(s.batches[0][0], p);
  }

  lemma FireBalance(s: Replay, c: nat, next: Sent, n: nat)
    requires IsConn(s, c)
    ensures Waiting(Fire(s, c, next), n) == Waiting(s, n) + Tally(RowsOf([next]), OnLine(n))
    ensures Over(Fire(s, c, next), n) == Over(s, n)
  {
    ConnTally(s.conns, c, Fire(s, c, next).conns[c], n);
    RowsOfConcat(s.conns[c].sent, [next]);
    TallyConcat(RowsOf(s.conns[c].sent), RowsOf([next]), OnLine(n));
  }

  /** The rows a failed send takes off the connection are those it had recorded, and the one refused. */
  lemma UnsentTally(sent: seq<Sent>, discarded: nat, failed: Option<Sent>, charge: Charge, n: nat)
    ensures Tally(RowsOf(StillSent(sent, discarded)), OnLine(n))
            + Tally(Unsent(sent, discarded, failed, charge), OnLine(n))
         == Tally(RowsOf(sent), OnLine(n)) + Tally(RowsOf(AsSeq(failed)), OnLine(n))
  {
    var kept, gone := StillSent(sent, discarded), Discarded(sent, discarded);
    var items := gone + AsSeq(failed);
    ChargedTally(items, ChargedFrom(charge, |gone|, |items|), n);
    RowsOfConcat(gone, AsSeq(failed));
    TallyConcat(RowsOf(gone), RowsOf(AsSeq(failed)), OnLine(n));
    assert kept + gone == sent;
    RowsOfConcat(kept, gone);
    TallyConcat(RowsOf(kept), RowsOf(gone), OnLine(n));
  }

  lemma RollbackBalance(s: Replay, c: nat, failed: Option<Sent>, back: seq<Row>, charge: Charge, n: nat)
    requires IsConn(s, c)
    ensures var s' := Rollback(s, c, failed, back, charge);
            Waiting(s', n) + Over(s', n) ==
              Waiting(s, n) + Over(s, n) + Tally(RowsOf(AsSeq(failed)), OnLine(n)) + Tally(back, OnLine(n))
  {
    var conn, w, p := s.conns[c], s.conns[c].worker, OnLine(n);
    var discarded := Monus(conn.pending, Monus(conn.pending, conn.buffered));
    var unsent := Unsent(conn.sent, discarded, failed, charge);
    var s' := Rollback(s, c, failed, back, charge);
    UnsentTally(conn.sent, discarded, failed, charge, n);
    PutBackOrGivenUp(unsent, n);
    ConnTally(s.conns, c, s'.conns[c], n);
    TallyUpdate(s.claimed, w, Sendable(unsent) + back + s.claimed[w], p);
    TallyConcat(Sendable(unsent) + back, s.claimed[w], p);
    TallyConcat(Sendable(unsent), back, p);
    TallyConcat(s.givenUp, GivenUp(unsent), p);
  }

  lemma ReplyBalance(s: Replay, c: nat, missed: bool, n: nat)
    requires Shape(s) && Enabled(s, Replied(c, missed))
    ensures var s' := Reply(s, c, missed);
            Waiting(s', n) + Over(s', n) == Waiting(s, n) + Over(s, n)
  {
    var s', conn := Reply(s, c, missed), s.conns[c];
    ConnTally(s.conns, c, s'.conns[c], n);
    if conn.sent[0].Trace? {
      TallyConcat(s.answered, [conn.sent[0].row], OnLine(n));
      TallyOne(conn.sent[0].row, OnLine(n));
    }
  }

  lemma LostBalance(s: Replay, c: nat, n: nat)
    requires Shape(s) && Enabled(s, Lost(c))
    ensures var s' := Apply(s, Lost(c));
            Waiting(s', n) + Over(s', n) == Waiting(s, n) + Over(s, n)
  {
    var s', conn := Apply(s, Lost(c)), s.conns[c];
    ConnTally(s.conns, c, s'.conns[c], n);
    TallyConcat(s.lost, RowsOf(conn.sent), OnLine(n));
  }

  lemma HandedOnBalance(s: Replay, c: nat, n: nat)
    requires Shape(s) && Enabled(s, HandedOn(c))
    ensures var s' := Apply(s, HandedOn(c));
            Waiting(s', n) + Over(s', n) == Waiting(s, n) + Over(s, n)
  {
    var s', w := Apply(s, HandedOn(c)), s.conns[c].worker;
    ConnTally(s.conns, c, s'.conns[c], n);
    TallyUpdate(s.claimed, w, [], OnLine(n));
    TallyConcat(s.claimed[w], s.returned, OnLine(n));
  }

  lemma QuietBalance(s: Replay, e: Event, n: nat)
    requires Shape(s) && Enabled(s, e) && Quiet(e)
    ensures var s' := Apply(s, e);
            Waiting(s', n) + Over(s', n) == Waiting(s, n) + Over(s, n)
  {
    match e
    case Replied(c, missed) => ReplyBalance(s, c, missed, n);
    case Lost(c) => LostBalance(s, c, n);
    case HandedOn(c) => HandedOnBalance(s, c, n);
    case Connected(c) =>
      assert ConnOk(s, c);
      ConnTally(s.conns, c, Apply(s, e).conns[c], n);
    case Resumed(c) =>
    case Flushed(c) => ConnTally(s.conns, c, Apply(s, e).conns[c], n);
    case Parked(c) =>
  }

  /** The event counts the batch the reader has filled. */
  predicate Counts(s: Replay, e: Event) {
    e.BatchCounted? || (e.TraceEnded? && s.reader.batch != [])
  }

  lemma SendingBalance(s: Replay, e: Event, n: nat)
    requires Shape(s) && Enabled(s, e) && !Outside(e) && !Quiet(e)
    ensures var s' := Apply(s, e); Waiting(s', n) + Over(s', n) == Waiting(s, n) + Over(s, n)
  {
    hide Charged, Sendable, GivenUp, ConnOk, Shape, Take, Rollback, Fire, Waiting, Over;
    match e
    case Fired(c, from) =>
      TakeKeepsShape(s, c, from);
      TakeBalance(s, c, from, n);
      FireBalance(Take(s, c, from), c, Taken(s, c, from), n);
    case FireFailed(c, from, charge) =>
      TakeKeepsShape(s, c, from);
      TakeBalance(s, c, from, n);
      RollbackBalance(Take(s, c, from), c, Some(Taken(s, c, from)), [], charge, n);
    case FlushedFirstFailed(c, from, charge) =>
      TakeKeepsShape(s, c, from);
      TakeBalance(s, c, from, n);
      RollbackBalance(Take(s, c, from), c, None, RowsOf([Taken(s, c, from)]), charge, n);
    case FlushFailed(c, charge) =>
      RollbackBalance(s, c, None, [], charge, n);
  }

  /** An event moves each row from one place to another; only counting a batch adds rows. */
  lemma EventBalance(s: Replay, e: Event, n: nat)
    requires Shape(s) && Enabled(s, e)
    ensures var s' := Apply(s, e);
            var added := if Counts(s, e) then Tally(s.reader.batch, OnLine(n)) else 0;
            Waiting(s', n) + Over(s', n) == Waiting(s, n) + Over(s, n) + added
  {
    hide Charged, Sendable, GivenUp, ConnOk, Shape, Take, Rollback, Fire;
    if Quiet(e) {
      QuietBalance(s, e, n);
    } else if !Outside(e) {
      SendingBalance(s, e, n);
    } else if e.BatchHanded? {
      TallyAppend(s.batches, s.reader.stage.batch, OnLine(n));
    }
  }

  ghost function LinesOf(rows: seq<Row>): set<nat> {
    set r | r in rows :: r.line
  }

  lemma LinesOfRest(rows: seq<Row>)
    requires rows != []
    ensures LinesOf(rows) == {rows[0].line} + LinesOf(rows[1..])
  {
    assert rows == [rows[0]] + rows[1..];
  }

  lemma LineAt(rows: seq<Row>, n: nat)
    ensures n in LinesOf(rows) <==> exists i :: 0 <= i < |rows| && rows[i].line == n
  {
  }

  lemma FirstLineIsNew(rows: seq<Row>)
    requires rows != [] && forall i, j | 0 <= i < j < |rows| :: rows[i].line < rows[j].line
    ensures rows[0].line !in LinesOf(rows[1..])
  {
    LineAt(rows[1..], rows[0].line);
    assert forall i | 0 <= i < |rows| - 1 :: rows[1..][i] == rows[i + 1];
  }

  /** Rows in increasing order name each of their lines once. */
  lemma {:induction false} DistinctLines(rows: seq<Row>, n: nat)
    requires forall i, j | 0 <= i < j < |rows| :: rows[i].line < rows[j].line
    ensures Tally(rows, OnLine(n)) == if n in LinesOf(rows) then 1 else 0
    ensures |LinesOf(rows)| == |rows|
  {
    if rows != [] {
      var rest := rows[1..];
      assert forall i | 0 <= i < |rest| :: rest[i] == rows[i + 1];
      DistinctLines(rest, n);
      LinesOfRest(rows);
      FirstLineIsNew(rows);
      hide LinesOf;
    }
  }

  predicate EndsLike(s: Replay, s': Replay) {
    s'.done - s.done == (|s'.answered| + |s'.lost| + |s'.givenUp|) - (|s.answered| + |s.lost| + |s.givenUp|)
  }

  /** What sending, and failing to send, leaves alone. */
  ghost predicate OnlySends(s: Replay, s': Replay) {
    && s'.reader == s.reader && s'.sent == s.sent && s'.watch == s.watch && s'.done >= s.done
    && |s'.claimed| == |s.claimed| && s'.running == s.running && |s'.wire| == |s.wire|
    && (s.returned == [] ==> s'.returned == [])
    && |s'.conns| == |s.conns|
    && (forall c: nat | c < |s.conns| :: s'.conns[c].worker == s.conns[c].worker && s'.conns[c].life == s.conns[c].life)
    && EndsLike(s, s')
  }

  lemma PartsOnlySend(s: Replay, c: nat, from: Source, next: Sent, failed: Option<Sent>, back: seq<Row>, charge: Charge)
    ensures CanTake(s, c, from) ==> OnlySends(s, Take(s, c, from)) && IsConn(Take(s, c, from), c)
    ensures IsConn(s, c) ==> OnlySends(s, Fire(s, c, next)) && OnlySends(s, Rollback(s, c, failed, back, charge))
  {
    hide Charged, Sendable, GivenUp, RowsOf;
  }

  lemma OnlySendsThrough(s: Replay, t: Replay, u: Replay)
    requires OnlySends(s, t) && OnlySends(t, u)
    ensures OnlySends(s, u)
  {
  }

  lemma SendingOnlySends(s: Replay, e: Event)
    requires Enabled(s, e) && !Outside(e) && !Quiet(e)
    ensures OnlySends(s, Apply(s, e))
  {
    hide Charged, Sendable, GivenUp, RowsOf, Take, Fire, Rollback, OnlySends;
    match e
    case Fired(c, from) =>
      var t, next := Take(s, c, from), Taken(s, c, from);
      PartsOnlySend(s, c, from, next, None, [], Charge.Failed);
      PartsOnlySend(t, c, from, next, None, [], Charge.Failed);
      OnlySendsThrough(s, t, Apply(s, e));
    case FireFailed(c, from, charge) =>
      var t, next := Take(s, c, from), Taken(s, c, from);
      PartsOnlySend(s, c, from, next, None, [], charge);
      PartsOnlySend(t, c, from, next, Some(next), [], charge);
      OnlySendsThrough(s, t, Apply(s, e));
    case FlushedFirstFailed(c, from, charge) =>
      var t, next := Take(s, c, from), Taken(s, c, from);
      PartsOnlySend(s, c, from, next, None, [], charge);
      PartsOnlySend(t, c, from, next, None, RowsOf([next]), charge);
      OnlySendsThrough(s, t, Apply(s, e));
    case FlushFailed(c, charge) =>
      PartsOnlySend(s, c, Fill, Backfill(0, 0), None, [], charge);
  }

  /** Rows end exactly as often as they are counted done. */
  lemma EventEnds(s: Replay, e: Event)
    requires Enabled(s, e)
    ensures EndsLike(s, Apply(s, e))
  {
    hide Charged, Sendable, GivenUp, RowsOf, Take, Fire, Rollback;
    if !Outside(e) && !Quiet(e) {
      SendingOnlySends(s, e);
    }
  }

  /** Only counting a batch changes what is counted, and only reading a row adds to the batch. */
  lemma EventReads(s: Replay, e: Event)
    requires Enabled(s, e)
    ensures var s', batch := Apply(s, e), s.reader.batch;
            if Counts(s, e) then
              && s'.sent == s.sent + |batch| && s'.counted == s.counted + LinesOf(batch)
              && s'.reader.batch == [] && s'.reader.pos == s.reader.pos
            else
              && s'.sent == s.sent && s'.counted == s.counted && s'.reader.pos >= s.reader.pos
              && (|| s'.reader.batch == batch
                  || s'.reader.batch == []
                  || (e.RowRead? && s'.reader.batch == batch + [Row(s.reader.pos, e.objId, e.size, e.op, 0)]
                      && s'.reader.pos == s.reader.pos + 1))
  {
    hide Charged, Sendable, GivenUp, RowsOf;
  }

  /** The batch being read holds each of its lines once, and none the reader has counted. */
  lemma BatchIsNew(s: Replay, n: nat)
    requires Conserved(s)
    ensures Tally(s.reader.batch, OnLine(n)) == if n in LinesOf(s.reader.batch) then 1 else 0
    ensures n in LinesOf(s.reader.batch) ==> n !in s.counted && n < s.reader.pos
    ensures |LinesOf(s.reader.batch)| == |s.reader.batch|
  {
    hide Placed;
    DistinctLines(s.reader.batch, n);
    LineAt(s.reader.batch, n);
  }

  lemma PlacedKept(s: Replay, e: Event)
    requires Shape(s) && Conserved(s) && Enabled(s, e)
    ensures Placed(Apply(s, e))
  {
    hide Apply, Enabled, Waiting, Over, Shape, LinesOf, Counts, ReadsOn, Tallied;
    var s' := Apply(s, e);
    EventReads(s, e);
    forall n: nat ensures Waiting(s', n) + Over(s', n) == if n in s'.counted then 1 else 0 {
      EventBalance(s, e, n);
      BatchIsNew(s, n);
    }
  }

  lemma TalliedKept(s: Replay, e: Event)
    requires Conserved(s) && Enabled(s, e)
    ensures Tallied(Apply(s, e))
  {
    hide Apply, Enabled, LinesOf, Counts, ReadsOn, Placed;
    EventEnds(s, e);
    EventReads(s, e);
    var added := LinesOf(s.reader.batch);
    BatchIsNew(s, 0);
    if Counts(s, e) {
      forall n | n in added ensures n !in s.counted {
        BatchIsNew(s, n);
      }
      assert added !! s.counted;
      assert |s.counted + added| == |s.counted| + |added|;
    }
  }

  lemma ReadsOnKept(s: Replay, e: Event)
    requires Conserved(s) && Enabled(s, e)
    ensures ReadsOn(Apply(s, e))
  {
    hide Apply, Enabled, LinesOf, Counts, Placed, Tallied;
    EventReads(s, e);
    var s' := Apply(s, e);
    forall n | n in s'.counted ensures n < s'.reader.pos {
      BatchIsNew(s, n);
    }
  }

  lemma ConservedKept(s: Replay, e: Event)
    requires Shape(s) && Conserved(s) && Enabled(s, e)
    ensures Conserved(Apply(s, e))
  {
    PlacedKept(s, e);
    TalliedKept(s, e);
    ReadsOnKept(s, e);
  }
}
