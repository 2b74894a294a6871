/**
 Rollback: a failed fire or flush takes back everything the connection had not flushed, from
 wherever it came, and leaves the worker's claim what it would have been without it, up to
 charges and rows given up.
 */
module TraceRollback {
  import opened Numbers
  import opened Options
  import opened TraceLedger
  import opened TraceRows
  import opened TraceRuns

  // ---- What a run of fires takes ------------------------------------------------------------------

  /** A fire for each source in turn. */
  function FireAll(c: nat, sources: seq<Source>): seq<Event> {
    if sources == [] then [] else FireAll(c, sources[..|sources| - 1]) + [Fired(c, sources[|sources| - 1])]
  }

  /** The rows a worker newly claims when a connection takes from `from`. */
  function Gain(s: Replay, c: nat, from: Source): seq<Row>
    requires CanTake(s, c, from)
  {
    match from
    case Fill => []
    case Mine => []
    case Shared => s.returned[..Claimable(s.returned)]
    case Channel => s.batches[0]
  }

  /** The row taken is the first of what the worker had claimed and claims now. */
  lemma TakeFromFront(s: Replay, c: nat, from: Source)
    requires CanTake(s, c, from)
    ensures var t, w := Take(s, c, from), s.conns[c].worker;
            && RowsOf([Taken(s, c, from)]) + t.claimed[w] == s.claimed[w] + Gain(s, c, from)
            && t.conns[c] == s.conns[c].(backfill := t.conns[c].backfill)
            && t.givenUp == s.givenUp && t.done == s.done && t.wire == s.wire && IsConn(t, c)
  {
    var next := Taken(s, c, from);
    RowOf(next);
    var w := s.conns[c].worker;
    match from
    case Fill =>
    case Mine => assert [s.claimed[w][0]] + s.claimed[w][1..] == s.claimed[w] + [];
    case Shared =>
      var k := Claimable(s.returned);
      assert [s.returned[0]] + s.returned[1..k] == [] + s.returned[..k];
    case Channel => assert [s.batches[0][0]] + s.batches[0][1..] == [] + s.batches[0];
  }

  /** All the rows the worker newly claims over a run of fires. */
  function Gained(s: Replay, c: nat, sources: seq<Source>): seq<Row>
    requires Legal(s, FireAll(c, sources))
    decreases |sources|
  {
    if sources == [] then []
    else
      var last := |sources| - 1;
      OneEventLess(s, FireAll(c, sources[..last]), Fired(c, sources[last]));
      Gained(s, c, sources[..last]) + Gain(After(s, FireAll(c, sources[..last])), c, sources[last])
  }

  lemma {:induction false} OneMoreEvent(s: Replay, events: seq<Event>, e: Event)
    requires Legal(s, events) && Enabled(After(s, events), e)
    ensures Legal(s, events + [e]) && After(s, events + [e]) == Apply(After(s, events), e)
    decreases events
  {
    if events == [] {
      assert [] + [e] == [e] && [e][1..] == [];
      assert Legal(Apply(s, e), []);
    } else {
      OneMoreEvent(Apply(s, events[0]), events[1..], e);
      assert (events + [e])[1..] == events[1..] + [e];
    }
  }

  lemma {:induction false} OneEventLess(s: Replay, events: seq<Event>, e: Event)
    requires Legal(s, events + [e])
    ensures Legal(s, events) && Enabled(After(s, events), e)
    ensures After(s, events + [e]) == Apply(After(s, events), e)
    decreases events
  {
    if events == [] {
      assert [] + [e] == [e] && [e][1..] == [];
      assert Legal(Apply(s, e), []);
    } else {
      assert (events + [e])[1..] == events[1..] + [e];
      OneEventLess(Apply(s, events[0]), events[1..], e);
    }
  }

  /** What connection `c` has fired since `s`. */
  function FiredSince(s: Replay, t: Replay, c: nat): seq<Sent>
    requires c < |s.conns| && c < |t.conns| && |s.conns[c].sent| <= |t.conns[c].sent|
  {
    t.conns[c].sent[|s.conns[c].sent|..]
  }

  /** The replay `t` is `s` with requests fired and nothing flushed, which took the front of the worker's claim. */
  ghost predicate OnlyFired(s: Replay, t: Replay, c: nat, gained: seq<Row>) {
    && IsConn(s, c) && IsConn(t, c)
    && var before, after, w := s.conns[c], t.conns[c], s.conns[c].worker;
       && before.sent <= after.sent && after.worker == w && |t.claimed| == |s.claimed|
       && after.pending - before.pending == after.buffered - before.buffered == |FiredSince(s, t, c)|
       && RowsOf(FiredSince(s, t, c)) + t.claimed[w] == s.claimed[w] + gained
       && t.givenUp == s.givenUp && t.done == s.done && t.wire == s.wire
  }

  lemma FireAdds(s: Replay, t: Replay, c: nat, gained: seq<Row>, from: Source)
    requires OnlyFired(s, t, c, gained) && CanTake(t, c, from)
    ensures OnlyFired(s, Apply(t, Fired(c, from)), c, gained + Gain(t, c, from))
  {
    hide RowsOf, Gain;
    var w, next := s.conns[c].worker, Taken(t, c, from);
    var u := Take(t, c, from);
    var v := Apply(t, Fired(c, from));
    TakeFromFront(t, c, from);
    assert v.conns[c].sent == t.conns[c].sent + [next];
    assert FiredSince(s, v, c) == FiredSince(s, t, c) + [next];
    RowsOfConcat(FiredSince(s, t, c), [next]);
    hide Take, Taken;
    assert v.claimed[w] == u.claimed[w];
    assert RowsOf(FiredSince(s, t, c)) + (RowsOf([next]) + u.claimed[w]) ==
           RowsOf(FiredSince(s, t, c)) + RowsOf([next]) + u.claimed[w];
    assert RowsOf(FiredSince(s, t, c)) + (t.claimed[w] + Gain(t, c, from)) ==
           s.claimed[w] + gained + Gain(t, c, from);
    assert s.claimed[w] + (gained + Gain(t, c, from)) == s.claimed[w] + gained + Gain(t, c, from);
  }

  lemma {:induction false} FiresOnly(s: Replay, c: nat, sources: seq<Source>)
    requires IsConn(s, c) && Legal(s, FireAll(c, sources))
    ensures OnlyFired(s, After(s, FireAll(c, sources)), c, Gained(s, c, sources))
    decreases |sources|
  {
    if sources == [] {
      assert FiredSince(s, s, c) == [];
      assert [] + s.claimed[s.conns[c].worker] == s.claimed[s.conns[c].worker] + [];
    } else {
      var last := |sources| - 1;
      var events := FireAll(c, sources[..last]);
      OneEventLess(s, events, Fired(c, sources[last]));
      FiresOnly(s, c, sources[..last]);
      FireAdds(s, After(s, events), c, Gained(s, c, sources[..last]), sources[last]);
    }
  }

  // ---- What a failed send puts back -----------------------------------------------------------------

  /** How a send can fail after a run of fires. */
  datatype Failure =
    | OfFlush(charge: Charge)
    | OfFire(from: Source, charge: Charge)
    | OfFirstFlush(from: Source, charge: Charge)

  function AsEvent(c: nat, f: Failure): Event {
    match f
    case OfFlush(charge) => FlushFailed(c, charge)
    case OfFire(from, charge) => FireFailed(c, from, charge)
    case OfFirstFlush(from, charge) => FlushedFirstFailed(c, from, charge)
  }

  /** The request in hand when the send failed, if there was one. */
  function InHandOf(t: Replay, c: nat, f: Failure): seq<Sent>
    requires Enabled(t, AsEvent(c, f))
  {
    match f
    case OfFlush(_) => []
    case OfFire(from, _) => [Taken(t, c, from)]
    case OfFirstFlush(from, _) => [Taken(t, c, from)]
  }

  /**
   The rows that failed with the send. A refused flush charges every one of them; a refused fire only the row in hand,
   which is among them only then; a failure for now none.
   */
  function FailedRows(t: Replay, c: nat, f: Failure, fired: seq<Sent>): seq<Row>
    requires Enabled(t, AsEvent(c, f))
  {
    match f
    case OfFlush(charge) => if charge.All? then Again(RowsOf(fired)) else RowsOf(fired)
    case OfFire(from, charge) =>
      var hand := RowsOf([Taken(t, c, from)]);
      RowsOf(fired) + if charge.Failed? then Again(hand) else hand
    case OfFirstFlush(_, charge) => if charge.All? then Again(RowsOf(fired)) else RowsOf(fired)
  }

  /** The row in hand when it is not at fault. */
  function Innocent(t: Replay, c: nat, f: Failure): seq<Row>
    requires Enabled(t, AsEvent(c, f))
  {
    if f.OfFirstFlush? then RowsOf([Taken(t, c, f.from)]) else []
  }

  /** What the worker would claim besides its queue by taking the request in hand. */
  function GainOf(t: Replay, c: nat, f: Failure): seq<Row>
    requires Enabled(t, AsEvent(c, f))
  {
    if f.OfFlush? then [] else Gain(t, c, f.from)
  }

  /** A rollback from a connection that had fired since `s`: exactly those requests are taken back. */
  lemma RollbackOfFired(
    s: Replay, t: Replay, c: nat, fired: seq<Sent>, failed: Option<Sent>, back: seq<Row>, charge: Charge)
    requires IsConn(t, c) && c < |s.conns|
    requires t.conns[c].sent == s.conns[c].sent + fired
    requires t.conns[c].buffered == |fired| <= t.conns[c].pending
    ensures var u, w := Rollback(t, c, failed, back, charge), t.conns[c].worker;
            var gone, hand := RowsOf(fired), RowsOf(AsSeq(failed));
            var unsent := match charge
              case Nothing => gone + hand
              case Failed => gone + Again(hand)
              case All => Again(gone) + Again(hand);
            && u.conns[c].sent == s.conns[c].sent && u.conns[c].buffered == 0
            && u.conns[c].pending == t.conns[c].pending - |fired|
            && u.claimed[w] == Sendable(unsent) + back + t.claimed[w]
            && u.givenUp == t.givenUp + GivenUp(unsent) && u.done == t.done + |GivenUp(unsent)| && u.wire == t.wire
  {
    var conn := t.conns[c];
    assert Monus(conn.pending, Monus(conn.pending, conn.buffered)) == |fired|;
    assert Discarded(conn.sent, |fired|) == fired;
    assert StillSent(conn.sent, |fired|) == s.conns[c].sent;
    WhoIsCharged(conn.sent, |fired|, failed, charge);
    hide Charged, Sendable, GivenUp, RowsOf;
  }

  /** What a send that fails in replay `t` leaves, `fired` being all it takes back besides the request in hand. */
  lemma FailureTakesBack(s: Replay, t: Replay, c: nat, fired: seq<Sent>, f: Failure)
    requires Enabled(t, AsEvent(c, f)) && IsConn(t, c) && c < |s.conns|
    requires t.conns[c].sent == s.conns[c].sent + fired
    requires t.conns[c].buffered == |fired| <= t.conns[c].pending
    ensures var u, w := Apply(t, AsEvent(c, f)), t.conns[c].worker;
            var rows := FailedRows(t, c, f, fired);
            var rest := if f.OfFlush? then t.claimed[w] else Take(t, c, f.from).claimed[w];
            && u.conns[c].sent == s.conns[c].sent && u.conns[c].buffered == 0
            && u.conns[c].pending == t.conns[c].pending - |fired|
            && u.claimed[w] == Sendable(rows) + Innocent(t, c, f) + rest
            && RowsOf(InHandOf(t, c, f)) + rest == t.claimed[w] + GainOf(t, c, f)
            && u.givenUp == t.givenUp + GivenUp(rows) && u.done == t.done + |GivenUp(rows)| && u.wire == t.wire
  {
    hide Take, Taken, Gain, Rollback, CanTake, Charged, Sendable, GivenUp;
    assert RowsOf(AsSeq(None)) == [] == Again([]);
    assert RowsOf(fired) + [] == RowsOf(fired) && Again(RowsOf(fired)) + [] == Again(RowsOf(fired));
    match f
    case OfFlush(charge) =>
      RollbackOfFired(s, t, c, fired, None, [], charge);
      assert RowsOf([]) + t.claimed[t.conns[c].worker] == t.claimed[t.conns[c].worker] + [];
    case OfFire(from, charge) =>
      TakeFromFront(t, c, from);
      RollbackOfFired(s, Take(t, c, from), c, fired, Some(Taken(t, c, from)), [], charge);
    case OfFirstFlush(from, charge) =>
      TakeFromFront(t, c, from);
      RollbackOfFired(s, Take(t, c, from), c, fired, None, RowsOf([Taken(t, c, from)]), charge);
  }

  /**
   The replay `u`, in which a send failed, after `t`, in which it was about to, after `s`; `rest`
   is the claim behind what is put back.
   */
  ghost predicate TakesBack(s: Replay, t: Replay, u: Replay, c: nat, f: Failure, gained: seq<Row>, rest: seq<Row>)
    requires OnlyFired(s, t, c, gained) && Enabled(t, AsEvent(c, f))
  {
    var w, fired := s.conns[c].worker, FiredSince(s, t, c);
    var rows := FailedRows(t, c, f, fired);
    && c < |u.conns| && |u.claimed| == |s.claimed|
    && u.conns[c].sent == s.conns[c].sent && u.conns[c].pending == s.conns[c].pending && u.conns[c].buffered == 0
    && u.givenUp == s.givenUp + GivenUp(rows) && u.done == s.done + |GivenUp(rows)| && u.wire == s.wire
    && u.claimed[w] == Sendable(rows) + Innocent(t, c, f) + rest
    && RowsOf(fired + InHandOf(t, c, f)) + rest == s.claimed[w] + gained + GainOf(t, c, f)
  }

  lemma FailureAfterFires(s: Replay, t: Replay, c: nat, f: Failure, gained: seq<Row>)
    requires OnlyFired(s, t, c, gained) && s.conns[c].buffered == 0 && Enabled(t, AsEvent(c, f))
    ensures exists rest :: TakesBack(s, t, Apply(t, AsEvent(c, f)), c, f, gained, rest)
  {
    var w, fired := s.conns[c].worker, FiredSince(s, t, c);
    assert t.conns[c].sent == s.conns[c].sent + fired;
    FailureTakesBack(s, t, c, fired, f);
    var rest := if f.OfFlush? then t.claimed[w] else Take(t, c, f.from).claimed[w];
    RowsOfConcat(fired, InHandOf(t, c, f));
    Sizes(t, c, f);
    hide Apply, Enabled, RowsOf, Charged, Sendable, GivenUp, GainOf, FailedRows, Take, Taken, Innocent, InHandOf;
    Around(RowsOf(fired), RowsOf(InHandOf(t, c, f)), rest, t.claimed[w], s.claimed[w], gained, GainOf(t, c, f));
    assert TakesBack(s, t, Apply(t, AsEvent(c, f)), c, f, gained, rest);
  }

  lemma Sizes(t: Replay, c: nat, f: Failure)
    requires Enabled(t, AsEvent(c, f)) && c < |t.conns|
    ensures var u := Apply(t, AsEvent(c, f)); |u.conns| == |t.conns| && |u.claimed| == |t.claimed|
  {
    hide Charged, Sendable, GivenUp, RowsOf;
  }

  lemma Around(
    fired: seq<Row>, hand: seq<Row>, rest: seq<Row>, after: seq<Row>,
    before: seq<Row>, gained: seq<Row>, gain: seq<Row>)
    requires fired + after == before + gained && hand + rest == after + gain
    ensures fired + hand + rest == before + gained + gain
  {
    assert fired + (hand + rest) == fired + hand + rest;
    assert fired + (after + gain) == fired + after + gain;
  }

  /**
   A failed fire or flush takes back exactly what the connection had fired since its last flush, and the request in
   hand, wherever each came from. The worker's claim becomes those rows, in order, charged as the failure says and
   without the ones out of attempts, ahead of the rest; uncharged they and the rest are the claim as it was, followed
   by what was newly claimed. What was flushed stays in flight, and nothing of this went on the wire.
   */
  lemma FailedSendTakesBack(s: Replay, c: nat, sources: seq<Source>, f: Failure)
    requires IsConn(s, c) && s.conns[c].buffered == 0
    requires Legal(s, FireAll(c, sources)) && Enabled(After(s, FireAll(c, sources)), AsEvent(c, f))
    ensures Legal(s, FireAll(c, sources) + [AsEvent(c, f)])
    ensures var t, u := After(s, FireAll(c, sources)), After(s, FireAll(c, sources) + [AsEvent(c, f)]);
            && OnlyFired(s, t, c, Gained(s, c, sources))
            && exists rest :: TakesBack(s, t, u, c, f, Gained(s, c, sources), rest)
  {
    FiresOnly(s, c, sources);
    FailureAfterFires(s, After(s, FireAll(c, sources)), c, f, Gained(s, c, sources));
    OneMoreEvent(s, FireAll(c, sources), AsEvent(c, f));
  }

  // ---- A failed flush that charges nothing undoes its whole batch -------------------------------------

  function AsSent(rows: seq<Row>): (sent: seq<Sent>)
    ensures |sent| == |rows|
    ensures forall i | 0 <= i < |rows| :: sent[i] == Trace(rows[i])
  {
    seq(|rows|, i requires 0 <= i < |rows| => Trace(rows[i]))
  }

  lemma {:induction false} AsSentRows(rows: seq<Row>)
    ensures RowsOf(AsSent(rows)) == rows
  {
    if rows != [] {
      AsSentRows(rows[1..]);
      assert AsSent(rows)[1..] == AsSent(rows[1..]);
    }
  }

  function Fires(c: nat, k: nat): seq<Event> {
    if k == 0 then [] else Fires(c, k - 1) + [Fired(c, Mine)]
  }

  /** The replay once connection `c` has buffered `k` of its worker's claimed rows. */
  function Batched(s: Replay, c: nat, k: nat): Replay
    requires IsConn(s, c) && k <= |s.claimed[s.conns[c].worker]|
  {
    var conn, w := s.conns[c], s.conns[c].worker;
    s.(conns := s.conns[c := conn.(
         pending := conn.pending + k, buffered := conn.buffered + k,
         sent := conn.sent + AsSent(s.claimed[w][..k]), inflight := conn.inflight + k)],
       claimed := s.claimed[w := s.claimed[w][k..]])
  }

  /** One more claimed row fired is the batch one longer. */
  lemma BatchGrows(s: Replay, c: nat, k: nat)
    requires Runs(s, c) && s.conns[c].backfill == [] && k < |s.claimed[s.conns[c].worker]|
    ensures var t := Batched(s, c, k);
            Enabled(t, Fired(c, Mine)) && Apply(t, Fired(c, Mine)) == Batched(s, c, k + 1)
  {
    var conn, w := s.conns[c], s.conns[c].worker;
    var mine, t, u := s.claimed[w], Batched(s, c, k), Batched(s, c, k + 1);
    assert mine[k..][1..] == mine[k + 1..];
    assert mine[..k + 1] == mine[..k] + [mine[k]];
    assert AsSent(mine[..k + 1]) == AsSent(mine[..k]) + [Trace(mine[k])];
    assert conn.sent + AsSent(mine[..k]) + [Trace(mine[k])] == u.conns[c].sent;
    var next := Apply(t, Fired(c, Mine));
    assert next.conns[c] == u.conns[c];
    assert next.conns == u.conns && next.claimed == u.claimed;
  }

  lemma NoBatch(s: Replay, c: nat)
    requires IsConn(s, c)
    ensures Batched(s, c, 0) == s
  {
    var conn, mine := s.conns[c], s.claimed[s.conns[c].worker];
    assert conn.sent + AsSent(mine[..0]) == conn.sent && mine[0..] == mine;
    assert Batched(s, c, 0).conns == s.conns && Batched(s, c, 0).claimed == s.claimed;
  }

  lemma {:induction false} FiresBatch(s: Replay, c: nat, k: nat)
    requires Runs(s, c) && s.conns[c].backfill == [] && k <= |s.claimed[s.conns[c].worker]|
    ensures Legal(s, Fires(c, k)) && After(s, Fires(c, k)) == Batched(s, c, k)
  {
    if k == 0 {
      NoBatch(s, c);
    } else {
      hide Apply, Enabled, Batched;
      FiresBatch(s, c, k - 1);
      BatchGrows(s, c, k - 1);
      OneMoreEvent(s, Fires(c, k - 1), Fired(c, Mine));
    }
  }

  /** Nothing of a batch of untired rows is given up or charged by a failure for now. */
  lemma BatchComesBack(sent: seq<Sent>, rows: seq<Row>)
    requires Untired(rows)
    ensures var all := sent + AsSent(rows);
            && StillSent(all, |rows|) == sent
            && Sendable(Unsent(all, |rows|, None, Nothing)) == rows
            && GivenUp(Unsent(all, |rows|, None, Nothing)) == []
  {
    var all, batch := sent + AsSent(rows), AsSent(rows);
    assert Discarded(all, |rows|) == batch && batch + AsSeq(None) == batch;
    AsSentRows(rows);
    ChargedRows(batch, |batch|);
    SendableRows(rows);
  }

  lemma RollbackOfBatch(s: Replay, c: nat, k: nat)
    requires Shape(s) && Attempts(s) && Runs(s, c) && s.conns[c].buffered == 0
    requires k <= |s.claimed[s.conns[c].worker]|
    ensures Rollback(Batched(s, c, k), c, None, [], Nothing) == s
  {
    var conn, w := s.conns[c], s.conns[c].worker;
    var mine := s.claimed[w];
    assert ConnOk(s, c);
    assert Untired(mine);
    BatchComesBack(conn.sent, mine[..k]);
    hide Unsent, Sendable, GivenUp, StillSent, Attempts, Shape, Untired;
    var back := Rollback(Batched(s, c, k), c, None, [], Nothing);
    assert mine[..k] + [] + mine[k..] == mine;
    assert back.claimed == s.claimed;
    assert s.givenUp + [] == s.givenUp;
    assert back.conns[c] == conn;
    assert back.conns == s.conns;
  }

  /**
   A batch whose flush fails for now leaves no trace: after firing any number of claimed rows
   and failing to flush them, the whole replay is as it was before the first of them.
   */
  lemma FailedFlushUndoesBatch(s: Replay, c: nat, k: nat)
    requires Shape(s) && Attempts(s) && Runs(s, c) && s.conns[c].buffered == 0
    requires s.conns[c].backfill == [] && k <= |s.claimed[s.conns[c].worker]|
    ensures var events := Fires(c, k) + [FlushFailed(c, Nothing)];
            Legal(s, events) && After(s, events) == s
  {
    FiresBatch(s, c, k);
    RollbackOfBatch(s, c, k);
    OneMoreEvent(s, Fires(c, k), FlushFailed(c, Nothing));
  }
}
