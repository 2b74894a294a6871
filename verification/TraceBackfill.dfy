/**
 Filling misses: a connection that gets a miss queues the object and later sets it, in the order
 of the misses.
 */
module TraceBackfill {
  import opened Options
  import opened TraceLedger
  import opened TraceRows

  /** What connection `c` queues to be filled in an event: the object of a GET that missed, while there is room. */
  function Missed(s: Replay, e: Event, c: nat): seq<(nat, nat)>
    requires Enabled(s, e)
  {
    if e.Replied? && e.c == c && e.missed && s.conns[c].sent[0].Trace? && s.conns[c].sent[0].row.op == Get
       && |s.conns[c].backfill| < 1024
    then [(s.conns[c].sent[0].row.objId, s.conns[c].sent[0].row.size)]
    else []
  }

  /** What it takes to fill. */
  function Filled(s: Replay, e: Event, c: nat): seq<(nat, nat)>
    requires Enabled(s, e)
  {
    if (e.Fired? || e.FireFailed? || e.FlushedFirstFailed?) && e.c == c && e.from == Fill then [s.conns[c].backfill[0]]
    else []
  }

  /** Firing, and taking back what was fired, touch no queue of misses. */
  predicate FillsKept(s: Replay, s': Replay) {
    |s'.conns| == |s.conns| && forall k | 0 <= k < |s.conns| :: s'.conns[k].backfill == s.conns[k].backfill
  }

  lemma SendKeepsFills(s: Replay, c: nat, next: Sent, failed: Option<Sent>, back: seq<Row>, charge: Charge)
    requires IsConn(s, c)
    ensures FillsKept(s, Fire(s, c, next)) && FillsKept(s, Rollback(s, c, failed, back, charge))
  {
    hide Unsent, Sendable, GivenUp, StillSent;
  }

  lemma TakeFills(s: Replay, c: nat, from: Source)
    requires CanTake(s, c, from)
    ensures var t := Take(s, c, from);
            && IsConn(t, c) && |t.conns| == |s.conns|
            && forall k | 0 <= k < |s.conns| ::
                 t.conns[k].backfill == if k == c && from == Fill then s.conns[k].backfill[1..] else s.conns[k].backfill
  {
  }

  /** Of the other events only a reply adds to a queue of misses. */
  lemma QuietFills(s: Replay, e: Event, c: nat)
    requires Enabled(s, e) && c < |s.conns| && e != Connected(c)
    requires !e.Fired? && !e.FireFailed? && !e.FlushedFirstFailed?
    ensures var s' := Apply(s, e);
            && |s'.conns| == |s.conns|
            && s'.conns[c].backfill == s.conns[c].backfill + Missed(s, e, c)
  {
    hide Rollback, RowsOf, Discarded;
    if e.FlushFailed? {
      SendKeepsFills(s, e.c, Backfill(0, 0), None, [], e.charge);
    }
  }

  /** A send takes the miss it fills, and no other event does. */
  lemma SendFills(s: Replay, e: Event, c: nat)
    requires Enabled(s, e) && c < |s.conns|
    requires e.Fired? || e.FireFailed? || e.FlushedFirstFailed?
    ensures var s' := Apply(s, e);
            && |s'.conns| == |s.conns|
            && s.conns[c].backfill == Filled(s, e, c) + s'.conns[c].backfill
  {
    hide Take, Fire, Rollback, RowsOf;
    match e
    case Fired(d, from) =>
      TakeFills(s, d, from);
      SendKeepsFills(Take(s, d, from), d, Taken(s, d, from), None, [], Nothing);
    case FireFailed(d, from, charge) =>
      TakeFills(s, d, from);
      SendKeepsFills(Take(s, d, from), d, Taken(s, d, from), Some(Taken(s, d, from)), [], charge);
    case FlushedFirstFailed(d, from, charge) =>
      TakeFills(s, d, from);
      SendKeepsFills(Take(s, d, from), d, Taken(s, d, from), None, RowsOf([Taken(s, d, from)]), charge);
  }

  /** An event misses or fills at most one object, the first only while there is room, and never both. */
  lemma NoteSizes(s: Replay, e: Event, c: nat)
    requires Enabled(s, e) && c < |s.conns|
    ensures Missed(s, e, c) == [] || Filled(s, e, c) == []
    ensures |s.conns[c].backfill| <= 1024 ==> |s.conns[c].backfill + Missed(s, e, c)| <= 1024
    ensures Filled(s, e, c) != [] ==> e.Fired? || e.FireFailed? || e.FlushedFirstFailed?
    ensures Missed(s, e, c) != [] ==> e.Replied?
  {
  }

  lemma StepFills(s: Replay, e: Event, c: nat)
    requires Enabled(s, e) && c < |s.conns| && e != Connected(c)
    ensures var s' := Apply(s, e);
            && |s'.conns| == |s.conns|
            && s.conns[c].backfill + Missed(s, e, c) == Filled(s, e, c) + s'.conns[c].backfill
            && (|s.conns[c].backfill| <= 1024 ==> |s'.conns[c].backfill| <= 1024)
  {
    hide Apply, Enabled, Missed, Filled;
    NoteSizes(s, e, c);
    if e.Fired? || e.FireFailed? || e.FlushedFirstFailed? {
      SendFills(s, e, c);
    } else {
      QuietFills(s, e, c);
    }
  }

  function AllMissed(s: Replay, events: seq<Event>, c: nat): seq<(nat, nat)>
    requires Legal(s, events)
    decreases events
  {
    if events == [] then [] else Missed(s, events[0], c) + AllMissed(Apply(s, events[0]), events[1..], c)
  }

  function AllFilled(s: Replay, events: seq<Event>, c: nat): seq<(nat, nat)>
    requires Legal(s, events)
    decreases events
  {
    if events == [] then [] else Filled(s, events[0], c) + AllFilled(Apply(s, events[0]), events[1..], c)
  }

  lemma Onwards<T>(
    queue: seq<T>, missed: seq<T>, filled: seq<T>, next: seq<T>, more: seq<T>, later: seq<T>, last: seq<T>)
    requires queue + missed == filled + next && next + more == later + last
    ensures queue + (missed + more) == (filled + later) + last
  {
    assert queue + (missed + more) == (queue + missed) + more;
    assert (filled + next) + more == filled + (next + more);
    assert filled + (later + last) == (filled + later) + last;
  }

  /**
   Over any run in which connection `c` does not connect anew: what it fills, in order, and what is still queued are
   what was queued and the misses since, and the queue keeps to its bound.
   */
  lemma {:induction false} MissesAreFilledInOrder(s: Replay, events: seq<Event>, c: nat)
    requires Legal(s, events) && c < |s.conns| && Connected(c) !in events && |s.conns[c].backfill| <= 1024
    ensures var s' := After(s, events);
            && |s'.conns| == |s.conns| && |s'.conns[c].backfill| <= 1024
            && s.conns[c].backfill + AllMissed(s, events, c) == AllFilled(s, events, c) + s'.conns[c].backfill
    decreases events
  {
    if events != [] {
      var e, rest := events[0], events[1..];
      assert events == [e] + rest;
      var t := Apply(s, e);
      StepFills(s, e, c);
      MissesAreFilledInOrder(t, rest, c);
      hide Apply, Enabled, Missed, Filled;
      Onwards(s.conns[c].backfill, Missed(s, e, c), Filled(s, e, c), t.conns[c].backfill, AllMissed(t, rest, c),
              AllFilled(t, rest, c), After(t, rest).conns[c].backfill);
    }
  }

  /** And what is fired to fill is a SET of that object and size. */
  lemma FillIsFired(s: Replay, c: nat)
    requires Enabled(s, Fired(c, Fill))
    ensures var s' := Apply(s, Fired(c, Fill));
            && Filled(s, Fired(c, Fill), c) == [s.conns[c].backfill[0]]
            && s'.conns[c].sent == s.conns[c].sent + [Backfill(s.conns[c].backfill[0].0, s.conns[c].backfill[0].1)]
  {
  }
}
