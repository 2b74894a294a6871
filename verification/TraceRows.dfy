/**
 Trace rows and the queues that hold them (src/tracereplay.rs): what a worker claims, what a
 failed send puts back, what a failed connection hands to the others.

 The functions say what each operation does to the queues; the classes keep the queues as the
 program does and are proved against the functions.
 */
module TraceRows {
  import opened Ledgers
  import opened Numbers
  import opened Options

  const CLAIM_BATCH: nat := 64
  const MAX_SEND_ATTEMPTS: nat := 3

  datatype RowOp = Get | Set | Del

  /** One row of the trace. `line` is its position in the file: the row's identity. */
  datatype Row = Row(line: nat, objId: nat, size: nat, op: RowOp, failedSends: nat)

  /** A request on a connection: a trace row, or a SET filling a miss. */
  datatype Sent = Trace(row: Row) | Backfill(objId: nat, size: nat)

  /** Which unsent rows a send failure counts against the limit. */
  datatype Charge = Nothing | Failed | All

  /** Whether a row is the file's line `n`. */
  ghost function OnLine(n: nat): Row -> bool {
    (r: Row) => r.line == n
  }

  // ---- What a failed send does ---------------------------------------------------------

  /** The trace rows of `items`, in order. */
  function RowsOf(items: seq<Sent>): seq<Row> {
    if items == [] then []
    else if items[0].Trace? then [items[0].row] + RowsOf(items[1..])
    else RowsOf(items[1..])
  }

  /** The trace rows of `items` in order, those at positions `from` on charged one failed send. */
  function Charged(items: seq<Sent>, from: int): seq<Row> {
    if items == [] then []
    else
      var rest := Charged(items[1..], from - 1);
      if items[0].Backfill? then rest
      else if from <= 0 then [items[0].row.(failedSends := items[0].row.failedSends + 1)] + rest
      else [items[0].row] + rest
  }

  function Sendable(rows: seq<Row>): seq<Row> {
    if rows == [] then []
    else if rows[0].failedSends < MAX_SEND_ATTEMPTS then [rows[0]] + Sendable(rows[1..])
    else Sendable(rows[1..])
  }

  function GivenUp(rows: seq<Row>): seq<Row> {
    if rows == [] then []
    else if rows[0].failedSends < MAX_SEND_ATTEMPTS then GivenUp(rows[1..])
    else [rows[0]] + GivenUp(rows[1..])
  }

  /** The first position charged when `discarded` requests and then the refused one were not sent. */
  function ChargedFrom(charge: Charge, discarded: nat, unsent: nat): nat {
    match charge
    case Nothing => unsent
    case Failed => discarded
    case All => 0
  }

  function AsSeq(next: Option<Sent>): seq<Sent> {
    if next.Some? then [next.value] else []
  }

  /** What a failed send leaves on the connection, and what it takes off it. */
  function StillSent(sent: seq<Sent>, discarded: nat): seq<Sent> {
    sent[..Monus(|sent|, discarded)]
  }

  function Discarded(sent: seq<Sent>, discarded: nat): seq<Sent> {
    sent[Monus(|sent|, discarded)..]
  }

  /** The rows a failed send takes off the connection, with their charges. */
  function Unsent(sent: seq<Sent>, discarded: nat, failed: Option<Sent>, charge: Charge): seq<Row> {
    var gone := Discarded(sent, discarded);
    var items := gone + AsSeq(failed);
    Charged(items, ChargedFrom(charge, |gone|, |items|))
  }

  /** The same row, charged at most once more. */
  predicate SameRow(a: Row, b: Row) {
    b == a || b == a.(failedSends := a.failedSends + 1)
  }

  /** Charging changes no row's identity or place, and no charge changes nothing. */
  lemma {:induction false} ChargedRows(items: seq<Sent>, from: int)
    ensures var rows, charged := RowsOf(items), Charged(items, from);
            && |charged| == |rows|
            && (forall i | 0 <= i < |rows| :: SameRow(rows[i], charged[i]))
            && (from >= |items| ==> charged == rows)
  {
    if items != [] {
      ChargedRows(items[1..], from - 1);
    }
  }

  /** The rows with one failed send more. */
  function Again(rows: seq<Row>): (again: seq<Row>)
    ensures |again| == |rows|
    ensures forall i | 0 <= i < |rows| :: again[i] == rows[i].(failedSends := rows[i].failedSends + 1)
  {
    seq(|rows|, i requires 0 <= i < |rows| => rows[i].(failedSends := rows[i].failedSends + 1))
  }

  lemma {:induction false} ChargedFromTheFirst(items: seq<Sent>, from: int)
    requires from <= 0
    ensures Charged(items, from) == Again(RowsOf(items))
  {
    if items != [] {
      ChargedFromTheFirst(items[1..], from - 1);
    }
  }

  lemma {:induction false} ChargedConcat(a: seq<Sent>, b: seq<Sent>, from: int)
    ensures Charged(a + b, from) == Charged(a, from) + Charged(b, from - |a|)
  {
    if a == [] {
      assert a + b == b;
    } else {
      ChargedConcat(a[1..], b, from - 1);
      assert (a + b)[1..] == a[1..] + b;
    }
  }

  /**
   A failure for now charges no row; a refused request is charged alone, and the ones discarded with it keep their
   counts; a refused flush charges every row it discarded.
   */
  lemma WhoIsCharged(sent: seq<Sent>, discarded: nat, failed: Option<Sent>, charge: Charge)
    ensures var gone, hand := RowsOf(Discarded(sent, discarded)), RowsOf(AsSeq(failed));
            Unsent(sent, discarded, failed, charge) ==
            match charge
            case Nothing => gone + hand
            case Failed => gone + Again(hand)
            case All => Again(gone) + Again(hand)
  {
    var gone, hand := Discarded(sent, discarded), AsSeq(failed);
    var from := ChargedFrom(charge, |gone|, |gone + hand|);
    ChargedConcat(gone, hand, from);
    hide Charged, RowsOf;
    match charge
    case Nothing =>
      ChargedRows(gone, from);
      ChargedRows(hand, from - |gone|);
    case Failed =>
      ChargedRows(gone, from);
      ChargedFromTheFirst(hand, from - |gone|);
    case All =>
      ChargedFromTheFirst(gone, from);
      ChargedFromTheFirst(hand, from - |gone|);
  }

  lemma {:induction false} ChargedTally(items: seq<Sent>, from: int, n: nat)
    ensures Tally(Charged(items, from), OnLine(n)) == Tally(RowsOf(items), OnLine(n))
  {
    if items != [] {
      ChargedTally(items[1..], from - 1, n);
    }
  }

  /** Every unsent row is either put back or given up, never both. */
  lemma {:induction false} PutBackOrGivenUp(rows: seq<Row>, n: nat)
    ensures Tally(rows, OnLine(n)) == Tally(Sendable(rows), OnLine(n)) + Tally(GivenUp(rows), OnLine(n))
  {
    if rows != [] {
      PutBackOrGivenUp(rows[1..], n);
    }
  }

  lemma {:induction false} SendableRows(rows: seq<Row>)
    ensures forall r | r in Sendable(rows) :: r in rows && r.failedSends < MAX_SEND_ATTEMPTS
    ensures forall r | r in GivenUp(rows) :: r in rows && r.failedSends >= MAX_SEND_ATTEMPTS
    ensures (forall r | r in rows :: r.failedSends < MAX_SEND_ATTEMPTS) ==>
              Sendable(rows) == rows && GivenUp(rows) == []
  {
    if rows != [] {
      SendableRows(rows[1..]);
    }
  }

  lemma {:induction false} RowsOfConcat(a: seq<Sent>, b: seq<Sent>)
    ensures RowsOf(a + b) == RowsOf(a) + RowsOf(b)
  {
    if a == [] {
      assert a + b == b;
    } else {
      RowsOfConcat(a[1..], b);
      assert (a + b)[1..] == a[1..] + b;
    }
  }

  lemma {:induction false} SortConcat(a: seq<Row>, b: seq<Row>)
    ensures Sendable(a + b) == Sendable(a) + Sendable(b)
    ensures GivenUp(a + b) == GivenUp(a) + GivenUp(b)
  {
    hide Sendable, GivenUp;
    if a == [] {
      assert a + b == b;
      SortNothing();
    } else {
      SortConcat(a[1..], b);
      SortFirst(a[0], a[1..] + b);
      SortFirst(a[0], a[1..]);
      assert a + b == [a[0]] + (a[1..] + b) && a == [a[0]] + a[1..];
      var s1, g1 := Sendable([a[0]]), GivenUp([a[0]]);
      assert s1 + (Sendable(a[1..]) + Sendable(b)) == s1 + Sendable(a[1..]) + Sendable(b);
      assert g1 + (GivenUp(a[1..]) + GivenUp(b)) == g1 + GivenUp(a[1..]) + GivenUp(b);
    }
  }

  lemma SortNothing()
    ensures Sendable([]) == [] && GivenUp([]) == []
  {
  }

  lemma SortFirst(row: Row, rows: seq<Row>)
    ensures Sendable([row] + rows) == Sendable([row]) + Sendable(rows)
    ensures GivenUp([row] + rows) == GivenUp([row]) + GivenUp(rows)
  {
    assert ([row] + rows)[1..] == rows && [row][1..] == [];
  }

  /** Sorting one more request only adds to what was sorted before it. */
  lemma OneMore(items: seq<Sent>, x: Sent, from: int)
    ensures var before, after := Charged(items, from), Charged(items + [x], from);
            match x
            case Backfill(_, _) => after == before
            case Trace(row) =>
              var charged := if from <= |items| then row.(failedSends := row.failedSends + 1) else row;
              if charged.failedSends < MAX_SEND_ATTEMPTS then
                Sendable(after) == Sendable(before) + [charged] && |GivenUp(after)| == |GivenUp(before)|
              else
                Sendable(after) == Sendable(before) && |GivenUp(after)| == |GivenUp(before)| + 1
  {
    ChargedConcat(items, [x], from);
    SortConcat(Charged(items, from), Charged([x], from - |items|));
  }

  lemma RowOf(x: Sent)
    ensures RowsOf([x]) == if x.Trace? then [x.row] else []
  {
    assert [x][1..] == [];
  }

  // ---- Where the next row comes from ---------------------------------------------------

  /** The result of asking a worker for its next row. */
  datatype Next = NextRow(row: Row) | NotReady | Exhausted

  /** What a worker claims from the returned rows at once. */
  function Claimable(returned: seq<Row>): nat { Min(|returned|, CLAIM_BATCH) }

  /**
   The next row, and what is left of the worker's claim, the returned rows and the channel: from the claim, then from
   the returned rows, a batch of which is claimed, then from the next batch of the channel.
   */
  function NextFrom(claimed: seq<Row>, returned: seq<Row>, batches: seq<seq<Row>>, disconnected: bool)
    : (Next, seq<Row>, seq<Row>, seq<seq<Row>>)
  {
    if claimed != [] then (NextRow(claimed[0]), claimed[1..], returned, batches)
    else if returned != [] then
      var n := Claimable(returned);
      (NextRow(returned[0]), returned[1..n], returned[n..], batches)
    else if batches == [] then (if disconnected then Exhausted else NotReady, [], [], [])
    else if batches[0] == [] then (NotReady, [], [], batches[1..])
    else (NextRow(batches[0][0]), batches[0][1..], [], batches[1..])
  }

  // ---- The objects -----------------------------------------------------------------------

  /** The replay every worker shares: the reader's channel, the returned rows, the rows done. */
  class TraceReplay {
    var batches: seq<seq<Row>>
    /** The reader has dropped its end of the channel. */
    var disconnected: bool
    var returned: seq<Row>
    var done: nat

    constructor ()
      ensures batches == [] && !disconnected && returned == [] && done == 0
    {
      batches, disconnected, returned, done := [], false, [], 0;
    }

    method MarkDone(n: nat)
      modifies `done
      ensures done == old(done) + n
    {
      if n > 0 {
        done := done + n;
      }
    }
  }

  /** A worker's claimed rows, shared by all its connections. */
  class Worker {
    var claimed: seq<Row>

    constructor ()
      ensures claimed == []
    {
      claimed := [];
    }

    /** The next row: this worker's own, then a returned one, then the next batch. */
    method TakeNext(trace: TraceReplay) returns (next: Next)
      modifies this, trace`returned, trace`batches
      ensures old(claimed) != [] ==>
                && next == NextRow(old(claimed)[0]) && claimed == old(claimed)[1..]
                && trace.returned == old(trace.returned) && trace.batches == old(trace.batches)
      ensures old(claimed) == [] && old(trace.returned) != [] ==>
                var n := Claimable(old(trace.returned));
                && next == NextRow(old(trace.returned)[0]) && claimed == old(trace.returned)[1..n]
                && trace.returned == old(trace.returned)[n..] && trace.batches == old(trace.batches)
      ensures old(claimed) == [] && old(trace.returned) == [] ==>
                && trace.returned == []
                && match next
                   case NextRow(row) =>
                     && old(trace.batches) != []
                     && [row] + claimed == old(trace.batches)[0]
                     && trace.batches == old(trace.batches)[1..]
                   case NotReady =>
                     && claimed == []
                     && if old(trace.batches) == [] then !trace.disconnected && trace.batches == []
                        else old(trace.batches)[0] == [] && trace.batches == old(trace.batches)[1..]
                   case Exhausted =>
                     claimed == [] && old(trace.batches) == [] == trace.batches && trace.disconnected
      ensures (next, claimed, trace.returned, trace.batches) ==
              NextFrom(old(claimed), old(trace.returned), old(trace.batches), trace.disconnected)
    {
      if claimed != [] {
        next := NextRow(claimed[0]);
        claimed := claimed[1..];
        return;
      }
      if trace.returned != [] {
        var n := Min(|trace.returned|, CLAIM_BATCH);
        claimed := claimed + trace.returned[..n];
        trace.returned := trace.returned[n..];
        next := NextRow(claimed[0]);
        claimed := claimed[1..];
        return;
      }
      if trace.batches != [] {
        claimed := claimed + trace.batches[0];
        trace.batches := trace.batches[1..];
        if claimed == [] {
          return NotReady;
        }
        next := NextRow(claimed[0]);
        claimed := claimed[1..];
        return;
      }
      next := if trace.disconnected then Exhausted else NotReady;
    }

    /** Put rows that were not sent back in front, in their order. */
    method Unclaim(rows: seq<Row>)
      modifies this
      ensures claimed == rows + old(claimed)
    {
      var i := |rows|;
      while i > 0
        invariant 0 <= i <= |rows|
        invariant claimed == rows[i..] + old(claimed)
      {
        i := i - 1;
        claimed := [rows[i]] + claimed;
      }
    }

    /** Hand every claimed row to the shared queue, ahead of what is there. */
    method ReturnClaimed(trace: TraceReplay)
      modifies this, trace`returned
      ensures claimed == [] && trace.returned == old(claimed) + old(trace.returned)
    {
      var rows := claimed;
      claimed := [];
      var i := |rows|;
      while i > 0
        invariant 0 <= i <= |rows|
        invariant claimed == [] && trace.returned == rows[i..] + old(trace.returned)
      {
        i := i - 1;
        trace.returned := [rows[i]] + trace.returned;
      }
    }
  }

  /** One connection's requests in flight, oldest first. */
  class Connection {
    var sent: seq<Sent>

    constructor ()
      ensures sent == []
    {
      sent := [];
    }

    /**
     After a failed send: the newest `discarded` requests and `failed` never left. Their rows
     go back to the worker, charged as `charge` says, except those out of attempts, which are
     counted in the result. Backfills are dropped.
     */
    method Requeue(worker: Worker, discarded: nat, failed: Option<Sent>, charge: Charge) returns (givenUp: nat)
      modifies this, worker
      ensures var unsent := Unsent(old(sent), discarded, failed, charge);
              && sent == StillSent(old(sent), discarded)
              && worker.claimed == Sendable(unsent) + old(worker.claimed)
              && givenUp == |GivenUp(unsent)|
    {
      var keep := Monus(|sent|, discarded);
      var gone := sent[keep..];
      sent := sent[..keep];
      var rows;
      rows, givenUp := SortOut(gone + AsSeq(failed), |gone|, charge);
      worker.Unclaim(rows);
    }

    /** Charge the rows of `items` and separate those to send again from those given up. */
    static method SortOut(items: seq<Sent>, discarded: nat, charge: Charge) returns (rows: seq<Row>, givenUp: nat)
      requires discarded <= |items|
      ensures var unsent := Charged(items, ChargedFrom(charge, discarded, |items|));
              rows == Sendable(unsent) && givenUp == |GivenUp(unsent)|
    {
      rows, givenUp := [], 0;
      ghost var from := ChargedFrom(charge, discarded, |items|);
      var i := 0;
      while i < |items|
        invariant 0 <= i <= |items|
        invariant rows == Sendable(Charged(items[..i], from))
        invariant givenUp == |GivenUp(Charged(items[..i], from))|
      {
        OneMore(items[..i], items[i], from);
        assert items[..i + 1] == items[..i] + [items[i]];
        hide Charged, Sendable, GivenUp;
        if items[i].Trace? {
          var row := items[i].row;
          var charged := match charge
            case Nothing => false
            case Failed => i >= discarded
            case All => true;
          if charged {
            row := row.(failedSends := row.failedSends + 1);
          }
          if row.failedSends >= MAX_SEND_ATTEMPTS {
            givenUp := givenUp + 1;
          } else {
            rows := rows + [row];
          }
        }
        i := i + 1;
      }
      assert items[..i] == items;
    }

    /** `Requeue` after a flush that failed before `next` was fired: `next` goes back uncharged. */
    method RequeueWithNext(worker: Worker, discarded: nat, next: Sent, charge: Charge) returns (givenUp: nat)
      modifies this, worker
      ensures var unsent := Unsent(old(sent), discarded, None, charge);
              && sent == StillSent(old(sent), discarded)
              && worker.claimed == Sendable(unsent) + RowsOf([next]) + old(worker.claimed)
              && givenUp == |GivenUp(unsent)|
    {
      if next.Trace? {
        worker.Unclaim([next.row]);
      }
      assert worker.claimed == RowsOf([next]) + old(worker.claimed);
      givenUp := Requeue(worker, discarded, None, charge);
    }

    /** The connection failed: its rows in flight are counted done, and the worker's claimed rows are handed on. */
    method Close(worker: Worker, trace: TraceReplay)
      modifies this, worker, trace`done, trace`returned
      ensures sent == [] && worker.claimed == []
      ensures trace.done == old(trace.done) + |RowsOf(old(sent))|
      ensures trace.returned == old(worker.claimed) + old(trace.returned)
    {
      var failed := 0;
      var i := 0;
      while i < |sent|
        invariant 0 <= i <= |sent| && sent == old(sent)
        invariant |RowsOf(sent)| == failed + |RowsOf(sent[i..])|
        invariant worker.claimed == old(worker.claimed) && trace.returned == old(trace.returned)
      {
        assert sent[i..][1..] == sent[i + 1..];
        if sent[i].Trace? {
          failed := failed + 1;
        }
        i := i + 1;
      }
      trace.MarkDone(failed);
      sent := [];
      worker.ReturnClaimed(trace);
    }
  }
}
