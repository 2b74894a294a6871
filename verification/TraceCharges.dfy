/**
 Who pays for a refused send: the requests at fault are charged, once each, and what they are
 charged gives them up in the end, so that the replay goes on past them.
 */
module TraceCharges {
  import opened Options
  import opened TraceLedger
  import opened TraceRollback
  import opened TraceRows

  /** The replay with `front` put back ahead of all but the first `k` rows connection `c`'s worker had claimed. */
  function PutBack(s: Replay, c: nat, k: nat, front: seq<Row>, given: seq<Row>): Replay
    requires IsConn(s, c) && k <= |s.claimed[s.conns[c].worker]|
  {
    var w := s.conns[c].worker;
    s.(claimed := s.claimed[w := front + s.claimed[w][k..]],
       done := s.done + |given|,
       givenUp := s.givenUp + given)
  }

  /** Connection `c` could fire any of its worker's claimed rows, and has nothing buffered. */
  predicate Fireable(s: Replay, c: nat) {
    && Runs(s, c) && ConnOk(s, c)
    && s.conns[c].buffered == 0 && s.conns[c].backfill == []
  }

  // ---- A refused flush ----------------------------------------------------------------------------

  /** Fire the first `k` claimed rows and have the server refuse the flush for good. */
  function RefusedFlush(c: nat, k: nat): seq<Event> {
    Fires(c, k) + [FlushFailed(c, All)]
  }

  lemma RefusedBatchComesBack(sent: seq<Sent>, front: seq<Row>)
    ensures var all := sent + AsSent(front);
            && StillSent(all, |front|) == sent
            && Unsent(all, |front|, None, All) == Again(front)
  {
    var all := sent + AsSent(front);
    assert Discarded(all, |front|) == AsSent(front);
    AsSentRows(front);
    WhoIsCharged(all, |front|, None, All);
    assert Again(front) + Again([]) == Again(front);
  }

  lemma RollbackOfRefused(s: Replay, c: nat, k: nat)
    requires Fireable(s, c) && k <= |s.claimed[s.conns[c].worker]|
    ensures var again := Again(s.claimed[s.conns[c].worker][..k]);
            Rollback(Batched(s, c, k), c, None, [], All) == PutBack(s, c, k, Sendable(again), GivenUp(again))
  {
    hide Unsent, Sendable, GivenUp, StillSent;
    var conn, w, t := s.conns[c], s.conns[c].worker, Batched(s, c, k);
    var front := s.claimed[w][..k];
    RefusedBatchComesBack(conn.sent, front);
    var back, again := Rollback(t, c, None, [], All), Again(front);
    assert Sendable(again) + [] == Sendable(again);
    assert back.conns[c] == conn;
    assert back.conns == s.conns;
    assert back.claimed == PutBack(s, c, k, Sendable(again), GivenUp(again)).claimed;
  }

  /** Every row of a flush refused for good goes back with one failed send more, or is given up at the third. */
  lemma RefusedFlushChargesAll(s: Replay, c: nat, k: nat)
    requires Fireable(s, c) && k <= |s.claimed[s.conns[c].worker]|
    ensures var again := Again(s.claimed[s.conns[c].worker][..k]);
            && Legal(s, RefusedFlush(c, k))
            && After(s, RefusedFlush(c, k)) == PutBack(s, c, k, Sendable(again), GivenUp(again))
  {
    FiresBatch(s, c, k);
    RollbackOfRefused(s, c, k);
    OneMoreEvent(s, Fires(c, k), FlushFailed(c, All));
  }

  /** Rows that all failed `n` sends. */
  predicate Tried(rows: seq<Row>, n: nat) {
    forall i | 0 <= i < |rows| :: rows[i].failedSends == n
  }

  lemma {:induction false} TriedAgain(rows: seq<Row>, n: nat)
    requires Tried(rows, n)
    ensures n < 3 ==> Sendable(rows) == rows && GivenUp(rows) == []
    ensures n >= 3 ==> Sendable(rows) == [] && GivenUp(rows) == rows
  {
    if rows != [] {
      TriedAgain(rows[1..], n);
    }
  }

  lemma {:induction false} LegalThen(s: Replay, a: seq<Event>, b: seq<Event>)
    requires Legal(s, a) && Legal(After(s, a), b)
    ensures Legal(s, a + b) && After(s, a + b) == After(After(s, a), b)
    decreases a
  {
    hide Apply, Enabled;
    if a == [] {
      assert [] + b == b;
    } else {
      LegalThen(Apply(s, a[0]), a[1..], b);
      assert (a + b)[1..] == a[1..] + b;
    }
  }

  /** One refusal of a batch whose rows have all failed `n` sends. */
  lemma OneRefusal(s: Replay, c: nat, k: nat, n: nat)
    requires Fireable(s, c) && k <= |s.claimed[s.conns[c].worker]|
    requires Tried(s.claimed[s.conns[c].worker][..k], n)
    ensures Legal(s, RefusedFlush(c, k))
    ensures var again := Again(s.claimed[s.conns[c].worker][..k]);
            After(s, RefusedFlush(c, k)) == if n < 2 then PutBack(s, c, k, again, []) else PutBack(s, c, k, [], again)
  {
    var again := Again(s.claimed[s.conns[c].worker][..k]);
    RefusedFlushChargesAll(s, c, k);
    TriedAgain(again, n + 1);
  }

  /** What is put back is fired again. */
  lemma PutBackAgain(s: Replay, c: nat, k: nat, front: seq<Row>)
    requires Fireable(s, c) && k <= |s.claimed[s.conns[c].worker]| && |front| == k
    ensures var t, w := PutBack(s, c, k, front, []), s.conns[c].worker;
            && Fireable(t, c) && t.conns == s.conns && k <= |t.claimed[w]| && t.claimed[w][..k] == front
            && forall next: seq<Row>, given: seq<Row> :: PutBack(t, c, k, next, given) == PutBack(s, c, k, next, given)
  {
    var t, w := PutBack(s, c, k, front, []), s.conns[c].worker;
    assert t.claimed[w][k..] == s.claimed[w][k..];
    assert t.givenUp == s.givenUp;
    forall next: seq<Row>, given: seq<Row> ensures PutBack(t, c, k, next, given) == PutBack(s, c, k, next, given) {
      assert t.claimed[w := next + s.claimed[w][k..]] == s.claimed[w := next + s.claimed[w][k..]];
    }
  }

  /**
   A batch of fresh rows that the server refuses for good is given up, all of it, at the third refusal and not before;
   nothing else of the replay changes.
   */
  lemma ThirdRefusalGivesUp(s: Replay, c: nat, k: nat)
    requires Fireable(s, c) && k <= |s.claimed[s.conns[c].worker]|
    requires Tried(s.claimed[s.conns[c].worker][..k], 0)
    ensures var batch, refused := s.claimed[s.conns[c].worker][..k], RefusedFlush(c, k);
            && Legal(s, refused + refused) && Legal(s, refused + refused + refused)
            && After(s, refused + refused) == PutBack(s, c, k, Again(Again(batch)), [])
            && After(s, refused + refused + refused) == PutBack(s, c, k, [], Again(Again(Again(batch))))
  {
    hide PutBack, Legal, After, RefusedFlush, ConnOk;
    var batch, refused := s.claimed[s.conns[c].worker][..k], RefusedFlush(c, k);
    OneRefusal(s, c, k, 0);
    PutBackAgain(s, c, k, Again(batch));
    var s1 := PutBack(s, c, k, Again(batch), []);
    OneRefusal(s1, c, k, 1);
    PutBackAgain(s, c, k, Again(Again(batch)));
    var s2 := PutBack(s, c, k, Again(Again(batch)), []);
    OneRefusal(s2, c, k, 2);
    LegalThen(s, refused, refused);
    LegalThen(s, refused + refused, refused);
  }

  // ---- A refused request ----------------------------------------------------------------------------

  /** Fire the first `k` claimed rows and have the client refuse the next for good. */
  function RefusedFire(c: nat, k: nat): seq<Event> {
    Fires(c, k) + [FireFailed(c, Mine, Failed)]
  }

  /** Of the rows fired and the one refused, only that one is charged, and only it can be given up. */
  lemma RefusedRowComesBack(sent: seq<Sent>, front: seq<Row>, row: Row)
    requires forall r | r in front :: r.failedSends < 3
    ensures var all, again := sent + AsSent(front), Again([row]);
            var unsent := Unsent(all, |front|, Some(Trace(row)), Failed);
            && StillSent(all, |front|) == sent
            && Sendable(unsent) == front + Sendable(again)
            && GivenUp(unsent) == GivenUp(again)
  {
    var all := sent + AsSent(front);
    assert Discarded(all, |front|) == AsSent(front);
    AsSentRows(front);
    RowOf(Trace(row));
    WhoIsCharged(all, |front|, Some(Trace(row)), Failed);
    SortConcat(front, Again([row]));
    SendableRows(front);
  }

  lemma RollbackOfRefusedRow(s: Replay, c: nat, k: nat)
    requires Fireable(s, c) && k < |s.claimed[s.conns[c].worker]|
    requires forall r | r in s.claimed[s.conns[c].worker][..k] :: r.failedSends < 3
    ensures var t, mine := Batched(s, c, k), s.claimed[s.conns[c].worker];
            var again := Again([mine[k]]);
            && CanTake(t, c, Mine)
            && Rollback(Take(t, c, Mine), c, Some(Taken(t, c, Mine)), [], Failed) ==
               PutBack(s, c, k + 1, mine[..k] + Sendable(again), GivenUp(again))
  {
    hide Unsent, Sendable, GivenUp, StillSent;
    var conn, w, t := s.conns[c], s.conns[c].worker, Batched(s, c, k);
    var front, row := s.claimed[w][..k], s.claimed[w][k];
    RefusedRowComesBack(conn.sent, front, row);
    var u, again := Take(t, c, Mine), Again([row]);
    var back := Rollback(u, c, Some(Trace(row)), [], Failed);
    var put := PutBack(s, c, k + 1, front + Sendable(again), GivenUp(again));
    assert s.claimed[w][k..][1..] == s.claimed[w][k + 1..];
    assert front + Sendable(again) + [] == front + Sendable(again);
    assert back.conns[c] == conn;
    assert back.conns == s.conns;
    assert back.claimed == put.claimed;
  }

  /** One refusal of a row that has failed `n` sends: the rows fired before it go back as they were. */
  lemma OneRefusalOfRow(s: Replay, c: nat, k: nat, n: nat)
    requires Fireable(s, c) && k < |s.claimed[s.conns[c].worker]|
    requires forall r | r in s.claimed[s.conns[c].worker][..k] :: r.failedSends < 3
    requires s.claimed[s.conns[c].worker][k].failedSends == n
    ensures Legal(s, RefusedFire(c, k))
    ensures var mine := s.claimed[s.conns[c].worker];
            var again := Again([mine[k]]);
            After(s, RefusedFire(c, k)) ==
            if n < 2 then PutBack(s, c, k + 1, mine[..k] + again, []) else PutBack(s, c, k + 1, mine[..k], again)
  {
    var mine := s.claimed[s.conns[c].worker];
    FiresBatch(s, c, k);
    RollbackOfRefusedRow(s, c, k);
    TriedAgain(Again([mine[k]]), n + 1);
    assert mine[..k] + [] == mine[..k];
    OneMoreEvent(s, Fires(c, k), FireFailed(c, Mine, Failed));
  }

  /**
   A fresh row that is refused for good is given up at its third refusal, and the rows fired before it, which were
   discarded each time, are neither charged nor moved.
   */
  lemma RefusedRowGoesAlone(s: Replay, c: nat, k: nat)
    requires Fireable(s, c) && k < |s.claimed[s.conns[c].worker]|
    requires forall r | r in s.claimed[s.conns[c].worker][..k] :: r.failedSends < 3
    requires s.claimed[s.conns[c].worker][k].failedSends == 0
    ensures var mine, refused := s.claimed[s.conns[c].worker], RefusedFire(c, k);
            var row := mine[k];
            && Legal(s, refused + refused) && Legal(s, refused + refused + refused)
            && After(s, refused + refused) == PutBack(s, c, k + 1, mine[..k] + [row.(failedSends := 2)], [])
            && After(s, refused + refused + refused) == PutBack(s, c, k + 1, mine[..k], [row.(failedSends := 3)])
  {
    hide PutBack, Legal, After, RefusedFire, ConnOk;
    var mine, refused := s.claimed[s.conns[c].worker], RefusedFire(c, k);
    var front, row := mine[..k], mine[k];
    var once, twice := front + [row.(failedSends := 1)], front + [row.(failedSends := 2)];
    assert Again([row]) == [row.(failedSends := 1)];
    assert Again([row.(failedSends := 1)]) == [row.(failedSends := 2)];
    assert Again([row.(failedSends := 2)]) == [row.(failedSends := 3)];
    OneRefusalOfRow(s, c, k, 0);
    PutBackAgain(s, c, k + 1, once);
    var s1 := PutBack(s, c, k + 1, once, []);
    FrontOf(s1.claimed[s.conns[c].worker], front, row.(failedSends := 1));
    OneRefusalOfRow(s1, c, k, 1);
    PutBackAgain(s, c, k + 1, twice);
    var s2 := PutBack(s, c, k + 1, twice, []);
    FrontOf(s2.claimed[s.conns[c].worker], front, row.(failedSends := 2));
    OneRefusalOfRow(s2, c, k, 2);
    LegalThen(s, refused, refused);
    LegalThen(s, refused + refused, refused);
  }

  lemma FrontOf(mine: seq<Row>, front: seq<Row>, row: Row)
    requires |front| < |mine| && mine[..|front| + 1] == front + [row]
    ensures mine[..|front|] == front && mine[|front|] == row
  {
    assert mine[..|front|] == mine[..|front| + 1][..|front|];
    assert mine[|front|] == mine[..|front| + 1][|front|];
  }
}
