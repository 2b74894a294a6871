/**
 File order: while no connection is lost, each worker sends its rows in file order, whichever
 of its connections sends each.
 */
module TraceOrder {
  import opened Options
  import opened TraceRows
  import opened TraceLedger
  import opened TraceSafety

  // ---- Thinning: dropping and charging rows without reordering them --------------------------

  ghost predicate Increasing(rows: seq<Row>) {
    forall i, j | 0 <= i < j < |rows| :: rows[i].line < rows[j].line
  }

  /** `b` is `a` with some rows dropped and others charged. */
  ghost predicate Thins(a: seq<Row>, b: seq<Row>) {
    b == [] || (a != [] && ((a[0].line == b[0].line && Thins(a[1..], b[1..])) || Thins(a[1..], b)))
  }

  lemma {:induction false} ThinsSelf(a: seq<Row>)
    ensures Thins(a, a)
  {
    if a != [] {
      ThinsSelf(a[1..]);
    }
  }

  lemma {:induction false} ThinsConcat(a: seq<Row>, b: seq<Row>, c: seq<Row>, d: seq<Row>)
    requires Thins(a, b) && Thins(c, d)
    ensures Thins(a + c, b + d)
  {
    if a == [] {
      assert b == [] && a + c == c && b + d == d;
    } else {
      assert (a + c)[1..] == a[1..] + c && (a + c)[0] == a[0];
      if b != [] && a[0].line == b[0].line && Thins(a[1..], b[1..]) {
        assert (b + d)[1..] == b[1..] + d && (b + d)[0] == b[0];
        ThinsConcat(a[1..], b[1..], c, d);
      } else {
        ThinsConcat(a[1..], b, c, d);
      }
    }
  }

  lemma {:induction false} ThinsMember(a: seq<Row>, b: seq<Row>, r: Row)
    requires Thins(a, b) && r in b
    ensures exists q | q in a :: q.line == r.line
  {
    if a[0].line == b[0].line && Thins(a[1..], b[1..]) {
      if r == b[0] {
        assert a[0] in a;
      } else {
        ThinsMember(a[1..], b[1..], r);
      }
    } else {
      ThinsMember(a[1..], b, r);
    }
  }

  lemma {:induction false} ThinnedIncreasing(a: seq<Row>, b: seq<Row>)
    requires Increasing(a) && Thins(a, b)
    ensures Increasing(b)
  {
    if b != [] {
      if a[0].line == b[0].line && Thins(a[1..], b[1..]) {
        ThinnedIncreasing(a[1..], b[1..]);
        forall i, j | 0 <= i < j < |b| ensures b[i].line < b[j].line {
          assert b[1..][j - 1] == b[j];
          if i == 0 {
            ThinsMember(a[1..], b[1..], b[j]);
          } else {
            assert b[1..][i - 1] == b[i];
          }
        }
      } else {
        ThinnedIncreasing(a[1..], b);
      }
    }
  }

  lemma {:induction false} SortedOutThins(items: seq<Sent>, from: int)
    ensures Thins(RowsOf(items), Sendable(Charged(items, from)))
  {
    if items != [] {
      SortedOutThins(items[1..], from - 1);
      var rest := Sendable(Charged(items[1..], from - 1));
      if items[0].Trace? {
        assert RowsOf(items)[1..] == RowsOf(items[1..]);
        var all := Sendable(Charged(items, from));
        if all != rest {
          assert all[1..] == rest;
        }
      }
    }
  }

  // ---- What a worker has sent, holds, and will claim -----------------------------------------

  function Flatten(batches: seq<seq<Row>>): seq<Row> {
    if batches == [] then [] else batches[0] + Flatten(batches[1..])
  }

  lemma {:induction false} FlattenAppend(batches: seq<seq<Row>>, b: seq<Row>)
    ensures Flatten(batches + [b]) == Flatten(batches) + b
  {
    if batches == [] {
      assert ([] + [b])[1..] == [];
    } else {
      FlattenAppend(batches[1..], b);
      assert (batches + [b])[1..] == batches[1..] + [b];
    }
  }

  /** The rows of worker `w`'s running connection that it has not flushed. */
  ghost function Unflushed(s: Replay, w: nat): seq<Row>
    requires w < |s.running|
  {
    match s.running[w]
    case None => []
    case Some(c) => if c < |s.conns| then RowsOf(Discarded(s.conns[c].sent, s.conns[c].buffered)) else []
  }

  ghost function Ahead(s: Replay): seq<Row> {
    Flatten(s.batches) + InHand(s) + s.reader.batch
  }

  /** Everything worker `w` has sent, is sending, has claimed, and could still claim, in that order. */
  ghost function Course(s: Replay, w: nat): seq<Row>
    requires w < |s.wire| == |s.running| == |s.claimed|
  {
    s.wire[w] + Unflushed(s, w) + s.claimed[w] + Ahead(s)
  }

  ghost predicate NoLoss(s: Replay) {
    s.returned == [] && forall c: nat | c < |s.conns| :: !s.conns[c].life.Failing?
  }

  /** A worker runs only its own connections. */
  ghost predicate AtHome(s: Replay) {
    forall w: nat | w < |s.running| && s.running[w].Some? ::
      s.running[w].value < |s.conns| && s.conns[s.running[w].value].worker == w
  }

  ghost predicate InOrder(s: Replay) {
    && NoLoss(s)
    && |s.claimed| == |s.running| == |s.wire|
    && AtHome(s)
    && forall w: nat | w < |s.claimed| ::
         Increasing(Course(s, w)) && forall r | r in Course(s, w) :: r.line < s.reader.pos
  }

  /** What an event adds at the far end of every course. */
  ghost function Added(s: Replay, e: Event): seq<Row> {
    if e.RowRead? then [Row(s.reader.pos, e.objId, e.size, e.op, 0)] else []
  }

  lemma OutsideThins(s: Replay, e: Event, w: nat)
    requires Shape(s) && Enabled(s, e) && Outside(e) && w < |s.claimed|
    ensures Thins(Course(s, w) + Added(s, e), Course(Apply(s, e), w))
  {
    var s' := Apply(s, e);
    var mine := s.wire[w] + Unflushed(s, w) + s.claimed[w];
    assert s'.wire[w] + Unflushed(s', w) + s'.claimed[w] == mine;
    if e.BatchHanded? {
      FlattenAppend(s.batches, s.reader.stage.batch);
    }
    if e.ReaderPanicked? {
      assert Course(s, w) == Course(s', w) + s.reader.batch;
      ThinsSelf(Course(s', w));
      ThinsConcat(Course(s', w), Course(s', w), s.reader.batch, []);
      assert Course(s', w) + [] == Course(s', w);
    } else {
      assert Course(s', w) == Course(s, w) + Added(s, e);
      ThinsSelf(Course(s', w));
    }
    assert Course(s, w) + [] == Course(s, w);
  }

  /** Nothing of worker `w` changes but, perhaps, that batches it could have claimed are gone. */
  lemma ElsewhereThins(s: Replay, s': Replay, w: nat)
    requires w < |s.wire| == |s.running| == |s.claimed|
    requires |s'.wire| == |s'.running| == |s'.claimed| == |s.claimed|
    requires s'.wire[w] == s.wire[w] && s'.claimed[w] == s.claimed[w] && Unflushed(s', w) == Unflushed(s, w)
    requires Thins(Ahead(s), Ahead(s'))
    ensures Thins(Course(s, w), Course(s', w))
  {
    var mine := s.wire[w] + Unflushed(s, w) + s.claimed[w];
    ThinsSelf(mine);
    ThinsConcat(mine, mine, Ahead(s), Ahead(s'));
  }

  lemma ThinsSuffix(a: seq<Row>, b: seq<Row>)
    ensures Thins(a + b, b)
  {
    ThinsSelf(b);
    ThinsConcat(a, [], b, b);
    assert [] + b == b;
  }

  lemma TakeUnflushed(s: Replay, c: nat, from: Source)
    requires Shape(s) && CanTake(s, c, from)
    ensures Unflushed(Take(s, c, from), s.conns[c].worker) == Unflushed(s, s.conns[c].worker)
  {
    hide RowsOf;
  }

  /** The front of what the worker has, or could claim, is the row taken. */
  lemma TakeFront(s: Replay, c: nat, from: Source)
    requires Shape(s) && NoLoss(s) && CanTake(s, c, from)
    ensures var t, w := Take(s, c, from), s.conns[c].worker;
            && RowsOf([Taken(s, c, from)]) + t.claimed[w] + Ahead(t) == s.claimed[w] + Ahead(s)
            && Thins(Ahead(s), Ahead(t))
  {
    hide RowsOf, Thins, ConnOk;
    var t, w := Take(s, c, from), s.conns[c].worker;
    var row := RowsOf([Taken(s, c, from)]);
    RowOf(Taken(s, c, from));
    match from
    case Fill =>
      ThinsSelf(Ahead(s));
    case Mine =>
      assert row + t.claimed[w] == s.claimed[w];
      ThinsSelf(Ahead(s));
    case Channel =>
      assert row + t.claimed[w] == s.batches[0];
      assert Ahead(s) == s.batches[0] + Ahead(t);
      ThinsSuffix(s.batches[0], Ahead(t));
      assert s.claimed[w] + Ahead(s) == Ahead(s);
  }

  lemma Regroup4(a: seq<Row>, b: seq<Row>, c: seq<Row>, d: seq<Row>, e: seq<Row>, f: seq<Row>, g: seq<Row>)
    requires c + d + e == f + g
    ensures a + b + c + d + e == a + b + f + g
  {
    assert a + b + c + d + e == a + b + (c + d + e);
  }

  /** Taking the next row moves it from the front of what the worker has, or could claim, to its hand. */
  lemma TakeCourse(s: Replay, c: nat, from: Source)
    requires Shape(s) && NoLoss(s) && CanTake(s, c, from)
    ensures var t, w := Take(s, c, from), s.conns[c].worker;
            && s.wire[w] + Unflushed(s, w) + RowsOf([Taken(s, c, from)]) + t.claimed[w] + Ahead(t) == Course(s, w)
            && Unflushed(t, w) == Unflushed(s, w) && t.wire == s.wire && |t.claimed| == |s.claimed|
            && Thins(Ahead(s), Ahead(t))
  {
    hide Ahead, Unflushed, RowsOf, NoLoss, Thins;
    var t, w := Take(s, c, from), s.conns[c].worker;
    TakeUnflushed(s, c, from);
    TakeFront(s, c, from);
    Regroup4(s.wire[w], Unflushed(s, w), RowsOf([Taken(s, c, from)]), t.claimed[w], Ahead(t), s.claimed[w], Ahead(s));
  }

  lemma ThinMiddle(before: seq<Row>, a: seq<Row>, b: seq<Row>, after: seq<Row>)
    requires Thins(a, b)
    ensures Thins(before + a + after, before + b + after)
  {
    ThinsSelf(before);
    ThinsSelf(after);
    ThinsConcat(before, before, a, b);
    ThinsConcat(before + a, before + b, after, after);
  }

  lemma RegroupKept(a: seq<Row>, b: seq<Row>, c: seq<Row>, d: seq<Row>, e: seq<Row>)
    ensures a + b + (c + d + e) == a + [] + (b + c + d) + e
  {
  }

  /** What a rollback leaves of the requests it takes back. */
  lemma RollbackRows(s: Replay, c: nat, failed: Option<Sent>, back: seq<Row>, charge: Charge) returns (kept: seq<Row>)
    requires Shape(s) && Runs(s, c)
    ensures var s', w := Rollback(s, c, failed, back, charge), s.conns[c].worker;
            && Thins(Unflushed(s, w) + RowsOf(AsSeq(failed)), kept)
            && s'.claimed[w] == kept + back + s.claimed[w]
            && Unflushed(s', w) == []
  {
    var conn := s.conns[c];
    DiscardsTheUnflushed(s, c);
    var gone := Discarded(conn.sent, conn.buffered);
    var items := gone + AsSeq(failed);
    var from := ChargedFrom(charge, |gone|, |items|);
    RowsOfConcat(gone, AsSeq(failed));
    SortedOutThins(items, from);
    kept := Sendable(Charged(items, from));
    var left := Rollback(s, c, failed, back, charge).conns[c].sent;
    assert Discarded(left, 0) == [];
  }

  /** The rolled-back worker's course, from the rows it had buffered and in hand. */
  lemma RollbackThins(s: Replay, c: nat, failed: Option<Sent>, back: seq<Row>, charge: Charge)
    requires Shape(s) && Runs(s, c)
    ensures var s', w := Rollback(s, c, failed, back, charge), s.conns[c].worker;
            Thins(s.wire[w] + (Unflushed(s, w) + RowsOf(AsSeq(failed))) + (back + s.claimed[w] + Ahead(s)),
                  Course(s', w))
  {
    var w := s.conns[c].worker;
    var s' := Rollback(s, c, failed, back, charge);
    assert Ahead(s') == Ahead(s) && s'.wire[w] == s.wire[w];
    hide Ahead, Unflushed, Rollback, RowsOf, Thins, Shape, ConnOk;
    var kept := RollbackRows(s, c, failed, back, charge);
    ThinMiddle(s.wire[w], Unflushed(s, w) + RowsOf(AsSeq(failed)), kept, back + s.claimed[w] + Ahead(s));
    RegroupKept(s.wire[w], kept, back, s.claimed[w], Ahead(s));
  }

  lemma FireCourse(s: Replay, c: nat, next: Sent)
    requires Shape(s) && Runs(s, c)
    ensures var s', w := Fire(s, c, next), s.conns[c].worker;
            Unflushed(s', w) == Unflushed(s, w) + RowsOf([next])
  {
    var conn := s.conns[c];
    assert ConnOk(s, c);
    assert Discarded(conn.sent + [next], conn.buffered + 1) == Discarded(conn.sent, conn.buffered) + [next];
    RowsOfConcat(Discarded(conn.sent, conn.buffered), [next]);
  }

  predicate Sends(e: Event) {
    e.Fired? || e.FireFailed? || e.FlushedFirstFailed? || e.FlushFailed?
  }

  lemma RollbackElsewhere(s: Replay, c: nat, failed: Option<Sent>, back: seq<Row>, charge: Charge, w: nat)
    requires Shape(s) && AtHome(s) && Runs(s, c) && w < |s.claimed| && w != s.conns[c].worker
    ensures var s' := Rollback(s, c, failed, back, charge);
            && |s'.claimed| == |s.claimed| && |s'.wire| == |s.wire|
            && s'.wire[w] == s.wire[w] && s'.claimed[w] == s.claimed[w]
            && Unflushed(s', w) == Unflushed(s, w) && Ahead(s') == Ahead(s)
  {
    hide Charged, Sendable, GivenUp, RowsOf;
  }

  lemma TakeElsewhere(s: Replay, c: nat, from: Source, w: nat)
    requires Shape(s) && AtHome(s) && CanTake(s, c, from) && w < |s.claimed| && w != s.conns[c].worker
    ensures var t := Take(s, c, from);
            && AtHome(t) && |t.claimed| == |s.claimed| && t.wire == s.wire
            && t.conns[c].worker == s.conns[c].worker
            && t.claimed[w] == s.claimed[w] && Unflushed(t, w) == Unflushed(s, w)
  {
    hide RowsOf;
  }

  lemma FireElsewhere(s: Replay, c: nat, next: Sent, w: nat)
    requires Shape(s) && AtHome(s) && Runs(s, c) && w < |s.claimed| && w != s.conns[c].worker
    ensures var s' := Fire(s, c, next);
            && |s'.claimed| == |s.claimed| && |s'.wire| == |s.wire|
            && s'.wire[w] == s.wire[w] && s'.claimed[w] == s.claimed[w]
            && Unflushed(s', w) == Unflushed(s, w) && Ahead(s') == Ahead(s)
  {
    hide RowsOf;
  }

  /** Worker `w`'s course goes on with, at most, rows dropped from it and rows charged. */
  ghost predicate CourseThins(s: Replay, s': Replay, w: nat) {
    && w < |s.wire| == |s.running| == |s.claimed|
    && |s'.wire| == |s'.running| == |s'.claimed| == |s.claimed|
    && Thins(Course(s, w), Course(s', w))
  }

  lemma SendingElsewhere(s: Replay, e: Event, w: nat)
    requires Shape(s) && InOrder(s) && Enabled(s, e) && Sends(e) && w < |s.claimed| && w != s.conns[e.c].worker
    ensures CourseThins(s, Apply(s, e), w)
  {
    hide Charged, Sendable, GivenUp, ConnOk, Thins, Increasing, Flatten, Ahead, Unflushed, Take, Fire, Rollback, Course;
    ShapeKept(s, e);
    ThinsSelf(Ahead(s));
    if !e.FlushFailed? {
      TakeCourse(s, e.c, e.from);
      TakeKeepsShape(s, e.c, e.from);
      TakeElsewhere(s, e.c, e.from, w);
    }
    match e {
      case Fired(c, from) => FireElsewhere(Take(s, c, from), c, Taken(s, c, from), w);
      case FireFailed(c, from, charge) =>
        RollbackElsewhere(Take(s, c, from), c, Some(Taken(s, c, from)), [], charge, w);
      case FlushedFirstFailed(c, from, charge) =>
        RollbackElsewhere(Take(s, c, from), c, None, RowsOf([Taken(s, c, from)]), charge, w);
      case FlushFailed(c, charge) => RollbackElsewhere(s, c, None, [], charge, w);
    }
    ElsewhereThins(s, Apply(s, e), w);
  }

  lemma FireKeepsRest(s: Replay, c: nat, next: Sent)
    requires IsConn(s, c)
    ensures var s' := Fire(s, c, next);
            s'.wire == s.wire && s'.claimed == s.claimed && s'.running == s.running && Ahead(s') == Ahead(s)
  {
  }

  lemma FiringThins(s: Replay, c: nat, from: Source)
    requires Shape(s) && NoLoss(s) && CanTake(s, c, from)
    ensures var s', w := Apply(s, Fired(c, from)), s.conns[c].worker;
            |s'.wire| == |s'.running| == |s'.claimed| == |s.claimed| && Course(s', w) == Course(s, w)
  {
    hide Ahead, Unflushed, RowsOf, Take, Taken, Fire, ConnOk, NoLoss, Thins;
    var t, w, next := Take(s, c, from), s.conns[c].worker, Taken(s, c, from);
    TakeCourse(s, c, from);
    TakeKeepsShape(s, c, from);
    FireCourse(t, c, next);
    FireKeepsRest(t, c, next);
    assert s.wire[w] + (Unflushed(s, w) + RowsOf([next])) == s.wire[w] + Unflushed(s, w) + RowsOf([next]);
  }

  lemma Regroup(a: seq<Row>, b: seq<Row>, c: seq<Row>, d: seq<Row>, e: seq<Row>)
    ensures a + (b + c) + ([] + d + e) == a + b + c + d + e
    ensures a + (b + []) + (c + d + e) == a + b + c + d + e
    ensures a + (b + []) + ([] + d + e) == a + b + d + e
  {
  }

  lemma FireFailingThins(s: Replay, c: nat, from: Source, charge: Charge)
    requires Shape(s) && NoLoss(s) && CanTake(s, c, from)
    ensures var w := s.conns[c].worker;
            Thins(Course(s, w), Course(Rollback(Take(s, c, from), c, Some(Taken(s, c, from)), [], charge), w))
  {
    TakeCourse(s, c, from);
    TakeKeepsShape(s, c, from);
    var t, w, row := Take(s, c, from), s.conns[c].worker, RowsOf([Taken(s, c, from)]);
    assert t.wire[w] == s.wire[w];
    hide Ahead, Unflushed, Rollback, RowsOf, Thins, Take, Taken, Shape, NoLoss, ConnOk, Course;
    RollbackThins(t, c, Some(Taken(s, c, from)), [], charge);
    Regroup(s.wire[w], Unflushed(s, w), row, t.claimed[w], Ahead(t));
  }

  lemma FlushFirstFailingThins(s: Replay, c: nat, from: Source, charge: Charge)
    requires Shape(s) && NoLoss(s) && CanTake(s, c, from)
    ensures var w := s.conns[c].worker;
            Thins(Course(s, w), Course(Rollback(Take(s, c, from), c, None, RowsOf([Taken(s, c, from)]), charge), w))
  {
    TakeCourse(s, c, from);
    TakeKeepsShape(s, c, from);
    NoRows();
    var t, w, row := Take(s, c, from), s.conns[c].worker, RowsOf([Taken(s, c, from)]);
    assert t.wire[w] == s.wire[w];
    hide Ahead, Unflushed, Rollback, RowsOf, Thins, Take, Taken, Shape, NoLoss, ConnOk, Course;
    RollbackThins(t, c, None, row, charge);
    Regroup(s.wire[w], Unflushed(s, w), row, t.claimed[w], Ahead(t));
  }

  lemma FlushFailingThins(s: Replay, c: nat, charge: Charge)
    requires Shape(s) && Runs(s, c)
    ensures var w := s.conns[c].worker;
            Thins(Course(s, w), Course(Rollback(s, c, None, [], charge), w))
  {
    NoRows();
    var w := s.conns[c].worker;
    hide Ahead, Unflushed, Rollback, RowsOf, Thins;
    RollbackThins(s, c, None, [], charge);
    Regroup(s.wire[w], Unflushed(s, w), [], s.claimed[w], Ahead(s));
  }

  lemma SendingThins(s: Replay, e: Event, w: nat)
    requires Shape(s) && InOrder(s) && Enabled(s, e) && Sends(e) && w < |s.claimed|
    ensures CourseThins(s, Apply(s, e), w)
  {
    hide ConnOk, Thins, Increasing, Course, Take, Rollback, Fire;
    ShapeKept(s, e);
    if w != s.conns[e.c].worker {
      SendingElsewhere(s, e, w);
    } else {
      ClaimsFixed(s, e);
      match e
      case Fired(c, from) =>
        FiringThins(s, c, from);
        ThinsSelf(Course(s, w));
      case FireFailed(c, from, charge) => FireFailingThins(s, c, from, charge);
      case FlushedFirstFailed(c, from, charge) => FlushFirstFailingThins(s, c, from, charge);
      case FlushFailed(c, charge) => FlushFailingThins(s, c, charge);
    }
  }

  lemma ClaimsFixed(s: Replay, e: Event)
    requires Enabled(s, e)
    ensures |Apply(s, e).claimed| == |s.claimed|
  {
    PosGrows(s, e);
  }

  lemma NoRows()
    ensures RowsOf(AsSeq(None)) == []
  {
  }

  lemma QuietAhead(s: Replay, e: Event)
    requires Shape(s) && NoLoss(s) && Enabled(s, e) && Quiet(e) && !e.Lost?
    ensures var s' := Apply(s, e);
            |s'.claimed| == |s'.running| == |s'.wire| == |s.claimed| && Ahead(s') == Ahead(s) && s'.claimed == s.claimed
  {
    hide RowsOf, Flatten, Take, Rollback, Fire, CanTake;
    assert ConnOk(s, e.c);
  }

  /** An event that sends nothing leaves every other worker's rows as they are. */
  lemma QuietElsewhere(s: Replay, e: Event, w: nat)
    requires Shape(s) && NoLoss(s) && AtHome(s) && Enabled(s, e) && Quiet(e) && !e.Lost?
    requires w < |s.claimed| && w != s.conns[e.c].worker
    ensures |Apply(s, e).wire| == |Apply(s, e).running| == |s.claimed|
    ensures Apply(s, e).wire[w] == s.wire[w] && Unflushed(Apply(s, e), w) == Unflushed(s, w)
  {
    hide RowsOf, Flatten, Take, Rollback, Fire, CanTake;
    assert ConnOk(s, e.c);
  }

  /** And on its own worker it moves rows from the buffer to the wire when it flushes, and none otherwise. */
  lemma QuietHere(s: Replay, e: Event)
    requires Shape(s) && NoLoss(s) && Enabled(s, e) && Quiet(e) && !e.Lost?
    ensures |Apply(s, e).wire| == |Apply(s, e).running| == |s.claimed|
    ensures var s', w := Apply(s, e), s.conns[e.c].worker;
            s'.wire[w] + Unflushed(s', w) == s.wire[w] + Unflushed(s, w)
  {
    hide Flatten, Take, Rollback, Fire, CanTake;
    assert ConnOk(s, e.c);
    if e.Flushed? {
      FlushHere(s, e.c);
    } else {
      NothingBuffered(s, e);
    }
  }

  lemma FlushHere(s: Replay, c: nat)
    requires Shape(s) && Runs(s, c)
    ensures var s', w := Flush(s, c), s.conns[c].worker;
            |s'.running| == |s'.wire| == |s.claimed| && s'.wire[w] + Unflushed(s', w) == s.wire[w] + Unflushed(s, w)
  {
    assert ConnOk(s, c);
    assert Discarded(s.conns[c].sent, 0) == [];
  }

  lemma NothingUnflushed(s: Replay, w: nat)
    requires w < |s.running|
    requires match s.running[w]
             case None => true
             case Some(c) => c < |s.conns| && s.conns[c].buffered == 0
    ensures Unflushed(s, w) == []
  {
    if s.running[w].Some? {
      assert Discarded(s.conns[s.running[w].value].sent, 0) == [];
    }
  }

  lemma NothingBuffered(s: Replay, e: Event)
    requires Shape(s) && NoLoss(s) && Enabled(s, e) && Quiet(e) && !e.Lost? && !e.Flushed?
    ensures var s', w := Apply(s, e), s.conns[e.c].worker;
            |s'.running| == |s'.wire| == |s.claimed|
            && Unflushed(s, w) == [] && Unflushed(s', w) == [] && s'.wire[w] == s.wire[w]
  {
    hide Flatten, Take, Rollback, Fire, CanTake, RowsOf, Unflushed, Discarded;
    assert ConnOk(s, e.c);
    NothingUnflushed(s, s.conns[e.c].worker);
    NothingUnflushed(Apply(s, e), s.conns[e.c].worker);
  }

  lemma QuietThins(s: Replay, e: Event, w: nat)
    requires Shape(s) && InOrder(s) && Enabled(s, e) && w < |s.claimed|
    requires Quiet(e) && !e.Lost?
    ensures |Apply(s, e).claimed| == |Apply(s, e).running| == |Apply(s, e).wire| == |s.claimed|
    ensures Course(Apply(s, e), w) == Course(s, w)
  {
    assert ConnOk(s, e.c);
    QuietAhead(s, e);
    hide Apply, Enabled, Ahead, Unflushed, ConnOk, NoLoss, AtHome, Increasing;
    if w == s.conns[e.c].worker {
      QuietHere(s, e);
    } else {
      QuietElsewhere(s, e, w);
    }
  }

  lemma NoLossKept(s: Replay, e: Event)
    requires NoLoss(s) && Enabled(s, e) && !e.Lost?
    ensures NoLoss(Apply(s, e))
  {
    hide Charged, Sendable, GivenUp, RowsOf, Take, Fire, Rollback;
    if !Outside(e) && !Quiet(e) {
      SendingOnlySends(s, e);
    }
  }

  ghost predicate SameHomes(s: Replay, s': Replay) {
    |s'.conns| == |s.conns| && forall c: nat | c < |s.conns| :: s'.conns[c].worker == s.conns[c].worker
  }

  lemma WorkersFixed(s: Replay, e: Event)
    requires Enabled(s, e)
    ensures SameHomes(s, Apply(s, e))
  {
    hide Charged, Sendable, GivenUp, RowsOf, Take, Fire, Rollback;
    if !Outside(e) && !Quiet(e) {
      SendingOnlySends(s, e);
    }
  }

  /** An event sets at most one worker running, and then its own connection. */
  lemma RunningSet(s: Replay, e: Event)
    requires Enabled(s, e)
    ensures var s' := Apply(s, e);
            || s'.running == s.running
            || (&& !Outside(e) && IsConn(s, e.c)
                && (|| s'.running == s.running[s.conns[e.c].worker := None]
                    || s'.running == s.running[s.conns[e.c].worker := Some(e.c)]))
  {
    hide Charged, Sendable, GivenUp, RowsOf;
  }

  lemma AtHomeKept(s: Replay, e: Event)
    requires AtHome(s) && Enabled(s, e)
    ensures AtHome(Apply(s, e))
  {
    WorkersFixed(s, e);
    RunningSet(s, e);
    hide Apply, Enabled;
  }

  lemma InOrderKept(s: Replay, e: Event)
    requires Shape(s) && InOrder(s) && Enabled(s, e) && !e.Lost?
    ensures InOrder(Apply(s, e))
  {
    var s' := Apply(s, e);
    NoLossKept(s, e);
    AtHomeKept(s, e);
    ShapeKept(s, e);
    PosGrows(s, e);
    hide Apply, Enabled, Course, Thins, NoLoss, AtHome;
    forall w: nat | w < |s'.claimed|
      ensures Increasing(Course(s', w)) && forall r | r in Course(s', w) :: r.line < s'.reader.pos
    {
      var before := Course(s, w) + Added(s, e);
      if Outside(e) {
        OutsideThins(s, e, w);
      } else if Quiet(e) {
        QuietThins(s, e, w);
        ThinsSelf(Course(s, w));
        assert before == Course(s, w);
      } else {
        SendingThins(s, e, w);
        assert before == Course(s, w);
      }
      ThinnedIncreasing(before, Course(s', w));
      forall r | r in Course(s', w) ensures r.line < s'.reader.pos {
        ThinsMember(before, Course(s', w), r);
      }
    }
  }

  lemma PosGrows(s: Replay, e: Event)
    requires Enabled(s, e)
    ensures var s' := Apply(s, e);
            && s'.reader.pos >= s.reader.pos + |Added(s, e)|
            && |s'.claimed| == |s.claimed|
  {
    hide Charged, Sendable, GivenUp, RowsOf, Take, Fire, Rollback;
    if !Outside(e) && !Quiet(e) {
      SendingOnlySends(s, e);
    }
  }

  lemma {:induction false} InOrderAfter(s: Replay, events: seq<Event>)
    requires Shape(s) && InOrder(s) && Legal(s, events)
    requires forall e | e in events :: !e.Lost?
    ensures InOrder(After(s, events))
    decreases events
  {
    if events != [] {
      assert events[0] in events;
      ShapeKept(s, events[0]);
      InOrderKept(s, events[0]);
      InOrderAfter(Apply(s, events[0]), events[1..]);
    }
  }

  /**
   Unless a connection is lost, every worker puts its rows on the wire in file order, and what
   it has claimed comes after them, whatever sends fail and are repeated on which connections.
   */
  lemma WireInFileOrder(workers: nat, home: seq<nat>, events: seq<Event>, w: nat)
    requires Start(workers, home) && Legal(Init(workers, home), events)
    requires forall e | e in events :: !e.Lost?
    requires w < |After(Init(workers, home), events).wire|
    ensures var s := After(Init(workers, home), events);
            |s.claimed| == |s.wire| && Increasing(s.wire[w] + s.claimed[w])
  {
    var s0 := Init(workers, home);
    assert Shape(s0);
    forall v: nat | v < workers ensures Course(s0, v) == [] {}
    InOrderAfter(s0, events);
    var s := After(s0, events);
    assert Increasing(Course(s, w));
    hide Increasing;
    SkipMiddle(s.wire[w], Unflushed(s, w), s.claimed[w], Ahead(s));
  }

  lemma SkipMiddle(a: seq<Row>, b: seq<Row>, c: seq<Row>, d: seq<Row>)
    requires Increasing(a + b + c + d)
    ensures Increasing(a + c)
  {
    var course, own := a + b + c + d, a + c;
    forall i, j | 0 <= i < j < |own| ensures own[i].line < own[j].line {
      var i' := if i < |a| then i else |b| + i;
      var j' := if j < |a| then j else |b| + j;
      assert course[i'] == own[i] && course[j'] == own[j];
    }
  }
}
