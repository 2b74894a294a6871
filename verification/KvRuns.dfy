/**
 One worker of the KV replay (src/kvreplay.rs): what its dispatcher and its connections do,
 event by event, and what every event keeps.
 */
module KvRuns {
  import opened KvDispatch
  import opened Numbers
  import opened Options

  // ---- One worker ------------------------------------------------------------------------------

  datatype Event =
    | Connected(c: nat)
    | ConnectFailed(c: nat)
    | FoundDead(c: nat)
    | Asked(c: nat)
    | Began(c: nat)
    | BeganDead(c: nat)
    | Completed(c: nat)
    | Disconnected(c: nat)
    | ClosedEarly(c: nat)
    | Turned(now1: nat, now2: nat, claim: Claim)

  function Idle(connections: nat): Worker {
    Worker(seq(connections, i => Away), [], [], None, false, 0, 0, 0)
  }

  predicate Allowed(d: Worker, e: Event) {
    match e
    case Connected(c) => c < |d.conns| && d.conns[c].Away?
    case ConnectFailed(c) => c < |d.conns| && d.conns[c].Away?
    case FoundDead(c) => c < |d.conns| && d.conns[c].Ready?
    case Asked(c) => c < |d.conns| && d.conns[c].Ready?
    case Began(c) => c < |d.conns| && d.conns[c].Handed?
    case BeganDead(c) => c < |d.conns| && d.conns[c].Handed?
    case Completed(c) => c < |d.conns| && d.conns[c].Running?
    case Disconnected(c) => c < |d.conns| && d.conns[c].Running?
    case ClosedEarly(c) => c < |d.conns| && d.conns[c].Running?
    case Turned(now1, now2, _) => d.now <= now1 <= now2 && ServesNext(d)
  }

  /** Connection `c` leaves, handing `job` back or, when it may not, failing it. */
  function Leave(d: Worker, c: nat, job: Job, why: HandBack): (Worker, seq<Job>)
    requires c < |d.conns|
  {
    var gone := d.(conns := d.conns[c := Away], live := Max(d.live - 1, 0));
    match GivenBack(job, why, |d.conns|)
    case None => (gone, [job])
    case Some(again) => (gone.(returned := d.returned + [(again, d.connectFailures)]), [])
  }

  function Firsts(pairs: seq<(Job, nat)>): seq<Job> {
    if pairs == [] then [] else [pairs[0].0] + Firsts(pairs[1..])
  }

  /** The worker after an event, and the jobs the event finished. */
  function React(d: Worker, e: Event): (Worker, seq<Job>)
    requires Allowed(d, e)
  {
    match e
    case Connected(c) => (d.(conns := d.conns[c := Ready(false)], live := d.live + 1), [])
    case ConnectFailed(c) => (d.(connectFailures := d.connectFailures + 1), [])
    case FoundDead(c) =>
      (d.(conns := d.conns[c := Away], live := Max(d.live - 1, 0),
          connectFailures := if d.conns[c].ranAny then d.connectFailures else d.connectFailures + 1), [])
    case Asked(c) => (d.(conns := d.conns[c := Waiting(d.conns[c].ranAny)], waiting := d.waiting + [c]), [])
    case Began(c) => (d.(conns := d.conns[c := Running(d.conns[c].job)]), [])
    case BeganDead(c) => Leave(d, c, d.conns[c].job, Unsent)
    case Completed(c) => (d.(conns := d.conns[c := Ready(true)]), [d.conns[c].job])
    case Disconnected(c) => (d.(conns := d.conns[c := Away], live := Max(d.live - 1, 0)), [d.conns[c].job])
    case ClosedEarly(c) => Leave(d, c, d.conns[c].job, LookupSent)
    case Turned(now1, now2, claim) =>
      var (d', _, failed) := TakeTurn(d, now1, now2, claim);
      (d'.(now := now2), Firsts(failed))
  }

  /** The request an event takes from the channel. */
  predicate Claims(d: Worker, e: Event) {
    e.Turned? && e.claim.Request? && Asks(d, e.now1)
  }

  // ---- What a worker keeps ---------------------------------------------------------------------

  function Present(conns: seq<Conn>): nat {
    if conns == [] then 0 else (if conns[0].Away? then 0 else 1) + Present(conns[1..])
  }

  lemma {:induction false} PresentUpdate(conns: seq<Conn>, c: nat, conn: Conn)
    requires c < |conns|
    ensures Present(conns[c := conn]) ==
            Present(conns) - (if conns[c].Away? then 0 else 1) + (if conn.Away? then 0 else 1)
    ensures !conns[c].Away? ==> Present(conns) >= 1
  {
    if c == 0 {
      assert conns[c := conn][1..] == conns[1..];
    } else {
      PresentUpdate(conns[1..], c - 1, conn);
      assert conns[c := conn][1..] == conns[1..][c - 1 := conn];
    }
  }

  /** The waiting list is exactly the waiting connections, each once, and `live` counts those present. */
  predicate Queued(d: Worker) {
    && d.live == Present(d.conns)
    && (forall i | 0 <= i < |d.waiting| :: d.waiting[i] < |d.conns| && d.conns[d.waiting[i]].Waiting?)
    && (forall i, j | 0 <= i < j < |d.waiting| :: d.waiting[i] != d.waiting[j])
    && (forall c: nat | c < |d.conns| && d.conns[c].Waiting? :: c in d.waiting)
  }

  lemma ServeKeepsQueue(d: Worker, job: Job)
    requires Queued(d) && d.waiting != []
    ensures Queued(Serve(d, job))
  {
    var c, d' := d.waiting[0], Serve(d, job);
    PresentUpdate(d.conns, c, d'.conns[c]);
    forall k: nat | k < |d'.conns| && d'.conns[k].Waiting? ensures k in d'.waiting {
      assert k in d.waiting && k != c;
    }
  }

  /** A turn changes the queue of connections by serving its head, or not at all. */
  lemma TurnServesOrNot(d: Worker, now1: nat, now2: nat, claim: Claim)
    requires ServesNext(d)
    ensures var d' := TakeTurn(d, now1, now2, claim).0;
            && d'.live == d.live && d'.connectFailures == d.connectFailures
            && (|| (d'.conns == d.conns && d'.waiting == d.waiting)
                || (d.waiting != [] && exists job: Job ::
                      d'.conns == Serve(d, job).conns && d'.waiting == Serve(d, job).waiting))
  {
    if d.waiting != [] {
      if d.returned != [] {
        assert TakeTurn(d, now1, now2, claim).0.conns == Serve(d, d.returned[0].0).conns;
      } else {
        var d2 := DropStale(Unhold(d, now1));
        if d2.held.Some? {
          assert Serve(d2, d2.held.value).conns == Serve(d, d2.held.value).conns;
        }
      }
    }
  }

  lemma QueueSame(d: Worker, d': Worker)
    requires Queued(d) && d'.conns == d.conns && d'.waiting == d.waiting && d'.live == d.live
    ensures Queued(d')
  {
  }

  lemma TurnKeepsQueue(d: Worker, e: Event)
    requires Queued(d) && Allowed(d, e) && e.Turned?
    ensures Queued(React(d, e).0)
  {
    TurnServesOrNot(d, e.now1, e.now2, e.claim);
    var d' := React(d, e).0;
    hide TakeTurn;
    if !(d'.conns == d.conns && d'.waiting == d.waiting) {
      var job: Job :| d'.conns == Serve(d, job).conns && d'.waiting == Serve(d, job).waiting;
      ServeKeepsQueue(d, job);
      QueueSame(Serve(d, job), d');
    }
  }

  /** A connection that neither joins nor leaves the waiting list. */
  lemma ChangeKeepsQueue(d: Worker, c: nat, conn: Conn, live: nat)
    requires Queued(d) && c < |d.conns| && !d.conns[c].Waiting? && !conn.Waiting?
    requires live == d.live - (if d.conns[c].Away? then 0 else 1) + (if conn.Away? then 0 else 1)
    ensures Queued(d.(conns := d.conns[c := conn], live := live))
  {
    PresentUpdate(d.conns, c, conn);
  }

  lemma AskKeepsQueue(d: Worker, c: nat)
    requires Queued(d) && Allowed(d, Asked(c))
    ensures Queued(React(d, Asked(c)).0)
  {
    var d' := React(d, Asked(c)).0;
    PresentUpdate(d.conns, c, d'.conns[c]);
    forall k: nat | k < |d'.conns| && d'.conns[k].Waiting? ensures k in d'.waiting {
      assert k == c || k in d.waiting;
    }
  }

  /** An event of a connection that does not join the waiting list. */
  lemma ConnKeepsQueue(d: Worker, e: Event)
    requires Queued(d) && Allowed(d, e) && !e.Turned? && !e.ConnectFailed? && !e.Asked?
    ensures Queued(React(d, e).0)
  {
    hide TakeTurn, GivenBack, Present;
    var d' := React(d, e).0;
    PresentUpdate(d.conns, e.c, Away);
    ConnChange(d, e);
    hide React, Allowed;
    ChangeKeepsQueue(d, e.c, d'.conns[e.c], d'.live);
    QueueSame(d.(conns := d.conns[e.c := d'.conns[e.c]], live := d'.live), d');
  }

  /** What such an event changes of the queue. */
  lemma ConnChange(d: Worker, e: Event)
    requires Allowed(d, e) && !e.Turned? && !e.ConnectFailed? && !e.Asked?
    ensures var d' := React(d, e).0;
            && e.c < |d.conns| == |d'.conns| && !d.conns[e.c].Waiting? && !d'.conns[e.c].Waiting?
            && d'.conns == d.conns[e.c := d'.conns[e.c]] && d'.waiting == d.waiting
            && (d.conns[e.c].Away? || d.live >= 1 ==>
                  d'.live == d.live - (if d.conns[e.c].Away? then 0 else 1) + (if d'.conns[e.c].Away? then 0 else 1))
  {
    hide TakeTurn, GivenBack;
  }

  lemma QueuedKept(d: Worker, e: Event)
    requires Queued(d) && Allowed(d, e)
    ensures Queued(React(d, e).0)
  {
    hide Queued, TakeTurn, Leave;
    match e
    case Turned(_, _, _) => TurnKeepsQueue(d, e);
    case ConnectFailed(_) => QueueSame(d, React(d, e).0);
    case Asked(c) => AskKeepsQueue(d, c);
    case _ => ConnKeepsQueue(d, e);
  }

  lemma WaitingIsLive(d: Worker)
    requires Queued(d) && d.waiting != []
    ensures d.live > 0
  {
    PresentUpdate(d.conns, d.waiting[0], Away);
  }

  // ---- Retry budgets, due times, failure stamps ------------------------------------------------

  /** A job that is queued: handed over once for each hand-back, never more often than those allow. */
  predicate BudgetKept(job: Job, connections: nat) {
    && job.deadHandovers <= Max(connections, 1)
    && job.handed == job.deadHandovers + if job.retried then 1 else 0
  }

  /** A job a connection has: handed over once more than it was handed back. */
  predicate BudgetUsed(job: Job, connections: nat) {
    && job.deadHandovers <= Max(connections, 1)
    && job.handed == job.deadHandovers + (if job.retried then 1 else 0) + 1
  }

  function JobOf(conn: Conn): Option<Job> {
    if conn.Handed? || conn.Running? then Some(conn.job) else None
  }

  /** At time `t`: every budget is kept, and everything handed back or given to a connection is due. */
  predicate JobsOk(d: Worker, t: nat) {
    && (d.held.Some? ==> BudgetKept(d.held.value, |d.conns|))
    && (forall i | 0 <= i < |d.returned| :: BudgetKept(d.returned[i].0, |d.conns|) && Due(d.returned[i].0, t))
    && (forall c | 0 <= c < |d.conns| && JobOf(d.conns[c]).Some? ::
          BudgetUsed(JobOf(d.conns[c]).value, |d.conns|) && Due(JobOf(d.conns[c]).value, t))
  }

  /** The returned queue is in the order of its failure stamps, none of them from the future. */
  predicate Stamped(d: Worker) {
    && (forall i, j | 0 <= i <= j < |d.returned| :: d.returned[i].1 <= d.returned[j].1)
    && (forall i | 0 <= i < |d.returned| :: d.returned[i].1 <= d.connectFailures)
  }

  lemma ServeJobsOk(d: Worker, job: Job, t: nat)
    requires JobsOk(d, t) && d.waiting != [] && ServesNext(d)
    requires BudgetKept(job, |d.conns|) && Due(job, t)
    ensures JobsOk(Serve(d, job), t)
  {
  }

  lemma UnholdOk(d: Worker, now: nat)
    requires JobsOk(d, now) && Stamped(d)
    ensures JobsOk(Unhold(d, now), now) && Stamped(Unhold(d, now))
  {
  }

  lemma DropStaleOk(d: Worker, t: nat)
    requires JobsOk(d, t) && Stamped(d)
    ensures JobsOk(DropStale(d), t) && Stamped(DropStale(d))
  {
    hide StaleCount, BudgetKept, BudgetUsed, Due;
  }

  lemma LaterJobsOk(d: Worker, t: nat, u: nat)
    requires JobsOk(d, t) && t <= u
    ensures JobsOk(d, u)
  {
  }

  lemma ServeReturnedOk(d: Worker, t: nat)
    requires JobsOk(d, t) && Stamped(d) && ServesNext(d) && d.waiting != [] && d.returned != []
    ensures var d' := Serve(d, d.returned[0].0).(returned := d.returned[1..]); JobsOk(d', t) && Stamped(d')
  {
    var served := Serve(d, d.returned[0].0);
    ServeJobsOk(d, d.returned[0].0, t);
    ServeChanges(d, d.returned[0].0);
    hide Serve, BudgetKept, BudgetUsed, Due;
    var d' := served.(returned := d.returned[1..]);
    assert forall i | 0 <= i < |d'.returned| :: d'.returned[i] == served.returned[i + 1];
  }

  lemma FinishOk(d: Worker, now: nat, readerBehind: bool)
    requires JobsOk(d, now) && Stamped(d) && ServesNext(d)
    ensures var d' := Finish(d, now, readerBehind).0; JobsOk(d', now) && Stamped(d')
  {
    if d.waiting != [] && DueIn(d, now) == Some(0) {
      ServeJobsOk(d, d.held.value, now);
      ServeChanges(d, d.held.value);
      hide Serve, BudgetKept, BudgetUsed, Due;
    }
  }

  lemma ClaimOk(d: Worker, claim: Claim, t: nat)
    requires JobsOk(d, t) && Stamped(d)
    ensures claim.Request? ==>
              var d' := d.(held := Some(Fresh(claim.id, claim.scheduled))); JobsOk(d', t) && Stamped(d')
    ensures JobsOk(d.(exhausted := true), t) && Stamped(d.(exhausted := true))
  {
  }

  lemma TurnOk(d: Worker, now1: nat, now2: nat, claim: Claim)
    requires JobsOk(d, d.now) && Stamped(d) && ServesNext(d) && d.now <= now1 <= now2
    ensures var d' := TakeTurn(d, now1, now2, claim).0; JobsOk(d', now2) && Stamped(d')
  {
    var d2 := DropStale(Unhold(d, now1));
    assert ServesNext(d2);
    hide JobsOk, Stamped, Serve, Finish, Unhold, DropStale, Stale, ServesNext;
    if d.waiting != [] && d.returned != [] {
      LaterJobsOk(d, d.now, now2);
      ServeReturnedOk(d, now2);
    } else {
      LaterJobsOk(d, d.now, now1);
      UnholdOk(d, now1);
      DropStaleOk(Unhold(d, now1), now1);
      LaterJobsOk(d2, now1, now2);
      ClaimOk(d2, claim, now2);
      FinishOk(d2, now2, true);
      FinishOk(d2, now2, false);
    }
  }

  lemma ServeChanges(d: Worker, job: Job)
    requires ServesNext(d) && d.waiting != []
    ensures var d' := Serve(d, job);
            && d'.returned == d.returned && d'.held == d.held && |d'.conns| == |d.conns|
            && d'.connectFailures == d.connectFailures && d'.exhausted == d.exhausted && d'.now == d.now
  {
  }

  lemma LeaveOk(d: Worker, c: nat, job: Job, why: HandBack)
    requires JobsOk(d, d.now) && Stamped(d) && c < |d.conns| && JobOf(d.conns[c]) == Some(job)
    ensures var d' := Leave(d, c, job, why).0; JobsOk(d', d.now) && Stamped(d')
  {
  }

  lemma JobsKept(d: Worker, e: Event)
    requires JobsOk(d, d.now) && Stamped(d) && Allowed(d, e)
    ensures var d' := React(d, e).0; JobsOk(d', d'.now) && Stamped(d')
  {
    match e
    case Turned(now1, now2, claim) => TurnOk(d, now1, now2, claim);
    case BeganDead(c) => LeaveOk(d, c, d.conns[c].job, Unsent);
    case ClosedEarly(c) => LeaveOk(d, c, d.conns[c].job, LookupSent);
    case _ =>
  }

  // ---- When nothing is connected ---------------------------------------------------------------

  /**
   With nothing connected, a turn sleeps. Before it does, a held request that is due joins the handed-back ones, and of
   those exactly the ones that came back before the latest failed connect attempt fail, the oldest first.
   */
  lemma UnreachableFails(d: Worker, now1: nat, now2: nat, claim: Claim)
    requires Queued(d) && Stamped(d) && d.live == 0
    ensures ServesNext(d)
    ensures var (d', turn, failed) := TakeTurn(d, now1, now2, claim);
            var isDue := d.held.Some? && (d.held.value.scheduled.None? || d.held.value.scheduled.value <= now1);
            && turn.Sleep?
            && d'.held == (if isDue then None else d.held)
            && failed + d'.returned == d.returned + (if isDue then [(d.held.value, d.connectFailures)] else [])
            && (forall i | 0 <= i < |failed| :: failed[i].1 < d.connectFailures)
            && (forall i | 0 <= i < |d'.returned| :: d'.returned[i].1 == d.connectFailures)
            && d'.connectFailures == d.connectFailures && d'.conns == d.conns
  {
    hide StaleCount, Stale, DropStale, Queued, Stamped;
    NobodyWaits(d);
    UnholdStamps(d, now1);
    StaleGo(Unhold(d, now1));
  }

  lemma NobodyWaits(d: Worker)
    requires Queued(d) && d.live == 0
    ensures d.waiting == []
  {
    if d.waiting != [] {
      WaitingIsLive(d);
      assert false;
    }
  }

  lemma UnholdStamps(d: Worker, now: nat)
    requires Stamped(d)
    ensures Stamped(Unhold(d, now))
  {
  }

  /** With nothing connected, the requests whose stamps are out of date go, and they are the first. */
  lemma StaleGo(d: Worker)
    requires Stamped(d) && d.live == 0
    ensures Stale(d) + DropStale(d).returned == d.returned && DropStale(d) == d.(returned := DropStale(d).returned)
    ensures forall i | 0 <= i < |Stale(d)| :: Stale(d)[i].1 < d.connectFailures
    ensures forall i | 0 <= i < |DropStale(d).returned| :: DropStale(d).returned[i].1 == d.connectFailures
  {
    hide StaleCount;
    StaleIsAPrefix(d.returned, d.connectFailures);
    var k := StaleCount(d.returned, d.connectFailures);
    assert d.returned[..k] + d.returned[k..] == d.returned;
  }

  /** While anything is connected, a turn fails no request. */
  lemma ReachableFailsNone(d: Worker, now1: nat, now2: nat, claim: Claim)
    requires ServesNext(d) && d.live > 0
    ensures TakeTurn(d, now1, now2, claim).2 == []
  {
  }

  /** Nothing is connected, and every request handed back has stamp `stamp`. */
  predicate Unreachable(d: Worker, stamp: nat) {
    && Queued(d) && d.live == 0 && d.held.None?
    && forall i | 0 <= i < |d.returned| :: d.returned[i].1 == stamp
  }

  lemma UnreachableTurn(d: Worker, now1: nat, now2: nat, claim: Claim)
    requires Queued(d) && JobsOk(d, d.now) && Stamped(d) && d.live == 0
    requires d.now <= now1 <= now2 && (d.held.Some? ==> Due(d.held.value, now1))
    ensures Allowed(d, Turned(now1, now2, claim))
    ensures var d' := React(d, Turned(now1, now2, claim)).0;
            && Unreachable(d', d.connectFailures) && d'.connectFailures == d.connectFailures
            && d'.conns == d.conns && d'.now == now2 && Stamped(d') && JobsOk(d', d'.now)
  {
    UnreachableFails(d, now1, now2, claim);
    var e := Turned(now1, now2, claim);
    JobsKept(d, e);
    QueuedKept(d, e);
    TurnServesOrNot(d, now1, now2, claim);
    hide TakeTurn, Queued, JobsOk, Stamped;
  }

  /**
   So a server that cannot be reached holds up no request: once the held one is due, a turn, one more failed connect
   attempt and another turn leave the worker with none, and have failed them all.
   */
  lemma UnreachableDrains(d: Worker, c: nat, now1: nat, now2: nat, now3: nat, now4: nat, claim: Claim)
    requires Queued(d) && JobsOk(d, d.now) && Stamped(d) && d.live == 0 && c < |d.conns|
    requires d.now <= now1 <= now2 <= now3 <= now4
    requires d.held.Some? ==> Due(d.held.value, now1)
    ensures Allowed(d, Turned(now1, now2, claim))
    ensures var d1 := React(d, Turned(now1, now2, claim)).0;
            && Allowed(d1, ConnectFailed(c))
            && var d2 := React(d1, ConnectFailed(c)).0;
               && Allowed(d2, Turned(now3, now4, claim))
               && var d3 := React(d2, Turned(now3, now4, claim)).0;
                  d3.held.None? && d3.returned == [] && forall k: nat | k < |d3.conns| :: d3.conns[k].Away?
  {
    hide React, Allowed, Queued, JobsOk, Stamped, Unreachable;
    UnreachableTurn(d, now1, now2, claim);
    var d1 := React(d, Turned(now1, now2, claim)).0;
    AttemptFails(d1, c, d.connectFailures);
    var d2 := React(d1, ConnectFailed(c)).0;
    LastFail(d2, now3, now4, claim);
    forall k: nat | k < |d.conns| ensures d.conns[k].Away? {
      NobodyPresent(d, k);
    }
  }

  /** After a failed connect attempt every request that was handed back is out of date. */
  lemma AttemptFails(d: Worker, c: nat, stamp: nat)
    requires Unreachable(d, stamp) && Stamped(d) && stamp == d.connectFailures && c < |d.conns|
    ensures Allowed(d, ConnectFailed(c))
    ensures var d' := React(d, ConnectFailed(c)).0;
            && Queued(d') && Stamped(d') && d'.live == 0 && d'.held.None? && d'.conns == d.conns && d'.now == d.now
            && forall i | 0 <= i < |d'.returned| :: d'.returned[i].1 < d'.connectFailures
  {
    NobodyPresent(d, c);
    QueueSame(d, React(d, ConnectFailed(c)).0);
    hide Queued;
  }

  /** A turn after the latest failed connect attempt leaves nothing handed back. */
  lemma LastFail(d: Worker, now1: nat, now2: nat, claim: Claim)
    requires Queued(d) && Stamped(d) && d.live == 0 && d.held.None? && d.now <= now1 <= now2
    requires forall i | 0 <= i < |d.returned| :: d.returned[i].1 < d.connectFailures
    ensures Allowed(d, Turned(now1, now2, claim))
    ensures var d' := React(d, Turned(now1, now2, claim)).0;
            d'.held.None? && d'.returned == [] && d'.conns == d.conns
  {
    hide Queued, Stamped;
    UnreachableFails(d, now1, now2, claim);
    var (d', _, failed) := TakeTurn(d, now1, now2, claim);
    hide TakeTurn;
    assert d.returned + [] == d.returned;
    NothingKept(d.returned, failed, d'.returned, d.connectFailures);
  }

  /** A connection that is found closed before it ran a request counts as a connect attempt that failed. */
  lemma DeadBeforeUse(d: Worker, c: nat)
    requires Allowed(d, Connected(c))
    ensures Allowed(React(d, Connected(c)).0, FoundDead(c))
    ensures React(React(d, Connected(c)).0, FoundDead(c)).0 == React(d, ConnectFailed(c)).0
  {
    assert d.conns[c := Ready(false)][c := Away] == d.conns;
  }

  /** One that has run a request does not. */
  lemma DeadAfterUse(d: Worker, c: nat)
    requires Allowed(d, Completed(c))
    ensures Allowed(React(d, Completed(c)).0, FoundDead(c))
    ensures React(React(d, Completed(c)).0, FoundDead(c)).0.connectFailures == d.connectFailures
  {
  }

  lemma KeptWasThere(all: seq<(Job, nat)>, failed: seq<(Job, nat)>, kept: seq<(Job, nat)>)
    requires failed + kept == all && kept != []
    ensures kept[0] in all
  {
    assert all[|failed|] == kept[0];
  }

  lemma NothingKept(all: seq<(Job, nat)>, failed: seq<(Job, nat)>, kept: seq<(Job, nat)>, failures: nat)
    requires failed + kept == all
    requires forall i | 0 <= i < |all| :: all[i].1 < failures
    requires forall i | 0 <= i < |kept| :: kept[i].1 == failures
    ensures kept == []
  {
    if kept != [] {
      KeptWasThere(all, failed, kept);
      assert false;
    }
  }

  lemma NobodyPresent(d: Worker, c: nat)
    requires Queued(d) && d.live == 0 && c < |d.conns|
    ensures d.conns[c].Away?
  {
    PresentUpdate(d.conns, c, Away);
  }

  // ---- Whose due time it is ----------------------------------------------------------------------

  /** The job is for a request the reader counted, and keeps the schedule it was counted with. */
  predicate Known(job: Job, counted: map<nat, Option<nat>>) {
    job.id in counted && counted[job.id] == job.scheduled
  }

  predicate AllKnown(d: Worker, counted: map<nat, Option<nat>>) {
    && (d.held.Some? ==> Known(d.held.value, counted))
    && (forall i | 0 <= i < |d.returned| :: Known(d.returned[i].0, counted))
    && (forall c | 0 <= c < |d.conns| && JobOf(d.conns[c]).Some? :: Known(JobOf(d.conns[c]).value, counted))
  }

  lemma {:induction false} FirstsIn(pairs: seq<(Job, nat)>, job: Job)
    requires job in Firsts(pairs)
    ensures exists i :: 0 <= i < |pairs| && pairs[i].0 == job
  {
    if job != pairs[0].0 {
      FirstsIn(pairs[1..], job);
      var i :| 0 <= i < |pairs[1..]| && pairs[1..][i].0 == job;
      assert pairs[i + 1].0 == job;
    }
  }

  lemma ServeKnown(d: Worker, job: Job, counted: map<nat, Option<nat>>)
    requires ServesNext(d) && d.waiting != [] && AllKnown(d, counted) && Known(job, counted)
    ensures AllKnown(Serve(d, job), counted)
  {
  }

  lemma TurnKnown(d: Worker, now1: nat, now2: nat, claim: Claim, counted: map<nat, Option<nat>>)
    requires ServesNext(d) && AllKnown(d, counted)
    requires Asks(d, now1) && claim.Request? ==> claim.id in counted && counted[claim.id] == claim.scheduled
    ensures var (d', _, failed) := TakeTurn(d, now1, now2, claim);
            AllKnown(d', counted) && forall i | 0 <= i < |failed| :: Known(failed[i].0, counted)
  {
    hide Serve, StaleCount, Known, Due, Finish;
    if d.waiting != [] && d.returned != [] {
      ServeKnown(d, d.returned[0].0, counted);
      ServeChanges(d, d.returned[0].0);
    } else {
      var d1 := Unhold(d, now1);
      var d2 := DropStale(d1);
      FailKnown(d, now1, counted);
      hide Unhold, DropStale, Stale, AllKnown;
      FinishKnown(d2, now2, true, counted);
      FinishKnown(d2, now2, false, counted);
      ClaimKnown(d2, claim, counted);
    }
  }

  lemma FailKnown(d: Worker, now: nat, counted: map<nat, Option<nat>>)
    requires AllKnown(d, counted)
    ensures var d1 := Unhold(d, now);
            var d2 := DropStale(d1);
            && AllKnown(d2, counted) && (forall i | 0 <= i < |Stale(d1)| :: Known(Stale(d1)[i].0, counted))
            && d2.waiting == d.waiting && d2.conns == d.conns && d2.held == d1.held && d2.exhausted == d.exhausted
  {
    hide StaleCount, Known, Due;
    assert AllKnown(Unhold(d, now), counted);
  }

  lemma FinishKnown(d: Worker, now: nat, readerBehind: bool, counted: map<nat, Option<nat>>)
    requires ServesNext(d) && AllKnown(d, counted)
    ensures AllKnown(Finish(d, now, readerBehind).0, counted)
  {
    hide Serve, Known;
    if d.waiting != [] && d.held.Some? {
      ServeKnown(d, d.held.value, counted);
      ServeChanges(d, d.held.value);
    }
  }

  lemma ClaimKnown(d: Worker, claim: Claim, counted: map<nat, Option<nat>>)
    requires AllKnown(d, counted)
    ensures claim.Request? && claim.id in counted && counted[claim.id] == claim.scheduled ==>
              AllKnown(d.(held := Some(Fresh(claim.id, claim.scheduled))), counted)
    ensures AllKnown(d.(exhausted := true), counted)
  {
  }

  /** No event changes which request a job is for, or when that is due. */
  lemma KnownKept(d: Worker, e: Event, counted: map<nat, Option<nat>>)
    requires Allowed(d, e) && AllKnown(d, counted)
    requires Claims(d, e) ==> e.claim.id in counted && counted[e.claim.id] == e.claim.scheduled
    ensures var (d', ended) := React(d, e); AllKnown(d', counted) && forall job | job in ended :: Known(job, counted)
  {
    hide TakeTurn, Asks;
    match e
    case Turned(now1, now2, claim) =>
      TurnKnown(d, now1, now2, claim, counted);
      var failed := TakeTurn(d, now1, now2, claim).2;
      forall job | job in Firsts(failed) ensures Known(job, counted) {
        FirstsIn(failed, job);
      }
    case _ =>
  }

  /** No request is handed to connections more often than once for each of them and twice more. */
  lemma HandOversBounded(d: Worker, c: nat)
    requires JobsOk(d, d.now) && c < |d.conns| && JobOf(d.conns[c]).Some?
    ensures JobOf(d.conns[c]).value.handed <= Max(|d.conns|, 1) + 2
  {
  }

  /**
   Dropping from the front finds everything there is to drop: in stamp order, the requests
   handed back before the latest failed connect attempt are exactly the first ones.
   */
  lemma {:induction false} StaleIsAPrefix(returned: seq<(Job, nat)>, failures: nat)
    requires forall i, j | 0 <= i <= j < |returned| :: returned[i].1 <= returned[j].1
    ensures var n := StaleCount(returned, failures);
            && (forall i | 0 <= i < n :: returned[i].1 < failures)
            && (forall i | n <= i < |returned| :: returned[i].1 >= failures)
  {
    if returned != [] && returned[0].1 < failures {
      var rest := returned[1..];
      assert forall i | 0 <= i < |rest| :: rest[i] == returned[i + 1];
      StaleIsAPrefix(rest, failures);
      assert forall i | 1 <= i < |returned| :: returned[i] == rest[i - 1];
    }
  }
}
