/**
 Handing a worker's trace requests to its connections (src/kvreplay.rs): the dispatcher's
 queues, its loop, and the rules for handing a request back.
 */
module KvDispatch {
  import opened Numbers
  import opened Options

  const IDLE_SLEEP_MAX: nat := 50_000_000
  const START_POLL: nat := 1_000_000

  /** A trace request on its way. `handed` counts the connections it was handed to, which no code reads. */
  datatype Job = Job(id: nat, scheduled: Option<nat>, retried: bool, deadHandovers: nat, handed: nat)

  /** Why a connection hands a request back. */
  datatype HandBack = Unsent | LookupSent

  datatype Claim = Request(id: nat, scheduled: Option<nat>) | NotReady | Exhausted

  /** A connection task, seen from the dispatcher. */
  datatype Conn =
    | Away
    | Ready(ranAny: bool)
    | Waiting(ranAny: bool)
    | Handed(job: Job, ranAny: bool)
    | Running(job: Job)

  datatype Worker = Worker(
    conns: seq<Conn>,
    waiting: seq<nat>,
    returned: seq<(Job, nat)>,
    held: Option<Job>,
    exhausted: bool,
    live: nat,
    connectFailures: nat,
    now: nat)

  /** What one turn of the dispatcher's loop ends with. */
  datatype Turn = Continue | Sleep(nap: nat, wantsSlot: bool)

  function Fresh(id: nat, scheduled: Option<nat>): Job {
    Job(id, scheduled, false, 0, 0)
  }

  predicate Due(job: Job, now: nat) {
    job.scheduled.None? || job.scheduled.value <= now
  }

  /** A job as it is put in a connection's slot. */
  function HandOver(job: Job): Job { job.(handed := job.handed + 1) }

  /** The job to queue again, or nothing when it has used up its hand-backs. */
  function GivenBack(job: Job, why: HandBack, connections: nat): Option<Job> {
    match why
    case Unsent =>
      if job.deadHandovers >= Max(connections, 1) then None
      else Some(job.(deadHandovers := job.deadHandovers + 1))
    case LookupSent =>
      if job.retried then None else Some(job.(retried := true))
  }

  /** How many requests at the front came back before the latest failed connect attempt. */
  function StaleCount(returned: seq<(Job, nat)>, failures: nat): (n: nat)
    ensures n <= |returned|
  {
    if returned == [] || returned[0].1 >= failures then 0 else 1 + StaleCount(returned[1..], failures)
  }

  // ---- The dispatcher's loop -----------------------------------------------------------------

  /** A held request that is due while nothing is connected joins the handed-back ones. */
  function Unhold(d: Worker, now: nat): Worker {
    if d.live == 0 && d.held.Some? && Due(d.held.value, now) then
      d.(held := None, returned := d.returned + [(d.held.value, d.connectFailures)])
    else d
  }

  /** With nothing connected, requests a later connect attempt failed for are dropped; `Stale` are those. */
  function Stale(d: Worker): seq<(Job, nat)> {
    if d.live == 0 then d.returned[..StaleCount(d.returned, d.connectFailures)] else []
  }

  function DropStale(d: Worker): Worker {
    if d.live == 0 then d.(returned := d.returned[StaleCount(d.returned, d.connectFailures)..]) else d
  }

  function Serve(d: Worker, job: Job): Worker
    requires d.waiting != [] && d.waiting[0] < |d.conns|
    requires d.conns[d.waiting[0]].Waiting?
  {
    var c := d.waiting[0];
    d.(conns := d.conns[c := Handed(HandOver(job), d.conns[c].ranAny)], waiting := d.waiting[1..])
  }

  predicate ServesNext(d: Worker) {
    d.waiting != [] ==> d.waiting[0] < |d.conns| && d.conns[d.waiting[0]].Waiting?
  }

  /** How long until the held request is due. */
  function DueIn(d: Worker, now: nat): Option<nat> {
    match d.held
    case None => None
    case Some(job) => Some(if job.scheduled.None? then 0 else Max(job.scheduled.value - now, 0))
  }

  function Doze(d: Worker, now: nat, readerBehind: bool): Turn {
    var due := DueIn(d, now);
    var wants := d.waiting == [] && (due == Some(0) || d.returned != [] || (d.held.None? && !d.exhausted));
    Sleep(if due.Some? && due.value > 0 then Min(due.value, IDLE_SLEEP_MAX)
          else if readerBehind then START_POLL
          else IDLE_SLEEP_MAX, wants)
  }

  /** The end of a turn, once no request was claimed: hand out the held one if it is due, or sleep. */
  function Finish(d: Worker, now: nat, readerBehind: bool): (Worker, Turn)
    requires ServesNext(d)
  {
    if d.waiting != [] && DueIn(d, now) == Some(0) then
      (Serve(d, d.held.value).(held := None), Continue)
    else
      (d, Doze(d, now, readerBehind))
  }

  /**
   One turn: the worker after it, and the requests it failed. The clock is read twice, as
   `now1` and then `now2`; `claim` is what the channel answers if it is asked.
   */
  function TakeTurn(d: Worker, now1: nat, now2: nat, claim: Claim): (Worker, Turn, seq<(Job, nat)>)
    requires ServesNext(d)
  {
    if d.waiting != [] && d.returned != [] then
      (Serve(d, d.returned[0].0).(returned := d.returned[1..]), Continue, [])
    else
      var d1 := Unhold(d, now1);
      var d2, stale := DropStale(d1), Stale(d1);
      if d2.waiting != [] && d2.held.None? && !d2.exhausted then
        match claim
        case Request(id, scheduled) => (d2.(held := Some(Fresh(id, scheduled))), Continue, stale)
        case Exhausted => (d2.(exhausted := true), Continue, stale)
        case NotReady => var (d3, turn) := Finish(d2, now2, true); (d3, turn, stale)
      else
        var (d3, turn) := Finish(d2, now2, false); (d3, turn, stale)
  }

  /** Whether a turn asks the channel. */
  predicate Asks(d: Worker, now1: nat) {
    && !(d.waiting != [] && d.returned != [])
    && d.waiting != [] && Unhold(d, now1).held.None? && !d.exhausted
  }

  /**
   The dispatcher never sleeps on work it could hand out: with a connection waiting and
   nothing ready in the channel, it sleeps only if nothing was handed back and what it holds,
   if anything, is not due, and then no longer than until it is.
   */
  lemma SleepsOnlyWithoutWork(d: Worker, now1: nat, now2: nat, claim: Claim)
    requires ServesNext(d) && d.waiting != [] && d.live > 0
    requires TakeTurn(d, now1, now2, claim).1.Sleep?
    ensures var (d', turn, _) := TakeTurn(d, now1, now2, claim);
            && d'.returned == []
            && match d'.held
               case Some(job) =>
                 job.scheduled.Some? && now2 < job.scheduled.value && now2 + turn.nap <= job.scheduled.value
               case None => d'.exhausted || claim.NotReady?
  {
  }

  /** A sleep ends by the time the held request is due, and while the reader is behind, by the next poll of it. */
  lemma NapEndsInTime(d: Worker, now1: nat, now2: nat, claim: Claim)
    requires ServesNext(d) && TakeTurn(d, now1, now2, claim).1.Sleep?
    ensures var (d', turn, _) := TakeTurn(d, now1, now2, claim);
            var early := d'.held.Some? && d'.held.value.scheduled.Some? && now2 < d'.held.value.scheduled.value;
            turn.nap == if early then Min(d'.held.value.scheduled.value - now2, IDLE_SLEEP_MAX)
                        else if Asks(d, now1) then START_POLL
                        else IDLE_SLEEP_MAX
  {
  }

  /**
   A dispatcher that goes to sleep asks connections to wake it exactly when one that did would be of use: with it
   waiting, and a request to be had, the next turn would not sleep.
   */
  lemma AsksToBeWokenForWork(
    d: Worker, now1: nat, now2: nat, claim: Claim, c: nat, ranAny: bool, live: nat, id: nat, scheduled: Option<nat>)
    requires ServesNext(d) && TakeTurn(d, now1, now2, claim).1.Sleep?
    requires d.waiting == [] && c < |d.conns| && live > 0
    ensures var (d', turn, _) := TakeTurn(d, now1, now2, claim);
            && c < |d'.conns|
            && var woken := d'.(conns := d'.conns[c := Waiting(ranAny)], waiting := [c], live := live);
               turn.wantsSlot <==> TakeTurn(woken, now2, now2, Request(id, scheduled)).1.Continue?
  {
  }

  /** And never while one is waiting. */
  lemma WaitingIsEnough(d: Worker, now1: nat, now2: nat, claim: Claim)
    requires ServesNext(d) && TakeTurn(d, now1, now2, claim).1.Sleep? && d.waiting != []
    ensures !TakeTurn(d, now1, now2, claim).1.wantsSlot
  {
  }

  /** The job a connection was just handed. */
  function JobIn(d: Worker, c: nat): Option<Job> {
    if c < |d.conns| && d.conns[c].Handed? then Some(d.conns[c].job) else None
  }

  // ---- The objects -----------------------------------------------------------------------------

  /** One idle connection waiting for a request. */
  class KvSlot {
    var job: Option<Job>
    var done: bool

    constructor ()
      ensures job == None && !done
    {
      job, done := None, false;
    }

    method Complete(next: Option<Job>)
      modifies this
      ensures job == next && done
    {
      job := next;
      done := true;
    }
  }

  class KvDispatcher {
    var waiting: seq<KvSlot>
    var closed: bool
    var returned: seq<(Job, nat)>
    var connections: nat
    var live: nat
    var connectFailures: nat
    /** The dispatcher task's own: the request it holds, and whether the trace has run out. */
    var held: Option<Job>
    var exhausted: bool

    constructor (count: nat)
      ensures waiting == [] && !closed && returned == []
      ensures connections == count && live == 0 && connectFailures == 0
      ensures held == None && !exhausted && Valid()
    {
      waiting, closed, returned := [], false, [];
      connections, live, connectFailures := count, 0, 0;
      held, exhausted := None, false;
    }

    /** The dispatcher's state as the loop sees it: a waiting connection for each slot. */
    ghost function Snapshot(): (d: Worker)
      reads this
      ensures ServesNext(d)
    {
      Worker(seq(|waiting|, i => Waiting(false)), seq(|waiting|, i => i), returned, held, exhausted,
             live, connectFailures, 0)
    }

    /** No connection waits on two slots, and no slot in the list is finished with. */
    ghost predicate Valid()
      reads this, waiting
    {
      && (forall i, j | 0 <= i < j < |waiting| :: waiting[i] != waiting[j])
      && (forall i | 0 <= i < |waiting| :: !waiting[i].done && waiting[i].job == None)
      && (closed ==> waiting == [])
    }

    /** Join the waiting connections; returns nothing once the dispatcher is closed. */
    method Ask() returns (slot: KvSlot?)
      requires Valid()
      modifies this`waiting
      ensures Valid()
      ensures closed ==> slot == null && waiting == old(waiting)
      ensures !closed ==> slot != null && fresh(slot) && waiting == old(waiting) + [slot]
    {
      if closed {
        return null;
      }
      var s := new KvSlot();
      waiting := waiting + [s];
      slot := s;
    }

    method GiveBack(job: Job, why: HandBack) returns (kept: bool)
      requires Valid()
      modifies this`returned
      ensures Valid()
      ensures match GivenBack(job, why, connections)
              case None => !kept && returned == old(returned)
              case Some(again) => kept && returned == old(returned) + [(again, connectFailures)]
    {
      var again := job;
      match why {
        case Unsent =>
          if job.deadHandovers >= Max(connections, 1) {
            return false;
          }
          again := job.(deadHandovers := job.deadHandovers + 1);
        case LookupSent =>
          if job.retried {
            return false;
          }
          again := job.(retried := true);
      }
      returned := returned + [(again, connectFailures)];
      return true;
    }

    /** Give the oldest handed-back request to the connection that has waited longest. */
    method ServeReturned() returns (served: bool)
      requires Valid()
      modifies this`waiting, this`returned, waiting
      ensures Valid()
      ensures served <==> old(waiting) != [] && old(returned) != []
      ensures !served ==> waiting == old(waiting) && returned == old(returned)
      ensures served ==>
                && waiting == old(waiting)[1..] && returned == old(returned)[1..]
                && old(waiting)[0].done && old(waiting)[0].job == Some(HandOver(old(returned)[0].0))
    {
      if waiting == [] || returned == [] {
        return false;
      }
      var slot, job := waiting[0], returned[0].0;
      assert forall i | 1 <= i < |waiting| :: waiting[i] != slot;
      waiting, returned := waiting[1..], returned[1..];
      slot.Complete(Some(HandOver(job)));
      return true;
    }

    /** With no connection left, fail the requests a later connect attempt has failed for. */
    method FailStale() returns (failed: nat)
      requires Valid()
      modifies this`returned
      ensures Valid()
      ensures live > 0 ==> failed == 0 && returned == old(returned)
      ensures live == 0 ==> failed == StaleCount(old(returned), connectFailures) && returned == old(returned)[failed..]
    {
      failed := 0;
      if live > 0 {
        return;
      }
      while returned != [] && connectFailures > returned[0].1
        invariant Valid()
        invariant failed + StaleCount(returned, connectFailures) == StaleCount(old(returned), connectFailures)
        invariant failed <= |old(returned)| && returned == old(returned)[failed..]
        decreases |returned|
      {
        returned := returned[1..];
        failed := failed + 1;
      }
    }

    /** One turn of the dispatcher's loop. */
    method TakeOneTurn(now1: nat, now2: nat, claim: Claim) returns (turn: Turn, failed: nat)
      requires Valid()
      modifies this`waiting, this`returned, this`held, this`exhausted, waiting
      ensures Valid()
      ensures var (d, t, stale) := TakeTurn(old(Snapshot()), now1, now2, claim);
              && turn == t && failed == |stale|
              && returned == d.returned && held == d.held && exhausted == d.exhausted
              && if |d.waiting| == |old(waiting)| then waiting == old(waiting)
                 else waiting == old(waiting)[1..] && old(waiting)[0].done && old(waiting)[0].job == JobIn(d, 0)
      // A request that is claimed is held with the schedule it has in the trace, whatever that is.
      ensures old(waiting) != [] && old(returned) == [] && old(held) == None && !old(exhausted) && claim.Request? ==>
                && turn.Continue? && waiting == old(waiting)
                && held.Some? && held.value.id == claim.id && held.value.scheduled == claim.scheduled
                && !held.value.retried && held.value.deadHandovers == 0
    {
      var served := ServeReturned();
      if served {
        return Continue, 0;
      }
      turn, failed := ClaimOrDoze(now1, now2, claim);
    }

    /** With nothing connected: queue a held request that is due, then fail what has waited too long. */
    method FailUnreachable(now: nat) returns (failed: nat)
      requires Valid()
      modifies this`returned, this`held
      ensures Valid()
      ensures Snapshot() == DropStale(Unhold(old(Snapshot()), now))
      ensures failed == |Stale(Unhold(old(Snapshot()), now))|
    {
      if live == 0 && held.Some? && Due(held.value, now) {
        returned := returned + [(held.value, connectFailures)];
        held := None;
      }
      assert Snapshot() == Unhold(old(Snapshot()), now);
      failed := FailStale();
    }

    /** The rest of a turn, with no handed-back request to serve. */
    method ClaimOrDoze(now1: nat, now2: nat, claim: Claim) returns (turn: Turn, failed: nat)
      requires Valid() && (waiting == [] || returned == [])
      modifies this`waiting, this`returned, this`held, this`exhausted, waiting
      ensures Valid()
      ensures var (d, t, stale) := TakeTurn(old(Snapshot()), now1, now2, claim);
              && turn == t && failed == |stale|
              && returned == d.returned && held == d.held && exhausted == d.exhausted
              && if |d.waiting| == |old(waiting)| then waiting == old(waiting)
                 else waiting == old(waiting)[1..] && old(waiting)[0].done && old(waiting)[0].job == JobIn(d, 0)
      // A request that is claimed is held with the schedule it has in the trace, whatever that is.
      ensures old(waiting) != [] && old(returned) == [] && old(held) == None && !old(exhausted) && claim.Request? ==>
                && turn.Continue? && waiting == old(waiting)
                && held.Some? && held.value.id == claim.id && held.value.scheduled == claim.scheduled
                && !held.value.retried && held.value.deadHandovers == 0
    {
      failed := FailUnreachable(now1);
      ghost var d := Snapshot();
      assert d.live == live && d.held == held && d.exhausted == exhausted && |d.waiting| == |waiting|;
      hide StaleCount, Unhold, DropStale, Stale, Finish, Serve, JobIn;
      var readerBehind := false;
      if waiting != [] && held.None? && !exhausted {
        match claim {
          case Request(id, scheduled) =>
            held := Some(Fresh(id, scheduled));
            return Continue, failed;
          case Exhausted =>
            exhausted := true;
            return Continue, failed;
          case NotReady =>
            readerBehind := true;
        }
      }
      turn := HandOutOrDoze(now2, readerBehind);
    }

    /** Hand the held request to a waiting connection if it is due; otherwise say how long to sleep. */
    method HandOutOrDoze(now: nat, readerBehind: bool) returns (turn: Turn)
      requires Valid()
      modifies this`waiting, this`held, waiting
      ensures Valid()
      ensures var (d, t) := Finish(old(Snapshot()), now, readerBehind);
              && turn == t && held == d.held
              && if |d.waiting| == |old(waiting)| then waiting == old(waiting)
                 else waiting == old(waiting)[1..] && old(waiting)[0].done && old(waiting)[0].job == JobIn(d, 0)
    {
      var due := match held
        case None => None
        case Some(job) => Some(if job.scheduled.None? then 0 else Max(job.scheduled.value - now, 0));
      if waiting != [] && due == Some(0) {
        var slot := waiting[0];
        assert forall i | 1 <= i < |waiting| :: waiting[i] != slot;
        waiting := waiting[1..];
        slot.Complete(Some(HandOver(held.value)));
        held := None;
        return Continue;
      }
      var needsSlot := waiting == [] && (due == Some(0) || returned != [] || (held.None? && !exhausted));
      var nap := if due.Some? && due.value > 0 then Min(due.value, IDLE_SLEEP_MAX)
                 else if readerBehind then START_POLL
                 else IDLE_SLEEP_MAX;
      return Sleep(nap, needsSlot);
    }

    /** Release every waiting connection without a request, for good. */
    method Close()
      requires Valid()
      modifies this`waiting, this`closed, waiting
      ensures Valid() && closed && waiting == []
      ensures forall s | s in old(waiting) :: s.done && s.job == None
    {
      closed := true;
      var slots := waiting;
      waiting := [];
      var i := 0;
      while i < |slots|
        invariant 0 <= i <= |slots| && waiting == [] && closed
        invariant forall j | 0 <= j < i :: slots[j].done && slots[j].job == None
      {
        slots[i].Complete(None);
        i := i + 1;
      }
    }
  }
}
