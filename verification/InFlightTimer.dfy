/**
 The requests in flight on one connection and the deadline timer that outlives single
 receives (src/worker.rs). Times are points of one clock that never goes back.
 */
module InFlightTimer {
  import opened Numbers
  import opened Options

  predicate Ordered(times: seq<nat>) {
    forall i, j | 0 <= i < j < |times| :: times[i] <= times[j]
  }

  /** Time left to the oldest request; none when there is no deadline, zero once it has passed. */
  function Remaining(fired: seq<nat>, timeout: nat, now: nat): Option<nat> {
    if timeout == 0 || fired == [] then None
    else Some(Monus(timeout, Monus(now, fired[0])))
  }

  /** When a timer armed at `now` for what remains goes off. */
  function ArmedFor(fired: seq<nat>, timeout: nat, now: nat): nat
    requires timeout > 0 && fired != []
  {
    now + Remaining(fired, timeout, now).value
  }

  /**
   A timer goes off by the oldest request's deadline exactly when it was armed by then. Armed later, it goes off
   at once; armed in time, at the deadline itself.
   */
  lemma ArmedInTimeExactly(fired: seq<nat>, timeout: nat, now: nat)
    requires timeout > 0 && fired != [] && fired[0] <= now
    ensures ArmedFor(fired, timeout, now) <= fired[0] + timeout <==> now <= fired[0] + timeout
    ensures ArmedFor(fired, timeout, now) == Max(now, fired[0] + timeout)
    ensures Remaining(fired, timeout, now) == Some(0) <==> now >= fired[0] + timeout
  {
  }

  predicate TimerOk(fired: seq<nat>, timeout: nat, timer: Option<nat>, armedAt: nat) {
    timer.Some? ==>
      && armedAt <= timer.value <= armedAt + timeout
      && (fired != [] ==> timer.value <= Max(fired[0] + timeout, armedAt))
  }

  /** What a receive sees each time it is polled. */
  datatype Poll = Poll(now: nat, replied: bool, timerLeft: bool)

  datatype Received = Reply | Timeout(expired: nat) | NoTimer | Pending

  predicate PollsFrom(polls: seq<Poll>, start: nat) {
    && (forall i | 0 <= i < |polls| :: start <= polls[i].now)
    && forall i, j | 0 <= i < j < |polls| :: polls[i].now <= polls[j].now
  }

  function LastSeen(now: nat, polls: seq<Poll>): nat {
    if polls == [] then now else polls[|polls| - 1].now
  }

  predicate NoneReplied(polls: seq<Poll>) {
    forall i | 0 <= i < |polls| :: !polls[i].replied
  }

  /**
   When a timer that would go off at `at` goes off after the wait was looked at: once it has been seen to have gone
   off it runs for the deadline.
   */
  function RunningAfter(at: nat, deadline: nat, polls: seq<Poll>): nat {
    if polls != [] && at <= polls[|polls| - 1].now then deadline else at
  }

  class InFlight {
    var fired: seq<nat>
    var queued: seq<nat>
    const trackQueued: bool
    const timeout: nat
    var timer: Option<nat>
    ghost var armedAt: nat

    /** The records agree, and a running timer is no later than the oldest deadline, or than when it was armed. */
    ghost predicate Valid(now: nat)
      reads this
    {
      && |queued| == (if trackQueued then |fired| else 0)
      && Ordered(fired) && (forall i | 0 <= i < |fired| :: fired[i] <= now)
      && armedAt <= now
      && TimerOk(fired, timeout, timer, armedAt)
    }

    constructor (timeout: nat, trackQueued: bool)
      ensures forall now: nat :: Valid(now)
      ensures fired == [] && timer.None? && this.timeout == timeout && this.trackQueued == trackQueued && armedAt == 0
    {
      this.timeout, this.trackQueued := timeout, trackQueued;
      fired, queued, timer, armedAt := [], [], None, 0;
    }

    /** A request fired at a time read since the last receive. */
    method Push(firedAt: nat, queuedFor: nat)
      requires Valid(firedAt)
      modifies this`fired, this`queued
      ensures Valid(firedAt) && fired == old(fired) + [firedAt]
      ensures queued == old(queued) + if trackQueued then [queuedFor] else []
    {
      assert TimerOk(fired + [firedAt], timeout, timer, armedAt);
      fired := fired + [firedAt];
      if trackQueued {
        queued := queued + [queuedFor];
      }
    }

    /** The oldest request was answered; how long it had been queued. */
    method Pop(now: nat) returns (queuedFor: nat)
      requires Valid(now) && fired != []
      modifies this`fired, this`queued
      ensures Valid(now) && fired == old(fired)[1..]
      ensures trackQueued ==> queuedFor == old(queued)[0] && queued == old(queued)[1..]
      ensures !trackQueued ==> queuedFor == 0
    {
      fired := fired[1..];
      queuedFor := 0;
      if queued != [] {
        queuedFor := queued[0];
        queued := queued[1..];
      }
    }

    /**
     A send failed: the client counts `before` unanswered requests before the call and `after` afterwards. As long
     as the record has one entry for each, it still does.
     */
    method NoteDiscarded(now: nat, before: nat, after: nat) returns (discarded: nat)
      requires Valid(now) && |fired| == before
      modifies this`fired, this`queued
      ensures Valid(now) && discarded == Monus(before, after)
      ensures fired == old(fired)[..before - discarded]
      ensures after <= before ==> |fired| == after
    {
      discarded := Monus(before, after);
      var keep := Monus(|fired|, discarded);
      fired := fired[..keep];
      if trackQueued {
        queued := queued[..keep];
      }
    }

    /** Arm the timer for what remains, unless the timer pool is exhausted. */
    method Arm(now: nat, left: nat, available: bool) returns (ok: bool)
      requires Valid(now) && timeout > 0 && fired != [] && Remaining(fired, timeout, now) == Some(left)
      requires timer.None?
      modifies this`timer, this`armedAt
      ensures Valid(now) && ok == available
      ensures ok ==> armedAt == now && timer == Some(Max(now, fired[0] + timeout))
      ensures !ok ==> timer.None?
    {
      ArmedInTimeExactly(fired, timeout, now);
      if available {
        timer := Some(now + left);
        armedAt := now;
      }
      ok := available;
    }

    /** A bounded receive begins: a timer is armed if none is running. */
    method Bound(now: nat, available: bool) returns (ok: bool)
      requires Valid(now) && timeout > 0 && fired != []
      modifies this`timer, this`armedAt
      ensures Valid(now) && ok == (old(timer).Some? || available) && timer.Some? == ok
      ensures old(timer).Some? ==> timer == old(timer) && armedAt == old(armedAt)
      ensures old(timer).None? && ok ==> timer == Some(Max(now, fired[0] + timeout)) && armedAt == now
    {
      ok := true;
      if timer.None? {
        ok := Arm(now, Remaining(fired, timeout, now).value, available);
      }
    }

    /** Poll for the reply, and for the running timer. */
    method Await(now: nat, polls: seq<Poll>) returns (r: Received)
      requires Valid(now) && PollsFrom(polls, now) && timer.Some? && timeout > 0 && fired != []
      modifies this`timer, this`armedAt
      ensures Valid(LastSeen(now, polls))
      ensures polls == [] ==> r.Pending? && armedAt == old(armedAt)
      ensures r.Timeout? ==>
                r.expired == |fired| &&
                exists i :: 0 <= i < |polls| && fired[0] + timeout <= polls[i].now && NoneReplied(polls[..i + 1])
      ensures r.Pending? ==> NoneReplied(polls) && forall i | 0 <= i < |polls| :: polls[i].now < fired[0] + timeout
      ensures r.Pending? ==> timer == Some(RunningAfter(old(timer).value, fired[0] + timeout, polls))
      ensures r.Reply? ==>
                exists i :: 0 <= i < |polls| && polls[i].replied && NoneReplied(polls[..i]) &&
                            timer == Some(RunningAfter(old(timer).value, fired[0] + timeout, polls[..i]))
      ensures r.NoTimer? ==> exists i :: 0 <= i < |polls| && !polls[i].timerLeft && NoneReplied(polls[..i + 1])
    {
      hide Ordered, TimerOk, Remaining;
      for i := 0 to |polls|
        invariant Valid(if i == 0 then now else polls[i - 1].now)
        invariant timer == Some(RunningAfter(old(timer).value, fired[0] + timeout, polls[..i]))
        invariant NoneReplied(polls[..i])
        invariant i == 0 ==> armedAt == old(armedAt)
        invariant forall j | 0 <= j < i :: polls[j].now < fired[0] + timeout
      {
        var poll := polls[i];
        assert polls[..i + 1] == polls[..i] + [poll];
        Later(if i == 0 then now else polls[i - 1].now, poll.now);
        if poll.replied {
          return Reply;
        }
        var verdict := PollTimer(poll);
        if !verdict.Pending? {
          assert NoneReplied(polls[..i + 1]);
          Later(poll.now, LastSeen(now, polls));
          return verdict;
        }
      }
      assert polls[..|polls|] == polls;
      r := Pending;
    }

    /** When the timer of a bounded receive that begins at `now` would go off: the one running, or one armed now. */
    ghost function Running(timer: Option<nat>, now: nat): nat
      reads this
      requires fired != []
    {
      if timer.Some? then timer.value else Max(now, fired[0] + timeout)
    }

    /** Time passing changes nothing. */
    lemma Later(now: nat, later: nat)
      requires Valid(now) && now <= later
      ensures Valid(later)
    {
    }

    /**
     Wait for one reply under the request timeout. `polls` are the times the wait is looked at: whether the reply is
     there, and whether a timer can be had.
     */
    method Receive(now: nat, available: bool, polls: seq<Poll>) returns (r: Received)
      requires Valid(now) && PollsFrom(polls, now)
      modifies this`timer, this`armedAt
      ensures Valid(LastSeen(now, polls))
      // A timeout means the oldest request has outlived the timeout, and counts everything in flight.
      ensures r.Timeout? ==>
                && timeout > 0 && fired != [] && r.expired == |fired|
                && exists i :: 0 <= i < |polls| && fired[0] + timeout <= polls[i].now && NoneReplied(polls[..i + 1])
      // And a bounded wait is never left pending past that.
      ensures r.Pending? && timeout > 0 && fired != [] ==>
                forall i | 0 <= i < |polls| :: polls[i].now < fired[0] + timeout
      // The timer that was running, or one armed now, runs on past the reply; seen to go off early, to the deadline.
      ensures timeout > 0 && fired != [] && r.Pending? ==>
                timer == Some(RunningAfter(Running(old(timer), now), fired[0] + timeout, polls))
      ensures timeout > 0 && fired != [] && r.Reply? ==>
                exists i :: 0 <= i < |polls| && polls[i].replied && NoneReplied(polls[..i]) &&
                            timer == Some(RunningAfter(Running(old(timer), now), fired[0] + timeout, polls[..i]))
      // Without a deadline it is not looked at.
      ensures timeout == 0 || fired == [] ==> timer == old(timer) && (r.Pending? || r.Reply?)
      // A reply that is there when the wait is looked at is never passed over.
      ensures r.Reply? ==> exists i :: 0 <= i < |polls| && polls[i].replied
      ensures r.Pending? ==> NoneReplied(polls)
      ensures r.NoTimer? ==>
                !available || exists i :: 0 <= i < |polls| && !polls[i].timerLeft && NoneReplied(polls[..i + 1])
    {
      Later(now, LastSeen(now, polls));
      if Remaining(fired, timeout, now).None? {
        r := Unbounded(polls);
        return;
      }
      var ok := Bound(now, available);
      Later(now, LastSeen(now, polls));
      if !ok {
        return NoTimer;
      }
      r := Await(now, polls);
    }

    /** A receive without a deadline waits for the reply alone. */
    static method Unbounded(polls: seq<Poll>) returns (r: Received)
      ensures r == if NoneReplied(polls) then Pending else Reply
      ensures r.Reply? ==> exists i :: 0 <= i < |polls| && polls[i].replied
    {
      for i := 0 to |polls|
        invariant forall j | 0 <= j < i :: !polls[j].replied
      {
        if polls[i].replied {
          return Reply;
        }
      }
      r := Pending;
    }

    /** Look at the timer: still running, gone off early and armed again for the rest, or gone off for good. */
    method PollTimer(poll: Poll) returns (r: Received)
      requires Valid(poll.now) && timer.Some? && timeout > 0 && fired != []
      modifies this`timer, this`armedAt
      ensures Valid(poll.now) && (r.Timeout? || r.NoTimer? || r.Pending?)
      ensures r.Timeout? <==> fired[0] + timeout <= poll.now && old(timer).value <= poll.now
      ensures fired[0] + timeout <= poll.now ==> r.Timeout?
      ensures r.Timeout? ==> r.expired == |fired|
      ensures r.NoTimer? ==> !poll.timerLeft
      ensures r.Pending? ==> timer.Some? && poll.now < fired[0] + timeout
      ensures poll.now < old(timer).value ==> r.Pending? && timer == old(timer)
      // Gone off before the deadline, the timer is armed again for exactly the deadline.
      ensures r.Pending? && old(timer).value <= poll.now ==> timer == Some(fired[0] + timeout)
    {
      if poll.now < timer.value {
        return Pending;
      }
      timer := None;
      var left := Remaining(fired, timeout, poll.now).value;
      ArmedInTimeExactly(fired, timeout, poll.now);
      if left == 0 {
        return Timeout(|fired|);
      }
      var armed := Arm(poll.now, left, poll.timerLeft);
      r := if armed then Pending else NoTimer;
    }
  }

  // ---- When a running timer is late --------------------------------------------------------------

  /**
   Of every connection in every reachable state: a running timer goes off by the deadline of the oldest request
   exactly when it was armed by then, however many replies and sends ago that was.
   */
  lemma RunningTimerInTimeExactly(f: InFlight, now: nat)
    requires f.Valid(now) && f.timer.Some? && f.fired != []
    ensures f.timer.value <= f.fired[0] + f.timeout <==> f.armedAt <= f.fired[0] + f.timeout
    ensures f.armedAt > f.fired[0] + f.timeout ==> f.timer.value == f.armedAt
  {
  }

  /**
   And it can be late: here two requests, sent at 0 with 10 to be answered, are not received for until 15. The first
   is answered then, and the timer armed for it runs on, later than the other's deadline.
   */
  method LateTimer() returns (f: InFlight, first: Received)
    ensures first.Reply? && f.timeout == 10 && f.fired == [0] && f.timer == Some(15) && f.Valid(15)
  {
    hide Ordered, TimerOk;
    f := new InFlight(10, false);
    f.Push(0, 0);
    f.Push(0, 0);
    var polls := [Poll(15, true, true)];
    first := f.Receive(15, true, polls);
    assert polls[0].replied && polls[..0] == [] && polls[..1] == polls;
    assert !NoneReplied(polls);
    var queuedFor := f.Pop(15);
  }
}
