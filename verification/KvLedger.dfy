/**
 Every request of a replayed KV trace, from the reader to its end: in exactly one place, and
 finished exactly once.
 */
module KvLedger {
  import opened KvDispatch
  import opened KvRuns
  import opened Ledgers
  import opened Numbers
  import opened Options

  const READ_AHEAD: nat := 16_384

  // ---- One worker's part -----------------------------------------------------------------------

  ghost function HasId(n: nat): Job -> bool {
    (j: Job) => j.id == n
  }

  function AsJobs(job: Option<Job>): seq<Job> {
    if job.Some? then [job.value] else []
  }

  /** The job of each connection that has one. */
  ghost function ConnJobs(conns: seq<Conn>): (jobs: seq<seq<Job>>)
    ensures |jobs| == |conns|
    ensures forall i | 0 <= i < |conns| :: jobs[i] == AsJobs(JobOf(conns[i]))
  {
    seq(|conns|, i requires 0 <= i < |conns| => AsJobs(JobOf(conns[i])))
  }

  /** How often request `n` is held, handed back, in a slot or running on this worker. */
  ghost function OnWorker(d: Worker, n: nat): nat {
    Tally(AsJobs(d.held), HasId(n)) + Tally(Firsts(d.returned), HasId(n)) + TallyAll(ConnJobs(d.conns), HasId(n))
  }

  lemma ConnTally(conns: seq<Conn>, c: nat, conn: Conn, n: nat)
    requires c < |conns|
    ensures TallyAll(ConnJobs(conns[c := conn]), HasId(n)) ==
            TallyAll(ConnJobs(conns), HasId(n))
              - Tally(AsJobs(JobOf(conns[c])), HasId(n)) + Tally(AsJobs(JobOf(conn)), HasId(n))
  {
    assert ConnJobs(conns[c := conn]) == ConnJobs(conns)[c := AsJobs(JobOf(conn))];
    TallyUpdate(ConnJobs(conns), c, AsJobs(JobOf(conn)), HasId(n));
  }

  lemma {:induction false} FirstsConcat(a: seq<(Job, nat)>, b: seq<(Job, nat)>)
    ensures Firsts(a + b) == Firsts(a) + Firsts(b)
  {
    if a == [] {
      assert a + b == b;
    } else {
      FirstsConcat(a[1..], b);
      assert (a + b)[1..] == a[1..] + b;
      assert [a[0].0] + (Firsts(a[1..]) + Firsts(b)) == [a[0].0] + Firsts(a[1..]) + Firsts(b);
    }
  }

  lemma ReturnedTally(a: seq<(Job, nat)>, b: seq<(Job, nat)>, n: nat)
    ensures Tally(Firsts(a + b), HasId(n)) == Tally(Firsts(a), HasId(n)) + Tally(Firsts(b), HasId(n))
  {
    FirstsConcat(a, b);
    TallyConcat(Firsts(a), Firsts(b), HasId(n));
  }

  ghost function One(job: Job, n: nat): nat {
    if job.id == n then 1 else 0
  }

  lemma OneJob(job: Job, stamp: nat, n: nat)
    ensures Tally(AsJobs(Some(job)), HasId(n)) == Tally(Firsts([(job, stamp)]), HasId(n)) == One(job, n)
  {
    assert Firsts([(job, stamp)]) == [job];
  }

  lemma ServeBalance(d: Worker, job: Job, n: nat)
    requires ServesNext(d) && d.waiting != []
    ensures OnWorker(Serve(d, job), n) == OnWorker(d, n) + One(job, n)
  {
    ConnTally(d.conns, d.waiting[0], Serve(d, job).conns[d.waiting[0]], n);
    OneJob(HandOver(job), 0, n);
  }

  lemma UnholdBalance(d: Worker, now: nat, n: nat)
    ensures OnWorker(Unhold(d, now), n) == OnWorker(d, n)
  {
    if Unhold(d, now) != d {
      ReturnedTally(d.returned, [(d.held.value, d.connectFailures)], n);
      OneJob(d.held.value, d.connectFailures, n);
    }
  }

  lemma DropStaleBalance(d: Worker, n: nat)
    ensures OnWorker(DropStale(d), n) + Tally(Firsts(Stale(d)), HasId(n)) == OnWorker(d, n)
  {
    if d.live == 0 {
      var k := StaleCount(d.returned, d.connectFailures);
      ReturnedTally(d.returned[..k], d.returned[k..], n);
      assert d.returned[..k] + d.returned[k..] == d.returned;
    }
  }

  lemma FinishBalance(d: Worker, now: nat, readerBehind: bool, n: nat)
    requires ServesNext(d)
    ensures OnWorker(Finish(d, now, readerBehind).0, n) == OnWorker(d, n)
  {
    if d.waiting != [] && DueIn(d, now) == Some(0) {
      ServeBalance(d, d.held.value, n);
      OneJob(d.held.value, 0, n);
    }
  }

  lemma TurnBalance(d: Worker, now1: nat, now2: nat, claim: Claim, n: nat)
    requires ServesNext(d)
    ensures var (d', _, failed) := TakeTurn(d, now1, now2, claim);
            var claimed := if Asks(d, now1) && claim.Request? && claim.id == n then 1 else 0;
            OnWorker(d', n) + Tally(Firsts(failed), HasId(n)) == OnWorker(d, n) + claimed
  {
    hide StaleCount, Tally, TallyAll;
    assert Tally<Job>([], HasId(n)) == 0 by { TallyZero<Job>([], HasId(n)); }
    if d.waiting != [] && d.returned != [] {
      ServeBalance(d, d.returned[0].0, n);
      assert d.returned == [d.returned[0]] + d.returned[1..];
      ReturnedTally([d.returned[0]], d.returned[1..], n);
      OneJob(d.returned[0].0, d.returned[0].1, n);
      assert Firsts([]) == [];
    } else {
      var d1 := Unhold(d, now1);
      var d2 := DropStale(d1);
      UnholdBalance(d, now1, n);
      DropStaleBalance(d1, n);
      if Asks(d, now1) && claim.Request? {
        OneJob(Fresh(claim.id, claim.scheduled), 0, n);
      } else if !(Asks(d, now1) && claim.Exhausted?) {
        FinishBalance(d2, now2, Asks(d, now1), n);
      }
    }
  }

  lemma LeaveBalance(d: Worker, c: nat, job: Job, why: HandBack, n: nat)
    requires c < |d.conns| && JobOf(d.conns[c]) == Some(job)
    ensures var (d', failed) := Leave(d, c, job, why);
            OnWorker(d', n) + Tally(failed, HasId(n)) == OnWorker(d, n)
  {
    ConnTally(d.conns, c, Away, n);
    OneJob(job, 0, n);
    match GivenBack(job, why, |d.conns|)
    case None =>
    case Some(again) =>
      ReturnedTally(d.returned, [(again, d.connectFailures)], n);
      OneJob(again, d.connectFailures, n);
  }

  /** An event of a worker moves a request from one place on it to another, claims it, or ends it. */
  lemma WorkerBalance(d: Worker, e: Event, n: nat)
    requires Allowed(d, e)
    ensures var (d', ended) := React(d, e);
            var claimed := if Claims(d, e) && e.claim.id == n then 1 else 0;
            OnWorker(d', n) + Tally(ended, HasId(n)) == OnWorker(d, n) + claimed
  {
    hide TakeTurn, Leave, Asks, Firsts, Tally, TallyAll, GivenBack, Serve;
    assert Tally<Job>([], HasId(n)) == 0 by { TallyZero<Job>([], HasId(n)); }
    match e
    case Turned(now1, now2, claim) => TurnBalance(d, now1, now2, claim, n);
    case BeganDead(c) => LeaveBalance(d, c, d.conns[c].job, Unsent, n);
    case ClosedEarly(c) => LeaveBalance(d, c, d.conns[c].job, LookupSent, n);
    case ConnectFailed(_) =>
    case Completed(c) =>
      ConnTally(d.conns, c, Ready(true), n);
      OneJob(d.conns[c].job, 0, n);
    case Disconnected(c) =>
      ConnTally(d.conns, c, Away, n);
      OneJob(d.conns[c].job, 0, n);
    case _ =>
      ConnTally(d.conns, e.c, React(d, e).0.conns[e.c], n);
  }

  // ---- The whole replay ------------------------------------------------------------------------

  datatype Stage = Reading | Handing(id: nat, scheduled: Option<nat>) | Ended | Stopped | Closed

  datatype Watch = Watching | SawStopped | SawFinished(seen: nat) | Finished

  datatype Replay = Replay(
    pos: nat,
    stage: Stage,
    sent: nat,
    channel: seq<Job>,
    workers: seq<Worker>,
    finished: nat,
    watch: Watch,
    // The requests the reader has counted, with their schedules; no code reads them.
    counted: map<nat, Option<nat>>,
    done: seq<Job>)

  datatype Step =
    | Counted(scheduled: Option<nat>)
    | HandedOver
    | TraceEnded
    | StoppedSet
    | SenderDropped
    | OnWorkerStep(w: nat, e: Event)
    | LoadStopped
    | LoadFinished
    | LoadSent

  function Init(connections: seq<nat>): Replay {
    Replay(0, Reading, 0, [], seq(|connections|, i requires 0 <= i < |connections| => Idle(connections[i])),
           0, Watching, map[], [])
  }

  /** What the channel answers a worker that asks it. */
  function Answer(s: Replay): Claim {
    if s.channel != [] then Request(s.channel[0].id, s.channel[0].scheduled)
    else if s.stage.Closed? then Exhausted
    else NotReady
  }

  predicate Enabled(s: Replay, t: Step) {
    match t
    case Counted(_) => s.stage.Reading?
    case HandedOver => s.stage.Handing? && |s.channel| < READ_AHEAD
    case TraceEnded => s.stage.Reading?
    case StoppedSet => s.stage.Ended?
    case SenderDropped => s.stage.Stopped?
    case OnWorkerStep(w, e) =>
      && w < |s.workers| && Allowed(s.workers[w], e)
      && (e.Turned? && Asks(s.workers[w], e.now1) ==> e.claim == Answer(s))
    case LoadStopped => s.watch.Watching?
    case LoadFinished => s.watch.SawStopped?
    case LoadSent => s.watch.SawFinished?
  }

  function Apply(s: Replay, t: Step): Replay
    requires Enabled(s, t)
  {
    match t
    case Counted(scheduled) =>
      s.(pos := s.pos + 1, sent := s.sent + 1, counted := s.counted[s.pos := scheduled],
         stage := Handing(s.pos, scheduled))
    case HandedOver => s.(stage := Reading, channel := s.channel + [Fresh(s.stage.id, s.stage.scheduled)])
    case TraceEnded => s.(stage := Ended)
    case StoppedSet => s.(stage := Stopped)
    case SenderDropped => s.(stage := Closed)
    case OnWorkerStep(w, e) =>
      var (d, ended) := React(s.workers[w], e);
      s.(workers := s.workers[w := d],
         channel := if Claims(s.workers[w], e) then s.channel[1..] else s.channel,
         finished := s.finished + |ended|,
         done := s.done + ended)
    case LoadStopped => s.(watch := if s.stage.Stopped? || s.stage.Closed? then SawStopped else Watching)
    case LoadFinished => s.(watch := SawFinished(s.finished))
    case LoadSent => s.(watch := if s.watch.seen >= s.sent then Finished else Watching)
  }

  predicate Legal(s: Replay, steps: seq<Step>)
    decreases steps
  {
    steps == [] || (Enabled(s, steps[0]) && Legal(Apply(s, steps[0]), steps[1..]))
  }

  function After(s: Replay, steps: seq<Step>): Replay
    requires Legal(s, steps)
    decreases steps
  {
    if steps == [] then s else After(Apply(s, steps[0]), steps[1..])
  }

  ghost function OnWorkers(workers: seq<Worker>, n: nat): nat {
    if workers == [] then 0 else OnWorker(workers[0], n) + OnWorkers(workers[1..], n)
  }

  lemma {:induction false} OnWorkersUpdate(workers: seq<Worker>, w: nat, d: Worker, n: nat)
    requires w < |workers|
    ensures OnWorkers(workers[w := d], n) == OnWorkers(workers, n) - OnWorker(workers[w], n) + OnWorker(d, n)
  {
    if w == 0 {
      assert workers[w := d][1..] == workers[1..];
    } else {
      OnWorkersUpdate(workers[1..], w - 1, d, n);
      assert workers[w := d][1..] == workers[1..][w - 1 := d];
    }
  }

  /** How often request `n` is anywhere between the reader and its end. */
  ghost function Waiting(s: Replay, n: nat): nat {
    (if s.stage.Handing? && s.stage.id == n then 1 else 0) + Tally(s.channel, HasId(n)) + OnWorkers(s.workers, n)
  }

  ghost predicate Conserved(s: Replay) {
    && (forall n: nat :: Waiting(s, n) + Tally(s.done, HasId(n)) == if n in s.counted then 1 else 0)
    && (forall n | n in s.counted :: n < s.pos)
    && s.sent == |s.counted|
    && s.finished == |s.done|
  }

  lemma StepBalance(s: Replay, t: Step, n: nat)
    requires Enabled(s, t)
    ensures var s' := Apply(s, t);
            Waiting(s', n) + Tally(s'.done, HasId(n)) ==
              Waiting(s, n) + Tally(s.done, HasId(n)) + if t.Counted? && n == s.pos then 1 else 0
  {
    match t
    case HandedOver =>
      TallyConcat(s.channel, [Fresh(s.stage.id, s.stage.scheduled)], HasId(n));
      TallyOne(Fresh(s.stage.id, s.stage.scheduled), HasId(n));
    case OnWorkerStep(w, e) =>
      var (d, ended) := React(s.workers[w], e);
      WorkerBalance(s.workers[w], e, n);
      OnWorkersUpdate(s.workers, w, d, n);
      TallyConcat(s.done, ended, HasId(n));
    case _ =>
  }

  /** Only the reader counts a request, and requests finish exactly as often as they are counted finished. */
  lemma StepCounts(s: Replay, t: Step)
    requires Enabled(s, t)
    ensures var s' := Apply(s, t);
            && s'.finished - s.finished == |s'.done| - |s.done|
            && (if t.Counted? then
                  s'.pos == s.pos + 1 && s'.sent == s.sent + 1 && s'.counted.Keys == s.counted.Keys + {s.pos}
                else
                  s'.pos == s.pos && s'.sent == s.sent && s'.counted == s.counted)
  {
    hide React, Allowed, Claims, Answer;
  }

  lemma ConservedKept(s: Replay, t: Step)
    requires Conserved(s) && Enabled(s, t)
    ensures Conserved(Apply(s, t))
  {
    hide Apply, Enabled, Waiting, Tally;
    var s' := Apply(s, t);
    StepCounts(s, t);
    forall n: nat ensures Waiting(s', n) + Tally(s'.done, HasId(n)) == if n in s'.counted then 1 else 0 {
      StepBalance(s, t, n);
    }
  }

  // ---- Every run -------------------------------------------------------------------------------

  predicate ReaderStopped(s: Replay) { s.stage.Stopped? || s.stage.Closed? }

  predicate WatchOk(s: Replay) {
    && (!s.watch.Watching? ==> ReaderStopped(s))
    && (s.watch.SawFinished? ==> s.watch.seen <= s.finished)
    && (s.watch.Finished? ==> s.sent <= s.finished)
  }

  predicate WorkersOk(s: Replay) {
    forall w | 0 <= w < |s.workers| ::
      Queued(s.workers[w]) && JobsOk(s.workers[w], s.workers[w].now) && Stamped(s.workers[w])
  }

  /** Every request on its way, and every one that finished, has the schedule it was counted with. */
  predicate ScheduledAsCounted(s: Replay) {
    && (s.stage.Handing? ==> s.stage.id in s.counted && s.counted[s.stage.id] == s.stage.scheduled)
    && (forall i | 0 <= i < |s.channel| :: Known(s.channel[i], s.counted))
    && (forall w | 0 <= w < |s.workers| :: AllKnown(s.workers[w], s.counted))
    && (forall i | 0 <= i < |s.done| :: Known(s.done[i], s.counted))
  }

  ghost predicate Sound(s: Replay) {
    Conserved(s) && WatchOk(s) && WorkersOk(s) && ScheduledAsCounted(s)
  }

  lemma MoreCounted(d: Worker, counted: map<nat, Option<nat>>, n: nat, scheduled: Option<nat>)
    requires n !in counted && AllKnown(d, counted)
    ensures AllKnown(d, counted[n := scheduled])
  {
  }

  lemma ScheduledKept(s: Replay, t: Step)
    requires Conserved(s) && ScheduledAsCounted(s) && Enabled(s, t)
    ensures ScheduledAsCounted(Apply(s, t))
  {
    hide Waiting, Tally, React, Allowed, Claims;
    match t
    case Counted(scheduled) =>
      forall w | 0 <= w < |s.workers| ensures AllKnown(s.workers[w], s.counted[s.pos := scheduled]) {
        MoreCounted(s.workers[w], s.counted, s.pos, scheduled);
      }
    case OnWorkerStep(w, e) =>
      if Claims(s.workers[w], e) {
        ClaimIsNext(s, t);
      }
      KnownKept(s.workers[w], e, s.counted);
    case _ =>
  }

  /** A request that is claimed is the channel's next, with its schedule. */
  lemma ClaimIsNext(s: Replay, t: Step)
    requires Enabled(s, t) && t.OnWorkerStep? && Claims(s.workers[t.w], t.e) && ScheduledAsCounted(s)
    ensures s.channel != [] && t.e.claim.id in s.counted && s.counted[t.e.claim.id] == t.e.claim.scheduled
  {
    hide Allowed, AllKnown;
  }

  lemma WorkersOkKept(s: Replay, t: Step)
    requires WorkersOk(s) && Enabled(s, t)
    ensures WorkersOk(Apply(s, t))
  {
    if t.OnWorkerStep? {
      QueuedKept(s.workers[t.w], t.e);
      JobsKept(s.workers[t.w], t.e);
    }
    hide Queued, JobsOk, Stamped, React, Allowed;
  }

  lemma WatchOkKept(s: Replay, t: Step)
    requires WatchOk(s) && Enabled(s, t)
    ensures WatchOk(Apply(s, t))
  {
    hide React, Allowed;
  }

  lemma {:induction false} IdlePresent(connections: nat)
    ensures Present(Idle(connections).conns) == 0
  {
    if connections > 0 {
      IdlePresent(connections - 1);
      assert Idle(connections).conns[1..] == Idle(connections - 1).conns;
    }
  }

  lemma {:induction false} NothingOnIdle(connections: seq<nat>, n: nat)
    ensures OnWorkers(Init(connections).workers, n) == 0
  {
    if connections != [] {
      NothingOnIdle(connections[1..], n);
      assert Init(connections).workers[1..] == Init(connections[1..]).workers;
      TallyNone(ConnJobs(Idle(connections[0]).conns), HasId(n));
    }
  }

  lemma InitSound(connections: seq<nat>)
    ensures Sound(Init(connections))
  {
    var s := Init(connections);
    forall n: nat ensures Waiting(s, n) == 0 {
      NothingOnIdle(connections, n);
    }
    forall w | 0 <= w < |s.workers| ensures Queued(s.workers[w]) {
      IdlePresent(connections[w]);
    }
  }

  lemma {:induction false} SoundAfter(s: Replay, steps: seq<Step>)
    requires Sound(s) && Legal(s, steps)
    ensures Sound(After(s, steps))
    decreases steps
  {
    if steps != [] {
      ConservedKept(s, steps[0]);
      WatchOkKept(s, steps[0]);
      WorkersOkKept(s, steps[0]);
      ScheduledKept(s, steps[0]);
      SoundAfter(Apply(s, steps[0]), steps[1..]);
    }
  }

  /** The reader is never further ahead of the workers than the channel holds. */
  lemma {:induction false} ReadAheadIsBounded(s: Replay, steps: seq<Step>)
    requires |s.channel| <= 16_384 && Legal(s, steps)
    ensures |After(s, steps).channel| <= 16_384
    decreases steps
  {
    hide React, Allowed;
    if steps != [] {
      ReadAheadIsBounded(Apply(s, steps[0]), steps[1..]);
    }
  }

  function Ids(jobs: seq<Job>): (ids: seq<nat>)
    ensures |ids| == |jobs|
    ensures forall i | 0 <= i < |jobs| :: ids[i] == jobs[i].id
  {
    seq(|jobs|, i requires 0 <= i < |jobs| => jobs[i].id)
  }

  lemma {:induction false} IdsTally(jobs: seq<Job>, n: nat)
    ensures Tally(Ids(jobs), Is(n)) == Tally(jobs, HasId(n))
  {
    if jobs != [] {
      IdsTally(jobs[1..], n);
      assert Ids(jobs)[1..] == Ids(jobs[1..]);
    }
  }

  /** The requests that have finished are distinct requests the reader counted. */
  lemma DoneAreCounted(s: Replay)
    requires Conserved(s)
    ensures forall n | n in Ids(s.done) :: n in s.counted
    ensures forall n: nat :: Tally(Ids(s.done), Is(n)) <= 1
  {
    var ids := Ids(s.done);
    forall n: nat ensures Tally(ids, Is(n)) <= 1 {
      IdsTally(s.done, n);
    }
    forall n | n in ids ensures n in s.counted {
      IdsTally(s.done, n);
      TallyZero(ids, Is(n));
      assert Is(n)(n);
    }
  }

  /** No request is anywhere between the reader and its end. */
  ghost predicate NothingWaits(s: Replay) {
    forall n: nat :: Waiting(s, n) == 0
  }

  /**
   The one comparison the end of the replay rests on: finished reaches sent exactly when no
   counted request is left with the reader, in the channel, or anywhere on a worker.
   */
  lemma DoneMeansNothingWaits(s: Replay)
    requires Conserved(s)
    ensures s.finished >= s.sent <==> NothingWaits(s)
  {
    var ids := Ids(s.done);
    DoneAreCounted(s);
    NamesFill(ids, s.counted.Keys);
    if s.finished >= s.sent {
      forall n: nat ensures Waiting(s, n) == 0 {
        IdsTally(s.done, n);
      }
    }
    if NothingWaits(s) {
      forall n | n in s.counted ensures n in ids {
        IdsTally(s.done, n);
        TallyZero(ids, Is(n));
        assert Waiting(s, n) == 0;
        var m :| m in ids && Is(n)(m);
      }
      NamesCover(ids, s.counted.Keys);
    }
  }

  /** What a connection has was due, by the schedule it was counted with. */
  lemma DueOnConnection(s: Replay, w: nat, c: nat)
    requires WorkersOk(s) && ScheduledAsCounted(s)
    requires w < |s.workers| && c < |s.workers[w].conns| && JobOf(s.workers[w].conns[c]).Some?
    ensures var d, job := s.workers[w], JobOf(s.workers[w].conns[c]).value;
            && job.id in s.counted
            && (s.counted[job.id].None? || s.counted[job.id].value <= d.now)
            && job.handed <= Max(|d.conns|, 1) + 2
  {
    HandOversBounded(s.workers[w], c);
    assert AllKnown(s.workers[w], s.counted);
  }

  /**
   Whatever connections close, fail to reconnect or never answer: every request the reader
   counted is in exactly one place or has finished exactly once. A request on a connection was
   due, by the schedule it was counted with, when the connection got it, and has been handed
   out at most once per connection and twice more.
   */
  lemma EachRequestOnce(connections: seq<nat>, steps: seq<Step>, n: nat)
    requires Legal(Init(connections), steps)
    ensures var s := After(Init(connections), steps);
            && Waiting(s, n) + Tally(s.done, HasId(n)) == (if n in s.counted then 1 else 0)
            && forall w, c | 0 <= w < |s.workers| && 0 <= c < |s.workers[w].conns|
                             && JobOf(s.workers[w].conns[c]).Some? ::
                 var d, job := s.workers[w], JobOf(s.workers[w].conns[c]).value;
                 && job.id in s.counted
                 && (s.counted[job.id].None? || s.counted[job.id].value <= d.now)
                 && job.handed <= Max(|d.conns|, 1) + 2
  {
    InitSound(connections);
    SoundAfter(Init(connections), steps);
    var s := After(Init(connections), steps);
    hide After, Legal, Known, Waiting;
    forall w, c | 0 <= w < |s.workers| && 0 <= c < |s.workers[w].conns| && JobOf(s.workers[w].conns[c]).Some?
      ensures var d, job := s.workers[w], JobOf(s.workers[w].conns[c]).value;
              && job.id in s.counted
              && (s.counted[job.id].None? || s.counted[job.id].value <= d.now)
              && job.handed <= Max(|d.conns|, 1) + 2
    {
      DueOnConnection(s, w, c);
    }
  }

  /** The replay is called finished only when every request the reader counted has finished, exactly once. */
  lemma FinishedMeansAllDone(connections: seq<nat>, steps: seq<Step>)
    requires Legal(Init(connections), steps)
    requires After(Init(connections), steps).watch.Finished?
    ensures var s := After(Init(connections), steps);
            && ReaderStopped(s)
            && NothingWaits(s)
            && (forall n: nat :: Tally(s.done, HasId(n)) == if n in s.counted then 1 else 0)
  {
    InitSound(connections);
    SoundAfter(Init(connections), steps);
    var s := After(Init(connections), steps);
    DoneMeansNothingWaits(s);
    forall n: nat ensures Tally(s.done, HasId(n)) == if n in s.counted then 1 else 0 {
      assert Waiting(s, n) == 0;
    }
  }

  lemma AskingIsAnswered(s: Replay)
    requires ReaderStopped(s) && s.watch.Watching? && s.sent <= s.finished
    ensures var ask := [LoadStopped, LoadFinished, LoadSent];
            Legal(s, ask) && After(s, ask).watch.Finished?
  {
    var ask := [LoadStopped, LoadFinished, LoadSent];
    var s1 := Apply(s, LoadStopped);
    var s2 := Apply(s1, LoadFinished);
    assert ask[1..] == [LoadFinished, LoadSent] && ask[1..][1..] == [LoadSent] && ask[1..][1..][1..] == [];
    assert Legal(Apply(s2, LoadSent), []);
    assert Legal(s2, ask[1..][1..]);
    assert Legal(s1, ask[1..]);
  }

  /** Nor is it kept waiting: when the reader has stopped and nothing waits, asking is answered yes at once. */
  lemma NothingWaitingFinishes(connections: seq<nat>, steps: seq<Step>)
    requires Legal(Init(connections), steps)
    requires var s := After(Init(connections), steps);
             ReaderStopped(s) && NothingWaits(s) && s.watch.Watching?
    ensures var s := After(Init(connections), steps);
            var ask := [LoadStopped, LoadFinished, LoadSent];
            Legal(s, ask) && After(s, ask).watch.Finished?
  {
    InitSound(connections);
    SoundAfter(Init(connections), steps);
    var s := After(Init(connections), steps);
    DoneMeansNothingWaits(s);
    AskingIsAnswered(s);
  }

  /** In every reachable state, a dispatcher that sleeps with a connection waiting has nothing to hand it. */
  lemma NoSleepOnWork(connections: seq<nat>, steps: seq<Step>, w: nat, now1: nat, now2: nat)
    requires Legal(Init(connections), steps)
    requires var s := After(Init(connections), steps);
             && Enabled(s, OnWorkerStep(w, Turned(now1, now2, Answer(s))))
             && s.workers[w].waiting != []
             && TakeTurn(s.workers[w], now1, now2, Answer(s)).1.Sleep?
    ensures var s := After(Init(connections), steps);
            var (d, turn, _) := TakeTurn(s.workers[w], now1, now2, Answer(s));
            && d.returned == []
            && match d.held
               case Some(job) =>
                 job.scheduled.Some? && now2 < job.scheduled.value && now2 + turn.nap <= job.scheduled.value
               case None => d.exhausted || (s.channel == [] && !s.stage.Closed?)
  {
    InitSound(connections);
    SoundAfter(Init(connections), steps);
    var s := After(Init(connections), steps);
    WaitingIsLive(s.workers[w]);
    SleepsOnlyWithoutWork(s.workers[w], now1, now2, Answer(s));
  }
}
