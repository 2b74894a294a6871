/**
 The reader of a trace over whole runs: it reads to the end, and counts every row it read before
 it says it has stopped.
 */
module TraceReader {
  import opened Ledgers
  import opened TraceLedger
  import opened TraceRows
  import opened TraceRuns
  import opened TraceSafety

  function Reads(events: seq<Event>): nat {
    if events == [] then 0 else (if events[0].RowRead? then 1 else 0) + Reads(events[1..])
  }

  function Lines(events: seq<Event>): nat {
    if events == [] then 0 else (if events[0].RowRead? || events[0].RowSkipped? then 1 else 0) + Lines(events[1..])
  }

  predicate Panics(events: seq<Event>) { ReaderPanicked in events }

  /** The trace has ended, or the reader panicked. */
  predicate Stops(events: seq<Event>) { TraceEnded in events || ReaderPanicked in events }

  /** The reader reads no more rows. */
  predicate ReadsNoMore(s: Replay) {
    s.reader.stage.Ended? || s.reader.stage.Stopped? || s.reader.stage.Closed? ||
    (s.reader.stage.Handing? && s.reader.stage.last)
  }

  lemma StepReads(s: Replay, e: Event)
    requires Enabled(s, e)
    ensures var s' := Apply(s, e);
            && (ReadsNoMore(s') <==> ReadsNoMore(s) || e.TraceEnded? || e.ReaderPanicked?)
            && s'.reader.pos == s.reader.pos + (if e.RowRead? || e.RowSkipped? then 1 else 0)
            && (!e.ReaderPanicked? ==>
                  s'.sent + |s'.reader.batch| == s.sent + |s.reader.batch| + if e.RowRead? then 1 else 0)
  {
    hide Charged, Sendable, GivenUp, RowsOf, StillSent, Discarded;
  }

  lemma {:induction false} RunReads(s: Replay, events: seq<Event>)
    requires Legal(s, events)
    ensures var s' := After(s, events);
            && (ReadsNoMore(s') <==> ReadsNoMore(s) || Stops(events))
            && s'.reader.pos == s.reader.pos + Lines(events)
            && (!Panics(events) ==> s'.sent + |s'.reader.batch| == s.sent + |s.reader.batch| + Reads(events))
    decreases events
  {
    if events != [] {
      var e, rest := events[0], events[1..];
      assert events == [e] + rest;
      StepReads(s, e);
      RunReads(Apply(s, e), rest);
      hide Apply, Enabled, ReadsNoMore;
    }
  }

  /**
   The reader goes on exactly until the trace ends or it panics, and a row's line is the number of lines before it. If
   it does not panic, every row it has read is counted or in the batch it is filling, so that once it has stopped
   every one is counted.
   */
  lemma EveryRowIsCounted(workers: nat, home: seq<nat>, events: seq<Event>)
    requires Start(workers, home) && Legal(Init(workers, home), events)
    ensures var s := After(Init(workers, home), events);
            && (ReadsNoMore(s) <==> Stops(events))
            && s.reader.pos == Lines(events)
            && (!Panics(events) ==> s.sent + |s.reader.batch| == Reads(events))
            && (!Panics(events) && ReaderStopped(s) ==> s.sent == Reads(events))
  {
    InitSound(workers, home);
    SoundAfter(Init(workers, home), events);
    RunReads(Init(workers, home), events);
    hide Conserved, Attempts, WireOk, WatchOk;
  }

  /** A replay that is called finished has done every row of the trace, unless the reader panicked. */
  lemma FinishedMeansWholeTrace(workers: nat, home: seq<nat>, events: seq<Event>)
    requires Start(workers, home) && Legal(Init(workers, home), events) && !Panics(events)
    requires After(Init(workers, home), events).watch.Finished?
    ensures After(Init(workers, home), events).done == Reads(events)
  {
    var s := After(Init(workers, home), events);
    FinishedMeansAllDone(workers, home, events);
    EveryRowIsCounted(workers, home, events);
    InitSound(workers, home);
    SoundAfter(Init(workers, home), events);
    EndsAreCounted(s);
    NamesFill(Names(Ends(s)), s.counted);
    DoneMeansNothingWaits(s);
    hide Waiting, Placed, ReadsOn, Shape, Attempts, WireOk;
  }
}
