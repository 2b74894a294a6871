/**
 When a saturation search stops because latency does not respond to rate, told from its
 measurements and their latencies alone.
 */
module SaturationFloor {
  import opened Numbers
  import opened Options
  import opened SaturationRuns
  import opened SaturationSearch

  ghost predicate NonePassed(h: seq<Measurement>) {
    forall i | 0 <= i < |h| :: !h[i].passed
  }

  /** The latency measurement `i` of a search came with. */
  ghost function LatencyAt(oracle: Oracle, h: seq<Measurement>, i: nat): Latency
    requires i < |h|
  {
    oracle(i, h[i].rate).latency
  }

  /** While nothing has passed, every `confirm + 1`-st measurement confirms the failure of its rate. */
  predicate Confirms(cfg: Config, i: nat) { (i + 1) % (cfg.confirm + 1) == 0 }

  /** A confirmed failure with a usable latency is recorded. */
  ghost predicate Recorded(cfg: Config, oracle: Oracle, h: seq<Measurement>, i: nat)
    requires i < |h|
  {
    Confirms(cfg, i) && LatencyAt(oracle, h, i).Micros? && LatencyAt(oracle, h, i).us > 0.0
  }

  /** `j` is the latest recorded failure before measurement `i`. */
  ghost predicate LatestBefore(cfg: Config, oracle: Oracle, h: seq<Measurement>, j: nat, i: nat)
    requires i <= |h|
  {
    j < i && Recorded(cfg, oracle, h, j) && forall k | j < k < i :: !Recorded(cfg, oracle, h, k)
  }

  /**
   Latency did not respond: between recorded failures `j` and `i` the rate was at least halved, and the latency fell
   by less than the configured fraction.
   */
  ghost predicate Unresponsive(cfg: Config, oracle: Oracle, h: seq<Measurement>, j: nat, i: nat)
    requires j < i < |h| && Recorded(cfg, oracle, h, j) && Recorded(cfg, oracle, h, i)
  {
    var before, now := LatencyAt(oracle, h, j).us, LatencyAt(oracle, h, i).us;
    && (2 * h[i].rate <= h[j].rate || h[j].rate == U64_MAX)
    && before - now < cfg.floorRatio * before
  }

  /** Measurement `i` shows a floor: nothing has passed, and latency did not respond since the latest record before. */
  ghost predicate ShowsFloor(cfg: Config, oracle: Oracle, h: seq<Measurement>, i: nat)
    requires i < |h|
  {
    && cfg.floorRatio > 0.0
    && NonePassed(h[..i + 1])
    && Recorded(cfg, oracle, h, i)
    && exists j: nat :: LatestBefore(cfg, oracle, h, j, i) && Unresponsive(cfg, oracle, h, j, i)
  }

  // ---- What the machine remembers --------------------------------------------------------------

  /** The failure the machine compares with is the latest recorded one. */
  ghost predicate RemembersLatest(cfg: Config, s: Search, oracle: Oracle, past: seq<Measurement>) {
    match s.lastFail
    case None => forall j | 0 <= j < |past| :: !Recorded(cfg, oracle, past, j)
    case Some(fail) =>
      exists j: nat :: LatestBefore(cfg, oracle, past, j, |past|) &&
                       past[j].rate == fail.0 && LatencyAt(oracle, past, j) == Micros(fail.1)
  }

  ghost predicate Remembers(cfg: Config, s: Search, oracle: Oracle, past: seq<Measurement>) {
    && (s.lastGood.None? <==> NonePassed(past))
    && (s.lastGood.None? ==> s.failures == |past| % (cfg.confirm + 1))
    && (s.lastGood.None? && cfg.floorRatio > 0.0 ==> RemembersLatest(cfg, s, oracle, past))
    && forall j | 0 <= j < |past| :: past[j].rate <= U64_MAX
  }

  /** Counting one more by a divisor. */
  lemma CountsOn(n: nat, d: nat)
    requires d >= 1
    ensures (n + 1) % d == if n % d + 1 == d then 0 else n % d + 1
  {
    var q, f := n / d, n % d;
    if f + 1 == d {
      NextProduct(q, d);
      Remainder(n + 1, q + 1, 0, d);
    } else {
      Remainder(n + 1, q, f + 1, d);
    }
  }

  lemma Remainder(n: nat, q: nat, r: nat, d: nat)
    requires n == q * d + r && r < d
    ensures n % d == r
  {
    var p := n / d;
    assert n == p * d + n % d;
    ProductOrder(p, q, d);
    ProductOrder(q, p, d);
  }

  lemma LowerByLess(before: real, now: real, ratio: real)
    requires before > 0.0
    ensures (before - now) / before < ratio <==> before - now < ratio * before
  {
    var fall := (before - now) / before;
    assert fall * before == before - now;
    RealOrder(fall, ratio, before);
    RealOrder(ratio, fall, before);
  }

  lemma RealOrder(a: real, b: real, c: real)
    requires c > 0.0
    ensures a < b ==> a * c < b * c
  {
  }

  // ---- One measurement -------------------------------------------------------------------------

  /** What was recorded stays so as measurements are added. */
  lemma RecordStays(cfg: Config, oracle: Oracle, past: seq<Measurement>, more: seq<Measurement>)
    requires past <= more
    ensures forall j: nat | j < |past| :: Recorded(cfg, oracle, more, j) == Recorded(cfg, oracle, past, j)
    ensures forall j: nat, i: nat | j < i <= |past| ::
              LatestBefore(cfg, oracle, more, j, i) == LatestBefore(cfg, oracle, past, j, i)
  {
    hide Confirms;
  }

  lemma LatestIsOne(cfg: Config, oracle: Oracle, h: seq<Measurement>, j: nat, k: nat, i: nat)
    requires i <= |h| && LatestBefore(cfg, oracle, h, j, i) && LatestBefore(cfg, oracle, h, k, i)
    ensures j == k
  {
    hide Recorded;
  }

  /** With the latest recorded failure remembered, the machine's test is the one on the history. */
  lemma SeenIsShown(cfg: Config, s: Search, oracle: Oracle, past: seq<Measurement>, m: Measurement)
    requires cfg.floorRatio > 0.0 && RemembersLatest(cfg, s, oracle, past)
    requires forall j | 0 <= j < |past| :: past[j].rate <= U64_MAX
    requires m.rate == s.current && NonePassed(past + [m]) && Recorded(cfg, oracle, past + [m], |past|)
    ensures ShowsFloor(cfg, oracle, past + [m], |past|) <==>
            FloorSeen(cfg, s, LatencyAt(oracle, past + [m], |past|).us)
  {
    var t, more := |past|, past + [m];
    assert more[..t + 1] == more;
    RecordStays(cfg, oracle, past, more);
    hide NonePassed;
    match s.lastFail
    case None =>
      assert forall j: nat :: !LatestBefore(cfg, oracle, more, j, t);
    case Some(fail) =>
      var j: nat :| LatestBefore(cfg, oracle, past, j, t) &&
                    past[j].rate == fail.0 && LatencyAt(oracle, past, j) == Micros(fail.1);
      assert LatestBefore(cfg, oracle, more, j, t);
      forall k: nat | LatestBefore(cfg, oracle, more, k, t) ensures k == j {
        LatestIsOne(cfg, oracle, more, j, k, t);
      }
      hide LatestBefore, Confirms;
      LowerByLess(fail.1, LatencyAt(oracle, more, t).us, cfg.floorRatio);
  }

  /** A measurement that is recorded is from then on the latest; one that is not changes nothing. */
  lemma LatestAfter(cfg: Config, s: Search, s': Search, oracle: Oracle, past: seq<Measurement>, m: Measurement)
    requires RemembersLatest(cfg, s, oracle, past)
    requires s'.lastFail == if Recorded(cfg, oracle, past + [m], |past|)
                            then Some((m.rate, LatencyAt(oracle, past + [m], |past|).us)) else s.lastFail
    ensures RemembersLatest(cfg, s', oracle, past + [m])
  {
    var t, more := |past|, past + [m];
    RecordStays(cfg, oracle, past, more);
    hide Confirms;
    if Recorded(cfg, oracle, more, t) {
      assert LatestBefore(cfg, oracle, more, t, |more|);
      assert more[t].rate == s'.lastFail.value.0;
    } else if s.lastFail.Some? {
      var j: nat :| LatestBefore(cfg, oracle, past, j, t) &&
                    past[j].rate == s.lastFail.value.0 && LatencyAt(oracle, past, j) == Micros(s.lastFail.value.1);
      assert LatestBefore(cfg, oracle, more, j, |more|);
      assert more[j] == past[j];
    }
  }

  /** What the machine does with an answer, and what it remembers of it. */
  lemma JudgeRemembers(cfg: Config, s: Search, oracle: Oracle, past: seq<Measurement>)
    requires Sound(cfg, s) && Remembers(cfg, s, oracle, past)
    ensures var a := oracle(|past|, s.current);
            var more := past + [Measurement(s.current, a.passed)];
            match Judge(cfg, s, a)
            case Retry =>
              !ShowsFloor(cfg, oracle, more, |past|) && Remembers(cfg, s.(failures := s.failures + 1), oracle, more)
            case Floor => ShowsFloor(cfg, oracle, more, |past|)
            case Act(s1) => !ShowsFloor(cfg, oracle, more, |past|) && Remembers(cfg, s1, oracle, more)
  {
    var a := oracle(|past|, s.current);
    var m := Measurement(s.current, a.passed);
    var more := past + [m];
    assert more[..|past| + 1] == more;
    CountsOn(|past|, cfg.confirm + 1);
    assert NonePassed(more) <==> NonePassed(past) && !a.passed by { NoneMorePassed(past, m); }
    hide NonePassed, RemembersLatest, LatestBefore, FloorSeen, Unresponsive;
    if a.passed {
    } else if s.failures + 1 <= cfg.confirm {
      if s.lastGood.None? && cfg.floorRatio > 0.0 {
        LatestAfter(cfg, s, s.(failures := s.failures + 1), oracle, past, m);
      }
    } else if s.lastGood.None? && cfg.floorRatio > 0.0 {
      var s1 := s.(failures := 0);
      if FloorApplies(cfg, s1, a.latency) {
        RemembersAlike(cfg, s, s1, oracle, past);
        SeenIsShown(cfg, s1, oracle, past, m);
        LatestAfter(cfg, s, s1.(lastFail := Some((s1.current, a.latency.us))), oracle, past, m);
      } else {
        LatestAfter(cfg, s, s1, oracle, past, m);
      }
    }
  }

  lemma NoneMorePassed(past: seq<Measurement>, m: Measurement)
    ensures NonePassed(past + [m]) <==> NonePassed(past) && !m.passed
  {
    var more := past + [m];
    assert more[|past|] == m;
    if NonePassed(more) {
      forall i | 0 <= i < |past| ensures !past[i].passed {
        assert !more[i].passed;
      }
    }
  }

  lemma RemembersAlike(cfg: Config, s: Search, s': Search, oracle: Oracle, past: seq<Measurement>)
    requires RemembersLatest(cfg, s, oracle, past) && s'.lastFail == s.lastFail
    ensures RemembersLatest(cfg, s', oracle, past)
  {
  }

  /** A move forgets nothing. */
  lemma DecideRemembers(cfg: Config, s: Search, passed: bool)
    requires cfg.multiplier > 1.0
    requires s.phase.Climb? && !passed ==> s.lastGood.GetOr(0) <= s.current
    requires s.phase.Bisect? ==> if passed then s.current <= s.hi else s.lo <= s.current
    ensures var s' := Decide(cfg, s, passed).0;
            && s'.lastGood == s.lastGood && s'.failures == s.failures && s'.lastFail == s.lastFail
            && s'.floorDetected == s.floorDetected
  {
    hide Width, ClimbTarget, BisectRate;
  }

  lemma StepRemembers(cfg: Config, s: Search, oracle: Oracle, past: seq<Measurement>)
    requires Sound(cfg, s) && Remembers(cfg, s, oracle, past)
    ensures var a := oracle(|past|, s.current);
            var (s', o) := Step(cfg, s, a);
            var more := past + [Measurement(s.current, a.passed)];
            && (s'.floorDetected <==> ShowsFloor(cfg, oracle, more, |past|))
            && (s'.floorDetected ==> o.Done?)
            && (o.Probe? ==> Remembers(cfg, s', oracle, more))
  {
    var a := oracle(|past|, s.current);
    JudgeRemembers(cfg, s, oracle, past);
    hide Width, ClimbTarget, BisectRate, ShowsFloor, RemembersLatest, NonePassed, FloorSeen;
    if s.phase.Bisect? {
      BisectRateInside(s.lo, s.hi);
    }
    JudgeAccepts(cfg, s, a);
    var v := Judge(cfg, s, a);
    if v.Act? {
      DecideRemembers(cfg, v.s, a.passed);
      RemembersTheSame(cfg, v.s, Decide(cfg, v.s, a.passed).0, oracle, past + [Measurement(s.current, a.passed)]);
    }
  }

  lemma RemembersTheSame(cfg: Config, s: Search, s': Search, oracle: Oracle, past: seq<Measurement>)
    requires Remembers(cfg, s, oracle, past)
    requires s'.lastGood == s.lastGood && s'.failures == s.failures && s'.lastFail == s.lastFail
    ensures Remembers(cfg, s', oracle, past)
  {
  }

  // ---- Every run ---------------------------------------------------------------------------------

  /** What a measurement shows does not depend on what comes after it. */
  lemma ShownThen(cfg: Config, oracle: Oracle, past: seq<Measurement>, h: seq<Measurement>)
    requires past <= h && past != []
    ensures ShowsFloor(cfg, oracle, h, |past| - 1) <==> ShowsFloor(cfg, oracle, past, |past| - 1)
  {
    var i := |past| - 1;
    assert h[..i + 1] == past == past[..i + 1];
    RecordStays(cfg, oracle, past, h);
    forall j: nat | j < i ensures LatestBefore(cfg, oracle, h, j, i) == LatestBefore(cfg, oracle, past, j, i) {}
    hide NonePassed, LatestBefore, Recorded;
  }

  lemma {:induction false} FloorRun(cfg: Config, s: Search, oracle: Oracle, past: seq<Measurement>)
    requires Sound(cfg, s) && Remembers(cfg, s, oracle, past)
    ensures var run := RunFrom(cfg, s, |past|, oracle);
            var h := past + run.history;
            && run.history != []
            && (Final(run).floorDetected <==> ShowsFloor(cfg, oracle, h, |h| - 1))
            && forall i | |past| <= i < |h| - 1 :: !ShowsFloor(cfg, oracle, h, i)
    decreases Remaining(cfg, s)
  {
    hide RunFrom, Step, Sound, Remaining, Remembers, ShowsFloor;
    var t, a := |past|, oracle(|past|, s.current);
    var (s', o) := Step(cfg, s, a);
    var m := Measurement(s.current, a.passed);
    var run, more := RunFrom(cfg, s, t, oracle), past + [m];
    var h := past + run.history;
    RunUnfolds(cfg, s, t, oracle);
    StepRemembers(cfg, s, oracle, past);
    if o.Probe? {
      var rest := RunFrom(cfg, s', t + 1, oracle);
      FloorRun(cfg, s', oracle, more);
      assert h == more + rest.history;
      ShownThen(cfg, oracle, more, h);
    } else {
      assert h == more;
    }
  }

  lemma StartRemembers(cfg: Config, oracle: Oracle)
    ensures Remembers(cfg, Start(cfg), oracle, [])
  {
    Remainder(0, 0, 0, cfg.confirm + 1);
  }

  /**
   A search stops on a latency floor exactly when its last measurement shows one, and no earlier measurement of a
   search does: it stops at the first.
   */
  lemma FloorIsLatency(cfg: Config, oracle: Oracle)
    requires ValidConfig(cfg)
    ensures var run := SaturationRuns.Search(cfg, oracle);
            var last := |run.history| - 1;
            && last >= 0
            && (Final(run).floorDetected <==> ShowsFloor(cfg, oracle, run.history, last))
            && forall i | 0 <= i < last :: !ShowsFloor(cfg, oracle, run.history, i)
  {
    hide ShowsFloor, RunFrom, Remembers, Sound;
    StartIsSound(cfg);
    StartRemembers(cfg, oracle);
    var run := SaturationRuns.Search(cfg, oracle);
    FloorRun(cfg, Start(cfg), oracle, []);
    assert [] + run.history == run.history;
  }

  /** Where each recorded failure improves by the configured fraction on the one before, no search stops on a floor. */
  lemma ImprovementGoesOn(cfg: Config, oracle: Oracle)
    requires ValidConfig(cfg)
    requires var h := SaturationRuns.Search(cfg, oracle).history;
             forall j: nat, i: nat | i < |h| && LatestBefore(cfg, oracle, h, j, i) && Recorded(cfg, oracle, h, i) ::
               var before, now := LatencyAt(oracle, h, j).us, LatencyAt(oracle, h, i).us;
               before - now >= cfg.floorRatio * before
    ensures !Final(SaturationRuns.Search(cfg, oracle)).floorDetected
  {
    hide RunFrom, LatestBefore, Recorded;
    FloorIsLatency(cfg, oracle);
  }
}
