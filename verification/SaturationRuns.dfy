/**
 Whole saturation searches: the measurements a search makes against an oracle, when it ends,
 and what its answer is worth against any oracle, an exact one, and a noisy one.
 */
module SaturationRuns {
  import opened Numbers
  import opened Options
  import opened SaturationSearch

  datatype Measurement = Measurement(rate: nat, passed: bool)

  /** The measurements of a run in order, the state before each and the one after the last, and the knee reported. */
  datatype Run = Run(history: seq<Measurement>, states: seq<Search>, knee: Option<nat>)

  /** The state a run ends in. */
  function Final(run: Run): Search
    requires run.states != []
  {
    run.states[|run.states| - 1]
  }

  /** What the `t`-th measurement of the run says of rate `r`. */
  type Oracle = (nat, nat) -> Answer

  /** The run from `s`, whose next measurement is the `t`-th. It is defined for every oracle: every search ends. */
  ghost function RunFrom(cfg: Config, s: Search, t: nat, oracle: Oracle): (run: Run)
    requires Sound(cfg, s)
    ensures |run.states| == |run.history| + 1 && run.states[0] == s
    decreases Remaining(cfg, s)
  {
    var a := oracle(t, s.current);
    var (s', o) := Step(cfg, s, a);
    StepKeepsSound(cfg, s, a);
    RemainingPositive(cfg, s);
    var m := Measurement(s.current, a.passed);
    match o
    case Done(knee) => Run([m], [s, s'], knee)
    case Probe(_) =>
      RemainingPositive(cfg, s');
      var rest := RunFrom(cfg, s', t + 1, oracle);
      Run([m] + rest.history, [s] + rest.states, rest.knee)
  }

  ghost function Search(cfg: Config, oracle: Oracle): (run: Run)
    requires ValidConfig(cfg)
    ensures |run.states| == |run.history| + 1
  {
    RunFrom(cfg, Start(cfg), 0, oracle)
  }

  /** A run is its first measurement, and then, unless that ends it, the run from the state it leads to. */
  lemma RunUnfolds(cfg: Config, s: Search, t: nat, oracle: Oracle)
    requires Sound(cfg, s)
    ensures var run, a := RunFrom(cfg, s, t, oracle), oracle(t, s.current);
            var (s', o) := Step(cfg, s, a);
            var m := Measurement(s.current, a.passed);
            match o
            case Done(knee) => run == Run([m], [s, s'], knee)
            case Probe(rate) =>
              && Sound(cfg, s') && s'.current == rate && 0 <= Remaining(cfg, s') < Remaining(cfg, s)
              && var rest := RunFrom(cfg, s', t + 1, oracle);
                 run == Run([m] + rest.history, [s] + rest.states, rest.knee)
  {
    StepKeepsSound(cfg, s, oracle(t, s.current));
    RemainingPositive(cfg, s);
    var (s', o) := Step(cfg, s, oracle(t, s.current));
    if o.Probe? {
      RemainingPositive(cfg, s');
    }
  }

  // ---- Against any answers ----------------------------------------------------------

  /** `best` is the largest rate that passed in `h`, or nothing passed. */
  ghost predicate IsBestPass(best: Option<nat>, h: seq<Measurement>) {
    match best
    case None => forall m | m in h :: !m.passed
    case Some(k) => Measurement(k, true) in h && forall m | m in h && m.passed :: m.rate <= k
  }

  lemma {:induction false} RunLength(cfg: Config, s: Search, t: nat, oracle: Oracle)
    requires Sound(cfg, s)
    ensures 1 <= |RunFrom(cfg, s, t, oracle).history| <= Remaining(cfg, s)
    decreases Remaining(cfg, s)
  {
    var a := oracle(t, s.current);
    var (s', o) := Step(cfg, s, a);
    StepKeepsSound(cfg, s, a);
    RemainingPositive(cfg, s);
    if o.Probe? {
      RemainingPositive(cfg, s');
      RunLength(cfg, s', t + 1, oracle);
    }
  }

  /**
   Whatever the measurements say, a search ends within one more than the confirmation count
   of measurements at each rate it can visit: the rates of the climb, the failure that ends
   it, and the bisection's steps.
   */
  lemma SearchEnds(cfg: Config, oracle: Oracle)
    requires ValidConfig(cfg)
    ensures |Search(cfg, oracle).history|
         <= (cfg.confirm + 1) * (Max(cfg.maxRate - cfg.startRate, 0) + 1 + Max(1, cfg.maxSteps))
  {
    RunLength(cfg, Start(cfg), 0, oracle);
  }

  lemma PassExtends(best: Option<nat>, h: seq<Measurement>, m: Measurement)
    requires IsBestPass(best, h)
    requires m.passed ==> best.GetOr(0) <= m.rate
    ensures IsBestPass(if m.passed then Some(m.rate) else best, h + [m])
  {
  }

  /** A pass never measures below a rate that already passed. */
  lemma PassesOnlyRise(cfg: Config, s: Search)
    requires Sound(cfg, s)
    ensures s.lastGood.GetOr(0) <= s.current
  {
    if s.phase.Bisect? {
      BisectRateInside(s.lo, s.hi);
    }
  }

  /** One measurement's part of the argument: what the machine would report covers it. */
  lemma StepCoversPasses(cfg: Config, s: Search, a: Answer, past: seq<Measurement>)
    requires Sound(cfg, s) && IsBestPass(s.lastGood, past)
    ensures var (s', o) := Step(cfg, s, a);
            && IsBestPass(if o.Done? then o.knee else s'.lastGood, past + [Measurement(s.current, a.passed)])
            && (s'.floorDetected ==> o == Done(None))
  {
    hide Width, ClimbTarget, BisectRate;
    PassesOnlyRise(cfg, s);
    PassExtends(s.lastGood, past, Measurement(s.current, a.passed));
    JudgeAccepts(cfg, s, a);
    if s.phase.Bisect? {
      BisectRateInside(s.lo, s.hi);
    }
    var best := if a.passed then Some(s.current) else s.lastGood;
    var v := Judge(cfg, s, a);
    if v.Act? {
      DecideReportsBest(cfg, s, v.s, a.passed);
    }
  }

  lemma DecideReportsBest(cfg: Config, before: Search, s: Search, passed: bool)
    requires Accepted(cfg, before, s, passed)
    requires s.phase.Bisect? ==> if passed then s.current <= s.hi else s.lo <= s.current
    ensures var (s', o) := Decide(cfg, s, passed);
            s'.lastGood == s.lastGood && !s'.floorDetected && (o.Done? ==> o.knee == s.lastGood)
  {
    hide Width, ClimbTarget, BisectRate;
    if s.phase.Bisect? {
      BisectRateInside(s.lo, s.hi);
    }
  }

  lemma {:induction false} KneeExtends(cfg: Config, s: Search, t: nat, oracle: Oracle, past: seq<Measurement>)
    requires Sound(cfg, s) && IsBestPass(s.lastGood, past)
    ensures var run := RunFrom(cfg, s, t, oracle);
            && IsBestPass(run.knee, past + run.history)
            && (Final(run).floorDetected ==> run.knee.None?)
    decreases Remaining(cfg, s)
  {
    hide RunFrom, IsBestPass;
    var a := oracle(t, s.current);
    var (s', o) := Step(cfg, s, a);
    var m := Measurement(s.current, a.passed);
    var run := RunFrom(cfg, s, t, oracle);
    RunUnfolds(cfg, s, t, oracle);
    StepCoversPasses(cfg, s, a, past);
    hide Step, Sound, Remaining;
    if o.Probe? {
      KneeExtends(cfg, s', t + 1, oracle, past + [m]);
      assert past + run.history == past + [m] + RunFrom(cfg, s', t + 1, oracle).history;
    }
  }

  /**
   The reported knee is exactly the largest rate that ever passed, and is absent only when
   none did. A search stopped by its latency floor saw no rate pass.
   */
  lemma KneeIsBestPass(cfg: Config, oracle: Oracle)
    requires ValidConfig(cfg)
    ensures var run := Search(cfg, oracle);
            && IsBestPass(run.knee, run.history)
            && (Final(run).floorDetected ==> forall m | m in run.history :: !m.passed)
  {
    var run := Search(cfg, oracle);
    KneeExtends(cfg, Start(cfg), 0, oracle, []);
    assert [] + run.history == run.history;
  }

  // ---- The climb ----------------------------------------------------------------------

  /** The rate measured after `r` passed in the climb: its multiple, rounded down, but more than it, or the top. */
  predicate NextUp(cfg: Config, r: nat, next: nat) {
    && r < next <= cfg.maxRate
    && (next as real <= cfg.multiplier * r as real || next == r + 1)
    && (cfg.multiplier * r as real < (next + 1) as real || next == cfg.maxRate)
  }

  lemma StepClimbs(cfg: Config, s: Search, a: Answer)
    requires Sound(cfg, s) && s.phase.Climb?
    ensures var (s', o) := Step(cfg, s, a);
            && (a.passed ==>
                  if o.Probe? then s'.phase.Climb? && NextUp(cfg, s.current, o.rate) else s.current >= cfg.maxRate)
            && (!a.passed && o.Probe? && s'.phase.Climb? ==> o.rate == s.current)
  {
    hide Width, BisectRate;
    assert s.current as real * cfg.multiplier == cfg.multiplier * s.current as real;
  }

  lemma {:induction false} RunClimbs(cfg: Config, s: Search, t: nat, oracle: Oracle, i: nat)
    requires Sound(cfg, s) && i < |RunFrom(cfg, s, t, oracle).history|
    requires RunFrom(cfg, s, t, oracle).states[i].phase.Climb? && RunFrom(cfg, s, t, oracle).history[i].passed
    ensures var h := RunFrom(cfg, s, t, oracle).history;
            if i + 1 < |h| then NextUp(cfg, h[i].rate, h[i + 1].rate) else h[i].rate >= cfg.maxRate
    decreases Remaining(cfg, s)
  {
    hide RunFrom, Step, Sound, Remaining, NextUp;
    var a := oracle(t, s.current);
    var (s', o) := Step(cfg, s, a);
    RunUnfolds(cfg, s, t, oracle);
    if i > 0 {
      RunClimbs(cfg, s', t + 1, oracle, i - 1);
    } else {
      StepClimbs(cfg, s, a);
      if o.Probe? {
        RunStartsHere(cfg, s', t + 1, oracle);
      }
    }
  }

  /**
   A search begins at the start rate, and climbs from each rate that passes to its multiple, until a rate fails or the
   top rate has passed.
   */
  lemma ClimbsByMultiple(cfg: Config, oracle: Oracle, i: nat)
    requires ValidConfig(cfg) && i < |Search(cfg, oracle).history|
    requires Search(cfg, oracle).states[i].phase.Climb? && Search(cfg, oracle).history[i].passed
    ensures var h := Search(cfg, oracle).history;
            && h[0].rate == cfg.startRate
            && if i + 1 < |h| then NextUp(cfg, h[i].rate, h[i + 1].rate) else h[i].rate >= cfg.maxRate
  {
    hide RunFrom, NextUp;
    StartIsSound(cfg);
    RunStartsHere(cfg, Start(cfg), 0, oracle);
    RunClimbs(cfg, Start(cfg), 0, oracle, i);
  }

  // ---- Against an exact oracle --------------------------------------------------------

  /** A rate passes exactly when it is at most `k`. */
  ghost predicate PassesUpTo(oracle: Oracle, k: nat) {
    forall t: nat, r: nat :: oracle(t, r).passed <==> r <= k
  }

  /** The ceiling of `w / p`. */
  function CeilDiv(w: nat, p: nat): nat
    requires p >= 1
  {
    (w + p - 1) / p
  }

  /** After `steps` bisect steps on an interval `w0` wide at most `ceil(w0 / 2^steps)` is left, by multiplication. */
  predicate Halved(w0: nat, steps: nat, width: int) {
    (width - 1) * Pow2(steps) < w0
  }

  /** `Halved` is the ceiling it is described as. */
  lemma HalvedIsCeiling(w0: nat, steps: nat, width: int)
    ensures Halved(w0, steps, width) <==> width <= CeilDiv(w0, Pow2(steps))
  {
    var p := Pow2(steps);
    var c := CeilDiv(w0, p);
    QuotientAround(w0 + p - 1, p);
    NextProduct(c, p);
    NextProduct(width - 1, p);
    ProductOrder(width, c, p);
    ProductOrder(c + 1, width, p);
    hide CeilDiv;
  }

  lemma HalveOnce(w0: nat, steps: nat, width: int, next: int)
    requires Halved(w0, steps, width)
    requires 2 * next <= width + 1
    ensures Halved(w0, steps + 1, next)
  {
    var p := Pow2(steps);
    ProductOrder(2 * (next - 1), width - 1, p);
    assert (next - 1) * Pow2(steps + 1) == (next - 1) * (2 * p) == 2 * (next - 1) * p;
  }

  /** Whatever the answer, measuring the middle of an interval leaves half of it. */
  lemma MiddleHalves(lo: nat, hi: nat)
    requires lo < hi
    ensures var mid := BisectRate(lo, hi);
            lo <= mid <= hi && 2 * (hi - mid) <= hi - lo + 1 && 2 * (mid - lo) <= hi - lo + 1
  {
  }

  /** A bisecting state's interval has been halved at each step since it was `w0` wide. */
  predicate HalvedFrom(s: Search, w0: nat) {
    s.phase.Bisect? && Halved(w0, s.steps, s.hi - s.lo)
  }

  lemma DecideHalves(cfg: Config, s: Search, passed: bool, w0: nat)
    requires cfg.multiplier > 1.0 && s.lo < s.hi && s.current == BisectRate(s.lo, s.hi) && HalvedFrom(s, w0)
    requires if passed then s.current <= s.hi else s.lo <= s.current
    ensures HalvedFrom(Decide(cfg, s, passed).0, w0)
  {
    hide Width, BisectRate, Halved, Pow2, ClimbTarget;
    MiddleHalves(s.lo, s.hi);
    HalveOnce(w0, s.steps, s.hi - s.lo, if passed then s.hi - s.current else s.current - s.lo);
  }

  lemma StepHalves(cfg: Config, s: Search, a: Answer, w0: nat)
    requires Sound(cfg, s) && HalvedFrom(s, w0)
    ensures HalvedFrom(Step(cfg, s, a).0, w0)
  {
    hide Width, BisectRate, ClimbTarget, Halved, Decide;
    BisectRateInside(s.lo, s.hi);
    var v := Judge(cfg, s, a);
    if v.Act? {
      DecideHalves(cfg, v.s, a.passed, w0);
    }
  }

  lemma {:induction false} RunHalves(cfg: Config, s: Search, t: nat, oracle: Oracle, w0: nat, j: nat)
    requires Sound(cfg, s) && HalvedFrom(s, w0) && j < |RunFrom(cfg, s, t, oracle).states|
    ensures HalvedFrom(RunFrom(cfg, s, t, oracle).states[j], w0)
    decreases Remaining(cfg, s)
  {
    var a := oracle(t, s.current);
    var (s', o) := Step(cfg, s, a);
    RunUnfolds(cfg, s, t, oracle);
    StepHalves(cfg, s, a, w0);
    hide Step, Sound, Remaining, HalvedFrom, RunFrom;
    if j > 0 && o.Probe? {
      RunHalves(cfg, s', t + 1, oracle, w0, j - 1);
    }
  }

  /** From any of its states but the last, a run goes on as the run from there. */
  lemma {:induction false} RunGoesOn(cfg: Config, s: Search, t: nat, oracle: Oracle, i: nat)
    requires Sound(cfg, s) && i < |RunFrom(cfg, s, t, oracle).history|
    ensures var run := RunFrom(cfg, s, t, oracle);
            Sound(cfg, run.states[i]) && run.states[i..] == RunFrom(cfg, run.states[i], t + i, oracle).states
    decreases Remaining(cfg, s)
  {
    hide Step, Sound, Remaining, RunFrom;
    var (s', o) := Step(cfg, s, oracle(t, s.current));
    RunUnfolds(cfg, s, t, oracle);
    if i > 0 {
      assert o.Probe?;
      RunGoesOn(cfg, s', t + 1, oracle, i - 1);
      BehindFirst(s, RunFrom(cfg, s', t + 1, oracle).states, i);
      assert t + 1 + (i - 1) == t + i;
    }
  }

  lemma BehindFirst(s: Search, rest: seq<Search>, i: nat)
    requires 1 <= i <= |rest|
    ensures ([s] + rest)[i..] == rest[i - 1..] && (i < |rest| ==> ([s] + rest)[i] == rest[i - 1])
  {
  }

  lemma StartIsSound(cfg: Config)
    requires ValidConfig(cfg)
    ensures Sound(cfg, Start(cfg))
  {
  }

  lemma FromOpening(cfg: Config, s: Search, t: nat, oracle: Oracle, j: nat)
    requires Sound(cfg, s) && s.phase.Bisect? && s.steps == 0 && j < |RunFrom(cfg, s, t, oracle).states|
    ensures s.lo < s.hi
    ensures var later := RunFrom(cfg, s, t, oracle).states[j];
            later.phase.Bisect? && later.hi - later.lo <= CeilDiv(s.hi - s.lo, Pow2(later.steps))
  {
    hide RunFrom, CeilDiv, Remaining;
    var w0 := s.hi - s.lo;
    assert Pow2(0) == 1 && HalvedFrom(s, w0);
    RunHalves(cfg, s, t, oracle, w0, j);
    hide Pow2;
    var later := RunFrom(cfg, s, t, oracle).states[j];
    HalvedIsCeiling(w0, later.steps, later.hi - later.lo);
  }

  /**
   Against any answers, a bisection halves its interval at every step: from where it opens (no step taken yet) to any
   later state, at most the opening width over two to the steps is left, rounded up.
   */
  lemma BisectionHalves(cfg: Config, oracle: Oracle, i: nat, j: nat)
    requires ValidConfig(cfg) && i <= j < |Search(cfg, oracle).states| && i < |Search(cfg, oracle).history|
    requires var s := Search(cfg, oracle).states[i]; s.phase.Bisect? && s.steps == 0
    ensures var opening, later := Search(cfg, oracle).states[i], Search(cfg, oracle).states[j];
            && opening.lo < opening.hi && later.phase.Bisect?
            && later.hi - later.lo <= CeilDiv(opening.hi - opening.lo, Pow2(later.steps))
  {
    hide RunFrom, Sound, CeilDiv, Pow2, Remaining, Step;
    StartIsSound(cfg);
    var run := RunFrom(cfg, Start(cfg), 0, oracle);
    var opening, later := run.states[i], run.states[j];
    RunGoesOn(cfg, Start(cfg), 0, oracle, i);
    assert later == run.states[i..][j - i];
    FromOpening(cfg, opening, i, oracle, j - i);
  }

  /** The state brackets the true limit. */
  predicate Brackets(s: Search, k: nat) {
    match s.phase
    case Climb => s.lastGood.GetOr(0) <= k
    case Bisect => s.lo <= k < s.hi
  }

  /** The knee falls short of the limit by less than the tolerated fraction of the failing end. */
  predicate WithinTolerance(cfg: Config, knee: nat, k: nat, hi: nat) {
    (k - knee) as real < cfg.tolerance * hi as real
  }

  /** What a finished search says about the true limit `k`. */
  predicate Accurate(cfg: Config, reported: Option<nat>, s: Search, k: nat) {
    var knee := reported.GetOr(0);
    && knee <= k
    && match s.phase
       case Climb => cfg.maxRate <= knee
       case Bisect =>
         && knee == s.lo
         && (|| knee == k
             || WithinTolerance(cfg, knee, k, s.hi)
             || s.steps == Max(1, cfg.maxSteps))
  }

  lemma RealScaleOrder(a: real, b: real, c: real)
    requires a <= b && c >= 0.0
    ensures a * c <= b * c
  {
  }

  lemma StopsAccurately(cfg: Config, s: Search, k: nat)
    requires ValidConfig(cfg)
    requires s.lo <= k < s.hi && BisectionOver(cfg, s) && 1 <= s.steps <= Max(1, cfg.maxSteps)
    ensures || s.lo == k
            || WithinTolerance(cfg, s.lo, k, s.hi)
            || s.steps == Max(1, cfg.maxSteps)
  {
    if Width(s) <= cfg.tolerance {
      assert (s.hi - s.lo) as real == Width(s) * s.hi as real;
      RealScaleOrder(Width(s), cfg.tolerance, s.hi as real);
      assert (k - s.lo) as real < (s.hi - s.lo) as real;
    }
  }

  /** Either side of a measured middle still brackets the limit. */
  lemma DecideKeepsBracket(cfg: Config, before: Search, s: Search, k: nat, passed: bool)
    requires Accepted(cfg, before, s, passed) && Brackets(before, k)
    requires passed <==> s.current <= k
    requires s.phase.Bisect? ==> if passed then s.current <= s.hi else s.lo <= s.current
    ensures var (s', o) := Decide(cfg, s, passed);
            Brackets(s', k) && (o.Done? ==> Accurate(cfg, o.knee, s', k))
  {
    hide Width, BisectRate, ClimbTarget, WithinTolerance;
    var (s', o) := Decide(cfg, s, passed);
    if s.phase.Bisect? {
      BisectRateInside(s.lo, s.hi);
      if o.Done? {
        StopsAccurately(cfg, s', k);
      }
    }
  }

  lemma StepKeepsBracket(cfg: Config, s: Search, k: nat, a: Answer)
    requires Sound(cfg, s) && Brackets(s, k)
    requires a.passed <==> s.current <= k
    ensures var (s', o) := Step(cfg, s, a);
            Brackets(s', k) && (o.Done? && !s'.floorDetected ==> Accurate(cfg, o.knee, s', k))
  {
    hide Width, BisectRate, ClimbTarget, WithinTolerance, Decide;
    if s.phase.Bisect? {
      BisectRateInside(s.lo, s.hi);
    }
    JudgeAccepts(cfg, s, a);
    var v := Judge(cfg, s, a);
    if v.Act? {
      DecideKeepsBracket(cfg, s, v.s, k, a.passed);
    }
  }

  lemma {:induction false} RunIsAccurate(cfg: Config, s: Search, t: nat, oracle: Oracle, k: nat)
    requires Sound(cfg, s) && Brackets(s, k) && PassesUpTo(oracle, k)
    ensures var run := RunFrom(cfg, s, t, oracle);
            && (!Final(run).floorDetected ==> Accurate(cfg, run.knee, Final(run), k))
            && forall i | 0 <= i < |run.states| :: Brackets(run.states[i], k)
    decreases Remaining(cfg, s)
  {
    var a := oracle(t, s.current);
    var (s', o) := Step(cfg, s, a);
    RunUnfolds(cfg, s, t, oracle);
    StepKeepsBracket(cfg, s, k, a);
    hide Step, Sound, Remaining, Brackets, Accurate, RunFrom;
    if o.Probe? {
      RunIsAccurate(cfg, s', t + 1, oracle, k);
    }
  }

  /**
   Against an exact limit: every state of the search brackets the limit, and every bisecting state after the opening
   one has halved the bracket at each step. Unless the search stopped on a latency floor, the knee never exceeds the
   limit; a search that climbs to the top reports at least the top rate, and a bisection's knee is the limit itself, or
   within the tolerance of it, or short of it only by what the allowed steps could not halve away.
   */
  lemma SearchIsAccurate(cfg: Config, oracle: Oracle, k: nat)
    requires ValidConfig(cfg) && PassesUpTo(oracle, k)
    ensures var run := Search(cfg, oracle);
            && (!Final(run).floorDetected ==> Accurate(cfg, run.knee, Final(run), k))
            && (forall i | 0 <= i < |run.states| :: Brackets(run.states[i], k))
            && forall i, j | 0 <= i <= j < |run.states| && i < |run.history| && Opens(run.states[i]) ::
                 && run.states[j].phase.Bisect?
                 && run.states[j].hi - run.states[j].lo <=
                    CeilDiv(OpeningWidth(run.states[i]), Pow2(run.states[j].steps))
  {
    var run := Search(cfg, oracle);
    RunIsAccurate(cfg, Start(cfg), 0, oracle, k);
    forall i, j | 0 <= i <= j < |run.states| && i < |run.history| && Opens(run.states[i])
      ensures && run.states[j].phase.Bisect?
              && run.states[j].hi - run.states[j].lo <=
                 CeilDiv(OpeningWidth(run.states[i]), Pow2(run.states[j].steps))
    {
      BisectionHalves(cfg, oracle, i, j);
    }
  }

  /** A bisection that has taken no step yet. */
  predicate Opens(s: Search) { s.phase.Bisect? && s.steps == 0 }

  function OpeningWidth(s: Search): nat { Monus(s.hi, s.lo) }

  // ---- Against a noisy oracle ---------------------------------------------------------

  /** The answers an honest oracle gives: rates pass exactly when `truth` says so. */
  ghost function Honest(truth: nat -> bool): Oracle {
    (t: nat, r: nat) => Answer(truth(r), NotFinite)
  }

  /** Measurements `i` to `i + n` are failures at one rate. */
  ghost predicate FailuresAt(h: seq<Measurement>, i: nat, n: nat) {
    i + n <= |h| && forall j | i <= j < i + n :: h[j] == Measurement(h[i].rate, false)
  }

  /** A failing rate never passes, and a passing rate never fails more than `c` times in a row. */
  ghost predicate Tolerable(h: seq<Measurement>, truth: nat -> bool, c: nat) {
    && (forall i | 0 <= i < |h| && h[i].passed :: truth(h[i].rate))
    && (forall i | 0 <= i < |h| && FailuresAt(h, i, c + 1) :: !truth(h[i].rate))
  }

  function Rates(h: seq<Measurement>): (rates: seq<nat>)
    ensures |rates| == |h|
  {
    if h == [] then [] else [h[0].rate] + Rates(h[1..])
  }

  /** The rates in order with immediate repetitions removed. */
  function Collapse(rates: seq<nat>): seq<nat> {
    if |rates| <= 1 then rates
    else if rates[0] == rates[1] then Collapse(rates[1..])
    else [rates[0]] + Collapse(rates[1..])
  }

  /** The same search without confirmation retries. */
  function Decisive(cfg: Config): Config { cfg.(confirm := 0) }

  /** The state without what confirmation and floor detection remember. */
  function Fresh(s: Search): Search { s.(failures := 0, lastFail := None) }

  lemma DecideIgnoresConfirmation(cfg: Config, s: Search, passed: bool)
    requires cfg.multiplier > 1.0
    requires s.phase.Climb? && !passed ==> s.lastGood.GetOr(0) <= s.current
    requires s.phase.Bisect? ==> if passed then s.current <= s.hi else s.lo <= s.current
    ensures var (s', o) := Decide(cfg, s, passed);
            && Decide(Decisive(cfg), s.(lastFail := None), passed) == (s'.(lastFail := None), o)
            && s'.failures == s.failures
  {
    assert ClimbTarget(cfg, s.current) == ClimbTarget(Decisive(cfg), s.current);
  }

  lemma FreshIsSound(cfg: Config, s: Search)
    requires Sound(cfg, s)
    ensures Sound(Decisive(cfg), Fresh(s))
  {
  }

  /** A tolerated failure changes only the failure count; any other answer is what the truth says. */
  lemma NoisyStep(cfg: Config, s: Search, a: Answer, truth: bool)
    requires Sound(cfg, s) && !Step(cfg, s, a).0.floorDetected
    requires a.passed ==> truth
    requires truth && s.failures == cfg.confirm ==> a.passed
    ensures Sound(Decisive(cfg), Fresh(s))
    ensures var (s', o) := Step(cfg, s, a);
            if !a.passed && s.failures < cfg.confirm then
              (s', o) == (s.(failures := s.failures + 1), Probe(s.current))
            else
              a.passed == truth && Step(Decisive(cfg), Fresh(s), Answer(truth, NotFinite)) == (Fresh(s'), o)
  {
    hide Decide, FloorSeen, BisectRate;
    if s.phase.Bisect? {
      BisectRateInside(s.lo, s.hi);
    }
    var v := Judge(cfg, s, a);
    if v.Act? {
      assert Judge(Decisive(cfg), Fresh(s), Answer(truth, NotFinite)) == Act(v.s.(lastFail := None));
      DecideIgnoresConfirmation(cfg, v.s, truth);
    }
  }

  lemma RunStartsHere(cfg: Config, s: Search, t: nat, oracle: Oracle)
    requires Sound(cfg, s)
    ensures var h := RunFrom(cfg, s, t, oracle).history;
            |h| >= 1 && h[0] == Measurement(s.current, oracle(t, s.current).passed)
  {
    RunLength(cfg, s, t, oracle);
  }

  /** Honest answers do not depend on when they are given. */
  lemma {:induction false} HonestAnyTime(cfg: Config, s: Search, t: nat, u: nat, truth: nat -> bool)
    requires Sound(cfg, s)
    ensures RunFrom(cfg, s, t, Honest(truth)) == RunFrom(cfg, s, u, Honest(truth))
    decreases Remaining(cfg, s)
  {
    var (s', o) := Step(cfg, s, Answer(truth(s.current), NotFinite));
    RunUnfolds(cfg, s, t, Honest(truth));
    RunUnfolds(cfg, s, u, Honest(truth));
    hide Step, Sound, Remaining, RunFrom;
    if o.Probe? {
      HonestAnyTime(cfg, s', t + 1, u + 1, truth);
    }
  }

  /** The last `n` measurements of `past` failed at `rate`. */
  ghost predicate EndsInFailures(past: seq<Measurement>, n: nat, rate: nat) {
    n <= |past| && forall j | |past| - n <= j < |past| :: past[j] == Measurement(rate, false)
  }

  /** What tolerable noise allows of the next answer: no false pass, and a pass once the failures are used up. */
  lemma TolerableAnswer(
    past: seq<Measurement>, m: Measurement, rest: seq<Measurement>, failures: nat, truth: nat -> bool, c: nat)
    requires Tolerable(past + [m] + rest, truth, c)
    requires EndsInFailures(past, failures, m.rate)
    ensures m.passed ==> truth(m.rate)
    ensures truth(m.rate) && failures == c ==> m.passed
  {
    var h := past + [m] + rest;
    assert h[|past|] == m;
    if failures == c && !m.passed {
      assert FailuresAt(h, |past| - c, c + 1);
      assert h[|past| - c].rate == m.rate;
    }
  }

  lemma CollapsePrepend(rate: nat, x: seq<nat>, y: seq<nat>)
    requires x != [] && y != [] && x[0] == y[0] && Collapse(x) == Collapse(y)
    ensures Collapse([rate] + x) == Collapse([rate] + y)
    ensures rate == x[0] ==> Collapse([rate] + x) == Collapse(x)
  {
    assert ([rate] + x)[1..] == x && ([rate] + y)[1..] == y;
  }

  lemma RatesPrepend(m: Measurement, h: seq<Measurement>)
    ensures Rates([m] + h) == [m.rate] + Rates(h)
  {
    assert ([m] + h)[1..] == h;
  }

  lemma {:induction false} NoisyRunMatches(
    cfg: Config, s: Search, t: nat, oracle: Oracle, truth: nat -> bool, past: seq<Measurement>)
    requires Sound(cfg, s) && Sound(Decisive(cfg), Fresh(s)) && !Final(RunFrom(cfg, s, t, oracle)).floorDetected
    requires EndsInFailures(past, s.failures, s.current)
    requires Tolerable(past + RunFrom(cfg, s, t, oracle).history, truth, cfg.confirm)
    ensures Match(RunFrom(cfg, s, t, oracle), RunFrom(Decisive(cfg), Fresh(s), 0, Honest(truth)))
    decreases Remaining(cfg, s)
  {
    hide RunFrom, Step, Sound, Remaining, EndsInFailures, Match;
    var a := oracle(t, s.current);
    var (s', o) := Step(cfg, s, a);
    var m := Measurement(s.current, a.passed);
    var noisy := RunFrom(cfg, s, t, oracle);
    RunUnfolds(cfg, s, t, oracle);
    RunUnfolds(Decisive(cfg), Fresh(s), 0, Honest(truth));
    var later := if o.Probe? then RunFrom(cfg, s', t + 1, oracle).history else [];
    assert past + noisy.history == past + [m] + later;
    TolerableAnswer(past, m, later, s.failures, truth, cfg.confirm);
    NoisyStep(cfg, s, a, truth(s.current));
    hide Tolerable;
    if o.Probe? {
      FailuresGoOn(cfg, s, a, past, truth(s.current));
      FreshIsSound(cfg, s');
      NoisyRunMatches(cfg, s', t + 1, oracle, truth, past + [m]);
      if !a.passed && s.failures < cfg.confirm {
        RetryMatches(cfg, s', t + 1, oracle, truth, m, noisy.states);
      } else {
        HonestAnyTime(Decisive(cfg), Fresh(s'), 0, 1, truth);
        var clean := RunFrom(Decisive(cfg), Fresh(s), 0, Honest(truth));
        MoveMatches(cfg, s', t + 1, oracle, truth, m, noisy.states, clean.states);
      }
    } else {
      LastMatches(noisy, RunFrom(Decisive(cfg), Fresh(s), 0, Honest(truth)));
    }
  }

  lemma LastMatches(noisy: Run, clean: Run)
    requires noisy.knee == clean.knee && noisy.history == clean.history
    ensures Match(noisy, clean)
  {
  }

  /** The same knee, from the same rates once immediate repetitions are removed. */
  predicate Match(noisy: Run, clean: Run) {
    noisy.knee == clean.knee && Collapse(Rates(noisy.history)) == Collapse(Rates(clean.history))
  }

  /** The failures counted at a rate are the last measurements. */
  lemma FailuresGoOn(cfg: Config, s: Search, a: Answer, past: seq<Measurement>, truth: bool)
    requires Sound(cfg, s) && EndsInFailures(past, s.failures, s.current)
    ensures var (s', o) := Step(cfg, s, a);
            o.Probe? ==> EndsInFailures(past + [Measurement(s.current, a.passed)], s'.failures, s'.current)
  {
    hide Width, BisectRate, ClimbTarget, FloorSeen;
    if s.phase.Bisect? {
      BisectRateInside(s.lo, s.hi);
    }
  }

  /** A retry repeats a rate, and is removed. */
  lemma RetryMatches(
    cfg: Config, s: Search, t: nat, oracle: Oracle, truth: nat -> bool, m: Measurement, states: seq<Search>)
    requires Sound(cfg, s) && Sound(Decisive(cfg), Fresh(s)) && m.rate == s.current
    requires Match(RunFrom(cfg, s, t, oracle), RunFrom(Decisive(cfg), Fresh(s), 0, Honest(truth)))
    ensures var rest := RunFrom(cfg, s, t, oracle);
            Match(Run([m] + rest.history, states, rest.knee), RunFrom(Decisive(cfg), Fresh(s), 0, Honest(truth)))
  {
    var rest, clean := RunFrom(cfg, s, t, oracle), RunFrom(Decisive(cfg), Fresh(s), 0, Honest(truth));
    RunStartsHere(cfg, s, t, oracle);
    RunStartsHere(Decisive(cfg), Fresh(s), 0, Honest(truth));
    hide RunFrom, Sound;
    RatesPrepend(m, rest.history);
    CollapsePrepend(m.rate, Rates(rest.history), Rates(clean.history));
  }

  /** One measurement more of the same rate on both sides. */
  lemma MoveMatches(
    cfg: Config, s: Search, t: nat, oracle: Oracle, truth: nat -> bool, m: Measurement,
    noisy: seq<Search>, honest: seq<Search>)
    requires Sound(cfg, s) && Sound(Decisive(cfg), Fresh(s))
    requires Match(RunFrom(cfg, s, t, oracle), RunFrom(Decisive(cfg), Fresh(s), 0, Honest(truth)))
    ensures var rest, clean := RunFrom(cfg, s, t, oracle), RunFrom(Decisive(cfg), Fresh(s), 0, Honest(truth));
            Match(Run([m] + rest.history, noisy, rest.knee), Run([m] + clean.history, honest, clean.knee))
  {
    var rest, clean := RunFrom(cfg, s, t, oracle), RunFrom(Decisive(cfg), Fresh(s), 0, Honest(truth));
    RunStartsHere(cfg, s, t, oracle);
    RunStartsHere(Decisive(cfg), Fresh(s), 0, Honest(truth));
    hide RunFrom, Sound;
    RatesPrepend(m, rest.history);
    RatesPrepend(m, clean.history);
    CollapsePrepend(m.rate, Rates(rest.history), Rates(clean.history));
  }

  /**
   Confirmation retries absorb tolerable noise: a search that does not stop on a latency floor
   reports the knee, and visits the rates, of the search without retries on the true answers.
   */
  lemma NoiseIsAbsorbed(cfg: Config, oracle: Oracle, truth: nat -> bool)
    requires ValidConfig(cfg) && !Final(Search(cfg, oracle)).floorDetected
    requires Tolerable(Search(cfg, oracle).history, truth, cfg.confirm)
    ensures var noisy := Search(cfg, oracle);
            var clean := Search(Decisive(cfg), Honest(truth));
            noisy.knee == clean.knee && Collapse(Rates(noisy.history)) == Collapse(Rates(clean.history))
  {
    var h := Search(cfg, oracle).history;
    assert [] + h == h;
    NoisyRunMatches(cfg, Start(cfg), 0, oracle, truth, []);
  }
}
