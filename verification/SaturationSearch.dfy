/**
 The saturation search's rate machine (src/saturation.rs): climb geometrically until a rate
 fails its objective, then bisect between the last good rate and the failed one.

 `RateSearch` is the machine as the program keeps it, one mutable object. `Step` is the
 function its `Advance` method computes; everything that is promised of a whole search is
 proved of runs of `Step`.
 */
module SaturationSearch {
  import opened Numbers
  import opened Options

  datatype Phase = Climb | Bisect

  /** What to do after a measurement. */
  datatype Outcome = Probe(rate: nat) | Done(knee: Option<nat>)

  /** The objective's latency percentile over one sample window. */
  datatype Latency = NotFinite | Micros(us: real)

  datatype Answer = Answer(passed: bool, latency: Latency)

  datatype Config = Config(
    startRate: nat,
    multiplier: real,
    maxRate: nat,
    tolerance: real,
    maxSteps: nat,
    confirm: nat,
    floorRatio: real)

  /** What configuration validation leaves: a positive 64-bit start, a multiplier above one. */
  predicate ValidConfig(cfg: Config) {
    1 <= cfg.startRate <= U64_MAX && cfg.maxRate <= U64_MAX && cfg.multiplier > 1.0
  }

  datatype Search = Search(
    phase: Phase,
    current: nat,
    lastGood: Option<nat>,
    lo: nat,
    hi: nat,
    steps: nat,
    failures: nat,
    lastFail: Option<(nat, real)>,
    floorDetected: bool)

  function Start(cfg: Config): Search {
    Search(Climb, cfg.startRate, None, 0, 0, 0, 0, None, false)
  }

  // ---- One step -------------------------------------------------------------------

  /** `r * 2` in 64 bits, saturating. */
  function SaturatingDouble(r: nat): nat { Min(2 * r, U64_MAX) }

  /** The rate measured next while bisecting `lo..hi`. */
  function BisectRate(lo: nat, hi: nat): nat
    requires lo <= hi
  {
    var mid := lo + (hi - lo) / 2;
    Max(Min(Max(mid, lo + 1), Max(hi - 1, 0)), 1)
  }

  /** The climb's multiple of the current rate, truncated to an integer. */
  function ClimbTarget(cfg: Config, rate: nat): (next: nat)
    requires cfg.multiplier > 1.0
    ensures rate <= next
  {
    assert rate as real * cfg.multiplier >= rate as real;
    (rate as real * cfg.multiplier).Floor
  }

  /** Whether a confirmed failure at `current` shows that latency does not respond to rate. */
  predicate FloorSeen(cfg: Config, s: Search, us: real) {
    && s.lastFail.Some?
    && s.lastFail.value.0 >= SaturatingDouble(s.current)
    && s.lastFail.value.1 > 0.0
    && (s.lastFail.value.1 - us) / s.lastFail.value.1 < cfg.floorRatio
  }

  /** Floor detection runs on a confirmed failure while no rate has passed. */
  predicate FloorApplies(cfg: Config, s: Search, latency: Latency) {
    && s.lastGood.None?
    && cfg.floorRatio > 0.0
    && latency.Micros?
    && latency.us > 0.0
  }

  function Width(s: Search): real
    requires s.lo <= s.hi || s.hi == 0
  {
    if s.hi > 0 then (s.hi - s.lo) as real / s.hi as real else 0.0
  }

  predicate BisectionOver(cfg: Config, s: Search)
    requires s.lo <= s.hi || s.hi == 0
  {
    Width(s) <= cfg.tolerance || s.steps >= cfg.maxSteps || s.hi <= s.lo + 1
  }

  /** The move once a measurement has been accepted: a pass, or a confirmed failure. */
  function Decide(cfg: Config, s: Search, passed: bool): (Search, Outcome)
    requires cfg.multiplier > 1.0
    requires s.phase.Climb? && !passed ==> s.lastGood.GetOr(0) <= s.current
    requires s.phase.Bisect? ==> if passed then s.current <= s.hi else s.lo <= s.current
  {
    match s.phase
    case Climb =>
      if !passed then
        var lo := s.lastGood.GetOr(0);
        var mid := BisectRate(lo, s.current);
        (s.(phase := Bisect, lo := lo, hi := s.current, current := mid), Probe(mid))
      else
        var next := ClimbTarget(cfg, s.current);
        if next >= cfg.maxRate then
          if s.current >= cfg.maxRate then
            (s, Done(s.lastGood))
          else
            (s.(current := cfg.maxRate), Probe(cfg.maxRate))
        else
          var rate := Max(next, s.current + 1);
          (s.(current := rate), Probe(rate))
    case Bisect =>
      var s1 := if passed then s.(lo := s.current) else s.(hi := s.current);
      var s2 := s1.(steps := s1.steps + 1);
      if BisectionOver(cfg, s2) then
        (s2, Done(if s2.lo > 0 then Some(s2.lo) else s2.lastGood))
      else
        var mid := BisectRate(s2.lo, s2.hi);
        (s2.(current := mid), Probe(mid))
  }

  /** What becomes of an answer before any move: it is retried, ends the search, or is acted on. */
  datatype Verdict = Retry | Floor | Act(s: Search)

  function Judge(cfg: Config, s: Search, a: Answer): (v: Verdict) {
    if a.passed then
      Act(s.(failures := 0, lastGood := Some(s.current), lastFail := None))
    else if s.failures + 1 <= cfg.confirm then
      Retry
    else
      var s1 := s.(failures := 0);
      if FloorApplies(cfg, s1, a.latency) then
        if FloorSeen(cfg, s1, a.latency.us) then
          Floor
        else
          Act(s1.(lastFail := Some((s1.current, a.latency.us))))
      else
        Act(s1)
  }

  /** Record the answer measured at `s.current` and decide the next move. */
  function Step(cfg: Config, s: Search, a: Answer): (Search, Outcome)
    requires Sound(cfg, s)
  {
    match Judge(cfg, s, a)
    case Retry => (s.(failures := s.failures + 1), Probe(s.current))
    case Floor => (s.(failures := 0, floorDetected := true), Done(None))
    case Act(s1) => Decide(cfg, s1, a.passed)
  }

  // ---- What every step keeps ------------------------------------------------------

  /** Bisect steps taken at most: one always runs, whatever the configured limit. */
  function StepLimit(cfg: Config): nat { Max(1, cfg.maxSteps) }

  /** What holds of the machine between measurements. */
  predicate Sound(cfg: Config, s: Search) {
    && ValidConfig(cfg)
    && 1 <= s.current
    && s.current <= Max(cfg.startRate, cfg.maxRate)
    && s.failures <= cfg.confirm
    && !s.floorDetected
    && match s.phase
       case Climb =>
         && (s.lastGood.Some? ==> s.lastGood.value < s.current)
         && (s.current <= cfg.maxRate || s.current == cfg.startRate)
         && s.steps == 0
       case Bisect =>
         && s.lo == s.lastGood.GetOr(0)
         && s.lo < s.hi <= Max(cfg.startRate, cfg.maxRate)
         && s.current == BisectRate(s.lo, s.hi)
         && s.steps < StepLimit(cfg)
         && (s.steps > 0 ==> s.lo + 2 <= s.hi)
  }

  /** Measurements the search can still ask for. */
  function Remaining(cfg: Config, s: Search): int {
    var visits := match s.phase
      case Climb => Max(cfg.maxRate - s.current, 0) + 1 + StepLimit(cfg)
      case Bisect => StepLimit(cfg) - s.steps;
    (cfg.confirm + 1) * visits - s.failures
  }

  lemma BisectRateInside(lo: nat, hi: nat)
    requires lo < hi
    ensures lo <= BisectRate(lo, hi) <= hi && 1 <= BisectRate(lo, hi)
    ensures lo + 2 <= hi ==> lo < BisectRate(lo, hi) < hi && BisectRate(lo, hi) == lo + (hi - lo) / 2
    ensures hi == lo + 1 ==> BisectRate(lo, hi) == if lo == 0 then 1 else lo
  {
  }

  lemma RemainingPositive(cfg: Config, s: Search)
    requires Sound(cfg, s)
    ensures Remaining(cfg, s) >= 1
  {
    var visits := match s.phase
      case Climb => Max(cfg.maxRate - s.current, 0) + 1 + StepLimit(cfg)
      case Bisect => StepLimit(cfg) - s.steps;
    ProductOrder(1, visits, cfg.confirm + 1);
  }

  /** One fewer visit is worth at least one measurement, whatever the confirmation count. */
  lemma FewerVisits(c: nat, before: int, after: int, failures: nat)
    requires after < before && failures <= c
    ensures (c + 1) * after < (c + 1) * before - failures
  {
    ProductOrder(after + 1, before, c + 1);
  }

  /** A state as it is when a measurement has just been accepted. */
  predicate Accepted(cfg: Config, before: Search, s: Search, passed: bool) {
    && Sound(cfg, before)
    && s.failures == 0
    && !s.floorDetected
    && s.lastGood == (if passed then Some(before.current) else before.lastGood)
    && s == before.(failures := 0, lastGood := s.lastGood, lastFail := s.lastFail)
  }

  lemma DecideKeepsSound(cfg: Config, before: Search, s: Search, passed: bool)
    requires Accepted(cfg, before, s, passed)
    requires s.phase.Bisect? ==> if passed then s.current <= s.hi else s.lo <= s.current
    ensures var (s', o) := Decide(cfg, s, passed);
            o.Probe? ==> Sound(cfg, s') && s'.current == o.rate && Remaining(cfg, s') < Remaining(cfg, before)
  {
    hide Width, ClimbTarget, BisectRate;
    var (s', o) := Decide(cfg, s, passed);
    match s.phase
    case Climb =>
      if s'.phase.Bisect? {
        BisectRateInside(s'.lo, s'.hi);
        FewerVisits(cfg.confirm, Max(cfg.maxRate - s.current, 0) + 1 + StepLimit(cfg), StepLimit(cfg), before.failures);
      } else if o.Probe? {
        FewerVisits(cfg.confirm, Max(cfg.maxRate - s.current, 0) + 1 + StepLimit(cfg),
                    Max(cfg.maxRate - s'.current, 0) + 1 + StepLimit(cfg), before.failures);
      }
    case Bisect =>
      BisectRateInside(s.lo, s.hi);
      if o.Probe? {
        BisectRateInside(s'.lo, s'.hi);
        FewerVisits(cfg.confirm, StepLimit(cfg) - s.steps, StepLimit(cfg) - s'.steps, before.failures);
      }
  }

  /** An answer is acted on with nothing changed but what the answer itself records. */
  lemma JudgeAccepts(cfg: Config, s: Search, a: Answer)
    requires Sound(cfg, s)
    ensures Judge(cfg, s, a).Act? ==> Accepted(cfg, s, Judge(cfg, s, a).s, a.passed)
  {
  }

  /** Every answer that does not end the search leaves it sound, and nearer its end. */
  lemma StepKeepsSound(cfg: Config, s: Search, a: Answer)
    requires Sound(cfg, s)
    ensures var (s', o) := Step(cfg, s, a);
            o.Probe? ==> Sound(cfg, s') && s'.current == o.rate && Remaining(cfg, s') < Remaining(cfg, s)
  {
    hide Width, ClimbTarget, BisectRate;
    if s.phase.Bisect? {
      BisectRateInside(s.lo, s.hi);
    }
    JudgeAccepts(cfg, s, a);
    var v := Judge(cfg, s, a);
    if v.Act? {
      DecideKeepsSound(cfg, s, v.s, a.passed);
    }
  }

  // ---- The object -------------------------------------------------------------------

  class RateSearch {
    const cfg: Config
    var phase: Phase
    var currentRate: nat
    var lastGood: Option<nat>
    var lo: nat
    var hi: nat
    var bisectSteps: nat
    var failuresAtRate: nat
    var lastConfirmedFail: Option<(nat, real)>
    var floorDetected: bool

    function State(): Search
      reads this
    {
      Search(phase, currentRate, lastGood, lo, hi, bisectSteps, failuresAtRate, lastConfirmedFail, floorDetected)
    }

    predicate Valid()
      reads this
    {
      Sound(cfg, State())
    }

    constructor (config: Config)
      requires ValidConfig(config)
      ensures cfg == config && State() == Start(config) && Valid()
    {
      cfg := config;
      phase, currentRate, lastGood := Climb, config.startRate, None;
      lo, hi, bisectSteps, failuresAtRate := 0, 0, 0, 0;
      lastConfirmedFail, floorDetected := None, false;
    }

    method Advance(passed: bool, latency: Latency) returns (outcome: Outcome)
      requires Valid()
      modifies this
      ensures (State(), outcome) == Step(cfg, old(State()), Answer(passed, latency))
      ensures outcome.Probe? ==> Valid() && currentRate == outcome.rate
    {
      hide Width, ClimbTarget, BisectRate, Remaining, FloorSeen;
      StepKeepsSound(cfg, State(), Answer(passed, latency));
      if phase.Bisect? {
        BisectRateInside(lo, hi);
      }
      var early := Note(passed, latency);
      if early.Some? {
        return early.value;
      }
      outcome := Move(passed);
    }

    /** Count a failure or clear the count; returns the outcome when there is no move to make. */
    method Note(passed: bool, latency: Latency) returns (early: Option<Outcome>)
      modifies this
      ensures match Judge(cfg, old(State()), Answer(passed, latency))
              case Retry =>
                State() == old(State()).(failures := old(failuresAtRate) + 1) && early == Some(Probe(currentRate))
              case Floor => State() == old(State()).(failures := 0, floorDetected := true) && early == Some(Done(None))
              case Act(s) => State() == s && early == None
    {
      if passed {
        failuresAtRate := 0;
        lastGood := Some(currentRate);
        lastConfirmedFail := None;
        return None;
      }
      failuresAtRate := failuresAtRate + 1;
      if failuresAtRate <= cfg.confirm {
        return Some(Probe(currentRate));
      }
      failuresAtRate := 0;
      if lastGood.None? && cfg.floorRatio > 0.0 && latency.Micros? && latency.us > 0.0 {
        if lastConfirmedFail.Some? {
          var (prevRate, prevUs) := lastConfirmedFail.value;
          if prevRate >= SaturatingDouble(currentRate) && prevUs > 0.0 {
            var improvement := (prevUs - latency.us) / prevUs;
            if improvement < cfg.floorRatio {
              floorDetected := true;
              return Some(Done(None));
            }
          }
        }
        lastConfirmedFail := Some((currentRate, latency.us));
      }
      return None;
    }

    /** The climb's or the bisection's next move after a pass or a confirmed failure. */
    method Move(passed: bool) returns (outcome: Outcome)
      requires ValidConfig(cfg)
      requires phase.Climb? && !passed ==> lastGood.GetOr(0) <= currentRate
      requires phase.Bisect? ==> if passed then currentRate <= hi else lo <= currentRate
      modifies this
      ensures (State(), outcome) == Decide(cfg, old(State()), passed)
    {
      match phase {
        case Climb =>
          if !passed {
            lo := lastGood.GetOr(0);
            hi := currentRate;
            phase := Bisect;
            outcome := BisectProbe();
            return;
          }
          var next := ClimbTarget(cfg, currentRate);
          if next >= cfg.maxRate {
            if currentRate >= cfg.maxRate {
              return Done(lastGood);
            }
            currentRate := cfg.maxRate;
            return Probe(currentRate);
          }
          currentRate := Max(next, currentRate + 1);
          return Probe(currentRate);
        case Bisect =>
          if passed {
            lo := currentRate;
          } else {
            hi := currentRate;
          }
          bisectSteps := bisectSteps + 1;
          var width := if hi > 0 then (hi - lo) as real / hi as real else 0.0;
          if width <= cfg.tolerance || bisectSteps >= cfg.maxSteps || hi <= lo + 1 {
            return Done(if lo > 0 then Some(lo) else lastGood);
          }
          outcome := BisectProbe();
      }
    }

    /** Move to the middle of the interval, away from both ends where there is room. */
    method BisectProbe() returns (outcome: Outcome)
      requires lo <= hi
      modifies `currentRate
      ensures currentRate == BisectRate(lo, hi) && outcome == Probe(currentRate)
    {
      var mid := lo + (hi - lo) / 2;
      mid := Max(Min(Max(mid, lo + 1), Max(hi - 1, 0)), 1);
      currentRate := mid;
      outcome := Probe(mid);
    }
  }
}
