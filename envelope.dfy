// Model of audio_backend/src/envelope/mod.rs: the linear ADSR envelope that
// the synthesizer voices embed. Levels and rates are exact reals; an
// infinite rate (a zero or negative time) is `None`.
module Envelope {
  import opened Wrappers
  import opened Arith

  /** Below this level a releasing envelope is considered finished. */
  const MinLevel: real := 0.0001

  datatype EnvelopeState = Idle | Attack | Decay | Sustain | Release

  /** The envelope's value: its state, per-sample rates, sustain level and current level. */
  datatype Env = Env(
    state: EnvelopeState,
    attackRate: Option<real>,
    decayRate: Option<real>,
    releaseRate: Option<real>,
    sustainLevel: real,
    level: real)

  /** `delta_level / (time_secs * sample_rate)`, infinite for a non-positive time. */
  function CalculateRate(sampleRate: real, timeSecs: real, delta: real): (r: Option<real>)
    requires sampleRate > 0.0
    ensures r.None? <==> timeSecs <= 0.0
    ensures r.Some? ==> r.value * (timeSecs * sampleRate) == delta
    ensures r.Some? && delta >= 0.0 ==> r.value >= 0.0
    ensures r.Some? && delta > 0.0 ==> r.value > 0.0
  {
    if timeSecs <= 0.0 then None else Some(delta / (timeSecs * sampleRate))
  }

  function Max(a: real, b: real): real { if a >= b then a else b }

  /**
   * What every reachable envelope satisfies: rates are not negative (the
   * release rate is positive), the level lies in [0, 1], an idle envelope is
   * silent, decay never goes below the sustain level and sustain holds it.
   */
  predicate Valid(e: Env)
  {
    && 0.0 <= e.sustainLevel <= 1.0
    && 0.0 <= e.level <= 1.0
    && (e.attackRate.Some? ==> e.attackRate.value > 0.0)
    && (e.decayRate.Some? ==> e.decayRate.value >= 0.0)
    && (e.releaseRate.Some? ==> e.releaseRate.value > 0.0)
    && (e.state == Idle ==> e.level == 0.0)
    && (e.state == Decay ==> e.level >= e.sustainLevel)
    && (e.state == Sustain ==> e.level == e.sustainLevel)
  }

  /** `AdsrEnvelope::new`. */
  function NewEnv(sampleRate: real, attackSecs: real, decaySecs: real, sustain: real, releaseSecs: real): (e: Env)
    requires sampleRate > 0.0
    ensures Valid(e) && e.state == Idle && e.level == 0.0
    ensures e.sustainLevel == Clamp01(sustain)
    ensures e.attackRate.None? <==> attackSecs <= 0.0
    ensures e.decayRate.None? <==> decaySecs <= 0.0
    ensures e.releaseRate.None? <==> releaseSecs <= 0.0
  {
    var s := Clamp01(sustain);
    Env(Idle,
        CalculateRate(sampleRate, attackSecs, 1.0),
        CalculateRate(sampleRate, decaySecs, 1.0 - s),
        CalculateRate(sampleRate, releaseSecs, Max(s, MinLevel)),
        s, 0.0)
  }

  /** The phases an envelope may move to in one sample. */
  predicate AllowedTransition(from: EnvelopeState, to: EnvelopeState)
  {
    from == to
    || (from == Attack && to == Decay)
    || (from == Decay && to == Sustain)
    || (from == Release && to == Idle)
  }

  /**
   * `process`: one sample. It returns the level from before the update;
   * attack only rises, decay, sustain and release only fall, and the phase
   * only moves forward.
   */
  function Processed(e: Env): (r: (Env, real))
    requires Valid(e)
    ensures r.1 == e.level
    ensures Valid(r.0)
    ensures r.0 == e.(state := r.0.state, level := r.0.level)
    ensures AllowedTransition(e.state, r.0.state)
    ensures e.state == Attack ==> r.0.level >= e.level
    ensures e.state != Attack ==> r.0.level <= e.level
  {
    var next :=
      match e.state
      case Idle => e
      case Attack =>
        var l := if e.attackRate.None? then 1.0 else e.level + e.attackRate.value;
        if l >= 1.0 then e.(level := 1.0, state := Decay) else e.(level := l)
      case Decay =>
        var l := if e.decayRate.None? || e.sustainLevel >= 1.0 then e.sustainLevel else e.level - e.decayRate.value;
        // Sustain is entered at any sustain level, zero included.
        if l <= e.sustainLevel then e.(level := e.sustainLevel, state := Sustain) else e.(level := l)
      case Sustain => e.(level := e.sustainLevel)
      case Release =>
        var l := if e.releaseRate.None? then 0.0 else e.level - e.releaseRate.value;
        if l <= MinLevel then e.(level := 0.0, state := Idle) else e.(level := l);
    (next, e.level)
  }

  /** `trigger`: Attack from any phase; the level restarts at 0 only from Idle or Release. */
  function Triggered(e: Env): (r: Env)
    requires Valid(e)
    ensures Valid(r) && r.state == Attack
    ensures r.level == if e.state == Idle || e.state == Release then 0.0 else e.level
    ensures r == e.(state := Attack, level := r.level)
  {
    if e.state == Idle || e.state == Release then e.(level := 0.0, state := Attack)
    else e.(state := Attack)
  }

  /** `release`: Release from any phase but Idle, which stays as it is. */
  function Released(e: Env): (r: Env)
    requires Valid(e)
    ensures Valid(r)
    ensures e.state == Idle ==> r == e
    ensures e.state != Idle ==> r == e.(state := Release)
  {
    if e.state != Idle then e.(state := Release) else e
  }

  /** `is_active`. */
  predicate IsActive(e: Env)
  {
    e.state != Idle
  }

  /** The envelope after n samples. */
  function ProcessedN(e: Env, n: nat): (r: Env)
    requires Valid(e)
    ensures Valid(r)
    decreases n
  {
    if n == 0 then e else ProcessedN(Processed(e).0, n - 1)
  }

  /** An idle envelope stays idle and silent. */
  lemma {:induction false} IdleStaysIdle(e: Env, n: nat)
    requires Valid(e) && e.state == Idle
    ensures ProcessedN(e, n) == e && e.level == 0.0
    decreases n
  {
    if n > 0 {
      IdleStaysIdle(Processed(e).0, n - 1);
    }
  }

  /**
   * A release with a finite rate r finishes within n samples once n * r
   * covers the level: the envelope is idle and silent.
   */
  lemma {:induction false} ReleaseFinishes(e: Env, n: nat)
    requires Valid(e) && e.state == Release && e.releaseRate.Some?
    requires n >= 1 && n as real * e.releaseRate.value >= e.level
    ensures ProcessedN(e, n).state == Idle && ProcessedN(e, n).level == 0.0
    decreases n
  {
    var next := Processed(e).0;
    ReleaseStep(e, n);
    if next.state == Idle {
      IdleStaysIdle(next, n - 1);
    } else {
      ReleaseFinishes(next, n - 1);
    }
  }

  /**
   * One sample of a release that has not finished yet keeps the rest of the
   * release in reach of the remaining n - 1 samples.
   */
  lemma ReleaseStep(e: Env, n: nat)
    requires Valid(e) && e.state == Release && e.releaseRate.Some?
    requires n >= 1 && n as real * e.releaseRate.value >= e.level
    ensures var next := Processed(e).0;
            && (next.state == Idle || next.state == Release)
            && (next.state == Idle ==> next.level == 0.0)
            && (next.state == Release ==> n >= 2 && next.releaseRate == e.releaseRate)
            && (next.state == Release ==> (n - 1) as real * next.releaseRate.value >= next.level)
  {
    var r := e.releaseRate.value;
    MulSucc(n, r);
    if n == 1 {
      assert (n - 1) as real * r == 0.0;
    }
  }

  /** An instant release finishes in one sample. */
  lemma InstantRelease(e: Env)
    requires Valid(e) && e.state == Release && e.releaseRate.None?
    ensures Processed(e).0.state == Idle && Processed(e).0.level == 0.0
  {
  }

  /**
   * An attack with a finite rate r reaches the peak within n samples once
   * n * r covers the distance to 1: the envelope is decaying from 1 or
   * further on.
   */
  lemma AttackPeaks(e: Env, n: nat)
    requires Valid(e) && e.state == Attack && e.attackRate.Some?
    requires n >= 1 && e.level + n as real * e.attackRate.value >= 1.0
    ensures PastAttack(ProcessedN(e, n).state)
  {
    StepsIsProduct(n, e.attackRate.value);
    AttackPeaksIn(e, n);
  }

  /** n steps of r, added up one at a time. */
  function Steps(n: nat, r: real): real
  {
    if n == 0 then 0.0 else Steps(n - 1, r) + r
  }

  lemma {:induction false} StepsIsProduct(n: nat, r: real)
    ensures Steps(n, r) == n as real * r
  {
    if n > 0 {
      StepsIsProduct(n - 1, r);
      assert n as real * r == (n - 1) as real * r + r;
    }
  }

  lemma {:induction false} AttackPeaksIn(e: Env, n: nat)
    requires Valid(e) && e.state == Attack && e.attackRate.Some?
    requires n >= 1 && e.level + Steps(n, e.attackRate.value) >= 1.0
    ensures PastAttack(ProcessedN(e, n).state)
    decreases n
  {
    var next := Processed(e).0;
    ProcessedN1(e, n);
    AttackStep(e);
    if next.state == Decay {
      DecayStaysOn(next, n - 1);
    } else {
      assert n - 1 != 0;
      AttackPeaksIn(next, n - 1);
    }
  }

  /** One sample of a finite attack: either the peak, or a rise by the rate. */
  lemma AttackStep(e: Env)
    requires Valid(e) && e.state == Attack && e.attackRate.Some?
    ensures var next := Processed(e).0;
            if e.level + e.attackRate.value >= 1.0 then next.state == Decay
            else next.state == Attack && next.level == e.level + e.attackRate.value
                 && next.attackRate == e.attackRate
  {
  }

  lemma ProcessedN1(e: Env, n: nat)
    requires Valid(e) && n >= 1
    ensures ProcessedN(e, n) == ProcessedN(Processed(e).0, n - 1)
  {
  }

  predicate PastAttack(s: EnvelopeState)
  {
    s == Decay || s == Sustain
  }

  /** Without a release, a decaying envelope only ever decays or sustains. */
  lemma {:induction false} DecayStaysOn(e: Env, n: nat)
    requires Valid(e) && PastAttack(e.state)
    ensures PastAttack(ProcessedN(e, n).state)
    decreases n
  {
    if n > 0 {
      DecayStaysOn(Processed(e).0, n - 1);
    }
  }

  /** A sustaining envelope holds its level for any number of samples. */
  lemma {:induction false} SustainHolds(e: Env, n: nat)
    requires Valid(e) && e.state == Sustain
    ensures ProcessedN(e, n) == e
    decreases n
  {
    if n > 0 {
      assert Processed(e).0 == e;
      SustainHolds(e, n - 1);
    }
  }

  /**
   * A decay settles within n samples once n times its rate covers the
   * distance down to the sustain level: the envelope then sustains at that
   * level, zero included. An infinite rate settles in one sample.
   */
  lemma {:induction false} DecaySettles(e: Env, n: nat)
    requires Valid(e) && e.state == Decay && n >= 1
    requires e.decayRate.Some? ==> n as real * e.decayRate.value >= e.level - e.sustainLevel
    ensures ProcessedN(e, n).state == Sustain && ProcessedN(e, n).level == e.sustainLevel
    decreases n
  {
    var next := Processed(e).0;
    DecayStep(e, n);
    if next.state == Sustain {
      SustainHolds(next, n - 1);
    } else {
      DecaySettles(next, n - 1);
    }
  }

  /**
   * One sample of a decay that has not settled yet keeps the rest of the
   * decay in reach of the remaining n - 1 samples.
   */
  lemma DecayStep(e: Env, n: nat)
    requires Valid(e) && e.state == Decay && n >= 1
    requires e.decayRate.Some? ==> n as real * e.decayRate.value >= e.level - e.sustainLevel
    ensures var next := Processed(e).0;
            && (next.state == Sustain || next.state == Decay)
            && next.sustainLevel == e.sustainLevel && next.decayRate == e.decayRate
            && (next.state == Sustain ==> next.level == e.sustainLevel)
            && (next.state == Decay ==> n >= 2 && next.decayRate.Some?)
            && (next.state == Decay ==> (n - 1) as real * next.decayRate.value >= next.level - next.sustainLevel)
  {
    if e.decayRate.Some? {
      var r := e.decayRate.value;
      MulSucc(n, r);
      if n == 1 {
        assert (n - 1) as real * r == 0.0;
      }
    }
  }

  /** The `AdsrEnvelope` struct, updated in place. */
  class AdsrEnvelope {
    var state: EnvelopeState
    var attackRate: Option<real>
    var decayRate: Option<real>
    var releaseRate: Option<real>
    var sustainLevel: real
    var currentLevel: real

    function Value(): Env
      reads this
    {
      Env(state, attackRate, decayRate, releaseRate, sustainLevel, currentLevel)
    }

    constructor (sampleRate: real, attackSecs: real, decaySecs: real, sustain: real, releaseSecs: real)
      requires sampleRate > 0.0
      ensures Value() == NewEnv(sampleRate, attackSecs, decaySecs, sustain, releaseSecs)
    {
      var s := if sustain < 0.0 then 0.0 else if sustain > 1.0 then 1.0 else sustain;
      state := Idle;
      attackRate := CalculateRate(sampleRate, attackSecs, 1.0);
      decayRate := CalculateRate(sampleRate, decaySecs, 1.0 - s);
      releaseRate := CalculateRate(sampleRate, releaseSecs, if s >= MinLevel then s else MinLevel);
      sustainLevel := s;
      currentLevel := 0.0;
    }

    method Process() returns (output: real)
      requires Valid(Value())
      modifies this
      ensures (Value(), output) == Processed(old(Value()))
    {
      output := currentLevel;
      match state {
        case Idle =>
        case Attack =>
          if attackRate.None? {
            currentLevel := 1.0;
          } else {
            currentLevel := currentLevel + attackRate.value;
          }
          if currentLevel >= 1.0 {
            currentLevel := 1.0;
            state := Decay;
          }
        case Decay =>
          if decayRate.None? || sustainLevel >= 1.0 {
            currentLevel := sustainLevel;
          } else {
            currentLevel := currentLevel - decayRate.value;
          }
          if currentLevel <= sustainLevel {
            currentLevel := sustainLevel;
            state := Sustain;
          }
        case Sustain =>
          currentLevel := sustainLevel;
        case Release =>
          if releaseRate.None? {
            currentLevel := 0.0;
          } else {
            currentLevel := currentLevel - releaseRate.value;
          }
          if currentLevel <= MinLevel {
            currentLevel := 0.0;
            state := Idle;
          }
      }
    }

    method Trigger()
      requires Valid(Value())
      modifies this
      ensures Value() == Triggered(old(Value()))
    {
      if state == Idle || state == EnvelopeState.Release {
        currentLevel := 0.0;
      }
      state := Attack;
    }

    method Release()
      requires Valid(Value())
      modifies this
      ensures Value() == Released(old(Value()))
    {
      if state != Idle {
        state := EnvelopeState.Release;
      }
    }

    predicate IsActive()
      reads this
    {
      state != Idle
    }
  }
}
