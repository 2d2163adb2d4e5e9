// Model of audio_backend/src/synths/adsr.rs: the linear ADSR generator the
// voice manager's voices use. Each stage moves the amplitude by a fixed step
// per sample; the step is recomputed on entering Attack, Decay and Release.
// f32 is modelled by reals, and every time is positive, so no step divides by
// zero.
module SynthAdsr {
  import opened Arith

  /** Below this a releasing amplitude snaps to 0 (the local `MIN_AMPLITUDE`). */
  const MinAmplitude: real := 0.001

  datatype Stage = Idle | Attack | Decay | Sustain | Release

  /** The fields of one `ADSR`. */
  datatype AdsrValue = AdsrValue(
    stage: Stage,
    sampleRate: real,
    attackTime: real,
    decayTime: real,
    sustainLevel: real,
    releaseTime: real,
    amplitude: real,
    step: real,
    peak: real)

  /** The sample rate and the three times are positive. */
  predicate TimesPositive(a: AdsrValue)
  {
    a.sampleRate > 0.0 && a.attackTime > 0.0 && a.decayTime > 0.0 && a.releaseTime > 0.0
  }

  /**
   * The bounds every sample keeps when the sustain level is a fraction:
   * peak and amplitude in [0, 1] and a step that never runs backwards.
   */
  predicate InRange(a: AdsrValue)
  {
    && TimesPositive(a)
    && 0.0 <= a.sustainLevel <= 1.0
    && 0.0 <= a.peak <= 1.0
    && 0.0 <= a.amplitude <= 1.0
    && a.step >= 0.0
  }

  predicate IsFinished(a: AdsrValue)
  {
    a.stage == Idle
  }

  /** Amplitude stages that only a release can leave. */
  predicate PastAttack(s: Stage)
  {
    s == Decay || s == Sustain
  }

  /** `ADSR::new`: idle and silent, with 10 ms attack, 100 ms decay, 0.8 sustain, 50 ms release. */
  function NewAdsr(sampleRate: real): (a: AdsrValue)
    requires sampleRate > 0.0
    ensures InRange(a) && IsFinished(a) && a.amplitude == 0.0 && a.peak == 1.0
    ensures a.sampleRate == sampleRate
  {
    AdsrValue(Idle, sampleRate, 0.01, 0.1, 0.8, 0.05, 0.0, 0.0, 1.0)
  }

  /** `set_params`: only the four parameters change; steps already computed stay. */
  function WithParams(a: AdsrValue, attack: real, decay: real, sustain: real, release: real): (r: AdsrValue)
    requires a.sampleRate > 0.0 && attack > 0.0 && decay > 0.0 && release > 0.0
    ensures TimesPositive(r)
    ensures r.stage == a.stage && r.amplitude == a.amplitude && r.step == a.step && r.peak == a.peak
    ensures r.sampleRate == a.sampleRate
    ensures InRange(a) && 0.0 <= sustain <= 1.0 ==> InRange(r)
  {
    a.(attackTime := attack, decayTime := decay, sustainLevel := sustain, releaseTime := release)
  }

  /** `reset`: idle and silent with a unit peak, parameters kept. */
  function Reset(a: AdsrValue): (r: AdsrValue)
    ensures IsFinished(r) && r.amplitude == 0.0 && r.step == 0.0 && r.peak == 1.0
    ensures r.sampleRate == a.sampleRate && r.attackTime == a.attackTime && r.decayTime == a.decayTime
    ensures r.sustainLevel == a.sustainLevel && r.releaseTime == a.releaseTime
    ensures InRange(a) ==> InRange(r)
  {
    a.(stage := Idle, amplitude := 0.0, step := 0.0, peak := 1.0)
  }

  /** The per-sample step that covers `delta` in `time` seconds. */
  function StepFor(delta: real, time: real, sampleRate: real): (s: real)
    requires time > 0.0 && sampleRate > 0.0
    ensures s * (time * sampleRate) == delta
    ensures delta >= 0.0 ==> s >= 0.0
  {
    PositiveProduct(time, sampleRate);
    delta / (time * sampleRate)
  }

  lemma PositiveProduct(x: real, y: real)
    requires x > 0.0 && y > 0.0
    ensures x * y > 0.0
  {
  }

  /**
   * `note_on`: a unit peak and a fresh attack step; the amplitude carries
   * on from where it was.
   */
  function NoteOn(a: AdsrValue): (r: AdsrValue)
    requires TimesPositive(a)
    ensures r.stage == Attack && r.peak == 1.0 && r.amplitude == a.amplitude
    ensures r.step * (a.attackTime * a.sampleRate) == 1.0
    ensures r == a.(stage := r.stage, peak := r.peak, step := r.step)
    ensures InRange(a) ==> InRange(r)
  {
    a.(peak := 1.0, stage := Attack, step := StepFor(1.0, a.attackTime, a.sampleRate))
  }

  /**
   * `note_on_with_velocity`: the peak is the velocity clamped to [0, 1]; the
   * attack starts from silence with a step that reaches the peak in the
   * attack time.
   */
  function NoteOnWithVelocity(a: AdsrValue, velocity: real): (r: AdsrValue)
    requires TimesPositive(a)
    ensures r.stage == Attack && r.amplitude == 0.0 && 0.0 <= r.peak <= 1.0
    ensures 0.0 <= velocity <= 1.0 ==> r.peak == velocity
    ensures velocity < 0.0 ==> r.peak == 0.0
    ensures velocity > 1.0 ==> r.peak == 1.0
    ensures r.step >= 0.0 && r.step * (a.attackTime * a.sampleRate) == r.peak
    ensures r == a.(stage := r.stage, peak := r.peak, amplitude := r.amplitude, step := r.step)
    ensures InRange(a) ==> InRange(r)
  {
    var peak := Clamp01(velocity);
    a.(peak := peak, amplitude := 0.0, stage := Attack, step := StepFor(peak, a.attackTime, a.sampleRate))
  }

  /**
   * `note_off`: an idle generator is left alone; any other stage releases,
   * with a step that brings the current amplitude to 0 in the release time.
   */
  function NoteOff(a: AdsrValue): (r: AdsrValue)
    requires TimesPositive(a)
    ensures a.stage == Idle ==> r == a
    ensures a.stage != Idle ==>
              && r.stage == Release
              && r.step * (a.releaseTime * a.sampleRate) == a.amplitude
              && r == a.(stage := r.stage, step := r.step)
    ensures InRange(a) ==> InRange(r)
  {
    if a.stage == Idle then a
    else a.(stage := Release, step := StepFor(a.amplitude, a.releaseTime, a.sampleRate))
  }

  /**
   * `next_sample`: one sample of the current stage; the sample returned is
   * the new `amplitude`. Attack stops at the peak and moves to Decay; Decay
   * stops at peak * sustain and holds there; Release ends in silence once at
   * or below `MinAmplitude`; Idle forces silence.
   */
  function Next(a: AdsrValue): (r: AdsrValue)
    requires TimesPositive(a)
    ensures TimesPositive(r)
    ensures r == a.(stage := r.stage, amplitude := r.amplitude, step := r.step)
    ensures a.stage == Idle ==> r == a.(amplitude := 0.0)
    ensures a.stage == Attack ==>
              && (r.stage == Attack || r.stage == Decay)
              && (r.stage == Decay <==> a.amplitude + a.step >= a.peak)
              && (r.stage == Decay ==> r.amplitude == a.peak)
              && (r.stage == Attack ==> r.amplitude == a.amplitude + a.step < a.peak && r.step == a.step)
    ensures a.stage == Decay ==>
              && (r.stage == Decay || r.stage == Sustain)
              && r.step == a.step
              && (r.stage == Sustain <==> a.amplitude - a.step <= a.peak * a.sustainLevel)
              && (r.stage == Sustain ==> r.amplitude == a.peak * a.sustainLevel)
              && (r.stage == Decay ==> r.amplitude == a.amplitude - a.step > a.peak * a.sustainLevel)
    ensures a.stage == Sustain ==> r == a
    ensures a.stage == Release ==>
              && (r.stage == Release || r.stage == Idle)
              && r.step == a.step
              && (r.stage == Idle <==> a.amplitude - a.step <= MinAmplitude)
              && (r.stage == Idle ==> r.amplitude == 0.0)
              && (r.stage == Release ==> r.amplitude == a.amplitude - a.step > MinAmplitude)
  {
    match a.stage
    case Idle => a.(amplitude := 0.0)
    case Attack =>
      var amp := a.amplitude + a.step;
      if amp >= a.peak then
        a.(amplitude := a.peak, stage := Decay,
           step := StepFor(a.peak - a.peak * a.sustainLevel, a.decayTime, a.sampleRate))
      else a.(amplitude := amp)
    case Decay =>
      var amp := a.amplitude - a.step;
      var target := a.peak * a.sustainLevel;
      if amp <= target then a.(amplitude := target, stage := Sustain)
      else a.(amplitude := amp)
    case Sustain => a
    case Release =>
      var amp := a.amplitude - a.step;
      if amp <= MinAmplitude then a.(amplitude := 0.0, stage := Idle)
      else a.(amplitude := amp)
  }

  /** Entering Decay, the step brings the peak down to peak * sustain in the decay time. */
  lemma DecayStepSpansDecayTime(a: AdsrValue)
    requires TimesPositive(a) && a.stage == Attack && a.amplitude + a.step >= a.peak
    ensures Next(a).stage == Decay
    ensures Next(a).step * (a.decayTime * a.sampleRate) == a.peak - a.peak * a.sustainLevel
  {
    assert Next(a).step == StepFor(a.peak - a.peak * a.sustainLevel, a.decayTime, a.sampleRate);
  }

  /** `n` samples in a row. */
  function NextN(a: AdsrValue, n: nat): (r: AdsrValue)
    requires TimesPositive(a)
    ensures TimesPositive(r)
    decreases n
  {
    if n == 0 then a else NextN(Next(a), n - 1)
  }

  /** With a fractional sustain, every sample stays in [0, 1] and so do the bounds. */
  lemma NextInRange(a: AdsrValue)
    requires InRange(a)
    ensures InRange(Next(a)) && 0.0 <= Next(a).amplitude <= 1.0
  {
    match a.stage
    case Idle =>
    case Attack => AttackInRange(a);
    case Decay => DecayInRange(a);
    case Sustain =>
    case Release =>
  }

  lemma AttackInRange(a: AdsrValue)
    requires InRange(a) && a.stage == Attack
    ensures InRange(Next(a))
  {
    var target := a.peak * a.sustainLevel;
    SustainTarget(a.peak, a.sustainLevel);
    if a.amplitude + a.step >= a.peak {
      assert Next(a).step == StepFor(a.peak - target, a.decayTime, a.sampleRate);
    }
  }

  lemma DecayInRange(a: AdsrValue)
    requires InRange(a) && a.stage == Decay
    ensures InRange(Next(a))
  {
    SustainTarget(a.peak, a.sustainLevel);
  }

  lemma SustainTarget(peak: real, sustain: real)
    requires 0.0 <= peak <= 1.0 && 0.0 <= sustain <= 1.0
    ensures 0.0 <= peak * sustain <= peak
  {
    MulNonneg(peak, sustain);
    MulNonneg(peak, 1.0 - sustain);
  }

  lemma MulNonneg(x: real, y: real)
    requires x >= 0.0 && y >= 0.0
    ensures x * y >= 0.0
  {
  }

  /** An idle generator stays idle and silent. */
  lemma {:induction false} IdleStaysIdle(a: AdsrValue, n: nat)
    requires TimesPositive(a) && a.stage == Idle && a.amplitude == 0.0
    ensures NextN(a, n) == a
    decreases n
  {
    if n > 0 {
      IdleStaysIdle(Next(a), n - 1);
    }
  }

  /**
   * A release with step s ends within n samples once n * s brings the
   * amplitude down to `MinAmplitude`: idle and silent.
   */
  lemma {:induction false} ReleaseEnds(a: AdsrValue, n: nat)
    requires TimesPositive(a) && a.stage == Release && a.step >= 0.0
    requires n >= 1 && a.amplitude - n as real * a.step <= MinAmplitude
    ensures NextN(a, n).stage == Idle && NextN(a, n).amplitude == 0.0
    decreases n
  {
    var next := Next(a);
    assert NextN(a, n) == NextN(next, n - 1);
    MulSucc(n, a.step);
    if next.stage == Idle {
      IdleStaysIdle(next, n - 1);
    } else {
      ReleaseEnds(next, n - 1);
    }
  }

  /**
   * `note_off` finishes within the release time: after any n >= 1 samples
   * with n >= release time * sample rate the generator is idle and silent.
   */
  lemma NoteOffFinishes(a: AdsrValue, n: nat)
    requires InRange(a) && a.stage != Idle
    requires n >= 1 && n as real >= a.releaseTime * a.sampleRate
    ensures NextN(NoteOff(a), n).stage == Idle && NextN(NoteOff(a), n).amplitude == 0.0
  {
    var r := NoteOff(a);
    CoversDelta(n, r.step, a.releaseTime * a.sampleRate, a.amplitude);
    ReleaseEnds(r, n);
  }

  /** n steps of size s cover delta once n reaches the t samples s * t == delta spans. */
  lemma CoversDelta(n: nat, s: real, t: real, delta: real)
    requires t > 0.0 && s >= 0.0 && s * t == delta && n as real >= t
    ensures n as real * s >= delta
  {
    assert n as real * s >= t * s;
  }

  /** Once past the attack, without a release the generator only decays or sustains. */
  lemma {:induction false} DecayStaysOn(a: AdsrValue, n: nat)
    requires TimesPositive(a) && PastAttack(a.stage)
    ensures PastAttack(NextN(a, n).stage)
    decreases n
  {
    if n > 0 {
      DecayStaysOn(Next(a), n - 1);
    }
  }

  /**
   * An attack with step s is past its peak within n samples once n * s
   * covers the distance to the peak.
   */
  lemma {:induction false} AttackPeaks(a: AdsrValue, n: nat)
    requires TimesPositive(a) && a.stage == Attack && a.step >= 0.0
    requires n >= 1 && a.amplitude + n as real * a.step >= a.peak
    ensures PastAttack(NextN(a, n).stage)
    decreases n
  {
    var next := Next(a);
    assert NextN(a, n) == NextN(next, n - 1);
    MulSucc(n, a.step);
    if next.stage == Decay {
      DecayStaysOn(next, n - 1);
    } else {
      AttackPeaks(next, n - 1);
    }
  }

  /**
   * `note_on_with_velocity` reaches the velocity peak within the attack
   * time: after any n >= 1 samples with n >= attack time * sample rate the
   * generator is decaying or sustaining.
   */
  lemma NoteOnPeaks(a: AdsrValue, velocity: real, n: nat)
    requires TimesPositive(a)
    requires n >= 1 && n as real >= a.attackTime * a.sampleRate
    ensures PastAttack(NextN(NoteOnWithVelocity(a, velocity), n).stage)
  {
    var r := NoteOnWithVelocity(a, velocity);
    PositiveProduct(a.attackTime, a.sampleRate);
    CoversDelta(n, r.step, a.attackTime * a.sampleRate, r.peak);
    AttackPeaks(r, n);
  }

  /**
   * A decay with step s settles within n samples once n * s brings the
   * amplitude down to peak * sustain: it then sustains at that level.
   */
  lemma {:induction false} DecaySettles(a: AdsrValue, n: nat)
    requires TimesPositive(a) && a.stage == Decay && a.step >= 0.0
    requires n >= 1 && a.amplitude - n as real * a.step <= a.peak * a.sustainLevel
    ensures NextN(a, n).stage == Sustain && NextN(a, n).amplitude == a.peak * a.sustainLevel
    decreases n
  {
    var next := Next(a);
    assert NextN(a, n) == NextN(next, n - 1);
    DecayStep(a, n);
    if next.stage == Sustain {
      SustainHolds(next, n - 1);
      assert NextN(next, n - 1) == next;
    } else {
      DecaySettles(next, n - 1);
    }
  }

  /** One sample of a decay that has not settled yet keeps the rest of the decay in reach. */
  lemma DecayStep(a: AdsrValue, n: nat)
    requires TimesPositive(a) && a.stage == Decay && a.step >= 0.0
    requires n >= 1 && a.amplitude - n as real * a.step <= a.peak * a.sustainLevel
    ensures var next := Next(a);
            && next.peak == a.peak && next.sustainLevel == a.sustainLevel
            && (next.stage == Sustain ==> next.amplitude == a.peak * a.sustainLevel)
            && (next.stage == Decay ==> n >= 2 && next.step == a.step)
            && (next.stage == Decay ==> next.amplitude - (n - 1) as real * next.step <= next.peak * next.sustainLevel)
  {
    MulSucc(n, a.step);
    if n == 1 {
      assert (n - 1) as real * a.step == 0.0;
    }
  }

  /** Sustain holds its amplitude for any number of samples. */
  lemma {:induction false} SustainHolds(a: AdsrValue, n: nat)
    requires TimesPositive(a) && a.stage == Sustain
    ensures NextN(a, n) == a
    decreases n
  {
    if n > 0 {
      SustainHolds(Next(a), n - 1);
    }
  }

  /** The `ADSR` struct, updated in place. */
  class Adsr {
    var stage: Stage
    const sampleRate: real
    var attackTime: real
    var decayTime: real
    var sustainLevel: real
    var releaseTime: real
    var amplitude: real
    var step: real
    var peak: real

    function Value(): AdsrValue
      reads this
    {
      AdsrValue(stage, sampleRate, attackTime, decayTime, sustainLevel, releaseTime, amplitude, step, peak)
    }

    constructor (sampleRate: real)
      requires sampleRate > 0.0
      ensures Value() == NewAdsr(sampleRate)
    {
      this.sampleRate := sampleRate;
      stage := Idle;
      attackTime := 0.01;
      decayTime := 0.1;
      sustainLevel := 0.8;
      releaseTime := 0.05;
      amplitude := 0.0;
      step := 0.0;
      peak := 1.0;
    }

    method SetParams(attack: real, decay: real, sustain: real, release: real)
      requires sampleRate > 0.0 && attack > 0.0 && decay > 0.0 && release > 0.0
      modifies this
      ensures Value() == WithParams(old(Value()), attack, decay, sustain, release)
    {
      attackTime := attack;
      decayTime := decay;
      sustainLevel := sustain;
      releaseTime := release;
    }

    method ResetState()
      modifies this
      ensures Value() == Reset(old(Value()))
    {
      stage := Idle;
      amplitude := 0.0;
      step := 0.0;
      peak := 1.0;
    }

    method NoteOnFull()
      requires TimesPositive(Value())
      modifies this
      ensures Value() == NoteOn(old(Value()))
    {
      peak := 1.0;
      stage := Attack;
      step := StepFor(peak, attackTime, sampleRate);
    }

    method NoteOnVelocity(velocity: real)
      requires TimesPositive(Value())
      modifies this
      ensures Value() == NoteOnWithVelocity(old(Value()), velocity)
    {
      peak := Clamp01(velocity);
      amplitude := 0.0;
      stage := Attack;
      step := StepFor(peak, attackTime, sampleRate);
    }

    method Release()
      requires TimesPositive(Value())
      modifies this
      ensures Value() == NoteOff(old(Value()))
    {
      if stage != Idle {
        stage := Stage.Release;
        step := StepFor(amplitude, releaseTime, sampleRate);
      }
    }

    method NextSample() returns (sample: real)
      requires TimesPositive(Value())
      modifies this
      ensures Value() == Next(old(Value())) && sample == amplitude
    {
      match stage {
        case Idle =>
          amplitude := 0.0;
        case Attack =>
          amplitude := amplitude + step;
          if amplitude >= peak {
            amplitude := peak;
            stage := Decay;
            step := StepFor(peak - peak * sustainLevel, decayTime, sampleRate);
          }
        case Decay =>
          amplitude := amplitude - step;
          var target := peak * sustainLevel;
          if amplitude <= target {
            amplitude := target;
            stage := Sustain;
          }
        case Sustain =>
        case Release =>
          amplitude := amplitude - step;
          if amplitude <= MinAmplitude {
            amplitude := 0.0;
            stage := Idle;
          }
      }
      sample := amplitude;
    }

    predicate Finished()
      reads this
    {
      stage == Idle
    }
  }
}
