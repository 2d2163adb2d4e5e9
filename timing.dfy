// Model of sequencer/src/timing/mod.rs: converting sample counts into
// sequencer ticks.
module Timing {
  import opened Arith

  /** 2500 ms per beat divided by the BPM gives the tick length in seconds. */
  const BpmToTickDurationSecondsFactor: real := 2.5
  /** 125 BPM with 6 ticks per line recreates the Amiga's 50 Hz timing. */
  const InitialBpm: real := 125.0
  const InitialTpl: nat := 6

  /** Tick length in samples for a tempo, as `set_bpm` computes it. */
  function TickDuration(bpm: real, sampleRate: real): (d: real)
    requires bpm > 0.0 && sampleRate > 0.0
    ensures d > 0.0
  {
    BpmToTickDurationSecondsFactor / bpm * sampleRate
  }

  /** A tick lasts 2.5 seconds divided by the tempo: tick length times BPM is 2.5 seconds of samples. */
  lemma TickDurationTimesBpm(bpm: real, sampleRate: real)
    requires bpm > 0.0 && sampleRate > 0.0
    ensures TickDuration(bpm, sampleRate) * bpm == BpmToTickDurationSecondsFactor * sampleRate
  {
    var q := BpmToTickDurationSecondsFactor / bpm;
    assert q * bpm == BpmToTickDurationSecondsFactor;
    assert q * sampleRate * bpm == q * bpm * sampleRate;
  }

  /** Termination measure of the countdown loop: whole ticks still owed. */
  function Owed(s: real, d: real): nat
    requires d > 0.0
  {
    if s > 0.0 then 0 else (-s / d).Floor + 1
  }

  lemma OwedDecreases(s: real, d: real)
    requires d > 0.0 && s <= 0.0
    ensures Owed(s + d, d) < Owed(s, d)
  {
    if s + d <= 0.0 {
      ShiftQuotient(s, d);
    }
  }

  lemma ShiftQuotient(s: real, d: real)
    requires d > 0.0
    ensures -(s + d) / d == -s / d - 1.0
  {
    assert -(s + d) / d == (-s) / d + (-d) / d;
    assert (-d) / d == -1.0;
  }

  lemma MulSplit(m: nat, n: nat, d: real)
    ensures (m + n) as real * d == m as real * d + n as real * d
  {
  }

  /**
   * Number of tick durations that must be added to a countdown `s` before it
   * becomes positive: the number of tick boundaries that have been crossed.
   */
  function Ticks(s: real, d: real): nat
    requires d > 0.0
    decreases Owed(s, d)
  {
    if s > 0.0 then 0 else OwedDecreases(s, d); 1 + Ticks(s + d, d)
  }

  /** Ticks(s, d) is the least k with s + k*d > 0. */
  ghost predicate IsLeastTicks(s: real, d: real, k: nat)
  {
    s + k as real * d > 0.0 && (k > 0 ==> s + (k - 1) as real * d <= 0.0)
  }

  lemma {:induction false} TicksIsLeast(s: real, d: real)
    requires d > 0.0
    ensures IsLeastTicks(s, d, Ticks(s, d))
    decreases Owed(s, d)
  {
    if s <= 0.0 {
      OwedDecreases(s, d);
      TicksIsLeast(s + d, d);
      var k := Ticks(s + d, d);
      assert s + (k + 1) as real * d == (s + d) + k as real * d;
      if k > 0 {
        assert s + k as real * d == (s + d) + (k - 1) as real * d;
      }
    }
  }

  lemma NotLeastBelow(s: real, d: real, k: nat, t: nat)
    requires d > 0.0 && k < t
    requires IsLeastTicks(s, d, k)
    ensures !IsLeastTicks(s, d, t)
  {
    var pk := k as real * d;
    var pt := (t - 1) as real * d;
    RealMulMono(k, t - 1, d);
    assert pk <= pt;
  }

  /** Only one k is least, so any witness of IsLeastTicks is Ticks. */
  lemma TicksUnique(s: real, d: real, k: nat)
    requires d > 0.0 && IsLeastTicks(s, d, k)
    ensures k == Ticks(s, d)
  {
    TicksIsLeast(s, d);
    var t := Ticks(s, d);
    if k < t {
      NotLeastBelow(s, d, k, t);
    } else if t < k {
      NotLeastBelow(s, d, t, k);
    }
  }

  /** Crossing k1 boundaries and then k2 more is crossing k1 + k2 from the start. */
  lemma AccumulateLeast(u: real, d: real, b: real, k1: nat, k2: nat)
    requires d > 0.0 && b >= 0.0
    requires IsLeastTicks(u, d, k1)
    requires IsLeastTicks(u + k1 as real * d - b, d, k2)
    ensures IsLeastTicks(u - b, d, k1 + k2)
  {
    MulSplit(k1, k2, d);
    if k2 > 0 {
      MulSplit(k1, k2 - 1, d);
    } else if k1 > 0 {
      assert u - b + (k1 + k2 - 1) as real * d <= u + (k1 - 1) as real * d;
    }
  }

  /**
   * Two advances in a row cross as many tick boundaries as one advance by the
   * sum of their sample counts: small advances accumulate.
   */
  lemma AdvanceAccumulates(s: real, d: real, a: nat, b: nat)
    requires d > 0.0
    ensures var u := s - a as real;
            var k1 := Ticks(u, d);
            k1 + Ticks(u + k1 as real * d - b as real, d) == Ticks(u - b as real, d)
  {
    var u := s - a as real;
    var k1 := Ticks(u, d);
    var v := u + k1 as real * d - b as real;
    var k2 := Ticks(v, d);
    TicksIsLeast(u, d);
    TicksIsLeast(v, d);
    AccumulateLeast(u, d, b as real, k1, k2);
    TicksUnique(u - b as real, d, k1 + k2);
    assert k1 + k2 == Ticks(u - b as real, d);
  }

  /**
   * AdvanceAccumulates with the countdown left by the first advance named,
   * as a caller of two advances in a row sees it.
   */
  lemma CarriedAccumulates(s: real, d: real, a: nat, b: nat, k1: nat, s1: real)
    requires d > 0.0 && k1 == Ticks(s - a as real, d) && s1 == s - a as real + k1 as real * d
    ensures k1 + Ticks(s1 - b as real, d) == Ticks(s - (a + b) as real, d)
  {
    var u := s - a as real;
    var k2 := Ticks(s1 - b as real, d);
    TicksIsLeast(u, d);
    TicksIsLeast(s1 - b as real, d);
    assert s1 - b as real == u + k1 as real * d - b as real;
    AccumulateLeast(u, d, b as real, k1, k2);
    assert s - (a + b) as real == u - b as real;
    TicksUnique(s - (a + b) as real, d, k1 + k2);
  }

  /** The sequencer's clock: tempo, ticks per line and the sample countdown. */
  class TimingState {
    var sampleRate: real
    var bpm: real
    var tpl: nat
    var tickDurationSamples: real
    var samplesUntilNextTick: real

    ghost predicate Valid()
      reads this
    {
      sampleRate > 0.0 && bpm > 0.0
      && tickDurationSamples == TickDuration(bpm, sampleRate)
      && samplesUntilNextTick > 0.0
    }

    /** `new_with_bpm_tpl`: stores tpl, then sets the tempo through SetBpm. */
    constructor NewWithBpmTpl(sampleRate: real, initialBpm: real, initialTpl: nat)
      requires sampleRate > 0.0 && initialBpm > 0.0
      ensures Valid()
      ensures this.sampleRate == sampleRate && bpm == initialBpm && tpl == initialTpl
      ensures samplesUntilNextTick == tickDurationSamples
    {
      this.sampleRate := sampleRate;
      bpm := initialBpm;
      tpl := initialTpl;
      tickDurationSamples := TickDuration(initialBpm, sampleRate);
      samplesUntilNextTick := tickDurationSamples;
    }

    /** `new`: the Amiga defaults. */
    constructor New(sampleRate: real)
      requires sampleRate > 0.0
      ensures Valid()
      ensures this.sampleRate == sampleRate && bpm == InitialBpm && tpl == InitialTpl
      ensures samplesUntilNextTick == tickDurationSamples
    {
      this.sampleRate := sampleRate;
      bpm := InitialBpm;
      tpl := InitialTpl;
      tickDurationSamples := TickDuration(InitialBpm, sampleRate);
      samplesUntilNextTick := tickDurationSamples;
    }

    /**
     * Counts down `numSamples` and returns how many tick boundaries were
     * crossed; the countdown is refilled by one tick length per boundary.
     */
    method Advance(numSamples: nat) returns (ticks: nat)
      requires Valid()
      modifies this`samplesUntilNextTick
      ensures Valid()
      ensures ticks == Ticks(old(samplesUntilNextTick) - numSamples as real, tickDurationSamples)
      ensures samplesUntilNextTick
              == old(samplesUntilNextTick) - numSamples as real + ticks as real * tickDurationSamples
    {
      var d := tickDurationSamples;
      var remaining := samplesUntilNextTick - numSamples as real;
      ghost var start := remaining;
      ticks := 0;
      while remaining <= 0.0
        invariant remaining == start + ticks as real * d
        invariant ticks + Ticks(remaining, d) == Ticks(start, d)
        decreases Owed(remaining, d)
      {
        OwedDecreases(remaining, d);
        MulSplit(ticks, 1, d);
        ticks := ticks + 1;
        remaining := remaining + d;
      }
      samplesUntilNextTick := remaining;
    }

    /** Sets a new tempo, recomputes the tick length and restarts the countdown. */
    method SetBpm(newBpm: real)
      requires Valid() && newBpm > 0.0
      modifies this
      ensures Valid()
      ensures bpm == newBpm && sampleRate == old(sampleRate) && tpl == old(tpl)
      ensures samplesUntilNextTick == tickDurationSamples
    {
      bpm := newBpm;
      tickDurationSamples := TickDuration(bpm, sampleRate);
      samplesUntilNextTick := tickDurationSamples;
    }

    /** Sets the number of ticks per line; nothing else changes. */
    method SetTpl(newTpl: nat)
      requires Valid()
      modifies this`tpl
      ensures Valid() && tpl == newTpl
    {
      tpl := newTpl;
    }
  }

  /**
   * The behaviour the source's unit tests pin down, at 48 kHz and 125 BPM
   * (960 samples per tick): 959 samples cross no boundary, one more crosses
   * one, and 1920 further samples cross two.
   */
  lemma AdvanceScenario()
    ensures TickDuration(InitialBpm, 48000.0) == 960.0
    ensures Ticks(960.0 - 959.0, 960.0) == 0
    ensures Ticks(1.0 - 1.0, 960.0) == 1
    ensures Ticks(960.0 - 1920.0, 960.0) == 2
  {
    assert IsLeastTicks(0.0, 960.0, 1);
    TicksUnique(0.0, 960.0, 1);
    assert IsLeastTicks(-960.0, 960.0, 2);
    TicksUnique(-960.0, 960.0, 2);
  }

  /**
   * After a tempo change the countdown is a full new tick: 479 samples at
   * 250 BPM and 48 kHz (480 samples per tick) cross nothing, the next one does.
   */
  lemma BpmChangeScenario()
    ensures TickDuration(250.0, 48000.0) == 480.0
    ensures Ticks(480.0 - 479.0, 480.0) == 0
    ensures Ticks(1.0 - 1.0, 480.0) == 1
  {
    assert IsLeastTicks(0.0, 480.0, 1);
    TicksUnique(0.0, 480.0, 1);
  }

  /** Ten advances of 100 samples: nothing for nine of them, a tick on the tenth. */
  lemma SmallAdvancesScenario()
    ensures forall i :: 1 <= i <= 9 ==> Ticks(960.0 - (i * 100) as real, 960.0) == 0
    ensures Ticks(960.0 - 1000.0, 960.0) == 1
  {
    assert IsLeastTicks(-40.0, 960.0, 1);
    TicksUnique(-40.0, 960.0, 1);
  }
}
