// Model of audio_backend/src/effects/delay.rs: a feedback delay over a ring
// buffer of two seconds of samples. Samples are reals; the f32-to-usize
// casts truncate toward zero and saturate at 0.
module DelayEffect {
  import opened Arith

  /** `x as usize` for a finite f32: truncation toward zero, negatives to 0. */
  function ToUsize(x: real): (n: nat)
    ensures x <= 0.0 ==> n == 0
    ensures x > 0.0 ==> n as real <= x < n as real + 1.0
  {
    if x <= 0.0 then 0 else x.Floor
  }

  function Clamp(x: real, lo: real, hi: real): (r: real)
    requires lo <= hi
    ensures lo <= r <= hi
    ensures lo <= x <= hi ==> r == x
  {
    if x < lo then lo else if x > hi then hi else x
  }

  /** The ring buffer's length: two seconds at the sample rate. */
  function BufferLength(sampleRate: real): nat
  {
    ToUsize(sampleRate * 2.0)
  }

  /** The delay in samples for `delayMs`, at most one less than the buffer length. */
  function DelaySamples(delayMs: real, sampleRate: real, len: nat): (d: nat)
    requires len >= 1
    ensures d < len
    ensures d <= ToUsize(delayMs / 1000.0 * sampleRate)
    ensures ToUsize(delayMs / 1000.0 * sampleRate) < len ==> d == ToUsize(delayMs / 1000.0 * sampleRate)
  {
    MinNat(ToUsize(delayMs / 1000.0 * sampleRate), len - 1)
  }

  /** The fields of one `Delay`. */
  datatype DelayLine = DelayLine(line: seq<real>, writeIndex: nat, delaySamples: nat, feedback: real, mix: real)

  predicate DelayValid(s: DelayLine)
  {
    && |s.line| >= 1
    && s.writeIndex < |s.line|
    && s.delaySamples < |s.line|
    && 0.0 <= s.feedback <= 0.95
    && 0.0 <= s.mix <= 1.0
  }

  /**
   * `Delay::new`: a silent buffer of two seconds, writing at 0, with the
   * delay capped below the buffer length and feedback and mix clamped.
   * A sample rate under half a sample per second leaves no buffer at all,
   * which the source's `max_delay_samples - 1` does not survive.
   */
  function NewDelay(sampleRate: real, delayMs: real, feedback: real, mix: real): (s: DelayLine)
    requires BufferLength(sampleRate) >= 1
    ensures DelayValid(s)
    ensures |s.line| == BufferLength(sampleRate) && forall i :: 0 <= i < |s.line| ==> s.line[i] == 0.0
    ensures s.writeIndex == 0 && s.delaySamples == DelaySamples(delayMs, sampleRate, |s.line|)
    ensures s.feedback == Clamp(feedback, 0.0, 0.95) && s.mix == Clamp(mix, 0.0, 1.0)
  {
    var len := BufferLength(sampleRate);
    DelayLine(seq(len, _ => 0.0), 0, DelaySamples(delayMs, sampleRate, len), Clamp(feedback, 0.0, 0.95), Clamp(mix, 0.0, 1.0))
  }

  /** One step round the ring: an index below twice the length, brought back below it. */
  function Wrap(v: nat, len: nat): (r: nat)
    requires 0 < len && v < 2 * len
    ensures r < len
  {
    if v < len then v else v - len
  }

  /** The slot read for the sample about to be written at `w`: `d` slots behind it. */
  function ReadIndex(w: nat, d: nat, len: nat): (r: nat)
    requires w < len && d < len
    ensures r < len
    ensures Wrap(r + d, len) == w
  {
    Wrap(w + len - d, len)
  }

  /** The sample read back for the next input. */
  function Delayed(s: DelayLine): real
    requires DelayValid(s)
  {
    s.line[ReadIndex(s.writeIndex, s.delaySamples, |s.line|)]
  }

  /** What is written back into the ring: the input plus the fed-back delayed sample. */
  function Feed(x: real, delayed: real, feedback: real): real
  {
    x + delayed * feedback
  }

  /** The output: the dry input and the delayed sample, mixed. */
  function DryWet(x: real, delayed: real, mix: real): real
  {
    x * (1.0 - mix) + delayed * mix
  }

  /**
   * One input sample: read the delayed sample, write the input plus the
   * fed-back delayed sample at the write index, advance the write index
   * round the ring, and output the dry/wet mix.
   */
  function Step(s: DelayLine, x: real): (r: (DelayLine, real))
    requires DelayValid(s)
    ensures DelayValid(r.0)
    ensures r.0.line == s.line[s.writeIndex := Feed(x, Delayed(s), s.feedback)]
    ensures r.0.writeIndex == Wrap(s.writeIndex + 1, |s.line|)
    ensures r.1 == DryWet(x, Delayed(s), s.mix)
    ensures r.0.delaySamples == s.delaySamples && r.0.feedback == s.feedback && r.0.mix == s.mix
  {
    (DelayLine(s.line[s.writeIndex := Feed(x, Delayed(s), s.feedback)], Wrap(s.writeIndex + 1, |s.line|),
               s.delaySamples, s.feedback, s.mix),
     DryWet(x, Delayed(s), s.mix))
  }

  /** `process` over a block: each sample in turn, outputs in order. */
  function Run(s: DelayLine, xs: seq<real>): (r: (DelayLine, seq<real>))
    requires DelayValid(s)
    ensures DelayValid(r.0) && |r.1| == |xs|
    ensures |r.0.line| == |s.line| && r.0.delaySamples == s.delaySamples
    ensures r.0.feedback == s.feedback && r.0.mix == s.mix
    ensures r.0.writeIndex == (s.writeIndex + |xs|) % |s.line|
    ensures |xs| < |s.line| ==> r.0.writeIndex == Wrap(s.writeIndex + |xs|, |s.line|)
    decreases |xs|
  {
    if xs == [] then
      DivModUnique(s.writeIndex, 0, s.writeIndex, |s.line|);
      (s, [])
    else
      var (s1, ys) := Run(s, xs[..|xs| - 1]);
      var (s2, y) := Step(s1, xs[|xs| - 1]);
      ModSucc(s.writeIndex + |xs| - 1, |s.line|);
      if |xs| < |s.line| then SmallMod(s.writeIndex + |xs|, |s.line|); (s2, ys + [y])
      else (s2, ys + [y])
  }

  /** One more input extends a run by one step. */
  lemma RunSnoc(s: DelayLine, xs: seq<real>, x: real)
    requires DelayValid(s)
    ensures Run(s, xs + [x]).0 == Step(Run(s, xs).0, x).0
    ensures Run(s, xs + [x]).1 == Run(s, xs).1 + [Step(Run(s, xs).0, x).1]
  {
    assert (xs + [x])[..|xs + [x]| - 1] == xs;
  }

  /** Counting one further round the ring: the remainder of a + 1 is the next slot after a's. */
  lemma ModSucc(a: nat, len: nat)
    requires 0 < len
    ensures (a + 1) % len == Wrap(a % len + 1, len)
  {
    var q, r := a / len, a % len;
    assert a == q * len + r;
    if r + 1 < len {
      DivModUnique(a + 1, q, r + 1, len);
    } else {
      assert a + 1 == (q + 1) * len + 0;
      DivModUnique(a + 1, q + 1, 0, len);
    }
  }

  /** Below twice the modulus, the remainder takes away the modulus at most once. */
  lemma SmallMod(v: nat, len: nat)
    requires 0 < len && v < 2 * len
    ensures v % len == if v < len then v else v - len
  {
    if v < len {
      DivModUnique(v, 0, v, len);
    } else {
      DivModUnique(v, 1, v - len, len);
    }
  }

  /**
   * The echo: what is written at the start of a block of d samples
   * (1 <= d) is exactly what is read back at its end, d samples later;
   * no write in between touches that slot.
   */
  lemma EchoAfterDelay(s: DelayLine, xs: seq<real>)
    requires DelayValid(s) && s.delaySamples >= 1 && |xs| == s.delaySamples
    ensures Delayed(Run(s, xs).0) == Feed(xs[0], Delayed(s), s.feedback)
  {
    HeldSince(s, xs, |xs|);
    assert xs[..|xs|] == xs;
    var e := Run(s, xs).0;
    assert e.writeIndex == Wrap(s.writeIndex + s.delaySamples, |s.line|);
    assert ReadIndex(e.writeIndex, e.delaySamples, |e.line|) == s.writeIndex;
  }

  /** After the first j samples (1 <= j <= d) the slot written first still holds its value. */
  lemma {:induction false} HeldSince(s: DelayLine, xs: seq<real>, j: nat)
    requires DelayValid(s) && 1 <= j <= |xs| <= s.delaySamples
    ensures Run(s, xs[..j]).0.line[s.writeIndex] == Feed(xs[0], Delayed(s), s.feedback)
    decreases j
  {
    if j == 1 {
      assert xs[..1] == [] + [xs[0]];
      RunSnoc(s, [], xs[0]);
    } else {
      assert xs[..j] == xs[..j - 1] + [xs[j - 1]];
      HeldSince(s, xs, j - 1);
      RunSnoc(s, xs[..j - 1], xs[j - 1]);
    }
  }

  /** The `Delay` struct, with its ring buffer as an array. */
  class Delay {
    const buffer: array<real>
    var writeIndex: nat
    var delaySamples: nat
    var feedback: real
    var mix: real

    function Value(): DelayLine
      reads this, buffer
    {
      DelayLine(buffer[..], writeIndex, delaySamples, feedback, mix)
    }

    constructor (sampleRate: real, delayMs: real, feedback: real, mix: real)
      requires BufferLength(sampleRate) >= 1
      ensures Value() == NewDelay(sampleRate, delayMs, feedback, mix) && fresh(buffer)
    {
      var len := BufferLength(sampleRate);
      buffer := new real[len](_ => 0.0);
      writeIndex := 0;
      delaySamples := MinNat(ToUsize(delayMs / 1000.0 * sampleRate), len - 1);
      this.feedback := Clamp(feedback, 0.0, 0.95);
      this.mix := Clamp(mix, 0.0, 1.0);
    }

    /** `set_delay_ms`: a new delay, capped below the buffer length; nothing else changes. */
    method SetDelayMs(delayMs: real, sampleRate: real)
      requires DelayValid(Value())
      modifies this`delaySamples
      ensures DelayValid(Value())
      ensures delaySamples == DelaySamples(delayMs, sampleRate, buffer.Length)
    {
      delaySamples := ToUsize(delayMs / 1000.0 * sampleRate);
      delaySamples := MinNat(delaySamples, buffer.Length - 1);
    }

    /** `process`: the block is replaced by the delay's outputs, one sample at a time. */
    method Process(block: array<real>)
      requires DelayValid(Value()) && block != buffer
      modifies this`writeIndex, buffer, block
      ensures DelayValid(Value())
      ensures (Value(), block[..]) == Run(old(Value()), old(block[..]))
    {
      ghost var start := Value();
      ghost var input := block[..];
      var i := 0;
      while i < block.Length
        invariant 0 <= i <= block.Length
        invariant DelayValid(Value())
        invariant Value() == Run(start, input[..i]).0
        invariant block[..i] == Run(start, input[..i]).1
        invariant forall j :: i <= j < block.Length ==> block[j] == input[j]
      {
        assert input[..i + 1] == input[..i] + [input[i]];
        RunSnoc(start, input[..i], input[i]);
        var out := ProcessSample(block[i]);
        block[i] := out;
        assert block[..i + 1] == block[..i] + [out];
        i := i + 1;
      }
      assert block[..i] == block[..];
      assert input[..i] == input;
    }

    /** The body of the `process` loop: one sample in, one out. */
    method ProcessSample(x: real) returns (out: real)
      requires DelayValid(Value())
      modifies this`writeIndex, buffer
      ensures DelayValid(Value())
      ensures (Value(), out) == Step(old(Value()), x)
    {
      ghost var before := Value();
      var readIndex := RingIndex(writeIndex + buffer.Length - delaySamples, buffer.Length);
      assert readIndex == ReadIndex(before.writeIndex, before.delaySamples, |before.line|);
      var delayed := buffer[readIndex];
      assert delayed == Delayed(before);
      var fed := Feed(x, delayed, feedback);
      buffer[writeIndex] := fed;
      assert buffer[..] == before.line[before.writeIndex := fed];
      writeIndex := RingIndex(writeIndex + 1, buffer.Length);
      out := DryWet(x, delayed, mix);
      ghost var after := Step(before, x);
      assert Value().line == after.0.line && Value().writeIndex == after.0.writeIndex;
      assert Value() == after.0;
    }

    /** An index taken round the ring with `%`, as the source does. */
    static method RingIndex(v: nat, len: nat) returns (r: nat)
      requires 0 < len && v < 2 * len
      ensures r == Wrap(v, len)
    {
      SmallMod(v, len);
      r := v % len;
    }

    /** `set_parameter`: not implemented, so nothing changes. */
    method SetParameter(index: nat, value: real)
      requires DelayValid(Value())
      modifies this
      ensures Value() == old(Value())
    {
    }
  }
}
