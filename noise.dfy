// Model of audio_backend/src/instruments/synth_nodes/drums/noise_generator.rs:
// white noise from a 32-bit xorshift generator. The state is a `bv32`, so
// the shifts drop the bits they push out, as the source's `u32` shifts do.
module Noise {
  import opened Wrappers

  /** The seed `Default` uses. */
  const DefaultSeed: bv32 := 0x1234_5678

  /** The three steps of the update: the state xored with itself shifted. */
  function MixLeft13(x: bv32): bv32 { x ^ (x << 13) }
  function MixRight17(x: bv32): bv32 { x ^ (x >> 17) }
  function MixLeft5(x: bv32): bv32 { x ^ (x << 5) }

  /** One xorshift update: shift left 13, right 17, left 5, each xored back in. */
  function Xorshift(x: bv32): bv32
  {
    MixLeft5(MixRight17(MixLeft13(x)))
  }

  /** The sample for a state: its low byte, scaled to [-1, 127/128]. */
  function SampleOf(state: bv32): (s: real)
    ensures -1.0 <= s <= 127.0 / 128.0
  {
    ((state & 0xFF) as int) as real / 128.0 - 1.0
  }

  /** The states after each of n updates from `seed`, in order. */
  function States(seed: bv32, n: nat): (r: seq<bv32>)
    ensures |r| == n
    ensures n > 0 ==> r[0] == Xorshift(seed)
    decreases n
  {
    if n == 0 then [] else [Xorshift(seed)] + States(Xorshift(seed), n - 1)
  }

  /** The samples `process` writes into a buffer of n slots. */
  function Samples(seed: bv32, n: nat): (r: seq<real>)
    ensures |r| == n
    ensures forall i :: 0 <= i < n ==> r[i] == SampleOf(States(seed, n)[i])
  {
    var st := States(seed, n);
    seq(n, i requires 0 <= i < n => SampleOf(st[i]))
  }

  /** Zero is a fixed point of the update: a zero seed would give constant -1. */
  lemma ZeroIsFixed()
    ensures Xorshift(0) == 0 && SampleOf(0) == -1.0
  {
  }

  /** From a non-zero state the update never reaches zero. */
  lemma NonzeroStaysNonzero(x: bv32)
    requires x != 0
    ensures Xorshift(x) != 0
  {
  }

  /** Every state reached from a non-zero seed, such as the default one, is non-zero. */
  lemma {:induction false} NonzeroSeedNeverStalls(seed: bv32, n: nat)
    requires seed != 0
    ensures forall i :: 0 <= i < n ==> States(seed, n)[i] != 0
    decreases n
  {
    if n > 0 {
      NonzeroStaysNonzero(seed);
      NonzeroSeedNeverStalls(Xorshift(seed), n - 1);
    }
  }

  /** Every sample lies in [-1, 127/128]. */
  lemma SamplesInRange(seed: bv32, n: nat)
    ensures forall i :: 0 <= i < n ==> -1.0 <= Samples(seed, n)[i] <= 127.0 / 128.0
  {
  }

  /** The `NoiseGenerator` struct. */
  class NoiseGenerator {
    var state: bv32

    /** `new`: the state is the seed. */
    constructor (seed: bv32)
      ensures state == seed
    {
      state := seed;
    }

    /** `default`: the non-zero seed 0x12345678. */
    constructor Default()
      ensures state == DefaultSeed && state != 0
    {
      state := DefaultSeed;
    }

    /** `next_sample`: one update, then the new state's sample. */
    method NextSample() returns (s: real)
      modifies this
      ensures state == Xorshift(old(state))
      ensures s == SampleOf(state)
    {
      state := MixLeft13(state);
      state := MixRight17(state);
      state := MixLeft5(state);
      var low := state & 0xFF;
      s := (low as int) as real / 128.0 - 1.0;
    }

    /** `process`: every slot of the buffer receives a fresh sample, in order. */
    method Process(buf: array<real>)
      modifies this, buf
      ensures buf[..] == Samples(old(state), buf.Length)
      ensures buf.Length > 0 ==> state == States(old(state), buf.Length)[buf.Length - 1]
      ensures buf.Length == 0 ==> state == old(state)
    {
      var i := 0;
      while i < buf.Length
        invariant 0 <= i <= buf.Length
        invariant buf[..i] == Samples(old(state), i)
        invariant i > 0 ==> state == States(old(state), i)[i - 1]
        invariant i == 0 ==> state == old(state)
      {
        StatesSnoc(old(state), i);
        var s := NextSample();
        buf[i] := s;
        assert buf[..i + 1] == buf[..i] + [s];
        i := i + 1;
      }
      assert buf[..i] == buf[..];
    }

    /** `note_on`: ignored by noise. */
    method NoteOn(note: Byte, velocity: Byte)
      modifies this
      ensures state == old(state)
    {
    }

    /** `note_off`: ignored by noise. */
    method NoteOff()
      modifies this
      ensures state == old(state)
    {
    }

    /** `is_active`: noise never stops. */
    method IsActive() returns (active: bool)
      ensures active
    {
      return true;
    }
  }

  /** One more update extends the state sequence by the next state. */
  lemma {:induction false} StatesSnoc(seed: bv32, n: nat)
    ensures States(seed, n + 1) == States(seed, n) + [Xorshift(if n == 0 then seed else States(seed, n)[n - 1])]
    decreases n
  {
    if n > 0 {
      StatesSnoc(Xorshift(seed), n - 1);
    }
  }
}
