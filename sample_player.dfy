// Model of audio_backend/src/instruments/synth_nodes/sample_player_node.rs:
// a one-shot sample player that reads a mono or stereo sample buffer at a
// fractional position, interpolating linearly between neighbouring frames.
// f32 and f64 are both modelled as reals.
module SamplePlayer {
  import opened Wrappers
  import opened Arith

  /** The sample a node plays: interleaved data, its channel count and sample rate. */
  datatype SampleData = SampleData(data: seq<real>, channels: nat, sampleRate: real)

  /** `data.get(i).unwrap_or(0.0)`. */
  function At(data: seq<real>, i: nat): (r: real)
    ensures i < |data| ==> r == data[i]
    ensures i >= |data| ==> r == 0.0
  {
    if i < |data| then data[i] else 0.0
  }

  /** `get_mono_sample_at`: a stereo frame is the mean of its two channels; past the end reads 0. */
  function MonoSampleAt(s: SampleData, index: nat): (r: real)
    ensures s.channels > 1 && 2 * index + 1 < |s.data| ==> r == (s.data[2 * index] + s.data[2 * index + 1]) * 0.5
    ensures s.channels > 1 && 2 * index >= |s.data| ==> r == 0.0
    ensures s.channels <= 1 && index < |s.data| ==> r == s.data[index]
    ensures s.channels <= 1 && index >= |s.data| ==> r == 0.0
  {
    if s.channels > 1 then (At(s.data, index * 2) + At(s.data, index * 2 + 1)) * 0.5
    else At(s.data, index)
  }

  /** The number of frames in the buffer: half the data for stereo, all of it for mono. */
  function FrameCount(s: SampleData): (n: nat)
    ensures s.channels > 1 ==> 2 * n <= |s.data| < 2 * n + 2
    ensures s.channels <= 1 ==> n == |s.data|
  {
    if s.channels > 1 then |s.data| / 2 else |s.data|
  }

  /** Every frame index below the frame count reads real data on every channel it mixes. */
  lemma FramesInBounds(s: SampleData, index: nat)
    requires index < FrameCount(s)
    ensures s.channels > 1 ==> 2 * index + 1 < |s.data|
    ensures s.channels <= 1 ==> index < |s.data|
  {
  }

  /** The playback state a node changes: position, whether it plays, and its rate. */
  datatype PlayState = PlayState(position: real, isPlaying: bool, playbackRate: real)

  /** `is_active`: playing, with the position still inside the buffer. */
  predicate IsActive(s: SampleData, p: PlayState)
  {
    p.isPlaying && p.position < FrameCount(s) as real
  }

  /** `index_floor as usize`: negative positions saturate at 0. */
  function FloorIndex(x: real): (n: nat)
    ensures x >= 0.0 ==> n as real <= x < n as real + 1.0
    ensures x < 0.0 ==> n == 0
  {
    if x < 0.0 then 0 else x.Floor
  }

  /** Linear interpolation from `a` to `b` by `t`. */
  function Lerp(a: real, b: real, t: real): (r: real)
    ensures t == 0.0 ==> r == a
    ensures t == 1.0 ==> r == b
  {
    a * (1.0 - t) + b * t
  }

  /** With a fraction in [0, 1], interpolation stays between the two samples. */
  lemma LerpBetween(a: real, b: real, t: real)
    requires 0.0 <= t <= 1.0
    ensures a <= b ==> a <= Lerp(a, b, t) <= b
    ensures b <= a ==> b <= Lerp(a, b, t) <= a
  {
    assert Lerp(a, b, t) == a + (b - a) * t;
    ScaleWithin(b - a, t);
  }

  lemma ScaleWithin(d: real, t: real)
    requires 0.0 <= t <= 1.0
    ensures d >= 0.0 ==> 0.0 <= d * t <= d
    ensures d <= 0.0 ==> d <= d * t <= 0.0
  {
    assert d - d * t == d * (1.0 - t);
  }

  /** An active node's output lies between the two frames it interpolates. */
  lemma InterpolatedBetween(s: SampleData, position: real)
    ensures var i := FloorIndex(position.Floor as real);
            var a, b := MonoSampleAt(s, i), MonoSampleAt(s, i + 1);
            (a <= b ==> a <= Interpolated(s, position) <= b) && (b <= a ==> b <= Interpolated(s, position) <= a)
  {
    LerpBetween(MonoSampleAt(s, FloorIndex(position.Floor as real)), MonoSampleAt(s, FloorIndex(position.Floor as real) + 1),
                position - position.Floor as real);
  }

  /** The interpolated sample at a position: between its frame and the next, by the fraction. */
  function Interpolated(s: SampleData, position: real): real
  {
    var fraction := position - position.Floor as real;
    var i := FloorIndex(position.Floor as real);
    Lerp(MonoSampleAt(s, i), MonoSampleAt(s, i + 1), fraction)
  }

  /** One output sample: silence when inactive, otherwise the interpolated sample and a step forward. */
  function Step(s: SampleData, p: PlayState): (r: (PlayState, real))
    ensures !IsActive(s, p) ==> r == (p, 0.0)
    ensures IsActive(s, p) ==> r.0 == p.(position := p.position + p.playbackRate) && r.1 == Interpolated(s, p.position)
  {
    if !IsActive(s, p) then (p, 0.0)
    else (p.(position := p.position + p.playbackRate), Interpolated(s, p.position))
  }

  /** `process` over n output samples. */
  function Run(s: SampleData, p: PlayState, n: nat): (r: (PlayState, seq<real>))
    ensures |r.1| == n
    ensures r.0.isPlaying == p.isPlaying && r.0.playbackRate == p.playbackRate
    decreases n
  {
    if n == 0 then (p, [])
    else
      var (p1, out) := Run(s, p, n - 1);
      var (p2, y) := Step(s, p1);
      (p2, out + [y])
  }

  /** An inactive node stays where it is and writes silence into every slot. */
  lemma {:induction false} InactiveIsSilent(s: SampleData, p: PlayState, n: nat)
    requires !IsActive(s, p)
    ensures Run(s, p, n).0 == p
    ensures forall i :: 0 <= i < n ==> Run(s, p, n).1[i] == 0.0
    decreases n
  {
    if n > 0 {
      InactiveIsSilent(s, p, n - 1);
    }
  }

  /**
   * Playing forward, the node stops at the end of the buffer: the position
   * never moves back, an inactive node stays inactive, and at a positive
   * rate the node is inactive after any n samples with n * rate reaching
   * from the start position to the frame count.
   */
  lemma {:induction false} ForwardPlayEnds(s: SampleData, p: PlayState, n: nat)
    requires p.playbackRate >= 0.0
    ensures Run(s, p, n).0.position >= p.position
    ensures !IsActive(s, p) ==> !IsActive(s, Run(s, p, n).0)
    ensures p.playbackRate > 0.0 && p.position + n as real * p.playbackRate >= FrameCount(s) as real ==>
              !IsActive(s, Run(s, p, n).0)
    decreases n
  {
    ActivePosition(s, p, n);
    if n > 0 {
      ForwardPlayEnds(s, p, n - 1);
    }
  }

  /** While the node is still active, each of the n samples has moved it on by the rate. */
  lemma {:induction false} ActivePosition(s: SampleData, p: PlayState, n: nat)
    ensures IsActive(s, Run(s, p, n).0) ==> Run(s, p, n).0.position == p.position + n as real * p.playbackRate
  {
    ActiveMoved(s, p, n);
    Moved(p.position, p.playbackRate, n);
  }

  /** A position x moved on n times by r. */
  function MovedBy(x: real, r: real, n: nat): real
  {
    if n == 0 then x else MovedBy(x, r, n - 1) + r
  }

  /** Moving on n times by r is moving on by n * r. */
  lemma {:induction false} Moved(x: real, r: real, n: nat)
    ensures MovedBy(x, r, n) == x + n as real * r
  {
    if n > 0 {
      Moved(x, r, n - 1);
      MulSucc(n, r);
    }
  }

  /** While the node is still active, every sample so far has moved it on by the rate. */
  lemma {:induction false} ActiveMoved(s: SampleData, p: PlayState, n: nat)
    ensures IsActive(s, Run(s, p, n).0) ==> Run(s, p, n).0.position == MovedBy(p.position, p.playbackRate, n)
  {
    if n > 0 {
      ActiveMoved(s, p, n - 1);
      RunLast(s, p, n);
      ActiveStep(s, Run(s, p, n - 1).0, MovedBy(p.position, p.playbackRate, n - 1));
    }
  }

  /** The last of n samples is one step from the first n - 1. */
  lemma RunLast(s: SampleData, p: PlayState, n: nat)
    requires n > 0
    ensures Run(s, p, n).0 == Step(s, Run(s, p, n - 1).0).0
  {
  }

  /** A step that leaves an active node at x active moves it on to x plus the rate. */
  lemma ActiveStep(s: SampleData, p: PlayState, x: real)
    requires IsActive(s, p) ==> p.position == x
    ensures IsActive(s, Step(s, p).0) ==> Step(s, p).0.position == x + p.playbackRate
  {
  }

  /** The `SamplePlayerNode` struct. */
  class SamplePlayerNode {
    const sample: SampleData
    const outputSampleRate: real
    var position: real
    var isPlaying: bool
    var playbackRate: real
    const baseNote: Byte

    function State(): PlayState
      reads this
    {
      PlayState(position, isPlaying, playbackRate)
    }

    /** `new`: at the start, stopped, at rate 1, tuned to middle C (note 60). */
    constructor (sample: SampleData, outputSampleRate: real)
      ensures this.sample == sample && this.outputSampleRate == outputSampleRate
      ensures State() == PlayState(0.0, false, 1.0) && baseNote == 60
      ensures !IsActive(sample, State())
    {
      this.sample := sample;
      this.outputSampleRate := outputSampleRate;
      position := 0.0;
      isPlaying := false;
      playbackRate := 1.0;
      baseNote := 60;
    }

    /** `is_active`. */
    method Active() returns (active: bool)
      ensures active <==> isPlaying && position < FrameCount(sample) as real
    {
      var frames := if sample.channels > 1 then |sample.data| / 2 else |sample.data|;
      active := isPlaying && position < frames as real;
    }

    /**
     * `note_on`: the rate corrects for the sample rate and shifts the pitch
     * by `pitchShift` (2 to the power of the note's semitones from the base
     * note, over 12); playback restarts from the beginning.
     */
    method NoteOn(note: Byte, velocity: Byte, pitchShift: real)
      requires outputSampleRate != 0.0
      modifies this`position, this`isPlaying, this`playbackRate
      ensures playbackRate == sample.sampleRate / outputSampleRate * pitchShift
      ensures position == 0.0 && isPlaying
      ensures FrameCount(sample) > 0 ==> IsActive(sample, State())
    {
      var srCorrection := sample.sampleRate / outputSampleRate;
      playbackRate := srCorrection * pitchShift;
      position := 0.0;
      isPlaying := true;
    }

    /** `note_off`: a one-shot sample plays out, so nothing changes. */
    method NoteOff()
      modifies this
      ensures State() == old(State())
    {
    }

    /** `process`: each output slot gets the next sample of `Run`, in order. */
    method Process(buf: array<real>)
      modifies this`position, buf
      ensures (State(), buf[..]) == Run(sample, old(State()), buf.Length)
    {
      var i := 0;
      while i < buf.Length
        invariant 0 <= i <= buf.Length
        invariant State() == Run(sample, old(State()), i).0
        invariant buf[..i] == Run(sample, old(State()), i).1
      {
        var y := NextSample();
        buf[i] := y;
        assert buf[..i + 1] == buf[..i] + [y];
        i := i + 1;
      }
      assert buf[..i] == buf[..];
    }

    /** The body of the `process` loop: one output sample. */
    method NextSample() returns (y: real)
      modifies this`position
      ensures (State(), y) == Step(sample, old(State()))
    {
      var frames := if sample.channels > 1 then |sample.data| / 2 else |sample.data|;
      if !(isPlaying && position < frames as real) {
        y := 0.0;
      } else {
        var indexFloor := position.Floor as real;
        var index0 := FloorIndex(indexFloor);
        var fraction := position - indexFloor;
        var sample0 := MonoSampleAt(sample, index0);
        var sample1 := MonoSampleAt(sample, index0 + 1);
        y := Lerp(sample0, sample1, fraction);
        position := position + playbackRate;
      }
    }
  }
}
