// Model of audio_backend/src/audio_processor/unified.rs in its tracker build:
// the audio callback's processor. For each device buffer it drains every
// queued command into the player, lets the player advance by the block's
// frames, clears its two channel buffers, lets the synthesizer mix into them
// and interleaves them into the device buffer. The player (player.dfy) is
// recorded here by the calls it receives; what the synthesizer mixes in is a
// parameter.
module Unified {
  import opened Arith
  import Player

  /** The capacity of the non-interleaved channel buffers. */
  const MaxBufferSize: nat := 4096

  /** Slot c of frame f in a buffer of `channels`-slot frames. */
  function Slot(f: nat, c: nat, channels: nat): nat
  {
    f * channels + c
  }

  /** Slot c of frame f lies below frame i when f < i. */
  lemma FrameBefore(f: nat, i: nat, c: nat, channels: nat)
    requires f < i && c < channels
    ensures Slot(f, c, channels) < i * channels
  {
    MulMono(f + 1, i, channels);
    assert (f + 1) * channels == f * channels + channels;
  }

  /** The `AudioProcessor` struct, tracker build. */
  class AudioProcessor {
    /** The commands waiting in the ring buffer, oldest first. */
    var pending: seq<Player.TrackerCommand>
    /** The commands handed to `player.handle_command`, in order. */
    var handled: seq<Player.TrackerCommand>
    /** The frame counts handed to `player.process`, in order. */
    var advanced: seq<nat>
    const sampleRate: real
    const channels: nat
    const leftBuf: array<real>
    const rightBuf: array<real>

    predicate Valid()
      reads this
    {
      leftBuf.Length == MaxBufferSize && rightBuf.Length == MaxBufferSize && leftBuf != rightBuf
    }

    /** `new`: two silent buffers of 4096 samples. */
    constructor (pending: seq<Player.TrackerCommand>, sampleRate: real, channels: nat)
      ensures Valid() && fresh(leftBuf) && fresh(rightBuf)
      ensures this.pending == pending && handled == [] && advanced == []
      ensures this.sampleRate == sampleRate && this.channels == channels
      ensures forall i :: 0 <= i < MaxBufferSize ==> leftBuf[i] == 0.0 && rightBuf[i] == 0.0
    {
      this.pending := pending;
      handled := [];
      advanced := [];
      this.sampleRate := sampleRate;
      this.channels := channels;
      leftBuf := new real[MaxBufferSize](_ => 0.0);
      rightBuf := new real[MaxBufferSize](_ => 0.0);
    }

    /**
     * `process`. The device buffer must hold whole frames of at most 4096
     * samples: a partial last frame would index past the channel buffers,
     * and a longer block past their capacity. `mixLeft` and `mixRight` are
     * what the synthesizer adds into the cleared buffers for this block.
     */
    method Process(output: array<real>, mixLeft: seq<real>, mixRight: seq<real>)
      requires Valid() && channels > 0 && output.Length % channels == 0
      requires output.Length / channels <= MaxBufferSize
      requires |mixLeft| == |mixRight| == output.Length / channels
      requires output != leftBuf && output != rightBuf
      modifies this`pending, this`handled, this`advanced, leftBuf, rightBuf, output
      ensures Valid()
      ensures pending == [] && handled == old(handled) + old(pending)
      ensures advanced == old(advanced) + [output.Length / channels]
      ensures leftBuf[..output.Length / channels] == mixLeft && rightBuf[..output.Length / channels] == mixRight
      ensures forall f :: 0 <= f < output.Length / channels ==>
                Slot(f, 0, channels) < output.Length && output[Slot(f, 0, channels)] == mixLeft[f]
      ensures forall f :: 0 <= f < output.Length / channels && channels > 1 ==>
                Slot(f, 1, channels) < output.Length && output[Slot(f, 1, channels)] == mixRight[f]
      ensures forall f, c :: 0 <= f < output.Length / channels && 2 <= c < channels ==>
                Slot(f, c, channels) < output.Length && output[Slot(f, c, channels)] == old(output[Slot(f, c, channels)])
    {
      var frameCount := output.Length / channels;
      assert frameCount * channels == output.Length;
      // 1. Drain the commands into the player, then let it advance.
      DrainCommands();
      advanced := advanced + [frameCount];
      // 2. Clear the channel buffers over the block, then let the synthesizer mix in.
      MixBlock(mixLeft, mixRight);
      // 3. Interleave into the device buffer.
      Interleave(output, frameCount);
    }

    /** Every pending command reaches the player, oldest first. */
    method DrainCommands()
      modifies this`pending, this`handled
      ensures pending == [] && handled == old(handled) + old(pending)
    {
      while pending != []
        invariant handled + pending == old(handled) + old(pending)
        decreases |pending|
      {
        var command := pending[0];
        pending := pending[1..];
        handled := handled + [command];
      }
    }

    /** The first frames of both channel buffers are cleared and then receive the synthesizer's mix. */
    method MixBlock(mixLeft: seq<real>, mixRight: seq<real>)
      requires Valid() && |mixLeft| == |mixRight| <= MaxBufferSize
      modifies leftBuf, rightBuf
      ensures leftBuf[..|mixLeft|] == mixLeft && rightBuf[..|mixRight|] == mixRight
    {
      var i := 0;
      while i < |mixLeft|
        invariant i <= |mixLeft|
        invariant forall j :: 0 <= j < i ==> leftBuf[j] == mixLeft[j] && rightBuf[j] == mixRight[j]
      {
        leftBuf[i] := 0.0;
        rightBuf[i] := 0.0;
        leftBuf[i] := leftBuf[i] + mixLeft[i];
        rightBuf[i] := rightBuf[i] + mixRight[i];
        i := i + 1;
      }
      assert leftBuf[..i] == mixLeft;
      assert rightBuf[..i] == mixRight;
    }

    /** Slot 0 of each frame gets the left sample, slot 1 the right one; the other slots stay. */
    method Interleave(output: array<real>, frameCount: nat)
      requires Valid() && channels > 0 && frameCount * channels == output.Length && frameCount <= MaxBufferSize
      requires output != leftBuf && output != rightBuf
      modifies output
      ensures forall f :: 0 <= f < frameCount ==>
                Slot(f, 0, channels) < output.Length && output[Slot(f, 0, channels)] == leftBuf[f]
      ensures forall f :: 0 <= f < frameCount && channels > 1 ==>
                Slot(f, 1, channels) < output.Length && output[Slot(f, 1, channels)] == rightBuf[f]
      ensures forall f, c :: 0 <= f < frameCount && 2 <= c < channels ==>
                Slot(f, c, channels) < output.Length && output[Slot(f, c, channels)] == old(output[Slot(f, c, channels)])
    {
      var i := 0;
      var base := 0;
      while i < frameCount
        invariant i <= frameCount && base == i * channels
        invariant forall f :: 0 <= f < i ==> Slot(f, 0, channels) < output.Length && output[Slot(f, 0, channels)] == leftBuf[f]
        invariant forall f :: 0 <= f < i && channels > 1 ==>
                    Slot(f, 1, channels) < output.Length && output[Slot(f, 1, channels)] == rightBuf[f]
        invariant forall k :: base <= k < output.Length ==> output[k] == old(output[k])
        invariant forall f, c :: 0 <= f < i && 2 <= c < channels ==>
                    Slot(f, c, channels) < output.Length && output[Slot(f, c, channels)] == old(output[Slot(f, c, channels)])
      {
        assert base + channels == (i + 1) * channels;
        FrameInside(i, frameCount, channels);
        forall f: nat, c: nat | f < i && c < channels
          ensures Slot(f, c, channels) < base
        {
          FrameBefore(f, i, c, channels);
        }
        output[base] := leftBuf[i];
        if channels > 1 {
          output[base + 1] := rightBuf[i];
        }
        assert Slot(i, 0, channels) == base && Slot(i, 1, channels) == base + 1;
        forall c | 2 <= c < channels
          ensures Slot(i, c, channels) < output.Length && output[Slot(i, c, channels)] == old(output[Slot(i, c, channels)])
        {
        }
        i := i + 1;
        base := base + channels;
      }
    }
  }

  /** A frame below the frame count lies wholly inside the buffer. */
  lemma FrameInside(i: nat, frameCount: nat, channels: nat)
    requires i < frameCount
    ensures i * channels + channels <= frameCount * channels
  {
    MulMono(i + 1, frameCount, channels);
    assert (i + 1) * channels == i * channels + channels;
  }
}
