// Model of audio_backend/src/devices/streams.rs: what the audio callback does
// each time the device asks for samples. It first takes a bounded number of
// commands off the queue and hands each to the synthesizer, then fills the
// device buffer frame by frame. Which synthesizer method a command reaches is
// fixed by its variant, so the synthesizer is modelled by the commands it has
// received, in order; the values it produces are a parameter. Device and
// stream setup are not modelled.
module Streams {
  import opened Arith
  import opened AudioEngine

  /** At most this many commands are handled per callback. */
  const MaxCommandsPerCallback: nat := 32

  /** The commands one callback takes off the queue: the oldest ones, at most 32. */
  function Drained(queue: seq<AudioCommand>): (r: seq<AudioCommand>)
    ensures |r| <= MaxCommandsPerCallback && r <= queue
    ensures |queue| <= MaxCommandsPerCallback ==> r == queue
    ensures |queue| > MaxCommandsPerCallback ==> |r| == MaxCommandsPerCallback
  {
    queue[..MinNat(MaxCommandsPerCallback, |queue|)]
  }

  /**
   * Nothing is lost or reordered: over successive callbacks, what the
   * synthesizer receives followed by what is still queued is always the
   * original queue.
   */
  lemma DrainKeepsOrder(queue: seq<AudioCommand>)
    ensures Drained(queue) + queue[|Drained(queue)|..] == queue
  {
  }

  /** A queue of n commands is empty after ceil(n / 32) callbacks. */
  lemma {:induction false} DrainedAfterCallbacks(queue: seq<AudioCommand>, k: nat)
    requires |queue| <= k * MaxCommandsPerCallback
    ensures Rest(queue, k) == []
    decreases k
  {
    if k > 0 {
      var rest := queue[|Drained(queue)|..];
      assert |rest| <= (k - 1) * MaxCommandsPerCallback;
      DrainedAfterCallbacks(rest, k - 1);
    }
  }

  /** What is left after k callbacks with no new commands. */
  function Rest(queue: seq<AudioCommand>, k: nat): seq<AudioCommand>
    decreases k
  {
    if k == 0 then queue else Rest(queue[|Drained(queue)|..], k - 1)
  }

  /** Every slot of frame f, cut `c` slots wide, belongs to frame f. */
  lemma FrameOf(f: nat, c: nat, m: nat)
    requires c > 0 && f * c <= m < f * c + c
    ensures m / c == f
  {
    DivModUnique(m, f, m - f * c, c);
  }

  /** The audio callback's state: the queue it drains and the commands the synthesizer has received. */
  class Callback {
    var queue: seq<AudioCommand>
    var received: seq<AudioCommand>

    constructor (queue: seq<AudioCommand>)
      ensures this.queue == queue && received == []
    {
      this.queue := queue;
      received := [];
    }

    /** `process_commands`: pop and dispatch up to 32 commands, stopping early on an empty queue. */
    method ProcessCommands()
      modifies this
      ensures received == old(received) + Drained(old(queue))
      ensures queue == old(queue)[|Drained(old(queue))|..]
    {
      var n := 0;
      while n < MaxCommandsPerCallback
        invariant n <= MaxCommandsPerCallback && n <= |old(queue)|
        invariant queue == old(queue)[n..]
        invariant received == old(received) + old(queue)[..n]
      {
        if queue == [] {
          break;
        }
        var cmd := queue[0];
        queue := queue[1..];
        received := received + [cmd];
        assert old(queue)[..n + 1] == old(queue)[..n] + [cmd];
        n := n + 1;
      }
    }

    /**
     * `write_data`: every chunk of `channels` slots (the last may be short)
     * gets the synthesizer's next value in all of its slots. `values` are
     * the values the synthesizer produces, one per call; `used` is how many
     * calls the buffer took: one per chunk.
     */
    static method WriteData(output: array<real>, channels: nat, values: seq<real>) returns (used: nat)
      requires channels > 0 && |values| >= output.Length
      modifies output
      ensures forall m :: 0 <= m < output.Length ==> m / channels < |values| && output[m] == values[m / channels]
      ensures used * channels >= output.Length && (used == 0 || (used - 1) * channels < output.Length)
    {
      used := 0;
      var k := 0;
      while k < output.Length
        invariant k <= output.Length && used <= k
        invariant k == MinNat(used * channels, output.Length)
        invariant used == 0 || (used - 1) * channels < output.Length
        invariant forall m :: 0 <= m < k ==> m / channels < |values| && output[m] == values[m / channels]
        decreases output.Length - k
      {
        var value := values[used];
        var end := MinNat(k + channels, output.Length);
        assert k + channels == (used + 1) * channels;
        var j := k;
        while j < end
          invariant k <= j <= end
          invariant forall m :: 0 <= m < k ==> m / channels < |values| && output[m] == values[m / channels]
          invariant forall m :: k <= m < j ==> output[m] == value
        {
          output[j] := value;
          j := j + 1;
        }
        forall m | k <= m < end
          ensures m / channels == used
        {
          FrameOf(used, channels, m);
        }
        k := end;
        used := used + 1;
      }
    }
  }
}
