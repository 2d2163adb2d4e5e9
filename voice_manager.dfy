// Model of audio_backend/src/synths/voice_manager.rs: a fixed pool of
// voices with global ADSR and waveform settings. A note goes to the first
// free voice, else to the voice that started first; note-off releases every
// voice holding the note.
module VoiceManager {
  import opened Wrappers
  import opened SynthAdsr
  import opened SynthVoice

  /** Every voice of the pool is coherent. */
  predicate PoolValid(vs: seq<Voice>)
  {
    forall i :: 0 <= i < |vs| ==> Coherent(vs[i])
  }

  /** `get_current_time` is a stub, so every voice starts at frame 0. */
  predicate StartedAtZero(vs: seq<Voice>)
  {
    forall i :: 0 <= i < |vs| ==> vs[i].startTime == 0
  }

  /** `find_free_voice`: the first voice that is not active. */
  function FirstFree(vs: seq<Voice>): (r: Option<nat>)
    ensures r.Some? ==> r.value < |vs| && !IsActive(vs[r.value])
    ensures r.Some? ==> forall j :: 0 <= j < r.value ==> IsActive(vs[j])
    ensures r.None? ==> forall j :: 0 <= j < |vs| ==> IsActive(vs[j])
  {
    if vs == [] then None
    else if !IsActive(vs[0]) then Some(0)
    else match FirstFree(vs[1..])
      case None => None
      case Some(k) => Some(k + 1)
  }

  /**
   * `find_voice_to_steal`: `min_by_key` on the start time, which keeps the
   * first of several equal minima.
   */
  function Oldest(vs: seq<Voice>): (r: nat)
    requires |vs| > 0
    ensures r < |vs|
    ensures forall j :: 0 <= j < |vs| ==> vs[r].startTime <= vs[j].startTime
    ensures forall j :: 0 <= j < r ==> vs[j].startTime > vs[r].startTime
  {
    if |vs| == 1 then 0
    else
      var k := Oldest(vs[..|vs| - 1]);
      if vs[|vs| - 1].startTime < vs[k].startTime then |vs| - 1 else k
  }

  /** Since every voice starts at frame 0, stealing always takes voice 0. */
  lemma StealsFirst(vs: seq<Voice>)
    requires |vs| > 0 && StartedAtZero(vs)
    ensures Oldest(vs) == 0
  {
  }

  /** The voice `note_on_with_velocity_and_waveform` uses, if the pool is not empty. */
  function NoteOnTarget(vs: seq<Voice>): (r: Option<nat>)
    ensures r.Some? ==> r.value < |vs|
    ensures r.None? <==> |vs| == 0
  {
    match FirstFree(vs)
    case Some(i) => Some(i)
    case None => if |vs| == 0 then None else Some(Oldest(vs))
  }

  /** The chosen voice takes the global ADSR, then starts the note. */
  function Started(v: Voice, note: Byte, velocity: real, waveform: Waveform,
                   attack: real, decay: real, sustain: real, release: real): (r: Voice)
    requires Coherent(v) && attack > 0.0 && decay > 0.0 && release > 0.0
    ensures Coherent(r) && IsActive(r) && IsPlaying(r, note) && r.startTime == 0
  {
    VoiceNoteOn(VoiceSetAdsr(v, attack, decay, sustain, release), note, velocity, waveform)
  }

  /** The pool after `note_on_with_velocity_and_waveform`. */
  function NoteOnVoices(vs: seq<Voice>, note: Byte, velocity: real, waveform: Waveform,
                        attack: real, decay: real, sustain: real, release: real): (r: seq<Voice>)
    requires PoolValid(vs) && attack > 0.0 && decay > 0.0 && release > 0.0
    ensures |r| == |vs| && PoolValid(r)
    ensures StartedAtZero(vs) ==> StartedAtZero(r)
  {
    match NoteOnTarget(vs)
    case None => vs
    case Some(t) => vs[t := Started(vs[t], note, velocity, waveform, attack, decay, sustain, release)]
  }

  /** The pool after `note_off`: every voice playing the note is released. */
  function NoteOffVoices(vs: seq<Voice>, note: Byte): (r: seq<Voice>)
    requires PoolValid(vs)
    ensures |r| == |vs| && PoolValid(r)
    ensures StartedAtZero(vs) ==> StartedAtZero(r)
  {
    seq(|vs|, i requires 0 <= i < |vs| => if IsPlaying(vs[i], note) then VoiceNoteOff(vs[i]) else vs[i])
  }

  /**
   * A note goes to the first free voice, every voice before it staying
   * active; with no free voice it goes to voice 0 (all started at frame 0).
   * Exactly that voice changes: it now plays the note in its attack with
   * the global envelope times.
   */
  lemma NoteOnAllocation(vs: seq<Voice>, note: Byte, velocity: real, waveform: Waveform,
                         attack: real, decay: real, sustain: real, release: real)
    requires PoolValid(vs) && StartedAtZero(vs) && |vs| > 0
    requires attack > 0.0 && decay > 0.0 && release > 0.0
    ensures var r := NoteOnVoices(vs, note, velocity, waveform, attack, decay, sustain, release);
            var t := NoteOnTarget(vs).value;
            && ((exists i :: 0 <= i < |vs| && !IsActive(vs[i])) ==>
                  !IsActive(vs[t]) && forall j :: 0 <= j < t ==> IsActive(vs[j]))
            && ((forall i :: 0 <= i < |vs| ==> IsActive(vs[i])) ==> t == 0)
            && IsPlaying(r[t], note) && IsActive(r[t]) && r[t].envelope.stage == Attack
            && r[t].waveform == waveform && r[t].velocity == velocity
            && r[t].envelope.attackTime == attack && r[t].envelope.decayTime == decay
            && r[t].envelope.sustainLevel == sustain && r[t].envelope.releaseTime == release
            && (forall j :: 0 <= j < |vs| && j != t ==> r[j] == vs[j])
  {
    if FirstFree(vs).None? {
      StealsFirst(vs);
    }
  }

  /**
   * `note_off` releases exactly the voices holding the note; every other
   * voice is unchanged, and an unknown note changes nothing.
   */
  lemma NoteOffReleasesAll(vs: seq<Voice>, note: Byte)
    requires PoolValid(vs)
    ensures var r := NoteOffVoices(vs, note);
            && (forall i :: 0 <= i < |vs| && IsPlaying(vs[i], note) && vs[i].activeFlag ==>
                  r[i].envelope.stage == Release && IsPlaying(r[i], note))
            && (forall i :: 0 <= i < |vs| && !IsPlaying(vs[i], note) ==> r[i] == vs[i])
            && ((forall i :: 0 <= i < |vs| ==> !IsPlaying(vs[i], note)) ==> r == vs)
  {
  }

  /** A note played and then stopped leaves its voice releasing. */
  lemma NoteOnThenOff(vs: seq<Voice>, note: Byte, velocity: real, waveform: Waveform,
                      attack: real, decay: real, sustain: real, release: real)
    requires PoolValid(vs) && StartedAtZero(vs) && |vs| > 0
    requires attack > 0.0 && decay > 0.0 && release > 0.0
    ensures var on := NoteOnVoices(vs, note, velocity, waveform, attack, decay, sustain, release);
            var t := NoteOnTarget(vs).value;
            NoteOffVoices(on, note)[t].envelope.stage == Release
  {
    NoteOnAllocation(vs, note, velocity, waveform, attack, decay, sustain, release);
  }

  /**
   * The sum of the voices' `next_sample` results for the given oscillator
   * samples, each as written: scaled by the envelope twice.
   */
  function Mix(vs: seq<Voice>, oscSamples: seq<real>): real
    requires PoolValid(vs) && |oscSamples| == |vs|
  {
    if vs == [] then 0.0
    else Mix(vs[..|vs| - 1], oscSamples[..|vs| - 1]) + VoiceOutputAsWritten(vs[|vs| - 1], oscSamples[|vs| - 1])
  }

  /** The pool after one `next_sample`: every voice steps. */
  function StepAll(vs: seq<Voice>): (r: seq<Voice>)
    requires PoolValid(vs)
    ensures |r| == |vs| && PoolValid(r)
    ensures StartedAtZero(vs) ==> StartedAtZero(r)
  {
    seq(|vs|, i requires 0 <= i < |vs| => VoiceStep(vs[i]))
  }

  function ClampUnit(x: real): (r: real)
    ensures -1.0 <= r <= 1.0
    ensures -1.0 <= x <= 1.0 ==> r == x
  {
    if x < -1.0 then -1.0 else if x > 1.0 then 1.0 else x
  }

  /** A pool whose voices are all free mixes to silence. */
  lemma {:induction false} SilentPool(vs: seq<Voice>, oscSamples: seq<real>)
    requires PoolValid(vs) && |oscSamples| == |vs|
    requires forall i :: 0 <= i < |vs| ==> !IsActive(vs[i])
    ensures Mix(vs, oscSamples) == 0.0
    decreases |vs|
  {
    if vs != [] {
      SilentPool(vs[..|vs| - 1], oscSamples[..|vs| - 1]);
    }
  }

  /**
   * With envelopes in range, velocities in [0, 1] and oscillator samples in
   * [-1, 1], the mix of n voices lies in [-n, n]: dividing by the polyphony
   * already keeps a full pool within [-1, 1] before the clamp.
   */
  lemma {:induction false} MixBounded(vs: seq<Voice>, oscSamples: seq<real>)
    requires PoolValid(vs) && |oscSamples| == |vs|
    requires forall i :: 0 <= i < |vs| ==> InRange(vs[i].envelope) && 0.0 <= vs[i].velocity <= 1.0
    requires forall i :: 0 <= i < |oscSamples| ==> -1.0 <= oscSamples[i] <= 1.0
    ensures -(|vs| as real) <= Mix(vs, oscSamples) <= |vs| as real
    decreases |vs|
  {
    if vs != [] {
      var n := |vs| - 1;
      MixBounded(vs[..n], oscSamples[..n]);
      OutputAsWrittenBounded(vs[n], oscSamples[n]);
    }
  }

  /** The `VoiceManager` struct. */
  class VoiceManager {
    var voices: seq<Voice>
    const maxPolyphony: nat
    const sampleRate: real
    var attack: real
    var decay: real
    var sustain: real
    var release: real
    var waveform: Waveform

    predicate Valid()
      reads this
    {
      && |voices| == maxPolyphony
      && PoolValid(voices)
      && StartedAtZero(voices)
      && attack > 0.0 && decay > 0.0 && release > 0.0
    }

    /** `VoiceManager::new`: `maxPolyphony` fresh voices, the default ADSR and a sine. */
    constructor (sampleRate: real, maxPolyphony: nat)
      requires sampleRate > 0.0
      ensures Valid() && this.maxPolyphony == maxPolyphony && this.sampleRate == sampleRate
      ensures forall i :: 0 <= i < |voices| ==> voices[i] == NewVoice(sampleRate) && !IsActive(voices[i])
      ensures (attack, decay, sustain, release) == (0.01, 0.1, 0.8, 0.2) && waveform == Sine
    {
      this.sampleRate := sampleRate;
      this.maxPolyphony := maxPolyphony;
      var vs: seq<Voice> := [];
      while |vs| < maxPolyphony
        invariant |vs| <= maxPolyphony
        invariant forall i :: 0 <= i < |vs| ==> vs[i] == NewVoice(sampleRate)
      {
        vs := vs + [NewVoice(sampleRate)];
      }
      voices := vs;
      attack, decay, sustain, release := 0.01, 0.1, 0.8, 0.2;
      waveform := Sine;
    }

    /** `note_on`: the stored waveform and ADSR. */
    method NoteOn(note: Byte, velocity: real)
      requires Valid()
      modifies this`voices
      ensures Valid()
      ensures voices == NoteOnVoices(old(voices), note, velocity, waveform, attack, decay, sustain, release)
    {
      NoteOnWithVelocityAndWaveform(note, velocity, waveform);
    }

    method NoteOnWithVelocityAndWaveform(note: Byte, velocity: real, w: Waveform)
      requires Valid()
      modifies this`voices
      ensures Valid()
      ensures voices == NoteOnVoices(old(voices), note, velocity, w, attack, decay, sustain, release)
    {
      var a, d, s, r := CurrentAdsrParams();
      var free := FindFreeVoice();
      match free {
        case Some(i) =>
          voices := voices[i := Started(voices[i], note, velocity, w, a, d, s, r)];
        case None =>
          if |voices| > 0 {
            var t := FindVoiceToSteal();
            voices := voices[t := Started(voices[t], note, velocity, w, a, d, s, r)];
          }
      }
    }

    method NoteOff(note: Byte)
      requires Valid()
      modifies this`voices
      ensures Valid() && voices == NoteOffVoices(old(voices), note)
    {
      var i := 0;
      while i < |voices|
        invariant 0 <= i <= |voices| == |old(voices)|
        invariant PoolValid(voices) && StartedAtZero(voices)
        invariant forall j :: 0 <= j < i ==> voices[j] == NoteOffVoices(old(voices), note)[j]
        invariant forall j :: i <= j < |voices| ==> voices[j] == old(voices)[j]
      {
        if IsPlaying(voices[i], note) {
          voices := voices[i := VoiceNoteOff(voices[i])];
        }
        i := i + 1;
      }
    }

    /** `set_adsr`: stores the values for later notes; the voices are untouched. */
    method SetAdsr(a: real, d: real, s: real, r: real)
      requires Valid() && a > 0.0 && d > 0.0 && r > 0.0
      modifies this`attack, this`decay, this`sustain, this`release
      ensures Valid()
      ensures attack == a && decay == d && sustain == s && release == r
    {
      attack, decay, sustain, release := a, d, s, r;
    }

    /** `set_waveform`: stores the waveform for later notes; the voices are untouched. */
    method SetWaveform(w: Waveform)
      requires Valid()
      modifies this`waveform
      ensures Valid() && waveform == w
    {
      waveform := w;
    }

    /**
     * `next_sample`: every voice steps; the mix of their samples, divided by
     * the polyphony and clamped to [-1, 1], is the output. No voices, no sound.
     */
    method NextSample(oscSamples: seq<real>) returns (out: real)
      requires Valid() && |oscSamples| == |voices|
      modifies this`voices
      ensures Valid() && voices == StepAll(old(voices))
      ensures old(voices) == [] ==> out == 0.0
      ensures old(voices) != [] ==> out == ClampUnit(Mix(old(voices), oscSamples) / maxPolyphony as real)
      ensures -1.0 <= out <= 1.0
    {
      if |voices| == 0 {
        return 0.0;
      }
      var sum := 0.0;
      var i := 0;
      while i < |voices|
        invariant 0 <= i <= |voices| == |old(voices)|
        invariant PoolValid(voices) && StartedAtZero(voices)
        invariant forall j :: 0 <= j < i ==> voices[j] == StepAll(old(voices))[j]
        invariant forall j :: i <= j < |voices| ==> voices[j] == old(voices)[j]
        invariant sum == Mix(old(voices)[..i], oscSamples[..i])
      {
        assert old(voices)[..i + 1][..i] == old(voices)[..i];
        assert oscSamples[..i + 1][..i] == oscSamples[..i];
        sum := sum + VoiceOutputAsWritten(voices[i], oscSamples[i]);
        voices := voices[i := VoiceStep(voices[i])];
        i := i + 1;
      }
      assert old(voices)[..i] == old(voices);
      assert oscSamples[..i] == oscSamples;
      out := ClampUnit(sum / maxPolyphony as real);
    }

    method FindFreeVoice() returns (r: Option<nat>)
      requires Valid()
      ensures r == FirstFree(voices)
    {
      var i := 0;
      while i < |voices|
        invariant 0 <= i <= |voices|
        invariant forall j :: 0 <= j < i ==> IsActive(voices[j])
      {
        if !IsActive(voices[i]) {
          FirstFreeIs(voices, i);
          return Some(i);
        }
        i := i + 1;
      }
      return None;
    }

    method FindVoiceToSteal() returns (r: nat)
      requires Valid() && |voices| > 0
      ensures r == Oldest(voices)
    {
      r := 0;
      var i: nat := 1;
      while i < |voices|
        invariant 1 <= i <= |voices|
        invariant r == Oldest(voices[..i])
      {
        assert voices[..i + 1][..i] == voices[..i];
        if voices[i].startTime < voices[r].startTime {
          r := i;
        }
        i := i + 1;
      }
      assert voices[..i] == voices;
    }

    method CurrentAdsrParams() returns (a: real, d: real, s: real, r: real)
      ensures (a, d, s, r) == (attack, decay, sustain, release)
    {
      return attack, decay, sustain, release;
    }

    method CurrentWaveform() returns (w: Waveform)
      ensures w == waveform
    {
      return waveform;
    }
  }

  lemma FirstFreeIs(vs: seq<Voice>, i: nat)
    requires i < |vs| && !IsActive(vs[i]) && forall j :: 0 <= j < i ==> IsActive(vs[j])
    ensures FirstFree(vs) == Some(i)
  {
    match FirstFree(vs) {
      case None =>
      case Some(k) =>
    }
  }
}
