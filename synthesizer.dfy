// Model of audio_backend/src/synths/synthesizer.rs: a fixed bank of eight
// voices, each an ADSR envelope over a selectable oscillator. The voices are
// values in a sequence the synthesizer reassigns; the oscillators' samples
// are inputs.
module Synthesizer {
  import opened Wrappers
  import opened Envelope

  const MaxVoices: nat := 8
  const DefaultSampleRate: real := 44100.0

  datatype ActiveWaveform = Sine | Square | Saw | Triangle

  /** One voice: its envelope, frequency, waveform and the note it plays. */
  datatype Voice = Voice(
    envelope: Env,
    currentFrequency: real,
    activeWaveform: ActiveWaveform,
    sampleRate: real,
    noteId: Option<nat>)

  predicate VoiceValid(v: Voice)
  {
    v.sampleRate > 0.0 && Envelope.Valid(v.envelope)
  }

  /** `Voice::new`: an idle envelope with the default ADSR, A4, sine, no note. */
  function NewVoice(sampleRate: real): (v: Voice)
    requires sampleRate > 0.0
    ensures VoiceValid(v) && !VoiceActive(v) && v.noteId == None
  {
    Voice(NewEnv(sampleRate, 0.01, 0.1, 0.8, 0.2), 440.0, Sine, sampleRate, None)
  }

  predicate VoiceActive(v: Voice)
  {
    Envelope.IsActive(v.envelope)
  }

  /** `set_adsr`: a fresh envelope with the new times and sustain (so the voice goes idle). */
  function VoiceWithAdsr(v: Voice, attack: real, decay: real, sustain: real, release: real): (r: Voice)
    requires VoiceValid(v)
    ensures VoiceValid(r) && !VoiceActive(r)
    ensures r == v.(envelope := NewEnv(v.sampleRate, attack, decay, sustain, release))
  {
    v.(envelope := NewEnv(v.sampleRate, attack, decay, sustain, release))
  }

  /** What `note_on` does to the chosen voice: note, frequency, and a triggered envelope. */
  function Started(v: Voice, noteId: nat, freq: real): (r: Voice)
    requires VoiceValid(v)
    ensures VoiceValid(r) && VoiceActive(r) && r.envelope.state == Attack
    ensures r.noteId == Some(noteId) && r.currentFrequency == freq
    ensures r.activeWaveform == v.activeWaveform
  {
    v.(noteId := Some(noteId), currentFrequency := freq, envelope := Triggered(v.envelope))
  }

  /** The oscillator's sample times the envelope level. */
  function Scaled(sample: real, level: real): real
  {
    sample * level
  }

  /**
   * `Voice::next_sample`: silence from an idle envelope; otherwise the
   * oscillator's sample scaled by the envelope level from before the update.
   */
  function VoiceNextSample(v: Voice, oscSample: real): (r: (Voice, real))
    requires VoiceValid(v)
    ensures VoiceValid(r.0)
    ensures !VoiceActive(v) ==> r == (v, 0.0)
    ensures VoiceActive(v) ==> r.1 == Scaled(oscSample, v.envelope.level) && r.0 == v.(envelope := Processed(v.envelope).0)
  {
    if !VoiceActive(v) then (v, 0.0)
    else
      var level := v.envelope.level;
      (v.(envelope := Processed(v.envelope).0), Scaled(oscSample, level))
  }

  /** The first idle voice, if there is one. */
  function FirstInactive(vs: seq<Voice>): (r: Option<nat>)
    ensures r.Some? ==> r.value < |vs| && !VoiceActive(vs[r.value])
    ensures r.Some? ==> forall j :: 0 <= j < r.value ==> VoiceActive(vs[j])
    ensures r.None? ==> forall j :: 0 <= j < |vs| ==> VoiceActive(vs[j])
  {
    if vs == [] then None
    else if !VoiceActive(vs[0]) then Some(0)
    else match FirstInactive(vs[1..])
      case None => None
      case Some(k) => Some(k + 1)
  }

  /** The first voice holding the note, if there is one. */
  function FirstWithNote(vs: seq<Voice>, noteId: nat): (r: Option<nat>)
    ensures r.Some? ==> r.value < |vs| && vs[r.value].noteId == Some(noteId)
    ensures r.Some? ==> forall j :: 0 <= j < r.value ==> vs[j].noteId != Some(noteId)
    ensures r.None? ==> forall j :: 0 <= j < |vs| ==> vs[j].noteId != Some(noteId)
  {
    if vs == [] then None
    else if vs[0].noteId == Some(noteId) then Some(0)
    else match FirstWithNote(vs[1..], noteId)
      case None => None
      case Some(k) => Some(k + 1)
  }

  predicate AllValid(vs: seq<Voice>)
  {
    forall i :: 0 <= i < |vs| ==> VoiceValid(vs[i])
  }

  /** The voice `note_on` uses: the first idle one, else voice 0. */
  function NoteOnTarget(vs: seq<Voice>): nat
  {
    match FirstInactive(vs)
    case Some(i) => i
    case None => 0
  }

  /** The voices after `note_on`. */
  function NoteOnVoices(vs: seq<Voice>, noteId: nat, freq: real): seq<Voice>
    requires |vs| > 0 && AllValid(vs)
  {
    var t := NoteOnTarget(vs);
    vs[t := Started(vs[t], noteId, freq)]
  }

  /** The voices after `note_off`. */
  function NoteOffVoices(vs: seq<Voice>, noteId: nat): seq<Voice>
    requires AllValid(vs)
  {
    match FirstWithNote(vs, noteId)
    case None => vs
    case Some(i) => vs[i := vs[i].(envelope := Released(vs[i].envelope), noteId := None)]
  }

  /**
   * `note_on` takes the first idle voice, leaving every voice before it
   * sounding; when all eight sound it steals voice 0. Exactly one voice
   * changes, and it then plays the note in its attack.
   */
  lemma NoteOnAllocation(vs: seq<Voice>, noteId: nat, freq: real)
    requires |vs| > 0 && AllValid(vs)
    ensures var r := NoteOnVoices(vs, noteId, freq);
            var t := NoteOnTarget(vs);
            && |r| == |vs| && AllValid(r)
            && t < |vs|
            && ((exists i :: 0 <= i < |vs| && !VoiceActive(vs[i])) ==>
                  !VoiceActive(vs[t]) && forall j :: 0 <= j < t ==> VoiceActive(vs[j]))
            && ((forall i :: 0 <= i < |vs| ==> VoiceActive(vs[i])) ==> t == 0)
            && r[t].noteId == Some(noteId) && r[t].envelope.state == Attack && r[t].currentFrequency == freq
            && (forall j :: 0 <= j < |vs| && j != t ==> r[j] == vs[j])
  {
  }

  /**
   * `note_off` releases only the first voice holding the note and forgets
   * its note; an unknown note changes nothing.
   */
  lemma NoteOffRelease(vs: seq<Voice>, noteId: nat)
    requires AllValid(vs)
    ensures var r := NoteOffVoices(vs, noteId);
            && |r| == |vs| && AllValid(r)
            && ((forall j :: 0 <= j < |vs| ==> vs[j].noteId != Some(noteId)) ==> r == vs)
            && (forall i :: 0 <= i < |vs| && vs[i].noteId == Some(noteId) && (forall j :: 0 <= j < i ==> vs[j].noteId != Some(noteId)) ==>
                  r[i].noteId == None && r[i].envelope == Released(vs[i].envelope)
                  && forall j :: 0 <= j < |vs| && j != i ==> r[j] == vs[j])
  {
    match FirstWithNote(vs, noteId) {
      case None =>
      case Some(k) =>
        forall i | 0 <= i < |vs| && vs[i].noteId == Some(noteId) && (forall j :: 0 <= j < i ==> vs[j].noteId != Some(noteId))
          ensures i == k
        {
        }
    }
  }

  /** A note played then stopped leaves its voice releasing. */
  lemma NoteOnThenOff(vs: seq<Voice>, noteId: nat, freq: real)
    requires |vs| > 0 && AllValid(vs)
    requires forall j :: 0 <= j < |vs| ==> vs[j].noteId != Some(noteId)
    ensures var on := NoteOnVoices(vs, noteId, freq);
            var t := NoteOnTarget(vs);
            AllValid(on) && NoteOffVoices(on, noteId)[t].envelope.state == Release
  {
    var on := NoteOnVoices(vs, noteId, freq);
    var t := NoteOnTarget(vs);
    NoteOnAllocation(vs, noteId, freq);
    match FirstWithNote(on, noteId) {
      case None =>
      case Some(k) =>
    }
  }

  class Synthesizer {
    var voices: seq<Voice>
    const sampleRate: real

    predicate Valid()
      reads this
    {
      |voices| == MaxVoices && AllValid(voices) && sampleRate > 0.0
    }

    /** `Synthesizer::new`: eight idle voices. */
    constructor (sampleRate: real)
      requires sampleRate > 0.0
      ensures Valid() && this.sampleRate == sampleRate
      ensures forall i :: 0 <= i < |voices| ==> voices[i] == NewVoice(sampleRate) && !VoiceActive(voices[i])
    {
      this.sampleRate := sampleRate;
      var vs: seq<Voice> := [];
      while |vs| < MaxVoices
        invariant |vs| <= MaxVoices
        invariant forall i :: 0 <= i < |vs| ==> vs[i] == NewVoice(sampleRate)
      {
        vs := vs + [NewVoice(sampleRate)];
      }
      voices := vs;
    }

    /** `set_frequency`, applied to voice 0 only. */
    method SetFrequency(freq: real)
      requires Valid()
      modifies this
      ensures Valid() && voices == old(voices)[0 := old(voices)[0].(currentFrequency := freq)]
    {
      voices := voices[0 := voices[0].(currentFrequency := freq)];
    }

    /** `set_waveform`, applied to voice 0 only (the phase reset is oscillator state). */
    method SetWaveform(w: ActiveWaveform)
      requires Valid()
      modifies this
      ensures Valid() && voices == old(voices)[0 := old(voices)[0].(activeWaveform := w)]
    {
      voices := voices[0 := voices[0].(activeWaveform := w)];
    }

    /** `set_adsr`, applied to voice 0 only. */
    method SetAdsr(attack: real, decay: real, sustain: real, release: real)
      requires Valid()
      modifies this
      ensures Valid() && voices == old(voices)[0 := VoiceWithAdsr(old(voices)[0], attack, decay, sustain, release)]
    {
      voices := voices[0 := VoiceWithAdsr(voices[0], attack, decay, sustain, release)];
    }

    method NoteOn(noteId: Byte, freq: real)
      requires Valid()
      modifies this
      ensures Valid() && voices == NoteOnVoices(old(voices), noteId, freq)
    {
      var i := 0;
      while i < |voices|
        invariant 0 <= i <= |voices|
        invariant forall j :: 0 <= j < i ==> VoiceActive(voices[j])
        invariant voices == old(voices)
      {
        if !VoiceActive(voices[i]) {
          voices := voices[i := Started(voices[i], noteId, freq)];
          FirstInactiveIs(old(voices), i);
          return;
        }
        i := i + 1;
      }
      voices := voices[0 := Started(voices[0], noteId, freq)];
    }

    method NoteOff(noteId: Byte)
      requires Valid()
      modifies this
      ensures Valid() && voices == NoteOffVoices(old(voices), noteId)
    {
      var i := 0;
      while i < |voices|
        invariant 0 <= i <= |voices|
        invariant forall j :: 0 <= j < i ==> voices[j].noteId != Some(noteId as nat)
        invariant voices == old(voices)
      {
        if voices[i].noteId == Some(noteId as nat) {
          FirstWithNoteIs(old(voices), noteId, i);
          voices := voices[i := voices[i].(envelope := Released(voices[i].envelope), noteId := None)];
          return;
        }
        i := i + 1;
      }
    }

    /** `next_sample`: voice 0's output; the other voices are not rendered. */
    method NextSample(oscSample: real) returns (out: real)
      requires Valid()
      modifies this
      ensures Valid()
      ensures (voices[0], out) == VoiceNextSample(old(voices)[0], oscSample)
      ensures voices[1..] == old(voices)[1..]
    {
      var (v, s) := VoiceNextSample(voices[0], oscSample);
      voices := voices[0 := v];
      out := s;
    }
  }

  lemma FirstInactiveIs(vs: seq<Voice>, i: nat)
    requires i < |vs| && !VoiceActive(vs[i]) && forall j :: 0 <= j < i ==> VoiceActive(vs[j])
    ensures FirstInactive(vs) == Some(i)
  {
    match FirstInactive(vs) {
      case None =>
      case Some(k) =>
    }
  }

  lemma FirstWithNoteIs(vs: seq<Voice>, noteId: nat, i: nat)
    requires i < |vs| && vs[i].noteId == Some(noteId) && forall j :: 0 <= j < i ==> vs[j].noteId != Some(noteId)
    ensures FirstWithNote(vs, noteId) == Some(i)
  {
    match FirstWithNote(vs, noteId) {
      case None =>
      case Some(k) =>
    }
  }
}
