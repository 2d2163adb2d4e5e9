// Model of audio_backend/src/devices/audio_engine.rs: the GUI side of the
// audio engine, which only pushes commands onto a queue that the audio
// callback drains. The lock-free queue is a sequence, oldest command first.
module AudioEngine {
  import opened Wrappers
  import SynthVoice

  /** A command for the audio thread's synthesizer. */
  datatype AudioCommand =
    | NoteOn(note: Byte, velocity: real)
    | NoteOnWithWaveform(note: Byte, velocity: real, waveform: SynthVoice.Waveform)
    | NoteOff(note: Byte)
    | SetAdsr(attack: real, decay: real, sustain: real, release: real)
    | SetWaveform(waveform: SynthVoice.Waveform)

  /** The envelope `get_current_adsr` reports: always the defaults. */
  datatype Adsr = Adsr(attack: real, decay: real, sustain: real, release: real)

  const DefaultAdsr: Adsr := Adsr(0.01, 0.1, 0.8, 0.2)

  /** The command a single-field setter sends: the new value in its own field, the defaults elsewhere. */
  datatype AdsrField = AttackField | DecayField | SustainField | ReleaseField

  function SetOne(field: AdsrField, value: real): (c: AudioCommand)
    ensures c.SetAdsr?
    ensures c.attack == (if field == AttackField then value else DefaultAdsr.attack)
    ensures c.decay == (if field == DecayField then value else DefaultAdsr.decay)
    ensures c.sustain == (if field == SustainField then value else DefaultAdsr.sustain)
    ensures c.release == (if field == ReleaseField then value else DefaultAdsr.release)
  {
    var d := DefaultAdsr;
    match field
    case AttackField => SetAdsr(value, d.decay, d.sustain, d.release)
    case DecayField => SetAdsr(d.attack, value, d.sustain, d.release)
    case SustainField => SetAdsr(d.attack, d.decay, value, d.release)
    case ReleaseField => SetAdsr(d.attack, d.decay, d.sustain, value)
  }

  /**
   * Two setters in a row do not combine: since the current envelope is
   * never read back, the second command resets the first one's field to
   * its default.
   */
  lemma SettersDoNotAccumulate(f: AdsrField, g: AdsrField, x: real, y: real)
    requires f != g
    ensures var c := SetOne(g, y);
            match f
            case AttackField => c.attack == 0.01
            case DecayField => c.decay == 0.1
            case SustainField => c.sustain == 0.8
            case ReleaseField => c.release == 0.2
  {
  }

  /** The `AudioEngine` struct: the shared command queue. */
  class Engine {
    var queue: seq<AudioCommand>

    /** `new`: an empty queue. */
    constructor ()
      ensures queue == []
    {
      queue := [];
    }

    /** `get_current_adsr`. */
    method CurrentAdsr() returns (r: Adsr)
      ensures r == DefaultAdsr
    {
      return Adsr(0.01, 0.1, 0.8, 0.2);
    }

    method NoteOnCmd(note: Byte, velocity: real)
      modifies this
      ensures queue == old(queue) + [NoteOn(note, velocity)]
    {
      queue := queue + [NoteOn(note, velocity)];
    }

    method NoteOnWithWaveformCmd(note: Byte, velocity: real, waveform: SynthVoice.Waveform)
      modifies this
      ensures queue == old(queue) + [NoteOnWithWaveform(note, velocity, waveform)]
    {
      queue := queue + [NoteOnWithWaveform(note, velocity, waveform)];
    }

    method NoteOffCmd(note: Byte)
      modifies this
      ensures queue == old(queue) + [NoteOff(note)]
    {
      queue := queue + [NoteOff(note)];
    }

    /** `set_attack`: the other three fields come from `get_current_adsr`. */
    method SetAttack(attack: real)
      modifies this
      ensures queue == old(queue) + [SetOne(AttackField, attack)]
    {
      var cur := CurrentAdsr();
      queue := queue + [SetAdsr(attack, cur.decay, cur.sustain, cur.release)];
    }

    method SetDecay(decay: real)
      modifies this
      ensures queue == old(queue) + [SetOne(DecayField, decay)]
    {
      var cur := CurrentAdsr();
      queue := queue + [SetAdsr(cur.attack, decay, cur.sustain, cur.release)];
    }

    method SetSustain(sustain: real)
      modifies this
      ensures queue == old(queue) + [SetOne(SustainField, sustain)]
    {
      var cur := CurrentAdsr();
      queue := queue + [SetAdsr(cur.attack, cur.decay, sustain, cur.release)];
    }

    method SetRelease(release: real)
      modifies this
      ensures queue == old(queue) + [SetOne(ReleaseField, release)]
    {
      var cur := CurrentAdsr();
      queue := queue + [SetAdsr(cur.attack, cur.decay, cur.sustain, release)];
    }

    method SetAdsrCmd(attack: real, decay: real, sustain: real, release: real)
      modifies this
      ensures queue == old(queue) + [SetAdsr(attack, decay, sustain, release)]
    {
      queue := queue + [SetAdsr(attack, decay, sustain, release)];
    }

    method SetWaveformCmd(waveform: SynthVoice.Waveform)
      modifies this
      ensures queue == old(queue) + [SetWaveform(waveform)]
    {
      queue := queue + [SetWaveform(waveform)];
    }
  }
}
