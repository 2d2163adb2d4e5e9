// Model of frontend/src-tauri/src/synth.rs: the three commands the desktop
// front end invokes on the shared synthesizer. Each command is modelled by
// the synthesizer calls it makes.
module TauriSynth {
  import opened Wrappers
  import Synthesizer
  type ActiveWaveform = Synthesizer.ActiveWaveform

  /** A call on the synthesizer. */
  datatype SynthCall = SetWaveform(waveform: ActiveWaveform) | NoteOn(frequency: real) | NoteOff

  /** The values the waveform drop-down sends (frontend/src/oscillator-control.ts). */
  const DropdownValues: seq<string> := ["Sine", "Square", "Sawtooth", "Triangle"]

  /** The waveform each drop-down entry is labelled with. */
  const DropdownWaveforms: seq<ActiveWaveform> :=
    [Synthesizer.Sine, Synthesizer.Square, Synthesizer.Saw, Synthesizer.Triangle]

  /** The name `set_waveform` expects for each waveform. */
  function WaveformName(w: ActiveWaveform): string
  {
    match w
    case Sine => "Sine"
    case Square => "Square"
    case Saw => "Saw"
    case Triangle => "Triangle"
  }

  /** The match in `set_waveform` as written: the four names, anything else Sine. */
  function WaveformFromName(name: string): ActiveWaveform
  {
    match name
    case "Sine" => Synthesizer.Sine
    case "Square" => Synthesizer.Square
    case "Saw" => Synthesizer.Saw
    case "Triangle" => Synthesizer.Triangle
    case _ => Synthesizer.Sine
  }

  /** Each waveform's own name selects it; every other name selects Sine. */
  lemma WaveformNameRoundTrip(w: ActiveWaveform, name: string)
    ensures WaveformFromName(WaveformName(w)) == w
    ensures (forall v: ActiveWaveform :: name != WaveformName(v)) ==> WaveformFromName(name) == Synthesizer.Sine
  {
    if forall v: ActiveWaveform :: name != WaveformName(v) {
      assert name != WaveformName(Synthesizer.Square) && name != WaveformName(Synthesizer.Saw);
      assert name != WaveformName(Synthesizer.Triangle);
    }
  }

  /** As written, the drop-down's "Sawtooth" entry selects Sine rather than Saw. */
  lemma SawtoothSelectsSine()
    ensures DropdownValues[2] == "Sawtooth"
    ensures WaveformFromName(DropdownValues[2]) == Synthesizer.Sine != DropdownWaveforms[2]
  {
  }

  /** The match as evidently intended: the drop-down's "Sawtooth" is also Saw. */
  function ParseWaveform(name: string): (w: ActiveWaveform)
    ensures name != "Sawtooth" ==> w == WaveformFromName(name)
  {
    if name == "Sawtooth" then Synthesizer.Saw else WaveformFromName(name)
  }

  /** With the correction every drop-down entry selects the waveform it is labelled with. */
  lemma DropdownSelectsItsWaveform(i: nat)
    requires i < 4
    ensures ParseWaveform(DropdownValues[i]) == DropdownWaveforms[i]
    ensures ParseWaveform(WaveformName(DropdownWaveforms[i])) == DropdownWaveforms[i]
  {
  }

  // ---------------------------------------------------------------------
  // The commands

  /** What the front end invokes. */
  datatype Command = SetWaveformCommand(name: string) | PlayMidiNote(midi: Byte) | StopMidiNote

  /**
   * The calls one command makes: `set_waveform` sets the waveform its match
   * selects (as written, so the drop-down's "Sawtooth" selects Sine),
   * `play_midi_note` starts a note at the MIDI note's frequency
   * (`midiToFrequency` stands for `note::midi_to_frequency`), and
   * `stop_midi_note` releases it.
   */
  function Invoke(c: Command, midiToFrequency: Byte -> real): (r: seq<SynthCall>)
    ensures |r| == 1
    ensures c.SetWaveformCommand? <==> r[0].SetWaveform?
    ensures c.PlayMidiNote? <==> r[0].NoteOn?
    ensures c.StopMidiNote? <==> r[0] == NoteOff
    ensures c.PlayMidiNote? ==> r[0].frequency == midiToFrequency(c.midi)
    ensures c.SetWaveformCommand? ==> r[0].waveform == WaveformFromName(c.name)
    ensures c.SetWaveformCommand? && c.name == "Sawtooth" ==> r[0].waveform == Synthesizer.Sine
    ensures forall w: ActiveWaveform :: c == SetWaveformCommand(WaveformName(w)) ==> r[0].waveform == w
  {
    match c
    case SetWaveformCommand(name) => [SetWaveform(WaveformFromName(name))]
    case PlayMidiNote(midi) => [NoteOn(midiToFrequency(midi))]
    case StopMidiNote => [NoteOff]
  }

  /** The calls a run of commands makes, in order. */
  function InvokeAll(cs: seq<Command>, midiToFrequency: Byte -> real): seq<SynthCall>
  {
    if cs == [] then [] else InvokeAll(cs[..|cs| - 1], midiToFrequency) + Invoke(cs[|cs| - 1], midiToFrequency)
  }

  /** One call per command, the i-th call made by the i-th command. */
  lemma {:induction false} InvokeAllInOrder(cs: seq<Command>, midiToFrequency: Byte -> real)
    ensures |InvokeAll(cs, midiToFrequency)| == |cs|
    ensures forall i :: 0 <= i < |cs| ==> InvokeAll(cs, midiToFrequency)[i] == Invoke(cs[i], midiToFrequency)[0]
  {
    if cs != [] {
      var n := |cs| - 1;
      InvokeAllInOrder(cs[..n], midiToFrequency);
      forall i | 0 <= i < n
        ensures cs[..n][i] == cs[i]
      {
      }
    }
  }
}
