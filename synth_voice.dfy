// Model of audio_backend/src/synths/voice.rs: one voice of the voice
// manager, an oscillator shaped by the linear ADSR generator. The
// oscillator is reduced to its waveform; its samples are inputs, and its
// frequency (a `powf` of the note) is not modelled.
module SynthVoice {
  import opened Wrappers
  import opened SynthAdsr

  /** The waveforms of audio_backend/src/synths/waveform.rs. */
  datatype Waveform = Sine | Square | Triangle | Sawtooth

  /** The fields of one voice; `startTime` is the frame count the voice started at. */
  datatype Voice = Voice(
    waveform: Waveform,
    envelope: AdsrValue,
    note: Option<Byte>,
    velocity: real,
    activeFlag: bool,
    startTime: nat)

  /** `get_current_time`: a stub that always answers frame 0. */
  function CurrentTime(): (t: nat)
    ensures t == 0
  {
    0
  }

  /** `is_active`: the flag, or an envelope that has not finished. */
  predicate IsActive(v: Voice)
  {
    v.activeFlag || !IsFinished(v.envelope)
  }

  /** `is_playing`: the voice holds exactly this note. */
  predicate IsPlaying(v: Voice, note: Byte)
  {
    v.note == Some(note)
  }

  /**
   * What the operations below keep: the flag is up exactly while the
   * envelope runs, and a lowered flag means silence and no note.
   */
  predicate Coherent(v: Voice)
  {
    && TimesPositive(v.envelope)
    && (v.activeFlag <==> !IsFinished(v.envelope))
    && (!v.activeFlag ==> v.envelope.amplitude == 0.0 && v.note == None)
  }

  /** `Voice::new`: no note, flag down, an idle default envelope, started at 0. */
  function NewVoice(sampleRate: real): (v: Voice)
    requires sampleRate > 0.0
    ensures Coherent(v) && !IsActive(v) && v.note == None && v.startTime == 0
    ensures InRange(v.envelope) && v.envelope.sampleRate == sampleRate
  {
    Voice(Sine, NewAdsr(sampleRate), None, 0.0, false, 0)
  }

  /**
   * `note_on`: the voice records the note and velocity, raises its flag,
   * takes the waveform and restarts its envelope from silence.
   */
  function VoiceNoteOn(v: Voice, note: Byte, velocity: real, waveform: Waveform): (r: Voice)
    requires TimesPositive(v.envelope)
    ensures Coherent(r) && IsActive(r) && IsPlaying(r, note)
    ensures r.velocity == velocity && r.waveform == waveform && r.startTime == CurrentTime()
    ensures r.envelope.stage == Attack && r.envelope.amplitude == 0.0
    ensures 0.0 <= velocity <= 1.0 ==> r.envelope.peak == velocity
    ensures InRange(v.envelope) ==> InRange(r.envelope)
  {
    Voice(waveform, NoteOnWithVelocity(Reset(v.envelope), velocity), Some(note), velocity, true, CurrentTime())
  }

  /** `note_off`: releases the envelope; note and flag stay until it finishes. */
  function VoiceNoteOff(v: Voice): (r: Voice)
    requires Coherent(v)
    ensures Coherent(r) && r.note == v.note && r.activeFlag == v.activeFlag
    ensures v.activeFlag ==> r.envelope.stage == Release
    ensures !v.activeFlag ==> r == v
    ensures InRange(v.envelope) ==> InRange(r.envelope)
  {
    v.(envelope := NoteOff(v.envelope))
  }

  /** `set_adsr`: new envelope parameters; the running stage is kept. */
  function VoiceSetAdsr(v: Voice, attack: real, decay: real, sustain: real, release: real): (r: Voice)
    requires Coherent(v) && attack > 0.0 && decay > 0.0 && release > 0.0
    ensures Coherent(r) && r.note == v.note && r.activeFlag == v.activeFlag
    ensures r.envelope.stage == v.envelope.stage && r.envelope.amplitude == v.envelope.amplitude
    ensures r.envelope.attackTime == attack && r.envelope.decayTime == decay
    ensures r.envelope.sustainLevel == sustain && r.envelope.releaseTime == release
  {
    v.(envelope := WithParams(v.envelope, attack, decay, sustain, release))
  }

  /**
   * The state `next_sample` leaves: a voice with its flag down is left
   * alone; otherwise the envelope advances one sample, and when it
   * finishes the flag drops and the note is forgotten.
   */
  function VoiceStep(v: Voice): (r: Voice)
    requires Coherent(v)
    ensures Coherent(r)
    ensures !v.activeFlag ==> r == v
    ensures v.activeFlag ==> r.envelope == Next(v.envelope)
    ensures v.activeFlag && !IsFinished(r.envelope) ==> r == v.(envelope := r.envelope)
    ensures v.activeFlag && IsFinished(r.envelope) ==> !IsActive(r) && r.note == None
  {
    if !v.activeFlag then v
    else
      var env := Next(v.envelope);
      if IsFinished(env) then v.(envelope := env, activeFlag := false, note := None)
      else v.(envelope := env)
  }

  /**
   * The sample `next_sample` returns as written: the envelope level is
   * applied twice, once inside the sample and once more on return.
   */
  function VoiceOutputAsWritten(v: Voice, oscSample: real): (out: real)
    requires Coherent(v)
    ensures !v.activeFlag ==> out == 0.0
  {
    if !v.activeFlag then 0.0
    else
      var env := Next(v.envelope).amplitude;
      env * (oscSample * env * v.velocity)
  }

  /** The sample `next_sample` evidently means: the oscillator shaped once by envelope and velocity. */
  function VoiceOutput(v: Voice, oscSample: real): (out: real)
    requires Coherent(v)
    ensures !v.activeFlag ==> out == 0.0
  {
    if !v.activeFlag then 0.0
    else oscSample * Next(v.envelope).amplitude * v.velocity
  }

  /**
   * The two outputs differ by a factor of the new envelope level: they
   * agree only at silence or at full level.
   */
  lemma AsWrittenScalesTwice(v: Voice, oscSample: real)
    requires Coherent(v)
    ensures VoiceOutputAsWritten(v, oscSample) == VoiceStep(v).envelope.amplitude * VoiceOutput(v, oscSample)
  {
  }

  /**
   * A sustaining voice at half level and full velocity with an oscillator
   * sample of 1 returns 0.25 as written instead of 0.5.
   */
  lemma AsWrittenHalfLevel()
    ensures var env := AdsrValue(Sustain, 1000.0, 0.01, 0.1, 0.5, 0.1, 0.5, 0.0, 1.0);
            var v := Voice(Sine, env, Some(60), 1.0, true, 0);
            && Coherent(v)
            && VoiceOutputAsWritten(v, 1.0) == 0.25
            && VoiceOutput(v, 1.0) == 0.5
  {
  }

  /** A voice with its flag down is silent and unchanged. */
  lemma InactiveVoiceSilent(v: Voice, oscSample: real)
    requires Coherent(v) && !IsActive(v)
    ensures VoiceStep(v) == v && VoiceOutput(v, oscSample) == 0.0 && v.note == None
  {
  }

  /** With a fractional sustain and velocity, the output is within the oscillator's amplitude. */
  lemma OutputBounded(v: Voice, oscSample: real)
    requires Coherent(v) && InRange(v.envelope) && 0.0 <= v.velocity <= 1.0
    requires -1.0 <= oscSample <= 1.0
    ensures -1.0 <= VoiceOutput(v, oscSample) <= 1.0
  {
    if v.activeFlag {
      NextInRange(v.envelope);
      var e := Next(v.envelope).amplitude;
      UnitProduct(oscSample, e);
      UnitProduct(oscSample * e, v.velocity);
    }
  }

  /** The as-written sample is bounded the same way: one more factor in [0, 1] keeps it there. */
  lemma OutputAsWrittenBounded(v: Voice, oscSample: real)
    requires Coherent(v) && InRange(v.envelope) && 0.0 <= v.velocity <= 1.0
    requires -1.0 <= oscSample <= 1.0
    ensures -1.0 <= VoiceOutputAsWritten(v, oscSample) <= 1.0
  {
    if v.activeFlag {
      NextInRange(v.envelope);
      var e := Next(v.envelope).amplitude;
      UnitProduct(oscSample, e);
      UnitProduct(oscSample * e, v.velocity);
      UnitProduct(oscSample * e * v.velocity, e);
      assert e * (oscSample * e * v.velocity) == (oscSample * e * v.velocity) * e;
    }
  }

  lemma UnitProduct(x: real, y: real)
    requires -1.0 <= x <= 1.0 && 0.0 <= y <= 1.0
    ensures -1.0 <= x * y <= 1.0
  {
    if x >= 0.0 {
      MulNonneg(x, y);
      MulNonneg(1.0 - x, y);
    } else {
      MulNonneg(-x, y);
      MulNonneg(1.0 + x, y);
    }
  }

  /** `n` calls of `next_sample`. */
  function VoiceStepN(v: Voice, n: nat): (r: Voice)
    requires Coherent(v)
    ensures Coherent(r)
    decreases n
  {
    if n == 0 then v else VoiceStepN(VoiceStep(v), n - 1)
  }

  /** Over any number of samples a voice's envelope runs exactly as the generator alone would. */
  lemma {:induction false} StepNTracksEnvelope(v: Voice, n: nat)
    requires Coherent(v)
    ensures VoiceStepN(v, n).envelope == NextN(v.envelope, n)
    ensures IsFinished(VoiceStepN(v, n).envelope) ==> !IsActive(VoiceStepN(v, n)) && VoiceStepN(v, n).note == None
    decreases n
  {
    if n > 0 {
      if v.activeFlag {
        StepNTracksEnvelope(VoiceStep(v), n - 1);
      } else {
        IdleStaysIdle(v.envelope, n);
        IdleVoiceStays(v, n);
      }
    }
  }

  lemma {:induction false} IdleVoiceStays(v: Voice, n: nat)
    requires Coherent(v) && !v.activeFlag
    ensures VoiceStepN(v, n) == v
    decreases n
  {
    if n > 0 {
      IdleVoiceStays(v, n - 1);
    }
  }

  /**
   * A sounding voice that gets `note_off` is free again, with no note,
   * after any n >= 1 samples with n >= release time * sample rate.
   */
  lemma ReleasedVoiceFrees(v: Voice, n: nat)
    requires Coherent(v) && InRange(v.envelope) && v.activeFlag
    requires n >= 1 && n as real >= v.envelope.releaseTime * v.envelope.sampleRate
    ensures !IsActive(VoiceStepN(VoiceNoteOff(v), n)) && VoiceStepN(VoiceNoteOff(v), n).note == None
  {
    NoteOffFinishes(v.envelope, n);
    StepNTracksEnvelope(VoiceNoteOff(v), n);
  }
}
