// The tracker's song data (the `sequencer::models` types that the player and
// the editor tabs work on), with the constants they share.
module SongModel {
  import opened Wrappers

  /** Tracks per arrangement row. */
  const MaxTracks: nat := 8
  /** Events per phrase. */
  const DefaultPhraseLength: nat := 16
  /** Phrase slots per chain. */
  const DefaultChainLength: nat := 16
  /** `usize::MAX`, the value the editor uses for an empty slot. */
  const UsizeMax: nat := 0xFFFF_FFFF_FFFF_FFFF
  /** An arrangement cell that plays no chain. */
  const EmptyChainSlot: nat := UsizeMax
  /** A chain slot that plays no phrase. */
  const EmptyPhraseSlot: nat := UsizeMax
  /** Note sentinels of an event. */
  const NoNote: nat := 0
  const NoteOff: nat := 97

  /** Pattern effects (ProTracker/XM numbering plus the tracker's reverb). */
  datatype EffectType =
    | Arpeggio | PortamentoUp | PortamentoDown | TonePortamento | Vibrato
    | TonePortamentoVolumeSlide | VibratoVolumeSlide | Tremolo | SetPanning
    | SetSampleOffset | VolumeSlide | PositionJump | SetVolume | PatternBreak
    | Extended | SetSpeedOrBpm | SetReverb

  /** One step of a phrase. */
  datatype Event = Event(note: Byte, volume: Byte, instrumentId: Byte, effect: EffectType, effectParam: Byte)

  /** The empty step: no note, no instrument, no effect. */
  const DefaultEvent: Event := Event(NoNote, 0, 0, Arpeggio, 0)

  datatype Phrase = Phrase(events: seq<Event>)
  datatype Chain = Chain(phraseIndices: seq<nat>)
  datatype SongRow = SongRow(chainIndices: seq<nat>)

  const DefaultPhrase: Phrase := Phrase(seq(DefaultPhraseLength, _ => DefaultEvent))
  const DefaultChain: Chain := Chain(seq(DefaultChainLength, _ => EmptyPhraseSlot))
  const DefaultSongRow: SongRow := SongRow(seq(MaxTracks, _ => EmptyChainSlot))

  /** Oscillator shapes an instrument can select. */
  datatype Waveform = Sine | Square | Sawtooth | Triangle | NesTriangle

  /** Insert effects of an oscillator instrument, with their parameters. */
  datatype AudioEffect =
    | Reverb(wetGain: real, dryGain: real, decayTime: real, roomSize: real, diffusion: real, damping: real)
    | Delay(time: real, numTaps: Byte, feedback: real, mix: real)

  datatype InstrumentData =
    | SimpleOscillator(waveform: Waveform, audioEffects: seq<AudioEffect>)
    | OtherInstrument

  datatype Instrument = Instrument(id: nat, name: string, data: InstrumentData)

  datatype Song = Song(
    name: string,
    initialBpm: nat,
    initialSpeed: nat,
    arrangement: seq<SongRow>,
    chainBank: seq<Chain>,
    phraseBank: seq<Phrase>,
    instrumentBank: seq<Instrument>)

  /** The fixed-size arrays of the Rust types: one chain index per track, one phrase index per chain step. */
  ghost predicate WellShaped(song: Song)
  {
    (forall r :: 0 <= r < |song.arrangement| ==> |song.arrangement[r].chainIndices| == MaxTracks)
    && (forall c :: 0 <= c < |song.chainBank| ==> |song.chainBank[c].phraseIndices| == DefaultChainLength)
  }

  /** `instrument_bank.iter().any(|i| i.id == id)`. */
  predicate IdUsed(bank: seq<Instrument>, id: nat)
  {
    exists i :: 0 <= i < |bank| && bank[i].id == id
  }
}
