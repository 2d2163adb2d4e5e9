// Model of audio_backend/src/id/mod.rs: the registry of instrument kinds and
// the conversion from a numeric instrument id.
module InstrumentIds {
  /** `InstrumentId` is a `u64`. */
  type InstrumentId = x: nat | x < 0x1_0000_0000_0000_0000

  /** The instrument kinds, numbered from 1. */
  datatype Instrument = Oscillator | SamplePlayer

  /** The enum's discriminant: `Oscillator = 1`, and the next one follows. */
  function Discriminant(i: Instrument): (id: InstrumentId)
    ensures id == 1 || id == 2
  {
    match i
    case Oscillator => 1
    case SamplePlayer => 2
  }

  /** The ids the conversion accepts; any other id panics. */
  predicate Known(id: InstrumentId)
  {
    id == 1 || id == 2
  }

  /** `From<InstrumentId>`: 1 is the oscillator, 2 the sample player. */
  function FromId(id: InstrumentId): (i: Instrument)
    requires Known(id)
    ensures id == 1 ==> i == Oscillator
    ensures id == 2 ==> i == SamplePlayer
  {
    if id == 1 then Oscillator else SamplePlayer
  }

  /** Every kind's discriminant converts back to that kind. */
  lemma DiscriminantRoundTrip(i: Instrument)
    ensures Known(Discriminant(i)) && FromId(Discriminant(i)) == i
  {
  }

  /** Every accepted id is the discriminant of the kind it converts to. */
  lemma IdRoundTrip(id: InstrumentId)
    requires Known(id)
    ensures Discriminant(FromId(id)) == id
  {
  }
}
