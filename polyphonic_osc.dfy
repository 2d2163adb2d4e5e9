// Model of audio_backend/src/instruments/polyphonic_osc.rs: an instrument
// with a fixed number of oscillator voice slots. A note takes the first slot
// that is free or already holds that note; with none, the note is dropped.
// The oscillator node is always active, so a slot is busy exactly while its
// envelope is.
module PolyphonicOsc {
  import opened Wrappers
  import opened Effects
  import opened InfraVoice

  /** A voice together with the note it was last given. */
  datatype Slot = Slot(noteId: Option<Byte>, inner: Voice)

  /** Every slot holds an oscillator voice, whose node is always active. */
  predicate SlotsValid(slots: seq<Slot>)
  {
    forall i :: 0 <= i < |slots| ==> slots[i].inner.nodeActive && ChainValid(slots[i].inner.effects)
  }

  /** A fresh oscillator voice: id 0, an idle envelope, the given pan, an empty 10-effect chain. */
  function NewOscVoice(pan: real): (v: Voice)
    ensures !IsActive(v) && v.nodeActive && v.pan == pan && v.effects == NewChain(VoiceChainCapacity)
  {
    Voice(0, true, None, false, false, pan, NewChain(VoiceChainCapacity), [])
  }

  /** A slot `note_on` may use: its voice is free, or it already holds the note. */
  predicate Eligible(s: Slot, note: Byte)
  {
    !IsActive(s.inner) || s.noteId == Some(note)
  }

  function FirstEligible(slots: seq<Slot>, note: Byte): (r: Option<nat>)
    ensures r.Some? ==> r.value < |slots| && Eligible(slots[r.value], note)
    ensures r.Some? ==> forall j :: 0 <= j < r.value ==> !Eligible(slots[j], note)
    ensures r.None? <==> forall j :: 0 <= j < |slots| ==> !Eligible(slots[j], note)
  {
    if slots == [] then None
    else if Eligible(slots[0], note) then Some(0)
    else match FirstEligible(slots[1..], note)
      case None => None
      case Some(k) => Some(k + 1)
  }

  /** The slots after `note_on`; an oscillator node is always active, so it stays active. */
  function NoteOnSlots(slots: seq<Slot>, note: Byte, velocity: Byte): (r: seq<Slot>)
    ensures |r| == |slots|
    ensures SlotsValid(slots) ==> SlotsValid(r)
  {
    match FirstEligible(slots, note)
    case None => slots
    case Some(i) => slots[i := Slot(Some(note), NoteOn(slots[i].inner, note, velocity, true))]
  }

  /** The slots after `note_off`: every active voice is gated off; note ids stay. */
  function NoteOffSlots(slots: seq<Slot>): (r: seq<Slot>)
    ensures |r| == |slots|
    ensures SlotsValid(slots) ==> SlotsValid(r)
  {
    seq(|slots|, i requires 0 <= i < |slots| =>
      if IsActive(slots[i].inner) then slots[i].(inner := NoteOff(slots[i].inner)) else slots[i])
  }

  /** The slots after `add_voice_effects`: effect i goes to slot i; extra effects are dropped. */
  function ZipEffects(slots: seq<Slot>, es: seq<EffectId>): (r: seq<Slot>)
    ensures |r| == |slots|
    ensures SlotsValid(slots) ==> SlotsValid(r)
  {
    seq(|slots|, i requires 0 <= i < |slots| =>
      if i < |es| then slots[i].(inner := AddVoiceEffect(slots[i].inner, es[i])) else slots[i])
  }

  /**
   * `note_on` uses the first slot that is free or holds the note, leaving
   * every slot before it busy with another note; that slot now plays the
   * note and every other slot is unchanged. With no such slot nothing
   * changes.
   */
  lemma NoteOnAllocation(slots: seq<Slot>, note: Byte, velocity: Byte)
    requires SlotsValid(slots)
    ensures var r := NoteOnSlots(slots, note, velocity);
            && ((forall j :: 0 <= j < |slots| ==> IsActive(slots[j].inner) && slots[j].noteId != Some(note)) ==> r == slots)
            && forall i :: (0 <= i < |slots| && Eligible(slots[i], note)
                            && (forall j :: 0 <= j < i ==> !Eligible(slots[j], note))) ==>
                   && r[i].noteId == Some(note) && IsActive(r[i].inner) && r[i].inner.gate
                   && r[i].inner.nodeNote == Some(note)
                   && (forall j :: 0 <= j < |slots| && j != i ==> r[j] == slots[j])
  {
    match FirstEligible(slots, note) {
      case None =>
      case Some(k) =>
        forall i | 0 <= i < |slots| && Eligible(slots[i], note) && (forall j :: 0 <= j < i ==> !Eligible(slots[j], note))
          ensures i == k
        {
        }
    }
  }

  /** A note already sounding is retriggered in its own slot when no earlier slot is free. */
  lemma RetriggerSameSlot(slots: seq<Slot>, note: Byte, velocity: Byte, i: nat)
    requires SlotsValid(slots) && i < |slots| && slots[i].noteId == Some(note)
    requires forall j :: 0 <= j < i ==> IsActive(slots[j].inner) && slots[j].noteId != Some(note)
    ensures FirstEligible(slots, note) == Some(i)
    ensures NoteOnSlots(slots, note, velocity)[i].inner.gate
  {
    match FirstEligible(slots, note) {
      case None =>
      case Some(k) =>
    }
  }

  /**
   * `note_off` gates off every voice and keeps each slot's note id, so a
   * released slot that is still sounding is retriggered by its old note.
   */
  lemma NoteOffGatesAll(slots: seq<Slot>)
    requires SlotsValid(slots)
    ensures var r := NoteOffSlots(slots);
            && (forall i :: 0 <= i < |slots| ==> !r[i].inner.gate || !IsActive(slots[i].inner))
            && (forall i :: 0 <= i < |slots| ==> r[i].noteId == slots[i].noteId)
            && (forall i :: 0 <= i < |slots| ==> IsActive(r[i].inner) == IsActive(slots[i].inner))
  {
  }

  /** Pairing effects with slots gives slot i exactly effect i while there are both. */
  lemma ZipEffectsPairs(slots: seq<Slot>, es: seq<EffectId>)
    requires SlotsValid(slots)
    ensures var r := ZipEffects(slots, es);
            && (forall i :: 0 <= i < |slots| && i < |es| && |slots[i].inner.effects.effects| < slots[i].inner.effects.capacity ==>
                  r[i].inner.effects.effects == slots[i].inner.effects.effects + [es[i]])
            && (forall i :: |es| <= i < |slots| ==> r[i] == slots[i])
  {
  }

  /** The `PolyphonicOscillator` struct. */
  class PolyphonicOscillator {
    const instrumentId: nat
    var slots: seq<Slot>

    predicate Valid()
      reads this
    {
      SlotsValid(slots)
    }

    /** `new`: `maxPolyphony` empty slots, each an idle oscillator voice with the given pan. */
    constructor (instrumentId: nat, pan: real, maxPolyphony: Byte)
      ensures Valid() && this.instrumentId == instrumentId && |slots| == maxPolyphony
      ensures forall i :: 0 <= i < |slots| ==> slots[i] == Slot(None, NewOscVoice(pan))
    {
      this.instrumentId := instrumentId;
      var ss: seq<Slot> := [];
      while |ss| < maxPolyphony
        invariant |ss| <= maxPolyphony
        invariant forall i :: 0 <= i < |ss| ==> ss[i] == Slot(None, NewOscVoice(pan))
      {
        ss := ss + [Slot(None, NewOscVoice(pan))];
      }
      slots := ss;
    }

    /** `id`. */
    method Id() returns (id: nat)
      ensures id == instrumentId
    {
      return instrumentId;
    }

    method NoteOn(note: Byte, velocity: Byte)
      requires Valid()
      modifies this
      ensures Valid() && slots == NoteOnSlots(old(slots), note, velocity)
    {
      var i := 0;
      while i < |slots|
        invariant 0 <= i <= |slots|
        invariant forall j :: 0 <= j < i ==> !Eligible(slots[j], note)
      {
        if Eligible(slots[i], note) {
          FirstEligibleIs(slots, note, i);
          slots := slots[i := Slot(Some(note), InfraVoice.NoteOn(slots[i].inner, note, velocity, true))];
          return;
        }
        i := i + 1;
      }
      // No free slot: the note is dropped.
    }

    method NoteOff()
      requires Valid()
      modifies this
      ensures Valid() && slots == NoteOffSlots(old(slots))
    {
      var i := 0;
      while i < |slots|
        invariant 0 <= i <= |slots| == |old(slots)|
        invariant forall j :: 0 <= j < i ==> slots[j] == NoteOffSlots(old(slots))[j]
        invariant forall j :: i <= j < |slots| ==> slots[j] == old(slots)[j]
      {
        if IsActive(slots[i].inner) {
          slots := slots[i := slots[i].(inner := InfraVoice.NoteOff(slots[i].inner))];
        }
        i := i + 1;
      }
    }

    /** `set_pan`: every voice takes the clamped pan. */
    method SetPan(p: real)
      requires Valid()
      modifies this
      ensures Valid() && |slots| == |old(slots)|
      ensures forall i :: 0 <= i < |slots| ==> slots[i] == old(slots)[i].(inner := InfraVoice.SetPan(old(slots)[i].inner, p))
    {
      var i := 0;
      while i < |slots|
        invariant 0 <= i <= |slots| == |old(slots)|
        invariant forall j :: 0 <= j < i ==> slots[j] == old(slots)[j].(inner := InfraVoice.SetPan(old(slots)[j].inner, p))
        invariant forall j :: i <= j < |slots| ==> slots[j] == old(slots)[j]
      {
        slots := slots[i := slots[i].(inner := InfraVoice.SetPan(slots[i].inner, p))];
        i := i + 1;
      }
    }

    /** `add_effect`: a polyphonic instrument ignores a single shared effect. */
    method AddEffect(e: EffectId)
      requires Valid()
      modifies this
      ensures Valid() && slots == old(slots)
    {
    }

    method AddVoiceEffects(es: seq<EffectId>)
      requires Valid()
      modifies this
      ensures Valid() && slots == ZipEffects(old(slots), es)
    {
      var i := 0;
      while i < |slots| && i < |es|
        invariant 0 <= i <= |slots| == |old(slots)|
        invariant forall j :: 0 <= j < i ==> slots[j] == ZipEffects(old(slots), es)[j]
        invariant forall j :: i <= j < |slots| ==> slots[j] == old(slots)[j]
      {
        slots := slots[i := slots[i].(inner := AddVoiceEffect(slots[i].inner, es[i]))];
        i := i + 1;
      }
    }

    /** `set_effect_parameter`: handed to every voice's chain. */
    method SetEffectParameter(effectIndex: nat, paramIndex: nat, value: real)
      requires Valid()
      modifies this
      ensures Valid() && |slots| == |old(slots)|
      ensures forall i :: 0 <= i < |slots| ==>
                slots[i] == old(slots)[i].(inner := InfraVoice.SetEffectParameter(old(slots)[i].inner, effectIndex, paramIndex, value))
    {
      var i := 0;
      while i < |slots|
        invariant 0 <= i <= |slots| == |old(slots)|
        invariant forall j :: 0 <= j < i ==>
                    slots[j] == old(slots)[j].(inner := InfraVoice.SetEffectParameter(old(slots)[j].inner, effectIndex, paramIndex, value))
        invariant forall j :: i <= j < |slots| ==> slots[j] == old(slots)[j]
      {
        slots := slots[i := slots[i].(inner := InfraVoice.SetEffectParameter(slots[i].inner, effectIndex, paramIndex, value))];
        i := i + 1;
      }
    }
  }

  lemma FirstEligibleIs(slots: seq<Slot>, note: Byte, i: nat)
    requires i < |slots| && Eligible(slots[i], note) && forall j :: 0 <= j < i ==> !Eligible(slots[j], note)
    ensures FirstEligible(slots, note) == Some(i)
  {
    match FirstEligible(slots, note) {
      case None =>
      case Some(k) =>
    }
  }
}
