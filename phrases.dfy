// Model of tracker_gui/src/tabs/phrases.rs: the phrase bank editor, its step
// selection and the per-event note, volume and instrument cells.
module PhrasesTab {
  import opened Wrappers
  import opened SongModel
  import opened TabSelection
  import Hex

  /** What a note or volume cell shows before it is first edited: nothing for 0, else `{:X}`. */
  function InitialBuffer(v: Byte): string
  {
    if v == 0 then "" else Hex.FormatUpperHex(v)
  }

  /** Accepting a cell's initial text as typed leaves the event's value as it was. */
  lemma InitialBufferRoundTrip(v: Byte)
    ensures var b := InitialBuffer(v);
            Hex.HexU8Editor(true, b, b, v) == Hex.Edit(b, v)
  {
    var b := InitialBuffer(v);
    if v != 0 {
      Hex.FormatParseRoundTrip(v);
      Hex.FormatUpperHexShort(v);
      Hex.KeepHexOfHex(b);
    }
  }

  /** The note cell: `hex_u8_editor` on the event's note. */
  function EditNote(e: Event, changed: bool, text: string, buf: string): (r: (Event, string))
    ensures r.0 == e.(note := r.0.note)
    ensures !changed ==> r == (e, buf)
    ensures changed ==> r.1 == Hex.Filtered(text)
  {
    var ed := Hex.HexU8Editor(changed, text, buf, e.note);
    (e.(note := ed.value), ed.buf)
  }

  /** The volume cell: `hex_u8_editor` on the event's volume. */
  function EditVolume(e: Event, changed: bool, text: string, buf: string): (r: (Event, string))
    ensures r.0 == e.(volume := r.0.volume)
    ensures !changed ==> r == (e, buf)
    ensures changed ==> r.1 == Hex.Filtered(text)
  {
    var ed := Hex.HexU8Editor(changed, text, buf, e.volume);
    (e.(volume := ed.value), ed.buf)
  }

  /**
   * The instrument id the combo box writes for a bank instrument, as written:
   * `(inst.id as u8).min(u8::MAX)` casts first, so the id wraps modulo 256
   * and the `min` never applies.
   */
  function InstrumentIdAsWritten(id: nat): Byte
  {
    var truncated := id % 256;
    if truncated < 255 then truncated else 255
  }

  /** Instrument 256 is written as 0, which the tracker reads as "no instrument". */
  lemma InstrumentIdAsWrittenWraps()
    ensures InstrumentIdAsWritten(256) == 0
    ensures InstrumentIdAsWritten(300) == 44
  {
  }

  /** The evidently intended clamp: ids above 255 saturate at 255. */
  function SaturatingInstrumentId(id: nat): (r: Byte)
  {
    if id < 255 then id else 255
  }

  /**
   * The clamp keeps every byte id, never turns a real instrument into "no
   * instrument", and agrees with the code as written on all byte ids.
   */
  lemma SaturatingInstrumentIdSpec(id: nat)
    ensures id < 256 ==> SaturatingInstrumentId(id) == id
    ensures id >= 256 ==> SaturatingInstrumentId(id) == 255
    ensures SaturatingInstrumentId(id) == 0 <==> id == 0
    ensures id < 256 ==> SaturatingInstrumentId(id) == InstrumentIdAsWritten(id)
  {
  }

  /**
   * The instrument combo box: None is the "--" entry. An instrument's id is
   * written as the source writes it, wrapped modulo 256, so a real instrument
   * whose id is a multiple of 256 is stored as "no instrument".
   */
  function PickInstrument(e: Event, choice: Option<Instrument>): (r: Event)
    ensures r == e.(instrumentId := r.instrumentId)
    ensures choice == None ==> r.instrumentId == 0
    ensures choice.Some? ==> r.instrumentId == choice.value.id % 256
    ensures choice.Some? && choice.value.id < 256 ==> r.instrumentId == choice.value.id
    ensures choice.Some? ==> (r.instrumentId == 0 <==> choice.value.id % 256 == 0)
  {
    match choice
    case None => e.(instrumentId := 0)
    case Some(inst) => e.(instrumentId := InstrumentIdAsWritten(inst.id))
  }

  class PhrasesTab {
    var selectedPhrase: nat
    var selectedEventStep: Option<nat>

    constructor ()
      ensures selectedPhrase == 0 && selectedEventStep == None
    {
      selectedPhrase := 0;
      selectedEventStep := None;
    }

    method Reset()
      modifies this
      ensures selectedPhrase == 0 && selectedEventStep == None
    {
      selectedPhrase := 0;
      selectedEventStep := None;
    }

    /** "Add Phrase": one default phrase at the end; nothing else changes. */
    method AddPhrase(bank: seq<Phrase>) returns (newBank: seq<Phrase>)
      requires SelectionValid(bank, selectedPhrase)
      ensures newBank == bank + [DefaultPhrase]
      ensures SelectionValid(newBank, selectedPhrase)
    {
      newBank := bank + [DefaultPhrase];
    }

    /** "Remove Phrase": deletes the selected phrase and clamps the selection; the step selection stays. */
    method RemovePhrase(bank: seq<Phrase>) returns (newBank: seq<Phrase>)
      modifies this`selectedPhrase
      ensures Removal(newBank, selectedPhrase) == RemoveSelected(bank, old(selectedPhrase))
      ensures SelectionValid(bank, old(selectedPhrase)) ==> SelectionValid(newBank, selectedPhrase)
    {
      newBank := bank;
      if bank != [] {
        if selectedPhrase < |bank| {
          newBank := bank[..selectedPhrase] + bank[selectedPhrase + 1..];
          if selectedPhrase >= |newBank| && newBank != [] {
            selectedPhrase := |newBank| - 1;
          }
        }
      }
      if SelectionValid(bank, old(selectedPhrase)) {
        RemoveSelectedKeepsSelection(bank, old(selectedPhrase));
      }
    }

    /** A click on phrase i of the selector; changing phrase clears the step selection. */
    method SelectPhrase(bank: seq<Phrase>, i: nat)
      requires i < |bank|
      modifies this
      ensures selectedPhrase == i && selectedEventStep == None
    {
      selectedPhrase := i;
      selectedEventStep := None;
    }

    /** A click on a step label toggles that step's selection. */
    method ClickStep(step: nat)
      modifies this`selectedEventStep
      ensures selectedEventStep == if old(selectedEventStep) == Some(step) then None else Some(step)
    {
      var isSelected := selectedEventStep == Some(step);
      if isSelected {
        selectedEventStep := None;
      } else {
        selectedEventStep := Some(step);
      }
    }
  }
}
