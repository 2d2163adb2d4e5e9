// Model of harmony/src/scales.rs: the twelve note names of the chromatic
// scale in one octave, written with sharps.
module Scales {
  import opened Wrappers
  import opened HarmonyNote

  /** `CROMATIC`: the twelve semitones from C, sharps for the black keys. */
  const Cromatic: seq<string> := ["C", "C#", "D", "D#", "E", "F", "F#", "G", "G#", "A", "A#", "B"]

  /** The pitch and accidental each semitone name stands for. */
  const CromaticNotes: seq<(Pitch, Accidental)> :=
    [(C, Natural), (C, Sharp), (D, Natural), (D, Sharp), (E, Natural), (F, Natural),
     (F, Sharp), (G, Natural), (G, Sharp), (A, Natural), (A, Sharp), (B, Natural)]

  /** The name of semitone `i` in `octave`: its letter, '#' for a black key, then the octave. */
  function ScaleEntry(i: nat, octave: Byte): (s: string)
    requires i < 12
    ensures s == PitchText(CromaticNotes[i].0) + AccidentalText(CromaticNotes[i].1) + DecimalText(octave)
  {
    Cromatic[i] + DecimalText(octave)
  }

  /** The names `get_notes_for_cromatic_scale_in_octave` returns. */
  function CromaticScale(octave: Byte): (r: seq<string>)
    ensures |r| == 12
  {
    seq(12, i requires 0 <= i < 12 => ScaleEntry(i, octave))
  }

  /** `get_notes_for_cromatic_scale_in_octave`: one name pushed per semitone, in order. */
  method GetNotesForCromaticScaleInOctave(octave: Byte) returns (notes: seq<string>)
    ensures notes == CromaticScale(octave)
    ensures forall i :: 0 <= i < 12 ==> notes[i] == Cromatic[i] + DecimalText(octave)
  {
    notes := [];
    for i := 0 to |Cromatic|
      invariant notes == CromaticScale(octave)[..i]
    {
      notes := notes + [Cromatic[i] + DecimalText(octave)];
    }
  }

  /**
   * Entry i is exactly what `Display` prints for a note with semitone i's
   * pitch and accidental in that octave, so it can be used to look notes up
   * by their printed name.
   */
  lemma ScaleEntryIsNoteText(octave: Byte, i: nat, n: Note)
    requires i < 12
    requires n.pitch == CromaticNotes[i].0 && n.accidental == CromaticNotes[i].1 && n.octave == octave
    ensures CromaticScale(octave)[i] == NoteText(n)
  {
  }

  /**
   * No name is repeated, within one octave or across octaves: equal names
   * mean the same semitone of the same octave.
   */
  lemma ScaleEntriesDistinct(o1: Byte, o2: Byte, i: nat, j: nat)
    requires i < 12 && j < 12
    requires CromaticScale(o1)[i] == CromaticScale(o2)[j]
    ensures i == j && o1 == o2
  {
    var n1 := Note(CromaticNotes[i].0, CromaticNotes[i].1, o1, "", "");
    var n2 := Note(CromaticNotes[j].0, CromaticNotes[j].1, o2, "", "");
    ScaleEntryIsNoteText(o1, i, n1);
    ScaleEntryIsNoteText(o2, j, n2);
    NoteTextInjective(n1, n2);
    CromaticNotesDistinct();
  }

  lemma CromaticNotesDistinct()
    ensures forall i, j :: 0 <= i < 12 && 0 <= j < 12 && CromaticNotes[i] == CromaticNotes[j] ==> i == j
  {
  }
}
