// Model of harmony/src/note.rs: a note's pitch letter, accidental and
// octave, and the text its `Display` implementations print.
module HarmonyNote {
  import opened Wrappers

  datatype Pitch = A | B | C | D | E | F | G
  datatype Accidental = Sharp | Flat | Natural

  /** `Note`: the frequency is kept as the text it was converted to. */
  datatype Note = Note(pitch: Pitch, accidental: Accidental, octave: Byte, frequency: string, noteLabel: string)

  /** `NoteInner`, as deserialised from the notes file; the frequency is still a number. */
  datatype NoteInner = NoteInner(pitch: Pitch, accidental: Accidental, octave: Byte, frequency: real, noteLabel: string)

  // ---------------------------------------------------------------------
  // Display

  /** `Display for Pitch`: the pitch's own upper-case letter. */
  function PitchText(p: Pitch): (s: string)
    ensures |s| == 1 && 'A' <= s[0] <= 'G'
  {
    match p
    case A => "A"
    case B => "B"
    case C => "C"
    case D => "D"
    case E => "E"
    case F => "F"
    case G => "G"
  }

  /** `Display for Accidental`: "#", "b", or nothing for a natural. */
  function AccidentalText(a: Accidental): (s: string)
    ensures |s| <= 1
    ensures |s| == 0 <==> a == Natural
  {
    match a
    case Sharp => "#"
    case Flat => "b"
    case Natural => ""
  }

  function DigitChar(d: nat): (c: char)
    requires d < 10
    ensures '0' <= c <= '9'
  {
    "0123456789"[d]
  }

  predicate IsDigit(c: char)
  {
    '0' <= c <= '9'
  }

  function DigitValue(c: char): (d: nat)
    requires IsDigit(c)
    ensures d < 10
  {
    (c as int) - ('0' as int)
  }

  lemma DigitRoundTrip(d: nat)
    requires d < 10
    ensures DigitValue(DigitChar(d)) == d
  {
  }

  /** An unsigned integer in decimal, as `{}` prints it: no sign, no leading zero. */
  function DecimalText(n: nat): (s: string)
    ensures |s| > 0
    ensures forall i :: 0 <= i < |s| ==> IsDigit(s[i])
    ensures n >= 10 ==> s[0] != '0'
    decreases n
  {
    if n < 10 then [DigitChar(n)] else DecimalText(n / 10) + [DigitChar(n % 10)]
  }

  /** The value of a run of decimal digits. */
  function DecimalValue(s: string): nat
    requires forall i :: 0 <= i < |s| ==> IsDigit(s[i])
  {
    if s == [] then 0
    else
      assert IsDigit(s[|s| - 1]);
      DecimalValue(s[..|s| - 1]) * 10 + DigitValue(s[|s| - 1])
  }

  /** Printing a number in decimal and reading it back gives the number. */
  lemma {:induction false} DecimalRoundTrip(n: nat)
    ensures DecimalValue(DecimalText(n)) == n
    decreases n
  {
    var s := DecimalText(n);
    DigitRoundTrip(n % 10);
    if n >= 10 {
      DecimalRoundTrip(n / 10);
      assert s[..|s| - 1] == DecimalText(n / 10);
    }
  }

  /** `Display for Note`: pitch, accidental and octave, with no separators. */
  function NoteText(n: Note): string
  {
    PitchText(n.pitch) + AccidentalText(n.accidental) + DecimalText(n.octave)
  }

  /** The pitch a letter names. */
  function PitchOf(c: char): Option<Pitch>
  {
    match c
    case 'A' => Some(A)
    case 'B' => Some(B)
    case 'C' => Some(C)
    case 'D' => Some(D)
    case 'E' => Some(E)
    case 'F' => Some(F)
    case 'G' => Some(G)
    case _ => None
  }

  /** Reading a note's text back: letter, optional '#' or 'b', then the octave's digits. */
  function ParseNoteText(s: string): Option<(Pitch, Accidental, nat)>
  {
    if |s| < 2 || PitchOf(s[0]).None? then None
    else
      var acc := if s[1] == '#' then Sharp else if s[1] == 'b' then Flat else Natural;
      var digits := if acc == Natural then s[1..] else s[2..];
      if |digits| > 0 && forall i :: 0 <= i < |digits| ==> IsDigit(digits[i])
      then Some((PitchOf(s[0]).value, acc, DecimalValue(digits)))
      else None
  }

  /** The printed text of a note determines its pitch, accidental and octave. */
  lemma NoteTextRoundTrip(n: Note)
    ensures ParseNoteText(NoteText(n)) == Some((n.pitch, n.accidental, n.octave as nat))
  {
    var s := NoteText(n);
    var p, a, d := PitchText(n.pitch), AccidentalText(n.accidental), DecimalText(n.octave);
    assert s[0] == p[0];
    DecimalRoundTrip(n.octave);
    if n.accidental == Natural {
      assert s[1..] == d;
    } else {
      assert s[1] == a[0];
      assert s[2..] == d;
    }
  }

  /** So two notes print alike only when their pitch, accidental and octave agree. */
  lemma NoteTextInjective(n: Note, m: Note)
    requires NoteText(n) == NoteText(m)
    ensures n.pitch == m.pitch && n.accidental == m.accidental && n.octave == m.octave
  {
    NoteTextRoundTrip(n);
    NoteTextRoundTrip(m);
  }

  // ---------------------------------------------------------------------
  // Construction

  /** `Note::new`: C natural in octave 4, labelled "C4", with the frequency text "440". */
  function NewNote(): (n: Note)
    ensures n.pitch == C && n.accidental == Natural && n.octave == 4
    ensures n.noteLabel == NoteText(n) == "C4"
    ensures n.frequency == "440"
  {
    Note(C, Natural, 4, "440", "C4")
  }

  /**
   * `From<NoteInner>`: every field is copied and the frequency is printed;
   * `formatFrequency` stands for the float formatting of `to_string`.
   */
  function FromInner(inner: NoteInner, formatFrequency: real -> string): (n: Note)
    ensures NoteText(n) == PitchText(inner.pitch) + AccidentalText(inner.accidental) + DecimalText(inner.octave)
    ensures n.noteLabel == inner.noteLabel && n.frequency == formatFrequency(inner.frequency)
    ensures ToInner(n, inner.frequency) == inner
  {
    Note(inner.pitch, inner.accidental, inner.octave, formatFrequency(inner.frequency), inner.noteLabel)
  }

  /** The deserialised form a note came from, given the number its frequency text printed. */
  function ToInner(n: Note, frequency: real): NoteInner
  {
    NoteInner(n.pitch, n.accidental, n.octave, frequency, n.noteLabel)
  }
}
