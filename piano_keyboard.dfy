// Model of gui/src/event_handlers/keyboard.rs: the computer keyboard played
// as a one-octave piano. Twelve keys are bound to the chromatic notes of
// octave 4; each frame the state of every bound key is read and the active
// notes and the oscillator's waveform are updated.
module PianoKeyboard {
  import opened Wrappers
  import HarmonyNote
  import Scales

  type Note = HarmonyNote.Note

  /** The keys of the keyboard that matter here; `OtherKey` stands for the rest. */
  datatype Key = A | W | S | E | D | F | T | G | Y | H | U | J | OtherKey(code: nat)

  datatype KeyState = Pressed | Held | Released

  /** The oscillator's waveform, as far as this handler sets it. */
  datatype Waveform = Sine | Silence

  /** The view model the handler drives; only its waveform is modelled. */
  class OscillatorViewModel {
    var waveform: Waveform

    constructor (w: Waveform)
      ensures waveform == w
    {
      waveform := w;
    }
  }

  /** What the frame's input reports for a key: pressed this frame, down, released this frame. */
  datatype InputState = InputState(pressed: set<Key>, down: set<Key>, released: set<Key>)

  const InitialOctave: Byte := 4

  /** The bound keys, in the order of the chromatic scale they play. */
  const KeyboardKeys: seq<Key> := [A, W, S, E, D, F, T, G, Y, H, U, J]

  lemma KeyboardKeysDistinct()
    ensures |KeyboardKeys| == 12
    ensures forall i, j :: 0 <= i < j < 12 ==> KeyboardKeys[i] != KeyboardKeys[j]
  {
  }

  // ---------------------------------------------------------------------
  // The key bindings

  /** The notes table holds every name of the octave-4 chromatic scale; `init_keys` panics otherwise. */
  predicate HasScaleNotes(notes: map<string, Note>)
  {
    forall i :: 0 <= i < 12 ==> Scales.CromaticScale(InitialOctave)[i] in notes
  }

  /** The bindings after the first n keys were inserted. */
  function KeysUpTo(notes: map<string, Note>, n: nat): map<Key, Note>
    requires n <= 12 && HasScaleNotes(notes)
  {
    if n == 0 then map[]
    else KeysUpTo(notes, n - 1)[KeyboardKeys[n - 1] := notes[Scales.CromaticScale(InitialOctave)[n - 1]]]
  }

  /** `init_keys`: key i of A W S E D F T G Y H U J plays the i-th note of octave 4. */
  method InitKeys(notes: map<string, Note>) returns (keys: map<Key, Note>)
    requires HasScaleNotes(notes)
    ensures keys == KeysUpTo(notes, 12)
  {
    keys := map[];
    var chromaticScale := Scales.GetNotesForCromaticScaleInOctave(InitialOctave);
    for index := 0 to |chromaticScale|
      invariant keys == KeysUpTo(notes, index)
    {
      keys := keys[KeyboardKeys[index] := notes[chromaticScale[index]]];
    }
  }

  /** Exactly the first n keys are bound. */
  lemma {:induction false} KeysUpToDomain(notes: map<string, Note>, n: nat)
    requires n <= 12 && HasScaleNotes(notes)
    ensures forall k :: k in KeysUpTo(notes, n) <==> k in KeyboardKeys[..n]
  {
    if n > 0 {
      KeysUpToDomain(notes, n - 1);
      assert KeyboardKeys[..n] == KeyboardKeys[..n - 1] + [KeyboardKeys[n - 1]];
    }
  }

  /** Each of the first n keys is bound to its own scale note. */
  lemma {:induction false} KeysUpToValues(notes: map<string, Note>, n: nat)
    requires n <= 12 && HasScaleNotes(notes)
    ensures forall i :: 0 <= i < n ==> KeyboardKeys[i] in KeysUpTo(notes, n)
    ensures forall i :: 0 <= i < n ==> KeysUpTo(notes, n)[KeyboardKeys[i]] == notes[Scales.CromaticScale(InitialOctave)[i]]
  {
    if n > 0 {
      KeyboardKeysDistinct();
      KeysUpToValues(notes, n - 1);
    }
  }

  /** A notes table whose entries print as the names they are filed under. */
  predicate Consistent(notes: map<string, Note>)
  {
    forall name :: name in notes ==> HarmonyNote.NoteText(notes[name]) == name
  }

  /** Two keys bound to the same note are the same key. */
  predicate Injective(keys: map<Key, Note>)
  {
    forall k1, k2 :: k1 in keys && k2 in keys && keys[k1] == keys[k2] ==> k1 == k2
  }

  /** With a consistent notes table each bound key plays a different note, the one printed as its scale name. */
  lemma InitKeysInjective(notes: map<string, Note>)
    requires HasScaleNotes(notes) && Consistent(notes)
    ensures Injective(KeysUpTo(notes, 12))
    ensures forall i :: 0 <= i < 12 ==> KeyboardKeys[i] in KeysUpTo(notes, 12)
    ensures forall i :: 0 <= i < 12 ==>
              HarmonyNote.NoteText(KeysUpTo(notes, 12)[KeyboardKeys[i]]) == Scales.CromaticScale(InitialOctave)[i]
  {
    var keys := KeysUpTo(notes, 12);
    var scale := Scales.CromaticScale(InitialOctave);
    KeysUpToDomain(notes, 12);
    KeysUpToValues(notes, 12);
    assert KeyboardKeys[..12] == KeyboardKeys;
    forall i | 0 <= i < 12
      ensures HarmonyNote.NoteText(keys[KeyboardKeys[i]]) == scale[i]
    {
      assert keys[KeyboardKeys[i]] == notes[scale[i]];
    }
    forall k1, k2 | k1 in keys && k2 in keys && keys[k1] == keys[k2]
      ensures k1 == k2
    {
      var i :| 0 <= i < 12 && KeyboardKeys[i] == k1;
      var j :| 0 <= j < 12 && KeyboardKeys[j] == k2;
      Scales.ScaleEntriesDistinct(InitialOctave, InitialOctave, i, j);
    }
  }

  // ---------------------------------------------------------------------
  // One frame of input

  /** The key's state this frame: pressed first, then held, then released; `None` skips the key. */
  function Classify(input: InputState, k: Key): (r: Option<KeyState>)
    ensures r == Some(Pressed) <==> k in input.pressed
    ensures r == Some(Held) <==> k !in input.pressed && k in input.down
    ensures r == Some(Released) <==> k !in input.pressed && k !in input.down && k in input.released
    ensures r == None <==> k !in input.pressed && k !in input.down && k !in input.released
  {
    if k in input.pressed then Some(Pressed)
    else if k in input.down then Some(Held)
    else if k in input.released then Some(Released)
    else None
  }

  /** The active notes after one key: a release removes its note, a press or hold records it. */
  function StepNotes(active: map<Note, KeyState>, note: Note, st: Option<KeyState>): map<Note, KeyState>
  {
    match st
    case None => active
    case Some(Released) => active - {note}
    case Some(s) => active[note := s]
  }

  /** The active notes after the keys of `order`, one after the other. */
  function ApplyKeys(active: map<Note, KeyState>, keys: map<Key, Note>, input: InputState, order: seq<Key>): map<Note, KeyState>
    requires forall k :: k in order ==> k in keys
  {
    if order == [] then active
    else
      var n := |order| - 1;
      StepNotes(ApplyKeys(active, keys, input, order[..n]), keys[order[n]], Classify(input, order[n]))
  }

  /** The waveform after the keys of `order`: Silence after a release, Sine after a press or hold. */
  function WaveformAfter(w: Waveform, input: InputState, order: seq<Key>): Waveform
  {
    if order == [] then w
    else
      var n := |order| - 1;
      var before := WaveformAfter(w, input, order[..n]);
      match Classify(input, order[n])
      case None => before
      case Some(Released) => Silence
      case Some(_) => Sine
  }

  /** `note` is in `after` exactly when it is in `before`, with the same state. */
  predicate Unchanged(after: map<Note, KeyState>, before: map<Note, KeyState>, note: Note)
  {
    (note in after <==> note in before) && (note in before ==> after[note] == before[note])
  }

  /** What a key's state this frame does to its note. */
  predicate Outcome(after: map<Note, KeyState>, before: map<Note, KeyState>, note: Note, st: Option<KeyState>)
  {
    match st
    case None => Unchanged(after, before, note)
    case Some(Released) => note !in after
    case Some(s) => note in after && after[note] == s
  }

  /** One key's step does to its own note what its state says, and leaves every other note alone. */
  lemma StepNotesOutcome(m: map<Note, KeyState>, note: Note, st: Option<KeyState>, other: Note)
    ensures Outcome(StepNotes(m, note, st), m, note, st)
    ensures other != note ==> Unchanged(StepNotes(m, note, st), m, other)
  {
  }

  /**
   * With every key bound to its own note, a frame leaves each bound note as
   * its key says: removed after a release, recorded as pressed or held, and
   * untouched when the key did nothing.
   */
  lemma {:induction false} ApplyKeysEffect(active: map<Note, KeyState>, keys: map<Key, Note>, input: InputState, order: seq<Key>, k: Key)
    requires forall k' :: k' in order ==> k' in keys
    requires Injective(keys) && k in order
    ensures Outcome(ApplyKeys(active, keys, input, order), active, keys[k], Classify(input, k))
  {
    var n := |order| - 1;
    var init := order[..n];
    assert forall k' :: k' in init ==> k' in order;
    var before := ApplyKeys(active, keys, input, init);
    var after := ApplyKeys(active, keys, input, order);
    var note := keys[k];
    assert after == StepNotes(before, keys[order[n]], Classify(input, order[n]));
    StepNotesOutcome(before, keys[order[n]], Classify(input, order[n]), note);
    if order[n] == k {
      if k in init {
        ApplyKeysEffect(active, keys, input, init, k);
      } else {
        ApplyKeysUntouched(active, keys, input, init, note);
      }
    } else {
      assert k in init;
      ApplyKeysEffect(active, keys, input, init, k);
    }
  }

  /** A note no key of `order` is bound to keeps its state. */
  lemma {:induction false} ApplyKeysUntouched(active: map<Note, KeyState>, keys: map<Key, Note>, input: InputState, order: seq<Key>, note: Note)
    requires forall k :: k in order ==> k in keys && keys[k] != note
    ensures Unchanged(ApplyKeys(active, keys, input, order), active, note)
  {
    if order != [] {
      var n := |order| - 1;
      assert forall k :: k in order[..n] ==> k in order;
      ApplyKeysUntouched(active, keys, input, order[..n], note);
      StepNotesOutcome(ApplyKeys(active, keys, input, order[..n]), keys[order[n]], Classify(input, order[n]), note);
    }
  }

  /** A frame in which no bound key did anything leaves the waveform as it was. */
  lemma {:induction false} QuietFrameKeepsWaveform(w: Waveform, input: InputState, order: seq<Key>)
    requires forall k :: k in order ==> Classify(input, k) == None
    ensures WaveformAfter(w, input, order) == w
  {
    if order != [] {
      var n := |order| - 1;
      assert order[n] in order;
      assert forall k :: k in order[..n] ==> k in order;
      QuietFrameKeepsWaveform(w, input, order[..n]);
    }
  }

  // ---------------------------------------------------------------------
  // Printing the held notes

  /** The held notes of `order`, each printed and followed by a space. */
  function HeldText(active: map<Note, KeyState>, order: seq<Note>): string
    requires forall n :: n in order ==> n in active
  {
    if order == [] then ""
    else
      var n := |order| - 1;
      HeldText(active, order[..n]) + (if active[order[n]] == Held then HarmonyNote.NoteText(order[n]) + " " else "")
  }

  function CountChar(s: string, c: char): nat
  {
    if s == [] then 0 else CountChar(s[..|s| - 1], c) + (if s[|s| - 1] == c then 1 else 0)
  }

  lemma {:induction false} CountCharConcat(s: string, t: string, c: char)
    ensures CountChar(s + t, c) == CountChar(s, c) + CountChar(t, c)
    decreases |t|
  {
    if t == [] {
      assert s + t == s;
    } else {
      var n := |t| - 1;
      CountCharConcat(s, t[..n], c);
      assert (s + t)[..|s + t| - 1] == s + t[..n];
    }
  }

  lemma {:induction false} CountCharAbsent(s: string, c: char)
    requires forall i :: 0 <= i < |s| ==> s[i] != c
    ensures CountChar(s, c) == 0
  {
    if s != [] {
      CountCharAbsent(s[..|s| - 1], c);
    }
  }

  /** A printed note holds no space. */
  lemma NoteTextHasNoSpace(n: Note)
    ensures forall i :: 0 <= i < |HarmonyNote.NoteText(n)| ==> HarmonyNote.NoteText(n)[i] != ' '
  {
    var p, a, d := HarmonyNote.PitchText(n.pitch), HarmonyNote.AccidentalText(n.accidental), HarmonyNote.DecimalText(n.octave);
    var s := HarmonyNote.NoteText(n);
    forall i | 0 <= i < |s|
      ensures s[i] != ' '
    {
      if i < |p| {
        assert s[i] == p[i];
      } else if i < |p| + |a| {
        assert s[i] == a[i - |p|];
      } else {
        assert s[i] == d[i - |p| - |a|];
      }
    }
  }

  /** The number of held notes among `order`. */
  function HeldCount(active: map<Note, KeyState>, order: seq<Note>): nat
    requires forall n :: n in order ==> n in active
  {
    if order == [] then 0
    else HeldCount(active, order[..|order| - 1]) + (if active[order[|order| - 1]] == Held then 1 else 0)
  }

  /** The text holds one space per held note, so pressed-only and released notes do not appear. */
  lemma {:induction false} HeldTextWords(active: map<Note, KeyState>, order: seq<Note>)
    requires forall n :: n in order ==> n in active
    ensures CountChar(HeldText(active, order), ' ') == HeldCount(active, order)
  {
    if order != [] {
      var n := |order| - 1;
      assert forall x :: x in order[..n] ==> x in order;
      HeldTextWords(active, order[..n]);
      var word := if active[order[n]] == Held then HarmonyNote.NoteText(order[n]) + " " else "";
      CountCharConcat(HeldText(active, order[..n]), word, ' ');
      if active[order[n]] == Held {
        NoteTextHasNoSpace(order[n]);
        CountCharAbsent(HarmonyNote.NoteText(order[n]), ' ');
        CountCharConcat(HarmonyNote.NoteText(order[n]), " ", ' ');
        assert CountChar(" ", ' ') == 1;
      }
    }
  }

  // ---------------------------------------------------------------------
  // The keyboard

  /**
   * `PianoKeyboard`. The order in which a frame visits the bindings and the
   * order in which the held notes are printed are the hash maps' iteration
   * orders, which Rust leaves unspecified; the methods take them as
   * arguments.
   */
  class PianoKeyboard {
    var keys: map<Key, Note>
    var activeNotes: map<Note, KeyState>
    var activeOctave: Byte

    /** `initialize`: the twelve bindings, no active note, octave 4. */
    constructor Initialize(notes: map<string, Note>)
      requires HasScaleNotes(notes)
      ensures keys == KeysUpTo(notes, 12) && activeNotes == map[] && activeOctave == 4
    {
      var bound := InitKeys(notes);
      keys := bound;
      activeNotes := map[];
      activeOctave := InitialOctave;
    }

    /**
     * `update_keys_state`: each binding in turn, classified from the input;
     * a release silences the oscillator and forgets the note, a press or a
     * hold starts the sine and records the note's state.
     */
    method UpdateKeysState(input: InputState, order: seq<Key>, osc: OscillatorViewModel)
      requires forall k :: k in order <==> k in keys
      modifies this`activeNotes, osc
      ensures activeNotes == ApplyKeys(old(activeNotes), keys, input, order)
      ensures osc.waveform == WaveformAfter(old(osc.waveform), input, order)
    {
      for i := 0 to |order|
        invariant activeNotes == ApplyKeys(old(activeNotes), keys, input, order[..i])
        invariant osc.waveform == WaveformAfter(old(osc.waveform), input, order[..i])
      {
        assert order[..i + 1][..i] == order[..i];
        var key := order[i];
        var note := keys[key];
        var keyState: KeyState;
        if key in input.pressed {
          keyState := Pressed;
        } else if key in input.down {
          keyState := Held;
        } else if key in input.released {
          keyState := Released;
        } else {
          continue;
        }
        if keyState == Released {
          osc.waveform := Silence;
          activeNotes := activeNotes - {note};
        } else {
          osc.waveform := Sine;
          activeNotes := activeNotes[note := keyState];
        }
      }
      assert order[..|order|] == order;
    }

    /** `pressed_keys_as_string`: every held note printed and followed by a space. */
    method PressedKeysAsString(order: seq<Note>) returns (pressedKeys: string)
      requires forall n :: n in order <==> n in activeNotes
      ensures pressedKeys == HeldText(activeNotes, order)
    {
      pressedKeys := "";
      for i := 0 to |order|
        invariant pressedKeys == HeldText(activeNotes, order[..i])
      {
        assert order[..i + 1][..i] == order[..i];
        if activeNotes[order[i]] == Held {
          pressedKeys := pressedKeys + HarmonyNote.NoteText(order[i]) + " ";
        }
      }
      assert order[..|order|] == order;
    }
  }
}
