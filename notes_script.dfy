// Model of scripts/generate_notes_json.py: the rows of the notes table
// expanded into one record per note label, each label parsed into pitch,
// accidental and octave.
module NotesScript {
  import opened Wrappers
  import opened HarmonyNote

  /** A table row: the label field ("C#4/Db4"), the frequency and the wavelength. */
  datatype Row = Row(labelField: string, frequency: real, wavelength: real)

  /** One record of the output list. */
  datatype NoteEntry = NoteEntry(
    noteLabel: string, pitch: string, accidental: string, octave: nat, frequency: real, wavelength: real)

  /** What `parse_note_label` returns: the pitch text, the accidental's name and the octave. */
  datatype Parsed = Parsed(pitch: string, accidental: string, octave: nat)

  // ---------------------------------------------------------------------
  // Labels

  /** `parse_note_label`; `None` where Python raises (an empty label, a last character that is not a digit). */
  function ParseNoteLabel(text: string): (r: Option<Parsed>)
    ensures r.Some? <==> |text| > 0 && IsDigit(text[|text| - 1])
    ensures r.Some? ==> r.value.pitch == text[..1] && r.value.octave < 10
    ensures r.Some? ==> (r.value.accidental == "Sharp" <==> '#' in text)
    ensures r.Some? ==> (r.value.accidental == "Flat" <==> '#' !in text && 'b' in text)
    ensures r.Some? ==> (r.value.accidental == "Natural" <==> '#' !in text && 'b' !in text)
  {
    if |text| == 0 || !IsDigit(text[|text| - 1]) then None
    else
      var accidental := if '#' in text then "Sharp" else if 'b' in text then "Flat" else "Natural";
      Some(Parsed(text[..1], accidental, DigitValue(text[|text| - 1])))
  }

  /** The name an accidental is written under in the records, which the Rust side reads back as that variant. */
  function AccidentalName(a: Accidental): string
  {
    match a
    case Sharp => "Sharp"
    case Flat => "Flat"
    case Natural => "Natural"
  }

  /**
   * A label written the way `Display for Note` prints a note parses back to
   * that note's pitch, accidental and octave, for the single-digit octaves.
   */
  lemma ParseNoteText(n: Note)
    requires n.octave < 10
    ensures ParseNoteLabel(NoteText(n)) == Some(Parsed(PitchText(n.pitch), AccidentalName(n.accidental), n.octave))
  {
    var s := NoteText(n);
    var p, a, d := PitchText(n.pitch), AccidentalText(n.accidental), DecimalText(n.octave);
    assert d == [DigitChar(n.octave)];
    assert s == p + a + d;
    assert s[..1] == p;
    assert s[|s| - 1] == DigitChar(n.octave);
    DigitRoundTrip(n.octave);
    assert forall i :: 0 <= i < |s| ==> s[i] == p[0] || (|a| == 1 && s[i] == a[0]) || s[i] == d[0] by {
      forall i | 0 <= i < |s|
        ensures s[i] == p[0] || (|a| == 1 && s[i] == a[0]) || s[i] == d[0]
      {
        if i < |p| {
          assert s[i] == p[i];
        } else if i < |p| + |a| {
          assert s[i] == a[i - |p|];
        } else {
          assert s[i] == d[i - |p| - |a|];
        }
      }
    }
    if n.accidental == Sharp {
      assert s[1] == '#';
    } else if n.accidental == Flat {
      assert s[1] == 'b';
    }
  }

  // ---------------------------------------------------------------------
  // Splitting a label field

  /** `str.split("/")`: the pieces between the slashes, empty ones included. */
  function Split(s: string): (r: seq<string>)
    ensures |r| > 0
    ensures forall i :: 0 <= i < |r| ==> '/' !in r[i]
    decreases |s|
  {
    if s == [] then [""]
    else
      var rest := Split(s[1..]);
      if s[0] == '/' then [""] + rest else [[s[0]] + rest[0]] + rest[1..]
  }

  /** The pieces joined back with slashes. */
  function Join(pieces: seq<string>): string
    requires |pieces| > 0
  {
    if |pieces| == 1 then pieces[0] else pieces[0] + "/" + Join(pieces[1..])
  }

  /** Splitting loses nothing: the pieces join back to the field. */
  lemma {:induction false} SplitJoin(s: string)
    ensures Join(Split(s)) == s
    decreases |s|
  {
    if s != [] {
      var rest := Split(s[1..]);
      SplitJoin(s[1..]);
      if s[0] == '/' {
        assert ([""] + rest)[1..] == rest;
        assert s == "" + "/" + s[1..];
      } else if |rest| == 1 {
        assert s == [s[0]] + rest[0];
      } else {
        var r := [[s[0]] + rest[0]] + rest[1..];
        assert r[1..] == rest[1..];
        assert Join(rest) == rest[0] + "/" + Join(rest[1..]);
        assert s == [s[0]] + s[1..];
      }
    }
  }

  /** Joining slash-free pieces and splitting again gives the same pieces. */
  lemma {:induction false} JoinSplit(pieces: seq<string>)
    requires |pieces| > 0
    requires forall i :: 0 <= i < |pieces| ==> '/' !in pieces[i]
    ensures Split(Join(pieces)) == pieces
    decreases |pieces|, |pieces[0]|
  {
    var p := pieces[0];
    if p == [] {
      if |pieces| > 1 {
        JoinSplit(pieces[1..]);
        assert Join(pieces) == "/" + Join(pieces[1..]);
        assert Join(pieces)[1..] == Join(pieces[1..]);
        assert pieces == [""] + pieces[1..];
      }
    } else {
      var tail := [p[1..]] + pieces[1..];
      assert forall i :: 0 <= i < |tail| ==> '/' !in tail[i] by {
        forall i | 0 <= i < |tail|
          ensures '/' !in tail[i]
        {
          if i == 0 {
            assert forall c :: c in p[1..] ==> c in p;
          } else {
            assert tail[i] == pieces[i];
          }
        }
      }
      JoinSplit(tail);
      assert tail[1..] == pieces[1..];
      var s := Join(pieces);
      if |pieces| == 1 {
        assert s == p && s[1..] == Join(tail);
      } else {
        assert s == p + "/" + Join(pieces[1..]);
        assert Join(tail) == p[1..] + "/" + Join(pieces[1..]);
        assert s[1..] == Join(tail);
      }
      assert s[0] == p[0] && s[0] != '/';
      assert [p[0]] + p[1..] == p;
      assert pieces == [p] + pieces[1..];
    }
  }

  // ---------------------------------------------------------------------
  // Rows

  predicate IsComment(row: Row)
  {
    |row.labelField| >= 2 && row.labelField[..2] == "//"
  }

  /** The records of a row's labels, in label order, each with the row's frequency and wavelength. */
  function LabelEntries(labels: seq<string>, frequency: real, wavelength: real): (r: Option<seq<NoteEntry>>)
    ensures r.Some? ==> |r.value| == |labels|
    ensures r.Some? ==> forall k :: 0 <= k < |labels| ==>
              && r.value[k].noteLabel == labels[k]
              && r.value[k].frequency == frequency && r.value[k].wavelength == wavelength
              && ParseNoteLabel(labels[k]) == Some(Parsed(r.value[k].pitch, r.value[k].accidental, r.value[k].octave))
    ensures r.None? <==> exists k :: 0 <= k < |labels| && ParseNoteLabel(labels[k]).None?
  {
    if labels == [] then Some([])
    else
      var n := |labels| - 1;
      var init := LabelEntries(labels[..n], frequency, wavelength);
      assert forall k :: 0 <= k < n ==> labels[..n][k] == labels[k];
      match ParseNoteLabel(labels[n])
      case None => None
      case Some(p) =>
        if init.None? then None
        else Some(init.value + [NoteEntry(labels[n], p.pitch, p.accidental, p.octave, frequency, wavelength)])
  }

  /** The records one row contributes: none for a "//" row, one per label otherwise. */
  function RowEntries(row: Row): Option<seq<NoteEntry>>
  {
    if IsComment(row) then Some([]) else LabelEntries(Split(row.labelField), row.frequency, row.wavelength)
  }

  /** Two runs of records one after the other, or `None` if either raised. */
  function Combine(x: Option<seq<NoteEntry>>, y: Option<seq<NoteEntry>>): Option<seq<NoteEntry>>
  {
    if x.None? || y.None? then None else Some(x.value + y.value)
  }

  lemma CombineAssoc(x: Option<seq<NoteEntry>>, y: Option<seq<NoteEntry>>, z: Option<seq<NoteEntry>>)
    ensures Combine(Combine(x, y), z) == Combine(x, Combine(y, z))
  {
    if x.Some? && y.Some? && z.Some? {
      assert x.value + y.value + z.value == x.value + (y.value + z.value);
    }
  }

  /** The records of the rows in order, each row's given by `entries`, or `None` once one raises. */
  function ExpandWith(rows: seq<Row>, entries: Row -> Option<seq<NoteEntry>>): Option<seq<NoteEntry>>
  {
    if rows == [] then Some([])
    else Combine(ExpandWith(rows[..|rows| - 1], entries), entries(rows[|rows| - 1]))
  }

  /** `read_notes` over the table's rows, or `None` where the script raises. */
  function Expand(rows: seq<Row>): Option<seq<NoteEntry>>
  {
    ExpandWith(rows, RowEntries)
  }

  /** The records of two stretches of the table come out one after the other. */
  lemma ExpandConcat(a: seq<Row>, b: seq<Row>)
    ensures Expand(a + b) == Combine(Expand(a), Expand(b))
  {
    ExpandWithConcat(a, b, RowEntries);
  }

  lemma {:induction false} ExpandWithConcat(a: seq<Row>, b: seq<Row>, entries: Row -> Option<seq<NoteEntry>>)
    ensures ExpandWith(a + b, entries) == Combine(ExpandWith(a, entries), ExpandWith(b, entries))
    decreases |b|
  {
    if b == [] {
      assert a + b == a;
      assert ExpandWith(a, entries).Some? ==> ExpandWith(a, entries).value + [] == ExpandWith(a, entries).value;
    } else {
      var ab, n := a + b, |b| - 1;
      ExpandWithConcat(a, b[..n], entries);
      assert ab[..|ab| - 1] == a + b[..n];
      assert ab[|ab| - 1] == b[n];
      CombineAssoc(ExpandWith(a, entries), ExpandWith(b[..n], entries), entries(b[n]));
    }
  }

  /** The number of records: one per label of every row that is not a comment. */
  function LabelCount(rows: seq<Row>): nat
  {
    if rows == [] then 0
    else LabelCount(rows[..|rows| - 1]) + (if IsComment(rows[|rows| - 1]) then 0 else |Split(rows[|rows| - 1].labelField)|)
  }

  lemma {:induction false} ExpandCount(rows: seq<Row>)
    requires Expand(rows).Some?
    ensures |Expand(rows).value| == LabelCount(rows)
  {
    if rows != [] {
      var n := |rows| - 1;
      assert Expand(rows) == Combine(Expand(rows[..n]), RowEntries(rows[n]));
      ExpandCount(rows[..n]);
    }
  }

  // ---------------------------------------------------------------------
  // The loops

  /** `read_notes`: for every row that is not a comment, one record appended per label. */
  method ReadNotes(rows: seq<Row>) returns (notes: Option<seq<NoteEntry>>)
    ensures notes == Expand(rows)
  {
    var acc: seq<NoteEntry> := [];
    for i := 0 to |rows|
      invariant Expand(rows[..i]) == Some(acc)
    {
      ExpandSnoc(rows, i);
      if !IsComment(rows[i]) {
        var added := AppendLabels(acc, Split(rows[i].labelField), rows[i].frequency, rows[i].wavelength);
        if added.None? {
          ExpandStops(rows, i);
          return None;
        }
        acc := added.value;
      } else {
        assert acc + [] == acc;
      }
    }
    assert rows[..|rows|] == rows;
    notes := Some(acc);
  }

  lemma ExpandSnoc(rows: seq<Row>, i: nat)
    requires i < |rows|
    ensures Expand(rows[..i + 1]) == Combine(Expand(rows[..i]), RowEntries(rows[i]))
  {
    assert rows[..i + 1][..i] == rows[..i];
    assert Expand(rows[..i + 1]) == ExpandWith(rows[..i + 1], RowEntries);
  }

  /** Once a row fails, the whole table does. */
  lemma {:induction false} ExpandStops(rows: seq<Row>, i: nat)
    requires i < |rows| && RowEntries(rows[i]).None?
    ensures Expand(rows).None?
    decreases |rows|
  {
    if i < |rows| - 1 {
      assert rows[..|rows| - 1][i] == rows[i];
      ExpandStops(rows[..|rows| - 1], i);
    }
  }

  /** The inner loop: each label parsed and its record appended. */
  method AppendLabels(notes: seq<NoteEntry>, labels: seq<string>, frequency: real, wavelength: real)
    returns (r: Option<seq<NoteEntry>>)
    ensures r == if LabelEntries(labels, frequency, wavelength).None? then None
                 else Some(notes + LabelEntries(labels, frequency, wavelength).value)
  {
    var acc := notes;
    for k := 0 to |labels|
      invariant LabelEntries(labels[..k], frequency, wavelength).Some?
      invariant acc == notes + LabelEntries(labels[..k], frequency, wavelength).value
    {
      assert labels[..k + 1][..k] == labels[..k];
      var parsed := ParseNoteLabel(labels[k]);
      if parsed.None? {
        assert labels[..k + 1] + labels[k + 1..] == labels;
        return None;
      }
      acc := acc + [NoteEntry(labels[k], parsed.value.pitch, parsed.value.accidental, parsed.value.octave, frequency, wavelength)];
    }
    assert labels[..|labels|] == labels;
    r := Some(acc);
  }
}
