// Model of tracker_gui/src/ui_components/hex.rs: the two-digit hex cell
// editors, together with the Rust formatting and parsing they rely on
// (`u8::from_str_radix(_, 16)`, `{:X}` and `{:02X}`).
module Hex {
  import opened Wrappers

  predicate IsHexDigit(c: char)
  {
    ('0' <= c <= '9') || ('a' <= c <= 'f') || ('A' <= c <= 'F')
  }

  predicate AllHex(s: string)
  {
    forall i :: 0 <= i < |s| ==> IsHexDigit(s[i])
  }

  function DigitValue(c: char): (v: nat)
    requires IsHexDigit(c)
    ensures v < 16
  {
    if '0' <= c <= '9' then (c - '0') as nat
    else if 'a' <= c <= 'f' then (c - 'a') as nat + 10
    else (c - 'A') as nat + 10
  }

  /** Upper-case digit, as `{:X}` prints it. */
  function UpperDigit(v: nat): (c: char)
    requires v < 16
    ensures IsHexDigit(c) && DigitValue(c) == v
  {
    if v < 10 then '0' + v as char else 'A' + (v - 10) as char
  }

  /** Value of a string of hex digits, most significant first. */
  function HexNumber(s: string): nat
    requires AllHex(s)
  {
    if s == [] then 0 else HexNumber(s[..|s| - 1]) * 16 + DigitValue(s[|s| - 1])
  }

  function Pow16(n: nat): (r: nat)
    ensures r >= 1
  {
    if n == 0 then 1 else 16 * Pow16(n - 1)
  }

  lemma {:induction false} HexNumberBound(s: string)
    requires AllHex(s)
    ensures HexNumber(s) < Pow16(|s|)
  {
    if s != [] {
      HexNumberBound(s[..|s| - 1]);
    }
  }

  /**
   * `u8::from_str_radix(s, 16)`: an optional leading '+', then at least one
   * hex digit of either case, and a value that fits in a byte.
   */
  function ParseU8Radix16(s: string): (r: Option<nat>)
    ensures r.Some? ==> r.value < 256
  {
    if s == [] then None
    else
      var digits := if s[0] == '+' then s[1..] else s;
      if digits == [] || !AllHex(digits) then None
      else if HexNumber(digits) > 255 then None
      else Some(HexNumber(digits))
  }

  /** `{:X}`: upper-case hex without leading zeros. */
  function FormatUpperHex(v: nat): (s: string)
    ensures |s| >= 1 && AllHex(s)
  {
    if v < 16 then [UpperDigit(v)] else FormatUpperHex(v / 16) + [UpperDigit(v % 16)]
  }

  /** `{:02X}`: the same, left-padded with '0' to two characters. */
  function FormatUpperHex02(v: nat): (s: string)
    ensures |s| >= 2 && AllHex(s)
  {
    var d := FormatUpperHex(v);
    if |d| < 2 then "0" + d else d
  }

  lemma {:induction false} FormatUpperHexValue(v: nat)
    ensures HexNumber(FormatUpperHex(v)) == v
  {
    if v >= 16 {
      FormatUpperHexValue(v / 16);
      var s := FormatUpperHex(v);
      assert s[..|s| - 1] == FormatUpperHex(v / 16);
    }
  }

  lemma FormatUpperHexShort(v: nat)
    requires v < 256
    ensures |FormatUpperHex(v)| <= 2
  {
  }

  lemma {:induction false} LeadingZero(s: string)
    requires AllHex(s)
    ensures AllHex("0" + s) && HexNumber("0" + s) == HexNumber(s)
  {
    if s != [] {
      LeadingZero(s[..|s| - 1]);
      assert ("0" + s)[..|"0" + s| - 1] == "0" + s[..|s| - 1];
    }
  }

  /** What `{:02X}` prints, `from_str_radix` reads back, for every byte. */
  lemma FormatParseRoundTrip(v: nat)
    requires v < 256
    ensures ParseU8Radix16(FormatUpperHex02(v)) == Some(v)
    ensures ParseU8Radix16(FormatUpperHex(v)) == Some(v)
  {
    FormatUpperHexValue(v);
    var d := FormatUpperHex(v);
    if |d| < 2 {
      LeadingZero(d);
    }
  }

  /** Keep the hex digits of a text, in order. */
  function KeepHex(text: string): (r: string)
    ensures AllHex(r) && |r| <= |text|
  {
    if text == [] then []
    else if IsHexDigit(text[0]) then [text[0]] + KeepHex(text[1..])
    else KeepHex(text[1..])
  }

  /** The editor's filter: the first two hex digits of what was typed. */
  function Filtered(text: string): string
  {
    var h := KeepHex(text);
    if |h| <= 2 then h else h[..2]
  }

  lemma {:induction false} KeepHexOfHex(s: string)
    requires AllHex(s)
    ensures KeepHex(s) == s
  {
    if s != [] {
      KeepHexOfHex(s[1..]);
    }
  }

  /** The filtered text has only hex digits and at most two of them. */
  lemma FilteredShape(text: string)
    ensures AllHex(Filtered(text)) && |Filtered(text)| <= 2
    ensures |Filtered(text)| == if |KeepHex(text)| < 2 then |KeepHex(text)| else 2
  {
  }

  /** Filtering is idempotent, and leaves alone a text it would produce. */
  lemma FilteredIdempotent(text: string)
    ensures Filtered(Filtered(text)) == Filtered(text)
  {
    KeepHexOfHex(Filtered(text));
  }

  /** A non-empty filtered text always parses, to its hex value, which fits a byte. */
  lemma FilteredParses(text: string)
    ensures Filtered(text) != [] ==>
              ParseU8Radix16(Filtered(text)) == Some(HexNumber(Filtered(text)))
              && HexNumber(Filtered(text)) < 256
  {
    var f := Filtered(text);
    HexNumberBound(f);
    assert Pow16(|f|) <= 256;
  }

  /** What an editor leaves behind: the text buffer and the edited value. */
  datatype Edit = Edit(buf: string, value: nat)

  /**
   * `hex_u8_editor`: `changed` and `text` are what the text widget reports
   * for this frame. On a change the buffer becomes the filtered text and the
   * value its hex reading, 0 for an empty text.
   */
  function HexU8Editor(changed: bool, text: string, buf: string, v: nat): (r: Edit)
    ensures !changed ==> r == Edit(buf, v)
    ensures changed ==> r.buf == Filtered(text)
    ensures changed && Filtered(text) == [] ==> r.value == 0
    ensures changed && Filtered(text) != [] ==> r.value == HexNumber(Filtered(text))
    ensures v < 256 ==> r.value < 256
  {
    if !changed then Edit(buf, v)
    else
      var filtered := Filtered(text);
      FilteredParses(text);
      var value :=
        if filtered == [] then 0
        else
          match ParseU8Radix16(filtered)
          case Some(parsed) => parsed
          case None => v;
      Edit(if filtered != buf then filtered else buf, value)
  }

  /**
   * `hex_usize_with_sentinel_editor`: as HexU8Editor, except that an empty
   * text stores the sentinel.
   */
  function HexUsizeWithSentinelEditor(changed: bool, text: string, buf: string, v: nat, sentinel: nat): (r: Edit)
    ensures !changed ==> r == Edit(buf, v)
    ensures changed ==> r.buf == Filtered(text)
    ensures changed ==> (r.value == sentinel <==> Filtered(text) == [] || HexNumber(Filtered(text)) == sentinel)
    ensures changed && Filtered(text) != [] ==> r.value == HexNumber(Filtered(text)) && r.value < 256
  {
    if !changed then Edit(buf, v)
    else
      var filtered := Filtered(text);
      FilteredParses(text);
      var value :=
        if filtered == [] then sentinel
        else
          match ParseU8Radix16(filtered)
          case Some(parsed) => parsed
          case None => v;
      Edit(if filtered != buf then filtered else buf, value)
  }

  /** Typing over the buffer the editor itself left changes nothing. */
  lemma EditorStable(text: string, buf: string, v: nat)
    ensures var r := HexU8Editor(true, text, buf, v);
            HexU8Editor(true, r.buf, r.buf, r.value) == r
  {
    FilteredIdempotent(text);
  }
}
