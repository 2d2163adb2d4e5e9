// Model of tracker_gui/src/tabs/chains.rs: the chain bank editor.
module ChainsTab {
  import opened Wrappers
  import opened SongModel
  import opened TabSelection
  import Hex

  /** How a chain slot is shown: "--" when empty, else two or more upper-case hex digits. */
  function SlotText(phraseIndex: nat): string
  {
    if phraseIndex == EmptyPhraseSlot then "--" else Hex.FormatUpperHex02(phraseIndex)
  }

  /**
   * A slot after its text was edited: "--" or nothing empties it, a byte in
   * hex (with an optional '+', any number of leading zeros) sets it, and
   * anything else leaves it as it was.
   */
  function ParseSlot(text: string, current: nat): nat
  {
    if text == "--" || text == [] then EmptyPhraseSlot
    else match Hex.ParseU8Radix16(text)
         case Some(parsed) => parsed
         case None => current
  }

  /** Every byte and the empty slot survive display followed by parsing, whatever the slot held. */
  lemma SlotTextRoundTrip(phraseIndex: nat, current: nat)
    requires phraseIndex < 256 || phraseIndex == EmptyPhraseSlot
    ensures ParseSlot(SlotText(phraseIndex), current) == phraseIndex
  {
    if phraseIndex != EmptyPhraseSlot {
      Hex.FormatParseRoundTrip(phraseIndex);
    }
  }

  /**
   * A larger index shows three or more digits, which do not parse as a byte,
   * so re-reading its own text keeps it too.
   */
  lemma SlotTextKeepsLargeIndex(phraseIndex: nat)
    requires 256 <= phraseIndex && phraseIndex != EmptyPhraseSlot
    ensures |SlotText(phraseIndex)| >= 3
    ensures ParseSlot(SlotText(phraseIndex), phraseIndex) == phraseIndex
  {
    Hex.FormatUpperHexValue(phraseIndex);
    var d := Hex.FormatUpperHex(phraseIndex);
    Hex.HexNumberBound(d);
  }

  /** The editor's view of a slot change, or no change when the widget reports none. */
  function EditSlot(chain: Chain, step: nat, changed: bool, text: string): (c: Chain)
    requires step < |chain.phraseIndices|
    ensures |c.phraseIndices| == |chain.phraseIndices|
    ensures forall j :: 0 <= j < |chain.phraseIndices| && j != step ==> c.phraseIndices[j] == chain.phraseIndices[j]
    ensures c.phraseIndices[step] == if changed then ParseSlot(text, chain.phraseIndices[step]) else chain.phraseIndices[step]
  {
    if !changed then chain
    else Chain(chain.phraseIndices[step := ParseSlot(text, chain.phraseIndices[step])])
  }

  class ChainsTab {
    var selectedChain: nat

    constructor ()
      ensures selectedChain == 0
    {
      selectedChain := 0;
    }

    method Reset()
      modifies this
      ensures selectedChain == 0
    {
      selectedChain := 0;
    }

    /** "Add Chain": one default chain at the end; the selection stays. */
    method AddChain(bank: seq<Chain>) returns (newBank: seq<Chain>)
      requires SelectionValid(bank, selectedChain)
      ensures newBank == bank + [DefaultChain]
      ensures SelectionValid(newBank, selectedChain)
    {
      newBank := bank + [DefaultChain];
    }

    /** "Remove Chain": deletes the selected chain and clamps the selection. */
    method RemoveChain(bank: seq<Chain>) returns (newBank: seq<Chain>)
      modifies this
      ensures Removal(newBank, selectedChain) == RemoveSelected(bank, old(selectedChain))
      ensures SelectionValid(bank, old(selectedChain)) ==> SelectionValid(newBank, selectedChain)
    {
      newBank := bank;
      if bank != [] {
        if selectedChain < |bank| {
          newBank := bank[..selectedChain] + bank[selectedChain + 1..];
          if selectedChain >= |newBank| && newBank != [] {
            selectedChain := |newBank| - 1;
          }
        }
      }
      if SelectionValid(bank, old(selectedChain)) {
        RemoveSelectedKeepsSelection(bank, old(selectedChain));
      }
    }

    /** A click on chain i of the selector. */
    method SelectChain(bank: seq<Chain>, i: nat)
      requires i < |bank|
      modifies this
      ensures selectedChain == i && SelectionValid(bank, selectedChain)
    {
      selectedChain := i;
    }
  }
}
