// Model of tracker_gui/src/tabs/arrangement.rs: the arrangement grid editor.
module ArrangementTab {
  import opened SongModel
  import opened TabSelection
  import Hex

  /**
   * A cell of the grid after its editor ran: `hex_usize_with_sentinel_editor`
   * on the row's chain index for `track`, with `usize::MAX` for an empty text.
   */
  function EditCell(row: SongRow, track: nat, changed: bool, text: string, buf: string): (r: (SongRow, string))
    requires track < |row.chainIndices|
    ensures |r.0.chainIndices| == |row.chainIndices|
    ensures r.0.chainIndices == row.chainIndices[track := r.0.chainIndices[track]]
    ensures !changed ==> r == (row, buf)
    ensures changed && Hex.Filtered(text) == [] ==> r.0.chainIndices[track] == EmptyChainSlot
    ensures changed ==> r.1 == Hex.Filtered(text)
    ensures changed && Hex.Filtered(text) != [] ==>
              r.0.chainIndices[track] == Hex.HexNumber(Hex.Filtered(text)) && r.0.chainIndices[track] < 256
  {
    if !changed then (row, buf)
    else
      var ed := Hex.HexUsizeWithSentinelEditor(changed, text, buf, row.chainIndices[track], UsizeMax);
      (SongRow(row.chainIndices[track := ed.value]), ed.buf)
  }

  class ArrangementTab {
    var currentRow: nat
    var currentTrack: nat
    var scrollToCurrent: bool

    constructor ()
      ensures currentRow == 0 && currentTrack == 0 && !scrollToCurrent
    {
      currentRow := 0;
      currentTrack := 0;
      scrollToCurrent := false;
    }

    /** Back to the top-left cell; the scroll request is left as it is. */
    method Reset()
      modifies this`currentRow, this`currentTrack
      ensures currentRow == 0 && currentTrack == 0
    {
      currentRow := 0;
      currentTrack := 0;
    }

    /** "Add Row": an empty row at the end becomes the current row, scrolled into view. */
    method AddRow(arrangement: seq<SongRow>) returns (newArrangement: seq<SongRow>)
      modifies this`currentRow, this`scrollToCurrent
      ensures newArrangement == arrangement + [DefaultSongRow]
      ensures currentRow == |newArrangement| - 1 && scrollToCurrent
      ensures SelectionValid(newArrangement, currentRow)
    {
      newArrangement := arrangement + [DefaultSongRow];
      currentRow := |newArrangement| - 1;
      scrollToCurrent := true;
    }

    /** "Remove Row": deletes the current row and clamps the current row into the grid. */
    method RemoveRow(arrangement: seq<SongRow>) returns (newArrangement: seq<SongRow>)
      modifies this`currentRow
      ensures Removal(newArrangement, currentRow) == RemoveSelected(arrangement, old(currentRow))
      ensures SelectionValid(arrangement, old(currentRow)) ==> SelectionValid(newArrangement, currentRow)
    {
      newArrangement := arrangement;
      if arrangement != [] {
        if currentRow < |arrangement| {
          newArrangement := arrangement[..currentRow] + arrangement[currentRow + 1..];
          if currentRow >= |newArrangement| && newArrangement != [] {
            currentRow := |newArrangement| - 1;
          }
        }
      }
      if SelectionValid(arrangement, old(currentRow)) {
        RemoveSelectedKeepsSelection(arrangement, old(currentRow));
      }
    }

    /** A click on a row number selects that row. */
    method ClickRow(arrangement: seq<SongRow>, rowIdx: nat)
      requires rowIdx < |arrangement|
      modifies this`currentRow
      ensures currentRow == rowIdx && SelectionValid(arrangement, currentRow)
    {
      currentRow := rowIdx;
    }

    /** A click on a cell selects both its track and its row. */
    method ClickCell(arrangement: seq<SongRow>, rowIdx: nat, track: nat)
      requires rowIdx < |arrangement| && track < MaxTracks
      modifies this`currentRow, this`currentTrack
      ensures currentRow == rowIdx && currentTrack == track
    {
      currentTrack := track;
      currentRow := rowIdx;
    }

    /** The end of a frame: a pending scroll has been served. */
    method FinishShow()
      modifies this`scrollToCurrent
      ensures !scrollToCurrent
    {
      scrollToCurrent := false;
    }
  }
}
