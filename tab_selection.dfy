// The "Remove" button shared by the chain, phrase and arrangement tabs of
// tracker_gui: delete the selected entry of a bank, then pull the selection
// back inside the bank.
module TabSelection {
  /** The selection points into the bank, or is 0 when the bank is empty. */
  predicate SelectionValid<T>(bank: seq<T>, sel: nat)
  {
    sel < |bank| || sel == 0
  }

  /** The bank and selection after a click on Remove. */
  datatype Removal<T> = Removal(bank: seq<T>, selected: nat)

  function RemoveSelected<T>(bank: seq<T>, sel: nat): Removal<T>
  {
    if bank != [] && sel < |bank| then
      var rest := bank[..sel] + bank[sel + 1..];
      Removal(rest, if sel >= |rest| && rest != [] then |rest| - 1 else sel)
    else Removal(bank, sel)
  }

  /**
   * Remove deletes exactly the selected entry, keeping the others in order;
   * a selection outside the bank deletes nothing.
   */
  lemma RemoveSelectedContents<T>(bank: seq<T>, sel: nat)
    ensures var r := RemoveSelected(bank, sel);
            if sel < |bank| then
              |r.bank| == |bank| - 1
              && (forall j :: 0 <= j < sel ==> r.bank[j] == bank[j])
              && (forall j :: sel <= j < |r.bank| ==> r.bank[j] == bank[j + 1])
              && multiset(r.bank) + multiset{bank[sel]} == multiset(bank)
            else r.bank == bank && r.selected == sel
  {
    if sel < |bank| {
      assert bank == bank[..sel] + [bank[sel]] + bank[sel + 1..];
    }
  }

  /**
   * After Remove a valid selection stays valid: it keeps its index when that
   * is still inside the bank and otherwise moves to the new last entry.
   */
  lemma RemoveSelectedKeepsSelection<T>(bank: seq<T>, sel: nat)
    requires SelectionValid(bank, sel)
    ensures var r := RemoveSelected(bank, sel);
            SelectionValid(r.bank, r.selected)
            && r.selected == if bank != [] && sel == |bank| - 1 && sel > 0 then sel - 1 else sel
  {
  }

  /** Adding an entry never invalidates the selection. */
  lemma AppendKeepsSelection<T>(bank: seq<T>, sel: nat, x: T)
    requires SelectionValid(bank, sel)
    ensures SelectionValid(bank + [x], sel)
  {
  }
}
