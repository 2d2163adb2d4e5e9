// Model of frontend/src/pad-keys.ts: the sixteen drum-pad keys, the table
// from key to pad built from them, and the keydown handler that presses a
// pad. The DOM is reduced to what the handler reads: the tag of the
// focused element and the number of pad buttons on the page.
module PadKeys {
  import opened Wrappers

  /** `padKeyMap`: the keys of pads 1 to 16, four rows of four. */
  const PadKeyMap: seq<string> := [
    "3", "4", "5", "6",
    "e", "r", "t", "y",
    "d", "f", "g", "h",
    "c", "v", "b", "n"]

  predicate Distinct(keys: seq<string>)
  {
    forall i, j :: 0 <= i < j < |keys| ==> keys[i] != keys[j]
  }

  /** Each key of `keys` mapped to its position, a later position winning over an earlier one. */
  function IndexMap(keys: seq<string>): map<string, nat>
  {
    if keys == [] then map[]
    else IndexMap(keys[..|keys| - 1])[keys[|keys| - 1] := |keys| - 1]
  }

  /** For distinct keys the table is the inverse of the key list, in both directions. */
  lemma {:induction false} IndexMapInverse(keys: seq<string>)
    requires Distinct(keys)
    ensures forall i :: 0 <= i < |keys| ==> keys[i] in IndexMap(keys) && IndexMap(keys)[keys[i]] == i
    ensures forall k :: k in IndexMap(keys) ==> IndexMap(keys)[k] < |keys| && keys[IndexMap(keys)[k]] == k
  {
    if keys != [] {
      var n := |keys| - 1;
      var init := keys[..n];
      assert Distinct(init) by {
        forall i, j | 0 <= i < j < |init|
          ensures init[i] != init[j]
        {
          assert init[i] == keys[i] && init[j] == keys[j];
        }
      }
      IndexMapInverse(init);
      forall i | 0 <= i < n
        ensures keys[i] != keys[n] && init[i] == keys[i]
      {
      }
    }
  }

  /** The sixteen pad keys are all different. */
  lemma PadKeysDistinct()
    ensures |PadKeyMap| == 16 && Distinct(PadKeyMap)
  {
  }

  /** `keyToPadIndex`, as the `forEach` over `padKeyMap` fills it. */
  method BuildKeyToPadIndex() returns (keyToPadIndex: map<string, nat>)
    ensures keyToPadIndex == IndexMap(PadKeyMap)
  {
    keyToPadIndex := map[];
    for idx := 0 to |PadKeyMap|
      invariant keyToPadIndex == IndexMap(PadKeyMap[..idx])
    {
      assert PadKeyMap[..idx + 1][..idx] == PadKeyMap[..idx];
      keyToPadIndex := keyToPadIndex[PadKeyMap[idx] := idx];
    }
    assert PadKeyMap[..|PadKeyMap|] == PadKeyMap;
  }

  /** The table the handler looks keys up in. */
  function KeyToPadIndex(): map<string, nat>
  {
    IndexMap(PadKeyMap)
  }

  /** Every pad's key leads back to that pad, and every key in the table is a pad's key. */
  lemma KeyToPadIndexInverse()
    ensures forall i :: 0 <= i < 16 ==> PadKeyMap[i] in KeyToPadIndex() && KeyToPadIndex()[PadKeyMap[i]] == i
    ensures forall k :: k in KeyToPadIndex() ==> KeyToPadIndex()[k] < 16 && PadKeyMap[KeyToPadIndex()[k]] == k
  {
    PadKeysDistinct();
    IndexMapInverse(PadKeyMap);
  }

  // ---------------------------------------------------------------------
  // The keydown handler

  function LowerChar(c: char): char
  {
    if 'A' <= c <= 'Z' then (c as int - 'A' as int + 'a' as int) as char else c
  }

  /** `toLowerCase`, on the ASCII letters. */
  function ToLower(s: string): (r: string)
    ensures |r| == |s|
    ensures forall i :: 0 <= i < |s| ==> r[i] == LowerChar(s[i])
  {
    seq(|s|, i requires 0 <= i < |s| => LowerChar(s[i]))
  }

  /** `triggerPad`: the pad pressed, or nothing when there is no button at that index. */
  function TriggerPad(index: nat, padCount: nat): Option<nat>
  {
    if index < padCount then Some(index) else None
  }

  /**
   * The keydown listener: nothing while a text input has focus; otherwise the
   * key, lower-cased, presses the pad it is mapped to, if any. `focusedTag`
   * is the tag name of the focused element, `None` when nothing has focus.
   */
  function Keydown(focusedTag: Option<string>, key: string, padCount: nat): Option<nat>
  {
    if focusedTag == Some("INPUT") then None
    else
      var k := ToLower(key);
      if k in KeyToPadIndex() then TriggerPad(KeyToPadIndex()[k], padCount) else None
  }

  /**
   * A key press presses pad i exactly when no input has focus, the key is
   * pad i's key in either case, and the page has a button for pad i.
   */
  lemma KeydownPresses(focusedTag: Option<string>, key: string, padCount: nat, i: nat)
    ensures Keydown(focusedTag, key, padCount) == Some(i) <==>
              focusedTag != Some("INPUT") && i < 16 && ToLower(key) == PadKeyMap[i] && i < padCount
  {
    KeyToPadIndexInverse();
  }

  /** A key that is no pad's key in either case presses nothing. */
  lemma UnmappedKeyIgnored(focusedTag: Option<string>, key: string, padCount: nat)
    requires forall i :: 0 <= i < 16 ==> ToLower(key) != PadKeyMap[i]
    ensures Keydown(focusedTag, key, padCount) == None
  {
    KeyToPadIndexInverse();
  }

  /** While an input has focus no key presses a pad. */
  lemma InputFocusIgnored(key: string, padCount: nat)
    ensures Keydown(Some("INPUT"), key, padCount) == None
  {
  }

  /** Shift does not matter: "E" presses pad index 4, as "e" does. */
  lemma UpperCaseKey(padCount: nat)
    requires padCount == 16
    ensures Keydown(None, "E", padCount) == Keydown(None, "e", padCount) == Some(4)
  {
    assert ToLower("E") == "e";
    assert ToLower("e") == "e" == PadKeyMap[4];
    KeyToPadIndexInverse();
  }
}
