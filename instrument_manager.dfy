// Model of tracker_gui/src/instrument_manager.rs: the "Instruments" window
// that adds oscillator instruments, edits their waveform and their reverb and
// delay inserts, and re-sends every edited instrument to the audio backend.
module InstrumentManager {
  import opened Wrappers
  import opened SongModel
  import Hex

  /** The label the waveform selector shows. */
  function WaveformDisplayName(w: Waveform): (s: string)
    ensures s != []
  {
    match w
    case Sine => "Sine"
    case Square => "Square"
    case Sawtooth => "Sawtooth"
    case Triangle => "Triangle"
    case NesTriangle => "NES Triangle"
  }

  /** No two waveforms share a label, so the selector can be read back. */
  lemma WaveformDisplayNameInjective(a: Waveform, b: Waveform)
    ensures WaveformDisplayName(a) == WaveformDisplayName(b) <==> a == b
  {
  }

  // ---------------------------------------------------------------------
  // Instrument ids

  /** Every id from 1 to 255 is taken. */
  predicate AllIdsUsed(bank: seq<Instrument>)
  {
    forall id :: 1 <= id <= 255 ==> IdUsed(bank, id)
  }

  /**
   * What `next_free_instrument_id` answers: the least id in 1..=255 no
   * instrument of the bank holds, or 1 when every one of them is taken.
   */
  predicate IsNextFreeId(bank: seq<Instrument>, id: nat)
  {
    1 <= id <= 255
    && (AllIdsUsed(bank) ==> id == 1)
    && (!AllIdsUsed(bank) ==> !IdUsed(bank, id) && forall k :: 1 <= k < id ==> IdUsed(bank, k))
  }

  /** The answer is determined by the bank. */
  lemma NextFreeIdUnique(bank: seq<Instrument>, a: nat, b: nat)
    requires IsNextFreeId(bank, a) && IsNextFreeId(bank, b)
    ensures a == b
  {
  }

  /** `instrument_bank.iter().any(|i| i.id == id)`. */
  method HasId(bank: seq<Instrument>, id: nat) returns (found: bool)
    ensures found == IdUsed(bank, id)
  {
    var i := 0;
    while i < |bank|
      invariant 0 <= i <= |bank|
      invariant forall j :: 0 <= j < i ==> bank[j].id != id
    {
      if bank[i].id == id {
        return true;
      }
      i := i + 1;
    }
    return false;
  }

  /** `next_free_instrument_id`: scan 1..=255 for the first id not in the bank. */
  method NextFreeInstrumentId(bank: seq<Instrument>) returns (id: Byte)
    ensures IsNextFreeId(bank, id)
  {
    var candidate := 1;
    while candidate <= 255
      invariant 1 <= candidate <= 256
      invariant forall k :: 1 <= k < candidate ==> IdUsed(bank, k)
    {
      var used := HasId(bank, candidate);
      if !used {
        return candidate;
      }
      candidate := candidate + 1;
    }
    return 1;
  }

  /** The ids the bank holds. */
  function IdSet(bank: seq<Instrument>): (ids: set<nat>)
    ensures forall id :: id in ids <==> IdUsed(bank, id)
    ensures |ids| <= |bank|
  {
    if bank == [] then {}
    else
      var rest := IdSet(bank[1..]);
      assert forall id :: IdUsed(bank, id) <==> id == bank[0].id || IdUsed(bank[1..], id) by {
        forall id
          ensures IdUsed(bank, id) <==> id == bank[0].id || IdUsed(bank[1..], id)
        {
          if IdUsed(bank, id) && id != bank[0].id {
            var i :| 0 <= i < |bank| && bank[i].id == id;
            assert bank[1..][i - 1].id == id;
          }
          if IdUsed(bank[1..], id) {
            var i :| 0 <= i < |bank[1..]| && bank[1..][i].id == id;
            assert bank[i + 1].id == id;
          }
        }
      }
      {bank[0].id} + rest
  }

  /** The ids 1..=n. */
  function IdRange(n: nat): (ids: set<nat>)
    ensures forall id :: id in ids <==> 1 <= id <= n
    ensures |ids| == n
  {
    if n == 0 then {} else IdRange(n - 1) + {n}
  }

  /**
   * A bank of fewer than 255 instruments always leaves a free id, so the
   * fallback answer 1 is only ever given for a full bank.
   */
  lemma FreeIdExists(bank: seq<Instrument>)
    requires |bank| < 255
    ensures !AllIdsUsed(bank)
  {
    if AllIdsUsed(bank) {
      var ids := IdSet(bank);
      var range := IdRange(255);
      assert range <= ids;
      SubsetSize(range, ids);
      assert false;
    }
  }

  lemma {:induction false} SubsetSize(a: set<nat>, b: set<nat>)
    requires a <= b
    ensures |a| <= |b|
    decreases |a|
  {
    if a != {} {
      var x :| x in a;
      SubsetSize(a - {x}, b - {x});
    }
  }

  // ---------------------------------------------------------------------
  // Insert effects

  datatype EffectKind = ReverbKind | DelayKind

  function KindOf(e: AudioEffect): EffectKind
  {
    if e.Reverb? then ReverbKind else DelayKind
  }

  /** The controls are shown for each effect of a kind: how many there are. */
  function CountKind(effects: seq<AudioEffect>, k: EffectKind): nat
  {
    if effects == [] then 0
    else CountKind(effects[..|effects| - 1], k) + (if KindOf(effects[|effects| - 1]) == k then 1 else 0)
  }

  /** The `has_reverb` / `has_delay` flag the scan over the effects leaves set. */
  predicate HasKind(effects: seq<AudioEffect>, k: EffectKind)
  {
    exists i :: 0 <= i < |effects| && KindOf(effects[i]) == k
  }

  lemma {:induction false} HasKindCount(effects: seq<AudioEffect>, k: EffectKind)
    ensures HasKind(effects, k) <==> CountKind(effects, k) > 0
  {
    if effects != [] {
      var init := effects[..|effects| - 1];
      HasKindCount(init, k);
      if HasKind(init, k) {
        var i :| 0 <= i < |init| && KindOf(init[i]) == k;
        assert KindOf(effects[i]) == k;
      }
      if HasKind(effects, k) && KindOf(effects[|effects| - 1]) != k {
        var i :| 0 <= i < |effects| && KindOf(effects[i]) == k;
        assert KindOf(init[i]) == k;
      }
    }
  }

  lemma CountKindAppend(effects: seq<AudioEffect>, e: AudioEffect, k: EffectKind)
    ensures CountKind(effects + [e], k) == CountKind(effects, k) + (if KindOf(e) == k then 1 else 0)
  {
    assert (effects + [e])[..|effects|] == effects;
  }

  /** `audio_effects.retain(|e| !matches!(e, <kind>))`. */
  function RemoveKind(effects: seq<AudioEffect>, k: EffectKind): (r: seq<AudioEffect>)
    ensures forall i :: 0 <= i < |r| ==> KindOf(r[i]) != k
    ensures CountKind(r, k) == 0
  {
    if effects == [] then []
    else
      var init, last := effects[..|effects| - 1], effects[|effects| - 1];
      var rest := RemoveKind(init, k);
      if KindOf(last) == k then rest
      else
        CountKindAppend(rest, last, k);
        rest + [last]
  }

  /** Retaining drops only effects of the kind: every other effect keeps its multiplicity. */
  lemma {:induction false} RemoveKindKeepsOthers(effects: seq<AudioEffect>, k: EffectKind, e: AudioEffect)
    requires KindOf(e) != k
    ensures multiset(RemoveKind(effects, k))[e] == multiset(effects)[e]
  {
    if effects != [] {
      var init, last := effects[..|effects| - 1], effects[|effects| - 1];
      assert effects == init + [last];
      RemoveKindKeepsOthers(init, k, e);
    }
  }

  /** Retaining leaves the effects of the other kind untouched, in order. */
  lemma {:induction false} RemoveKindKeepsOther(effects: seq<AudioEffect>, k: EffectKind, other: EffectKind)
    requires k != other
    ensures CountKind(RemoveKind(effects, k), other) == CountKind(effects, other)
  {
    if effects != [] {
      var init, last := effects[..|effects| - 1], effects[|effects| - 1];
      RemoveKindKeepsOther(init, k, other);
      if KindOf(last) != k {
        CountKindAppend(RemoveKind(init, k), last, other);
      }
    }
  }

  /** Without an effect of the kind, retaining changes nothing. */
  lemma {:induction false} RemoveKindAbsent(effects: seq<AudioEffect>, k: EffectKind)
    requires CountKind(effects, k) == 0
    ensures RemoveKind(effects, k) == effects
  {
    if effects != [] {
      var init, last := effects[..|effects| - 1], effects[|effects| - 1];
      RemoveKindAbsent(init, k);
      assert effects == init + [last];
    }
  }

  /** Retaining twice is retaining once. */
  lemma RemoveKindIdempotent(effects: seq<AudioEffect>, k: EffectKind)
    ensures RemoveKind(RemoveKind(effects, k), k) == RemoveKind(effects, k)
  {
    RemoveKindAbsent(RemoveKind(effects, k), k);
  }

  /** Removing reverbs and removing delays commute. */
  lemma {:induction false} RemoveKindCommutes(effects: seq<AudioEffect>, a: EffectKind, b: EffectKind)
    ensures RemoveKind(RemoveKind(effects, a), b) == RemoveKind(RemoveKind(effects, b), a)
  {
    if effects != [] {
      var init, last := effects[..|effects| - 1], effects[|effects| - 1];
      RemoveKindCommutes(init, a, b);
      var ra, rb := RemoveKind(init, a), RemoveKind(init, b);
      if KindOf(last) != a {
        assert (ra + [last])[..|ra|] == ra;
      }
      if KindOf(last) != b {
        assert (rb + [last])[..|rb|] == rb;
      }
    }
  }

  /** The parameters "Add Reverb" and "Add Delay" start from. */
  const DefaultReverb: AudioEffect := Reverb(0.3, 0.7, 0.6, 1.0, 1.0, 0.2)
  const DefaultDelay: AudioEffect := Delay(0.3, 3, 0.3, 0.35)

  // ---------------------------------------------------------------------
  // One frame of the window

  /**
   * What the user did to one instrument's controls during a frame: a new
   * name typed, a waveform picked, and the four effect buttons. A Remove
   * button is only on screen when an effect of its kind is there, an Add
   * button only when none is.
   */
  datatype Clicks = Clicks(
    rename: Option<string>,
    waveform: Option<Waveform>,
    removeReverb: bool,
    addReverb: bool,
    removeDelay: bool,
    addDelay: bool)

  /** No control touched. */
  const Idle: Clicks := Clicks(None, None, false, false, false, false)

  /**
   * The Remove button of a kind (shown when the scan found an effect of that
   * kind) and then its Add button (shown when the scan found none), each
   * naming the instrument for re-sending when clicked.
   */
  function EditKind(effects: seq<AudioEffect>, k: EffectKind, remove: bool, add: bool, tag: Byte): (r: (seq<AudioEffect>, seq<Byte>))
  {
    var has := HasKind(effects, k);
    var afterRemove := if has && remove then RemoveKind(effects, k) else effects;
    var added := if k == ReverbKind then DefaultReverb else DefaultDelay;
    var afterAdd := if !has && add then afterRemove + [added] else afterRemove;
    (afterAdd, (if has && remove then [tag] else []) + (if !has && add then [tag] else []))
  }

  /**
   * One instrument's group in the window: the name field, the waveform
   * selector, the reverb controls and then the delay controls. Instruments
   * that are not simple oscillators cannot be edited here.
   */
  function EditInstrument(inst: Instrument, c: Clicks): (r: (Instrument, seq<Byte>))
    ensures r.0.id == inst.id
  {
    var name := if c.rename.Some? then c.rename.value else inst.name;
    match inst.data
    case OtherInstrument => (Instrument(inst.id, name, inst.data), [])
    case SimpleOscillator(w0, e0) =>
      var tag: Byte := inst.id % 256;
      var w := if c.waveform.Some? then c.waveform.value else w0;
      var reverb := EditKind(e0, ReverbKind, c.removeReverb, c.addReverb, tag);
      var delay := EditKind(reverb.0, DelayKind, c.removeDelay, c.addDelay, tag);
      (Instrument(inst.id, name, SimpleOscillator(w, delay.0)),
       (if w != w0 then [tag] else []) + reverb.1 + delay.1)
  }

  /** Each Remove or Add click changes the count of its own kind and leaves the other alone. */
  lemma EditKindCounts(effects: seq<AudioEffect>, k: EffectKind, remove: bool, add: bool, tag: Byte)
    ensures var r := EditKind(effects, k, remove, add, tag);
            var other := if k == ReverbKind then DelayKind else ReverbKind;
            && CountKind(r.0, other) == CountKind(effects, other)
            && (CountKind(effects, k) <= 1 ==> CountKind(r.0, k) <= 1)
            && (r.1 == [] <==> r.0 == effects)
            && (forall t :: t in r.1 ==> t == tag)
  {
    var other := if k == ReverbKind then DelayKind else ReverbKind;
    HasKindCount(effects, k);
    var added := if k == ReverbKind then DefaultReverb else DefaultDelay;
    if HasKind(effects, k) && remove {
      EditKindRemoves(effects, k, add, tag, other);
    } else if !HasKind(effects, k) && add {
      EditKindAdds(effects, k, remove, tag, other, added);
    } else {
      EditKindUntouched(effects, k, remove, add, tag);
    }
  }

  lemma EditKindUntouched(effects: seq<AudioEffect>, k: EffectKind, remove: bool, add: bool, tag: Byte)
    requires !(HasKind(effects, k) && remove) && !(!HasKind(effects, k) && add)
    ensures EditKind(effects, k, remove, add, tag) == (effects, [])
  {
    var none: seq<Byte> := [];
    assert none + none == none;
  }

  lemma EditKindRemoves(effects: seq<AudioEffect>, k: EffectKind, add: bool, tag: Byte, other: EffectKind)
    requires HasKind(effects, k) && CountKind(effects, k) > 0 && other != k
    ensures var r := EditKind(effects, k, true, add, tag);
            r == (RemoveKind(effects, k), [tag])
            && CountKind(r.0, other) == CountKind(effects, other)
            && CountKind(r.0, k) == 0 && r.0 != effects
  {
    RemoveKindKeepsOther(effects, k, other);
    assert [tag] + [] == [tag];
  }

  lemma EditKindAdds(effects: seq<AudioEffect>, k: EffectKind, remove: bool, tag: Byte, other: EffectKind, added: AudioEffect)
    requires !HasKind(effects, k) && CountKind(effects, k) == 0 && other != k
    requires KindOf(added) == k
    requires added == if k == ReverbKind then DefaultReverb else DefaultDelay
    ensures var r := EditKind(effects, k, remove, true, tag);
            r == (effects + [added], [tag])
            && CountKind(r.0, other) == CountKind(effects, other)
            && CountKind(r.0, k) == 1 && r.0 != effects
  {
    CountKindAppend(effects, added, k);
    CountKindAppend(effects, added, other);
    assert [] + [tag] == [tag];
  }

  /**
   * The frame's bookkeeping is exact: an instrument is queued for re-sending
   * exactly when its sound parameters changed, it is queued under its own
   * low byte, its id never changes, and an instrument that had at most one
   * reverb and one delay still has at most one of each.
   */
  lemma EditInstrumentQueuesChanges(inst: Instrument, c: Clicks)
    ensures var r := EditInstrument(inst, c);
            && r.0.id == inst.id
            && (r.1 == [] <==> r.0.data == inst.data)
            && (forall t :: t in r.1 ==> t == inst.id % 256)
            && (inst.data.SimpleOscillator? ==>
                  && r.0.data.SimpleOscillator?
                  && (CountKind(inst.data.audioEffects, ReverbKind) <= 1 && CountKind(inst.data.audioEffects, DelayKind) <= 1 ==>
                        CountKind(r.0.data.audioEffects, ReverbKind) <= 1 && CountKind(r.0.data.audioEffects, DelayKind) <= 1))
  {
    match inst.data
    case OtherInstrument =>
    case SimpleOscillator(w0, e0) =>
      var tag: Byte := inst.id % 256;
      var reverb := EditKind(e0, ReverbKind, c.removeReverb, c.addReverb, tag);
      var delay := EditKind(reverb.0, DelayKind, c.removeDelay, c.addDelay, tag);
      EditKindCounts(e0, ReverbKind, c.removeReverb, c.addReverb, tag);
      EditKindCounts(reverb.0, DelayKind, c.removeDelay, c.addDelay, tag);
      // A reverb edit changes the reverb count, which the delay edit keeps;
      // so the effects can only come back to where they were if neither edited.
      ReverbEditChangesCount(e0, c.removeReverb, c.addReverb, tag);
      var w := if c.waveform.Some? then c.waveform.value else w0;
      CombineEdits(w0, w, e0, reverb, delay, tag);
  }

  /** The queue of one group is empty exactly when the waveform and both effect edits left things as they were. */
  lemma CombineEdits(w0: Waveform, w: Waveform, e0: seq<AudioEffect>,
                     reverb: (seq<AudioEffect>, seq<Byte>), delay: (seq<AudioEffect>, seq<Byte>), tag: Byte)
    requires reverb.1 == [] <==> reverb.0 == e0
    requires delay.1 == [] <==> delay.0 == reverb.0
    requires reverb.0 != e0 ==> CountKind(reverb.0, ReverbKind) != CountKind(e0, ReverbKind)
    requires CountKind(delay.0, ReverbKind) == CountKind(reverb.0, ReverbKind)
    requires forall t :: t in reverb.1 ==> t == tag
    requires forall t :: t in delay.1 ==> t == tag
    ensures var q := (if w != w0 then [tag] else []) + reverb.1 + delay.1;
            && (q == [] <==> SimpleOscillator(w, delay.0) == SimpleOscillator(w0, e0))
            && (forall t :: t in q ==> t == tag)
  {
    if delay.0 == e0 {
      assert reverb.0 == e0;
    }
  }

  lemma ReverbEditChangesCount(e0: seq<AudioEffect>, remove: bool, add: bool, tag: Byte)
    ensures var reverb := EditKind(e0, ReverbKind, remove, add, tag);
            reverb.0 != e0 ==> CountKind(reverb.0, ReverbKind) != CountKind(e0, ReverbKind)
  {
    HasKindCount(e0, ReverbKind);
    if HasKind(e0, ReverbKind) && remove {
      EditKindRemoves(e0, ReverbKind, add, tag, DelayKind);
    } else if !HasKind(e0, ReverbKind) && add {
      EditKindAdds(e0, ReverbKind, remove, tag, DelayKind, DefaultReverb);
    }
  }

  /** Every instrument's group, in bank order: the edited bank and the ids queued for re-sending. */
  function EditAll(bank: seq<Instrument>, clicks: seq<Clicks>): (r: (seq<Instrument>, seq<Byte>))
    requires |clicks| == |bank|
    ensures |r.0| == |bank|
    ensures forall i :: 0 <= i < |bank| ==> r.0[i] == EditInstrument(bank[i], clicks[i]).0
  {
    if bank == [] then ([], [])
    else
      var n := |bank| - 1;
      var rest := EditAll(bank[..n], clicks[..n]);
      var last := EditInstrument(bank[n], clicks[n]);
      (rest.0 + [last.0], rest.1 + last.1)
  }

  /** Some instrument with low byte `t` had its sound parameters changed by the frame. */
  predicate ChangedUnder(bank: seq<Instrument>, edited: seq<Instrument>, t: Byte)
    requires |edited| == |bank|
  {
    exists i :: 0 <= i < |bank| && bank[i].id % 256 == t && edited[i].data != bank[i].data
  }

  lemma ChangedUnderSnoc(bank: seq<Instrument>, edited: seq<Instrument>, t: Byte)
    requires |edited| == |bank| > 0
    ensures var n := |bank| - 1;
            ChangedUnder(bank, edited, t) <==>
              ChangedUnder(bank[..n], edited[..n], t) || (bank[n].id % 256 == t && edited[n].data != bank[n].data)
  {
    var n := |bank| - 1;
    if ChangedUnder(bank[..n], edited[..n], t) {
      var i :| 0 <= i < n && bank[..n][i].id % 256 == t && edited[..n][i].data != bank[..n][i].data;
      assert bank[i].id % 256 == t && edited[i].data != bank[i].data;
    }
    if ChangedUnder(bank, edited, t) {
      var i :| 0 <= i < |bank| && bank[i].id % 256 == t && edited[i].data != bank[i].data;
      if i < n {
        assert bank[..n][i] == bank[i] && edited[..n][i] == edited[i];
      }
    }
  }

  /** The frame queues an id exactly when some instrument with that low byte had its sound parameters changed. */
  lemma {:induction false} EditAllQueuesChanged(bank: seq<Instrument>, clicks: seq<Clicks>, t: Byte)
    requires |clicks| == |bank|
    ensures var r := EditAll(bank, clicks);
            t in r.1 <==> ChangedUnder(bank, r.0, t)
  {
    if bank != [] {
      var n := |bank| - 1;
      var r := EditAll(bank, clicks);
      var rest := EditAll(bank[..n], clicks[..n]);
      var last := EditInstrument(bank[n], clicks[n]);
      EditAllQueuesChanged(bank[..n], clicks[..n], t);
      EditInstrumentQueuesChanges(bank[n], clicks[n]);
      ChangedUnderSnoc(bank, r.0, t);
      assert r.0[..n] == rest.0;
      if t in last.1 {
        assert bank[n].id % 256 == t;
      }
      if bank[n].id % 256 == t && r.0[n].data != bank[n].data {
        assert last.1[0] in last.1;
      }
    }
  }

  // ---------------------------------------------------------------------
  // The audio backend

  /** The commands sent to the backend, addressed by the instrument's low byte. */
  datatype BackendCmd =
    | AddTrackOscillator(id: Byte, waveform: Waveform)
    | AddEffectToInstrument(id: Byte, effect: AudioEffect)

  /** What the backend holds for one instrument: its waveform and its insert chain. */
  datatype BackendInstrument = BackendInstrument(waveform: Waveform, effects: seq<AudioEffect>)

  /**
   * Adding an instrument replaces whatever had its id, with an empty insert
   * chain; an effect is appended to the chain of an instrument that exists.
   */
  function Apply(backend: map<Byte, BackendInstrument>, cmd: BackendCmd): map<Byte, BackendInstrument>
  {
    match cmd
    case AddTrackOscillator(id, w) => backend[id := BackendInstrument(w, [])]
    case AddEffectToInstrument(id, e) =>
      if id in backend then backend[id := BackendInstrument(backend[id].waveform, backend[id].effects + [e])]
      else backend
  }

  function ApplyAll(backend: map<Byte, BackendInstrument>, cmds: seq<BackendCmd>): map<Byte, BackendInstrument>
  {
    if cmds == [] then backend else Apply(ApplyAll(backend, cmds[..|cmds| - 1]), cmds[|cmds| - 1])
  }

  lemma {:induction false} ApplyAllConcat(backend: map<Byte, BackendInstrument>, a: seq<BackendCmd>, b: seq<BackendCmd>)
    ensures ApplyAll(backend, a + b) == ApplyAll(ApplyAll(backend, a), b)
  {
    if b == [] {
      assert a + b == a;
    } else {
      ApplyAllConcat(backend, a, b[..|b| - 1]);
      assert (a + b)[..|a + b| - 1] == a + b[..|b| - 1];
    }
  }

  /** `ensure_backend_osc_with_params`: (re)create the oscillator, then add its inserts in order. */
  function OscCommands(id: Byte, w: Waveform, effects: seq<AudioEffect>): seq<BackendCmd>
  {
    [AddTrackOscillator(id, w)] + seq(|effects|, j requires 0 <= j < |effects| => AddEffectToInstrument(id, effects[j]))
  }

  /**
   * Sending an oscillator's commands leaves the backend holding exactly that
   * waveform and insert chain under the id, whatever was there before, and
   * touches no other id.
   */
  lemma {:induction false} OscCommandsInstall(backend: map<Byte, BackendInstrument>, id: Byte, w: Waveform, effects: seq<AudioEffect>)
    ensures ApplyAll(backend, OscCommands(id, w, effects)) == backend[id := BackendInstrument(w, effects)]
  {
    var cmds := OscCommands(id, w, effects);
    if effects == [] {
      assert cmds[..|cmds| - 1] == [];
    } else {
      var init := effects[..|effects| - 1];
      OscCommandsInstall(backend, id, w, init);
      assert cmds[..|cmds| - 1] == OscCommands(id, w, init);
      assert init + [effects[|effects| - 1]] == effects;
    }
  }

  /** The same, as the loop over the parameters' effects sends it; nothing is sent without audio. */
  method EnsureBackendOsc(audioReady: bool, id: Byte, w: Waveform, effects: seq<AudioEffect>) returns (cmds: seq<BackendCmd>)
    ensures cmds == if audioReady then OscCommands(id, w, effects) else []
  {
    if !audioReady {
      return [];
    }
    cmds := [AddTrackOscillator(id, w)];
    var i := 0;
    while i < |effects|
      invariant 0 <= i <= |effects|
      invariant cmds == OscCommands(id, w, effects[..i])
    {
      cmds := cmds + [AddEffectToInstrument(id, effects[i])];
      i := i + 1;
    }
    assert effects[..|effects|] == effects;
  }

  // ---------------------------------------------------------------------
  // Re-sending the queued instruments

  /** `rehydrate_ids.sort(); rehydrate_ids.dedup()`: the queued ids, ascending, each once. */
  function SortDedup(ids: seq<Byte>): (r: seq<Byte>)
    ensures forall x :: x in r <==> x in ids
    ensures forall i, j :: 0 <= i < j < |r| ==> r[i] < r[j]
  {
    AscendingFrom(ids, 0)
  }

  function AscendingFrom(ids: seq<Byte>, v: nat): (r: seq<Byte>)
    requires v <= 256
    ensures forall x :: x in r <==> x in ids && v <= x
    ensures forall i, j :: 0 <= i < j < |r| ==> r[i] < r[j]
    decreases 256 - v
  {
    if v == 256 then []
    else
      var rest := AscendingFrom(ids, v + 1);
      assert forall j :: 0 <= j < |rest| ==> v < rest[j] by {
        forall j | 0 <= j < |rest|
          ensures v < rest[j]
        {
          assert rest[j] in rest;
        }
      }
      if v in ids then [v] + rest else rest
  }

  /** `instrument_bank.iter().find(|i| i.id as u8 == id_u8)`, as the index found. */
  function FindIndex(bank: seq<Instrument>, b: Byte): (r: Option<nat>)
    ensures r.Some? ==> r.value < |bank| && bank[r.value].id % 256 == b
    ensures r.Some? ==> forall j :: 0 <= j < r.value ==> bank[j].id % 256 != b
    ensures r.None? ==> forall j :: 0 <= j < |bank| ==> bank[j].id % 256 != b
  {
    if bank == [] then None
    else if bank[0].id % 256 == b then Some(0)
    else match FindIndex(bank[1..], b)
      case None => None
      case Some(k) => Some(k + 1)
  }

  /** What re-sending `b` installs: the first instrument with that low byte, when it is an oscillator. */
  function Mirror(bank: seq<Instrument>, b: Byte): Option<BackendInstrument>
  {
    match FindIndex(bank, b)
    case None => None
    case Some(i) =>
      match bank[i].data
      case SimpleOscillator(w, e) => Some(BackendInstrument(w, e))
      case OtherInstrument => None
  }

  /** The commands re-sending one queued id. */
  function RehydrateOne(bank: seq<Instrument>, b: Byte): seq<BackendCmd>
  {
    match Mirror(bank, b)
    case None => []
    case Some(inst) => OscCommands(b, inst.waveform, inst.effects)
  }

  function RehydrateCommands(bank: seq<Instrument>, ids: seq<Byte>): seq<BackendCmd>
  {
    if ids == [] then [] else RehydrateCommands(bank, ids[..|ids| - 1]) + RehydrateOne(bank, ids[|ids| - 1])
  }

  lemma RehydrateCommandsSnoc(bank: seq<Instrument>, ids: seq<Byte>, i: nat)
    requires i < |ids|
    ensures RehydrateCommands(bank, ids[..i + 1]) == RehydrateCommands(bank, ids[..i]) + RehydrateOne(bank, ids[i])
  {
    assert ids[..i + 1][..i] == ids[..i];
  }

  /** One pass of the loop: find the instrument and, for an oscillator, re-send it. */
  method RehydrateId(bank: seq<Instrument>, b: Byte, audioReady: bool) returns (sent: seq<BackendCmd>)
    ensures sent == if audioReady then RehydrateOne(bank, b) else []
  {
    sent := [];
    match FindIndex(bank, b) {
      case None =>
      case Some(j) =>
        match bank[j].data {
          case SimpleOscillator(w, e) =>
            sent := EnsureBackendOsc(audioReady, b, w, e);
          case OtherInstrument =>
        }
    }
  }

  /** The loop after the window is drawn: each queued id, once, in ascending order. */
  method Rehydrate(bank: seq<Instrument>, queued: seq<Byte>, audioReady: bool) returns (cmds: seq<BackendCmd>)
    ensures cmds == if audioReady then RehydrateCommands(bank, SortDedup(queued)) else []
  {
    var ids := SortDedup(queued);
    cmds := RehydrateEach(bank, ids, audioReady);
  }

  /** The loop itself, over the sorted ids. */
  method RehydrateEach(bank: seq<Instrument>, ids: seq<Byte>, audioReady: bool) returns (cmds: seq<BackendCmd>)
    ensures cmds == if audioReady then RehydrateCommands(bank, ids) else []
  {
    cmds := [];
    var i := 0;
    while i < |ids|
      invariant 0 <= i <= |ids|
      invariant audioReady ==> cmds == RehydrateCommands(bank, ids[..i])
      invariant !audioReady ==> cmds == []
    {
      RehydrateCommandsSnoc(bank, ids, i);
      var sent := RehydrateId(bank, ids[i], audioReady);
      cmds := cmds + sent;
      i := i + 1;
    }
    assert ids[..|ids|] == ids;
  }

  /** Re-sending one id installs its mirror, or changes nothing when there is none. */
  lemma RehydrateOneEffect(backend: map<Byte, BackendInstrument>, bank: seq<Instrument>, b: Byte)
    ensures ApplyAll(backend, RehydrateOne(bank, b)) ==
              if Mirror(bank, b).Some? then backend[b := Mirror(bank, b).value] else backend
  {
    match Mirror(bank, b) {
      case None =>
      case Some(inst) => OscCommandsInstall(backend, b, inst.waveform, inst.effects);
    }
  }

  /**
   * After re-sending, the backend holds every queued oscillator exactly as
   * the bank has it, and no id that was not queued has changed.
   */
  lemma {:induction false} RehydrateMirrors(backend: map<Byte, BackendInstrument>, bank: seq<Instrument>, ids: seq<Byte>, b: Byte)
    ensures var after := ApplyAll(backend, RehydrateCommands(bank, ids));
            if b in ids && Mirror(bank, b).Some? then b in after && after[b] == Mirror(bank, b).value
            else (b in after <==> b in backend) && (b in backend ==> after[b] == backend[b])
  {
    if ids != [] {
      var init, last := ids[..|ids| - 1], ids[|ids| - 1];
      RehydrateMirrors(backend, bank, init, b);
      var mid := ApplyAll(backend, RehydrateCommands(bank, init));
      ApplyAllConcat(backend, RehydrateCommands(bank, init), RehydrateOne(bank, last));
      RehydrateOneEffect(mid, bank, last);
      assert b in ids <==> b in init || b == last;
    }
  }

  // ---------------------------------------------------------------------
  // Adding an oscillator

  /** What "Add Oscillator" appends: "Osc " and the id in two hex digits, a sine with no inserts. */
  function NewOscillator(id: Byte): Instrument
  {
    Instrument(id, "Osc " + Hex.FormatUpperHex02(id), SimpleOscillator(Sine, []))
  }

  predicate UniqueIds(bank: seq<Instrument>)
  {
    forall i, j :: 0 <= i < j < |bank| ==> bank[i].id != bank[j].id
  }

  /**
   * Below 255 instruments the new oscillator's id is fresh, so ids stay
   * unique; its name reads back as its id.
   */
  lemma AddOscillatorKeepsIdsUnique(bank: seq<Instrument>, id: Byte)
    requires UniqueIds(bank) && |bank| < 255 && IsNextFreeId(bank, id)
    ensures UniqueIds(bank + [NewOscillator(id)])
    ensures Hex.ParseU8Radix16(NewOscillator(id).name[4..]) == Some(id)
  {
    FreeIdExists(bank);
    Hex.FormatParseRoundTrip(id);
    assert NewOscillator(id).name[4..] == Hex.FormatUpperHex02(id);
  }

  /** The loop over the instrument groups, in bank order. */
  method EditEach(bank: seq<Instrument>, clicks: seq<Clicks>) returns (edited: seq<Instrument>, queued: seq<Byte>)
    requires |clicks| == |bank|
    ensures (edited, queued) == EditAll(bank, clicks)
  {
    edited, queued := [], [];
    var i := 0;
    while i < |bank|
      invariant 0 <= i <= |bank|
      invariant (edited, queued) == EditAll(bank[..i], clicks[..i])
    {
      assert bank[..i + 1][..i] == bank[..i] && clicks[..i + 1][..i] == clicks[..i];
      var r := EditInstrument(bank[i], clicks[i]);
      edited := edited + [r.0];
      queued := queued + r.1;
      i := i + 1;
    }
    assert bank[..|bank|] == bank && clicks[..|clicks|] == clicks;
  }

  /** The window; it is drawn only while open, and its close button shuts it. */
  class InstrumentManagerWindow {
    var open: bool

    constructor ()
      ensures !open
    {
      open := false;
    }

    /**
     * One frame: every instrument's controls in bank order, then "Add
     * Oscillator", then the queued instruments re-sent to the backend.
     */
    method Show(bank: seq<Instrument>, clicks: seq<Clicks>, addOscillator: bool, closeClicked: bool, audioReady: bool)
      returns (newBank: seq<Instrument>, cmds: seq<BackendCmd>)
      requires |clicks| == |bank|
      modifies this`open
      ensures !old(open) ==> newBank == bank && cmds == [] && !open
      ensures old(open) ==> open == !closeClicked
      ensures old(open) ==> |newBank| == |bank| + (if addOscillator then 1 else 0)
      ensures old(open) ==> newBank[..|bank|] == EditAll(bank, clicks).0
      ensures old(open) && addOscillator ==>
                var id := newBank[|bank|].id;
                id < 256 && IsNextFreeId(EditAll(bank, clicks).0, id) && newBank[|bank|] == NewOscillator(id)
      ensures old(open) ==>
                cmds == (if addOscillator && audioReady then OscCommands(newBank[|bank|].id, Sine, []) else [])
                        + (if audioReady then RehydrateCommands(newBank, SortDedup(EditAll(bank, clicks).1)) else [])
    {
      if !open {
        return bank, [];
      }
      var edited, queued := EditEach(bank, clicks);
      newBank := edited;
      cmds := [];
      if addOscillator {
        var id := NextFreeInstrumentId(newBank);
        newBank := newBank + [NewOscillator(id)];
        cmds := EnsureBackendOsc(audioReady, id, Sine, []);
      }
      var resent := Rehydrate(newBank, queued, audioReady);
      cmds := cmds + resent;
      open := !closeClicked;
    }
  }
}
