// Model of audio_backend/src/synth_infra/voice.rs: a voice pairs a sound
// source (a synth node) with its own envelope, pan and insert effects, and a
// voice manager keeps the voices that are still sounding. The envelope
// (adsr_envelope.rs) is not part of this model: it is reduced to its gate and
// whether it is still active, a gated envelope counting as active. Rendering
// (node samples, effects, constant-power pan) is not modelled.
module InfraVoice {
  import opened Wrappers
  import opened Effects

  /** One `set_effect_parameter` call as the voice's effect chain receives it. */
  datatype ParamSet = ParamSet(effectIndex: nat, paramIndex: nat, value: real)

  /** The per-voice effect chain's capacity in the instruments built on these voices. */
  const VoiceChainCapacity: nat := 10

  /**
   * One voice: its id, the node's activity and last note, the envelope's
   * gate and activity, the pan, the insert effects and the parameter
   * changes sent to them.
   */
  datatype Voice = Voice(
    id: nat,
    nodeActive: bool,
    nodeNote: Option<Byte>,
    gate: bool,
    envelopeActive: bool,
    pan: real,
    effects: Chain,
    paramLog: seq<ParamSet>)

  /** `is_active`: both the envelope and the node are active. */
  predicate IsActive(v: Voice)
  {
    v.envelopeActive && v.nodeActive
  }

  /**
   * `note_on`: the node takes the note and the envelope is gated on. What
   * the node's own `note_on` does to its activity depends on the node: an
   * oscillator or noise node is always active, while a sample player, hi-hat
   * or snare starts itself. `nodeActiveAfter` is the node's activity once
   * its `note_on` has run.
   */
  function NoteOn(v: Voice, note: Byte, velocity: Byte, nodeActiveAfter: bool): (r: Voice)
    ensures r.nodeNote == Some(note) && r.gate && r.envelopeActive
    ensures r.nodeActive == nodeActiveAfter
    ensures IsActive(r) <==> nodeActiveAfter
    ensures r == v.(nodeNote := r.nodeNote, nodeActive := r.nodeActive, gate := r.gate, envelopeActive := r.envelopeActive)
  {
    v.(nodeNote := Some(note), nodeActive := nodeActiveAfter, gate := true, envelopeActive := true)
  }

  /** `note_off`: the envelope is gated off and goes on releasing. */
  function NoteOff(v: Voice): (r: Voice)
    ensures !r.gate && IsActive(r) == IsActive(v)
    ensures r == v.(gate := false)
  {
    v.(gate := false)
  }

  function ClampPan(p: real): (r: real)
    ensures -1.0 <= r <= 1.0
    ensures -1.0 <= p <= 1.0 ==> r == p
    ensures p < -1.0 ==> r == -1.0
    ensures p > 1.0 ==> r == 1.0
  {
    if p < -1.0 then -1.0 else if p > 1.0 then 1.0 else p
  }

  /** `set_pan`: the pan, clamped to [-1, 1]; nothing else changes. */
  function SetPan(v: Voice, p: real): (r: Voice)
    ensures -1.0 <= r.pan <= 1.0 && r == v.(pan := r.pan)
    ensures -1.0 <= p <= 1.0 ==> r.pan == p
  {
    v.(pan := ClampPan(p))
  }

  /** `add_effect`: into the voice's own bounded chain. */
  function AddVoiceEffect(v: Voice, e: EffectId): (r: Voice)
    ensures r == v.(effects := AddEffect(v.effects, e))
    ensures ChainValid(v.effects) ==> ChainValid(r.effects)
  {
    v.(effects := AddEffect(v.effects, e))
  }

  /** `set_effect_parameter`: handed to the voice's chain. */
  function SetEffectParameter(v: Voice, effectIndex: nat, paramIndex: nat, value: real): (r: Voice)
    ensures r.paramLog == v.paramLog + [ParamSet(effectIndex, paramIndex, value)]
    ensures r == v.(paramLog := r.paramLog)
  {
    v.(paramLog := v.paramLog + [ParamSet(effectIndex, paramIndex, value)])
  }

  /** The voices `retain(is_active)` keeps, in their order. */
  function ActiveOnly(vs: seq<Voice>): (r: seq<Voice>)
    ensures |r| <= |vs|
    ensures forall i :: 0 <= i < |r| ==> IsActive(r[i])
    decreases |vs|
  {
    if vs == [] then []
    else ActiveOnly(vs[..|vs| - 1]) + (if IsActive(vs[|vs| - 1]) then [vs[|vs| - 1]] else [])
  }

  /** Retaining distributes over concatenation, so it keeps the voices' order. */
  lemma {:induction false} ActiveOnlyAppend(a: seq<Voice>, b: seq<Voice>)
    ensures ActiveOnly(a + b) == ActiveOnly(a) + ActiveOnly(b)
    decreases |b|
  {
    if b == [] {
      assert a + b == a;
    } else {
      var b' := b[..|b| - 1];
      assert (a + b)[..|a + b| - 1] == a + b';
      ActiveOnlyAppend(a, b');
    }
  }

  /** A voice survives retaining exactly when it was there and is active. */
  lemma {:induction false} ActiveOnlyMembers(vs: seq<Voice>, v: Voice)
    ensures v in ActiveOnly(vs) <==> v in vs && IsActive(v)
    decreases |vs|
  {
    if vs != [] {
      var init := vs[..|vs| - 1];
      ActiveOnlyMembers(init, v);
      assert vs == init + [vs[|vs| - 1]];
    }
  }

  /** Retaining twice is retaining once; a pool of active voices is kept whole. */
  lemma {:induction false} ActiveOnlyIdempotent(vs: seq<Voice>)
    ensures ActiveOnly(ActiveOnly(vs)) == ActiveOnly(vs)
    decreases |vs|
  {
    if vs != [] {
      var init := vs[..|vs| - 1];
      ActiveOnlyIdempotent(init);
      ActiveOnlyAppend(ActiveOnly(init), if IsActive(vs[|vs| - 1]) then [vs[|vs| - 1]] else []);
      if IsActive(vs[|vs| - 1]) {
        assert [vs[|vs| - 1]][..0] == [];
      }
    }
  }

  /**
   * What one block of rendering tells about a voice: whether its envelope
   * (run once per frame) and its node are still going at the block's end.
   * The samples themselves are not modelled.
   */
  datatype BlockEnd = BlockEnd(envelopeStillActive: bool, nodeStillActive: bool)

  /**
   * A voice's `process`: the block runs its envelope and node, either of
   * which may finish during it; a finished envelope or node stays finished.
   */
  function Rendered(v: Voice, e: BlockEnd): (r: Voice)
    ensures r == v.(envelopeActive := r.envelopeActive, nodeActive := r.nodeActive)
    ensures IsActive(r) <==> IsActive(v) && e.envelopeStillActive && e.nodeStillActive
  {
    v.(envelopeActive := v.envelopeActive && e.envelopeStillActive,
       nodeActive := v.nodeActive && e.nodeStillActive)
  }

  /** Every voice rendered for one block, in order. */
  function RenderAll(vs: seq<Voice>, ends: seq<BlockEnd>): (r: seq<Voice>)
    requires |ends| == |vs|
    ensures |r| == |vs|
    ensures forall i :: 0 <= i < |vs| ==> r[i] == Rendered(vs[i], ends[i])
  {
    seq(|vs|, i requires 0 <= i < |vs| => Rendered(vs[i], ends[i]))
  }

  /**
   * After a block, a voice whose envelope or node finished during it is gone,
   * and every voice that remains is a rendered voice that is still active.
   */
  lemma EndedVoicesRemoved(vs: seq<Voice>, ends: seq<BlockEnd>)
    requires |ends| == |vs|
    ensures forall i :: 0 <= i < |vs| && !(ends[i].envelopeStillActive && ends[i].nodeStillActive) ==>
              Rendered(vs[i], ends[i]) !in ActiveOnly(RenderAll(vs, ends))
    ensures forall v :: v in ActiveOnly(RenderAll(vs, ends)) ==> v in RenderAll(vs, ends) && IsActive(v)
  {
    forall v | true
      ensures v in ActiveOnly(RenderAll(vs, ends)) <==> v in RenderAll(vs, ends) && IsActive(v)
    {
      ActiveOnlyMembers(RenderAll(vs, ends), v);
    }
  }

  /** A block never brings a voice back: no more voices survive than were active before it. */
  lemma {:induction false} RenderNeverRevives(vs: seq<Voice>, ends: seq<BlockEnd>)
    requires |ends| == |vs|
    ensures |ActiveOnly(RenderAll(vs, ends))| <= |ActiveOnly(vs)|
    decreases |vs|
  {
    if vs != [] {
      var n := |vs| - 1;
      RenderNeverRevives(vs[..n], ends[..n]);
      assert RenderAll(vs, ends)[..n] == RenderAll(vs[..n], ends[..n]);
    }
  }

  /** A block in which nothing finishes leaves every voice as it was. */
  lemma NothingEndsKeepsVoices(vs: seq<Voice>, ends: seq<BlockEnd>)
    requires |ends| == |vs|
    requires forall i :: 0 <= i < |vs| ==> IsActive(vs[i]) && ends[i] == BlockEnd(true, true)
    ensures RenderAll(vs, ends) == vs
  {
  }

  /**
   * A voice around a stopped node that starts on `note_on` (a sample player
   * with data) becomes active, and a block in which nothing finishes keeps it.
   */
  lemma NoteOnStartsStoppedNode(v: Voice, note: Byte, velocity: Byte)
    requires !v.nodeActive
    ensures !IsActive(v) && IsActive(NoteOn(v, note, velocity, true))
    ensures var r := NoteOn(v, note, velocity, true);
            ActiveOnly(RenderAll([r], [BlockEnd(true, true)])) == [r]
  {
    var r := NoteOn(v, note, velocity, true);
    assert RenderAll([r], [BlockEnd(true, true)]) == [r];
    assert [r][..0] == [];
  }

  /** The first voice carrying the id. */
  function FirstWithId(vs: seq<Voice>, id: nat): (r: Option<nat>)
    ensures r.Some? ==> r.value < |vs| && vs[r.value].id == id
    ensures r.Some? ==> forall j :: 0 <= j < r.value ==> vs[j].id != id
    ensures r.None? <==> forall j :: 0 <= j < |vs| ==> vs[j].id != id
  {
    if vs == [] then None
    else if vs[0].id == id then Some(0)
    else match FirstWithId(vs[1..], id)
      case None => None
      case Some(k) => Some(k + 1)
  }

  /** The synth_infra `VoiceManager`: a growing list of voices. */
  class VoiceManager {
    var voices: seq<Voice>

    constructor ()
      ensures voices == []
    {
      voices := [];
    }

    /** `find_voice_mut`: the position of the first voice with the id. */
    method FindVoice(id: nat) returns (r: Option<nat>)
      ensures r == FirstWithId(voices, id)
    {
      var i := 0;
      while i < |voices|
        invariant 0 <= i <= |voices|
        invariant forall j :: 0 <= j < i ==> voices[j].id != id
      {
        if voices[i].id == id {
          FirstWithIdIs(voices, id, i);
          return Some(i);
        }
        i := i + 1;
      }
      return None;
    }

    /**
     * `process`: every voice renders the block (`ends` says what its envelope
     * and node report at the end of it); then only the voices still active
     * remain, in order.
     */
    method Process(ends: seq<BlockEnd>)
      requires |ends| == |voices|
      modifies this
      ensures voices == ActiveOnly(RenderAll(old(voices), ends))
    {
      var i := 0;
      while i < |voices|
        invariant 0 <= i <= |voices| == |old(voices)|
        invariant forall j :: 0 <= j < i ==> voices[j] == Rendered(old(voices)[j], ends[j])
        invariant forall j :: i <= j < |voices| ==> voices[j] == old(voices)[j]
      {
        voices := voices[i := Rendered(voices[i], ends[i])];
        i := i + 1;
      }
      assert voices == RenderAll(old(voices), ends);
      var kept: seq<Voice> := [];
      i := 0;
      while i < |voices|
        invariant 0 <= i <= |voices|
        invariant kept == ActiveOnly(voices[..i])
      {
        assert voices[..i + 1][..i] == voices[..i];
        if IsActive(voices[i]) {
          kept := kept + [voices[i]];
        }
        i := i + 1;
      }
      assert voices[..i] == voices;
      voices := kept;
    }

    /** `add_voice`: appends the voice. */
    method AddVoice(v: Voice)
      modifies this
      ensures voices == old(voices) + [v]
    {
      voices := voices + [v];
    }
  }

  lemma FirstWithIdIs(vs: seq<Voice>, id: nat, i: nat)
    requires i < |vs| && vs[i].id == id && forall j :: 0 <= j < i ==> vs[j].id != id
    ensures FirstWithId(vs, id) == Some(i)
  {
    match FirstWithId(vs, id) {
      case None =>
      case Some(k) =>
    }
  }
}
