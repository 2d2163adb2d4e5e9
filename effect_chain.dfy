// Model of audio_backend/src/synth_infra/effects.rs: a chain of effects
// with a fixed capacity, processed in insertion order. Effects are known by
// an identifier; what each does to the samples is not modelled, so
// processing is recorded as the order in which the effects run.
module Effects {
  import opened Arith

  /** An effect of the chain, known only by its identity. */
  type EffectId = nat

  /** The chain's effects and the capacity `Vec::with_capacity` gave it. */
  datatype Chain = Chain(effects: seq<EffectId>, capacity: nat)

  predicate ChainValid(c: Chain)
  {
    |c.effects| <= c.capacity
  }

  /** `EffectChain::new`: empty, with the given capacity. */
  function NewChain(capacity: nat): (c: Chain)
    ensures ChainValid(c) && c.effects == [] && c.capacity == capacity
  {
    Chain([], capacity)
  }

  /**
   * `add_effect`: appends while there is room; a full chain is left as it
   * was. Either way the capacity is kept and the chain stays within it.
   */
  function AddEffect(c: Chain, e: EffectId): (r: Chain)
    ensures r.capacity == c.capacity
    ensures ChainValid(c) ==> ChainValid(r)
    ensures |c.effects| < c.capacity ==> r.effects == c.effects + [e]
    ensures |c.effects| >= c.capacity ==> r == c
  {
    if |c.effects| < c.capacity then c.(effects := c.effects + [e]) else c
  }

  /** Adding several effects one after the other. */
  function AddAll(c: Chain, es: seq<EffectId>): Chain
    decreases |es|
  {
    if es == [] then c else AddAll(AddEffect(c, es[0]), es[1..])
  }

  /**
   * However many effects are added, the chain keeps the first ones that
   * fit: it holds its old effects followed by a prefix of the new ones,
   * and its length is the smaller of the capacity and the total offered.
   */
  lemma {:induction false} AddAllKeepsPrefix(c: Chain, es: seq<EffectId>)
    requires ChainValid(c)
    ensures var r := AddAll(c, es);
            var k := MinNat(c.capacity - |c.effects|, |es|);
            && ChainValid(r) && r.capacity == c.capacity
            && r.effects == c.effects + es[..k]
    decreases |es|
  {
    if es != [] {
      var c1 := AddEffect(c, es[0]);
      AddAllKeepsPrefix(c1, es[1..]);
      if |c.effects| < c.capacity {
        var k1 := MinNat(c1.capacity - |c1.effects|, |es| - 1);
        assert c1.effects + es[1..][..k1] == c.effects + es[..k1 + 1];
      } else {
        assert es[..0] == [];
      }
    }
  }

  /** The `EffectChain` struct; `trace` records the order in which effects have run. */
  class EffectChain {
    var effects: seq<EffectId>
    const capacity: nat
    var trace: seq<EffectId>

    function Value(): Chain
      reads this
    {
      Chain(effects, capacity)
    }

    constructor (capacity: nat)
      ensures Value() == NewChain(capacity) && trace == []
    {
      effects := [];
      this.capacity := capacity;
      trace := [];
    }

    method Add(e: EffectId)
      modifies this`effects
      ensures Value() == AddEffect(old(Value()), e)
    {
      if |effects| < capacity {
        effects := effects + [e];
      } else {
        // The chain is full: the effect is dropped.
      }
    }

    /** `process`: every effect runs once, in insertion order. */
    method Process()
      modifies this`trace
      ensures trace == old(trace) + effects
    {
      var i := 0;
      while i < |effects|
        invariant 0 <= i <= |effects|
        invariant trace == old(trace) + effects[..i]
      {
        assert effects[..i + 1] == effects[..i] + [effects[i]];
        trace := trace + [effects[i]];
        i := i + 1;
      }
      assert effects[..i] == effects;
    }
  }
}
