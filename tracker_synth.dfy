// Model of audio_backend/src/player/tracker_synthesizer.rs: the tracker's
// synthesizer, a bank of instruments keyed by instrument id plus a master
// effect chain of capacity 8. An instrument is modelled by the calls it has
// received, in order; what it renders is not modelled.
module TrackerSynth {
  import opened Wrappers
  import opened Effects

  /** The capacity of the master effect chain. */
  const MasterChainCapacity: nat := 8

  /** A call an instrument receives from the synthesizer. */
  datatype InstrumentCall = NoteOnCall(note: Byte, velocity: Byte) | NoteOffCall | AddEffectCall(effect: EffectId)

  /** An instrument of the bank: its own id and the calls it has received. */
  datatype Instrument = Instrument(id: nat, calls: seq<InstrumentCall>)

  datatype EngineCmd = EngineNoteOn(instrumentId: nat, note: Byte, velocity: Byte) | EngineNoteOff(instrumentId: nat)

  /** Mixer commands; the effect of `AddMasterEffect` is known by its id. */
  datatype MixerCmd =
    | AddMasterEffect(effect: EffectId)
    | RemoveEffect(targetChain: nat, effectIndex: nat)
    | ReorderEffects(targetChain: nat, fromIndex: nat, toIndex: nat)
    | SetEffectParameter(instrumentId: nat, effectIndex: nat, paramIndex: nat, value: real)

  /** Each instrument is filed under its own id. */
  predicate BankValid(bank: map<nat, Instrument>)
  {
    forall id :: id in bank ==> bank[id].id == id
  }

  /** Hands `call` to the instrument with the id; an unknown id is ignored. */
  function Deliver(bank: map<nat, Instrument>, id: nat, call: InstrumentCall): (r: map<nat, Instrument>)
    ensures r.Keys == bank.Keys
    ensures id !in bank ==> r == bank
    ensures id in bank ==> r[id] == bank[id].(calls := bank[id].calls + [call])
    ensures forall k :: k in bank && k != id ==> r[k] == bank[k]
    ensures BankValid(bank) ==> BankValid(r)
  {
    if id in bank then bank[id := bank[id].(calls := bank[id].calls + [call])] else bank
  }

  /** Every instrument of the bank receives `note_off`. */
  function NoteOffAll(bank: map<nat, Instrument>): (r: map<nat, Instrument>)
    ensures r.Keys == bank.Keys
    ensures forall k :: k in bank ==> r[k] == bank[k].(calls := bank[k].calls + [NoteOffCall])
    ensures BankValid(bank) ==> BankValid(r)
  {
    map k | k in bank :: bank[k].(calls := bank[k].calls + [NoteOffCall])
  }

  /** An engine command is the matching note call to its instrument. */
  function EngineBank(bank: map<nat, Instrument>, cmd: EngineCmd): map<nat, Instrument>
  {
    match cmd
    case EngineNoteOn(id, note, velocity) => Deliver(bank, id, NoteOnCall(note, velocity))
    case EngineNoteOff(id) => Deliver(bank, id, NoteOffCall)
  }

  /** Only `AddMasterEffect` touches the master chain; the other mixer commands are ignored. */
  function MixerChain(master: Chain, cmd: MixerCmd): (r: Chain)
    ensures ChainValid(master) ==> ChainValid(r)
    ensures !cmd.AddMasterEffect? ==> r == master
    ensures cmd.AddMasterEffect? ==> r == AddEffect(master, cmd.effect)
  {
    match cmd
    case AddMasterEffect(e) => AddEffect(master, e)
    case _ => master
  }

  /**
   * An instrument added to the bank receives the notes sent to its id
   * afterwards, whatever was filed under that id before.
   */
  lemma AddThenPlay(bank: map<nat, Instrument>, inst: Instrument, note: Byte, velocity: Byte)
    ensures Deliver(bank[inst.id := inst], inst.id, NoteOnCall(note, velocity))[inst.id].calls
            == inst.calls + [NoteOnCall(note, velocity)]
  {
  }

  /** The tracker's `Synthesizer` struct. */
  class Synthesizer {
    var instrumentBank: map<nat, Instrument>
    var masterEffects: Chain

    predicate Valid()
      reads this
    {
      BankValid(instrumentBank) && ChainValid(masterEffects) && masterEffects.capacity == MasterChainCapacity
    }

    /** `new`: an empty bank and an empty master chain of capacity 8. */
    constructor ()
      ensures Valid() && instrumentBank == map[] && masterEffects == NewChain(MasterChainCapacity)
    {
      instrumentBank := map[];
      masterEffects := NewChain(MasterChainCapacity);
    }

    method NoteOn(instrumentId: nat, note: Byte, velocity: Byte)
      requires Valid()
      modifies this`instrumentBank
      ensures Valid() && instrumentBank == Deliver(old(instrumentBank), instrumentId, NoteOnCall(note, velocity))
    {
      if instrumentId in instrumentBank {
        var inst := instrumentBank[instrumentId];
        instrumentBank := instrumentBank[instrumentId := inst.(calls := inst.calls + [NoteOnCall(note, velocity)])];
      }
    }

    method NoteOff(instrumentId: nat)
      requires Valid()
      modifies this`instrumentBank
      ensures Valid() && instrumentBank == Deliver(old(instrumentBank), instrumentId, NoteOffCall)
    {
      if instrumentId in instrumentBank {
        var inst := instrumentBank[instrumentId];
        instrumentBank := instrumentBank[instrumentId := inst.(calls := inst.calls + [NoteOffCall])];
      }
    }

    /** `add_instrument`: files the instrument under its own id, replacing any earlier one. */
    method AddInstrument(inst: Instrument)
      requires Valid()
      modifies this`instrumentBank
      ensures Valid() && instrumentBank == old(instrumentBank)[inst.id := inst]
    {
      instrumentBank := instrumentBank[inst.id := inst];
    }

    method AddEffectToInstrument(instrumentId: nat, effect: EffectId)
      requires Valid()
      modifies this`instrumentBank
      ensures Valid() && instrumentBank == Deliver(old(instrumentBank), instrumentId, AddEffectCall(effect))
    {
      if instrumentId in instrumentBank {
        var inst := instrumentBank[instrumentId];
        instrumentBank := instrumentBank[instrumentId := inst.(calls := inst.calls + [AddEffectCall(effect)])];
      }
    }

    /** `stop_all_notes`: every instrument, visited in the map's order, receives `note_off`. */
    method StopAllNotes()
      requires Valid()
      modifies this`instrumentBank
      ensures Valid() && instrumentBank == NoteOffAll(old(instrumentBank))
    {
      var todo := instrumentBank.Keys;
      while todo != {}
        invariant todo <= instrumentBank.Keys == old(instrumentBank).Keys
        invariant forall k :: k in todo ==> instrumentBank[k] == old(instrumentBank)[k]
        invariant forall k :: k in instrumentBank && k !in todo ==> instrumentBank[k] == NoteOffAll(old(instrumentBank))[k]
        decreases |todo|
      {
        var k :| k in todo;
        var inst := instrumentBank[k];
        instrumentBank := instrumentBank[k := inst.(calls := inst.calls + [NoteOffCall])];
        todo := todo - {k};
      }
    }

    method HandleEngineCommand(cmd: EngineCmd)
      requires Valid()
      modifies this`instrumentBank
      ensures Valid() && instrumentBank == EngineBank(old(instrumentBank), cmd)
    {
      match cmd {
        case EngineNoteOn(id, note, velocity) => NoteOn(id, note, velocity);
        case EngineNoteOff(id) => NoteOff(id);
      }
    }

    method HandleMixerCommand(cmd: MixerCmd)
      requires Valid()
      modifies this`masterEffects
      ensures Valid() && masterEffects == MixerChain(old(masterEffects), cmd)
    {
      match cmd {
        case AddMasterEffect(e) => masterEffects := AddEffect(masterEffects, e);
        case RemoveEffect(_, _) =>
        case ReorderEffects(_, _, _) =>
        case SetEffectParameter(_, _, _, _) =>
      }
    }
  }
}
