// Model of tracker_gui/src/app.rs: the tracker window's state and the song
// edits it makes on behalf of the side panel.
module App {
  import opened Wrappers
  import opened SongModel
  import ArrangementTab
  import ChainsTab
  import PhrasesTab
  import InstrumentManager
  import HarmonyNote

  /** The effects the side panel offers; only Reverb does anything yet. */
  datatype PanelEffect = ReverbEffect | DelayEffect | Distortion | BitCrush | Filter | Gain

  /** The instruments the side panel offers. */
  datatype AvailableInstrument = Oscillator | SamplePlayer

  function InstrumentName(instr: AvailableInstrument): string
  {
    match instr
    case Oscillator => "Oscillator"
    case SamplePlayer => "Sample Player"
  }

  /** What the window sends to the audio engine. */
  datatype EngineCmd =
    | AddStereoReverbTo(instrumentId: Byte)
    | AddSimpleOscillatorTrack(instrumentId: Byte)

  // ---------------------------------------------------------------------
  // Event edits

  /** Whether (phrase, step) names an event of the song. */
  predicate SelectionInSong(song: Song, phraseIdx: nat, stepIdx: nat)
  {
    phraseIdx < |song.phraseBank| && stepIdx < |song.phraseBank[phraseIdx].events|
  }

  function WithEvent(song: Song, phraseIdx: nat, stepIdx: nat, e: Event): (r: Song)
    requires SelectionInSong(song, phraseIdx, stepIdx)
    ensures SelectionInSong(r, phraseIdx, stepIdx) && r.phraseBank[phraseIdx].events[stepIdx] == e
    ensures |r.phraseBank| == |song.phraseBank|
    ensures forall p :: 0 <= p < |song.phraseBank| && p != phraseIdx ==> r.phraseBank[p] == song.phraseBank[p]
    ensures |r.phraseBank[phraseIdx].events| == |song.phraseBank[phraseIdx].events|
    ensures forall s :: 0 <= s < |song.phraseBank[phraseIdx].events| && s != stepIdx ==>
              r.phraseBank[phraseIdx].events[s] == song.phraseBank[phraseIdx].events[s]
    ensures r == song.(phraseBank := r.phraseBank)
  {
    var phrase := song.phraseBank[phraseIdx];
    song.(phraseBank := song.phraseBank[phraseIdx := Phrase(phrase.events[stepIdx := e])])
  }

  /** Writing back an event's own value leaves the song as it was. */
  lemma WithEventSame(song: Song, phraseIdx: nat, stepIdx: nat)
    requires SelectionInSong(song, phraseIdx, stepIdx)
    ensures WithEvent(song, phraseIdx, stepIdx, song.phraseBank[phraseIdx].events[stepIdx]) == song
  {
    var phrase := song.phraseBank[phraseIdx];
    assert phrase.events[stepIdx := phrase.events[stepIdx]] == phrase.events;
    assert song.phraseBank[phraseIdx := phrase] == song.phraseBank;
  }

  /** The reverb effect column of an event: SetReverb, with a parameter of at least 1. */
  function WithReverb(e: Event): (r: Event)
    ensures r.effect == SetReverb && r.effectParam >= 1
    ensures r.effectParam == e.effectParam || (e.effectParam == 0 && r.effectParam == 1)
    ensures r == e.(effect := SetReverb, effectParam := r.effectParam)
  {
    e.(effect := SetReverb, effectParam := if e.effectParam == 0 then 1 else e.effectParam)
  }

  /** Applying the reverb twice is applying it once. */
  lemma WithReverbIdempotent(e: Event)
    ensures WithReverb(WithReverb(e)) == WithReverb(e)
  {
  }

  class TrackerApp {
    var song: Song
    var songName: string
    var bpm: string
    var speed: string
    const arrangementTab: ArrangementTab.ArrangementTab
    const chainsTab: ChainsTab.ChainsTab
    const phrasesTab: PhrasesTab.PhrasesTab
    /** Whether the audio engine has been started. */
    var audioReady: bool
    /** The commands sent to the audio engine so far. */
    var engineLog: seq<EngineCmd>

    /** `TrackerApp::default()`, with the new song given. */
    constructor (newSong: Song)
      ensures song == newSong && songName == "New Song" && bpm == "120" && speed == "6"
      ensures !audioReady && engineLog == []
      ensures fresh(arrangementTab) && fresh(chainsTab) && fresh(phrasesTab)
    {
      song := newSong;
      songName := "New Song";
      bpm := "120";
      speed := "6";
      arrangementTab := new ArrangementTab.ArrangementTab();
      chainsTab := new ChainsTab.ChainsTab();
      phrasesTab := new PhrasesTab.PhrasesTab();
      audioReady := false;
      engineLog := [];
    }

    /** Every tab back to its first row, chain and phrase, with no step selected. */
    method ResetTabStates()
      modifies arrangementTab, chainsTab, phrasesTab
      ensures arrangementTab.currentRow == 0 && arrangementTab.currentTrack == 0
      ensures arrangementTab.scrollToCurrent == old(arrangementTab.scrollToCurrent)
      ensures chainsTab.selectedChain == 0
      ensures phrasesTab.selectedPhrase == 0 && phrasesTab.selectedEventStep == None
    {
      arrangementTab.Reset();
      chainsTab.Reset();
      phrasesTab.Reset();
    }

    /** A new or loaded song replaces the current one; the header fields show its name, tempo and speed. */
    method LoadSongData(newSong: Song)
      modifies this, arrangementTab, chainsTab, phrasesTab
      ensures song == newSong && songName == newSong.name
      ensures (forall i :: 0 <= i < |bpm| ==> HarmonyNote.IsDigit(bpm[i])) && HarmonyNote.DecimalValue(bpm) == newSong.initialBpm
      ensures (forall i :: 0 <= i < |speed| ==> HarmonyNote.IsDigit(speed[i])) && HarmonyNote.DecimalValue(speed) == newSong.initialSpeed
      ensures audioReady == old(audioReady) && engineLog == old(engineLog)
      ensures arrangementTab.currentRow == 0 && arrangementTab.currentTrack == 0
      ensures chainsTab.selectedChain == 0
      ensures phrasesTab.selectedPhrase == 0 && phrasesTab.selectedEventStep == None
    {
      song := newSong;
      songName := song.name;
      bpm := HarmonyNote.DecimalText(song.initialBpm);
      speed := HarmonyNote.DecimalText(song.initialSpeed);
      HarmonyNote.DecimalRoundTrip(song.initialBpm);
      HarmonyNote.DecimalRoundTrip(song.initialSpeed);
      ResetTabStates();
    }

    /**
     * The side panel's "Apply" for an effect. Reverb on a selected event
     * marks the event's effect column; with audio running it also gives the
     * event's instrument a stereo reverb, unless the event has none.
     */
    method HandleEffectSelection(effect: PanelEffect, currentTrack: nat, selection: Option<(nat, nat)>)
      modifies this`song, this`engineLog
      ensures effect == ReverbEffect && selection.Some? && SelectionInSong(old(song), selection.value.0, selection.value.1) ==>
                var (p, s) := selection.value;
                var e := WithReverb(old(song).phraseBank[p].events[s]);
                song == WithEvent(old(song), p, s, e)
                && engineLog == old(engineLog) + (if audioReady && e.instrumentId != 0 then [AddStereoReverbTo(e.instrumentId)] else [])
      ensures !(effect == ReverbEffect && selection.Some? && SelectionInSong(old(song), selection.value.0, selection.value.1)) ==>
                song == old(song) && engineLog == old(engineLog)
    {
      if effect == ReverbEffect && selection.Some? {
        var (p, s) := selection.value;
        if SelectionInSong(song, p, s) {
          var e := WithReverb(song.phraseBank[p].events[s]);
          song := WithEvent(song, p, s, e);
          if audioReady {
            var instId := song.phraseBank[p].events[s].instrumentId;
            if instId != 0 {
              engineLog := engineLog + [AddStereoReverbTo(instId)];
            }
          }
        }
      }
    }

    /**
     * The side panel's "Assign" for an instrument. An event without an
     * instrument gets the next free id; the bank gains an instrument under
     * the event's id unless one is there already; with audio running an
     * oscillator is created in the engine.
     */
    method ApplyInstrumentToSelectedEvent(instr: AvailableInstrument, selection: Option<(nat, nat)>)
      modifies this`song, this`engineLog
      ensures selection.None? || !SelectionInSong(old(song), selection.value.0, selection.value.1) ==>
                song == old(song) && engineLog == old(engineLog)
      ensures selection.Some? && SelectionInSong(old(song), selection.value.0, selection.value.1) ==>
                var (p, s) := selection.value;
                var before := old(song).phraseBank[p].events[s];
                var bank := old(song).instrumentBank;
                && SelectionInSong(song, p, s)
                && var id := song.phraseBank[p].events[s].instrumentId;
                // the event now names an instrument of the bank
                && id != 0 && IdUsed(song.instrumentBank, id)
                && (before.instrumentId != 0 ==> id == before.instrumentId)
                && (before.instrumentId == 0 ==> InstrumentManager.IsNextFreeId(bank, id))
                && song == WithEvent(old(song), p, s, before.(instrumentId := id)).(instrumentBank := song.instrumentBank)
                // the bank only ever gains that one instrument
                && song.instrumentBank == bank + (if IdUsed(bank, id) then [] else [Instrument(id, InstrumentName(instr), SimpleOscillator(Sine, []))])
                && engineLog == old(engineLog) + (if audioReady && instr == Oscillator then [AddSimpleOscillatorTrack(id)] else [])
    {
      if selection.Some? {
        var (p, s) := selection.value;
        if SelectionInSong(song, p, s) {
          var idU8 := song.phraseBank[p].events[s].instrumentId;
          WithEventSame(song, p, s);
          if idU8 == 0 {
            var newId := InstrumentManager.NextFreeInstrumentId(song.instrumentBank);
            song := WithEvent(song, p, s, song.phraseBank[p].events[s].(instrumentId := newId));
            idU8 := newId;
          }
          var present := InstrumentManager.HasId(song.instrumentBank, idU8);
          if !present {
            var instrument := Instrument(idU8, InstrumentName(instr), SimpleOscillator(Sine, []));
            song := song.(instrumentBank := song.instrumentBank + [instrument]);
            assert song.instrumentBank[|song.instrumentBank| - 1].id == idU8;
          }
          if audioReady && instr == Oscillator {
            engineLog := engineLog + [AddSimpleOscillatorTrack(idU8)];
          }
        }
      }
    }
  }
}
