# blight-synth core, modelled in Dafny

This project models the discrete machinery of the blight-synth tracker and synthesizer and proves properties of it. The modelled parts are:

- **Sequencer.** The clock turns sample counts into ticks (`TimingState`). The tracker `Player` walks tick, phrase step, chain step and arrangement row. It resolves each track's event through the arrangement, chain and phrase banks and sends note commands to its synthesizer.
- **Tracker editor.** The two-digit hex cell editors and the chain, phrase and arrangement tabs are modelled, with their add/remove buttons and selection clamping. So are the instrument manager window, which allocates ids, edits waveforms and single-instance effects and keeps a sorted rehydrate list, and the application's song edits.
- **Audio backend.** The model covers:
  - the linear ADSR envelopes (`envelope/mod.rs` and `synths/adsr.rs`);
  - the voices and voice pools with their allocation and stealing policies: the `synths` synthesizer, the voice manager and the polyphonic oscillator;
  - the infrastructure voices and their manager;
  - bounded effect chains;
  - the tracker synthesizer's instrument bank;
  - the delay line's ring buffer, the xorshift noise generator and the sample player's frame reads;
  - the GUI command queue, the audio callback's bounded drain and frame fill, and the unified audio processor's drain, clear and interleave;
  - the instrument-id registry.
- **Harmony and input.** Notes and their printed names, the chromatic scale, the computer-keyboard piano, the drum-pad key table, the desktop front end's synthesizer commands and the script that expands the notes table into note records.

Each source file is one Dafny module. State the source updates in place is a `class` whose methods are proved against specification functions. Pure logic consists of functions and lemmas. The song data shared by the sequencer and the editor is in `song_model.dfy`, and `Option` is in `wrappers.dfy`. Floating-point values are modelled as exact reals. Audio rendering is reduced to what the control logic observes.

## Model

| member | source | states |
|---|---|---|
| Timing.TickDuration | sequencer/src/timing/mod.rs:49-53 | a tick lasts a positive number of samples for any positive tempo and sample rate |
| Timing.TickDurationTimesBpm | sequencer/src/timing/mod.rs:1-3 | tick length times BPM is 2.5 seconds of samples (2500 ms divided by the BPM) |
| Timing.TicksIsLeast | sequencer/src/timing/mod.rs:38-46 | the number of ticks an advance reports is the least k that makes the countdown plus k tick lengths positive |
| Timing.TicksUnique | sequencer/src/timing/mod.rs:38-46 | any least such k is the reported tick count, so the count is fully determined by the countdown |
| Timing.AdvanceAccumulates | sequencer/src/timing/mod.rs:38-46 | two advances in a row report as many ticks together as one advance by the sum of their sample counts |
| Timing.CarriedAccumulates | sequencer/src/timing/mod.rs:38-46 | the same, stated with the countdown the first advance leaves: the second advance's ticks from there add up to those of the summed advance |
| Timing.TimingState.NewWithBpmTpl | sequencer/src/timing/mod.rs:25-35 | stores sample rate, tempo and ticks per line, and the countdown starts at one full tick |
| Timing.TimingState.New | sequencer/src/timing/mod.rs:5-7 | the default clock is 125 BPM with 6 ticks per line, countdown at one full tick |
| Timing.TimingState.Advance | sequencer/src/timing/mod.rs:38-46 | returns the number of tick boundaries crossed by `numSamples` samples and leaves the countdown refilled by that many tick lengths, positive again |
| Timing.TimingState.SetBpm | sequencer/src/timing/mod.rs:49-54 | the new tempo sets a new tick length and restarts the countdown at one full tick; sample rate and ticks per line are kept |
| Timing.TimingState.SetTpl | sequencer/src/timing/mod.rs:57-59 | only the ticks per line change |
| Timing.AdvanceScenario | sequencer/src/timing/mod.rs:86-105 | at 48 kHz and 125 BPM a tick is 960 samples; 959 samples give no tick, one more gives one, 1920 more give two |
| Timing.BpmChangeScenario | sequencer/src/timing/mod.rs:124-142 | after switching to 250 BPM the countdown is a fresh 480-sample tick |
| Timing.SmallAdvancesScenario | sequencer/src/timing/mod.rs:145-158 | nine advances of 100 samples give no tick; the tenth gives one |
| Hex.DigitValue | tracker_gui/src/ui_components/hex.rs:22 | an ASCII hex digit of either case has a value below 16 |
| Hex.UpperDigit | tracker_gui/src/tabs/chains.rs:76 | the digit `{:X}` prints for a value below 16 is a hex digit that reads back as that value |
| Hex.HexNumberBound | tracker_gui/src/ui_components/hex.rs:20-24 | n hex digits never denote more than 16^n - 1 |
| Hex.ParseU8Radix16 | tracker_gui/src/ui_components/hex.rs:27 | `u8::from_str_radix(_, 16)` accepts only values that fit in a byte |
| Hex.FormatUpperHex | tracker_gui/src/tabs/phrases.rs:113 | `{:X}` prints at least one hex digit and nothing else |
| Hex.FormatUpperHex02 | tracker_gui/src/tabs/chains.rs:76 | `{:02X}` prints at least two hex digits and nothing else |
| Hex.FormatUpperHexValue | tracker_gui/src/tabs/phrases.rs:113 | what `{:X}` prints reads back as the printed number |
| Hex.FormatUpperHexShort | tracker_gui/src/tabs/chains.rs:76 | a byte prints in at most two digits |
| Hex.LeadingZero | tracker_gui/src/tabs/chains.rs:76 | the zero padding of `{:02X}` does not change the value |
| Hex.FormatParseRoundTrip | tracker_gui/src/ui_components/hex.rs:27 | every byte formatted by `{:02X}` or `{:X}` is read back by the editor's parse as the same byte |
| Hex.KeepHex | tracker_gui/src/ui_components/hex.rs:20-22 | the character filter keeps only hex digits and never grows the text |
| Hex.KeepHexOfHex | tracker_gui/src/ui_components/hex.rs:20-22 | the filter leaves a text of hex digits as it is |
| Hex.FilteredShape | tracker_gui/src/ui_components/hex.rs:19-24 | the filtered text is hex digits only, two of them when at least two were typed, otherwise all of them |
| Hex.FilteredIdempotent | tracker_gui/src/ui_components/hex.rs:19-24 | filtering twice is filtering once |
| Hex.FilteredParses | tracker_gui/src/ui_components/hex.rs:25-29 | a non-empty filtered text always parses, to its hex value, so the keep-old-value branch is never taken |
| Hex.HexU8Editor | tracker_gui/src/ui_components/hex.rs:5-36 | without a change nothing moves; on a change the buffer is the filtered text and the value is its hex reading, 0 when empty, always a byte |
| Hex.HexUsizeWithSentinelEditor | tracker_gui/src/ui_components/hex.rs:41-73 | as the byte editor, except that an empty text stores the sentinel; the value is the sentinel exactly when the text is empty or reads as the sentinel |
| Hex.EditorStable | tracker_gui/src/ui_components/hex.rs:30-32 | feeding the editor the buffer it just left changes neither buffer nor value |
| TabSelection.RemoveSelectedContents | tracker_gui/src/tabs/chains.rs:22-27 | Remove deletes exactly the selected entry and keeps the others in order (a permutation minus that entry); a selection outside the bank deletes nothing |
| TabSelection.RemoveSelectedKeepsSelection | tracker_gui/src/tabs/phrases.rs:26-33 | after Remove a valid selection stays valid: it keeps its index, or moves to the new last entry when it was the last one |
| TabSelection.AppendKeepsSelection | tracker_gui/src/tabs/chains.rs:18-19 | adding an entry never invalidates the selection |
| ChainsTab.SlotTextRoundTrip | tracker_gui/src/tabs/chains.rs:73-89 | every byte and the empty slot survive being shown in the cell and read back, whatever the slot held before |
| ChainsTab.SlotTextKeepsLargeIndex | tracker_gui/src/tabs/chains.rs:73-89 | an index of 256 or more shows three or more digits, which the cell does not accept, so re-reading it keeps the index |
| ChainsTab.EditSlot | tracker_gui/src/tabs/chains.rs:83-89 | a cell edit changes only its own slot: "--" or an empty text empties it, a hex byte sets it, anything else keeps it |
| ChainsTab.ChainsTab.constructor | tracker_gui/src/tabs/chains.rs:5-8 | the default tab selects chain 0 |
| ChainsTab.ChainsTab.Reset | tracker_gui/src/tabs/chains.rs:11-13 | the selection goes back to chain 0 |
| ChainsTab.ChainsTab.AddChain | tracker_gui/src/tabs/chains.rs:18-20 | one default chain is appended and the selection stays valid |
| ChainsTab.ChainsTab.RemoveChain | tracker_gui/src/tabs/chains.rs:21-28 | the bank and selection after Remove are the shared removal rule, and a valid selection stays valid |
| ChainsTab.ChainsTab.SelectChain | tracker_gui/src/tabs/chains.rs:41-45 | a click on chain i selects it |
| PhrasesTab.InitialBufferRoundTrip | tracker_gui/src/tabs/phrases.rs:109-117 | a note or volume cell's first text (empty for 0, `{:X}` otherwise), accepted as typed, leaves the value and the text as they were |
| PhrasesTab.EditNote | tracker_gui/src/tabs/phrases.rs:107-118 | the note cell changes only the event's note, nothing without a change, and leaves the filtered text in the buffer |
| PhrasesTab.EditVolume | tracker_gui/src/tabs/phrases.rs:120-131 | the volume cell changes only the event's volume, nothing without a change, and leaves the filtered text in the buffer |
| PhrasesTab.InstrumentIdAsWrittenWraps | tracker_gui/src/tabs/phrases.rs:160 | as written, instrument 256 is stored as 0 ("no instrument") and 300 as 44 |
| PhrasesTab.SaturatingInstrumentIdSpec | tracker_gui/src/tabs/phrases.rs:160 | the intended clamp keeps every byte id, saturates larger ids at 255, gives 0 only for 0, and agrees with the code on byte ids |
| PhrasesTab.PickInstrument | tracker_gui/src/tabs/phrases.rs:156-166 | the combo box changes only the event's instrument: "--" stores 0, and an instrument's id is stored modulo 256, as the cast writes it. A byte id is stored unchanged, and an instrument is stored as 0 exactly when its id is a multiple of 256 |
| PhrasesTab.PhrasesTab.constructor | tracker_gui/src/tabs/phrases.rs:7-11 | the default tab selects phrase 0 and no step |
| PhrasesTab.PhrasesTab.Reset | tracker_gui/src/tabs/phrases.rs:14-17 | back to phrase 0 and no step |
| PhrasesTab.PhrasesTab.AddPhrase | tracker_gui/src/tabs/phrases.rs:22-24 | one default phrase is appended and the selection stays valid |
| PhrasesTab.PhrasesTab.RemovePhrase | tracker_gui/src/tabs/phrases.rs:25-34 | the bank and selection after Remove are the shared removal rule, a valid selection stays valid, and the step selection is untouched |
| PhrasesTab.PhrasesTab.SelectPhrase | tracker_gui/src/tabs/phrases.rs:47-56 | a click on phrase i selects it and clears the step selection |
| PhrasesTab.PhrasesTab.ClickStep | tracker_gui/src/tabs/phrases.rs:93-104 | a click on a step toggles its selection: off when it was selected, onto it otherwise |
| ArrangementTab.EditCell | tracker_gui/src/tabs/arrangement.rs:94-103 | a grid cell's editor changes only that track's chain index. Without a change nothing moves. With one, the buffer becomes the filtered text, and the cell holds the empty-slot sentinel for an empty text, otherwise the byte the filtered hex digits denote |
| ArrangementTab.ArrangementTab.constructor | tracker_gui/src/tabs/arrangement.rs:12-20 | the default tab is at row 0, track 0, with no scroll request |
| ArrangementTab.ArrangementTab.Reset | tracker_gui/src/tabs/arrangement.rs:23-26 | back to row 0, track 0 |
| ArrangementTab.ArrangementTab.AddRow | tracker_gui/src/tabs/arrangement.rs:34-38 | an empty row is appended, becomes the current row and is scrolled into view |
| ArrangementTab.ArrangementTab.RemoveRow | tracker_gui/src/tabs/arrangement.rs:39-46 | the arrangement and current row after Remove are the shared removal rule, and a valid current row stays valid |
| ArrangementTab.ArrangementTab.ClickRow | tracker_gui/src/tabs/arrangement.rs:88-90 | a click on a row number selects that row |
| ArrangementTab.ArrangementTab.ClickCell | tracker_gui/src/tabs/arrangement.rs:104-107 | a click on a cell selects its track and its row |
| ArrangementTab.ArrangementTab.FinishShow | tracker_gui/src/tabs/arrangement.rs:123 | a pending scroll request is cleared at the end of the frame |
| App.WithEvent | tracker_gui/src/app.rs:121 | writing one event changes that event and nothing else in the song |
| App.WithEventSame | tracker_gui/src/app.rs:172-177 | writing back an event's own value leaves the song unchanged |
| App.WithReverb | tracker_gui/src/app.rs:121-125 | the reverb edit sets the effect column to SetReverb with a parameter of at least 1, keeping a nonzero parameter, and touches nothing else in the event |
| App.WithReverbIdempotent | tracker_gui/src/app.rs:121-125 | applying the reverb edit twice is applying it once |
| App.TrackerApp.constructor | tracker_gui/src/app.rs:241-258 | a new window holds the given song, named "New Song", tempo "120", speed "6", fresh tabs, audio not started |
| App.TrackerApp.ResetTabStates | tracker_gui/src/app.rs:42-46 | every tab goes back to its first row, chain or phrase, with no step selected |
| App.TrackerApp.LoadSongData | tracker_gui/src/app.rs:48-54 | the loaded song replaces the current one, the header fields spell its name, tempo and speed, and the tabs are reset |
| App.TrackerApp.HandleEffectSelection | tracker_gui/src/app.rs:110-160 | Reverb on a selected event marks its effect column and, with audio running and an instrument on the event, sends one add-reverb command for that instrument; anything else changes nothing |
| App.TrackerApp.ApplyInstrumentToSelectedEvent | tracker_gui/src/app.rs:162-224 | the selected event ends up naming an instrument of the bank: its own id, or the lowest free one when it had none; the bank gains that instrument only if missing; with audio running an oscillator is sent; no selection changes nothing |
| InstrumentManager.WaveformDisplayName | tracker_gui/src/instrument_manager.rs:86-94 | every waveform has a non-empty label |
| InstrumentManager.WaveformDisplayNameInjective | tracker_gui/src/instrument_manager.rs:86-94 | two waveforms share a label exactly when they are the same waveform, so the selector can be read back |
| InstrumentManager.NextFreeIdUnique | tracker_gui/src/instrument_manager.rs:97-104 | the id the free-id scan answers is determined by the bank |
| InstrumentManager.HasId | tracker_gui/src/instrument_manager.rs:99 | the `any` scan answers true exactly when some instrument has the id |
| InstrumentManager.NextFreeInstrumentId | tracker_gui/src/instrument_manager.rs:97-104 | the answer is the lowest id in 1..=255 no instrument has, or 1 when all are taken |
| InstrumentManager.IdSet | tracker_gui/src/instrument_manager.rs:99 | the set of ids the bank holds has no more members than the bank has instruments |
| InstrumentManager.IdRange | tracker_gui/src/instrument_manager.rs:98 | the ids scanned are exactly 1..=255 |
| InstrumentManager.FreeIdExists | tracker_gui/src/instrument_manager.rs:97-104 | with fewer than 255 instruments some id in 1..=255 is free, so the fallback 1 is not reached |
| InstrumentManager.HasKindCount | tracker_gui/src/instrument_manager.rs:170-182 | the `has_reverb` / `has_delay` flag is set exactly when an effect of that kind is present |
| InstrumentManager.RemoveKind | tracker_gui/src/instrument_manager.rs:322-327 | after `retain` no effect of the removed kind is left |
| InstrumentManager.RemoveKindKeepsOthers | tracker_gui/src/instrument_manager.rs:322-327 | `retain` keeps every effect of another kind with its multiplicity |
| InstrumentManager.RemoveKindKeepsOther | tracker_gui/src/instrument_manager.rs:458-463 | removing one kind leaves the count of the other kind as it was |
| InstrumentManager.RemoveKindAbsent | tracker_gui/src/instrument_manager.rs:322-327 | without an effect of the kind `retain` changes nothing |
| InstrumentManager.RemoveKindIdempotent | tracker_gui/src/instrument_manager.rs:322-327 | removing a kind twice is removing it once |
| InstrumentManager.RemoveKindCommutes | tracker_gui/src/instrument_manager.rs:458-463 | removing reverbs and removing delays commute |
| InstrumentManager.EditInstrument | tracker_gui/src/instrument_manager.rs:128-485 | editing an instrument's group never changes its id |
| InstrumentManager.EditKindCounts | tracker_gui/src/instrument_manager.rs:315-345 | a Remove or Add click changes only the count of its own kind, keeps at most one effect of the kind, queues the instrument exactly when the effects changed, and queues it under its own tag |
| InstrumentManager.EditKindUntouched | tracker_gui/src/instrument_manager.rs:315-345 | without a visible button clicked the effects and the queue are untouched |
| InstrumentManager.EditKindRemoves | tracker_gui/src/instrument_manager.rs:322-327 | Remove deletes every effect of the kind, queues the instrument once and keeps the other kind |
| InstrumentManager.EditKindAdds | tracker_gui/src/instrument_manager.rs:329-345 | Add appends one default effect of the kind, queues the instrument once and keeps the other kind |
| InstrumentManager.EditInstrumentQueuesChanges | tracker_gui/src/instrument_manager.rs:139-478 | an instrument is queued for re-sending exactly when its sound parameters changed, under its own low byte; an oscillator with at most one reverb and one delay keeps at most one of each |
| InstrumentManager.CombineEdits | tracker_gui/src/instrument_manager.rs:160-475 | the group's queue is empty exactly when the waveform and both effect edits left the parameters as they were |
| InstrumentManager.ReverbEditChangesCount | tracker_gui/src/instrument_manager.rs:322-345 | a reverb edit that changes the effects changes the reverb count |
| InstrumentManager.EditAll | tracker_gui/src/instrument_manager.rs:128-485 | every instrument of the bank is edited by its own group, in bank order |
| InstrumentManager.EditAllQueuesChanged | tracker_gui/src/instrument_manager.rs:112-485 | the frame queues a low byte exactly when some instrument with that low byte had its sound parameters changed |
| InstrumentManager.ApplyAllConcat | tracker_gui/src/instrument_manager.rs:27 | the backend applies a run of commands one after the other |
| InstrumentManager.OscCommandsInstall | tracker_gui/src/instrument_manager.rs:15-84 | re-creating an oscillator and adding its inserts leaves the backend holding exactly that waveform and effect chain under the id, and nothing else changed |
| InstrumentManager.EnsureBackendOsc | tracker_gui/src/instrument_manager.rs:15-84 | the loop sends the oscillator then its inserts in order, and nothing without audio |
| InstrumentManager.SortDedup | tracker_gui/src/instrument_manager.rs:506-507 | the queued ids after sort and dedup: the same ids, strictly ascending, each once |
| InstrumentManager.AscendingFrom | tracker_gui/src/instrument_manager.rs:506-507 | the ids from a bound upward, strictly ascending |
| InstrumentManager.FindIndex | tracker_gui/src/instrument_manager.rs:509 | `find` answers the first instrument whose low byte is the id, or none when no instrument has it |
| InstrumentManager.RehydrateCommandsSnoc | tracker_gui/src/instrument_manager.rs:508-514 | re-sending one more id appends that id's commands |
| InstrumentManager.RehydrateId | tracker_gui/src/instrument_manager.rs:509-513 | one pass re-sends the found oscillator, nothing for another kind or a missing id, nothing without audio |
| InstrumentManager.Rehydrate | tracker_gui/src/instrument_manager.rs:506-514 | the queued ids are re-sent once each, in ascending order |
| InstrumentManager.RehydrateEach | tracker_gui/src/instrument_manager.rs:508-514 | the loop re-sends each sorted id's commands in turn |
| InstrumentManager.RehydrateOneEffect | tracker_gui/src/instrument_manager.rs:509-513 | re-sending an id installs the bank's oscillator for it, or changes nothing when there is none |
| InstrumentManager.RehydrateMirrors | tracker_gui/src/instrument_manager.rs:505-514 | after re-sending, the backend holds every queued oscillator exactly as the bank has it, and every id not queued is unchanged |
| InstrumentManager.AddOscillatorKeepsIdsUnique | tracker_gui/src/instrument_manager.rs:488-497 | below 255 instruments "Add Oscillator" uses a fresh id, so ids stay unique, and its "Osc XX" name reads back as that id |
| InstrumentManager.EditEach | tracker_gui/src/instrument_manager.rs:128-485 | the loop over the groups computes the edited bank and queue the specification gives |
| InstrumentManager.InstrumentManagerWindow.constructor | tracker_gui/src/instrument_manager.rs:9-12 | the window starts closed |
| InstrumentManager.InstrumentManagerWindow.Show | tracker_gui/src/instrument_manager.rs:106-515 | a closed window does nothing; an open one edits every instrument, appends a new sine oscillator at the next free id when asked, sends it, then re-sends the queued instruments in ascending order; its close button shuts it |
| Envelope.CalculateRate | audio_backend/src/envelope/mod.rs:48-55 | the rate is infinite exactly for a non-positive time; otherwise rate times the time in samples is the level change, and a rise gives a positive rate |
| Envelope.NewEnv | audio_backend/src/envelope/mod.rs:35-73 | a new envelope is idle at level 0 with the clamped sustain level, each rate infinite exactly when its time is non-positive, and satisfies the envelope invariant |
| Envelope.Processed | audio_backend/src/envelope/mod.rs:77-144 | one sample returns the level from before the update, keeps the invariant (level in [0, 1], idle means silent), changes only phase and level, only moves the phase forward; attack only rises and the other phases only fall |
| Envelope.Triggered | audio_backend/src/envelope/mod.rs:147-154 | trigger enters Attack from any phase, restarting the level at 0 only from Idle or Release |
| Envelope.Released | audio_backend/src/envelope/mod.rs:157-162 | release enters Release from any phase but Idle, which is left as it is |
| Envelope.ProcessedN | audio_backend/src/envelope/mod.rs:77-144 | any number of samples keeps the envelope invariant |
| Envelope.IdleStaysIdle | audio_backend/src/envelope/mod.rs:81-83 | an idle envelope stays idle and silent |
| Envelope.ReleaseFinishes | audio_backend/src/envelope/mod.rs:123-141 | a release with finite rate r is idle and silent after n samples once n times r covers the level |
| Envelope.ReleaseStep | audio_backend/src/envelope/mod.rs:123-141 | one sample of a release either finishes it, idle at 0, or leaves a release with the same rate whose level the remaining n - 1 samples still cover |
| Envelope.InstantRelease | audio_backend/src/envelope/mod.rs:124-125 | an instant release finishes in one sample |
| Envelope.AttackPeaks | audio_backend/src/envelope/mod.rs:84-95 | an attack with finite rate r has reached the peak within n samples once n times r covers the distance to 1 |
| Envelope.StepsIsProduct | audio_backend/src/envelope/mod.rs:88 | n additions of the rate add n times the rate |
| Envelope.AttackPeaksIn | audio_backend/src/envelope/mod.rs:84-95 | the attack reaches the peak once the summed rate steps cover the distance to 1 |
| Envelope.AttackStep | audio_backend/src/envelope/mod.rs:84-95 | one sample of a finite attack either reaches the peak and decays, or rises by exactly the rate |
| Envelope.DecayStaysOn | audio_backend/src/envelope/mod.rs:96-122 | without a release, a decaying or sustaining envelope never leaves those phases |
| Envelope.SustainHolds | audio_backend/src/envelope/mod.rs:118-122 | a sustaining envelope holds its level for any number of samples |
| Envelope.DecaySettles | audio_backend/src/envelope/mod.rs:96-117 | a decay is in Sustain at exactly the sustain level, zero included, after any n samples with n times the decay rate covering the distance down to that level; an infinite rate settles in one sample |
| Envelope.DecayStep | audio_backend/src/envelope/mod.rs:96-117 | one decay sample either enters Sustain at the sustain level or leaves a decay with the same rate whose remaining distance n - 1 samples still cover |
| Envelope.AdsrEnvelope.constructor | audio_backend/src/envelope/mod.rs:35-73 | the struct holds the value the specification function gives for new |
| Envelope.AdsrEnvelope.Process | audio_backend/src/envelope/mod.rs:77-144 | the in-place update and the returned level are those of the specification function for one sample |
| Envelope.AdsrEnvelope.Trigger | audio_backend/src/envelope/mod.rs:147-154 | the in-place update is the specification of trigger |
| Envelope.AdsrEnvelope.Release | audio_backend/src/envelope/mod.rs:157-162 | the in-place update is the specification of release |
| SynthAdsr.NewAdsr | audio_backend/src/synths/adsr.rs:26-40 | a new generator is idle and silent with a unit peak, in range, at the given sample rate |
| SynthAdsr.WithParams | audio_backend/src/synths/adsr.rs:42-47 | only the four parameters change; stage, amplitude, step and peak are kept, and a fractional sustain keeps the bounds |
| SynthAdsr.Reset | audio_backend/src/synths/adsr.rs:49-54 | idle and silent with zero step and unit peak; the parameters are kept |
| Arith.Clamp01 | audio_backend/src/synths/adsr.rs:63 | `clamp(0.0, 1.0)` lands in [0, 1], keeps a value already inside and sends one outside to the nearer end; the envelope's `max(0.0).min(1.0)` on the sustain level is the same clamp |
| SynthAdsr.StepFor | audio_backend/src/synths/adsr.rs:59 | the step times the number of samples in the time is exactly the distance to cover |
| SynthAdsr.NoteOn | audio_backend/src/synths/adsr.rs:56-60 | Attack towards a unit peak, with a step that covers it in the attack time; the amplitude carries on |
| SynthAdsr.NoteOnWithVelocity | audio_backend/src/synths/adsr.rs:62-69 | Attack from silence towards the velocity clamped to [0, 1], with a step that reaches it in the attack time |
| SynthAdsr.NoteOff | audio_backend/src/synths/adsr.rs:71-83 | an idle generator is left alone; otherwise Release with a step that brings the current amplitude to 0 in the release time |
| SynthAdsr.Next | audio_backend/src/synths/adsr.rs:85-133 | one sample per stage: attack rises by the step and stops at the peak, entering Decay; decay falls by the step and stops at peak times sustain, entering Sustain; sustain holds; release falls and ends silent at or below 0.001; idle forces silence |
| SynthAdsr.DecayStepSpansDecayTime | audio_backend/src/synths/adsr.rs:96-101 | on entering Decay the new step brings the peak down to peak times sustain in exactly the decay time |
| SynthAdsr.NextN | audio_backend/src/synths/adsr.rs:85-133 | positive times are kept over any number of samples |
| SynthAdsr.NextInRange | audio_backend/src/synths/adsr.rs:85-133 | with a fractional sustain every sample stays in [0, 1] and the bounds are kept |
| SynthAdsr.AttackInRange | audio_backend/src/synths/adsr.rs:94-103 | an attack sample keeps the bounds |
| SynthAdsr.DecayInRange | audio_backend/src/synths/adsr.rs:104-112 | a decay sample keeps the bounds |
| SynthAdsr.SustainTarget | audio_backend/src/synths/adsr.rs:106 | the sustain target lies between 0 and the peak |
| SynthAdsr.IdleStaysIdle | audio_backend/src/synths/adsr.rs:91-93 | an idle, silent generator stays so |
| SynthAdsr.ReleaseEnds | audio_backend/src/synths/adsr.rs:116-125 | a release ends idle and silent within n samples once n steps bring it down to 0.001 |
| SynthAdsr.NoteOffFinishes | audio_backend/src/synths/adsr.rs:71-83 | after note off the generator is idle and silent within the release time |
| SynthAdsr.CoversDelta | audio_backend/src/synths/adsr.rs:77 | n steps cover the distance once n reaches the number of samples the step was computed for |
| SynthAdsr.DecayStaysOn | audio_backend/src/synths/adsr.rs:104-115 | once past the attack, without a release the generator only decays or sustains |
| SynthAdsr.AttackPeaks | audio_backend/src/synths/adsr.rs:94-103 | an attack is past its peak within n samples once n steps cover the distance to the peak |
| SynthAdsr.NoteOnPeaks | audio_backend/src/synths/adsr.rs:62-69 | after a velocity note on the peak is reached within the attack time |
| SynthAdsr.DecaySettles | audio_backend/src/synths/adsr.rs:104-112 | a decay sustains at peak times sustain within n samples once n steps reach that level |
| SynthAdsr.DecayStep | audio_backend/src/synths/adsr.rs:104-112 | one decay sample keeps the sustain target and leaves the rest of the decay within reach |
| SynthAdsr.SustainHolds | audio_backend/src/synths/adsr.rs:113-115 | sustain holds its amplitude for any number of samples |
| SynthAdsr.Adsr.constructor | audio_backend/src/synths/adsr.rs:26-40 | the struct holds the value `new` gives |
| SynthAdsr.Adsr.SetParams | audio_backend/src/synths/adsr.rs:42-47 | the in-place update is `set_params`' specification |
| SynthAdsr.Adsr.ResetState | audio_backend/src/synths/adsr.rs:49-54 | the in-place update is `reset`'s specification |
| SynthAdsr.Adsr.NoteOnFull | audio_backend/src/synths/adsr.rs:56-60 | the in-place update is `note_on`'s specification |
| SynthAdsr.Adsr.NoteOnVelocity | audio_backend/src/synths/adsr.rs:62-69 | the in-place update is `note_on_with_velocity`'s specification |
| SynthAdsr.Adsr.Release | audio_backend/src/synths/adsr.rs:71-83 | the in-place update is `note_off`'s specification |
| SynthAdsr.Adsr.NextSample | audio_backend/src/synths/adsr.rs:85-133 | the in-place update is one sample of the specification, and the new amplitude is returned |
| SynthVoice.CurrentTime | audio_backend/src/synths/voice.rs:83-86 | the current-time stub always answers frame 0 |
| SynthVoice.NewVoice | audio_backend/src/synths/voice.rs:13-22 | a new voice has no note, its flag down, an idle in-range envelope, start time 0, and is inactive |
| SynthVoice.VoiceNoteOn | audio_backend/src/synths/voice.rs:24-39 | the voice is active, plays exactly this note with this velocity and waveform, and its envelope attacks from silence towards the velocity |
| SynthVoice.VoiceNoteOff | audio_backend/src/synths/voice.rs:41-43 | a sounding voice's envelope releases while note and flag stay; a silent voice is unchanged |
| SynthVoice.VoiceSetAdsr | audio_backend/src/synths/voice.rs:53-55 | the four envelope parameters are set and the running stage, amplitude, note and flag are kept |
| SynthVoice.VoiceStep | audio_backend/src/synths/voice.rs:61-72 | a voice with its flag down is left alone; otherwise the envelope advances one sample, and when it finishes the flag drops and the note is forgotten |
| SynthVoice.VoiceOutputAsWritten | audio_backend/src/synths/voice.rs:61-75 | as written; a voice with its flag down returns silence |
| SynthVoice.VoiceOutput | audio_backend/src/synths/voice.rs:61-75 | the corrected sample, shaped once by envelope and velocity; silence with the flag down |
| SynthVoice.AsWrittenScalesTwice | audio_backend/src/synths/voice.rs:74 | the sample as written is the corrected sample scaled once more by the envelope level |
| SynthVoice.AsWrittenHalfLevel | audio_backend/src/synths/voice.rs:74 | a sustaining voice at half level, full velocity and oscillator sample 1 returns 0.25 as written, 0.5 corrected |
| SynthVoice.InactiveVoiceSilent | audio_backend/src/synths/voice.rs:62-64 | an inactive voice is silent, unchanged and holds no note |
| SynthVoice.OutputBounded | audio_backend/src/synths/voice.rs:67 | with fractional sustain and velocity the output stays within the oscillator's amplitude |
| SynthVoice.OutputAsWrittenBounded | audio_backend/src/synths/voice.rs:61-75 | the sample `next_sample` returns as written, envelope applied twice, also stays within [-1, 1] for an oscillator sample in [-1, 1] |
| SynthVoice.VoiceStepN | audio_backend/src/synths/voice.rs:61-75 | any number of samples keeps the voice coherent |
| SynthVoice.StepNTracksEnvelope | audio_backend/src/synths/voice.rs:66-72 | over any number of samples a voice's envelope runs exactly as the generator alone, and a finished envelope means an inactive voice without a note |
| SynthVoice.IdleVoiceStays | audio_backend/src/synths/voice.rs:62-64 | a voice with its flag down stays as it is |
| SynthVoice.ReleasedVoiceFrees | audio_backend/src/synths/voice.rs:41-43 | a sounding voice given note off is free again, with no note, within the release time |
| VoiceManager.FirstFree | audio_backend/src/synths/voice_manager.rs:100-102 | the first inactive voice, every voice before it active; none exactly when all voices are active |
| VoiceManager.Oldest | audio_backend/src/synths/voice_manager.rs:104-106 | a voice with the least start time, the first of several equal minima |
| VoiceManager.StealsFirst | audio_backend/src/synths/voice_manager.rs:104-106 | since every voice starts at frame 0, stealing always takes voice 0 |
| VoiceManager.NoteOnTarget | audio_backend/src/synths/voice_manager.rs:45-54 | a note finds a voice exactly when the pool is not empty |
| VoiceManager.Started | audio_backend/src/synths/voice_manager.rs:46-47 | the chosen voice, given the global ADSR and the note, is active and plays the note |
| VoiceManager.NoteOnVoices | audio_backend/src/synths/voice_manager.rs:43-55 | a note on keeps the pool's size and every voice coherent |
| VoiceManager.NoteOffVoices | audio_backend/src/synths/voice_manager.rs:57-63 | a note off keeps the pool's size and every voice coherent |
| VoiceManager.NoteOnAllocation | audio_backend/src/synths/voice_manager.rs:43-55 | the note goes to the first free voice, or to voice 0 when all are busy; exactly that voice changes and it plays the note in attack with the global times, waveform and velocity |
| VoiceManager.NoteOffReleasesAll | audio_backend/src/synths/voice_manager.rs:57-63 | note off releases every sounding voice holding the note; every other voice is unchanged, and an unknown note changes nothing |
| VoiceManager.NoteOnThenOff | audio_backend/src/synths/voice_manager.rs:39-63 | a note played and then stopped leaves its voice releasing |
| VoiceManager.StepAll | audio_backend/src/synths/voice_manager.rs:93-95 | every voice steps once and stays coherent |
| VoiceManager.ClampUnit | audio_backend/src/synths/voice_manager.rs:97 | `clamp(-1.0, 1.0)` lands in [-1, 1] and keeps a value already inside |
| VoiceManager.SilentPool | audio_backend/src/synths/voice_manager.rs:92-97 | a pool of free voices mixes to silence |
| VoiceManager.MixBounded | audio_backend/src/synths/voice_manager.rs:92-97 | the sum of n voices' samples as `next_sample` returns them lies in [-n, n], so dividing by the polyphony keeps a full pool in [-1, 1] before the clamp |
| VoiceManager.VoiceManager.constructor | audio_backend/src/synths/voice_manager.rs:21-37 | `maxPolyphony` fresh inactive voices, ADSR (0.01, 0.1, 0.8, 0.2) and a sine |
| VoiceManager.VoiceManager.NoteOn | audio_backend/src/synths/voice_manager.rs:39-41 | a note on with the stored waveform and ADSR |
| VoiceManager.VoiceManager.NoteOnWithVelocityAndWaveform | audio_backend/src/synths/voice_manager.rs:43-55 | the pool becomes the note-on specification for the given waveform and the stored ADSR |
| VoiceManager.VoiceManager.NoteOff | audio_backend/src/synths/voice_manager.rs:57-63 | the pool becomes the note-off specification |
| VoiceManager.VoiceManager.SetAdsr | audio_backend/src/synths/voice_manager.rs:65-76 | the stored ADSR changes; the voices are untouched |
| VoiceManager.VoiceManager.SetWaveform | audio_backend/src/synths/voice_manager.rs:78-85 | the stored waveform changes; the voices are untouched |
| VoiceManager.VoiceManager.NextSample | audio_backend/src/synths/voice_manager.rs:87-98 | every voice steps. The output is the sum of the voices' samples as `next_sample` returns them (envelope applied twice), divided by the polyphony and clamped to [-1, 1]. A pool without voices is silent |
| VoiceManager.VoiceManager.FindFreeVoice | audio_backend/src/synths/voice_manager.rs:100-102 | the scan answers the first free voice |
| VoiceManager.VoiceManager.FindVoiceToSteal | audio_backend/src/synths/voice_manager.rs:104-106 | the scan answers the first voice with the least start time |
| VoiceManager.VoiceManager.CurrentAdsrParams | audio_backend/src/synths/voice_manager.rs:108-110 | the stored ADSR |
| VoiceManager.VoiceManager.CurrentWaveform | audio_backend/src/synths/voice_manager.rs:112-114 | the stored waveform |
| VoiceManager.FirstFreeIs | audio_backend/src/synths/voice_manager.rs:101 | a free voice with only active voices before it is the one found |
| Synthesizer.NewVoice | audio_backend/src/synths/synthesizer.rs:29-44 | a new voice is idle, holds no note, and its envelope is valid |
| Synthesizer.VoiceWithAdsr | audio_backend/src/synths/synthesizer.rs:114-116 | `set_adsr` replaces the envelope by a new one with the given times, so the voice goes idle; nothing else changes |
| Synthesizer.Started | audio_backend/src/synths/synthesizer.rs:253-257 | the chosen voice holds the note at the given frequency, its envelope attacking, its waveform kept |
| Synthesizer.VoiceNextSample | audio_backend/src/synths/synthesizer.rs:79-106 | an idle voice gives silence and is unchanged; an active one gives the oscillator sample times the envelope level from before the update, and its envelope advances one sample |
| Synthesizer.FirstInactive | audio_backend/src/synths/synthesizer.rs:251-261 | the first idle voice, every voice before it sounding; none exactly when all sound |
| Synthesizer.FirstWithNote | audio_backend/src/synths/synthesizer.rs:275-283 | the first voice holding the note; none exactly when no voice holds it |
| Synthesizer.NoteOnAllocation | audio_backend/src/synths/synthesizer.rs:248-272 | note on takes the first idle voice, or steals voice 0 when all eight sound; exactly that voice changes, and it plays the note in its attack at the given frequency |
| Synthesizer.NoteOffRelease | audio_backend/src/synths/synthesizer.rs:274-284 | note off releases only the first voice holding the note and forgets its note; every other voice, and the pool for an unknown note, is unchanged |
| Synthesizer.NoteOnThenOff | audio_backend/src/synths/synthesizer.rs:248-284 | a fresh note played then stopped leaves its voice releasing |
| Synthesizer.Synthesizer.constructor | audio_backend/src/synths/synthesizer.rs:161-170 | eight new idle voices at the given sample rate |
| Synthesizer.Synthesizer.SetFrequency | audio_backend/src/synths/synthesizer.rs:176-184 | only voice 0's frequency changes |
| Synthesizer.Synthesizer.SetWaveform | audio_backend/src/synths/synthesizer.rs:186-194 | only voice 0's waveform changes |
| Synthesizer.Synthesizer.SetAdsr | audio_backend/src/synths/synthesizer.rs:196-204 | only voice 0's envelope is replaced |
| Synthesizer.Synthesizer.NoteOn | audio_backend/src/synths/synthesizer.rs:248-272 | the voices become the note-on specification |
| Synthesizer.Synthesizer.NoteOff | audio_backend/src/synths/synthesizer.rs:274-284 | the voices become the note-off specification |
| Synthesizer.Synthesizer.NextSample | audio_backend/src/synths/synthesizer.rs:287-309 | the output and new state are voice 0's next sample; the other voices are untouched |
| Synthesizer.FirstInactiveIs | audio_backend/src/synths/synthesizer.rs:251-261 | an idle voice with only sounding voices before it is the one found |
| Synthesizer.FirstWithNoteIs | audio_backend/src/synths/synthesizer.rs:275-283 | a voice with the note and none before it is the one found |
| Effects.NewChain | audio_backend/src/synth_infra/effects.rs:38-42 | a new chain is empty with the given capacity |
| Effects.AddEffect | audio_backend/src/synth_infra/effects.rs:47-54 | an effect is appended while there is room; a full chain is left as it was; the capacity is kept and never exceeded |
| Effects.AddAllKeepsPrefix | audio_backend/src/synth_infra/effects.rs:47-54 | after any run of additions the chain holds its old effects followed by the first new ones that fit, as many as the room allows |
| Effects.EffectChain.constructor | audio_backend/src/synth_infra/effects.rs:38-42 | the struct holds a new chain and nothing has run |
| Effects.EffectChain.Add | audio_backend/src/synth_infra/effects.rs:47-54 | the in-place update is `add_effect`'s specification |
| Effects.EffectChain.Process | audio_backend/src/synth_infra/effects.rs:57-61 | every effect runs once, in insertion order |
| InfraVoice.NoteOn | audio_backend/src/synth_infra/voice.rs:111-116 | the node takes the note and the envelope is gated on. The node's activity becomes what its own `note_on` leaves, a parameter, since a sample player, hi-hat or snare starts itself there. The voice is then active exactly when that node is, and nothing else changes |
| InfraVoice.NoteOnStartsStoppedNode | audio_backend/src/synth_infra/voice.rs:111-125 | a voice around a stopped node that starts on `note_on` becomes active, and a block in which nothing finishes keeps it |
| InfraVoice.NoteOff | audio_backend/src/synth_infra/voice.rs:118-121 | the envelope is gated off; whether the voice is active does not change at once |
| InfraVoice.ClampPan | audio_backend/src/synth_infra/voice.rs:128 | `clamp(-1.0, 1.0)` keeps a pan inside and sends one outside to the nearer end |
| InfraVoice.SetPan | audio_backend/src/synth_infra/voice.rs:127-129 | only the pan changes, clamped to [-1, 1] |
| InfraVoice.AddVoiceEffect | audio_backend/src/synth_infra/voice.rs:135-137 | the effect goes into the voice's own bounded chain, which stays within its capacity |
| InfraVoice.SetEffectParameter | audio_backend/src/synth_infra/voice.rs:139-142 | the parameter change is handed to the voice's chain; nothing else changes |
| InfraVoice.ActiveOnly | audio_backend/src/synth_infra/voice.rs:172 | `retain(is_active)` keeps only active voices and never grows the list |
| InfraVoice.ActiveOnlyAppend | audio_backend/src/synth_infra/voice.rs:172 | retaining distributes over concatenation, so the kept voices stay in order |
| InfraVoice.ActiveOnlyMembers | audio_backend/src/synth_infra/voice.rs:172 | a voice survives exactly when it was there and is active |
| InfraVoice.ActiveOnlyIdempotent | audio_backend/src/synth_infra/voice.rs:172 | retaining twice is retaining once |
| InfraVoice.Rendered | audio_backend/src/synth_infra/voice.rs:85-109 | rendering a block changes only the voice's envelope and node activity; the voice stays active exactly when it was active and neither finished during the block |
| InfraVoice.RenderAll | audio_backend/src/synth_infra/voice.rs:167-169 | every voice is rendered, in place and in order |
| InfraVoice.EndedVoicesRemoved | audio_backend/src/synth_infra/voice.rs:165-173 | a voice whose envelope or node finished during the block is gone afterwards, and every remaining voice is a rendered voice that is still active |
| InfraVoice.RenderNeverRevives | audio_backend/src/synth_infra/voice.rs:165-173 | no more voices remain after a block than were active before it |
| InfraVoice.NothingEndsKeepsVoices | audio_backend/src/synth_infra/voice.rs:165-173 | a block in which no active voice finishes leaves every voice as it was |
| InfraVoice.FirstWithId | audio_backend/src/synth_infra/voice.rs:161-163 | the first voice carrying the id; none exactly when no voice carries it |
| InfraVoice.VoiceManager.constructor | audio_backend/src/synth_infra/voice.rs:155-159 | a new manager holds no voices |
| InfraVoice.VoiceManager.FindVoice | audio_backend/src/synth_infra/voice.rs:161-163 | the lookup answers the first voice with the id |
| InfraVoice.VoiceManager.Process | audio_backend/src/synth_infra/voice.rs:165-173 | every voice renders the block first; only then are the voices still active kept, in their order, so a voice that finishes during the block is dropped at its end |
| InfraVoice.VoiceManager.AddVoice | audio_backend/src/synth_infra/voice.rs:175-178 | the voice is appended |
| InfraVoice.FirstWithIdIs | audio_backend/src/synth_infra/voice.rs:162 | a voice with the id and none before it is the one found |
| PolyphonicOsc.NewOscVoice | audio_backend/src/instruments/polyphonic_osc.rs:16-26 | each slot's voice starts idle, with id 0, an always-active oscillator node, the given pan and an empty chain of capacity 10 |
| PolyphonicOsc.FirstEligible | audio_backend/src/instruments/polyphonic_osc.rs:61-64 | the first slot that is free or already holds the note; none exactly when every slot is busy with another note |
| PolyphonicOsc.NoteOnSlots | audio_backend/src/instruments/polyphonic_osc.rs:51-80 | `note_on` keeps the number of slots and keeps every slot an oscillator voice |
| PolyphonicOsc.NoteOffSlots | audio_backend/src/instruments/polyphonic_osc.rs:83-89 | `note_off` keeps the number of slots and keeps every slot an oscillator voice |
| PolyphonicOsc.ZipEffects | audio_backend/src/instruments/polyphonic_osc.rs:110-114 | zipping effects with slots keeps the number of slots and keeps every slot an oscillator voice |
| PolyphonicOsc.NoteOnAllocation | audio_backend/src/instruments/polyphonic_osc.rs:60-79 | the first free-or-same-note slot takes the note, gated on and active, every other slot unchanged; with no such slot the note is dropped and nothing changes |
| PolyphonicOsc.RetriggerSameSlot | audio_backend/src/instruments/polyphonic_osc.rs:60-64 | a note already in a slot, with every earlier slot busy on other notes, is retriggered in that same slot |
| PolyphonicOsc.NoteOffGatesAll | audio_backend/src/instruments/polyphonic_osc.rs:82-89 | every sounding voice is gated off, note ids are kept and whether each voice is active does not change at once |
| PolyphonicOsc.ZipEffectsPairs | audio_backend/src/instruments/polyphonic_osc.rs:111-113 | slot i receives effect i while both exist and its chain has room; slots past the last effect are unchanged |
| PolyphonicOsc.PolyphonicOscillator.constructor | audio_backend/src/instruments/polyphonic_osc.rs:13-43 | `max_polyphony` empty slots, each an idle oscillator voice with the given pan |
| PolyphonicOsc.PolyphonicOscillator.Id | audio_backend/src/instruments/polyphonic_osc.rs:47-49 | answers the instrument id given at construction |
| PolyphonicOsc.PolyphonicOscillator.NoteOn | audio_backend/src/instruments/polyphonic_osc.rs:51-80 | the slots become the `note_on` allocation of the old slots |
| PolyphonicOsc.PolyphonicOscillator.NoteOff | audio_backend/src/instruments/polyphonic_osc.rs:83-89 | the slots become the `note_off` release of the old slots |
| PolyphonicOsc.PolyphonicOscillator.SetPan | audio_backend/src/instruments/polyphonic_osc.rs:98-102 | every voice takes the clamped pan; nothing else changes |
| PolyphonicOsc.PolyphonicOscillator.AddEffect | audio_backend/src/instruments/polyphonic_osc.rs:104-108 | a single shared effect is ignored: the slots do not change |
| PolyphonicOsc.PolyphonicOscillator.AddVoiceEffects | audio_backend/src/instruments/polyphonic_osc.rs:110-114 | effect i goes to slot i; surplus effects are dropped |
| PolyphonicOsc.PolyphonicOscillator.SetEffectParameter | audio_backend/src/instruments/polyphonic_osc.rs:116-122 | the parameter change reaches every voice's chain; nothing else changes |
| PolyphonicOsc.FirstEligibleIs | audio_backend/src/instruments/polyphonic_osc.rs:64 | an eligible slot with no eligible slot before it is the one found |
| TrackerSynth.Deliver | audio_backend/src/player/tracker_synthesizer.rs:30-32 | the call reaches only the instrument filed under the id; an unknown id leaves the bank unchanged; the bank's ids never change |
| TrackerSynth.NoteOffAll | audio_backend/src/player/tracker_synthesizer.rs:65-69 | every instrument, and only those, receives one `note_off`; the ids are kept |
| TrackerSynth.MixerChain | audio_backend/src/player/tracker_synthesizer.rs:90-97 | only `AddMasterEffect` changes the master chain, by adding its effect; the other mixer commands are ignored; the chain stays within its capacity |
| TrackerSynth.AddThenPlay | audio_backend/src/player/tracker_synthesizer.rs:27-53 | an instrument just added receives the next note sent to its id, whatever was filed there before |
| TrackerSynth.Synthesizer.constructor | audio_backend/src/player/tracker_synthesizer.rs:19-25 | an empty bank and an empty master chain of capacity 8 |
| TrackerSynth.Synthesizer.NoteOn | audio_backend/src/player/tracker_synthesizer.rs:27-33 | the note goes to the instrument with the id, if there is one |
| TrackerSynth.Synthesizer.NoteOff | audio_backend/src/player/tracker_synthesizer.rs:35-39 | `note_off` goes to the instrument with the id, if there is one |
| TrackerSynth.Synthesizer.AddInstrument | audio_backend/src/player/tracker_synthesizer.rs:51-53 | the instrument is filed under its own id, replacing any earlier one |
| TrackerSynth.Synthesizer.AddEffectToInstrument | audio_backend/src/player/tracker_synthesizer.rs:55-63 | the effect goes to the instrument with the id, if there is one |
| TrackerSynth.Synthesizer.StopAllNotes | audio_backend/src/player/tracker_synthesizer.rs:65-69 | every instrument receives `note_off` |
| TrackerSynth.Synthesizer.HandleEngineCommand | audio_backend/src/player/tracker_synthesizer.rs:71-88 | an engine note command is delivered to its instrument as the matching note call |
| TrackerSynth.Synthesizer.HandleMixerCommand | audio_backend/src/player/tracker_synthesizer.rs:90-97 | the master chain changes only by an added master effect |
| Player.EventCommand | audio_backend/src/player/mod.rs:206-229 | a sentinel NoteOff stops the track, NoNote sends nothing, and any other note plays with the event's volume as velocity, always on the event's own track |
| Player.RowCommandsOrdered | audio_backend/src/player/mod.rs:175-235 | the row sends at most one command per track, in increasing track order, each the command of the event that track resolves to |
| Player.RowCommandsComplete | audio_backend/src/player/mod.rs:182-234 | every track that resolves to an event with a note sends that event's command |
| Player.StepTracks | audio_backend/src/player/mod.rs:148-162 | every track is stepped and the number of tracks is kept |
| Player.StepTracksAt | audio_backend/src/player/mod.rs:148-162 | track i after the step is track i stepped once |
| Player.NextPositionValid | audio_backend/src/player/mod.rs:141-171 | a tick keeps phrase and chain steps below their lengths, the tick counter below tpl and the song step inside the arrangement |
| Player.SongStepAdvancesOncePerChain | audio_backend/src/player/mod.rs:143-170 | the song step moves only at the end of a line that ends the chain, by one row, wrapping to 0 after the last row |
| Player.Run | audio_backend/src/player/mod.rs:124-126 | any number of ticks keeps the position within its bounds |
| Player.Calls | audio_backend/src/player/mod.rs:217-228 | one synthesizer call per command |
| Player.CallsAt | audio_backend/src/player/mod.rs:217-228 | call i hands command i to the synthesizer |
| Player.LineLastsTplTicks | audio_backend/src/player/mod.rs:131-172 | from the start of a line, fewer than tpl ticks move only the tick counter, and tpl ticks move every track one phrase step and restart the counter |
| Player.Player.constructor | audio_backend/src/player/mod.rs:66-80 | a stopped player at the start of the song, clocked at the song's tempo and ticks per line, having sent nothing |
| Player.Player.Play | audio_backend/src/player/mod.rs:82-84 | the player is playing; nothing else changes |
| Player.Player.ResetPosition | audio_backend/src/player/mod.rs:36-53 | the position becomes the start: row 0, tick 0, every track at chain step 0 and phrase step 0 |
| Player.Player.Stop | audio_backend/src/player/mod.rs:86-90 | playback stops, the position rewinds to the start and every note is stopped |
| Player.Player.HandleCommand | audio_backend/src/player/mod.rs:92-112 | PlaySong installs the song, rewinds and plays; StopSong stops; the other two commands are passed to the synthesizer and change nothing else |
| Player.Player.TriggerNotesForCurrentRow | audio_backend/src/player/mod.rs:175-235 | the synthesizer receives exactly the current row's commands, in track order; nothing when the row does not exist |
| Player.Player.SendTrackEvent | audio_backend/src/player/mod.rs:183-233 | one track's resolved event, if it has a note, becomes its command |
| Player.Player.StepTrackPositions | audio_backend/src/player/mod.rs:147-162 | every track moves one phrase step, wrapping into the chain, and the flag says whether any track finished its chain |
| Player.Player.AdvanceTick | audio_backend/src/player/mod.rs:131-172 | the row's notes are sent on the line's first tick only, and the position moves by one tick |
| Player.Player.RunTicks | audio_backend/src/player/mod.rs:124-126 | k ticks move the position and send the commands that k single ticks would |
| Player.Player.Process | audio_backend/src/player/mod.rs:117-127 | a stopped player changes nothing, its countdown included; a playing one runs exactly as many ticks as the clock crosses in the buffer and leaves the countdown refilled by one tick length per crossed boundary |
| Player.RunAdditive | audio_backend/src/player/mod.rs:124-126 | running j ticks and then k more reaches the same position and sends the same calls as running j + k ticks |
| Player.BuffersAccumulate | audio_backend/src/player/mod.rs:117-127 | two buffers processed in a row, the countdown carried over, run the same ticks and send the same calls as one buffer of their summed length |
| Player.RowCallsStep | audio_backend/src/player/mod.rs:182-234 | the calls for tracks up to t+1 are those for tracks up to t followed by track t's own |
| Player.CallsConcat | audio_backend/src/player/mod.rs:217-228 | the calls of two command lists in a row are the calls of each, in order |
| Noise.SampleOf | audio_backend/src/instruments/synth_nodes/drums/noise_generator.rs:20 | the low byte over 128, minus 1, lies in [-1, 127/128] |
| Noise.States | audio_backend/src/instruments/synth_nodes/drums/noise_generator.rs:15-19 | the n states after n xorshift updates, the first being one update of the seed |
| Noise.Samples | audio_backend/src/instruments/synth_nodes/drums/noise_generator.rs:33-38 | slot i of the buffer receives the sample of the (i+1)-th state |
| Noise.ZeroIsFixed | audio_backend/src/instruments/synth_nodes/drums/noise_generator.rs:17-20 | a zero state is a fixed point of the update, so a zero seed would give constant -1 |
| Noise.NonzeroStaysNonzero | audio_backend/src/instruments/synth_nodes/drums/noise_generator.rs:17-19 | the xorshift update never takes a non-zero state to zero |
| Noise.NonzeroSeedNeverStalls | audio_backend/src/instruments/synth_nodes/drums/noise_generator.rs:26-29 | from a non-zero seed, such as the default, no later state is zero |
| Noise.SamplesInRange | audio_backend/src/instruments/synth_nodes/drums/noise_generator.rs:33-38 | every sample written lies in [-1, 127/128] |
| Noise.NoiseGenerator.constructor | audio_backend/src/instruments/synth_nodes/drums/noise_generator.rs:10-12 | the state is the seed |
| Noise.NoiseGenerator.Default | audio_backend/src/instruments/synth_nodes/drums/noise_generator.rs:26-29 | the state is 0x12345678, which is non-zero |
| Noise.NoiseGenerator.NextSample | audio_backend/src/instruments/synth_nodes/drums/noise_generator.rs:15-23 | the state takes one xorshift update (32-bit shifts) and the result is the new state's sample |
| Noise.NoiseGenerator.Process | audio_backend/src/instruments/synth_nodes/drums/noise_generator.rs:33-38 | the buffer becomes the next buffer-length samples, in order, and the state the last one reached |
| Noise.NoiseGenerator.NoteOn | audio_backend/src/instruments/synth_nodes/drums/noise_generator.rs:40-42 | the note is ignored: the state does not change |
| Noise.NoiseGenerator.NoteOff | audio_backend/src/instruments/synth_nodes/drums/noise_generator.rs:44-46 | ignored: the state does not change |
| Noise.NoiseGenerator.IsActive | audio_backend/src/instruments/synth_nodes/drums/noise_generator.rs:48-50 | noise is always active |
| Noise.StatesSnoc | audio_backend/src/instruments/synth_nodes/drums/noise_generator.rs:35-37 | one more sample extends the state sequence by one update of the last state |
| DelayEffect.ToUsize | audio_backend/src/effects/delay.rs:22-23 | `as usize` truncates a positive value toward zero and sends every non-positive one to 0 |
| DelayEffect.Clamp | audio_backend/src/effects/delay.rs:29-30 | the result lies within the bounds and a value already inside is kept |
| DelayEffect.DelaySamples | audio_backend/src/effects/delay.rs:23-36 | the delay in samples is the truncated `delay_ms / 1000 * sample_rate` when that fits, and never reaches the buffer length |
| DelayEffect.NewDelay | audio_backend/src/effects/delay.rs:21-32 | a silent buffer of two seconds, writing at 0, the delay capped below the buffer length, feedback clamped to [0, 0.95] and mix to [0, 1] |
| DelayEffect.Wrap | audio_backend/src/effects/delay.rs:52 | one step round the ring stays below the buffer length |
| DelayEffect.ReadIndex | audio_backend/src/effects/delay.rs:46-47 | the slot read lies in the buffer and is exactly the delay behind the write index, round the ring |
| DelayEffect.Step | audio_backend/src/effects/delay.rs:42-56 | one sample writes the input plus the fed-back delayed sample at the write index, moves the write index one slot round the ring and outputs the dry/wet mix; delay, feedback and mix do not change |
| DelayEffect.Run | audio_backend/src/effects/delay.rs:41-57 | one output per input; the buffer length and the settings do not change, and for a block of any length the write index ends at the old index plus the block length, modulo the buffer length |
| DelayEffect.RunSnoc | audio_backend/src/effects/delay.rs:42 | one more input extends the run by one step |
| DelayEffect.EchoAfterDelay | audio_backend/src/effects/delay.rs:41-57 | what is written at the start of a block of d samples is exactly what is read back d samples later |
| DelayEffect.HeldSince | audio_backend/src/effects/delay.rs:46-52 | no write within the next d-1 samples touches the slot written first |
| DelayEffect.Delay.constructor | audio_backend/src/effects/delay.rs:21-32 | the delay's state is the new delay line for its arguments |
| DelayEffect.Delay.SetDelayMs | audio_backend/src/effects/delay.rs:34-37 | only the delay changes, to the truncated `delay_ms` in samples capped below the buffer length |
| DelayEffect.Delay.Process | audio_backend/src/effects/delay.rs:41-57 | the buffer, write index and block become those of running the delay line over the block |
| DelayEffect.Delay.ProcessSample | audio_backend/src/effects/delay.rs:43-55 | one sample in and out, as one step of the delay line |
| DelayEffect.Delay.RingIndex | audio_backend/src/effects/delay.rs:47-52 | `%` on an index below twice the length is one step round the ring |
| DelayEffect.Delay.SetParameter | audio_backend/src/effects/delay.rs:59-61 | not implemented: nothing changes |
| SamplePlayer.At | audio_backend/src/instruments/synth_nodes/sample_player_node.rs:44-54 | an index inside the data reads its sample; one past the end reads 0 |
| SamplePlayer.MonoSampleAt | audio_backend/src/instruments/synth_nodes/sample_player_node.rs:39-56 | a stereo frame is the mean of its left and right samples, a mono frame its one sample, and a frame past the end reads 0 |
| SamplePlayer.FrameCount | audio_backend/src/instruments/synth_nodes/sample_player_node.rs:110-114 | a stereo buffer has half its data length in frames (rounded down), a mono one its data length |
| SamplePlayer.FramesInBounds | audio_backend/src/instruments/synth_nodes/sample_player_node.rs:110-114 | every frame below the frame count reads real data on every channel it mixes |
| SamplePlayer.FloorIndex | audio_backend/src/instruments/synth_nodes/sample_player_node.rs:68-69 | the floor of a non-negative position as an index; a negative one saturates to 0 |
| SamplePlayer.Lerp | audio_backend/src/instruments/synth_nodes/sample_player_node.rs:77 | interpolation by 0 gives the first sample and by 1 the second |
| SamplePlayer.LerpBetween | audio_backend/src/instruments/synth_nodes/sample_player_node.rs:77 | a fraction in [0, 1] keeps the interpolated value between the two samples |
| SamplePlayer.InterpolatedBetween | audio_backend/src/instruments/synth_nodes/sample_player_node.rs:67-78 | the node's output lies between the two frames around its position |
| SamplePlayer.Step | audio_backend/src/instruments/synth_nodes/sample_player_node.rs:61-82 | an inactive node writes 0 and stays put; an active one writes the interpolated sample and advances by its rate |
| SamplePlayer.Run | audio_backend/src/instruments/synth_nodes/sample_player_node.rs:60-83 | one output per slot; processing never changes whether the node plays or its rate |
| SamplePlayer.InactiveIsSilent | audio_backend/src/instruments/synth_nodes/sample_player_node.rs:62-65 | an inactive node writes silence into every slot and does not move |
| SamplePlayer.ForwardPlayEnds | audio_backend/src/instruments/synth_nodes/sample_player_node.rs:81-116 | at a non-negative rate the position never goes back, so a node that has run off the end stays inactive ; at a positive rate the node is inactive after any n samples with n times the rate reaching from its start position to the frame count |
| SamplePlayer.ActivePosition | audio_backend/src/instruments/synth_nodes/sample_player_node.rs:81-116 | while the node is still active, after n samples its position is the start plus n times the rate |
| SamplePlayer.SamplePlayerNode.constructor | audio_backend/src/instruments/synth_nodes/sample_player_node.rs:26-35 | a node at position 0, stopped, at rate 1, tuned to note 60, and so inactive |
| SamplePlayer.SamplePlayerNode.Active | audio_backend/src/instruments/synth_nodes/sample_player_node.rs:108-117 | active exactly when playing and the position is below the frame count |
| SamplePlayer.SamplePlayerNode.NoteOn | audio_backend/src/instruments/synth_nodes/sample_player_node.rs:85-100 | the rate becomes the sample-rate correction times the pitch shift, playback restarts at 0, and a non-empty sample becomes active |
| SamplePlayer.SamplePlayerNode.NoteOff | audio_backend/src/instruments/synth_nodes/sample_player_node.rs:102-106 | a one-shot sample plays out: nothing changes |
| SamplePlayer.SamplePlayerNode.Process | audio_backend/src/instruments/synth_nodes/sample_player_node.rs:60-83 | the buffer and the new state are those of running the node over the buffer's length |
| SamplePlayer.SamplePlayerNode.NextSample | audio_backend/src/instruments/synth_nodes/sample_player_node.rs:61-82 | one output sample and the state after it, as one step of the node |
| InstrumentIds.Discriminant | audio_backend/src/id/mod.rs:7-10 | the oscillator is 1 and the sample player 2 |
| InstrumentIds.FromId | audio_backend/src/id/mod.rs:12-21 | 1 converts to the oscillator and 2 to the sample player; any other id panics, so it is not accepted |
| InstrumentIds.DiscriminantRoundTrip | audio_backend/src/id/mod.rs:7-21 | every kind's discriminant converts back to that kind |
| InstrumentIds.IdRoundTrip | audio_backend/src/id/mod.rs:12-21 | every accepted id is the discriminant of the kind it converts to |
| AudioEngine.SetOne | audio_backend/src/devices/audio_engine.rs:78-120 | a single-field setter sends the new value in its own field and the defaults 0.01, 0.1, 0.8, 0.2 in the other three |
| AudioEngine.SettersDoNotAccumulate | audio_backend/src/devices/audio_engine.rs:78-145 | two setters in a row do not combine: the second resets the first one's field to its default |
| AudioEngine.Engine.constructor | audio_backend/src/devices/audio_engine.rs:38-54 | the engine starts with an empty command queue |
| AudioEngine.Engine.CurrentAdsr | audio_backend/src/devices/audio_engine.rs:141-145 | the envelope reported is always the defaults |
| AudioEngine.Engine.NoteOnCmd | audio_backend/src/devices/audio_engine.rs:61-64 | a note-on command is queued after the earlier ones; nothing else changes |
| AudioEngine.Engine.NoteOnWithWaveformCmd | audio_backend/src/devices/audio_engine.rs:66-72 | a note-on with its waveform is queued last |
| AudioEngine.Engine.NoteOffCmd | audio_backend/src/devices/audio_engine.rs:74-76 | a note-off is queued last |
| AudioEngine.Engine.SetAttack | audio_backend/src/devices/audio_engine.rs:78-87 | an envelope command with the new attack and default decay, sustain and release is queued last |
| AudioEngine.Engine.SetDecay | audio_backend/src/devices/audio_engine.rs:89-98 | an envelope command with the new decay and the other fields at their defaults is queued last |
| AudioEngine.Engine.SetSustain | audio_backend/src/devices/audio_engine.rs:100-109 | an envelope command with the new sustain and the other fields at their defaults is queued last |
| AudioEngine.Engine.SetRelease | audio_backend/src/devices/audio_engine.rs:111-120 | an envelope command with the new release and the other fields at their defaults is queued last |
| AudioEngine.Engine.SetAdsrCmd | audio_backend/src/devices/audio_engine.rs:122-129 | an envelope command with all four values is queued last |
| AudioEngine.Engine.SetWaveformCmd | audio_backend/src/devices/audio_engine.rs:131-133 | a waveform command is queued last |
| Streams.Drained | audio_backend/src/devices/streams.rs:111-152 | one callback takes the oldest commands, all of them when there are at most 32 and exactly 32 otherwise |
| Streams.DrainKeepsOrder | audio_backend/src/devices/streams.rs:116-150 | what is handed on followed by what stays queued is the original queue: nothing is lost or reordered |
| Streams.DrainedAfterCallbacks | audio_backend/src/devices/streams.rs:114-116 | a queue of n commands is empty after any k callbacks with 32k at least n |
| Streams.Callback.constructor | audio_backend/src/devices/streams.rs:95-103 | the callback starts with the shared queue and nothing handed on yet |
| Streams.Callback.ProcessCommands | audio_backend/src/devices/streams.rs:111-152 | the drained commands are handed on in order and removed from the front of the queue |
| Streams.Callback.WriteData | audio_backend/src/devices/streams.rs:155-172 | every slot of a chunk of `channels` slots, the last chunk possibly short, holds that chunk's synthesizer value; one value is taken per chunk |
| Unified.AudioProcessor.constructor | audio_backend/src/audio_processor/unified.rs:34-49 | the processor keeps the queue, the sample rate and the channel count, and starts with two silent buffers of 4096 samples |
| Unified.AudioProcessor.Process | audio_backend/src/audio_processor/unified.rs:63-96 | every queued command reaches the player in order, the player advances by the block's frame count, the channel buffers hold the synthesizer's mix, and slot 0 of each frame receives the left sample and slot 1 the right one, while the other slots keep their values |
| Unified.AudioProcessor.DrainCommands | audio_backend/src/audio_processor/unified.rs:69-71 | the queue is emptied into the player, oldest command first |
| Unified.AudioProcessor.MixBlock | audio_backend/src/audio_processor/unified.rs:75-87 | the block's part of both buffers is cleared and then holds what the synthesizer mixed in |
| Unified.AudioProcessor.Interleave | audio_backend/src/audio_processor/unified.rs:89-95 | slot 0 of frame f gets left sample f, slot 1 (when there are two channels or more) right sample f; the other slots keep their values |
| Unified.FrameBefore | audio_backend/src/audio_processor/unified.rs:90 | a slot of an earlier frame lies below the current frame's first slot |
| HarmonyNote.PitchText | harmony/src/note.rs:68-80 | a pitch prints as one upper-case letter from A to G |
| HarmonyNote.AccidentalText | harmony/src/note.rs:58-66 | an accidental prints as at most one character, and as nothing exactly for a natural |
| HarmonyNote.DecimalText | harmony/src/note.rs:54 | the octave prints as decimal digits with no leading zero |
| HarmonyNote.DecimalRoundTrip | harmony/src/note.rs:54 | the printed octave reads back as the octave |
| HarmonyNote.NoteTextRoundTrip | harmony/src/note.rs:52-80 | a note's printed text reads back as its pitch, accidental and octave |
| HarmonyNote.NoteTextInjective | harmony/src/note.rs:52-80 | two notes print alike only when their pitch, accidental and octave agree |
| HarmonyNote.NewNote | harmony/src/note.rs:40-50 | C natural in octave 4, labelled "C4", which is also what it prints, with frequency text "440" |
| HarmonyNote.FromInner | harmony/src/note.rs:82-92 | every field is carried over and the frequency is printed as text; the note converts back to the record it came from |
| Scales.ScaleEntry | harmony/src/scales.rs:1-9 | semitone i's name is its letter, '#' for a black key, then the octave in decimal |
| Scales.CromaticScale | harmony/src/scales.rs:5-11 | the scale has twelve names |
| Scales.GetNotesForCromaticScaleInOctave | harmony/src/scales.rs:5-11 | name i is the i-th chromatic name followed by the octave, for all twelve semitones in order |
| Scales.ScaleEntryIsNoteText | harmony/src/scales.rs:1-11 | entry i is exactly what a note with semitone i's pitch and accidental in that octave prints |
| Scales.ScaleEntriesDistinct | harmony/src/scales.rs:1-11 | no name repeats, within an octave or across octaves |
| Scales.CromaticNotesDistinct | harmony/src/scales.rs:1-3 | the twelve chromatic names stand for twelve different pitch and accidental pairs |
| NotesScript.ParseNoteLabel | scripts/generate_notes_json.py:37-44 | a label parses exactly when it is non-empty and ends in a digit; the pitch is its first character, the octave its last digit, and the accidental Sharp when it has '#', otherwise Flat when it has 'b', otherwise Natural |
| NotesScript.ParseNoteText | scripts/generate_notes_json.py:37-44 | a label written as a note prints itself parses back to that note's pitch, accidental and octave |
| NotesScript.Split | scripts/generate_notes_json.py:16 | `split("/")` yields at least one piece and no piece contains a slash |
| NotesScript.SplitJoin | scripts/generate_notes_json.py:16 | the pieces join back with slashes to the label field |
| NotesScript.JoinSplit | scripts/generate_notes_json.py:16 | slash-free pieces joined with slashes split back into the same pieces |
| NotesScript.LabelEntries | scripts/generate_notes_json.py:19-32 | one record per label, in order, carrying the label, its parsed fields and the row's frequency and wavelength; the script raises exactly when some label does not parse |
| NotesScript.CombineAssoc | scripts/generate_notes_json.py:9-33 | appending runs of records is associative, failures included |
| NotesScript.ExpandConcat | scripts/generate_notes_json.py:12-32 | the records of two stretches of the table come out one after the other |
| NotesScript.ExpandCount | scripts/generate_notes_json.py:12-32 | a table that reads without error gives one record per label of every row that is not a "//" comment |
| NotesScript.ReadNotes | scripts/generate_notes_json.py:8-33 | the records are the table's rows expanded in order, or an error once any label fails to parse |
| NotesScript.ExpandSnoc | scripts/generate_notes_json.py:12-14 | one more row appends that row's records |
| NotesScript.ExpandStops | scripts/generate_notes_json.py:19-21 | once a row raises, the whole table does |
| NotesScript.AppendLabels | scripts/generate_notes_json.py:19-32 | the inner loop appends one record per label to the list so far, or fails when a label fails |
| PadKeys.IndexMapInverse | frontend/src/pad-keys.ts:11-14 | for distinct keys the key-to-pad table is the inverse of the key list, in both directions |
| PadKeys.PadKeysDistinct | frontend/src/pad-keys.ts:4-9 | the sixteen pad keys are all different |
| PadKeys.BuildKeyToPadIndex | frontend/src/pad-keys.ts:11-14 | the `forEach` fills the table with every key mapped to its pad index |
| PadKeys.KeyToPadIndexInverse | frontend/src/pad-keys.ts:4-14 | every pad's key leads back to that pad and every key in the table is one pad's key |
| PadKeys.ToLower | frontend/src/pad-keys.ts:41 | lower-casing keeps the length and lowers each ASCII letter in place |
| PadKeys.KeydownPresses | frontend/src/pad-keys.ts:29-45 | a key press presses pad i exactly when no input has focus, the lower-cased key is pad i's key and the page has a button for pad i |
| PadKeys.UnmappedKeyIgnored | frontend/src/pad-keys.ts:42-44 | a key that is no pad's key presses nothing |
| PadKeys.InputFocusIgnored | frontend/src/pad-keys.ts:39-40 | while an input has focus no key presses a pad |
| PadKeys.UpperCaseKey | frontend/src/pad-keys.ts:41-43 | "E" presses the same pad as "e", index 4 |
| PianoKeyboard.OscillatorViewModel.constructor | gui/src/event_handlers/keyboard.rs:79-85 | the view model holds the waveform it was given |
| PianoKeyboard.KeyboardKeysDistinct | gui/src/event_handlers/keyboard.rs:92-105 | the twelve bound keys are all different |
| PianoKeyboard.InitKeys | gui/src/event_handlers/keyboard.rs:87-118 | the bindings are those of inserting the twelve keys with their scale notes |
| PianoKeyboard.KeysUpToDomain | gui/src/event_handlers/keyboard.rs:107-115 | after n insertions exactly the first n keys are bound |
| PianoKeyboard.KeysUpToValues | gui/src/event_handlers/keyboard.rs:107-115 | key i is bound to the note filed under the i-th name of the octave-4 chromatic scale |
| PianoKeyboard.InitKeysInjective | gui/src/event_handlers/keyboard.rs:87-118 | with a notes table whose entries print as their names, the twelve keys play twelve different notes, key i the one printed as scale name i |
| PianoKeyboard.Classify | gui/src/event_handlers/keyboard.rs:46-55 | pressed wins over down, down over released, and a key in none of them is skipped |
| PianoKeyboard.StepNotesOutcome | gui/src/event_handlers/keyboard.rs:56-62 | a release removes the key's note, a press or hold records it with that state, a skipped key leaves it, and no other note is touched |
| PianoKeyboard.ApplyKeysEffect | gui/src/event_handlers/keyboard.rs:44-63 | with keys bound to distinct notes, after a frame each bound note is as its own key's state says |
| PianoKeyboard.ApplyKeysUntouched | gui/src/event_handlers/keyboard.rs:44-63 | a note bound to no visited key keeps its state |
| PianoKeyboard.QuietFrameKeepsWaveform | gui/src/event_handlers/keyboard.rs:54-62 | a frame in which no bound key did anything leaves the waveform as it was |
| PianoKeyboard.NoteTextHasNoSpace | gui/src/event_handlers/keyboard.rs:71 | a printed note holds no space |
| PianoKeyboard.HeldTextWords | gui/src/event_handlers/keyboard.rs:66-77 | the text holds one space per held note, so pressed-only notes do not appear |
| PianoKeyboard.PianoKeyboard.Initialize | gui/src/event_handlers/keyboard.rs:23-29 | the twelve bindings, no active notes, octave 4 |
| PianoKeyboard.PianoKeyboard.UpdateKeysState | gui/src/event_handlers/keyboard.rs:39-64 | the active notes and the waveform are those of visiting every binding in the given order |
| PianoKeyboard.PianoKeyboard.PressedKeysAsString | gui/src/event_handlers/keyboard.rs:66-77 | every held note printed and followed by a space, in the given order |
| PianoKeyboard.CountCharConcat | gui/src/event_handlers/keyboard.rs:71 | counting spaces distributes over concatenation |
| TauriSynth.WaveformNameRoundTrip | frontend/src-tauri/src/synth.rs:10-16 | each waveform's own name selects it, and any other name selects Sine |
| TauriSynth.SawtoothSelectsSine | frontend/src-tauri/src/synth.rs:10-16 | as written, the drop-down's "Sawtooth" entry (frontend/src/oscillator-control.ts:7) falls through to Sine rather than Saw |
| TauriSynth.ParseWaveform | frontend/src-tauri/src/synth.rs:10-16 | the corrected match agrees with the written one on every name but "Sawtooth" |
| TauriSynth.DropdownSelectsItsWaveform | frontend/src-tauri/src/synth.rs:10-16 | with the correction every drop-down entry selects the waveform it is labelled with |
| TauriSynth.Invoke | frontend/src-tauri/src/synth.rs:7-33 | each command makes one call. set_waveform sets the waveform the source's match selects: each waveform's own name selects it, and the drop-down's "Sawtooth" selects Sine. play_midi_note starts a note at the MIDI note's frequency, and stop_midi_note releases it |
| TauriSynth.InvokeAllInOrder | frontend/src-tauri/src/synth.rs:7-33 | a run of commands makes one call per command, in order |

## Left out

- SongModel: this version of `sequencer/src/models` declares neither `Song`, `Chain`, `SongRow` nor the empty-slot and default-length constants. The model fixes 8 tracks, 16-step phrases and chains, and `usize::MAX` as the empty chain and phrase slot, taken from how the editor and the player use them.
- ArrangementTab.EditCell: the grid's call in `tracker_gui/src/tabs/arrangement.rs:97-102` passes the cell's chain index, `usize::MAX` and a width: four arguments. The declaration in `tracker_gui/src/ui_components/hex.rs:41-47` takes five, starting with a caller-owned text buffer, so as written the call does not compile. The model supplies the buffer the editor needs as the `buf` parameter, which stands for a per-cell text the caller keeps, and passes `usize::MAX` as the sentinel, as the call intends. The width is left out.
- Timing: `TimingState` has no `tpl()` getter, although the player calls one; the model reads the field. f64 arithmetic is exact real arithmetic, and the sample rate and tempo must be positive.
- Synthesizer: the single-stage setters `set_attack`, `set_decay`, `set_sustain` and `set_release` (synths/synthesizer.rs:206-245) are not modelled. They reach the voice's own setters (synths/synthesizer.rs:119-134), which call envelope methods that `envelope/mod.rs` does not define in this version.
- Synthesizer, SynthVoice: the oscillator is reduced to its waveform, and its samples are inputs. Oscillator phase and the note-to-frequency `powf` are not modelled.
- SynthVoice.CurrentTime: `get_current_time` is a stub that always answers 0, so stealing by start time always takes voice 0.
- SynthAdsr: every ADSR time must be positive, so no step divides by zero; the source's behaviour on zero or negative times is not modelled.
- Envelope: a zero or negative time gives an infinite rate in the source, modelled as `None`; f32 widths are not modelled.
- InfraVoice: `adsr_envelope.rs` is not part of this model. A voice's envelope is reduced to its gate, and rendering (node samples, insert effects, constant-power pan) is not modelled. What a block does to each voice's envelope and node activity is a parameter of `Process` (`BlockEnd`).
- Effects: `MonoEffectChain` and `StereoEffectChain` are both modelled by one chain of effect identifiers. What an effect does to the samples is not modelled, and `Vec::with_capacity` is taken as the chain's exact capacity.
- App: `Song::new` is not in the source, so the window is built around a given song. `SimpleOscillatorParams` in this version has no `audio_effects` field, so instruments created by the window start with no effects. egui layout and drawing are not modelled.
- Instrument manager parameter sliders: the reverb and delay parameter sliders and the live `set_parameter` commands they send (tracker_gui/src/instrument_manager.rs:184-315 and 359-451) are not modelled; only the Add/Remove buttons, the waveform selector and the name field are.
- PolyphonicOsc: `process` (polyphonic_osc.rs:91-96) is not modelled, because rendering samples through the oscillator node and effects is left out with the voice rendering.
- TrackerSynth: an instrument is reduced to the list of calls it has received; `process` (tracker_synthesizer.rs:41-49), which renders through the instruments and the master chain, and the unused `_track_instrument` cache are not modelled.
- InstrumentIds.FromId: the panic on an unknown id is modelled as the precondition `Known(id)`, since a panic ends the program.
- Noise: the f32 rounding of the sample is not modelled; samples are exact reals.
- Streams: device and stream setup (`create_stream_with_commands`, `setup_command_stream_for`, streams.rs:14-108) and the conversion to the device's sample format are not modelled; the synthesizer is the list of commands it has received, and its output values are a parameter.
- Streams.Callback.WriteData: the synthesizer's values are given up front, so the method requires at least one value per output slot.
- Unified: only the tracker build is modelled (unified.rs:51-61 and 98-125 are compiled out of it); the synthesizer's mix is a parameter.
- Unified.AudioProcessor.Process: requires the device buffer to hold whole frames and at most 4096 of them; otherwise the source indexes past its channel buffers and panics.
- Player: the player's synthesizer is reduced to the calls it receives; `u8` and `u32` wrap-around of the steps and tick counter cannot happen within the proved bounds and is not modelled.
- SamplePlayer.SamplePlayerNode.NoteOn: `2^(semitones/12)` is not computed; the pitch shift is a parameter. The method requires a non-zero output sample rate, where the source would divide by zero and get an infinite rate.
- DelayEffect.NewDelay: requires a buffer of at least one sample (a sample rate of at least 0.5); below that the source's `max_delay_samples - 1` underflows and panics.
- DelayEffect: f32 arithmetic and its rounding are not modelled; samples are exact reals.
- HarmonyNote.FromInner: the f32 `to_string` formatting of the frequency is a parameter.
- NotesScript: CSV reading and JSON writing (generate_notes_json.py:10-11, 47-56), blank rows, Python's float parsing and non-ASCII digits in `int()` are not modelled; the frequency and wavelength are given as reals.
- PadKeys: the DOM is reduced to the focused element's tag and the number of pad buttons; the click listeners, the `active` CSS class and its 120 ms timeout are not modelled.
- PadKeys.ToLower: lowers ASCII letters only, where JavaScript's `toLowerCase` covers all of Unicode.
- PianoKeyboard: the hash maps' iteration orders are parameters; `init_keys`' panic on a missing note is the precondition `HasScaleNotes`; `println!`, egui's `InputState` and the commented-out octave controls are not modelled; the waveform is reduced to Sine and Silence.
- TauriSynth: `midi_to_frequency` is a parameter; the desktop synthesizer is reduced to the calls it receives (its `note_on(freq)` takes a frequency, not the note id of the tracker synthesizer).
- Floating-point DSP (reverb, filters, oscillators, drum nodes), device and stream I/O, threads and locks, file and JSON I/O, and the egui and DOM rendering are not modelled.

## Findings

The operations that run these lines follow the code as written: `PhrasesTab.PickInstrument`, the voice pool's `VoiceManager.Mix` and `TauriSynth.Invoke`. The corrected definitions stand beside them, with the intended property proved.

| source | as written | input that shows it | evidently intended | confidence | as-written member | corrected member |
|---|---|---|---|---|---|---|
| tracker_gui/src/tabs/phrases.rs:160 | `(inst.id as u8).min(u8::MAX)` casts first, so an instrument id above 255 wraps | an instrument with id 256 is written to the event as 0 (and 300 as 44) | saturate at 255 | not executed | PhrasesTab.InstrumentIdAsWrittenWraps | PhrasesTab.SaturatingInstrumentIdSpec |
| audio_backend/src/synths/voice.rs:74 | the returned sample multiplies the envelope level into a sample that already includes it | a sustaining voice at level 0.5, velocity 1 and oscillator sample 1.0 returns 0.25 | apply the envelope once, giving 0.5 | not executed | SynthVoice.AsWrittenHalfLevel | SynthVoice.VoiceOutput |
| frontend/src-tauri/src/synth.rs:10-16 | the match expects "Saw", but the waveform drop-down (frontend/src/oscillator-control.ts:7) sends "Sawtooth" | choosing "Sawtooth" in the drop-down selects Sine | "Sawtooth" selects Saw | not executed | TauriSynth.SawtoothSelectsSine | TauriSynth.DropdownSelectsItsWaveform |
