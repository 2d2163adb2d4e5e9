// Model of audio_backend/src/player/mod.rs: the tracker Player that walks the
// song (tick -> phrase step -> chain step -> arrangement row) and sends note
// commands to its synthesizer.
module Player {
  import opened Wrappers
  import opened SongModel
  import Timing

  /** Playback position of one track inside its chain and phrase. */
  datatype TrackPosition = TrackPosition(chainStep: nat, phraseStep: nat)

  const DefaultTrackPosition: TrackPosition := TrackPosition(0, 0)

  /** Position of the whole song: arrangement row, tick within the line, per-track steps. */
  datatype PlayerPosition = PlayerPosition(songStep: nat, tickCounter: nat, tracks: seq<TrackPosition>)

  const DefaultPosition: PlayerPosition :=
    PlayerPosition(0, 0, seq(MaxTracks, _ => DefaultTrackPosition))

  /** What the player asks its synthesizer to do for a track. */
  datatype PlayerCommand =
    | PlayNote(trackId: nat, note: Byte, velocity: Byte)
    | StopNote(trackId: nat)

  /**
   * The player's synthesizer is observed through the calls it receives; the
   * instrument and effect objects of the commands are named by an identifier.
   */
  datatype SynthCall =
    | Handle(command: PlayerCommand)
    | StopAllNotes
    | AddTrackInstrument(trackId: nat, instrument: nat)
    | AddEffectToTrack(trackId: nat, effect: nat)

  /** Commands the audio thread receives in tracker mode. */
  datatype TrackerCommand =
    | PlaySong(song: Song)
    | StopSong
    | AddTrackInstrumentCmd(trackId: nat, instrument: nat)
    | AddEffectToTrackCmd(trackId: nat, effect: nat)

  function TrackId(c: PlayerCommand): nat
  {
    match c
    case PlayNote(t, _, _) => t
    case StopNote(t) => t
  }

  // ---------------------------------------------------------------------
  // Which event a track plays on the current row.

  /**
   * The event a track reaches through arrangement cell -> chain -> phrase ->
   * step, or None when a sentinel slot or a missing bank entry stops the walk.
   */
  function ResolveEvent(song: Song, row: SongRow, t: nat, tp: TrackPosition): Option<Event>
    requires t < |row.chainIndices|
    requires forall c :: 0 <= c < |song.chainBank| ==> |song.chainBank[c].phraseIndices| == DefaultChainLength
    requires tp.chainStep < DefaultChainLength
  {
    var chainIndex := row.chainIndices[t];
    if chainIndex == EmptyChainSlot || chainIndex >= |song.chainBank| then None
    else
      var phraseIndex := song.chainBank[chainIndex].phraseIndices[tp.chainStep];
      if phraseIndex == EmptyPhraseSlot || phraseIndex >= |song.phraseBank| then None
      else
        var events := song.phraseBank[phraseIndex].events;
        if tp.phraseStep < |events| then Some(events[tp.phraseStep]) else None
  }

  /** The command an event produces: NoteOff stops, NoNote is silent, any other note plays. */
  function EventCommand(t: nat, e: Event): (r: Option<PlayerCommand>)
    ensures r.Some? ==> TrackId(r.value) == t
    ensures r == None <==> e.note == NoNote
    ensures r.Some? && r.value.StopNote? <==> e.note == NoteOff
    ensures r.Some? && r.value.PlayNote? ==> r.value.note == e.note && r.value.velocity == e.volume
  {
    if e.note != NoNote && e.note != NoteOff then Some(PlayNote(t, e.note, e.volume))
    else if e.note == NoteOff then Some(StopNote(t))
    else None
  }

  ghost predicate TracksInRange(tracks: seq<TrackPosition>)
  {
    |tracks| == MaxTracks
    && forall i :: 0 <= i < |tracks| ==>
         tracks[i].chainStep < DefaultChainLength && tracks[i].phraseStep < DefaultPhraseLength
  }

  /** Commands of tracks 0..n-1 of one arrangement row, in track order. */
  function RowCommandsUpTo(song: Song, row: SongRow, tracks: seq<TrackPosition>, n: nat): seq<PlayerCommand>
    requires WellShaped(song) && |row.chainIndices| == MaxTracks && TracksInRange(tracks)
    requires n <= MaxTracks
  {
    if n == 0 then []
    else
      var prefix := RowCommandsUpTo(song, row, tracks, n - 1);
      match ResolveEvent(song, row, n - 1, tracks[n - 1])
      case None => prefix
      case Some(e) =>
        match EventCommand(n - 1, e)
        case None => prefix
        case Some(c) => prefix + [c]
  }

  /** Everything `trigger_notes_for_current_row` sends; nothing when the row does not exist. */
  function RowCommands(song: Song, p: PlayerPosition): seq<PlayerCommand>
    requires WellShaped(song) && TracksInRange(p.tracks)
  {
    if p.songStep < |song.arrangement| then
      RowCommandsUpTo(song, song.arrangement[p.songStep], p.tracks, MaxTracks)
    else []
  }

  /**
   * The row's commands come in strictly increasing track order, at most one
   * per track, and every command's track plays a resolved event that makes it.
   */
  lemma {:induction false} RowCommandsOrdered(song: Song, row: SongRow, tracks: seq<TrackPosition>, n: nat)
    requires WellShaped(song) && |row.chainIndices| == MaxTracks && TracksInRange(tracks)
    requires n <= MaxTracks
    ensures var cs := RowCommandsUpTo(song, row, tracks, n);
            |cs| <= n
            && (forall i :: 0 <= i < |cs| ==> TrackId(cs[i]) < n)
            && (forall i, j :: 0 <= i < j < |cs| ==> TrackId(cs[i]) < TrackId(cs[j]))
            && (forall i :: 0 <= i < |cs| ==>
                  var t := TrackId(cs[i]);
                  var e := ResolveEvent(song, row, t, tracks[t]);
                  e.Some? && EventCommand(t, e.value) == Some(cs[i]))
  {
    if n > 0 {
      RowCommandsOrdered(song, row, tracks, n - 1);
    }
  }

  /** Conversely, every track whose resolved event has a note contributes a command. */
  lemma {:induction false} RowCommandsComplete(song: Song, row: SongRow, tracks: seq<TrackPosition>, n: nat, t: nat)
    requires WellShaped(song) && |row.chainIndices| == MaxTracks && TracksInRange(tracks)
    requires t < n <= MaxTracks
    requires ResolveEvent(song, row, t, tracks[t]).Some?
    requires ResolveEvent(song, row, t, tracks[t]).value.note != NoNote
    ensures EventCommand(t, ResolveEvent(song, row, t, tracks[t]).value).value
            in RowCommandsUpTo(song, row, tracks, n)
  {
    if t < n - 1 {
      RowCommandsComplete(song, row, tracks, n - 1, t);
    }
  }

  // ---------------------------------------------------------------------
  // How one tick moves the position.

  /** One phrase step forward; the phrase wraps into the next chain step, which wraps too. */
  function StepTrack(tp: TrackPosition): TrackPosition
  {
    if tp.phraseStep + 1 >= DefaultPhraseLength then
      TrackPosition(if tp.chainStep + 1 >= DefaultChainLength then 0 else tp.chainStep + 1, 0)
    else TrackPosition(tp.chainStep, tp.phraseStep + 1)
  }

  /** The track finishes its chain on this step. */
  predicate ChainEnds(tp: TrackPosition)
  {
    tp.phraseStep + 1 >= DefaultPhraseLength && tp.chainStep + 1 >= DefaultChainLength
  }

  function StepTracks(tracks: seq<TrackPosition>): (r: seq<TrackPosition>)
    ensures |r| == |tracks|
  {
    if tracks == [] then [] else [StepTrack(tracks[0])] + StepTracks(tracks[1..])
  }

  predicate AnyChainEnds(tracks: seq<TrackPosition>)
  {
    exists i :: 0 <= i < |tracks| && ChainEnds(tracks[i])
  }

  /** The position after `advance_tick`, for `tpl` ticks per line and an arrangement of `rows` rows. */
  function NextPosition(p: PlayerPosition, tpl: nat, rows: nat): PlayerPosition
  {
    if p.tickCounter + 1 < tpl then p.(tickCounter := p.tickCounter + 1)
    else
      var songStep :=
        if AnyChainEnds(p.tracks) then (if p.songStep + 1 >= rows then 0 else p.songStep + 1)
        else p.songStep;
      PlayerPosition(songStep, 0, StepTracks(p.tracks))
  }

  lemma {:induction false} StepTracksAt(tracks: seq<TrackPosition>, i: nat)
    requires i < |tracks|
    ensures StepTracks(tracks)[i] == StepTrack(tracks[i])
  {
    if i > 0 {
      StepTracksAt(tracks[1..], i - 1);
    }
  }

  /** All tracks share one position: they are reset together and stepped together. */
  ghost predicate Lockstep(tracks: seq<TrackPosition>)
  {
    forall i :: 0 <= i < |tracks| ==> tracks[i] == tracks[0]
  }

  /** The bounds the player keeps: steps in range, tick below tpl, row inside the arrangement. */
  ghost predicate PositionValid(p: PlayerPosition, tpl: nat, rows: nat)
  {
    TracksInRange(p.tracks) && Lockstep(p.tracks)
    && (p.tickCounter < tpl || p.tickCounter == 0)
    && (p.songStep < rows || p.songStep == 0)
  }

  /** advance_tick keeps every bound of PositionValid. */
  lemma NextPositionValid(p: PlayerPosition, tpl: nat, rows: nat)
    requires PositionValid(p, tpl, rows)
    ensures PositionValid(NextPosition(p, tpl, rows), tpl, rows)
  {
    if p.tickCounter + 1 >= tpl {
      var q := NextPosition(p, tpl, rows);
      forall i | 0 <= i < |p.tracks|
        ensures q.tracks[i] == StepTrack(p.tracks[0])
      {
        StepTracksAt(p.tracks, i);
      }
    }
  }

  /**
   * Because the tracks move in lockstep, the arrangement row changes only
   * when the line that ends the chain ends, and then by exactly one row,
   * wrapping to 0 at the end of the arrangement.
   */
  lemma SongStepAdvancesOncePerChain(p: PlayerPosition, tpl: nat, rows: nat)
    requires PositionValid(p, tpl, rows) && tpl >= 1
    ensures var q := NextPosition(p, tpl, rows);
            q.songStep == if p.tickCounter + 1 == tpl && ChainEnds(p.tracks[0])
                          then (if p.songStep + 1 >= rows then 0 else p.songStep + 1)
                          else p.songStep
  {
    if AnyChainEnds(p.tracks) {
      var i :| 0 <= i < |p.tracks| && ChainEnds(p.tracks[i]);
      assert p.tracks[i] == p.tracks[0];
    }
  }

  /** The commands a tick sends: the current row's, on the first tick of a line only. */
  function Emitted(song: Song, p: PlayerPosition): seq<SynthCall>
    requires WellShaped(song) && TracksInRange(p.tracks)
  {
    if p.tickCounter == 0 then Calls(RowCommands(song, p)) else []
  }

  /** The position after k ticks, and the commands sent on the way. */
  function Run(song: Song, tpl: nat, p: PlayerPosition, k: nat): (r: (PlayerPosition, seq<SynthCall>))
    requires WellShaped(song) && PositionValid(p, tpl, |song.arrangement|)
    ensures PositionValid(r.0, tpl, |song.arrangement|)
    decreases k
  {
    if k == 0 then (p, [])
    else
      var a := Run(song, tpl, p, k - 1);
      NextPositionValid(a.0, tpl, |song.arrangement|);
      (NextPosition(a.0, tpl, |song.arrangement|), a.1 + Emitted(song, a.0))
  }

  /** The k-th tick moves on from where the first k - 1 left off and adds its commands. */
  lemma RunSucc(song: Song, tpl: nat, p: PlayerPosition, k: nat)
    requires WellShaped(song) && PositionValid(p, tpl, |song.arrangement|) && k > 0
    ensures var a := Run(song, tpl, p, k - 1);
            Run(song, tpl, p, k) == (NextPosition(a.0, tpl, |song.arrangement|), a.1 + Emitted(song, a.0))
  {
  }

  /** Running j ticks and then k more is running j + k ticks. */
  lemma {:induction false} RunAdditive(song: Song, tpl: nat, p: PlayerPosition, j: nat, k: nat)
    requires WellShaped(song) && PositionValid(p, tpl, |song.arrangement|)
    ensures var r1 := Run(song, tpl, p, j);
            var r2 := Run(song, tpl, r1.0, k);
            Run(song, tpl, p, j + k) == (r2.0, r1.1 + r2.1)
    decreases k
  {
    var r1 := Run(song, tpl, p, j);
    if k == 0 {
      assert r1.1 + [] == r1.1;
    } else {
      RunAdditive(song, tpl, p, j, k - 1);
      var n := Run(song, tpl, p, j + (k - 1));
      var m := Run(song, tpl, r1.0, k - 1);
      assert n == (m.0, r1.1 + m.1);
      RunSucc(song, tpl, p, j + k);
      RunSucc(song, tpl, r1.0, k);
      TickAfterSameRun(song, tpl, n, r1.1, m);
    }
  }

  /** The tick after two runs that reached the same position adds the same commands to both logs. */
  lemma TickAfterSameRun(song: Song, tpl: nat, n: (PlayerPosition, seq<SynthCall>), log: seq<SynthCall>,
                         m: (PlayerPosition, seq<SynthCall>))
    requires WellShaped(song) && TracksInRange(m.0.tracks)
    requires n == (m.0, log + m.1)
    ensures (NextPosition(n.0, tpl, |song.arrangement|), n.1 + Emitted(song, n.0))
            == (NextPosition(m.0, tpl, |song.arrangement|), log + (m.1 + Emitted(song, m.0)))
  {
    assert log + m.1 + Emitted(song, m.0) == log + (m.1 + Emitted(song, m.0));
  }

  /**
   * Two buffers processed one after the other, the countdown s1 that the
   * first leaves carried into the second, run the same ticks and send the
   * same calls as one buffer of their summed length.
   */
  lemma BuffersAccumulate(song: Song, tpl: nat, p: PlayerPosition, s: real, d: real, a: nat, b: nat,
                          k1: nat, s1: real, k2: nat)
    requires WellShaped(song) && PositionValid(p, tpl, |song.arrangement|) && d > 0.0
    requires k1 == Timing.Ticks(s - a as real, d) && s1 == s - a as real + k1 as real * d
    requires k2 == Timing.Ticks(s1 - b as real, d)
    ensures var r1 := Run(song, tpl, p, k1);
            var r2 := Run(song, tpl, r1.0, k2);
            Run(song, tpl, p, Timing.Ticks(s - (a + b) as real, d)) == (r2.0, r1.1 + r2.1)
  {
    Timing.CarriedAccumulates(s, d, a, b, k1, s1);
    RunAdditive(song, tpl, p, k1, k2);
  }

  /** A log that holds i ticks of Run after log0 holds i + 1 once the next tick's commands are added. */
  lemma RunStep(song: Song, tpl: nat, p0: PlayerPosition, i: nat, q: PlayerPosition, log: seq<SynthCall>,
                log0: seq<SynthCall>)
    requires WellShaped(song) && PositionValid(p0, tpl, |song.arrangement|)
    requires q == Run(song, tpl, p0, i).0 && log == log0 + Run(song, tpl, p0, i).1
    ensures TracksInRange(q.tracks)
    ensures Run(song, tpl, p0, i + 1).0 == NextPosition(q, tpl, |song.arrangement|)
    ensures log0 + Run(song, tpl, p0, i + 1).1 == log + Emitted(song, q)
  {
    var a := Run(song, tpl, p0, i);
    RunSucc(song, tpl, p0, i + 1);
    TickAfterSameRun(song, tpl, (q, log), log0, a);
  }

  /** The calls a list of commands makes: one `handle_command` each, in order. */
  function Calls(cs: seq<PlayerCommand>): (r: seq<SynthCall>)
    ensures |r| == |cs|
  {
    if cs == [] then [] else [Handle(cs[0])] + Calls(cs[1..])
  }

  lemma {:induction false} CallsAt(cs: seq<PlayerCommand>, i: nat)
    requires i < |cs|
    ensures Calls(cs)[i] == Handle(cs[i])
  {
    if i > 0 {
      CallsAt(cs[1..], i - 1);
    }
  }

  /**
   * A line lasts tpl ticks: from the first tick of a line, after i < tpl ticks
   * only the tick counter has moved, and after tpl ticks every track has moved
   * exactly one phrase step.
   */
  lemma {:induction false} LineLastsTplTicks(song: Song, tpl: nat, p: PlayerPosition, i: nat)
    requires WellShaped(song) && PositionValid(p, tpl, |song.arrangement|)
    requires p.tickCounter == 0 && 1 <= i <= tpl
    ensures var q := Run(song, tpl, p, i).0;
            q.tracks == (if i < tpl then p.tracks else StepTracks(p.tracks))
            && q.tickCounter == (if i < tpl then i else 0)
  {
    if i > 1 {
      LineLastsTplTicks(song, tpl, p, i - 1);
    }
  }

  /** The Player: the song, its clock, the playback position and the synthesizer it drives. */
  class Player {
    var song: Song
    const timing: Timing.TimingState
    var songStep: nat
    var tickCounter: nat
    const trackPositions: array<TrackPosition>
    var isPlaying: bool
    /** Everything sent to the synthesizer so far. */
    var synthLog: seq<SynthCall>

    ghost function Position(): PlayerPosition
      reads this, trackPositions
    {
      PlayerPosition(songStep, tickCounter, trackPositions[..])
    }

    ghost predicate Valid()
      reads this, timing, trackPositions
    {
      timing.Valid() && trackPositions.Length == MaxTracks && WellShaped(song)
      && PositionValid(Position(), timing.tpl, |song.arrangement|)
    }

    /** A stopped player at the song's start, clocked at the song's tempo and speed. */
    constructor (song: Song, sampleRate: real)
      requires WellShaped(song) && sampleRate > 0.0 && song.initialBpm > 0
      ensures Valid() && fresh(timing) && fresh(trackPositions)
      ensures this.song == song && !isPlaying && synthLog == []
      ensures Position() == DefaultPosition
      ensures timing.bpm == song.initialBpm as real && timing.tpl == song.initialSpeed
    {
      this.song := song;
      timing := new Timing.TimingState.NewWithBpmTpl(sampleRate, song.initialBpm as real, song.initialSpeed);
      songStep := 0;
      tickCounter := 0;
      trackPositions := new TrackPosition[MaxTracks](_ => DefaultTrackPosition);
      isPlaying := false;
      synthLog := [];
      new;
      assert trackPositions[..] == DefaultPosition.tracks;
    }

    method Play()
      requires Valid()
      modifies this`isPlaying
      ensures Valid() && isPlaying
    {
      isPlaying := true;
    }

    method ResetPosition()
      requires Valid()
      modifies this`songStep, this`tickCounter, trackPositions
      ensures Valid() && Position() == DefaultPosition
    {
      songStep := 0;
      tickCounter := 0;
      forall i | 0 <= i < trackPositions.Length {
        trackPositions[i] := DefaultTrackPosition;
      }
      assert trackPositions[..] == DefaultPosition.tracks;
    }

    /** Stops playback, rewinds to the start and silences the synthesizer. */
    method Stop()
      requires Valid()
      modifies this`isPlaying, this`songStep, this`tickCounter, this`synthLog, trackPositions
      ensures Valid() && !isPlaying && Position() == DefaultPosition
      ensures synthLog == old(synthLog) + [StopAllNotes]
    {
      isPlaying := false;
      ResetPosition();
      synthLog := synthLog + [StopAllNotes];
    }

    method HandleCommand(command: TrackerCommand)
      requires Valid()
      requires command.PlaySong? ==> WellShaped(command.song)
      modifies this`song, this`isPlaying, this`songStep, this`tickCounter, this`synthLog, trackPositions
      ensures Valid()
      ensures match command
              case PlaySong(s) =>
                song == s && isPlaying && Position() == DefaultPosition && synthLog == old(synthLog)
              case StopSong =>
                song == old(song) && !isPlaying && Position() == DefaultPosition
                && synthLog == old(synthLog) + [StopAllNotes]
              case AddTrackInstrumentCmd(t, i) =>
                song == old(song) && isPlaying == old(isPlaying) && Position() == old(Position())
                && synthLog == old(synthLog) + [AddTrackInstrument(t, i)]
              case AddEffectToTrackCmd(t, e) =>
                song == old(song) && isPlaying == old(isPlaying) && Position() == old(Position())
                && synthLog == old(synthLog) + [AddEffectToTrack(t, e)]
    {
      match command
      case PlaySong(s) =>
        ResetPosition();
        song := s;
        Play();
      case StopSong =>
        Stop();
      case AddTrackInstrumentCmd(t, i) =>
        synthLog := synthLog + [AddTrackInstrument(t, i)];
      case AddEffectToTrackCmd(t, e) =>
        synthLog := synthLog + [AddEffectToTrack(t, e)];
    }

    /** Sends the current row's notes, track by track. */
    method TriggerNotesForCurrentRow()
      requires Valid()
      modifies this`synthLog
      ensures Valid()
      ensures synthLog == old(synthLog) + Calls(RowCommands(song, Position()))
    {
      if songStep >= |song.arrangement| {
        return;
      }
      var row := song.arrangement[songStep];
      var t := 0;
      while t < MaxTracks
        invariant 0 <= t <= MaxTracks
        invariant synthLog == old(synthLog) + Calls(RowCommandsUpTo(song, row, trackPositions[..], t))
        modifies this`synthLog
      {
        SendTrackEvent(row, t, trackPositions[t]);
        RowCallsStep(song, row, trackPositions[..], t);
        t := t + 1;
      }
    }

    /** The body of the row loop: track t's event, if it resolves and has a note, becomes a command. */
    method SendTrackEvent(row: SongRow, t: nat, tp: TrackPosition)
      requires WellShaped(song) && t < |row.chainIndices| && tp.chainStep < DefaultChainLength
      modifies this`synthLog
      ensures synthLog == old(synthLog) + TrackCall(song, row, t, tp)
    {
      var chainIndex := row.chainIndices[t];
      if chainIndex != EmptyChainSlot && chainIndex < |song.chainBank| {
        var phraseIndex := song.chainBank[chainIndex].phraseIndices[tp.chainStep];
        if phraseIndex != EmptyPhraseSlot && phraseIndex < |song.phraseBank| {
          var events := song.phraseBank[phraseIndex].events;
          if tp.phraseStep < |events| {
            var event := events[tp.phraseStep];
            if event.note != NoNote && event.note != NoteOff {
              synthLog := synthLog + [Handle(PlayNote(t, event.note, event.volume))];
            } else if event.note == NoteOff {
              synthLog := synthLog + [Handle(StopNote(t))];
            }
          }
        }
      }
    }

    /** Moves every track one phrase step on; reports whether any track finished its chain. */
    method StepTrackPositions() returns (songStepNeedsAdvancing: bool)
      requires trackPositions.Length == MaxTracks && TracksInRange(trackPositions[..])
      modifies trackPositions
      ensures trackPositions[..] == StepTracks(old(trackPositions[..]))
      ensures songStepNeedsAdvancing == AnyChainEnds(old(trackPositions[..]))
    {
      ghost var tracks := trackPositions[..];
      songStepNeedsAdvancing := false;
      var i := 0;
      while i < MaxTracks
        invariant 0 <= i <= MaxTracks
        invariant forall j :: 0 <= j < i ==> trackPositions[j] == StepTrack(tracks[j])
        invariant forall j :: i <= j < MaxTracks ==> trackPositions[j] == tracks[j]
        invariant songStepNeedsAdvancing <==> exists j :: 0 <= j < i && ChainEnds(tracks[j])
      {
        var tp := trackPositions[i];
        var phraseStep := tp.phraseStep + 1;
        var chainStep := tp.chainStep;
        if phraseStep >= DefaultPhraseLength {
          phraseStep := 0;
          chainStep := chainStep + 1;
          if chainStep >= DefaultChainLength {
            chainStep := 0;
            songStepNeedsAdvancing := true;
          }
        }
        trackPositions[i] := TrackPosition(chainStep, phraseStep);
        i := i + 1;
      }
      forall j | 0 <= j < MaxTracks
        ensures trackPositions[..][j] == StepTracks(tracks)[j]
      {
        StepTracksAt(tracks, j);
      }
      assert trackPositions[..] == StepTracks(tracks);
    }

    /** One tick: notes on the line's first tick, then the position moves on. */
    method AdvanceTick()
      requires Valid()
      modifies this`synthLog, this`tickCounter, this`songStep, trackPositions
      ensures Valid()
      ensures Position() == NextPosition(old(Position()), timing.tpl, |song.arrangement|)
      ensures synthLog == old(synthLog) + Emitted(song, old(Position()))
    {
      ghost var p := Position();
      if tickCounter == 0 {
        TriggerNotesForCurrentRow();
      }
      tickCounter := tickCounter + 1;
      if tickCounter >= timing.tpl {
        tickCounter := 0;
        var songStepNeedsAdvancing := StepTrackPositions();
        if songStepNeedsAdvancing {
          songStep := songStep + 1;
          if songStep >= |song.arrangement| {
            songStep := 0;
          }
        }
      }
      NextPositionValid(p, timing.tpl, |song.arrangement|);
    }

    /** One more `advance_tick` takes the player from i ticks of Run to i + 1. */
    method TickOnceMore(ghost p0: PlayerPosition, ghost log0: seq<SynthCall>, ghost i: nat)
      requires Valid() && PositionValid(p0, timing.tpl, |song.arrangement|)
      requires Position() == Run(song, timing.tpl, p0, i).0
      requires synthLog == log0 + Run(song, timing.tpl, p0, i).1
      modifies this`synthLog, this`tickCounter, this`songStep, trackPositions
      ensures Valid()
      ensures Position() == Run(song, timing.tpl, p0, i + 1).0
      ensures synthLog == log0 + Run(song, timing.tpl, p0, i + 1).1
    {
      RunStep(song, timing.tpl, p0, i, Position(), synthLog, log0);
      AdvanceTick();
    }

    /** Runs `advance_tick` k times. */
    method RunTicks(k: nat)
      requires Valid()
      modifies this`synthLog, this`tickCounter, this`songStep, trackPositions
      ensures Valid()
      ensures var r := Run(song, timing.tpl, old(Position()), k);
              Position() == r.0 && synthLog == old(synthLog) + r.1
    {
      ghost var p0 := Position();
      ghost var log0 := synthLog;
      assert WellShaped(song) && PositionValid(p0, timing.tpl, |song.arrangement|);
      var i := 0;
      while i < k
        invariant 0 <= i <= k
        invariant Valid()
        invariant Position() == Run(song, timing.tpl, p0, i).0
        invariant synthLog == log0 + Run(song, timing.tpl, p0, i).1
      {
        TickOnceMore(p0, log0, i);
        i := i + 1;
      }
    }

    /** Advances the clock by a buffer of samples and runs one tick per crossed boundary. */
    method Process(bufferLenSamples: nat)
      requires Valid()
      modifies this`synthLog, this`tickCounter, this`songStep, trackPositions, timing`samplesUntilNextTick
      ensures Valid()
      ensures !old(isPlaying) ==> Position() == old(Position()) && synthLog == old(synthLog)
                                   && timing.samplesUntilNextTick == old(timing.samplesUntilNextTick)
      ensures old(isPlaying) ==>
                var k := Timing.Ticks(old(timing.samplesUntilNextTick) - bufferLenSamples as real,
                                      timing.tickDurationSamples);
                var r := Run(song, timing.tpl, old(Position()), k);
                Position() == r.0 && synthLog == old(synthLog) + r.1
      ensures old(isPlaying) ==>
                timing.samplesUntilNextTick
                == old(timing.samplesUntilNextTick) - bufferLenSamples as real
                   + Timing.Ticks(old(timing.samplesUntilNextTick) - bufferLenSamples as real,
                                  timing.tickDurationSamples) as real * timing.tickDurationSamples
    {
      if isPlaying {
        ProcessPlaying(bufferLenSamples);
      }
    }

    /** The playing branch of Process. */
    method ProcessPlaying(bufferLenSamples: nat)
      requires Valid()
      modifies this`synthLog, this`tickCounter, this`songStep, trackPositions, timing`samplesUntilNextTick
      ensures Valid()
      ensures var k := Timing.Ticks(old(timing.samplesUntilNextTick) - bufferLenSamples as real,
                                    timing.tickDurationSamples);
              var r := Run(song, timing.tpl, old(Position()), k);
              Position() == r.0 && synthLog == old(synthLog) + r.1
      ensures timing.samplesUntilNextTick
              == old(timing.samplesUntilNextTick) - bufferLenSamples as real
                 + Timing.Ticks(old(timing.samplesUntilNextTick) - bufferLenSamples as real,
                                timing.tickDurationSamples) as real * timing.tickDurationSamples
    {
      var ticks := timing.Advance(bufferLenSamples);
      RunTicks(ticks);
    }
  }

  /** What one track contributes to the row's calls. */
  function TrackCall(song: Song, row: SongRow, t: nat, tp: TrackPosition): seq<SynthCall>
    requires WellShaped(song) && t < |row.chainIndices| && tp.chainStep < DefaultChainLength
  {
    match ResolveEvent(song, row, t, tp)
    case None => []
    case Some(e) =>
      match EventCommand(t, e)
      case None => []
      case Some(c) => [Handle(c)]
  }

  lemma RowCallsStep(song: Song, row: SongRow, tracks: seq<TrackPosition>, t: nat)
    requires WellShaped(song) && |row.chainIndices| == MaxTracks && TracksInRange(tracks)
    requires t < MaxTracks
    ensures Calls(RowCommandsUpTo(song, row, tracks, t + 1))
            == Calls(RowCommandsUpTo(song, row, tracks, t)) + TrackCall(song, row, t, tracks[t])
  {
    var prefix := RowCommandsUpTo(song, row, tracks, t);
    CallsConcat(prefix, []);
    var e := ResolveEvent(song, row, t, tracks[t]);
    if e.Some? && EventCommand(t, e.value).Some? {
      CallsConcat(prefix, [EventCommand(t, e.value).value]);
    }
  }

  lemma CallsConcat(a: seq<PlayerCommand>, b: seq<PlayerCommand>)
    ensures Calls(a + b) == Calls(a) + Calls(b)
  {
    var l, r := Calls(a + b), Calls(a) + Calls(b);
    forall i | 0 <= i < |l|
      ensures l[i] == r[i]
    {
      CallsAt(a + b, i);
      if i < |a| {
        CallsAt(a, i);
      } else {
        CallsAt(b, i - |a|);
      }
    }
  }
}
