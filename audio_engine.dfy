/**
 * The look-ahead scheduler and voice dispatch (hooks/useAudioEngine.ts).
 *
 * The audio clock, the audio context's availability and the interval timer
 * are outside the model: the clock reading is a parameter, and each timer
 * callback is one call of `Scheduler.Tick`. What the scheduler sends to the
 * audio graph is recorded as a log of renderer calls.
 */
module AudioEngine {
  import opened Wrappers
  import opened Types
  import Library
  import opened Synths

  /** How far ahead of the audio clock bars are committed, in seconds. */
  const ScheduleAheadTime: real := 0.1

  /** One bar of four beats at `tempo` beats per minute, in seconds. */
  function BarDuration(tempo: real): (d: real)
    requires tempo > 0.0
    ensures d > 0.0
    ensures d * tempo == 240.0
  {
    (60.0 / tempo) * 4.0
  }

  /** The preset key a drum pitch selects in a kit: 36 kick, 38 snare, 42 hi-hat, nothing else. */
  function DrumKey(kit: string, pitch: int): (r: Option<string>)
    ensures r.Some? <==> pitch == 36 || pitch == 38 || pitch == 42
    ensures pitch == 36 ==> r == Some(kit + "_Kick")
    ensures pitch == 38 ==> r == Some(kit + "_Snare")
    ensures pitch == 42 ==> r == Some(kit + "_Hi-hat")
  {
    if pitch == 36 then Some(kit + "_Kick")
    else if pitch == 38 then Some(kit + "_Snare")
    else if pitch == 42 then Some(kit + "_Hi-hat")
    else None
  }

  /** Audio-clock time at which `note` starts in the bar starting at `barStart`. */
  function NoteStart(barStart: real, note: Note, tempo: real): (t: real)
    requires tempo > 0.0
    ensures 0.0 <= note.time ==> barStart <= t
    ensures note.time < 1.0 ==> t < barStart + BarDuration(tempo)
  {
    barStart + note.time * BarDuration(tempo)
  }

  /**
   * `playNote`: the renderer call one note of `track` makes when it starts
   * at `start`, or nothing when the note is dropped.
   */
  function Dispatch(table: map<string, Preset>, track: TrackData, note: Note, tempo: real, start: real): (r: Option<VoiceCall>)
    requires tempo > 0.0
  {
    var duration := note.duration * BarDuration(tempo);
    if track.role == Drums then
      match DrumKey(track.instrument.name, note.pitch)
      case None => None
      case Some(key) =>
        if key !in table then None
        else match table[key]
          case NoiseDrum(f, hz, b) => Some(PlayNoise(f, hz, b, start, duration, note.velocity))
          case PitchedDrum(w, env, sweep) => Some(PlayPitched(w, env, sweep, start, duration, note.velocity))
          case Tonal(_, _) => None
    else
      var name := track.instrument.name;
      if name !in table then None
      else match table[name]
        case Tonal(w, env) => Some(PlaySynth(w, env, start, duration, note.velocity, note.pitch))
        case PitchedDrum(w, env, _) => Some(PlaySynth(w, env, start, duration, note.velocity, note.pitch))
        case NoiseDrum(_, _, _) => None
  }

  /** What `Dispatch` selects: when a note is dropped, which renderer plays it, and with what. */
  lemma DispatchSelects(table: map<string, Preset>, track: TrackData, note: Note, tempo: real, start: real)
    requires tempo > 0.0
    // every call plays at the given start, for the note's share of the bar, at its velocity
    ensures var r := Dispatch(table, track, note, tempo, start);
            r.Some? ==> (r.value.time == start
                         && r.value.duration == note.duration * BarDuration(tempo)
                         && r.value.velocity == note.velocity)
    // a drum note sounds only for a kick, snare or hi-hat key the table holds as a drum preset
    ensures var r := Dispatch(table, track, note, tempo, start);
            track.role == Drums ==>
              (r.Some? <==> (exists key :: DrumKey(track.instrument.name, note.pitch) == Some(key)
                                           && key in table && !table[key].Tonal?))
    // a noise preset goes to the noise renderer, a pitch-envelope preset to the pitched one
    ensures var r := Dispatch(table, track, note, tempo, start);
            track.role == Drums && r.Some? ==>
              var preset := table[DrumKey(track.instrument.name, note.pitch).value];
              (r.value.PlayNoise? <==> preset.NoiseDrum?) && (r.value.PlayPitched? <==> preset.PitchedDrum?)
    // any other note sounds only when its instrument's preset has a waveform
    ensures var r := Dispatch(table, track, note, tempo, start);
            track.role != Drums ==>
              (r.Some? <==> track.instrument.name in table && !table[track.instrument.name].NoiseDrum?)
    // and it is played by the tonal renderer at the note's own pitch
    ensures var r := Dispatch(table, track, note, tempo, start);
            track.role != Drums && r.Some? ==>
              var preset := table[track.instrument.name];
              && r.value.PlaySynth? && r.value.pitch == note.pitch
              && r.value.waveform == preset.waveform && r.value.envelope == preset.envelope
  {
  }

  function Emit(call: Option<VoiceCall>): (r: seq<VoiceCall>)
    ensures |r| == if call.Some? then 1 else 0
  {
    if call.Some? then [call.value] else []
  }

  /** The calls one track's notes make in the bar starting at `barStart`, in pattern order. */
  function NoteCalls(table: map<string, Preset>, track: TrackData, notes: seq<Note>, tempo: real, barStart: real): (r: seq<VoiceCall>)
    requires tempo > 0.0
    decreases |notes|
  {
    if |notes| == 0 then []
    else
      var note := notes[|notes| - 1];
      NoteCalls(table, track, notes[..|notes| - 1], tempo, barStart)
      + Emit(Dispatch(table, track, note, tempo, NoteStart(barStart, note, tempo)))
  }

  /** The calls one pass of the scheduler makes for the bar starting at `barStart`: track order, then pattern order. */
  function PassCalls(table: map<string, Preset>, tracks: seq<TrackData>, tempo: real, barStart: real): (r: seq<VoiceCall>)
    requires tempo > 0.0
    decreases |tracks|
  {
    if |tracks| == 0 then []
    else
      var track := tracks[|tracks| - 1];
      PassCalls(table, tracks[..|tracks| - 1], tempo, barStart) + NoteCalls(table, track, track.pattern, tempo, barStart)
  }

  /** Start of the bar `k` bars after `start`. */
  function BarStart(start: real, k: nat, tempo: real): (t: real)
    requires tempo > 0.0
    ensures start <= t
  {
    if k == 0 then start else BarStart(start, k - 1, tempo) + BarDuration(tempo)
  }

  /** The `k`-th bar starts exactly `k` bar lengths after the first: no rounding accumulates. */
  lemma {:induction false} BarStartIsMultiple(start: real, k: nat, tempo: real)
    requires tempo > 0.0
    ensures BarStart(start, k, tempo) == start + k as real * BarDuration(tempo)
  {
    if k > 0 {
      BarStartIsMultiple(start, k - 1, tempo);
      assert (k - 1) as real * BarDuration(tempo) + BarDuration(tempo) == k as real * BarDuration(tempo);
    }
  }

  /** The calls of `passes` consecutive passes, the first at `start`, each one bar after the previous. */
  function BarsCalls(table: map<string, Preset>, tracks: seq<TrackData>, tempo: real, start: real, passes: nat): (r: seq<VoiceCall>)
    requires tempo > 0.0
  {
    if passes == 0 then []
    else BarsCalls(table, tracks, tempo, start, passes - 1)
         + PassCalls(table, tracks, tempo, BarStart(start, passes - 1, tempo))
  }

  /** Every call moved `offset` seconds later. */
  function Shift(calls: seq<VoiceCall>, offset: real): (r: seq<VoiceCall>)
    ensures |r| == |calls|
    ensures forall i :: 0 <= i < |r| ==> r[i] == calls[i].(time := calls[i].time + offset)
  {
    seq(|calls|, i requires 0 <= i < |calls| => calls[i].(time := calls[i].time + offset))
  }

  /** The number of notes over all tracks. */
  function NoteCount(tracks: seq<TrackData>): nat
    decreases |tracks|
  {
    if |tracks| == 0 then 0 else NoteCount(tracks[..|tracks| - 1]) + |tracks[|tracks| - 1].pattern|
  }

  // ---------------------------------------------------------------- lemmas about a pass

  lemma ShiftAppend(a: seq<VoiceCall>, b: seq<VoiceCall>, offset: real)
    ensures Shift(a + b, offset) == Shift(a, offset) + Shift(b, offset)
  {
  }

  /** Starting a note later by `offset` starts its call later by `offset` and changes nothing else. */
  lemma DispatchShift(table: map<string, Preset>, track: TrackData, note: Note, tempo: real, start: real, offset: real)
    requires tempo > 0.0
    ensures Emit(Dispatch(table, track, note, tempo, start + offset)) == Shift(Emit(Dispatch(table, track, note, tempo, start)), offset)
  {
  }

  lemma {:induction false} NoteCallsShift(table: map<string, Preset>, track: TrackData, notes: seq<Note>, tempo: real, barStart: real, offset: real)
    requires tempo > 0.0
    ensures NoteCalls(table, track, notes, tempo, barStart + offset) == Shift(NoteCalls(table, track, notes, tempo, barStart), offset)
    decreases |notes|
  {
    if |notes| > 0 {
      var note := notes[|notes| - 1];
      var bar := BarDuration(tempo);
      NoteCallsShift(table, track, notes[..|notes| - 1], tempo, barStart, offset);
      assert NoteStart(barStart + offset, note, tempo) == NoteStart(barStart, note, tempo) + offset;
      DispatchShift(table, track, note, tempo, NoteStart(barStart, note, tempo), offset);
      ShiftAppend(NoteCalls(table, track, notes[..|notes| - 1], tempo, barStart),
                  Emit(Dispatch(table, track, note, tempo, NoteStart(barStart, note, tempo))), offset);
    }
  }

  /**
   * Scheduling the same song one bar start later yields the same calls, each
   * moved by exactly that much: a pass depends on its bar start only through
   * a constant offset.
   */
  lemma {:induction false} PassCallsShift(table: map<string, Preset>, tracks: seq<TrackData>, tempo: real, barStart: real, offset: real)
    requires tempo > 0.0
    ensures PassCalls(table, tracks, tempo, barStart + offset) == Shift(PassCalls(table, tracks, tempo, barStart), offset)
    decreases |tracks|
  {
    if |tracks| > 0 {
      var track := tracks[|tracks| - 1];
      PassCallsShift(table, tracks[..|tracks| - 1], tempo, barStart, offset);
      NoteCallsShift(table, track, track.pattern, tempo, barStart, offset);
      ShiftAppend(PassCalls(table, tracks[..|tracks| - 1], tempo, barStart), NoteCalls(table, track, track.pattern, tempo, barStart), offset);
    }
  }

  /** Consecutive passes differ only by a shift of one bar. */
  lemma ConsecutivePasses(table: map<string, Preset>, tracks: seq<TrackData>, tempo: real, barStart: real)
    requires tempo > 0.0
    ensures PassCalls(table, tracks, tempo, barStart + BarDuration(tempo)) == Shift(PassCalls(table, tracks, tempo, barStart), BarDuration(tempo))
  {
    PassCallsShift(table, tracks, tempo, barStart, BarDuration(tempo));
  }

  /**
   * No drift: after `k` passes the next pass is the first pass moved by
   * exactly `k` bars, however the passes were spread over ticks.
   */
  lemma NextPassIsShiftedFirst(table: map<string, Preset>, tracks: seq<TrackData>, tempo: real, start: real, k: nat)
    requires tempo > 0.0
    ensures BarsCalls(table, tracks, tempo, start, k + 1)
            == BarsCalls(table, tracks, tempo, start, k) + Shift(PassCalls(table, tracks, tempo, start), BarStart(start, k, tempo) - start)
  {
    PassCallsShift(table, tracks, tempo, start, BarStart(start, k, tempo) - start);
  }

  /** A non-empty run of notes: the calls of all but the last, then the last one's. */
  lemma NoteCallsUnfold(table: map<string, Preset>, track: TrackData, notes: seq<Note>, tempo: real, barStart: real)
    requires tempo > 0.0 && |notes| > 0
    ensures NoteCalls(table, track, notes, tempo, barStart)
            == NoteCalls(table, track, notes[..|notes| - 1], tempo, barStart)
               + Emit(Dispatch(table, track, notes[|notes| - 1], tempo, NoteStart(barStart, notes[|notes| - 1], tempo)))
  {
  }

  /** Appending one note appends that note's call, if any. */
  lemma NoteCallsSnoc(table: map<string, Preset>, track: TrackData, notes: seq<Note>, note: Note, tempo: real, barStart: real)
    requires tempo > 0.0
    ensures NoteCalls(table, track, notes + [note], tempo, barStart)
            == NoteCalls(table, track, notes, tempo, barStart) + Emit(Dispatch(table, track, note, tempo, NoteStart(barStart, note, tempo)))
  {
    NoteCallsUnfold(table, track, notes + [note], tempo, barStart);
    assert (notes + [note])[..|notes|] == notes;
  }

  /** Within a track, the calls of earlier notes come before the calls of later notes. */
  lemma {:induction false} NoteCallsAppend(table: map<string, Preset>, track: TrackData, a: seq<Note>, b: seq<Note>, tempo: real, barStart: real)
    requires tempo > 0.0
    ensures NoteCalls(table, track, a + b, tempo, barStart) == NoteCalls(table, track, a, tempo, barStart) + NoteCalls(table, track, b, tempo, barStart)
    decreases |b|
  {
    if |b| == 0 {
      assert a + b == a;
    } else {
      assert (a + b)[..|a + b| - 1] == a + b[..|b| - 1];
      assert (a + b)[|a + b| - 1] == b[|b| - 1];
      var last := b[|b| - 1];
      assert b == b[..|b| - 1] + [last];
      assert a + b == (a + b[..|b| - 1]) + [last];
      NoteCallsAppend(table, track, a, b[..|b| - 1], tempo, barStart);
      NoteCallsSnoc(table, track, a + b[..|b| - 1], last, tempo, barStart);
      NoteCallsSnoc(table, track, b[..|b| - 1], last, tempo, barStart);
    }
  }

  /** A pass over two runs of tracks makes the first run's calls, then the second's: track order is kept. */
  lemma {:induction false} PassCallsAppend(table: map<string, Preset>, a: seq<TrackData>, b: seq<TrackData>, tempo: real, barStart: real)
    requires tempo > 0.0
    ensures PassCalls(table, a + b, tempo, barStart) == PassCalls(table, a, tempo, barStart) + PassCalls(table, b, tempo, barStart)
    decreases |b|
  {
    if |b| == 0 {
      assert a + b == a;
    } else {
      assert (a + b)[..|a + b| - 1] == a + b[..|b| - 1];
      assert (a + b)[|a + b| - 1] == b[|b| - 1];
      PassCallsAppend(table, a, b[..|b| - 1], tempo, barStart);
    }
  }

  /** A pass makes at most one call per note, and exactly one per note when no note is dropped. */
  lemma {:induction false} PassCallsCount(table: map<string, Preset>, tracks: seq<TrackData>, tempo: real, barStart: real)
    requires tempo > 0.0
    ensures |PassCalls(table, tracks, tempo, barStart)| <= NoteCount(tracks)
    ensures (forall t, n :: t in tracks && n in t.pattern ==> Dispatch(table, t, n, tempo, barStart).Some?)
            ==> |PassCalls(table, tracks, tempo, barStart)| == NoteCount(tracks)
    decreases |tracks|
  {
    if |tracks| > 0 {
      var track := tracks[|tracks| - 1];
      PassCallsCount(table, tracks[..|tracks| - 1], tempo, barStart);
      NoteCallsCount(table, track, track.pattern, tempo, barStart);
      if forall t, n :: t in tracks && n in t.pattern ==> Dispatch(table, t, n, tempo, barStart).Some? {
        assert forall t, n :: t in tracks[..|tracks| - 1] && n in t.pattern ==> Dispatch(table, t, n, tempo, barStart).Some? by {
          forall t, n | t in tracks[..|tracks| - 1] && n in t.pattern ensures Dispatch(table, t, n, tempo, barStart).Some? {
            assert t in tracks;
          }
        }
        assert track in tracks;
      }
    }
  }

  /** At most one call per note of a track, and exactly one when no note is dropped. */
  lemma {:induction false} NoteCallsCount(table: map<string, Preset>, track: TrackData, notes: seq<Note>, tempo: real, barStart: real)
    requires tempo > 0.0
    ensures |NoteCalls(table, track, notes, tempo, barStart)| <= |notes|
    ensures (forall n :: n in notes ==> Dispatch(table, track, n, tempo, barStart).Some?)
            ==> |NoteCalls(table, track, notes, tempo, barStart)| == |notes|
    decreases |notes|
  {
    if |notes| > 0 {
      var note := notes[|notes| - 1];
      NoteCallsCount(table, track, notes[..|notes| - 1], tempo, barStart);
      assert note in notes;
      assert Dispatch(table, track, note, tempo, barStart).Some? == Dispatch(table, track, note, tempo, NoteStart(barStart, note, tempo)).Some?;
      assert forall n :: n in notes[..|notes| - 1] ==> n in notes;
    }
  }

  // ---------------------------------------------------------------- arithmetic for the scheduler loop

  lemma MultiplyMonotone(a: real, b: real, c: real)
    requires a > b && c > 0.0
    ensures a * c > b * c
  {
  }

  lemma QuotientStep(gap: real, bar: real)
    requires bar > 0.0
    ensures ((gap - bar) / bar).Floor == (gap / bar).Floor - 1
  {
    var q, q' := gap / bar, (gap - bar) / bar;
    assert q' * bar == gap - bar;
    assert (q - 1.0) * bar == gap - bar;
    if q' > q - 1.0 {
      MultiplyMonotone(q', q - 1.0, bar);
    } else if q' < q - 1.0 {
      MultiplyMonotone(q - 1.0, q', bar);
    }
  }

  lemma QuotientPositive(gap: real, bar: real)
    requires bar > 0.0 && gap > 0.0
    ensures (gap / bar).Floor >= 0
  {
  }

  // ---------------------------------------------------------------- the scheduler

  /** The Web Audio context states. */
  datatype ContextState = Suspended | Running | Closed

  class Scheduler {
    /** Whether an audio context has been created (`audioContextRef.current`). */
    var hasContext: bool
    var contextState: ContextState
    /** Whether the polling interval is installed (`scheduleIntervalRef`). */
    var ticking: bool
    /** Audio-clock time of the next bar to schedule (`nextNoteTimeRef`). */
    var cursor: real
    /** The song the installed interval plays. */
    var song: Option<Song>
    /** Every renderer call made so far, in order. */
    var log: seq<VoiceCall>
    /** The preset table notes are dispatched against (`SYNTH_PRESETS`). */
    const table: map<string, Preset>

    constructor (table: map<string, Preset>)
      ensures this.table == table
      ensures !hasContext && !ticking && cursor == 0.0 && song == None && log == []
    {
      this.table := table;
      hasContext := false;
      contextState := Suspended;
      ticking := false;
      cursor := 0.0;
      song := None;
      log := [];
    }

    /** The inner `forEach` of a scheduler pass: every note of one track, in pattern order. */
    method ScheduleTrack(track: TrackData, tempo: real)
      requires tempo > 0.0
      modifies this`log
      ensures log == old(log) + NoteCalls(table, track, track.pattern, tempo, cursor)
    {
      var j := 0;
      while j < |track.pattern|
        invariant 0 <= j <= |track.pattern|
        invariant log == old(log) + NoteCalls(table, track, track.pattern[..j], tempo, cursor)
      {
        var note := track.pattern[j];
        var call := Dispatch(table, track, note, tempo, NoteStart(cursor, note, tempo));
        if call.Some? {
          log := log + [call.value];
        }
        assert track.pattern[..j + 1] == track.pattern[..j] + [note];
        NoteCallsSnoc(table, track, track.pattern[..j], note, tempo, cursor);
        j := j + 1;
      }
      assert track.pattern[..j] == track.pattern;
    }

    /** The outer `forEach` of one scheduler pass, for the bar starting at `cursor`: tracks in order. */
    method SchedulePass(tracks: seq<TrackData>, tempo: real)
      requires tempo > 0.0
      modifies this`log
      ensures log == old(log) + PassCalls(table, tracks, tempo, cursor)
    {
      var i := 0;
      while i < |tracks|
        invariant 0 <= i <= |tracks|
        invariant log == old(log) + PassCalls(table, tracks[..i], tempo, cursor)
      {
        ScheduleTrack(tracks[i], tempo);
        assert tracks[..i + 1][..i] == tracks[..i];
        i := i + 1;
      }
      assert tracks[..i] == tracks;
    }

    /**
     * `scheduleNotes`, one timer callback at audio-clock time `now`: while the
     * cursor is inside the look-ahead window, schedule a whole bar at the
     * cursor and advance it by exactly one bar. Callbacks run only while
     * the interval is installed.
     */
    method Tick(now: real)
      requires ticking
      requires song.Some? ==> song.value.tempo > 0.0
      modifies this`cursor, this`log
      ensures !hasContext || song.None? ==> cursor == old(cursor) && log == old(log)
      ensures hasContext && song.Some? ==> now + ScheduleAheadTime <= cursor
      ensures hasContext && song.Some? ==>
                var tempo := song.value.tempo;
                exists passes: nat ::
                  && cursor == BarStart(old(cursor), passes, tempo)
                  && log == old(log) + BarsCalls(table, song.value.tracks, tempo, old(cursor), passes)
                  && (passes > 0 ==> BarStart(old(cursor), passes - 1, tempo) < now + ScheduleAheadTime)
    {
      if !hasContext || song.None? {
        return;
      }
      var tracks, tempo := song.value.tracks, song.value.tempo;
      var bar := BarDuration(tempo);
      ghost var limit := now + ScheduleAheadTime;
      ghost var passes: nat := 0;
      while cursor < now + ScheduleAheadTime
        invariant cursor == BarStart(old(cursor), passes, tempo)
        invariant log == old(log) + BarsCalls(table, tracks, tempo, old(cursor), passes)
        invariant passes > 0 ==> BarStart(old(cursor), passes - 1, tempo) < limit
        decreases ((limit - cursor) / bar).Floor
      {
        ghost var gap := limit - cursor;
        QuotientPositive(gap, bar);
        SchedulePass(tracks, tempo);
        cursor := cursor + bar;
        passes := passes + 1;
        QuotientStep(gap, bar);
        assert limit - cursor == gap - bar;
      }
    }

    /**
     * The playback effect, run whenever `isPlaying` or the song changes:
     * the previous run's interval is cleared first; then either playback
     * starts (context created if needed and supported, resumed, cursor at
     * the context's current time, interval installed to fire
     * every 25 ms) or it stops (interval cleared, context suspended if it
     * was running).
     * `clock` is the current time of an existing context; a newly created
     * context starts at 0.
     */
    method Sync(isPlaying: bool, current: Option<Song>, clock: real, audioSupported: bool)
      modifies this
      ensures log == old(log)
      ensures isPlaying && current.Some? && (old(hasContext) || audioSupported) ==>
                && hasContext && contextState == Running && ticking && song == current
                && cursor == (if old(hasContext) then clock else 0.0)
      ensures isPlaying && current.Some? && !old(hasContext) && !audioSupported ==>
                !hasContext && !ticking && cursor == old(cursor) && song == old(song)
      ensures !(isPlaying && current.Some?) ==>
                && !ticking && hasContext == old(hasContext) && cursor == old(cursor) && song == old(song)
                && contextState == (if old(hasContext) && old(contextState) == Running then Suspended else old(contextState))
    {
      ticking := false;
      if isPlaying && current.Some? {
        var now := clock;
        if !hasContext {
          if !audioSupported {
            return;
          }
          hasContext := true;
          contextState := Running;
          now := 0.0;
        }
        contextState := Running;
        cursor := now;
        song := current;
        ticking := true;
      } else {
        if hasContext && contextState == Running {
          contextState := Suspended;
        }
      }
    }
  }

  // ---------------------------------------------------------------- library coverage

  /** Every kit in the library has a drum preset, not a tonal one, for each of its three pieces. */
  lemma KitsComplete()
    ensures forall i, pitch :: 0 <= i < 3 && (pitch == 36 || pitch == 38 || pitch == 42) ==>
              var key := DrumKey(Library.Instruments(Drums)[i].name, pitch).value;
              key in SynthPresets && !SynthPresets[key].Tonal?
  {
    forall i, pitch | 0 <= i < 3 && (pitch == 36 || pitch == 38 || pitch == 42)
      ensures var key := DrumKey(Library.Instruments(Drums)[i].name, pitch).value;
              key in SynthPresets && !SynthPresets[key].Tonal?
    {
      var kit := Library.Instruments(Drums)[i].name;
      assert kit == "Acoustic Kit" || kit == "808 Kit" || kit == "Techno Kit";
      assert "Acoustic Kit" + "_Kick" == "Acoustic Kit_Kick";
      assert "Acoustic Kit" + "_Snare" == "Acoustic Kit_Snare";
      assert "Acoustic Kit" + "_Hi-hat" == "Acoustic Kit_Hi-hat";
      assert "808 Kit" + "_Kick" == "808 Kit_Kick";
      assert "808 Kit" + "_Snare" == "808 Kit_Snare";
      assert "808 Kit" + "_Hi-hat" == "808 Kit_Hi-hat";
      assert "Techno Kit" + "_Kick" == "Techno Kit_Kick";
      assert "Techno Kit" + "_Snare" == "Techno Kit_Snare";
      assert "Techno Kit" + "_Hi-hat" == "Techno Kit_Hi-hat";
    }
  }

  /** Every other instrument of the library has a preset with a waveform. */
  lemma TonalInstrumentsHavePresets()
    ensures forall c, i :: c != Drums && 0 <= i < 3 ==>
              var name := Library.Instruments(c)[i].name;
              name in SynthPresets && !SynthPresets[name].NoiseDrum?
  {
  }

  /**
   * A track that holds a library instrument of its own category never hits
   * the missing-preset drop: every non-drum note sounds, and every drum note
   * with a kick, snare or hi-hat pitch sounds.
   */
  lemma LibraryTracksSound(track: TrackData, note: Note, tempo: real, start: real)
    requires tempo > 0.0
    requires track.Consistent() && track.instrument in Library.Instruments(track.role)
    requires track.role == Drums ==> note.pitch == 36 || note.pitch == 38 || note.pitch == 42
    ensures Dispatch(SynthPresets, track, note, tempo, start).Some?
  {
    var list := Library.Instruments(track.role);
    var i :| 0 <= i < 3 && list[i] == track.instrument;
    if track.role == Drums {
      KitsComplete();
    } else {
      TonalInstrumentsHavePresets();
    }
  }
}
