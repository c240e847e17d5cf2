# Althira Music Maker — a verified model of the song engine

Althira turns a text prompt into a short song: a language model returns a
title, lyrics, a tempo and a one-bar arrangement of tracks, which the app
normalises against its instrument library, shows as a step grid and plays
through Web Audio with a look-ahead scheduler. This project models that
core in Dafny and proves what it promises.

- `types.dfy` (`Types`): the song document: categories, instruments, notes,
  tracks, songs, style and user presets.
- `library.dfy` (`Library`): the instrument library and the style presets.
- `synths.dfy` (`Synths`): the three voice renderers. Each one is modelled
  as the ordered sequence of automation calls (set, linear ramp,
  exponential ramp) it issues on gain, frequency and filter frequency,
  followed by start and stop. Also here: the noise-buffer loop over an
  array, MIDI-to-frequency conversion and the preset table.
- `audio_engine.dfy` (`AudioEngine`): the `playNote` dispatch as a pure
  function, and the scheduler as a class. The class holds the bar cursor
  and the log of renderer calls. Its methods are one timer tick (the
  `while` loop over bars), one pass (the nested loops over tracks and
  notes) and the start/stop effect.
- `generation.dfy` (`Generation`): assembling the prompt, normalising and
  validating the model's reply, and the library lookup as the code
  actually evaluates it.
- `app.dfy` (`App`): the application state (`Studio`): undo/redo history,
  the instrument swap, the preset list and the generation handlers.
- `timeline.dfy`, `song_player.dfy`, `track_controls.dfy`: the playhead
  state machine and the step quantisation; the simulated playback clock
  and time display; the same-category instrument selector.
- `text.dfy`, `wrappers.dfy`: decimal rendering, padding and whitespace
  as JavaScript does them, and `Option`/`Result`.

Floats are `real`; the audio clock, the language-model reply,
`Math.random` draws and clock-based ids are parameters.

## Model

| member | source | states |
|---|---|---|
| Types.ParseCategory | types.ts:31 | a role string is a category only when it is one of the six names, and then it is that category's name |
| Types.ParseCategoryName | types.ts:31 | each of the six names reads back as its own category, so the closed set has six distinct names |
| Text.NatToStringRoundTrip | services/geminiService.ts:105 | the decimal text of an index reads back as the index |
| Text.PadStart | components/SongPlayer.tsx:49 | `padStart` never truncates, keeps the string as suffix and fills only on the left |
| Library.Instruments | constants.ts:32-63 | every category lists exactly three instruments, each tagged with the category it is listed under |
| Library.DefaultInstrument | constants.ts:33-62 | the fallback is the first entry of the category's own list |
| Library.AllInstruments | constants.ts:32-63 | the library holds 18 instruments |
| Library.LookupRole | services/geminiService.ts:89-90 | indexing the library with a role yields a list exactly when the role names a category, and then it is that category's list |
| Library.FindByName | services/geminiService.ts:97 | `find` yields nothing exactly when no entry has the name, otherwise the first entry that has it |
| Library.CategoriesComplete | constants.ts:32-63 | the library is keyed by exactly the six categories, each once |
| Library.InstrumentNamesDistinct | constants.ts:33-62 | no instrument name occurs twice in the whole library |
| Library.DefaultInstruments | constants.ts:33-62 | the fallback of each category is its first-listed instrument (Acoustic Kit, Electric Bass, Grand Piano, Synth Lead, String Section, Synth Arp) |
| Library.StylePresetNamesDistinct | constants.ts:4-29 | six style presets with pairwise distinct names |
| Synths.MidiToFreq | audio/synths.ts:30-32 | every frequency is positive |
| Synths.ConcertPitch | audio/synths.ts:30-32 | MIDI note 69 sounds at 440 Hz |
| Synths.OctaveDoubles | audio/synths.ts:30-32 | twelve semitones up doubles the frequency |
| Synths.SemitoneUp | audio/synths.ts:30-32 | one semitone up always sounds higher |
| Synths.MidiToFreqIncreasing | audio/synths.ts:30-32 | the frequency is strictly increasing in the MIDI number |
| Synths.GainEnvelope | audio/synths.ts:51-59 | gain set to 0 at the note start, attack ramp to the peak, hold event only when the release starts after the decay, ramp to 0 at exactly `time + duration`; no exponential ramp; values in [0, peak] for a sustain level; in time order when the hold is present |
| Synths.ClampedReleaseStart | audio/synths.ts:49-55 | the release lasts `min(duration, release)`, so it never starts before the note nor after its end |
| Synths.SynthNoteGain | audio/synths.ts:46-59 | a tonal note's gain calls are the envelope with peak `velocity * 0.3` and clamped release |
| Synths.SynthNoteFrequency | audio/synths.ts:42-44 | a tonal note sets its frequency once, to `midiToFreq(pitch)` at the note start, and touches no filter |
| Synths.PitchedDrumGain | audio/synths.ts:78-89 | a pitched drum's gain calls are the envelope with peak `velocity * 0.9` and release start `time + duration - release`, unclamped |
| Synths.PitchedDrumSweep | audio/synths.ts:91-94 | frequency held at `start` until `time + pAttack`, then an exponential ramp to `end` at `time + pAttack + pDecay` |
| Synths.PitchedDrumTargetsNonZero | audio/synths.ts:91-94 | with a non-zero `end`, no exponential ramp of a pitched drum aims at 0 |
| Synths.NoiseDrumFilter | audio/synths.ts:121-123 | a noise drum's filter is set once, to the preset frequency at the note start |
| Synths.NoiseDrumGain | audio/synths.ts:125-131 | noise gain: 0 at the start, linear rise to `velocity * 0.7`, exponential decay to 0.001; no exponential ramp aims at 0 |
| Synths.FillNoise | audio/synths.ts:114-116 | sample `i` becomes `random[i] * 2 - 1`, which lies in [-1, 1) |
| Synths.NoiseBuffer | audio/synths.ts:110-116 | a fresh buffer of exactly `sampleRate` samples, each in [-1, 1) |
| Synths.SynthNote | audio/synths.ts:34-65 | `playSynthNote` as its calls: SynthNoteFrequency, SynthNoteGain, ShortSynthNoteReleasesAtOnce, SynthGainInOrder and StopTimes state its frequency, its gain envelope, their order and its start and stop |
| Synths.PitchedDrumNote | audio/synths.ts:68-101 | `playPitchedDrum` as its calls: PitchedDrumGain, PitchedDrumSweep, PitchedDrumTargetsNonZero, PitchedGainInOrder, PitchedReleaseUnclamped and StopTimes state its gain, its pitch sweep, its non-zero ramp targets and its start and stop |
| Synths.NoiseDrumNote | audio/synths.ts:103-139 | `playDrumNote` as its calls: NoiseDrumFilter, NoiseDrumGain and StopTimes state its filter, its gain decay and its start and stop |
| Synths.ShortSynthNoteReleasesAtOnce | audio/synths.ts:49-59 | a tonal note shorter than its release holds no plateau and still ends at 0 at `time + duration` |
| Synths.SynthGainInOrder | audio/synths.ts:51-59 | with a hold, the tonal gain times are ordered: start, attack end, decay end, release start, note end |
| Synths.PitchedGainInOrder | audio/synths.ts:82-89 | the same ordering for the pitched drum's gain |
| Synths.PitchedReleaseUnclamped | audio/synths.ts:85-89 | a pitched drum longer in release than in duration has its nominal release start before the note, and holds no plateau |
| Synths.StopTimes | audio/synths.ts:64-138 | every renderer starts its source at the note start; the tonal one stops 0.1 s after the note, the drums exactly at its end |
| Synths.PresetTableValid | audio/synths.ts:141-168 | every preset has non-negative envelope times, a sustain in [0,1], and positive sweep and filter frequencies |
| AudioEngine.BarDuration | hooks/useAudioEngine.ts:22 | a bar is positive and lasts four beats: `bar * tempo == 240` |
| AudioEngine.DrumKey | hooks/useAudioEngine.ts:40-47 | pitches 36, 38, 42 give `<kit>_Kick`, `_Snare`, `_Hi-hat`; every other pitch gives no key |
| AudioEngine.NoteStart | hooks/useAudioEngine.ts:27 | a note with time in [0,1) starts inside its bar |
| AudioEngine.DispatchSelects | hooks/useAudioEngine.ts:35-74 | when a note is dropped (other drum pitch, missing preset, no fitting variant), which renderer plays it (noise, pitched, tonal), and with the note's start, `duration * bar`, velocity and pitch |
| AudioEngine.Dispatch | hooks/useAudioEngine.ts:35-74 | `playNote`: DispatchSelects states when a note is dropped and which renderer plays it with what; DispatchShift states that a later start moves the call and nothing else; LibraryTracksSound states that library tracks always sound |
| AudioEngine.BarStart | hooks/useAudioEngine.ts:31 | the cursor never moves backwards |
| AudioEngine.BarStartIsMultiple | hooks/useAudioEngine.ts:24-32 | after `k` bars the cursor is the start plus exactly `k` bar lengths |
| AudioEngine.DispatchShift | hooks/useAudioEngine.ts:27-28 | starting a note later moves its call by the same amount and changes nothing else |
| AudioEngine.NoteCallsShift | hooks/useAudioEngine.ts:26-29 | one track's calls for a later bar are its calls shifted by the offset |
| AudioEngine.PassCallsShift | hooks/useAudioEngine.ts:25-30 | a pass depends on its bar start only through a constant shift |
| AudioEngine.ConsecutivePasses | hooks/useAudioEngine.ts:24-32 | consecutive passes differ only by a shift of one bar |
| AudioEngine.NextPassIsShiftedFirst | hooks/useAudioEngine.ts:24-32 | after `k` passes the next pass is the first one shifted by the cursor's advance, with no drift |
| AudioEngine.NoteCallsAppend | hooks/useAudioEngine.ts:26-29 | calls follow pattern order |
| AudioEngine.NoteCalls | hooks/useAudioEngine.ts:26-29 | the calls of one track's notes in one bar: NoteCallsAppend gives pattern order, NoteCallsCount at most one call per note, NoteCallsShift a uniform shift with the bar start; `Scheduler.ScheduleTrack` appends exactly these |
| AudioEngine.PassCalls | hooks/useAudioEngine.ts:25-30 | the calls of one bar over all tracks: PassCallsAppend gives track order, PassCallsCount at most one call per note, PassCallsShift and ConsecutivePasses the one-bar shift between passes; `Scheduler.SchedulePass` appends exactly these |
| AudioEngine.PassCallsAppend | hooks/useAudioEngine.ts:25-30 | calls follow track order |
| AudioEngine.NoteCallsCount | hooks/useAudioEngine.ts:26-29 | at most one call per note, and exactly one when no note is dropped |
| AudioEngine.PassCallsCount | hooks/useAudioEngine.ts:25-30 | at most one call per note of the song, and exactly one each when none is dropped |
| AudioEngine.Scheduler.constructor | hooks/useAudioEngine.ts:11-13 | no context, no interval, cursor 0, empty log |
| AudioEngine.Scheduler.ScheduleTrack | hooks/useAudioEngine.ts:26-29 | the log grows by the dispatch of every note of the track, in pattern order |
| AudioEngine.Scheduler.SchedulePass | hooks/useAudioEngine.ts:25-30 | the log grows by one pass: every track in order, every note in order |
| AudioEngine.Scheduler.Tick | hooks/useAudioEngine.ts:18-33 | without a context or song nothing changes; otherwise the cursor ends at or after `now + 0.1`, a whole number of bars past where it was, each bar's pass logged in order, and the last bar scheduled started before `now + 0.1` |
| AudioEngine.Scheduler.Sync | hooks/useAudioEngine.ts:77-107 | start: context created if needed and supported, running, cursor at its current time, interval installed; stop: interval cleared, context suspended only if it was running |
| AudioEngine.KitsComplete | audio/synths.ts:158-168 | every library kit has a drum preset for kick, snare and hi-hat |
| AudioEngine.TonalInstrumentsHavePresets | audio/synths.ts:142-156 | every non-drum library instrument has a preset with a waveform |
| AudioEngine.LibraryTracksSound | hooks/useAudioEngine.ts:40-72 | a track with a library instrument of its own role never hits the missing-preset drop |
| Generation.TrackId | services/geminiService.ts:105 | the id is the raw role, a dash, and digits that read back as the index |
| Generation.ConvertTrack | services/geminiService.ts:88-109 | a track survives exactly when its role is a category; it keeps role, index id and pattern (empty when absent); its instrument is the named library entry or the category's first, so it is consistent with the role |
| Generation.Present | services/geminiService.ts:110 | `filter(Boolean)` never lengthens |
| Generation.PresentAppend | services/geminiService.ts:110 | filtering keeps relative order |
| Generation.PresentKeeps | services/geminiService.ts:110 | every present value is kept |
| Generation.PresentOnly | services/geminiService.ts:110 | only present values are kept |
| Generation.PresentEmpty | services/geminiService.ts:110 | nothing is kept exactly when nothing is present |
| Generation.ConvertAll | services/geminiService.ts:88 | the `map` yields one entry per raw track |
| Generation.ConvertAllAt | services/geminiService.ts:88-109 | entry `i` is raw track `i` converted with index `i` |
| Generation.Normalise | services/geminiService.ts:88-110 | the reply's tracks mapped and filtered: NormaliseOnly, NormaliseKeeps, NormaliseEmpty and NormaliseAppend state that exactly the known roles survive, in reply order, consistent with the library, under their reply-position ids |
| Generation.NormaliseOnly | services/geminiService.ts:88-110 | every kept track is the conversion of the raw track at its own position, hence consistent and from the library |
| Generation.NormaliseKeeps | services/geminiService.ts:88-110 | every raw track with a known role is kept |
| Generation.NormaliseEmpty | services/geminiService.ts:88-110 | no track is left exactly when no raw role is a category |
| Generation.NormaliseAppend | services/geminiService.ts:88-110 | normalisation keeps reply order, and ids number positions before filtering |
| Generation.GenerateSong | services/geminiService.ts:88-126 | success exactly when a reply exists with non-empty title and lyrics and some known role; the song carries the reply's fields and the normalised tracks; every failure has the one fixed message |
| Generation.BuildPrompt | services/geminiService.ts:57-73 | six sections in fixed order; the user-lyrics block exactly when the lyrics are not blank, the write-original-lyrics instruction exactly when they are |
| Generation.BlankLyricsIgnored | services/geminiService.ts:67-71 | lyrics give the same prompt as no lyrics exactly when they are whitespace only |
| Generation.LibraryIndex | services/geminiService.ts:90-92 | on the library object, a role finds a list exactly for a category, and an inherited member exactly for a prototype name |
| Generation.ConvertTrackAsWritten | services/geminiService.ts:88-109 | the conversion as evaluated throws exactly for prototype names, and otherwise agrees with `ConvertTrack` |
| Generation.NormaliseFromAsWritten | services/geminiService.ts:88-110 | the map and filter as evaluated: AsWrittenAgrees states that it equals `Normalise` without prototype names among the roles, PrototypeRoleFails that one such name makes it fail |
| Generation.GenerateSongAsWritten | services/geminiService.ts:88-126 | as written, every failure still has the one fixed message |
| Generation.AsWrittenAgrees | services/geminiService.ts:88-110 | without prototype names among the roles, the code as written normalises like the corrected model |
| Generation.AsWrittenSong | services/geminiService.ts:88-126 | `generateSong` as written is the corrected generation exactly on replies without prototype names among the roles, and the fixed failure on all others |
| Generation.PrototypeRoleFails | services/geminiService.ts:90-97 | one prototype name among the roles fails the whole normalisation as written |
| Generation.ConstructorRoleCounterexample | services/geminiService.ts:90-97 | a reply with a Drums track and a "constructor" track fails as written but yields a one-track song when the unknown role is dropped |
| App.WithoutPreset | App.tsx:111 | deletion keeps exactly the presets whose id differs |
| App.WithoutPresetAppend | App.tsx:111 | deletion keeps the survivors in their original order |
| App.WithoutAbsentPreset | App.tsx:111 | deleting an id no preset has changes nothing |
| App.WithoutPresetIdempotent | App.tsx:111 | deleting twice is deleting once |
| App.WithInstrument | App.tsx:124-129 | the committed song equals the current one except for the one track's instrument |
| App.WithInstrumentConsistent | App.tsx:121-132 | an instrument of the track's own category keeps every track consistent with its role |
| App.WithInstrumentRestores | App.tsx:124-129 | putting the old instrument back restores the song |
| App.Studio.CanUndo | App.tsx:192 | undo is offered exactly when the index is above 0 |
| App.Studio.CanRedo | App.tsx:193 | redo is offered exactly when the index is below the last position |
| App.Studio.constructor | App.tsx:14-25 | empty inputs, Female voice, history `[null]` at index 0, no presets, not playing |
| App.Studio.UpdateSong | App.tsx:40-44 | snapshots after the index are discarded, the new one appended and selected; nothing is left to redo |
| App.Studio.Undo | App.tsx:134-139 | steps back and stops playback only when the index is above 0; the history is untouched |
| App.Studio.Redo | App.tsx:141-146 | steps forward and stops playback only when a later snapshot exists; the history is untouched |
| App.Studio.ChangeInstrument | App.tsx:121-132 | commits the song with one instrument replaced, or leaves the history untouched without a song or such a track |
| App.Studio.SelectStylePreset | App.tsx:74-76 | a style preset only sets the prompt |
| App.Studio.SavePreset | App.tsx:78-92 | appends exactly one preset capturing the song and inputs, or nothing without a song |
| App.Studio.DeletePreset | App.tsx:110-112 | the list becomes the presets whose id differs |
| App.Studio.LoadPreset | App.tsx:101-108 | inputs restored, history `[song]` at index 0, playback stopped |
| App.Studio.GenerateWith | App.tsx:46-65 | history reset and playback stopped; on a settled song the song is the whole history and fills the lyrics box when the handler's lyrics were empty and the song has lyrics; on failure the history stays `[null]` |
| App.Studio.Generate | App.tsx:46-65 | the Generate button sends the lyrics box as it is and awaits `generateSong` as written: the result is the corrected generation's when no role is a prototype name, and otherwise a failure that leaves the history `[null]` |
| App.Studio.SurpriseMeAsWritten | App.tsx:67-72 | as written, the old lyrics are sent and the reply goes through `generateSong` as written; playback stops and the history is reset to `[null]`, then to the new song on success; the cleared box gets the generated lyrics only when the old lyrics were empty, and otherwise stays empty |
| App.Studio.SurpriseMe | App.tsx:67-72 | with the cleared lyrics, original lyrics are asked for and the reply goes through the corrected generation; playback stops, the history becomes `[song]` or `[null]`, and a successful reply fills the box |
| App.StaleLyricsCounterexample | App.tsx:67-72 | with "la la" in the box, the as-written request quotes it and does not ask for original lyrics |
| App.SwapUndoRedo | App.tsx:121-146 | swap, undo, redo ends on the swapped song |
| App.SaveThenLoad | App.tsx:78-108 | saving then loading the new preset restores the song as the only snapshot and keeps the inputs |
| Timeline.JsRound | components/Timeline.tsx:47 | `Math.round` gives the integer within half a unit, halves rounded up |
| Timeline.StartStep | components/Timeline.tsx:47 | the start step is `time * 16` rounded, within [0,16] for a time in [0,1] |
| Timeline.DurationSteps | components/Timeline.tsx:48 | a note covers its rounded length in steps, never less than one |
| Timeline.StepDurationMs | components/Timeline.tsx:29 | the step interval is positive |
| Timeline.StepsMakeABar | components/Timeline.tsx:20-29 | sixteen step intervals last exactly one scheduler bar |
| Timeline.RoleColor | components/Timeline.tsx:52 | a listed role gets its own colour class, a role named after an `Object.prototype` member gets that inherited member instead of a class, and every other role is drawn gray |
| Timeline.EveryCategoryHasColour | components/Timeline.tsx:11-18 | no category is drawn gray |
| Timeline.Playhead.Visible | components/Timeline.tsx:61 | the playhead is drawn exactly while it is playing |
| Timeline.Playhead.constructor | components/Timeline.tsx:23 | the playhead starts hidden at -1 |
| Timeline.Playhead.Sync | components/Timeline.tsx:25-38 | play starts at step 0 and ticks; stop hides it at -1 |
| Timeline.Playhead.Advance | components/Timeline.tsx:31-33 | one tick moves to the next step and wraps after 15 |
| Timeline.PlayFor | components/Timeline.tsx:30-32 | after `n` ticks from play the playhead is at `n mod 16` |
| SongPlayer.PlaybackClock.constructor | components/SongPlayer.tsx:17 | the clock starts at 0, stopped |
| SongPlayer.PlaybackClock.Sync | components/SongPlayer.tsx:19-43 | play restarts from 0 only at or after the end; stop resets to 0 |
| SongPlayer.PlaybackClock.Tick | components/SongPlayer.tsx:27-37 | adds 0.1 s, or clamps to exactly 30 and stops; the clock never exceeds 30 |
| SongPlayer.PlayTicks | components/SongPlayer.tsx:19-43 | `n` ticks from the start inside the song put the clock at `n` tenths |
| SongPlayer.Progress | components/SongPlayer.tsx:45 | progress lies in [0,100], 0 exactly at the start and 100 exactly at the end |
| SongPlayer.JsRemainder60 | components/SongPlayer.tsx:49 | `x % 60` takes the sign of `x` and agrees with the floored remainder for `x >= 0` |
| SongPlayer.ClockSplit | components/SongPlayer.tsx:47-51 | whole minutes and whole seconds in [0,60) add up to the whole seconds elapsed |
| SongPlayer.TwoDigitSeconds | components/SongPlayer.tsx:49 | seconds are written as exactly two digits that read back as the seconds |
| SongPlayer.FormatTimeSplits | components/SongPlayer.tsx:47-51 | the display is minutes, a colon and two-digit seconds, together the whole seconds elapsed |
| SongPlayer.FormatTime | components/SongPlayer.tsx:47-51 | `formatTime`: FormatTimeSplits states that the text is the minutes, a colon and two-digit seconds that together make the whole seconds elapsed |
| TrackControls.AvailableInstruments | components/Track.tsx:23 | the selector lists the three instruments of the current instrument's category |
| TrackControls.SelectOptions | components/Track.tsx:44-46 | the options are the available names in library order |
| TrackControls.SelectInstrument | components/Track.tsx:25-30 | a name not offered triggers nothing; an offered one hands over the library instrument of that name, of the same category |
| TrackControls.CurrentIsOffered | components/Track.tsx:39-46 | the current library instrument is one of the options |
| TrackControls.PickingAnOption | components/Track.tsx:25-30 | picking the option at position `i` hands over exactly the instrument listed there |
| TrackControls.SwapKeepsRole | components/Track.tsx:25-30 | a swap through the selector keeps the track consistent with its role |

## Left out

- Web Audio objects (contexts, oscillators, gain, filter and buffer nodes, wiring to the destination) are not modelled. Each renderer is modelled as the calls it issues, and a scheduler pass as the renderer calls it makes.
- Timers and React effects are not modelled. Each interval callback is one method call (`Scheduler.Tick`, `Playhead.Advance`, `PlaybackClock.Tick`). Effect cleanup is the clearing of `ticking` at the start of each `Sync`.
- `resume` and `suspend` are asynchronous; the model applies them at once.
- AudioEngine.Scheduler.Tick: Web Audio's exceptions on negative or non-finite times (`setValueAtTime`, the ramps, `start`, `stop`) are not modelled. In the code such a throw inside the note loop skips the cursor advance, so the cursor stays put and earlier notes of the bar are issued again on every tick; the model's tick always completes and always moves the cursor past `now + 0.1`. Notes with a negative `time` or a non-finite start fall under this.
- IEEE floating point is not modelled: times are exact reals, so rounding does not accumulate. The model requires `tempo > 0`. In the code a tempo of 0 makes the bar `Infinity`, so the first note that reaches a renderer gets a non-finite time and the call throws. A negative tempo makes a note's start negative, and the call throws. The loop spins forever only when no note reaches a renderer.
- Note pitches are integers; fractional MIDI numbers are not modelled.
- Synths.MidiToFreq: the semitone ratios inside an octave are six-decimal approximations of `2^(k/12)`. Only the octave structure is exact; `Math.pow` in general is not modelled.
- The curve shape of exponential ramps is not modelled; only their targets are.
- The values of `Math.random` draws are inputs in [0,1). Only the buffer length and the sample range are modelled.
- AudioEngine.Dispatch: takes the preset table as a parameter. The library lemmas apply it to `SynthPresets`.
- The `player === playDrumNote` identity test is not modelled: every noise preset in the table holds that player.
- The `if (!song) return` inside `playNote` is not modelled, because the tick already checks for a song.
- The Gemini client, its API key check, the network call and `JSON.parse` are outside the model. The parsed reply is an input; `None` stands for a failed call or parse.
- `JSON.stringify` of the library into the prompt is outside the model: `libraryJson` is a parameter.
- Generation.BuildPrompt: the prompt is modelled as a list of sections. `PromptText` joins their fixed texts, but the proved properties are about the sections.
- Generation.GenerateSong: the reply's genre, mood and tempo are assumed present and well typed. A non-string title, non-array tracks and extra spread fields are not modelled.
- localStorage loading and saving of presets, and its error messages, are not modelled.
- App.Studio.SavePreset: the `Date.now()` id is passed in as `id`.
- The loading and error flags around generation are not modelled. The error text is always the fixed failure message.
- TrackControls.AvailableInstruments: the `|| []` fallback is not modelled, because an instrument's category is always one of the six and so always has a list.
- UI files and rendering are not modelled. This covers the prompt, lyrics, header, preset-manager and controls components, JSX, CSS classes, note positions and opacity in the grid, and the export stub.
- TrackData ids are strings; the `string | number` union is not modelled.

## Findings

| source | as written | input that shows it | evidently intended | confidence | as-written member | corrected member |
|---|---|---|---|---|---|---|
| services/geminiService.ts:90-97 | `INSTRUMENT_LIBRARY[category]` with a role such as "constructor" or "toString" finds a member inherited from `Object.prototype`. That member is truthy, so it passes the `!validInstruments` guard, and `validInstruments.find` throws a TypeError. The catch turns this into a failure of the whole generation. | a reply whose tracks are a "Drums" track and a "constructor" track, with a title and lyrics | skip the track with the unknown role, as the warning says, and return a one-track song | high; not executed | Generation.GenerateSongAsWritten, Generation.ConstructorRoleCounterexample | Generation.GenerateSong |
| App.tsx:67-72 | `handleSurpriseMe` clears the lyrics box but calls the `handleGenerate` created before the clear. That handler still holds the old lyrics, so they are sent to the model. Its `!lyrics` test then also refuses to copy the generated lyrics into the now empty box. | lyrics box holding "la la", then "Surprise me" | generate with empty lyrics (ask for original lyrics) and show the generated lyrics in the box | medium; not executed | App.Studio.SurpriseMeAsWritten, App.StaleLyricsCounterexample | App.Studio.SurpriseMe |
