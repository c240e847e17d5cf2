/**
 * The application state of App.tsx: the undo/redo history of song
 * snapshots, the instrument swap, the saved presets and the generation
 * flow. Each handler is a method of `Studio`.
 */
module App {
  import opened Wrappers
  import opened Types
  import Generation
  import Text

  /** `updatedPresets` of a deletion: the presets whose id differs, in their original order. */
  function WithoutPreset(presets: seq<UserPreset>, id: string): (r: seq<UserPreset>)
    ensures |r| <= |presets|
    ensures forall p :: p in r <==> p in presets && p.id != id
    decreases |presets|
  {
    if |presets| == 0 then []
    else
      var rest := WithoutPreset(presets[..|presets| - 1], id);
      var last := presets[|presets| - 1];
      assert forall p :: p in presets <==> p in presets[..|presets| - 1] || p == last;
      if last.id == id then rest else rest + [last]
  }

  /** Deleting distributes over concatenation, so the survivors keep their relative order. */
  lemma {:induction false} WithoutPresetAppend(a: seq<UserPreset>, b: seq<UserPreset>, id: string)
    ensures WithoutPreset(a + b, id) == WithoutPreset(a, id) + WithoutPreset(b, id)
    decreases |b|
  {
    if |b| == 0 {
      assert a + b == a;
    } else {
      assert (a + b)[..|a + b| - 1] == a + b[..|b| - 1];
      assert (a + b)[|a + b| - 1] == b[|b| - 1];
      WithoutPresetAppend(a, b[..|b| - 1], id);
    }
  }

  /** When no preset has the id, deleting it keeps the list as it is. */
  lemma {:induction false} WithoutAbsentPreset(presets: seq<UserPreset>, id: string)
    requires forall i :: 0 <= i < |presets| ==> presets[i].id != id
    ensures WithoutPreset(presets, id) == presets
    decreases |presets|
  {
    if |presets| > 0 {
      WithoutAbsentPreset(presets[..|presets| - 1], id);
      assert presets[..|presets| - 1] + [presets[|presets| - 1]] == presets;
    }
  }

  /** Deleting twice is deleting once. */
  lemma WithoutPresetIdempotent(presets: seq<UserPreset>, id: string)
    ensures WithoutPreset(WithoutPreset(presets, id), id) == WithoutPreset(presets, id)
  {
    var r := WithoutPreset(presets, id);
    assert forall i :: 0 <= i < |r| ==> r[i] in r;
    WithoutAbsentPreset(r, id);
  }

  /** The song `handleInstrumentChange` commits: track `index` gets `instrument`, nothing else changes. */
  function WithInstrument(song: Song, index: nat, instrument: Instrument): (r: Song)
    requires index < |song.tracks|
    ensures r.(tracks := song.tracks) == song
    ensures |r.tracks| == |song.tracks|
    ensures r.tracks[index] == song.tracks[index].(instrument := instrument)
    ensures forall j :: 0 <= j < |song.tracks| && j != index ==> r.tracks[j] == song.tracks[j]
  {
    song.(tracks := song.tracks[index := song.tracks[index].(instrument := instrument)])
  }

  /** An instrument of the track's own category keeps every track consistent. */
  lemma WithInstrumentConsistent(song: Song, index: nat, instrument: Instrument)
    requires index < |song.tracks|
    requires forall t :: t in song.tracks ==> t.Consistent()
    requires instrument.category == song.tracks[index].role
    ensures forall t :: t in WithInstrument(song, index, instrument).tracks ==> t.Consistent()
  {
    var r := WithInstrument(song, index, instrument);
    forall t | t in r.tracks ensures t.Consistent() {
      var j :| 0 <= j < |r.tracks| && r.tracks[j] == t;
      if j != index {
        assert song.tracks[j] in song.tracks;
      }
    }
  }

  /** Setting back the old instrument restores the song. */
  lemma WithInstrumentRestores(song: Song, index: nat, instrument: Instrument)
    requires index < |song.tracks|
    ensures WithInstrument(WithInstrument(song, index, instrument), index, song.tracks[index].instrument) == song
  {
    var r := WithInstrument(WithInstrument(song, index, instrument), index, song.tracks[index].instrument);
    assert r.tracks == song.tracks;
  }

  /** The prompt the "Surprise me" button fills in. */
  const SurprisePrompt: string :=
    "A completely random, unique, and interesting song. Surprise me with the genre, mood, and subject matter."

  class Studio {
    var prompt: string
    var lyrics: string
    var vocalStyle: VocalStyle
    /** Snapshots of the song; `None` is the empty state before a song exists. */
    var history: seq<Option<Song>>
    var historyIndex: nat
    var presets: seq<UserPreset>
    var isPlaying: bool

    /** The history always has a current entry. */
    predicate Valid()
      reads this
    {
      historyIndex < |history|
    }

    /** `song`: the snapshot under the cursor. */
    function Current(): Option<Song>
      reads this
      requires Valid()
    {
      history[historyIndex]
    }

    /** The undo button is enabled exactly when there is an earlier snapshot. */
    function CanUndo(): (r: bool)
      reads this
      requires Valid()
      ensures r <==> historyIndex > 0
      ensures r ==> historyIndex - 1 < |history|
    {
      historyIndex > 0
    }

    /** The redo button is enabled exactly when there is a later snapshot. */
    function CanRedo(): (r: bool)
      reads this
      requires Valid()
      ensures r <==> historyIndex + 1 < |history|
    {
      historyIndex < |history| - 1
    }

    constructor ()
      ensures Valid() && history == [None] && historyIndex == 0
      ensures prompt == "" && lyrics == "" && vocalStyle == Female && presets == [] && !isPlaying
    {
      prompt := "";
      lyrics := "";
      vocalStyle := Female;
      history := [None];
      historyIndex := 0;
      presets := [];
      isPlaying := false;
    }

    /** `updateSong`: drop every snapshot after the cursor, append the new one and move the cursor onto it. */
    method UpdateSong(song: Option<Song>)
      requires Valid()
      modifies this`history, this`historyIndex
      ensures Valid()
      ensures history == old(history[..historyIndex + 1]) + [song]
      ensures historyIndex == |history| - 1 == old(historyIndex) + 1
      ensures Current() == song && !CanRedo()
    {
      history := history[..historyIndex + 1] + [song];
      historyIndex := |history| - 1;
    }

    /** `handleUndo`: step back and stop playback, or do nothing at the first snapshot. */
    method Undo()
      requires Valid()
      modifies this`historyIndex, this`isPlaying
      ensures Valid() && history == old(history)
      ensures old(historyIndex) > 0 ==> historyIndex == old(historyIndex) - 1 && !isPlaying
      ensures old(historyIndex) == 0 ==> historyIndex == 0 && isPlaying == old(isPlaying)
    {
      if historyIndex > 0 {
        isPlaying := false;
        historyIndex := historyIndex - 1;
      }
    }

    /** `handleRedo`: step forward and stop playback, or do nothing at the last snapshot. */
    method Redo()
      requires Valid()
      modifies this`historyIndex, this`isPlaying
      ensures Valid() && history == old(history)
      ensures old(historyIndex) + 1 < |history| ==> historyIndex == old(historyIndex) + 1 && !isPlaying
      ensures old(historyIndex) + 1 >= |history| ==> historyIndex == old(historyIndex) && isPlaying == old(isPlaying)
    {
      if historyIndex < |history| - 1 {
        isPlaying := false;
        historyIndex := historyIndex + 1;
      }
    }

    /**
     * `handleInstrumentChange`: commit the current song with one track's
     * instrument replaced; without a song or such a track, nothing happens.
     */
    method ChangeInstrument(trackIndex: int, instrument: Instrument)
      requires Valid()
      modifies this`history, this`historyIndex
      ensures Valid()
      ensures old(Current()).Some? && 0 <= trackIndex < |old(Current()).value.tracks| ==>
                && history == old(history[..historyIndex + 1]) + [Some(WithInstrument(old(Current()).value, trackIndex, instrument))]
                && historyIndex == |history| - 1
      ensures !(old(Current()).Some? && 0 <= trackIndex < |old(Current()).value.tracks|) ==>
                history == old(history) && historyIndex == old(historyIndex)
    {
      var song := Current();
      if song.None? {
        return;
      }
      if 0 <= trackIndex < |song.value.tracks| {
        UpdateSong(Some(WithInstrument(song.value, trackIndex, instrument)));
      }
    }

    /** `handleSelectPreset`: a style preset only fills in the prompt. */
    method SelectStylePreset(preset: StylePreset)
      modifies this`prompt
      ensures prompt == preset.prompt
    {
      prompt := preset.prompt;
    }

    /**
     * `handleSavePreset`: append one preset capturing the current song and
     * inputs, or do nothing without a song. `id` is the clock reading the
     * source uses as id.
     */
    method SavePreset(name: string, id: string)
      requires Valid()
      modifies this`presets
      ensures Current().None? ==> presets == old(presets)
      ensures Current().Some? ==>
                presets == old(presets) + [UserPreset(id, name, Current().value, prompt, lyrics, vocalStyle)]
    {
      var song := Current();
      if song.None? {
        return;
      }
      presets := presets + [UserPreset(id, name, song.value, prompt, lyrics, vocalStyle)];
    }

    /** `handleDeletePreset`. */
    method DeletePreset(id: string)
      modifies this`presets
      ensures presets == WithoutPreset(old(presets), id)
    {
      presets := WithoutPreset(presets, id);
    }

    /** `handleLoadPreset`: restore the inputs and make the preset's song the whole history. */
    method LoadPreset(preset: UserPreset)
      modifies this`prompt, this`lyrics, this`vocalStyle, this`history, this`historyIndex, this`isPlaying
      ensures Valid() && history == [Some(preset.song)] && historyIndex == 0 && !isPlaying
      ensures prompt == preset.prompt && lyrics == preset.lyrics && vocalStyle == preset.vocalStyle
    {
      prompt := preset.prompt;
      lyrics := preset.lyrics;
      vocalStyle := preset.vocalStyle;
      history := [Some(preset.song)];
      historyIndex := 0;
      isPlaying := false;
    }

    /**
     * `handleGenerate` from the request to the settled state. The request
     * is built from `requestLyrics`, the lyrics the handler was created
     * with; `outcome` is what the awaited service call settled to. The
     * history is first reset to the empty state and playback stopped; on
     * success the new song becomes the whole history, and it fills the
     * lyrics box when the handler's lyrics were empty and the song has some.
     */
    method GenerateWith(currentPrompt: string, requestLyrics: string, libraryJson: string, outcome: Result<Song, string>)
      returns (request: seq<Generation.PromptPart>)
      modifies this`history, this`historyIndex, this`isPlaying, this`lyrics
      ensures Valid() && historyIndex == 0 && !isPlaying
      ensures request == Generation.BuildPrompt(currentPrompt, vocalStyle, requestLyrics, libraryJson)
      ensures outcome.Err? ==> history == [None] && lyrics == old(lyrics)
      ensures outcome.Ok? ==> history == [Some(outcome.value)]
      ensures outcome.Ok? ==> lyrics == if requestLyrics == "" && outcome.value.lyrics != "" then outcome.value.lyrics else old(lyrics)
    {
      history := [None];
      historyIndex := 0;
      isPlaying := false;
      request := Generation.BuildPrompt(currentPrompt, vocalStyle, requestLyrics, libraryJson);
      if outcome.Ok? {
        history := [Some(outcome.value)];
        historyIndex := 0;
        if requestLyrics == "" && outcome.value.lyrics != "" {
          lyrics := outcome.value.lyrics;
        }
      }
    }

    /**
     * The Generate button as written: the handler sees the lyrics box as it
     * is and awaits `generateSong` as written, so a prototype-named role
     * leaves the history empty.
     */
    method Generate(reply: Option<Generation.RawSong>, libraryJson: string)
      returns (request: seq<Generation.PromptPart>, result: Result<Song, string>)
      modifies this`history, this`historyIndex, this`isPlaying, this`lyrics
      ensures Valid() && historyIndex == 0 && !isPlaying
      ensures request == Generation.BuildPrompt(prompt, vocalStyle, old(lyrics), libraryJson)
      ensures result == Generation.GenerateSongAsWritten(reply)
      ensures Generation.NoPrototypeRoles(reply) ==> result == Generation.GenerateSong(reply)
      ensures !Generation.NoPrototypeRoles(reply) ==> result.Err? && history == [None]
      ensures result.Ok? ==> history == [Some(result.value)]
                             && lyrics == if old(lyrics) == "" then result.value.lyrics else old(lyrics)
      ensures result.Err? ==> history == [None] && lyrics == old(lyrics)
    {
      result := Generation.GenerateSongAsWritten(reply);
      Generation.AsWrittenSong(reply);
      request := GenerateWith(prompt, lyrics, libraryJson, result);
    }

    /**
     * `handleSurpriseMe` as written: it clears the prompt and lyrics boxes
     * but calls the handler created before that, which still holds the old
     * lyrics, so the old lyrics are sent and the generated ones are not
     * copied into the now empty box. The handler awaits `generateSong` as
     * written.
     */
    method SurpriseMeAsWritten(reply: Option<Generation.RawSong>, libraryJson: string)
      returns (request: seq<Generation.PromptPart>, result: Result<Song, string>)
      modifies this`prompt, this`history, this`historyIndex, this`isPlaying, this`lyrics
      ensures Valid() && prompt == SurprisePrompt
      ensures request == Generation.BuildPrompt(SurprisePrompt, vocalStyle, old(lyrics), libraryJson)
      ensures historyIndex == 0 && !isPlaying
      ensures result == Generation.GenerateSongAsWritten(reply)
      ensures result.Ok? ==> history == [Some(result.value)]
      ensures result.Ok? ==> lyrics == (if old(lyrics) == "" && result.value.lyrics != "" then result.value.lyrics else "")
      ensures result.Err? ==> history == [None] && lyrics == ""
    {
      var staleLyrics := lyrics;
      prompt := SurprisePrompt;
      lyrics := "";
      result := Generation.GenerateSongAsWritten(reply);
      request := GenerateWith(SurprisePrompt, staleLyrics, libraryJson, result);
    }

    /**
     * `handleSurpriseMe` as intended: the request is made with the cleared
     * lyrics, and the reply is normalised by the corrected `generateSong`.
     */
    method SurpriseMe(reply: Option<Generation.RawSong>, libraryJson: string)
      returns (request: seq<Generation.PromptPart>, result: Result<Song, string>)
      modifies this`prompt, this`history, this`historyIndex, this`isPlaying, this`lyrics
      ensures Valid() && prompt == SurprisePrompt
      ensures request == Generation.BuildPrompt(SurprisePrompt, vocalStyle, "", libraryJson)
      ensures Generation.WriteOriginalLyrics in request
      ensures historyIndex == 0 && !isPlaying
      ensures result == Generation.GenerateSong(reply)
      ensures result.Ok? ==> history == [Some(result.value)] && lyrics == result.value.lyrics
      ensures result.Err? ==> history == [None] && lyrics == ""
    {
      prompt := SurprisePrompt;
      lyrics := "";
      result := Generation.GenerateSong(reply);
      request := GenerateWith(SurprisePrompt, "", libraryJson, result);
    }
  }

  /**
   * With lyrics in the box, "Surprise me" as written asks the model to use
   * them although the box was just cleared.
   */
  lemma StaleLyricsCounterexample(vocalStyle: VocalStyle, libraryJson: string)
    ensures Generation.UserLyrics("la la") in Generation.BuildPrompt(SurprisePrompt, vocalStyle, "la la", libraryJson)
    ensures Generation.WriteOriginalLyrics !in Generation.BuildPrompt(SurprisePrompt, vocalStyle, "la la", libraryJson)
  {
    assert !Text.Blank("la la") by {
      assert !Text.IsWhitespace("la la"[0]);
    }
  }

  // ---------------------------------------------------------------- scenarios over several handlers

  /** Swapping an instrument, undoing and redoing returns to the swapped song; undo shows the original. */
  method SwapUndoRedo(studio: Studio, trackIndex: nat, instrument: Instrument)
    requires studio.Valid() && studio.Current().Some? && trackIndex < |studio.Current().value.tracks|
    modifies studio
    ensures studio.Valid()
    ensures studio.Current() == Some(WithInstrument(old(studio.Current()).value, trackIndex, instrument))
  {
    ghost var before := studio.Current().value;
    studio.ChangeInstrument(trackIndex, instrument);
    assert studio.Current() == Some(WithInstrument(before, trackIndex, instrument));
    studio.Undo();
    assert studio.Current() == Some(before);
    studio.Redo();
  }

  /** Saving and then loading the saved preset restores the song as the only snapshot, and the inputs. */
  method SaveThenLoad(studio: Studio, name: string, id: string)
    requires studio.Valid() && studio.Current().Some?
    modifies studio
    ensures studio.Valid() && studio.history == [old(studio.Current())] && studio.historyIndex == 0
    ensures studio.prompt == old(studio.prompt) && studio.lyrics == old(studio.lyrics)
    ensures studio.vocalStyle == old(studio.vocalStyle)
    ensures studio.presets == old(studio.presets)
              + [UserPreset(id, name, old(studio.Current()).value, old(studio.prompt), old(studio.lyrics), old(studio.vocalStyle))]
  {
    studio.SavePreset(name, id);
    var saved := studio.presets[|studio.presets| - 1];
    studio.LoadPreset(saved);
  }
}
