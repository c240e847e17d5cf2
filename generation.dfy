/**
 * Turning the language model's reply into a song (services/geminiService.ts).
 *
 * The network call and `JSON.parse` are outside the model: the parsed reply
 * is an input, `None` when the call or the parse failed.
 */
module Generation {
  import opened Wrappers
  import opened Types
  import opened Text
  import Library

  /** One track as the reply gives it: any role string, and fields that may be absent. */
  datatype RawTrack = RawTrack(role: string, instrumentName: Option<string>, pattern: Option<seq<Note>>)

  /** The parsed reply; `title`, `lyrics` and `tracks` may be absent. */
  datatype RawSong = RawSong(title: Option<string>, genre: string, mood: string, lyrics: Option<string>,
                             tempo: real, tracks: Option<seq<RawTrack>>)

  /** The one message every failure is reported with. */
  const GenerationFailed: string :=
    "Failed to generate song. The AI model might be busy or the prompt could be too complex. Please try again."

  /** A track id: the raw role, a dash, and the track's position in the reply. */
  function TrackId(role: string, index: nat): (id: string)
    ensures |id| > |role| + 1 && id[..|role| + 1] == role + "-"
    ensures AllDigits(id[|role| + 1..]) && DigitsValue(id[|role| + 1..]) == index
  {
    NatToStringRoundTrip(index);
    var id := role + "-" + NatToString(index);
    assert id[|role| + 1..] == NatToString(index);
    id
  }

  /** The track at position `index` of the reply, or nothing when its role names no category. */
  function ConvertTrack(raw: RawTrack, index: nat): (r: Option<TrackData>)
    ensures r.Some? <==> ParseCategory(raw.role).Some?
    ensures r.Some? ==> && r.value.role == ParseCategory(raw.role).value
                        && r.value.id == TrackId(raw.role, index)
                        && r.value.pattern == raw.pattern.GetOr([])
                        && r.value.Consistent()
                        && r.value.instrument in Library.Instruments(r.value.role)
    // the named instrument when the role's list has it, the list's first entry otherwise
    ensures r.Some? ==>
              var list := Library.Instruments(r.value.role);
              if raw.instrumentName.Some? && Library.FindByName(list, raw.instrumentName.value).Some?
              then r.value.instrument.name == raw.instrumentName.value
              else r.value.instrument == Library.DefaultInstrument(r.value.role)
  {
    match Library.LookupRole(raw.role)
    case None => None
    case Some(list) =>
      var category := ParseCategory(raw.role).value;
      var found := if raw.instrumentName.Some? then Library.FindByName(list, raw.instrumentName.value) else None;
      var instrument := if found.Some? then found.value else list[0];
      Some(TrackData(TrackId(raw.role, index), category, instrument, raw.pattern.GetOr([])))
  }

  /** Whether a raw track survives normalisation. */
  predicate Survives(raw: RawTrack) {
    ParseCategory(raw.role).Some?
  }

  /** `filter(Boolean)` over the mapped tracks: the present values, in order. */
  function Present<T>(opts: seq<Option<T>>): (r: seq<T>)
    ensures |r| <= |opts|
    decreases |opts|
  {
    if |opts| == 0 then []
    else (if opts[0].Some? then [opts[0].value] else []) + Present(opts[1..])
  }

  /** Filtering distributes over concatenation: the order of what is kept is the order of the input. */
  lemma {:induction false} PresentAppend<T>(a: seq<Option<T>>, b: seq<Option<T>>)
    ensures Present(a + b) == Present(a) + Present(b)
    decreases |a|
  {
    if |a| == 0 {
      assert a + b == b;
    } else {
      assert (a + b)[1..] == a[1..] + b;
      assert (a + b)[0] == a[0];
      PresentAppend(a[1..], b);
    }
  }

  /** Every present value is kept. */
  lemma {:induction false} PresentKeeps<T>(opts: seq<Option<T>>, i: nat)
    requires i < |opts| && opts[i].Some?
    ensures opts[i].value in Present(opts)
    decreases |opts|
  {
    if i > 0 {
      assert opts[1..][i - 1] == opts[i];
      PresentKeeps(opts[1..], i - 1);
    }
  }

  /** Nothing but the present values is kept. */
  lemma {:induction false} PresentOnly<T>(opts: seq<Option<T>>, x: T)
    requires x in Present(opts)
    ensures exists i :: 0 <= i < |opts| && opts[i] == Some(x)
    decreases |opts|
  {
    if opts[0] != Some(x) {
      PresentOnly(opts[1..], x);
      var j :| 0 <= j < |opts[1..]| && opts[1..][j] == Some(x);
      assert opts[j + 1] == Some(x);
    }
  }

  /** Nothing is kept exactly when nothing is present. */
  lemma {:induction false} PresentEmpty<T>(opts: seq<Option<T>>)
    ensures Present(opts) == [] <==> forall i :: 0 <= i < |opts| ==> opts[i].None?
    decreases |opts|
  {
    if |opts| > 0 {
      PresentEmpty(opts[1..]);
      assert forall i :: 1 <= i < |opts| ==> opts[1..][i - 1] == opts[i];
    }
  }

  /** The `map` over the reply's tracks, the first of them at position `base`. */
  function ConvertAll(raws: seq<RawTrack>, base: nat): (r: seq<Option<TrackData>>)
    ensures |r| == |raws|
  {
    seq(|raws|, i requires 0 <= i < |raws| => ConvertTrack(raws[i], base + i))
  }

  /** Entry `i` of the map is the conversion of raw track `i`, numbered `base + i`. */
  lemma ConvertAllAt(raws: seq<RawTrack>, base: nat, i: nat)
    requires i < |raws|
    ensures ConvertAll(raws, base)[i] == ConvertTrack(raws[i], base + i)
  {
  }

  /** The normalised tracks of a reply: converted in reply order, unknown roles dropped. */
  function Normalise(raws: seq<RawTrack>): seq<TrackData> {
    Present(ConvertAll(raws, 0))
  }

  /** Every normalised track is the conversion of the raw track at its own position, so it is well formed. */
  lemma NormaliseOnly(raws: seq<RawTrack>, t: TrackData)
    requires t in Normalise(raws)
    ensures exists i :: 0 <= i < |raws| && ConvertTrack(raws[i], i) == Some(t)
    ensures t.Consistent() && t.instrument in Library.Instruments(t.role)
  {
    PresentOnly(ConvertAll(raws, 0), t);
    var i :| 0 <= i < |raws| && ConvertAll(raws, 0)[i] == Some(t);
    ConvertAllAt(raws, 0, i);
  }

  /** Every surviving raw track is kept, under the id of its own position in the reply. */
  lemma NormaliseKeeps(raws: seq<RawTrack>, i: nat)
    requires i < |raws| && Survives(raws[i])
    ensures ConvertTrack(raws[i], i).value in Normalise(raws)
  {
    ConvertAllAt(raws, 0, i);
    PresentKeeps(ConvertAll(raws, 0), i);
  }

  /** Nothing survives exactly when no raw track has a known role. */
  lemma NormaliseEmpty(raws: seq<RawTrack>)
    ensures Normalise(raws) == [] <==> forall i :: 0 <= i < |raws| ==> !Survives(raws[i])
  {
    PresentEmpty(ConvertAll(raws, 0));
    forall i | 0 <= i < |raws| ensures ConvertAll(raws, 0)[i].None? <==> !Survives(raws[i]) {
      ConvertAllAt(raws, 0, i);
    }
  }

  /** Normalising a concatenation normalises each part, the second numbered on from the first: order is kept. */
  lemma NormaliseAppend(a: seq<RawTrack>, b: seq<RawTrack>)
    ensures Normalise(a + b) == Present(ConvertAll(a, 0)) + Present(ConvertAll(b, |a|))
  {
    assert ConvertAll(a + b, 0) == ConvertAll(a, 0) + ConvertAll(b, |a|);
    PresentAppend(ConvertAll(a, 0), ConvertAll(b, |a|));
  }

  /** `generateSong` after the call: normalise, validate, and report every failure with one message. */
  function GenerateSong(reply: Option<RawSong>): (r: Result<Song, string>)
    ensures r.Err? ==> r.error == GenerationFailed
    ensures r.Ok? <==> && reply.Some?
                       && reply.value.title.Some? && reply.value.title.value != ""
                       && reply.value.lyrics.Some? && reply.value.lyrics.value != ""
                       && exists i :: 0 <= i < |reply.value.tracks.GetOr([])| && Survives(reply.value.tracks.GetOr([])[i])
    ensures r.Ok? ==> && r.value.title == reply.value.title.value
                      && r.value.lyrics == reply.value.lyrics.value
                      && r.value.genre == reply.value.genre && r.value.mood == reply.value.mood
                      && r.value.tempo == reply.value.tempo
                      && r.value.tracks == Normalise(reply.value.tracks.GetOr([]))
                      && |r.value.tracks| > 0
  {
    match reply
    case None => Err(GenerationFailed)
    case Some(raw) =>
      var tracks := Normalise(raw.tracks.GetOr([]));
      NormaliseEmpty(raw.tracks.GetOr([]));
      if raw.title.None? || raw.title.value == "" || raw.lyrics.None? || raw.lyrics.value == "" || |tracks| == 0
      then Err(GenerationFailed)
      else Ok(Song(raw.title.value, raw.genre, raw.mood, raw.lyrics.value, raw.tempo, tracks))
  }

  // ---------------------------------------------------------------- prompt assembly

  /**
   * The sections `fullPrompt` is assembled from. Their wording is fixed by
   * `PartText`; the model reasons about which sections appear, in what order.
   */
  datatype PromptPart =
    | Description(prompt: string)
    | VocalStyleLine(style: VocalStyle)
    | ArrangementInstructions
    | LibraryListing(libraryJson: string)
    | UserLyrics(lyrics: string)
    | WriteOriginalLyrics
    | ReturnJsonOnly

  function PartText(part: PromptPart): string {
    match part
    case Description(prompt) =>
      "Generate a complete song based on the following description: \"" + prompt + "\".\n\n"
    case VocalStyleLine(style) =>
      "The desired vocal style is: " + VocalStyleName(style) + " voice.\n\n"
    case ArrangementInstructions =>
      "The song should include: a title, genre, mood, tempo (in BPM), full lyrics, and a musical arrangement for one bar (16 steps).\n\n"
      + "The arrangement should consist of several tracks (e.g., Drums, Bass, Chords, Lead).\n"
      + "For each track, specify its role, a suitable instrument name, and a pattern of notes.\n"
      + "A note is defined by its start time (from 0 to 1), duration (from 0 to 1), pitch (MIDI number), and velocity (from 0 to 1).\n\n"
      + "For drum tracks, use MIDI numbers 36 for kick, 38 for snare, and 42 for hi-hat.\n\n"
    case LibraryListing(libraryJson) =>
      "Please choose appropriate instruments from the following library:\n" + libraryJson + "\n\n"
    case UserLyrics(lyrics) =>
      "Use the following lyrics for the song. Structure the song around them, creating a title, genre, mood, and musical arrangement that fit the lyrical content:\n\n---\n"
      + lyrics + "\n---\n\n"
    case WriteOriginalLyrics =>
      "Write original lyrics for the song based on the prompt. The lyrics should be complete, with a clear structure (e.g., verses, chorus).\n\n"
    case ReturnJsonOnly =>
      "Return only the JSON object matching the defined schema."
  }

  /** The prompt string: the sections' texts one after another. */
  function PromptText(parts: seq<PromptPart>): string
    decreases |parts|
  {
    if |parts| == 0 then "" else PromptText(parts[..|parts| - 1]) + PartText(parts[|parts| - 1])
  }

  /**
   * `fullPrompt`: the user's lyrics are quoted when they are not blank,
   * otherwise original lyrics are asked for; everything else is fixed.
   * `libraryJson` is the serialised instrument library.
   */
  function BuildPrompt(prompt: string, vocalStyle: VocalStyle, lyrics: string, libraryJson: string): (r: seq<PromptPart>)
    ensures |r| == 6
    ensures r[..4] == [Description(prompt), VocalStyleLine(vocalStyle), ArrangementInstructions, LibraryListing(libraryJson)]
    ensures r[5] == ReturnJsonOnly
    ensures UserLyrics(lyrics) in r <==> !Blank(lyrics)
    ensures WriteOriginalLyrics in r <==> Blank(lyrics)
    ensures forall l :: UserLyrics(l) in r ==> l == lyrics
  {
    [Description(prompt), VocalStyleLine(vocalStyle), ArrangementInstructions, LibraryListing(libraryJson),
     if Blank(lyrics) then WriteOriginalLyrics else UserLyrics(lyrics),
     ReturnJsonOnly]
  }

  /** Whitespace-only lyrics give the same prompt as no lyrics at all, and other lyrics a different one. */
  lemma BlankLyricsIgnored(prompt: string, vocalStyle: VocalStyle, lyrics: string, libraryJson: string)
    ensures BuildPrompt(prompt, vocalStyle, lyrics, libraryJson) == BuildPrompt(prompt, vocalStyle, "", libraryJson)
            <==> Blank(lyrics)
  {
    if !Blank(lyrics) {
      assert BuildPrompt(prompt, vocalStyle, lyrics, libraryJson)[4] != BuildPrompt(prompt, vocalStyle, "", libraryJson)[4];
    }
  }

  // ---------------------------------------------------------------- the library lookup as written

  /**
   * The names `Object.prototype` provides. Indexing the library object with
   * one of them yields an inherited function (or the prototype itself),
   * which is truthy but has no `find` method.
   */
  const ObjectPrototypeKeys: set<string> := {
    "constructor", "__proto__", "hasOwnProperty", "isPrototypeOf", "propertyIsEnumerable",
    "toString", "toLocaleString", "valueOf",
    "__defineGetter__", "__defineSetter__", "__lookupGetter__", "__lookupSetter__"
  }

  /** What `INSTRUMENT_LIBRARY[role]` evaluates to on a plain JavaScript object. */
  datatype LibraryEntry = Missing | Listed(list: seq<Instrument>) | Inherited

  function LibraryIndex(role: string): (r: LibraryEntry)
    ensures r.Listed? <==> ParseCategory(role).Some?
    ensures r.Inherited? <==> role in ObjectPrototypeKeys
  {
    match Library.LookupRole(role)
    case Some(list) => Listed(list)
    case None => if role in ObjectPrototypeKeys then Inherited else Missing
  }

  /**
   * The track conversion as written: an inherited entry passes the
   * `!validInstruments` guard and calling its `find` throws.
   */
  function ConvertTrackAsWritten(raw: RawTrack, index: nat): (r: Result<Option<TrackData>, string>)
    ensures r.Err? <==> raw.role in ObjectPrototypeKeys
    ensures r.Ok? ==> r.value == ConvertTrack(raw, index)
  {
    match LibraryIndex(raw.role)
    case Missing => Ok(None)
    case Inherited => Err("validInstruments.find is not a function")
    case Listed(_) => Ok(ConvertTrack(raw, index))
  }

  function NormaliseFromAsWritten(raws: seq<RawTrack>, base: nat): (r: Result<seq<TrackData>, string>)
    decreases |raws|
  {
    if |raws| == 0 then Ok([])
    else match ConvertTrackAsWritten(raws[0], base)
      case Err(e) => Err(e)
      case Ok(head) =>
        match NormaliseFromAsWritten(raws[1..], base + 1)
        case Err(e) => Err(e)
        case Ok(tail) => Ok(if head.Some? then [head.value] + tail else tail)
  }

  /** `generateSong` as written: a thrown conversion error is caught and reported like any failure. */
  function GenerateSongAsWritten(reply: Option<RawSong>): (r: Result<Song, string>)
    ensures r.Err? ==> r.error == GenerationFailed
    ensures r.Ok? ==> r.value.title != "" && r.value.lyrics != "" && |r.value.tracks| > 0
  {
    match reply
    case None => Err(GenerationFailed)
    case Some(raw) =>
      match NormaliseFromAsWritten(raw.tracks.GetOr([]), 0)
      case Err(_) => Err(GenerationFailed)
      case Ok(tracks) =>
        if raw.title.None? || raw.title.value == "" || raw.lyrics.None? || raw.lyrics.value == "" || |tracks| == 0
        then Err(GenerationFailed)
        else Ok(Song(raw.title.value, raw.genre, raw.mood, raw.lyrics.value, raw.tempo, tracks))
  }

  /** Without prototype names among the roles, the code as written and the corrected model agree. */
  lemma {:induction false} AsWrittenAgrees(raws: seq<RawTrack>, base: nat)
    requires forall i :: 0 <= i < |raws| ==> raws[i].role !in ObjectPrototypeKeys
    ensures NormaliseFromAsWritten(raws, base) == Ok(Present(ConvertAll(raws, base)))
    decreases |raws|
  {
    if |raws| > 0 {
      var all := ConvertAll(raws, base);
      var tail := Present(all[1..]);
      assert raws[0].role !in ObjectPrototypeKeys;
      assert forall i :: 0 <= i < |raws[1..]| ==> raws[1..][i] == raws[i + 1];
      AsWrittenAgrees(raws[1..], base + 1);
      assert all[1..] == ConvertAll(raws[1..], base + 1);
      ConvertAllAt(raws, base, 0);
      var head := ConvertTrackAsWritten(raws[0], base);
      assert head == Ok(all[0]);
      assert Present(all) == (if all[0].Some? then [all[0].value] else []) + tail;
      assert [] + tail == tail;
    }
  }

  /** No raw track of the reply has a role named after an inherited `Object.prototype` member. */
  predicate NoPrototypeRoles(reply: Option<RawSong>) {
    reply.Some? ==> forall i :: 0 <= i < |reply.value.tracks.GetOr([])| ==> reply.value.tracks.GetOr([])[i].role !in ObjectPrototypeKeys
  }

  /**
   * `generateSong` as written is the corrected generation on replies
   * without prototype names among the roles, and a failure on all others.
   */
  lemma AsWrittenSong(reply: Option<RawSong>)
    ensures GenerateSongAsWritten(reply) == if NoPrototypeRoles(reply) then GenerateSong(reply) else Err(GenerationFailed)
  {
    if reply.Some? {
      var raws := reply.value.tracks.GetOr([]);
      if NoPrototypeRoles(reply) {
        AsWrittenAgrees(raws, 0);
      } else {
        var k :| 0 <= k < |raws| && raws[k].role in ObjectPrototypeKeys;
        PrototypeRoleFails(raws, 0, k);
      }
    }
  }

  /** With one prototype name among the roles, the code as written fails the whole generation. */
  lemma {:induction false} PrototypeRoleFails(raws: seq<RawTrack>, base: nat, k: nat)
    requires k < |raws| && raws[k].role in ObjectPrototypeKeys
    ensures NormaliseFromAsWritten(raws, base).Err?
    decreases |raws|
  {
    if k == 0 {
      assert ConvertTrackAsWritten(raws[0], base).Err?;
    } else {
      assert raws[1..][k - 1] == raws[k];
      PrototypeRoleFails(raws[1..], base + 1, k - 1);
      match ConvertTrackAsWritten(raws[0], base)
      case Err(_) =>
      case Ok(_) =>
    }
  }

  /**
   * A reply with one good drum track and one track whose role is
   * "constructor": the code as written reports a failure, while dropping
   * the unknown role, as intended, yields a one-track song.
   */
  lemma ConstructorRoleCounterexample()
    ensures var reply := Some(RawSong(Some("T"), "Pop", "Happy", Some("La"), 120.0,
                                      Some([RawTrack("Drums", None, None), RawTrack("constructor", None, None)])));
            && GenerateSongAsWritten(reply) == Err(GenerationFailed)
            && GenerateSong(reply).Ok? && |GenerateSong(reply).value.tracks| == 1
  {
    var raws := [RawTrack("Drums", None, None), RawTrack("constructor", None, None)];
    assert "constructor" in ObjectPrototypeKeys;
    PrototypeRoleFails(raws, 0, 1);
    assert Survives(raws[0]);
    assert !Survives(raws[1]);
    assert raws[1..] == [raws[1]];
    assert raws[1..][1..] == [];
  }
}
