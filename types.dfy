/** The song document and its parts (types.ts). */
module Types {
  import opened Wrappers

  /** `InstrumentCategory`: the closed set of track roles. */
  datatype Category = Drums | Bass | Chords | Lead | Pads | Arp

  datatype Instrument = Instrument(name: string, category: Category)

  /**
   * One note of a one-bar pattern. `time` and `duration` are fractions of
   * the bar, `velocity` a loudness scalar; none is range-checked by the type.
   */
  datatype Note = Note(time: real, duration: real, pitch: int, velocity: real)

  datatype TrackData = TrackData(id: string, role: Category, instrument: Instrument, pattern: seq<Note>) {
    /** The invariant the type does not enforce: the instrument belongs to the track's role. */
    predicate Consistent() {
      instrument.category == role
    }
  }

  datatype Song = Song(title: string, genre: string, mood: string, lyrics: string,
                       tempo: real, tracks: seq<TrackData>)

  datatype VocalStyle = Female | Male

  datatype StylePreset = StylePreset(name: string, prompt: string)

  datatype UserPreset = UserPreset(id: string, name: string, song: Song, prompt: string,
                                   lyrics: string, vocalStyle: VocalStyle)

  /** The string literal each category stands for. */
  function CategoryName(c: Category): string {
    match c
    case Drums => "Drums"
    case Bass => "Bass"
    case Chords => "Chords"
    case Lead => "Lead"
    case Pads => "Pads"
    case Arp => "Arp"
  }

  /** Reads a role string back as a category; anything but the six names is rejected. */
  function ParseCategory(s: string): (r: Option<Category>)
    ensures r.Some? ==> CategoryName(r.value) == s
  {
    if s == "Drums" then Some(Drums)
    else if s == "Bass" then Some(Bass)
    else if s == "Chords" then Some(Chords)
    else if s == "Lead" then Some(Lead)
    else if s == "Pads" then Some(Pads)
    else if s == "Arp" then Some(Arp)
    else None
  }

  /** Every category name parses back to its category, so the names are pairwise distinct. */
  lemma ParseCategoryName(c: Category)
    ensures ParseCategory(CategoryName(c)) == Some(c)
  {
  }

  function VocalStyleName(v: VocalStyle): string {
    match v
    case Female => "Female"
    case Male => "Male"
  }
}
