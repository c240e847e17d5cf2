/** The static instrument library and style presets (constants.ts). */
module Library {
  import opened Wrappers
  import opened Types

  /** The keys of `INSTRUMENT_LIBRARY`, in declaration order. */
  const Categories: seq<Category> := [Drums, Bass, Chords, Lead, Pads, Arp]

  /** `INSTRUMENT_LIBRARY[c]`: three instruments per category, each tagged with its own key. */
  function Instruments(c: Category): (r: seq<Instrument>)
    ensures |r| == 3
    ensures forall i :: 0 <= i < |r| ==> r[i].category == c
  {
    match c
    case Drums => [Instrument("Acoustic Kit", Drums), Instrument("808 Kit", Drums), Instrument("Techno Kit", Drums)]
    case Bass => [Instrument("Electric Bass", Bass), Instrument("Synth Bass", Bass), Instrument("Sub Bass", Bass)]
    case Chords => [Instrument("Grand Piano", Chords), Instrument("Electric Piano", Chords), Instrument("Synth Pad", Chords)]
    case Lead => [Instrument("Synth Lead", Lead), Instrument("Distorted Guitar", Lead), Instrument("Saxophone", Lead)]
    case Pads => [Instrument("String Section", Pads), Instrument("Warm Pad", Pads), Instrument("Choir Aahs", Pads)]
    case Arp => [Instrument("Synth Arp", Arp), Instrument("Pizzicato Strings", Arp), Instrument("Plucked Synth", Arp)]
  }

  /** The category's first entry: the fallback for an unknown instrument name. */
  function DefaultInstrument(c: Category): (r: Instrument)
    ensures r.category == c && r in Instruments(c)
  {
    Instruments(c)[0]
  }

  /** Every instrument of the library, category by category in key order. */
  function AllInstruments(): (r: seq<Instrument>)
    ensures |r| == 18
  {
    Instruments(Drums) + Instruments(Bass) + Instruments(Chords)
    + Instruments(Lead) + Instruments(Pads) + Instruments(Arp)
  }

  /** `INSTRUMENT_LIBRARY[role]` for a role string that may name no category. */
  function LookupRole(role: string): (r: Option<seq<Instrument>>)
    ensures r.Some? <==> ParseCategory(role).Some?
    ensures r.Some? ==> r.value == Instruments(ParseCategory(role).value)
  {
    match ParseCategory(role)
    case Some(c) => Some(Instruments(c))
    case None => None
  }

  /** `list.find(inst => inst.name === name)`: the first entry with that name, if any. */
  function FindByName(list: seq<Instrument>, name: string): (r: Option<Instrument>)
    ensures r.None? <==> forall i :: 0 <= i < |list| ==> list[i].name != name
    ensures r.Some? ==> exists k :: 0 <= k < |list| && list[k] == r.value && r.value.name == name
                                   && forall j :: 0 <= j < k ==> list[j].name != name
  {
    if |list| == 0 then None
    else if list[0].name == name then Some(list[0])
    else
      var rest := FindByName(list[1..], name);
      if rest.Some? then
        ghost var k :| 0 <= k < |list| - 1 && list[1..][k] == rest.value && rest.value.name == name
                       && forall j :: 0 <= j < k ==> list[1..][j].name != name;
        assert list[k + 1] == rest.value;
        rest
      else rest
  }

  /** `STYLE_PRESETS`. */
  const StylePresets: seq<StylePreset> := [
    StylePreset("Pop Anthem", "An upbeat, catchy pop anthem with a powerful chorus and uplifting lyrics."),
    StylePreset("Hip-Hop", "A modern hip-hop track with a strong beat, confident lyrical flow, and a memorable hook."),
    StylePreset("Indie Folk", "An acoustic indie folk song with heartfelt lyrics, gentle melodies, and a warm, intimate feel."),
    StylePreset("Synthwave", "A retro-futuristic synthwave track with driving synth bass, shimmering pads, and a nostalgic 80s vibe."),
    StylePreset("Rock Ballad", "An emotional rock power ballad with soaring guitar solos, dramatic dynamics, and passionate vocals."),
    StylePreset("Country", "A classic country song about storytelling, with acoustic guitar, a steady rhythm, and sincere lyrics.")
  ]

  /** The library is keyed by exactly the six categories, each listed once. */
  lemma CategoriesComplete()
    ensures |Categories| == 6
    ensures forall c: Category :: c in Categories
    ensures forall i, j :: 0 <= i < j < |Categories| ==> Categories[i] != Categories[j]
  {
    forall c: Category ensures c in Categories {
      match c
      case Drums => assert Categories[0] == c;
      case Bass => assert Categories[1] == c;
      case Chords => assert Categories[2] == c;
      case Lead => assert Categories[3] == c;
      case Pads => assert Categories[4] == c;
      case Arp => assert Categories[5] == c;
    }
  }

  /** No instrument name occurs twice anywhere in the library. */
  lemma InstrumentNamesDistinct()
    ensures forall i, j :: 0 <= i < j < |AllInstruments()| ==> AllInstruments()[i].name != AllInstruments()[j].name
  {
  }

  /** Each category's fallback entry, as listed first under its key. */
  lemma DefaultInstruments()
    ensures DefaultInstrument(Drums).name == "Acoustic Kit"
    ensures DefaultInstrument(Bass).name == "Electric Bass"
    ensures DefaultInstrument(Chords).name == "Grand Piano"
    ensures DefaultInstrument(Lead).name == "Synth Lead"
    ensures DefaultInstrument(Pads).name == "String Section"
    ensures DefaultInstrument(Arp).name == "Synth Arp"
  {
  }

  /** Six style presets with pairwise distinct names. */
  lemma StylePresetNamesDistinct()
    ensures |StylePresets| == 6
    ensures forall i, j :: 0 <= i < j < |StylePresets| ==> StylePresets[i].name != StylePresets[j].name
  {
  }
}
