/** The instrument selector of a track row (components/Track.tsx). */
module TrackControls {
  import opened Wrappers
  import opened Types
  import Library

  /** `availableInstruments`: the library list of the current instrument's category. */
  function AvailableInstruments(current: Instrument): (r: seq<Instrument>)
    ensures |r| == 3 && forall i :: 0 <= i < |r| ==> r[i].category == current.category
  {
    Library.Instruments(current.category)
  }

  /** The option labels the select offers, in library order. */
  function SelectOptions(current: Instrument): (r: seq<string>)
    ensures |r| == |AvailableInstruments(current)|
    ensures forall i :: 0 <= i < |r| ==> r[i] == AvailableInstruments(current)[i].name
  {
    var list := AvailableInstruments(current);
    seq(|list|, i requires 0 <= i < |list| => list[i].name)
  }

  /**
   * `handleSelectChange`: the instrument to hand to the change callback,
   * or none when the chosen name is not in the list.
   */
  function SelectInstrument(current: Instrument, chosen: string): (r: Option<Instrument>)
    ensures r.None? <==> chosen !in SelectOptions(current)
    ensures r.Some? ==> && r.value.name == chosen
                        && r.value.category == current.category
                        && r.value in Library.Instruments(current.category)
  {
    var options := SelectOptions(current);
    assert chosen in options <==> exists i :: 0 <= i < |options| && options[i] == chosen;
    Library.FindByName(AvailableInstruments(current), chosen)
  }

  /** The select shows the current instrument as one of its options when it is a library instrument. */
  lemma CurrentIsOffered(current: Instrument)
    requires current in Library.Instruments(current.category)
    ensures current.name in SelectOptions(current)
  {
    var list := Library.Instruments(current.category);
    var i :| 0 <= i < |list| && list[i] == current;
    assert SelectOptions(current)[i] == current.name;
  }

  /** Picking the option at position `i` hands over exactly the instrument listed there. */
  lemma PickingAnOption(current: Instrument, i: nat)
    requires i < 3
    ensures SelectInstrument(current, SelectOptions(current)[i]) == Some(AvailableInstruments(current)[i])
  {
    var list := AvailableInstruments(current);
    Library.InstrumentNamesDistinct();
    var all := Library.AllInstruments();
    var offset := match current.category
      case Drums => 0 case Bass => 3 case Chords => 6 case Lead => 9 case Pads => 12 case Arp => 15;
    assert forall j :: 0 <= j < 3 ==> list[j] == all[offset + j];
    var r := SelectInstrument(current, list[i].name);
    var k :| 0 <= k < |list| && list[k] == r.value && r.value.name == list[i].name;
    assert k == i;
  }

  /** A swap through the selector keeps the track's instrument in its own role. */
  lemma SwapKeepsRole(track: TrackData, chosen: string)
    requires track.Consistent()
    requires SelectInstrument(track.instrument, chosen).Some?
    ensures track.(instrument := SelectInstrument(track.instrument, chosen).value).Consistent()
  {
  }
}
