/** The per-track step grid and its playhead (components/Timeline.tsx). */
module Timeline {
  import opened Types
  import AudioEngine
  import Generation

  /** Steps in the one-bar grid. */
  const Steps: int := 16

  /** `Math.round`: the nearest integer, halves rounded up. */
  function JsRound(x: real): (n: int)
    ensures x - 0.5 < n as real <= x + 0.5
  {
    (x + 0.5).Floor
  }

  /** The grid step a note is drawn from. */
  function StartStep(note: Note): (s: int)
    ensures 0.0 <= note.time ==> 0 <= s
    ensures note.time <= 1.0 ==> s <= Steps
    ensures note.time * 16.0 - 0.5 < s as real <= note.time * 16.0 + 0.5
  {
    JsRound(note.time * 16.0)
  }

  /** The number of steps a note covers: its rounded length, but never less than one step. */
  function DurationSteps(note: Note): (d: int)
    ensures 1 <= d
    ensures note.duration * 16.0 >= 0.5 ==> note.duration * 16.0 - 0.5 < d as real <= note.duration * 16.0 + 0.5
    ensures note.duration * 16.0 < 0.5 ==> d == 1
  {
    var n := JsRound(note.duration * 16.0);
    if n < 1 then 1 else n
  }

  /** Milliseconds between playhead steps: a sixteenth note at `tempo`. */
  function StepDurationMs(tempo: real): (ms: real)
    requires tempo > 0.0
    ensures ms > 0.0
  {
    (60.0 * 1000.0) / tempo / 4.0
  }

  /** Sixteen playhead steps last exactly one scheduler bar. */
  lemma StepsMakeABar(tempo: real)
    requires tempo > 0.0
    ensures 16.0 * StepDurationMs(tempo) == 1000.0 * AudioEngine.BarDuration(tempo)
  {
    assert 60000.0 / tempo == 1000.0 * (60.0 / tempo);
  }

  const Gray: string := "bg-gray-500"

  /** `roleColors`: one colour class per role name. */
  const RoleColors: map<string, string> := map[
    "Drums" := "bg-rose-500/80 border-rose-400",
    "Bass" := "bg-sky-500/80 border-sky-400",
    "Chords" := "bg-amber-500/80 border-amber-400",
    "Lead" := "bg-fuchsia-500/80 border-fuchsia-400",
    "Pads" := "bg-indigo-500/80 border-indigo-400",
    "Arp" := "bg-teal-500/80 border-teal-400"
  ]

  /**
   * What `roleColors[role] || 'bg-gray-500'` puts into a note's class list.
   * `roleColors` is a plain object literal, so a role named after an
   * `Object.prototype` member finds that inherited member, which is truthy
   * and is rendered in place of a colour class.
   */
  datatype NoteClass = ClassName(name: string) | InheritedMember(key: string)

  /** A note's class: its role's colour, the inherited member for a prototype name, gray for any other role. */
  function RoleColor(role: string): (r: NoteClass)
    ensures role in RoleColors ==> r == ClassName(RoleColors[role])
    ensures r.InheritedMember? <==> role in Generation.ObjectPrototypeKeys
    ensures r == ClassName(Gray) <==> role !in RoleColors && role !in Generation.ObjectPrototypeKeys
  {
    if role in RoleColors then ClassName(RoleColors[role])
    else if role in Generation.ObjectPrototypeKeys then InheritedMember(role)
    else ClassName(Gray)
  }

  /** Every category is listed and none of them is drawn gray. */
  lemma EveryCategoryHasColour(c: Category)
    ensures CategoryName(c) in RoleColors && RoleColor(CategoryName(c)) != ClassName(Gray)
  {
    match c
    case Drums => assert RoleColors["Drums"][3] != Gray[3];
    case Bass => assert RoleColors["Bass"][3] != Gray[3];
    case Chords => assert RoleColors["Chords"][3] != Gray[3];
    case Lead => assert RoleColors["Lead"][3] != Gray[3];
    case Pads => assert RoleColors["Pads"][3] != Gray[3];
    case Arp => assert RoleColors["Arp"][3] != Gray[3];
  }

  /** The playhead state: -1 while stopped, a step index while playing. */
  class Playhead {
    var position: int
    /** Whether the stepping interval is installed. */
    var ticking: bool

    predicate Valid()
      reads this
    {
      if ticking then 0 <= position < Steps else position == -1
    }

    /** Whether the playhead is drawn. */
    function Visible(): (v: bool)
      reads this
      requires Valid()
      ensures v <==> ticking
    {
      position != -1
    }

    constructor ()
      ensures Valid() && position == -1 && !ticking
    {
      position := -1;
      ticking := false;
    }

    /** The effect on `isPlaying`: start at step 0 and tick, or stop and hide. */
    method Sync(isPlaying: bool)
      modifies this
      ensures Valid()
      ensures isPlaying ==> position == 0 && ticking
      ensures !isPlaying ==> position == -1 && !ticking
    {
      ticking := false;
      if isPlaying {
        position := 0;
        ticking := true;
      } else {
        position := -1;
      }
    }

    /** One interval callback: move to the next step, wrapping after the last. */
    method Advance()
      requires Valid() && ticking
      modifies this`position
      ensures Valid()
      ensures position == if old(position) == Steps - 1 then 0 else old(position) + 1
    {
      position := (position + 1) % Steps;
    }
  }

  /** After `n` steps from the start the playhead is at `n` modulo 16. */
  method PlayFor(playhead: Playhead, n: nat)
    modifies playhead
    ensures playhead.Valid() && playhead.ticking
    ensures playhead.position == n % Steps
  {
    playhead.Sync(true);
    var i := 0;
    while i < n
      invariant 0 <= i <= n
      invariant playhead.Valid() && playhead.ticking
      invariant playhead.position == i % Steps
    {
      playhead.Advance();
      i := i + 1;
    }
  }
}
