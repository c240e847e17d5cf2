/**
 * The three voice renderers and the preset table (audio/synths.ts).
 *
 * A renderer does not return sound: it issues an ordered sequence of
 * automation calls on the gain, frequency and filter-frequency parameters of
 * the nodes it creates, then starts and stops its source. Each renderer here
 * is the function from its arguments to that sequence of calls.
 */
module Synths {

  datatype Waveform = Sine | Square | Sawtooth | Triangle
  datatype FilterType = Lowpass | Bandpass | Highpass

  /** Gain envelope of the oscillator voices: seconds, except `sustain`, a level in [0,1]. */
  datatype Adsr = Adsr(attack: real, decay: real, sustain: real, release: real)

  /** Frequency sweep of a pitched drum: seconds, then Hz. */
  datatype PitchEnv = PitchEnv(attack: real, decay: real, start: real, end: real)

  /** Rise-and-fall envelope of a noise drum, in seconds. */
  datatype Burst = Burst(attack: real, decay: real)

  /**
   * One entry of `SYNTH_PRESETS`. The source tells the three shapes apart by
   * which properties are present (`waveform`, `pitchEnv`, `player`).
   */
  datatype Preset =
    | Tonal(waveform: Waveform, envelope: Adsr)
    | PitchedDrum(waveform: Waveform, envelope: Adsr, pitchEnv: PitchEnv)
    | NoiseDrum(filterType: FilterType, frequency: real, burst: Burst)

  datatype Param = Gain | Frequency | FilterFrequency
  datatype Automation = SetValue | LinearRamp | ExponentialRamp

  /** One call a renderer makes on the audio graph, stamped with its audio-clock time. */
  datatype Event =
    | Automate(param: Param, kind: Automation, time: real, value: real)
    | Start(time: real)
    | Stop(time: real)

  datatype Source = Oscillator(waveform: Waveform) | FilteredNoise(filterType: FilterType, samples: nat)

  /** A rendered note: the source node it creates and the calls it issues, in order. */
  datatype Voice = Voice(source: Source, events: seq<Event>)

  /** The automation calls on one parameter, in issue order. */
  function ParamEvents(events: seq<Event>, p: Param): (r: seq<Event>)
    ensures |r| <= |events|
    ensures forall i :: 0 <= i < |r| ==> r[i].Automate? && r[i].param == p
  {
    if |events| == 0 then []
    else (if events[0].Automate? && events[0].param == p then [events[0]] else []) + ParamEvents(events[1..], p)
  }

  /** Selecting one parameter's calls commutes with concatenation. */
  lemma {:induction false} ParamEventsAppend(a: seq<Event>, b: seq<Event>, p: Param)
    ensures ParamEvents(a + b, p) == ParamEvents(a, p) + ParamEvents(b, p)
  {
    if |a| > 0 {
      var head := if a[0].Automate? && a[0].param == p then [a[0]] else [];
      assert (a + b)[0] == a[0];
      assert (a + b)[1..] == a[1..] + b;
      ParamEventsAppend(a[1..], b, p);
      calc {
        ParamEvents(a + b, p);
        head + ParamEvents(a[1..] + b, p);
        head + (ParamEvents(a[1..], p) + ParamEvents(b, p));
        (head + ParamEvents(a[1..], p)) + ParamEvents(b, p);
        ParamEvents(a, p) + ParamEvents(b, p);
      }
    } else {
      assert a + b == b;
    }
  }

  /** Selection over three consecutive groups of calls. */
  lemma ParamEventsAppend3(a: seq<Event>, b: seq<Event>, c: seq<Event>, p: Param)
    ensures ParamEvents(a + b + c, p) == ParamEvents(a, p) + ParamEvents(b, p) + ParamEvents(c, p)
  {
    ParamEventsAppend(a + b, c, p);
    ParamEventsAppend(a, b, p);
  }

  /** A sequence of calls that all target `p` is its own selection. */
  lemma {:induction false} ParamEventsOnly(events: seq<Event>, p: Param)
    requires forall i :: 0 <= i < |events| ==> events[i].Automate? && events[i].param == p
    ensures ParamEvents(events, p) == events
  {
    if |events| > 0 {
      ParamEventsOnly(events[1..], p);
    }
  }

  /** A sequence of calls none of which targets `p` selects nothing. */
  lemma {:induction false} ParamEventsNone(events: seq<Event>, p: Param)
    requires forall i :: 0 <= i < |events| ==> !(events[i].Automate? && events[i].param == p)
    ensures ParamEvents(events, p) == []
  {
    if |events| > 0 {
      ParamEventsNone(events[1..], p);
    }
  }

  /** Selection from a single call. */
  lemma ParamEventsSingle(e: Event, p: Param)
    ensures ParamEvents([e], p) == if e.Automate? && e.param == p then [e] else []
  {
    assert [e][1..] == [];
  }

  /** Calls stamped in non-decreasing time order. */
  predicate Chronological(events: seq<Event>) {
    forall i, j :: 0 <= i < j < |events| ==> events[i].time <= events[j].time
  }

  /** No exponential ramp aims at 0, a target an exponential curve can never reach. */
  predicate ExponentialTargetsNonZero(events: seq<Event>) {
    forall i :: 0 <= i < |events| && events[i].Automate? && events[i].kind == ExponentialRamp ==> events[i].value != 0.0
  }

  // ---------------------------------------------------------------- pitch

  /** 2^e, exactly, for an integer exponent. */
  function Pow2(e: int): (r: real)
    ensures r > 0.0
    decreases if e < 0 then -e else e
  {
    if e == 0 then 1.0 else if e > 0 then 2.0 * Pow2(e - 1) else Pow2(e + 1) / 2.0
  }

  /** 2^(k/12) for k = 0..11, to six decimal places. */
  const SemitoneRatios: seq<real> := [1.0, 1.059463, 1.122462, 1.189207, 1.259921, 1.334840,
                                      1.414214, 1.498307, 1.587401, 1.681793, 1.781797, 1.887749]

  /** Equal-tempered frequency of a MIDI note: 440 Hz at note 69, doubling every 12 notes. */
  function MidiToFreq(midi: int): (f: real)
    ensures f > 0.0
  {
    var k := midi - 69;
    440.0 * Pow2(k / 12) * SemitoneRatios[k % 12]
  }

  /** Note 69 (A4) sounds at 440 Hz. */
  lemma ConcertPitch()
    ensures MidiToFreq(69) == 440.0
  {
  }

  /** Twelve semitones up is exactly one octave: the frequency doubles. */
  lemma OctaveDoubles(midi: int)
    ensures MidiToFreq(midi + 12) == 2.0 * MidiToFreq(midi)
  {
    var k := midi - 69;
    assert (k + 12) / 12 == k / 12 + 1 && (k + 12) % 12 == k % 12;
    assert Pow2(k / 12 + 1) == 2.0 * Pow2(k / 12);
  }

  /** One semitone up always sounds higher. */
  lemma SemitoneUp(midi: int)
    ensures MidiToFreq(midi) < MidiToFreq(midi + 1)
  {
    var k := midi - 69;
    var q, m := k / 12, k % 12;
    if m < 11 {
      assert (k + 1) / 12 == q && (k + 1) % 12 == m + 1;
      assert SemitoneRatios[m] < SemitoneRatios[m + 1];
    } else {
      assert (k + 1) / 12 == q + 1 && (k + 1) % 12 == 0;
      assert Pow2(q + 1) == 2.0 * Pow2(q);
      assert SemitoneRatios[m] * Pow2(q) < 2.0 * Pow2(q);
    }
  }

  /** Higher MIDI numbers give strictly higher frequencies. */
  lemma {:induction false} MidiToFreqIncreasing(lo: int, hi: int)
    requires lo < hi
    ensures MidiToFreq(lo) < MidiToFreq(hi)
    decreases hi - lo
  {
    SemitoneUp(lo);
    if lo + 1 < hi {
      MidiToFreqIncreasing(lo + 1, hi);
    }
  }

  // ---------------------------------------------------------------- envelopes

  /**
   * The gain calls both oscillator renderers issue: silence at `time`, a
   * linear attack to `peak`, a linear decay to `peak * sustain`, a hold at
   * that level from `releaseStart` only when the release starts after the
   * decay ends, and a linear release to silence at `time + duration`.
   */
  function GainEnvelope(time: real, duration: real, peak: real, env: Adsr, releaseStart: real): (r: seq<Event>)
    ensures |r| == if releaseStart > time + env.attack + env.decay then 5 else 4
    ensures r[0] == Automate(Gain, SetValue, time, 0.0)
    ensures r[1] == Automate(Gain, LinearRamp, time + env.attack, peak)
    ensures r[|r| - 1] == Automate(Gain, LinearRamp, time + duration, 0.0)
    ensures forall i :: 0 <= i < |r| ==> r[i].Automate? && r[i].param == Gain && r[i].kind != ExponentialRamp
    ensures 0.0 <= peak && 0.0 <= env.sustain <= 1.0 ==>
              forall i :: 0 <= i < |r| ==> 0.0 <= r[i].value <= peak
    ensures |r| == 5 && 0.0 <= env.attack && 0.0 <= env.decay && releaseStart <= time + duration ==>
              Chronological(r)
  {
    var level := peak * env.sustain;
    assert 0.0 <= peak && 0.0 <= env.sustain <= 1.0 ==> 0.0 <= level <= peak by {
      if 0.0 <= peak && 0.0 <= env.sustain <= 1.0 {
        assert peak * env.sustain <= peak * 1.0;
      }
    }
    [Automate(Gain, SetValue, time, 0.0),
     Automate(Gain, LinearRamp, time + env.attack, peak),
     Automate(Gain, LinearRamp, time + env.attack + env.decay, level)]
    + (if releaseStart > time + env.attack + env.decay then [Automate(Gain, SetValue, releaseStart, level)] else [])
    + [Automate(Gain, LinearRamp, time + duration, 0.0)]
  }

  /**
   * Where the tonal voice's release begins: its release lasts
   * `min(duration, release)` and ends at `time + duration`.
   */
  function ClampedReleaseStart(time: real, duration: real, release: real): (r: real)
    ensures 0.0 <= duration ==> time <= r
    ensures 0.0 <= duration && 0.0 <= release ==> r <= time + duration
    ensures release <= duration ==> r == time + duration - release
    ensures duration < release ==> r == time
  {
    var releaseTime := if duration < release then duration else release;
    time + duration - releaseTime
  }

  // ---------------------------------------------------------------- renderers

  /** `playSynthNote`: one oscillator at the note's pitch under the ADSR envelope, peak `velocity * 0.3`. */
  function SynthNote(waveform: Waveform, env: Adsr, time: real, duration: real, velocity: real, midi: int): Voice {
    Voice(Oscillator(waveform),
          [Automate(Frequency, SetValue, time, MidiToFreq(midi))]
          + GainEnvelope(time, duration, velocity * 0.3, env, ClampedReleaseStart(time, duration, env.release))
          + [Start(time), Stop(time + duration + 0.1)])
  }

  /**
   * `playPitchedDrum`: the same gain shape with peak `velocity * 0.9` and an
   * unclamped release, while the frequency holds at `start` through the
   * pitch attack and then sweeps exponentially to `end`.
   */
  function PitchedDrumNote(waveform: Waveform, env: Adsr, sweep: PitchEnv,
                           time: real, duration: real, velocity: real): Voice {
    Voice(Oscillator(waveform),
          GainEnvelope(time, duration, velocity * 0.9, env, time + duration - env.release)
          + [Automate(Frequency, SetValue, time, sweep.start),
             Automate(Frequency, LinearRamp, time + sweep.attack, sweep.start),
             Automate(Frequency, ExponentialRamp, time + sweep.attack + sweep.decay, sweep.end)]
          + [Start(time), Stop(time + duration)])
  }

  /** The level the noise burst decays toward instead of 0. */
  const NoiseFloor: real := 0.001

  /**
   * `playDrumNote`: a `sampleRate`-sample noise buffer through a filter fixed
   * at `frequency`, under a linear rise to `velocity * 0.7` and an
   * exponential decay toward `NoiseFloor`.
   */
  function NoiseDrumNote(filterType: FilterType, frequency: real, burst: Burst,
                         time: real, duration: real, velocity: real, sampleRate: nat): Voice {
    Voice(FilteredNoise(filterType, sampleRate),
          [Automate(FilterFrequency, SetValue, time, frequency)]
          + [Automate(Gain, SetValue, time, 0.0),
             Automate(Gain, LinearRamp, time + burst.attack, velocity * 0.7),
             Automate(Gain, ExponentialRamp, time + burst.attack + burst.decay, NoiseFloor)]
          + [Start(time), Stop(time + duration)])
  }

  /**
   * The gain of a tonal note follows the ADSR envelope with peak
   * `velocity * 0.3` and a release clamped to the note.
   */
  lemma SynthNoteGain(waveform: Waveform, env: Adsr, time: real, duration: real, velocity: real, midi: int)
    ensures ParamEvents(SynthNote(waveform, env, time, duration, velocity, midi).events, Gain)
            == GainEnvelope(time, duration, velocity * 0.3, env, ClampedReleaseStart(time, duration, env.release))
  {
    var pitch := [Automate(Frequency, SetValue, time, MidiToFreq(midi))];
    var gain := GainEnvelope(time, duration, velocity * 0.3, env, ClampedReleaseStart(time, duration, env.release));
    var run := [Start(time), Stop(time + duration + 0.1)];
    ParamEventsAppend3(pitch, gain, run, Gain);
    ParamEventsOnly(gain, Gain);
    ParamEventsNone(pitch, Gain);
    ParamEventsNone(run, Gain);
  }

  /**
   * A tonal note sets its frequency once, to the note's pitch, at the note
   * start, and touches no filter.
   */
  lemma SynthNoteFrequency(waveform: Waveform, env: Adsr, time: real, duration: real, velocity: real, midi: int)
    ensures var events := SynthNote(waveform, env, time, duration, velocity, midi).events;
            && ParamEvents(events, Frequency) == [Automate(Frequency, SetValue, time, MidiToFreq(midi))]
            && ParamEvents(events, FilterFrequency) == []
  {
    var pitch := [Automate(Frequency, SetValue, time, MidiToFreq(midi))];
    var gain := GainEnvelope(time, duration, velocity * 0.3, env, ClampedReleaseStart(time, duration, env.release));
    var run := [Start(time), Stop(time + duration + 0.1)];
    ParamEventsAppend3(pitch, gain, run, Frequency);
    ParamEventsAppend3(pitch, gain, run, FilterFrequency);
    ParamEventsOnly(pitch, Frequency);
    ParamEventsNone(pitch, FilterFrequency);
    ParamEventsNone(gain, Frequency);
    ParamEventsNone(gain, FilterFrequency);
    ParamEventsNone(run, Frequency);
    ParamEventsNone(run, FilterFrequency);
  }

  /**
   * The gain of a pitched drum follows the ADSR envelope with peak
   * `velocity * 0.9` and an unclamped release starting at `time + duration - release`.
   */
  lemma PitchedDrumGain(waveform: Waveform, env: Adsr, sweep: PitchEnv, time: real, duration: real, velocity: real)
    ensures ParamEvents(PitchedDrumNote(waveform, env, sweep, time, duration, velocity).events, Gain)
            == GainEnvelope(time, duration, velocity * 0.9, env, time + duration - env.release)
  {
    var gain := GainEnvelope(time, duration, velocity * 0.9, env, time + duration - env.release);
    var pitch := [Automate(Frequency, SetValue, time, sweep.start),
                  Automate(Frequency, LinearRamp, time + sweep.attack, sweep.start),
                  Automate(Frequency, ExponentialRamp, time + sweep.attack + sweep.decay, sweep.end)];
    var run := [Start(time), Stop(time + duration)];
    ParamEventsAppend3(gain, pitch, run, Gain);
    ParamEventsOnly(gain, Gain);
    ParamEventsNone(pitch, Gain);
    ParamEventsNone(run, Gain);
  }

  /**
   * The frequency of a pitched drum holds at `start` until `time + attack`,
   * then ramps exponentially to `end` by `time + attack + decay`.
   */
  lemma PitchedDrumSweep(waveform: Waveform, env: Adsr, sweep: PitchEnv, time: real, duration: real, velocity: real)
    ensures ParamEvents(PitchedDrumNote(waveform, env, sweep, time, duration, velocity).events, Frequency)
            == [Automate(Frequency, SetValue, time, sweep.start),
                Automate(Frequency, LinearRamp, time + sweep.attack, sweep.start),
                Automate(Frequency, ExponentialRamp, time + sweep.attack + sweep.decay, sweep.end)]
  {
    var gain := GainEnvelope(time, duration, velocity * 0.9, env, time + duration - env.release);
    var pitch := [Automate(Frequency, SetValue, time, sweep.start),
                  Automate(Frequency, LinearRamp, time + sweep.attack, sweep.start),
                  Automate(Frequency, ExponentialRamp, time + sweep.attack + sweep.decay, sweep.end)];
    var run := [Start(time), Stop(time + duration)];
    ParamEventsAppend3(gain, pitch, run, Frequency);
    ParamEventsNone(gain, Frequency);
    ParamEventsOnly(pitch, Frequency);
    ParamEventsNone(run, Frequency);
  }

  /** The pitch sweep's exponential ramp is the only one, so a non-zero `end` keeps every target non-zero. */
  lemma PitchedDrumTargetsNonZero(waveform: Waveform, env: Adsr, sweep: PitchEnv, time: real, duration: real, velocity: real)
    requires sweep.end != 0.0
    ensures ExponentialTargetsNonZero(PitchedDrumNote(waveform, env, sweep, time, duration, velocity).events)
  {
    var gain := GainEnvelope(time, duration, velocity * 0.9, env, time + duration - env.release);
    var events := PitchedDrumNote(waveform, env, sweep, time, duration, velocity).events;
    forall i | 0 <= i < |events| && events[i].Automate? && events[i].kind == ExponentialRamp
      ensures events[i].value != 0.0
    {
      if i >= |gain| {
        assert i == |gain| + 2;
      }
    }
  }

  /** A noise drum fixes its filter at the preset frequency, once, at the note start. */
  lemma NoiseDrumFilter(filterType: FilterType, frequency: real, burst: Burst,
                        time: real, duration: real, velocity: real, sampleRate: nat)
    ensures ParamEvents(NoiseDrumNote(filterType, frequency, burst, time, duration, velocity, sampleRate).events, FilterFrequency)
            == [Automate(FilterFrequency, SetValue, time, frequency)]
  {
    var filter := [Automate(FilterFrequency, SetValue, time, frequency)];
    var gain := [Automate(Gain, SetValue, time, 0.0),
                 Automate(Gain, LinearRamp, time + burst.attack, velocity * 0.7),
                 Automate(Gain, ExponentialRamp, time + burst.attack + burst.decay, NoiseFloor)];
    var run := [Start(time), Stop(time + duration)];
    ParamEventsAppend3(filter, gain, run, FilterFrequency);
    ParamEventsSingle(filter[0], FilterFrequency);
    assert filter == [filter[0]];
    ParamEventsNone(gain, FilterFrequency);
    ParamEventsNone(run, FilterFrequency);
  }

  /**
   * The gain of a noise drum rises linearly to `velocity * 0.7` and decays
   * exponentially toward `NoiseFloor`; no exponential ramp aims at 0.
   */
  lemma NoiseDrumGain(filterType: FilterType, frequency: real, burst: Burst,
                      time: real, duration: real, velocity: real, sampleRate: nat)
    ensures var events := NoiseDrumNote(filterType, frequency, burst, time, duration, velocity, sampleRate).events;
            && ParamEvents(events, Gain)
               == [Automate(Gain, SetValue, time, 0.0),
                   Automate(Gain, LinearRamp, time + burst.attack, velocity * 0.7),
                   Automate(Gain, ExponentialRamp, time + burst.attack + burst.decay, NoiseFloor)]
            && ExponentialTargetsNonZero(events)
  {
    var filter := [Automate(FilterFrequency, SetValue, time, frequency)];
    var gain := [Automate(Gain, SetValue, time, 0.0),
                 Automate(Gain, LinearRamp, time + burst.attack, velocity * 0.7),
                 Automate(Gain, ExponentialRamp, time + burst.attack + burst.decay, NoiseFloor)];
    var run := [Start(time), Stop(time + duration)];
    ParamEventsAppend3(filter, gain, run, Gain);
    ParamEventsOnly(gain, Gain);
    ParamEventsNone(filter, Gain);
    ParamEventsNone(run, Gain);
  }

  /**
   * The body of `playDrumNote`'s buffer loop: sample `i` is
   * `random[i] * 2 - 1`, where `random` holds the successive draws of
   * `Math.random()`, each in [0,1).
   */
  method FillNoise(output: array<real>, random: seq<real>)
    requires |random| == output.Length
    requires forall i :: 0 <= i < |random| ==> 0.0 <= random[i] < 1.0
    modifies output
    ensures forall i :: 0 <= i < output.Length ==> output[i] == random[i] * 2.0 - 1.0
    ensures forall i :: 0 <= i < output.Length ==> -1.0 <= output[i] < 1.0
  {
    for i := 0 to output.Length
      invariant forall k :: 0 <= k < i ==> output[k] == random[k] * 2.0 - 1.0
      invariant forall k :: 0 <= k < i ==> -1.0 <= output[k] < 1.0
    {
      output[i] := random[i] * 2.0 - 1.0;
    }
  }

  /** Creates the one-second noise buffer of `playDrumNote`: `sampleRate` samples. */
  method NoiseBuffer(sampleRate: nat, random: seq<real>) returns (output: array<real>)
    requires |random| == sampleRate
    requires forall i :: 0 <= i < |random| ==> 0.0 <= random[i] < 1.0
    ensures fresh(output) && output.Length == sampleRate
    ensures forall i :: 0 <= i < output.Length ==> output[i] == random[i] * 2.0 - 1.0 && -1.0 <= output[i] < 1.0
  {
    output := new real[sampleRate];
    FillNoise(output, random);
  }

  // ---------------------------------------------------------------- renderer calls

  /** A call of one of the three renderers, with the arguments it reads. */
  datatype VoiceCall =
    | PlaySynth(waveform: Waveform, envelope: Adsr, time: real, duration: real, velocity: real, pitch: int)
    | PlayPitched(waveform: Waveform, envelope: Adsr, pitchEnv: PitchEnv, time: real, duration: real, velocity: real)
    | PlayNoise(filterType: FilterType, frequency: real, burst: Burst, time: real, duration: real, velocity: real)

  /** What a renderer call issues on an audio context running at `sampleRate`. */
  function Render(call: VoiceCall, sampleRate: nat): Voice {
    match call
    case PlaySynth(w, env, t, d, vel, p) => SynthNote(w, env, t, d, vel, p)
    case PlayPitched(w, env, sweep, t, d, vel) => PitchedDrumNote(w, env, sweep, t, d, vel)
    case PlayNoise(f, hz, b, t, d, vel) => NoiseDrumNote(f, hz, b, t, d, vel, sampleRate)
  }

  // ---------------------------------------------------------------- renderer lemmas

  /**
   * A tonal note shorter than its release has no plateau: the release starts
   * with the note and still reaches silence exactly at `time + duration`.
   */
  lemma ShortSynthNoteReleasesAtOnce(waveform: Waveform, env: Adsr, time: real, duration: real, velocity: real, midi: int)
    requires 0.0 <= env.attack && 0.0 <= env.decay
    requires duration < env.release
    ensures var g := ParamEvents(SynthNote(waveform, env, time, duration, velocity, midi).events, Gain);
            |g| == 4 && g[3] == Automate(Gain, LinearRamp, time + duration, 0.0)
  {
    SynthNoteGain(waveform, env, time, duration, velocity, midi);
  }

  /**
   * With non-negative envelope times and a held plateau, every gain call of
   * a tonal note is in time order: note start, end of attack, end of decay,
   * release start, note end.
   */
  lemma SynthGainInOrder(waveform: Waveform, env: Adsr, time: real, duration: real, velocity: real, midi: int)
    requires 0.0 <= env.attack && 0.0 <= env.decay && 0.0 <= env.release
    requires ClampedReleaseStart(time, duration, env.release) > time + env.attack + env.decay
    ensures var g := ParamEvents(SynthNote(waveform, env, time, duration, velocity, midi).events, Gain);
            |g| == 5 && Chronological(g)
            && g[3] == Automate(Gain, SetValue, ClampedReleaseStart(time, duration, env.release), velocity * 0.3 * env.sustain)
  {
    SynthNoteGain(waveform, env, time, duration, velocity, midi);
  }

  /** The same ordering for a pitched drum, whose release start is `time + duration - release`. */
  lemma PitchedGainInOrder(waveform: Waveform, env: Adsr, sweep: PitchEnv, time: real, duration: real, velocity: real)
    requires 0.0 <= env.attack && 0.0 <= env.decay && 0.0 <= env.release
    requires time + duration - env.release > time + env.attack + env.decay
    ensures var g := ParamEvents(PitchedDrumNote(waveform, env, sweep, time, duration, velocity).events, Gain);
            |g| == 5 && Chronological(g)
  {
    PitchedDrumGain(waveform, env, sweep, time, duration, velocity);
  }

  /**
   * A pitched drum's release is not clamped: when it is longer than the note
   * its nominal start precedes the note, and no plateau is held.
   */
  lemma PitchedReleaseUnclamped(waveform: Waveform, env: Adsr, sweep: PitchEnv, time: real, duration: real, velocity: real)
    requires 0.0 <= env.attack && 0.0 <= env.decay
    requires duration < env.release
    ensures time + duration - env.release < time
    ensures |ParamEvents(PitchedDrumNote(waveform, env, sweep, time, duration, velocity).events, Gain)| == 4
  {
    PitchedDrumGain(waveform, env, sweep, time, duration, velocity);
  }

  /**
   * The tonal source runs 0.1 s past the note to leave room for the release
   * tail; the drum sources stop exactly at the note's end.
   */
  lemma StopTimes(call: VoiceCall, sampleRate: nat)
    ensures var e := Render(call, sampleRate).events;
            |e| >= 2 && e[|e| - 2] == Start(call.time)
            && e[|e| - 1] == Stop(call.time + call.duration + (if call.PlaySynth? then 0.1 else 0.0))
  {
  }

  // ---------------------------------------------------------------- presets

  predicate ValidAdsr(e: Adsr) {
    0.0 <= e.attack && 0.0 <= e.decay && 0.0 <= e.sustain <= 1.0 && 0.0 <= e.release
  }

  /** Envelope times are non-negative, sustain is a level, and every frequency is positive. */
  predicate ValidPreset(p: Preset) {
    match p
    case Tonal(_, e) => ValidAdsr(e)
    case PitchedDrum(_, e, s) => ValidAdsr(e) && 0.0 <= s.attack && 0.0 <= s.decay && 0.0 < s.start && 0.0 < s.end
    case NoiseDrum(_, hz, b) => 0.0 < hz && 0.0 <= b.attack && 0.0 <= b.decay
  }

  /** `SYNTH_PRESETS`: instrument names for tonal voices, `<kit>_Kick|_Snare|_Hi-hat` for drum voices. */
  const SynthPresets: map<string, Preset> := map[
    "Electric Bass" := Tonal(Sine, Adsr(0.01, 0.3, 0.2, 0.2)),
    "Synth Bass" := Tonal(Sawtooth, Adsr(0.02, 0.4, 0.3, 0.3)),
    "Sub Bass" := Tonal(Sine, Adsr(0.01, 0.5, 0.4, 0.4)),
    "Grand Piano" := Tonal(Triangle, Adsr(0.01, 1.0, 0.1, 0.5)),
    "Electric Piano" := Tonal(Sine, Adsr(0.02, 0.8, 0.3, 0.4)),
    "Synth Pad" := Tonal(Triangle, Adsr(0.5, 1.0, 0.8, 1.0)),
    "Synth Lead" := Tonal(Square, Adsr(0.05, 0.5, 0.6, 0.3)),
    "Distorted Guitar" := Tonal(Sawtooth, Adsr(0.01, 0.7, 0.2, 0.2)),
    "Saxophone" := Tonal(Sawtooth, Adsr(0.1, 0.4, 0.5, 0.3)),
    "String Section" := Tonal(Sawtooth, Adsr(0.8, 1.5, 0.9, 1.2)),
    "Warm Pad" := Tonal(Triangle, Adsr(1.0, 1.2, 0.8, 1.5)),
    "Choir Aahs" := Tonal(Sine, Adsr(0.7, 1.1, 0.7, 1.0)),
    "Synth Arp" := Tonal(Square, Adsr(0.01, 0.2, 0.1, 0.1)),
    "Pizzicato Strings" := Tonal(Triangle, Adsr(0.01, 0.15, 0.05, 0.1)),
    "Plucked Synth" := Tonal(Sawtooth, Adsr(0.01, 0.25, 0.1, 0.2)),
    "Acoustic Kit_Kick" := NoiseDrum(Lowpass, 120.0, Burst(0.01, 0.2)),
    "Acoustic Kit_Snare" := NoiseDrum(Bandpass, 1500.0, Burst(0.01, 0.2)),
    "Acoustic Kit_Hi-hat" := NoiseDrum(Highpass, 7000.0, Burst(0.01, 0.1)),
    "808 Kit_Kick" := PitchedDrum(Sine, Adsr(0.01, 0.4, 0.01, 0.1), PitchEnv(0.01, 0.1, 120.0, 40.0)),
    "808 Kit_Snare" := NoiseDrum(Bandpass, 2000.0, Burst(0.01, 0.15)),
    "808 Kit_Hi-hat" := NoiseDrum(Highpass, 8000.0, Burst(0.01, 0.05)),
    "Techno Kit_Kick" := PitchedDrum(Square, Adsr(0.01, 0.2, 0.01, 0.1), PitchEnv(0.01, 0.05, 100.0, 50.0)),
    "Techno Kit_Snare" := NoiseDrum(Bandpass, 1800.0, Burst(0.01, 0.1)),
    "Techno Kit_Hi-hat" := NoiseDrum(Highpass, 9000.0, Burst(0.01, 0.15))
  ]

  /** Every entry of the table is well formed. */
  lemma PresetTableValid()
    ensures forall key | key in SynthPresets :: ValidPreset(SynthPresets[key])
  {
  }
}
