/** The simulated playback clock of the song card (components/SongPlayer.tsx). */
module SongPlayer {
  import opened Text

  /** Length of the simulated song, in seconds. */
  const SimulatedDuration: real := 30.0

  /** Seconds one clock tick adds (its interval is 100 ms). */
  const TickSeconds: real := 0.1

  class PlaybackClock {
    var currentTime: real
    var isPlaying: bool
    /** Whether the tick interval is installed. */
    var ticking: bool

    /** The clock stays within the song, and ticks only while playing. */
    predicate Valid()
      reads this
    {
      0.0 <= currentTime <= SimulatedDuration && (ticking ==> isPlaying)
    }

    constructor ()
      ensures Valid() && currentTime == 0.0 && !isPlaying && !ticking
    {
      currentTime := 0.0;
      isPlaying := false;
      ticking := false;
    }

    /**
     * The effect on `isPlaying`: playing restarts from 0 when the end was
     * reached and installs the tick; stopping resets the clock to 0.
     */
    method Sync(playing: bool)
      requires Valid()
      modifies this
      ensures Valid() && isPlaying == playing && ticking == playing
      ensures playing ==> currentTime == if old(currentTime) >= SimulatedDuration then 0.0 else old(currentTime)
      ensures !playing ==> currentTime == 0.0
    {
      ticking := false;
      isPlaying := playing;
      if playing {
        if currentTime >= SimulatedDuration {
          currentTime := 0.0;
        }
        ticking := true;
      } else {
        currentTime := 0.0;
      }
    }

    /** One tick: advance by 0.1 s, or clamp to the end and stop. */
    method Tick()
      requires Valid() && ticking
      modifies this
      ensures Valid()
      ensures old(currentTime) + TickSeconds < SimulatedDuration ==>
                currentTime == old(currentTime) + TickSeconds && ticking && isPlaying
      ensures old(currentTime) + TickSeconds >= SimulatedDuration ==>
                currentTime == SimulatedDuration && !ticking && !isPlaying
    {
      var newTime := currentTime + TickSeconds;
      if newTime >= SimulatedDuration {
        ticking := false;
        isPlaying := false;
        currentTime := SimulatedDuration;
      } else {
        currentTime := newTime;
      }
    }
  }

  /** Playing from the start for `n` ticks that stay inside the song moves the clock by `n` tenths. */
  method PlayTicks(clock: PlaybackClock, n: nat)
    requires clock.Valid() && !clock.isPlaying
    requires n as real * TickSeconds < SimulatedDuration
    modifies clock
    ensures clock.Valid() && clock.ticking
    ensures clock.currentTime == n as real * TickSeconds
  {
    clock.Sync(false);
    clock.Sync(true);
    var i := 0;
    while i < n
      invariant 0 <= i <= n
      invariant clock.Valid() && clock.ticking
      invariant clock.currentTime == i as real * TickSeconds
    {
      clock.Tick();
      i := i + 1;
    }
  }

  /** `progress`: the played share of the song in percent. */
  function Progress(currentTime: real): (p: real)
    requires 0.0 <= currentTime <= SimulatedDuration
    ensures 0.0 <= p <= 100.0
    ensures p == 0.0 <==> currentTime == 0.0
    ensures p == 100.0 <==> currentTime == SimulatedDuration
  {
    currentTime / SimulatedDuration * 100.0
  }

  /** JavaScript's `x % 60` on numbers: the remainder takes the sign of the dividend. */
  function JsRemainder60(x: real): (r: real)
    ensures 0.0 <= x ==> 0.0 <= r < 60.0
    ensures x < 0.0 ==> -60.0 < r <= 0.0
    // for a non-negative dividend it agrees with the floored remainder
    ensures 0.0 <= x ==> r == x - (x / 60.0).Floor as real * 60.0
  {
    var q := x / 60.0;
    var t := if q >= 0.0 then q.Floor else -((-q).Floor);
    x - t as real * 60.0
  }

  /** `formatTime`: whole minutes, a colon, and whole seconds padded to two digits. */
  function FormatTime(seconds: real): string {
    var mins := (seconds / 60.0).Floor;
    var secs := JsRemainder60(seconds).Floor;
    IntToString(mins) + ":" + PadStart(IntToString(secs), 2, '0')
  }

  /** Whole minutes and whole seconds of a non-negative time add up to its whole seconds. */
  lemma ClockSplit(seconds: real)
    requires 0.0 <= seconds
    ensures var mins := (seconds / 60.0).Floor;
            var secs := JsRemainder60(seconds).Floor;
            0 <= mins && 0 <= secs < 60 && mins * 60 + secs == seconds.Floor
  {
    var mins := (seconds / 60.0).Floor;
    var rem := JsRemainder60(seconds);
    assert rem == seconds - mins as real * 60.0;
  }

  /** Seconds below a minute are written with exactly two digits, which read back as the seconds. */
  lemma {:induction false} TwoDigitSeconds(secs: nat)
    requires secs < 60
    ensures |PadStart(NatToString(secs), 2, '0')| == 2
    ensures AllDigits(PadStart(NatToString(secs), 2, '0'))
    ensures DigitsValue(PadStart(NatToString(secs), 2, '0')) == secs
  {
    NatToStringRoundTrip(secs);
    var digits := NatToString(secs);
    if secs < 10 {
      assert PadStart(digits, 2, '0') == ['0'] + digits;
      assert (['0'] + digits)[..1] == ['0'];
    } else {
      assert NatToString(secs / 10) == [DigitChar(secs / 10)];
      assert |digits| == 2;
    }
  }

  /**
   * For a non-negative time the display is the minutes, a colon, then
   * exactly two digits for the seconds; minutes and seconds together give
   * the whole seconds elapsed.
   */
  lemma FormatTimeSplits(seconds: real)
    requires 0.0 <= seconds
    ensures var mins := (seconds / 60.0).Floor;
            var secs := JsRemainder60(seconds).Floor;
            && 0 <= mins && 0 <= secs < 60
            && mins * 60 + secs == seconds.Floor
            && FormatTime(seconds) == NatToString(mins) + ":" + PadStart(NatToString(secs), 2, '0')
            && |PadStart(NatToString(secs), 2, '0')| == 2
            && DigitsValue(PadStart(NatToString(secs), 2, '0')) == secs
  {
    ClockSplit(seconds);
    TwoDigitSeconds(JsRemainder60(seconds).Floor);
  }
}
