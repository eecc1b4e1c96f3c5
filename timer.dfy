/** The running timer shown next to an event in progress: the milliseconds
    elapsed since the event began, broken into hours, minutes and seconds
    and shown as `HH:MM:SS`. The clock reading is a parameter. */
module Timer {
  import opened Text

  /** What the timer shows before its first tick. */
  const InitialDisplay := "00:00:00"

  /** The hours, minutes and whole seconds in `elapsed` milliseconds: every
      full hour, then every full minute of the rest, then every full second
      of the rest of that. */
  function Breakdown(elapsed: nat): (parts: (nat, nat, nat))
    ensures parts.1 < 60 && parts.2 < 60
    ensures parts.0 * 3600000 + parts.1 * 60000 + parts.2 * 1000 <= elapsed
    ensures elapsed < parts.0 * 3600000 + parts.1 * 60000 + parts.2 * 1000 + 1000
  {
    BreakdownBounds(elapsed);
    (elapsed / 3600000, (elapsed % 3600000) / 60000, (elapsed % 60000) / 1000)
  }

  lemma BreakdownBounds(elapsed: nat)
    ensures (elapsed % 3600000) / 60000 < 60 && (elapsed % 60000) / 1000 < 60
    ensures var total := elapsed / 3600000 * 3600000 + (elapsed % 3600000) / 60000 * 60000
                         + (elapsed % 60000) / 1000 * 1000;
      total <= elapsed < total + 1000
  {
    var h, r1 := elapsed / 3600000, elapsed % 3600000;
    var m, r2 := r1 / 60000, r1 % 60000;
    MinuteRemainder(elapsed, h * 60 + m, r2);
    var sec, r3 := r2 / 1000, r2 % 1000;
    assert r2 == sec * 1000 + r3;
  }

  lemma MinuteRemainder(x: int, q: int, r: int)
    requires x == q * 60000 + r && 0 <= r < 60000
    ensures x % 60000 == r
  {
  }

  /** `pad(value)`: a leading '0' below ten, the plain decimal otherwise. */
  function Pad(value: nat): (p: string)
    ensures value < 100 ==> |p| == 2 && AllDigits(p)
  {
    if value < 10 then "0" + NatToString(value) else NatToString(value)
  }

  /** Up to 99 `pad` is `padStart(2, '0')`, so it reads back as the number. */
  lemma PadReadsBack(value: nat)
    requires value < 100
    ensures ParseInt(Pad(value)) == Some(value)
  {
    assert Pad(value) == PadStart(NatToString(value), 2, '0');
    ParseIntOfPadded(value);
  }

  /** The text of one tick for `elapsed = now - beginDt`. */
  function TimerText(elapsed: nat): string {
    var parts := Breakdown(elapsed);
    Pad(parts.0) + ":" + Pad(parts.1) + ":" + Pad(parts.2)
  }

  lemma HoursBelow100(elapsed: nat)
    requires elapsed < 360000000
    ensures Breakdown(elapsed).0 < 100
  {
  }

  lemma WholeSeconds(elapsed: nat, h: nat, m: nat, s: nat)
    requires h * 3600000 + m * 60000 + s * 1000 <= elapsed
    requires elapsed < h * 3600000 + m * 60000 + s * 1000 + 1000
    ensures elapsed / 1000 == h * 3600 + m * 60 + s
  {
  }

  /** Below 100 hours a tick is eight characters and reads back as the
      whole seconds elapsed. */
  lemma ReadClockOfTimerText(elapsed: nat)
    requires elapsed < 360000000
    ensures |TimerText(elapsed)| == 8
    ensures ReadClock(TimerText(elapsed)).Some?
    ensures ReadClock(TimerText(elapsed)).value == elapsed / 1000
  {
    var parts := Breakdown(elapsed);
    HoursBelow100(elapsed);
    WholeSeconds(elapsed, parts.0, parts.1, parts.2);
    PadReadsBack(parts.0);
    PadReadsBack(parts.1);
    PadReadsBack(parts.2);
    ReadClockOfFields(Pad(parts.0), Pad(parts.1), Pad(parts.2), parts.0, parts.1, parts.2);
  }

  /** Throughout the first second the tick shows what the timer showed
      before it started. */
  lemma FirstSecondShowsInitial(elapsed: nat)
    requires elapsed < 1000
    ensures TimerText(elapsed) == InitialDisplay
  {
    assert Breakdown(elapsed) == (0, 0, 0);
    assert NatToString(0) == "0";
  }
}
