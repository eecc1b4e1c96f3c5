/** The "today" cards: counts of today's diapers, feeds and naps, the wet
    and dirty diapers among them, the bottle volume, the left and right
    nursing time and the nap time, and the `HH:MM:SS` text the durations
    are shown in. The local start of today is a parameter. */
module TodaysSummary {
  import opened Text
  import opened ApiTypes
  import opened Sequences
  import opened DataManager

  // ---------------------------------------------------------------------
  // formatTime

  /** The hours, minutes and seconds `formatTime` splits a number of
      seconds into. */
  function TimeParts(seconds: nat): (parts: (nat, nat, nat))
    ensures parts.1 < 60 && parts.2 < 60
    ensures parts.0 * 3600 + parts.1 * 60 + parts.2 == seconds
  {
    (seconds / 3600, (seconds % 3600) / 60, seconds % 60)
  }

  /** `String(n).padStart(2, '0')`. */
  function TwoPlaces(n: nat): string {
    PadStart(NatToString(n), 2, '0')
  }

  /** `formatTime(seconds)`: `HH:MM:SS`, every field at least two places. */
  function FormatTime(seconds: nat): string {
    var parts := TimeParts(seconds);
    FormatFields(parts.0, parts.1, parts.2)
  }

  function FormatFields(hours: nat, minutes: nat, remainingSeconds: nat): string {
    TwoPlaces(hours) + ":" + TwoPlaces(minutes) + ":" + TwoPlaces(remainingSeconds)
  }

  /** Fields below 100 give eight characters that read back field by
      field. */
  lemma ReadClockOfFormatFields(hours: nat, minutes: nat, remainingSeconds: nat)
    requires hours < 100 && minutes < 100 && remainingSeconds < 100
    ensures |FormatFields(hours, minutes, remainingSeconds)| == 8
    ensures ReadClock(FormatFields(hours, minutes, remainingSeconds))
         == Some(hours * 3600 + minutes * 60 + remainingSeconds)
  {
    ParseIntOfPadded(hours);
    ParseIntOfPadded(minutes);
    ParseIntOfPadded(remainingSeconds);
    Text.ReadClockOfFields(TwoPlaces(hours), TwoPlaces(minutes), TwoPlaces(remainingSeconds),
                           hours, minutes, remainingSeconds);
  }

  lemma HoursBelow100(seconds: nat)
    requires seconds < 360000
    ensures TimeParts(seconds).0 < 100
  {
  }

  /** Below 100 hours the text is eight characters and reads back as the
      number of seconds it shows. */
  lemma ReadClockOfFormatTime(seconds: nat)
    requires seconds < 360000
    ensures |FormatTime(seconds)| == 8
    ensures ReadClock(FormatTime(seconds)).Some?
    ensures ReadClock(FormatTime(seconds)).value == seconds
  {
    var parts := TimeParts(seconds);
    HoursBelow100(seconds);
    ReadClockOfFormatFields(parts.0, parts.1, parts.2);
  }

  /** Different durations below 100 hours are shown differently. */
  lemma FormatTimeInjective(a: nat, b: nat)
    requires a < 360000 && b < 360000 && FormatTime(a) == FormatTime(b)
    ensures a == b
  {
    ReadClockOfFormatTime(a);
    ReadClockOfFormatTime(b);
  }

  // ---------------------------------------------------------------------
  // Today's totals

  /** `x.endDt !== undefined`: a finished nap. */
  predicate HasEnd(e: ApiEvent) {
    e.Sleep? && e.sleepEndDt.Some?
  }

  /** `(endDt ? endDt : beginDt) - beginDt`: an end of 0 is falsy and
      counts as no time at all. */
  function NapLength(e: ApiEvent): (ms: int)
    ensures HasEnd(e) && e.sleepEndDt.value != 0 ==>
              ms == e.sleepEndDt.value - e.header.beginDt
    ensures HasEnd(e) && e.sleepEndDt.value >= e.header.beginDt ==> ms >= 0
  {
    if HasEnd(e) && e.sleepEndDt.value != 0 then e.sleepEndDt.value - e.header.beginDt else 0
  }

  /** The raw totals of a day: counts, the bottle volume, the nursing times
      and the nap time in milliseconds. */
  datatype Totals = Totals(diapers: nat, wet: nat, dirty: nat, feeds: nat, naps: nat,
                           bottleVolume: int, leftMs: int, rightMs: int, napMs: int)

  const NoTotals := Totals(0, 0, 0, 0, 0, 0, 0, 0, 0)

  function AddTotals(a: Totals, b: Totals): Totals {
    Totals(a.diapers + b.diapers, a.wet + b.wet, a.dirty + b.dirty, a.feeds + b.feeds,
           a.naps + b.naps, a.bottleVolume + b.bottleVolume, a.leftMs + b.leftMs,
           a.rightMs + b.rightMs, a.napMs + b.napMs)
  }

  /** The totals the source computes: today's events of each kind, then
      the diaper flags, the bottle and breast feeds among the feeds, and
      the finished naps among the naps. */
  function DailyTotals(events: seq<ApiEvent>, startOfDay: int): Totals {
    var todaysFeeds := GetTodaysEventsByType(events, FEED, startOfDay);
    var todaysNaps := GetTodaysEventsByType(events, SLEEP, startOfDay);
    var todaysDiapers := GetTodaysEventsByType(events, DIAPER, startOfDay);
    Totals(|todaysDiapers|, Count(todaysDiapers, IsWet), Count(todaysDiapers, IsDirty),
           |todaysFeeds|, |todaysNaps|,
           Sum(Filter(todaysFeeds, IsBottleFeed), BottleVolume),
           Sum(Filter(todaysFeeds, IsBreastFeed), LeftDuration),
           Sum(Filter(todaysFeeds, IsBreastFeed), RightDuration),
           Sum(Filter(todaysNaps, HasEnd), NapLength))
  }

  /** What one event adds to the day's totals: nothing unless it began at
      or after the start of the day, and then according to its kind. */
  function Contribution(e: ApiEvent, startOfDay: int): Totals {
    var today := e.header.beginDt >= startOfDay;
    var feed := today && HasType(e, FEED);
    var nap := today && HasType(e, SLEEP);
    var diaper := today && HasType(e, DIAPER);
    Totals(if diaper then 1 else 0,
           if diaper && IsWet(e) then 1 else 0,
           if diaper && IsDirty(e) then 1 else 0,
           if feed then 1 else 0,
           if nap then 1 else 0,
           if feed && IsBottleFeed(e) then BottleVolume(e) else 0,
           if feed && IsBreastFeed(e) then LeftDuration(e) else 0,
           if feed && IsBreastFeed(e) then RightDuration(e) else 0,
           if nap && HasEnd(e) then NapLength(e) else 0)
  }

  /** The filter-and-reduce pipeline equals the event-by-event sum of
      contributions: on the empty list every total is 0 ... */
  lemma DailyTotalsEmpty(startOfDay: int)
    ensures DailyTotals([], startOfDay) == NoTotals
  {
  }

  lemma CountSnoc<T>(s: seq<T>, x: T, p: T -> bool)
    ensures Count(s + [x], p) == Count(s, p) + (if p(x) then 1 else 0)
  {
    FilterSnoc(s, x, p);
  }

  /** ... and appending an event adds its contribution. Together the two
      lemmas determine every total. */
  lemma DailyTotalsSnoc(events: seq<ApiEvent>, e: ApiEvent, startOfDay: int)
    ensures DailyTotals(events + [e], startOfDay) ==
            AddTotals(DailyTotals(events, startOfDay), Contribution(e, startOfDay))
  {
    FeedTotalsSnoc(events, e, startOfDay);
    NapTotalsSnoc(events, e, startOfDay);
    DiaperTotalsSnoc(events, e, startOfDay);
  }

  lemma FeedTotalsSnoc(events: seq<ApiEvent>, e: ApiEvent, startOfDay: int)
    ensures var before := DailyTotals(events, startOfDay);
      var after := DailyTotals(events + [e], startOfDay);
      var c := Contribution(e, startOfDay);
      && after.feeds == before.feeds + c.feeds
      && after.bottleVolume == before.bottleVolume + c.bottleVolume
      && after.leftMs == before.leftMs + c.leftMs
      && after.rightMs == before.rightMs + c.rightMs
  {
    var feeds := GetTodaysEventsByType(events, FEED, startOfDay);
    TodaysEventsSnoc(events, e, FEED, startOfDay);
    if e.header.beginDt >= startOfDay && HasType(e, FEED) {
      SumFilterSnoc(feeds, e, IsBottleFeed, BottleVolume);
      SumFilterSnoc(feeds, e, IsBreastFeed, LeftDuration);
      SumFilterSnoc(feeds, e, IsBreastFeed, RightDuration);
    } else {
      assert feeds + [] == feeds;
    }
  }

  lemma NapTotalsSnoc(events: seq<ApiEvent>, e: ApiEvent, startOfDay: int)
    ensures var before := DailyTotals(events, startOfDay);
      var after := DailyTotals(events + [e], startOfDay);
      var c := Contribution(e, startOfDay);
      after.naps == before.naps + c.naps && after.napMs == before.napMs + c.napMs
  {
    var naps := GetTodaysEventsByType(events, SLEEP, startOfDay);
    TodaysEventsSnoc(events, e, SLEEP, startOfDay);
    if e.header.beginDt >= startOfDay && HasType(e, SLEEP) {
      SumFilterSnoc(naps, e, HasEnd, NapLength);
    } else {
      assert naps + [] == naps;
    }
  }

  lemma DiaperTotalsSnoc(events: seq<ApiEvent>, e: ApiEvent, startOfDay: int)
    ensures var before := DailyTotals(events, startOfDay);
      var after := DailyTotals(events + [e], startOfDay);
      var c := Contribution(e, startOfDay);
      && after.diapers == before.diapers + c.diapers
      && after.wet == before.wet + c.wet
      && after.dirty == before.dirty + c.dirty
  {
    var diapers := GetTodaysEventsByType(events, DIAPER, startOfDay);
    TodaysEventsSnoc(events, e, DIAPER, startOfDay);
    if e.header.beginDt >= startOfDay && HasType(e, DIAPER) {
      CountSnoc(diapers, e, IsWet);
      CountSnoc(diapers, e, IsDirty);
    } else {
      assert diapers + [] == diapers;
    }
  }

  /** An event that began before today changes no total. */
  lemma EarlierEventIgnored(events: seq<ApiEvent>, e: ApiEvent, startOfDay: int)
    requires e.header.beginDt < startOfDay
    ensures DailyTotals(events + [e], startOfDay) == DailyTotals(events, startOfDay)
  {
    DailyTotalsSnoc(events, e, startOfDay);
  }

  /** A nap still in progress counts as a nap but adds no nap time. */
  lemma OngoingNapAddsNoTime(events: seq<ApiEvent>, e: ApiEvent, startOfDay: int)
    requires e.Sleep? && e.sleepEndDt == None && e.header.beginDt >= startOfDay
    ensures DailyTotals(events + [e], startOfDay).naps == DailyTotals(events, startOfDay).naps + 1
    ensures DailyTotals(events + [e], startOfDay).napMs == DailyTotals(events, startOfDay).napMs
  {
    NapTotalsSnoc(events, e, startOfDay);
    assert HasType(e, SLEEP) && !HasEnd(e);
    assert Contribution(e, startOfDay).naps == 1 && Contribution(e, startOfDay).napMs == 0;
  }

  /** Event data the app itself records: no negative volume or duration,
      and no nap that ends before it began. */
  predicate Plausible(e: ApiEvent) {
    BottleVolume(e) >= 0 && LeftDuration(e) >= 0 && RightDuration(e) >= 0
    && (HasEnd(e) ==> e.sleepEndDt.value >= e.header.beginDt)
  }

  /** Whatever its data, one event adds at most one diaper, feed or nap,
      and wet or dirty counts only on a diaper. */
  lemma ContributionCounts(e: ApiEvent, startOfDay: int)
    ensures var c := Contribution(e, startOfDay);
      && c.wet <= c.diapers && c.dirty <= c.diapers
      && c.diapers + c.feeds + c.naps <= 1
  {
    var today := e.header.beginDt >= startOfDay;
    if today && HasType(e, FEED) {
      assert !HasType(e, SLEEP) && !HasType(e, DIAPER);
    } else if today && HasType(e, SLEEP) {
      assert !HasType(e, DIAPER);
    }
  }

  /** A plausible event also adds no negative amount. */
  lemma ContributionBounded(e: ApiEvent, startOfDay: int)
    requires Plausible(e)
    ensures var c := Contribution(e, startOfDay);
      && c.bottleVolume >= 0 && c.leftMs >= 0 && c.rightMs >= 0 && c.napMs >= 0
      && c.wet <= c.diapers && c.dirty <= c.diapers
      && c.diapers + c.feeds + c.naps <= 1
  {
    var today := e.header.beginDt >= startOfDay;
    if today && HasType(e, FEED) {
      assert !HasType(e, SLEEP) && !HasType(e, DIAPER);
    } else if today && HasType(e, SLEEP) {
      assert !HasType(e, DIAPER);
    }
  }

  /** Over any events the wet and dirty counts never exceed the diaper
      count, and no count exceeds the number of events. */
  lemma {:induction false} TotalsCountsBounded(events: seq<ApiEvent>, startOfDay: int)
    ensures var r := DailyTotals(events, startOfDay);
      && r.wet <= r.diapers && r.dirty <= r.diapers
      && r.diapers + r.feeds + r.naps <= |events|
    decreases |events|
  {
    if events != [] {
      var init := events[..|events| - 1];
      var last := events[|events| - 1];
      assert init + [last] == events;
      TotalsCountsBounded(init, startOfDay);
      ContributionCounts(last, startOfDay);
      DailyTotalsSnoc(init, last, startOfDay);
    }
  }

  /** Over plausible events every total is also non-negative. */
  lemma {:induction false} TotalsBounded(events: seq<ApiEvent>, startOfDay: int)
    requires forall i :: 0 <= i < |events| ==> Plausible(events[i])
    ensures var r := DailyTotals(events, startOfDay);
      && r.bottleVolume >= 0 && r.leftMs >= 0 && r.rightMs >= 0 && r.napMs >= 0
      && r.wet <= r.diapers && r.dirty <= r.diapers
      && r.diapers + r.feeds + r.naps <= |events|
    decreases |events|
  {
    if events != [] {
      var init := events[..|events| - 1];
      var last := events[|events| - 1];
      assert init + [last] == events;
      TotalsBounded(init, startOfDay);
      ContributionBounded(last, startOfDay);
      DailyTotalsSnoc(init, last, startOfDay);
    }
  }

  // ---------------------------------------------------------------------
  // The displayed summary

  /** What the cards show: the counts, the bottle volume (the source then
      scales it to ounces in floating point), the nursing times in whole
      seconds and the nap time in milliseconds. */
  datatype Summary = Summary(diapers: nat, wet: nat, dirty: nat, feeds: nat, naps: nat,
                             bottleVolume: int, nursingLeft: int, nursingRight: int,
                             napMs: int)

  /** Before the first non-empty list every card shows 0. */
  const InitialSummary := Summary(0, 0, 0, 0, 0, 0, 0, 0, 0)

  /** The summary of a day's totals: nursing milliseconds are shown as
      `Math.floor(total / 1000)` seconds. */
  function Display(t: Totals): (s: Summary)
    ensures s.nursingLeft * 1000 <= t.leftMs < s.nursingLeft * 1000 + 1000
    ensures s.nursingRight * 1000 <= t.rightMs < s.nursingRight * 1000 + 1000
    ensures (s.diapers, s.wet, s.dirty, s.feeds, s.naps, s.bottleVolume, s.napMs)
         == (t.diapers, t.wet, t.dirty, t.feeds, t.naps, t.bottleVolume, t.napMs)
  {
    Summary(t.diapers, t.wet, t.dirty, t.feeds, t.naps, t.bottleVolume,
            t.leftMs / 1000, t.rightMs / 1000, t.napMs)
  }

  /** The effect that runs when the event list changes: it recomputes the
      summary only for a non-empty list and otherwise keeps what was shown. */
  function Refresh(shown: Summary, trackValues: seq<ApiEvent>, startOfDay: int): (s: Summary) {
    if |trackValues| > 0 then Display(DailyTotals(trackValues, startOfDay)) else shown
  }

  /** An empty list leaves the shown summary alone, even one computed for
      a previous list; a non-empty list overwrites it whatever it was. */
  lemma RefreshKeepsOnEmpty(shown: Summary, other: Summary, trackValues: seq<ApiEvent>,
                            startOfDay: int)
    ensures trackValues == [] ==> Refresh(shown, trackValues, startOfDay) == shown
    ensures trackValues != [] ==>
              Refresh(shown, trackValues, startOfDay) == Refresh(other, trackValues, startOfDay)
  {
  }

  /** Emptying the list after a day with activity keeps that day's counts
      on screen. */
  lemma StaleSummaryAfterEmptyList(events: seq<ApiEvent>, startOfDay: int)
    requires events != []
    ensures Refresh(Refresh(InitialSummary, events, startOfDay), [], startOfDay)
         == Display(DailyTotals(events, startOfDay))
  {
  }
}
