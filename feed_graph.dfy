/** The feeding graph of the past twelve hours: one sample every five
    minutes from the start of the hour twelve hours ago up to now, each with
    its label and whether a breast feed or a bottle feed was under way. */
module FeedGraph {
  import opened Text
  import opened ApiTypes
  import opened Sequences
  import opened Timeline

  /** A breast feed covers the instants from its start through its two
      nursing durations plus five minutes. */
  predicate BreastCovers(e: ApiEvent, time: int) {
    e.header.beginDt <= time
    && e.header.beginDt + LeftDuration(e) + RightDuration(e) + FiveMinutes >= time
  }

  /** A bottle feed covers the five minutes from its start. */
  predicate BottleCovers(e: ApiEvent, time: int) {
    e.header.beginDt <= time && e.header.beginDt + FiveMinutes >= time
  }

  /** Some breast feed of the list covers `time`. */
  predicate BreastFeedingAt(feedEvents: seq<ApiEvent>, time: int) {
    exists i :: 0 <= i < |feedEvents| && IsBreastFeed(feedEvents[i]) && BreastCovers(feedEvents[i], time)
  }

  /** Some bottle feed of the list covers `time`. */
  predicate BottleFeedingAt(feedEvents: seq<ApiEvent>, time: int) {
    exists i :: 0 <= i < |feedEvents| && IsBottleFeed(feedEvents[i]) && BottleCovers(feedEvents[i], time)
  }

  /** `breast` holds the breast-feeding values of its samples from
      `start`. */
  ghost predicate BreastSeries(breast: seq<int>, start: int, feedEvents: seq<ApiEvent>) {
    Sampled(breast, start, (t: int) => Indicator(BreastFeedingAt(feedEvents, t)))
  }

  /** `bottle` holds the bottle-feeding values of its samples from
      `start`. */
  ghost predicate BottleSeries(bottle: seq<int>, start: int, feedEvents: seq<ApiEvent>) {
    Sampled(bottle, start, (t: int) => Indicator(BottleFeedingAt(feedEvents, t)))
  }

  /** The values of the next sample extend both series. */
  lemma FeedStep(breast: seq<int>, bottle: seq<int>, start: int, feedEvents: seq<ApiEvent>,
                 breastFeeding: bool, bottleFeeding: bool)
    requires |bottle| == |breast|
    requires BreastSeries(breast, start, feedEvents) && BottleSeries(bottle, start, feedEvents)
    requires breastFeeding == BreastFeedingAt(feedEvents, SampleAt(start, |breast|))
    requires bottleFeeding == BottleFeedingAt(feedEvents, SampleAt(start, |breast|))
    ensures BreastSeries(breast + [Indicator(breastFeeding)], start, feedEvents)
    ensures BottleSeries(bottle + [Indicator(bottleFeeding)], start, feedEvents)
  {
    SampledStep(breast, start, (t: int) => Indicator(BreastFeedingAt(feedEvents, t)),
                Indicator(breastFeeding));
    SampledStep(bottle, start, (t: int) => Indicator(BottleFeedingAt(feedEvents, t)),
                Indicator(bottleFeeding));
  }

  /** The series of the first `|x|` samples from `start`: their labels
      and their breast and bottle values. */
  ghost predicate Series(feedEvents: seq<ApiEvent>, start: int, localTime: int -> LocalTime,
                         x: seq<string>, breast: seq<int>, bottle: seq<int>)
  {
    |breast| == |x| && |bottle| == |x|
    && LabelsOfSamples(x, start, localTime)
    && BreastSeries(breast, start, feedEvents) && BottleSeries(bottle, start, feedEvents)
  }

  /** Testing the breast feeds and the bottle feeds picked out of the list
      is testing the list for a feed of either kind. */
  lemma FeedingOfFilters(feedEvents: seq<ApiEvent>, time: int)
    ensures Any(Filter(feedEvents, IsBreastFeed), (e: ApiEvent) => BreastCovers(e, time))
            == BreastFeedingAt(feedEvents, time)
    ensures Any(Filter(feedEvents, IsBottleFeed), (e: ApiEvent) => BottleCovers(e, time))
            == BottleFeedingAt(feedEvents, time)
  {
    AnyOfFilter(feedEvents, IsBreastFeed, (e: ApiEvent) => BreastCovers(e, time));
    AnyOfFilter(feedEvents, IsBottleFeed, (e: ApiEvent) => BottleCovers(e, time));
  }

  /** The sampling loop: the label of every sample and whether a breast or
      a bottle feed was under way at it, one entry per five-minute step
      from `startOfHour` while before `now`. */
  method GenerateAxisValues(feedEvents: seq<ApiEvent>, startOfHour: int, now: int,
                            localTime: int -> LocalTime)
    returns (x: seq<string>, breast: seq<int>, bottle: seq<int>)
    ensures SampledUntil(startOfHour, now, |x|)
    ensures Series(feedEvents, startOfHour, localTime, x, breast, bottle)
  {
    x, breast, bottle := [], [], [];
    var breastFeedings := Filter(feedEvents, IsBreastFeed);
    var bottleFeedings := Filter(feedEvents, IsBottleFeed);
    var time := startOfHour;
    while time < now
      invariant time == SampleAt(startOfHour, |x|)
      invariant |x| > 0 ==> SampleAt(startOfHour, |x| - 1) < now
      invariant Series(feedEvents, startOfHour, localTime, x, breast, bottle)
      decreases now - time
    {
      var breastFeeding := Any(breastFeedings, (e: ApiEvent) => BreastCovers(e, time));
      var bottleFeeding := Any(bottleFeedings, (e: ApiEvent) => BottleCovers(e, time));
      FeedingOfFilters(feedEvents, time);
      FeedStep(breast, bottle, startOfHour, feedEvents, breastFeeding, bottleFeeding);
      x := PushLabel(x, startOfHour, localTime, time);
      breast := breast + [Indicator(breastFeeding)];
      bottle := bottle + [Indicator(bottleFeeding)];
      time := time + FiveMinutes;
    }
    StopRule(startOfHour, now, |x|);
  }

  /** What the graph plots: the sampled series, one entry per sample, and
      the hour ticks of the axis. */
  method Axes(feedEvents: seq<ApiEvent>, startOfHour: int, now: int, localTime: int -> LocalTime)
    returns (x: seq<string>, breast: seq<int>, bottle: seq<int>,
             hourIndices: seq<nat>, tickvals: seq<string>)
    ensures |x| == SampleCount(startOfHour, now)
    ensures Series(feedEvents, startOfHour, localTime, x, breast, bottle)
    ensures HourTicksOf(x, startOfHour, localTime, hourIndices, tickvals)
  {
    x, breast, bottle := GenerateAxisValues(feedEvents, startOfHour, now, localTime);
    SampledUntilCount(startOfHour, now, |x|);
    hourIndices, tickvals := HourTicks(x, startOfHour, localTime);
  }

  /** A bottle feed marks the samples in the five minutes after it began,
      whatever else the list holds. */
  lemma BottleMarksFiveMinutes(feedEvents: seq<ApiEvent>, i: nat, time: int)
    requires i < |feedEvents| && feedEvents[i].Bottle?
    requires feedEvents[i].header.beginDt <= time <= feedEvents[i].header.beginDt + FiveMinutes
    ensures BottleFeedingAt(feedEvents, time)
  {
    assert IsBottleFeed(feedEvents[i]) && BottleCovers(feedEvents[i], time);
  }

  /** A breast feed covers at least its own five minutes, and longer by
      exactly its recorded nursing time. */
  lemma BreastCoverExtends(e: ApiEvent, time: int)
    requires e.Breast? && e.breastLeftDuration.Some? && e.breastRightDuration.Some?
    ensures BreastCovers(e, time) <==>
              e.header.beginDt <= time
              <= e.header.beginDt + e.breastLeftDuration.value + e.breastRightDuration.value + FiveMinutes
  {
  }

  /** Events other than feeds of the matching kind never mark a series:
      adding one changes neither. */
  lemma OtherEventsIgnored(feedEvents: seq<ApiEvent>, e: ApiEvent, time: int)
    requires !e.Breast? && !e.Bottle? && (e.Unrecognized? ==> !IsFeedSubtype(e.feedTypeTag))
    ensures BreastFeedingAt(feedEvents + [e], time) == BreastFeedingAt(feedEvents, time)
    ensures BottleFeedingAt(feedEvents + [e], time) == BottleFeedingAt(feedEvents, time)
  {
    var all := feedEvents + [e];
    if BreastFeedingAt(all, time) {
      var i :| 0 <= i < |all| && IsBreastFeed(all[i]) && BreastCovers(all[i], time);
      assert i < |feedEvents| && all[i] == feedEvents[i];
    }
    if BottleFeedingAt(all, time) {
      var i :| 0 <= i < |all| && IsBottleFeed(all[i]) && BottleCovers(all[i], time);
      assert i < |feedEvents| && all[i] == feedEvents[i];
    }
    if BreastFeedingAt(feedEvents, time) {
      var i :| 0 <= i < |feedEvents| && IsBreastFeed(feedEvents[i]) && BreastCovers(feedEvents[i], time);
      assert all[i] == feedEvents[i];
    }
    if BottleFeedingAt(feedEvents, time) {
      var i :| 0 <= i < |feedEvents| && IsBottleFeed(feedEvents[i]) && BottleCovers(feedEvents[i], time);
      assert all[i] == feedEvents[i];
    }
  }
}
