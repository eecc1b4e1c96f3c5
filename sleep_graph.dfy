/** The sleep graph of the past twelve hours: one sample every five minutes
    from the start of the hour twelve hours ago up to now, each with its
    label and whether a sleep was under way at it. */
module SleepGraph {
  import opened Text
  import opened ApiTypes
  import opened Sequences
  import opened Timeline

  /** `beginDt <= time && (endDt ?? time) >= time`: a sleep covers the
      instants from its start through its end, and every instant from its
      start on while it has no end. */
  predicate SleepCovers(e: ApiEvent, time: int) {
    e.header.beginDt <= time && (if EndDt(e).Some? then EndDt(e).value else time) >= time
  }

  /** Some sleep of the list covers `time`. */
  predicate AsleepAt(sleepEvents: seq<ApiEvent>, time: int) {
    exists i :: 0 <= i < |sleepEvents| && SleepCovers(sleepEvents[i], time)
  }

  /** `y` holds the asleep values of its samples from `start`. */
  ghost predicate AsleepSeries(y: seq<int>, start: int, sleepEvents: seq<ApiEvent>) {
    Sampled(y, start, (t: int) => Indicator(AsleepAt(sleepEvents, t)))
  }

  lemma AsleepStep(y: seq<int>, start: int, sleepEvents: seq<ApiEvent>, isAsleep: bool)
    requires AsleepSeries(y, start, sleepEvents) && isAsleep == AsleepAt(sleepEvents, SampleAt(start, |y|))
    ensures AsleepSeries(y + [Indicator(isAsleep)], start, sleepEvents)
  {
    SampledStep(y, start, (t: int) => Indicator(AsleepAt(sleepEvents, t)), Indicator(isAsleep));
  }

  /** The series of the first `|x|` samples from `start`: their labels and
      their asleep values. */
  ghost predicate Series(sleepEvents: seq<ApiEvent>, start: int, localTime: int -> LocalTime,
                         x: seq<string>, y: seq<int>)
  {
    |y| == |x|
    && LabelsOfSamples(x, start, localTime)
    && AsleepSeries(y, start, sleepEvents)
  }

  /** The sampling loop: the label of every sample and whether some sleep
      covers it, one entry per five-minute step from `startOfHour` while
      before `now`. */
  method GenerateAxisValues(sleepEvents: seq<ApiEvent>, startOfHour: int, now: int,
                            localTime: int -> LocalTime)
    returns (x: seq<string>, y: seq<int>)
    ensures SampledUntil(startOfHour, now, |x|)
    ensures Series(sleepEvents, startOfHour, localTime, x, y)
  {
    x, y := [], [];
    var time := startOfHour;
    while time < now
      invariant time == SampleAt(startOfHour, |x|)
      invariant |x| > 0 ==> SampleAt(startOfHour, |x| - 1) < now
      invariant Series(sleepEvents, startOfHour, localTime, x, y)
      decreases now - time
    {
      var isAsleep := Any(sleepEvents, (e: ApiEvent) => SleepCovers(e, time));
      AsleepStep(y, startOfHour, sleepEvents, isAsleep);
      x := PushLabel(x, startOfHour, localTime, time);
      y := y + [Indicator(isAsleep)];
      time := time + FiveMinutes;
    }
    StopRule(startOfHour, now, |x|);
  }

  /** What the graph plots: the sampled series, one entry per sample, and
      the hour ticks of the axis. */
  method Axes(sleepEvents: seq<ApiEvent>, startOfHour: int, now: int, localTime: int -> LocalTime)
    returns (x: seq<string>, y: seq<int>, hourIndices: seq<nat>, tickvals: seq<string>)
    ensures |x| == SampleCount(startOfHour, now)
    ensures Series(sleepEvents, startOfHour, localTime, x, y)
    ensures HourTicksOf(x, startOfHour, localTime, hourIndices, tickvals)
  {
    x, y := GenerateAxisValues(sleepEvents, startOfHour, now, localTime);
    SampledUntilCount(startOfHour, now, |x|);
    hourIndices, tickvals := HourTicks(x, startOfHour, localTime);
  }

  /** A sleep with no end marks every sample from its start on. */
  lemma OngoingSleepMarksLater(sleepEvents: seq<ApiEvent>, i: nat, time: int)
    requires i < |sleepEvents| && sleepEvents[i].Sleep? && sleepEvents[i].sleepEndDt.None?
    requires sleepEvents[i].header.beginDt <= time
    ensures AsleepAt(sleepEvents, time)
  {
    assert SleepCovers(sleepEvents[i], time);
  }

  /** A finished sleep covers exactly the instants from its start through
      its end. */
  lemma FinishedSleepCovers(e: ApiEvent, time: int)
    requires e.Sleep? && e.sleepEndDt.Some?
    ensures SleepCovers(e, time) <==> e.header.beginDt <= time <= e.sleepEndDt.value
  {
  }
}
