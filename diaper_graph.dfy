/** The diaper graph of the past twelve hours: one sample every five
    minutes from the start of the hour twelve hours ago up to now, each with
    its label and whether a wet or a dirty diaper was changed in the five
    minutes before it. */
module DiaperGraph {
  import opened Text
  import opened ApiTypes
  import opened Sequences
  import opened Timeline

  /** A diaper marks the five minutes from its start. */
  predicate DiaperCovers(e: ApiEvent, time: int) {
    e.header.beginDt <= time && e.header.beginDt + FiveMinutes >= time
  }

  /** Some wet diaper of the list covers `time`. */
  predicate WetAt(diaperEvents: seq<ApiEvent>, time: int) {
    exists i :: 0 <= i < |diaperEvents| && IsWet(diaperEvents[i]) && DiaperCovers(diaperEvents[i], time)
  }

  /** Some dirty diaper of the list covers `time`. */
  predicate DirtyAt(diaperEvents: seq<ApiEvent>, time: int) {
    exists i :: 0 <= i < |diaperEvents| && IsDirty(diaperEvents[i]) && DiaperCovers(diaperEvents[i], time)
  }

  /** `wet` holds the wet-diaper values of its samples from `start`. */
  ghost predicate WetSeries(wet: seq<int>, start: int, diaperEvents: seq<ApiEvent>) {
    Sampled(wet, start, (t: int) => Indicator(WetAt(diaperEvents, t)))
  }

  /** `dirty` holds the dirty-diaper values of its samples from `start`. */
  ghost predicate DirtySeries(dirty: seq<int>, start: int, diaperEvents: seq<ApiEvent>) {
    Sampled(dirty, start, (t: int) => Indicator(DirtyAt(diaperEvents, t)))
  }

  /** The values of the next sample extend both series. */
  lemma DiaperStep(wet: seq<int>, dirty: seq<int>, start: int, diaperEvents: seq<ApiEvent>,
                   isWet: bool, isDirty: bool)
    requires |dirty| == |wet|
    requires WetSeries(wet, start, diaperEvents) && DirtySeries(dirty, start, diaperEvents)
    requires isWet == WetAt(diaperEvents, SampleAt(start, |wet|))
    requires isDirty == DirtyAt(diaperEvents, SampleAt(start, |wet|))
    ensures WetSeries(wet + [Indicator(isWet)], start, diaperEvents)
    ensures DirtySeries(dirty + [Indicator(isDirty)], start, diaperEvents)
  {
    SampledStep(wet, start, (t: int) => Indicator(WetAt(diaperEvents, t)), Indicator(isWet));
    SampledStep(dirty, start, (t: int) => Indicator(DirtyAt(diaperEvents, t)), Indicator(isDirty));
  }

  /** The series of the first `|x|` samples from `start`: their labels
      and their wet and dirty values. */
  ghost predicate Series(diaperEvents: seq<ApiEvent>, start: int, localTime: int -> LocalTime,
                         x: seq<string>, wet: seq<int>, dirty: seq<int>)
  {
    |wet| == |x| && |dirty| == |x|
    && LabelsOfSamples(x, start, localTime)
    && WetSeries(wet, start, diaperEvents) && DirtySeries(dirty, start, diaperEvents)
  }

  /** Testing the wet diapers and the dirty diapers picked out of the
      list is testing the list for a diaper of either kind. */
  lemma DiaperOfFilters(diaperEvents: seq<ApiEvent>, time: int)
    ensures Any(Filter(diaperEvents, IsWet), (e: ApiEvent) => DiaperCovers(e, time))
            == WetAt(diaperEvents, time)
    ensures Any(Filter(diaperEvents, IsDirty), (e: ApiEvent) => DiaperCovers(e, time))
            == DirtyAt(diaperEvents, time)
  {
    AnyOfFilter(diaperEvents, IsWet, (e: ApiEvent) => DiaperCovers(e, time));
    AnyOfFilter(diaperEvents, IsDirty, (e: ApiEvent) => DiaperCovers(e, time));
  }

  /** The sampling loop: the label of every sample and whether a wet or a
      dirty diaper covers it, one entry per five-minute step from
      `startOfHour` while before `now`. */
  method GenerateAxisValues(diaperEvents: seq<ApiEvent>, startOfHour: int, now: int,
                            localTime: int -> LocalTime)
    returns (x: seq<string>, wet: seq<int>, dirty: seq<int>)
    ensures SampledUntil(startOfHour, now, |x|)
    ensures Series(diaperEvents, startOfHour, localTime, x, wet, dirty)
  {
    x, wet, dirty := [], [], [];
    var wetDiapers := Filter(diaperEvents, IsWet);
    var dirtyDiapers := Filter(diaperEvents, IsDirty);
    var time := startOfHour;
    while time < now
      invariant time == SampleAt(startOfHour, |x|)
      invariant |x| > 0 ==> SampleAt(startOfHour, |x| - 1) < now
      invariant Series(diaperEvents, startOfHour, localTime, x, wet, dirty)
      decreases now - time
    {
      var isWet := Any(wetDiapers, (e: ApiEvent) => DiaperCovers(e, time));
      var isDirty := Any(dirtyDiapers, (e: ApiEvent) => DiaperCovers(e, time));
      DiaperOfFilters(diaperEvents, time);
      DiaperStep(wet, dirty, startOfHour, diaperEvents, isWet, isDirty);
      x := PushLabel(x, startOfHour, localTime, time);
      wet := wet + [Indicator(isWet)];
      dirty := dirty + [Indicator(isDirty)];
      time := time + FiveMinutes;
    }
    StopRule(startOfHour, now, |x|);
  }

  /** What the graph plots: the sampled series, one entry per sample, and
      the hour ticks of the axis. */
  method Axes(diaperEvents: seq<ApiEvent>, startOfHour: int, now: int, localTime: int -> LocalTime)
    returns (x: seq<string>, wet: seq<int>, dirty: seq<int>,
             hourIndices: seq<nat>, tickvals: seq<string>)
    ensures |x| == SampleCount(startOfHour, now)
    ensures Series(diaperEvents, startOfHour, localTime, x, wet, dirty)
    ensures HourTicksOf(x, startOfHour, localTime, hourIndices, tickvals)
  {
    x, wet, dirty := GenerateAxisValues(diaperEvents, startOfHour, now, localTime);
    SampledUntilCount(startOfHour, now, |x|);
    hourIndices, tickvals := HourTicks(x, startOfHour, localTime);
  }

  /** A diaper both wet and dirty marks both series over its five
      minutes. */
  lemma BothFlagsMarkBoth(diaperEvents: seq<ApiEvent>, i: nat, time: int)
    requires i < |diaperEvents|
    requires diaperEvents[i].Diaper? && diaperEvents[i].diaperTypePee == Some(true)
             && diaperEvents[i].diaperTypePoop == Some(true)
    requires diaperEvents[i].header.beginDt <= time <= diaperEvents[i].header.beginDt + FiveMinutes
    ensures WetAt(diaperEvents, time) && DirtyAt(diaperEvents, time)
  {
    assert IsWet(diaperEvents[i]) && IsDirty(diaperEvents[i]) && DiaperCovers(diaperEvents[i], time);
  }

  /** A diaper with neither flag set (dry, or flags missing) marks neither
      series: adding it changes nothing. */
  lemma NeitherFlagIgnored(diaperEvents: seq<ApiEvent>, e: ApiEvent, time: int)
    requires !e.Diaper? || (e.diaperTypePee != Some(true) && e.diaperTypePoop != Some(true))
    ensures WetAt(diaperEvents + [e], time) == WetAt(diaperEvents, time)
    ensures DirtyAt(diaperEvents + [e], time) == DirtyAt(diaperEvents, time)
  {
    var all := diaperEvents + [e];
    if WetAt(all, time) {
      var i :| 0 <= i < |all| && IsWet(all[i]) && DiaperCovers(all[i], time);
      assert i < |diaperEvents| && all[i] == diaperEvents[i];
    }
    if DirtyAt(all, time) {
      var i :| 0 <= i < |all| && IsDirty(all[i]) && DiaperCovers(all[i], time);
      assert i < |diaperEvents| && all[i] == diaperEvents[i];
    }
    if WetAt(diaperEvents, time) {
      var i :| 0 <= i < |diaperEvents| && IsWet(diaperEvents[i]) && DiaperCovers(diaperEvents[i], time);
      assert all[i] == diaperEvents[i];
    }
    if DirtyAt(diaperEvents, time) {
      var i :| 0 <= i < |diaperEvents| && IsDirty(diaperEvents[i]) && DiaperCovers(diaperEvents[i], time);
      assert all[i] == diaperEvents[i];
    }
  }
}
