/** What the three twelve-hour graphs share: sample instants five minutes
    apart from a start up to the current instant, the `h:mm AM` label of
    each sample, and the positions where the label's hour changes, which
    become the axis ticks. The local time of an instant is a parameter. */
module Timeline {
  import opened Text

  const FiveMinutes := 5 * 60 * 1000

  /** The `k`-th sample instant after `start`. */
  function SampleAt(start: int, k: nat): int {
    start + k * FiveMinutes
  }

  /** `n` samples are taken from `start` while the instant is before
      `now`: every one of them is before `now` and the next would not
      be. */
  predicate SampledUntil(start: int, now: int, n: nat) {
    (forall k: nat :: k < n ==> SampleAt(start, k) < now) && SampleAt(start, n) >= now
  }

  lemma StopRule(start: int, now: int, n: nat)
    requires n > 0 ==> SampleAt(start, n - 1) < now
    requires SampleAt(start, n) >= now
    ensures SampledUntil(start, now, n)
  {
  }

  /** The number of samples, in closed form: none when `start` is not
      before `now`, otherwise the number of five-minute steps it takes to
      reach `now`, rounded up. */
  function SampleCount(start: int, now: int): nat {
    if start >= now then 0 else (now - start + FiveMinutes - 1) / FiveMinutes
  }

  /** The stop rule of the sampling loops determines the number of
      samples. */
  lemma SampledUntilCount(start: int, now: int, n: nat)
    requires SampledUntil(start, now, n)
    ensures n == SampleCount(start, now)
  {
    if n > 0 {
      assert SampleAt(start, n - 1) < now;
    }
  }

  /** An hour of the day, as `getHours` gives it. */
  type Hour = h: nat | h < 24

  /** A minute of the hour, as `getMinutes` gives it. */
  type Minute = m: nat | m < 60

  /** The local wall-clock time of an instant. */
  datatype LocalTime = LocalTime(hours: Hour, minutes: Minute)

  /** `hours % 12 || 12`. */
  function H12(hours: Hour): (h: nat)
    ensures 1 <= h <= 12
    ensures h % 12 == hours % 12
  {
    if hours % 12 == 0 then 12 else hours % 12
  }

  function AmPm(hours: Hour): (s: string)
    ensures s == "AM" <==> hours < 12
    ensures s == "PM" <==> hours >= 12
  {
    if hours >= 12 then "PM" else "AM"
  }

  /** The axis label of a sample: `h:mm AM`, the hour on the twelve-hour
      clock without padding, the minutes prefixed by '0' below ten. */
  function Label(t: LocalTime): string {
    NatToString(H12(t.hours)) + ":" + (if t.minutes < 10 then "0" else "")
    + NatToString(t.minutes) + " " + AmPm(t.hours)
  }

  /** The minutes of a label are the minutes padded to two places. */
  lemma LabelPadsMinutes(t: LocalTime)
    ensures Label(t) == NatToString(H12(t.hours)) + ":" + PadStart(NatToString(t.minutes), 2, '0')
                        + " " + AmPm(t.hours)
  {
  }

  /** `value.split(':')[0]`: the text before the first colon, or all of it. */
  function BeforeColon(s: string): (r: string)
    ensures |r| <= |s| && r == s[..|r|]
    ensures forall i :: 0 <= i < |r| ==> r[i] != ':'
    ensures |r| < |s| ==> s[|r|] == ':'
  {
    if s == [] || s[0] == ':' then [] else [s[0]] + BeforeColon(s[1..])
  }

  lemma {:induction false} BeforeColonOfDigits(a: string, rest: string)
    requires AllDigits(a)
    ensures BeforeColon(a + ":" + rest) == a
  {
    var s := a + ":" + rest;
    var r := BeforeColon(s);
    assert s[..|a|] == a && s[|a|] == ':';
  }

  /** `parseInt(value.split(':')[0])`; `None` stands for `NaN`. */
  function HourOf(value: string): Option<int> {
    ParseInt(BeforeColon(value))
  }

  /** A label reads back as its twelve-hour-clock hour. */
  lemma HourOfLabel(t: LocalTime)
    ensures HourOf(Label(t)) == Some(H12(t.hours))
  {
    var hourText := NatToString(H12(t.hours));
    var rest := (if t.minutes < 10 then "0" else "") + NatToString(t.minutes) + " " + AmPm(t.hours);
    assert Label(t) == hourText + ":" + rest;
    BeforeColonOfDigits(hourText, rest);
    DigitsValueOfNatToString(H12(t.hours));
    ParseIntOfDigits(hourText);
  }

  /** `hour !== currentHour` for numbers that may be `NaN`: `NaN` differs
      from everything, itself included. */
  predicate Differs(hour: Option<int>, currentHour: Option<int>) {
    hour.None? || currentHour.None? || hour.value != currentHour.value
  }

  /** The hour the loop compares label `i` with: -1 before the first label,
      then the hour of the label before. */
  function PreviousHour(labels: seq<string>, i: nat): Option<int>
    requires i < |labels|
  {
    if i == 0 then Some(-1) else HourOf(labels[i - 1])
  }

  predicate StartsHour(labels: seq<string>, i: nat)
    requires i < |labels|
  {
    Differs(HourOf(labels[i]), PreviousHour(labels, i))
  }

  /** The positions below `upTo` at which `starts` holds, in increasing
      order, and no others. */
  ghost predicate TicksBelow(upTo: nat, ticks: seq<nat>, starts: nat -> bool) {
    (forall j :: 0 <= j < |ticks| ==> ticks[j] < upTo)
    && (forall j, k :: 0 <= j < k < |ticks| ==> ticks[j] < ticks[k])
    && (forall i: nat :: i < upTo ==> (i in ticks <==> starts(i)))
  }

  /** One turn of the hour-tick loop keeps the ticks exact. */
  lemma TickStep(index: nat, ticks: seq<nat>, starts: nat -> bool)
    requires TicksBelow(index, ticks, starts)
    ensures TicksBelow(index + 1, if starts(index) then ticks + [index] else ticks, starts)
  {
    if starts(index) {
      var next := ticks + [index];
      assert forall j :: 0 <= j < |ticks| ==> next[j] == ticks[j];
      assert forall i: nat :: i < index ==> (i in next <==> i in ticks);
      assert index in next;
    }
  }

  /** The hour-tick loop: the positions whose label's hour differs from the
      hour last seen, in increasing order. */
  method HourIndices(labels: seq<string>) returns (hourIndices: seq<nat>)
    ensures forall j :: 0 <= j < |hourIndices| ==> hourIndices[j] < |labels|
    ensures forall j, k :: 0 <= j < k < |hourIndices| ==> hourIndices[j] < hourIndices[k]
    ensures forall i: nat :: i < |labels| ==> (i in hourIndices <==> StartsHour(labels, i))
  {
    hourIndices := [];
    var currentHour: Option<int> := Some(-1);
    ghost var starts := (i: nat) => i < |labels| && StartsHour(labels, i);
    for index := 0 to |labels|
      invariant TicksBelow(index, hourIndices, starts)
      invariant currentHour == if index == 0 then Some(-1) else HourOf(labels[index - 1])
    {
      var hour := HourOf(labels[index]);
      assert Differs(hour, currentHour) == starts(index);
      TickStep(index, hourIndices, starts);
      if Differs(hour, currentHour) {
        hourIndices := hourIndices + [index];
        currentHour := hour;
      }
    }
  }

  /** On generated labels the ticks are the first sample and every sample
      whose twelve-hour-clock hour differs from the sample before. */
  lemma StartsHourOfLabels(labels: seq<string>, times: seq<LocalTime>, i: nat)
    requires |labels| == |times| && i < |labels|
    requires forall k :: 0 <= k < |labels| ==> labels[k] == Label(times[k])
    ensures StartsHour(labels, i) <==> i == 0 || H12(times[i].hours) != H12(times[i - 1].hours)
  {
    HourOfLabel(times[i]);
    if i > 0 {
      HourOfLabel(times[i - 1]);
    }
  }

  /** A series over the samples from `start`: entry `k` is `f` of the
      `k`-th sample instant. */
  ghost predicate Sampled<T>(values: seq<T>, start: int, f: int -> T) {
    values == [] || (Sampled(values[..|values| - 1], start, f)
                     && values[|values| - 1] == f(SampleAt(start, |values| - 1)))
  }

  lemma SampledStep<T>(values: seq<T>, start: int, f: int -> T, v: T)
    requires Sampled(values, start, f) && v == f(SampleAt(start, |values|))
    ensures Sampled(values + [v], start, f)
  {
    assert (values + [v])[..|values|] == values;
  }

  lemma {:induction false} SampledAt<T>(values: seq<T>, start: int, f: int -> T, k: nat)
    requires Sampled(values, start, f) && k < |values|
    ensures values[k] == f(SampleAt(start, k))
  {
    if k < |values| - 1 {
      SampledAt(values[..|values| - 1], start, f, k);
    }
  }

  /** The labels of the samples from `start`, one per instant, in the
      local time `localTime` gives. */
  ghost predicate LabelsOfSamples(labels: seq<string>, start: int, localTime: int -> LocalTime) {
    Sampled(labels, start, (t: int) => Label(localTime(t)))
  }

  lemma LabelsStep(labels: seq<string>, start: int, localTime: int -> LocalTime)
    requires LabelsOfSamples(labels, start, localTime)
    ensures LabelsOfSamples(labels + [Label(localTime(SampleAt(start, |labels|)))], start, localTime)
  {
    SampledStep(labels, start, (t: int) => Label(localTime(t)), Label(localTime(SampleAt(start, |labels|))));
  }

  /** `xAxisValues.push(formattedTime)`: the label of the next sample
      instant is appended. */
  method PushLabel(x: seq<string>, ghost start: int, localTime: int -> LocalTime, time: int)
    returns (next: seq<string>)
    requires LabelsOfSamples(x, start, localTime) && time == SampleAt(start, |x|)
    ensures |next| == |x| + 1 && LabelsOfSamples(next, start, localTime)
  {
    LabelsStep(x, start, localTime);
    next := x + [Label(localTime(time))];
  }

  /** Sample `i` is the first, or its twelve-hour-clock hour differs from
      that of the sample before. */
  predicate NewHourAt(start: int, localTime: int -> LocalTime, i: nat) {
    i == 0 || H12(localTime(SampleAt(start, i)).hours) != H12(localTime(SampleAt(start, i - 1)).hours)
  }

  /** On sample labels a tick marks the first sample and every sample whose
      twelve-hour-clock hour differs from the sample before. */
  lemma TicksOfSamples(labels: seq<string>, start: int, localTime: int -> LocalTime, i: nat)
    requires LabelsOfSamples(labels, start, localTime) && i < |labels|
    ensures StartsHour(labels, i) <==>
              NewHourAt(start, localTime, i)
  {
    HourOfSample(labels, start, localTime, i);
    if i > 0 {
      HourOfSample(labels, start, localTime, i - 1);
    }
  }

  /** The label of a sample reads back as its twelve-hour-clock hour. */
  lemma HourOfSample(labels: seq<string>, start: int, localTime: int -> LocalTime, k: nat)
    requires LabelsOfSamples(labels, start, localTime) && k < |labels|
    ensures HourOf(labels[k]) == Some(H12(localTime(SampleAt(start, k)).hours))
  {
    SampledAt(labels, start, (t: int) => Label(localTime(t)), k);
    HourOfLabel(localTime(SampleAt(start, k)));
  }

  /** `hourIndices.map((index) => x[index])`: the labels at the tick
      positions, in order. */
  function TickValues(x: seq<string>, hourIndices: seq<nat>): (tickvals: seq<string>)
    requires forall j :: 0 <= j < |hourIndices| ==> hourIndices[j] < |x|
    ensures |tickvals| == |hourIndices|
    ensures forall j :: 0 <= j < |hourIndices| ==> tickvals[j] == x[hourIndices[j]]
  {
    seq(|hourIndices|, j requires 0 <= j < |hourIndices| => x[hourIndices[j]])
  }

  /** The hour ticks of a sampled axis: increasing positions, exactly the
      first sample and those whose twelve-hour-clock hour differs from the
      sample before, and the labels shown at them. */
  ghost predicate HourTicksOf(x: seq<string>, start: int, localTime: int -> LocalTime,
                              hourIndices: seq<nat>, tickvals: seq<string>)
  {
    (forall j, k :: 0 <= j < k < |hourIndices| ==> hourIndices[j] < hourIndices[k])
    && (forall i: nat :: i < |x| ==>
          (i in hourIndices <==>
             NewHourAt(start, localTime, i)))
    && |tickvals| == |hourIndices|
    && (forall j :: 0 <= j < |hourIndices| ==>
          hourIndices[j] < |x| && tickvals[j] == x[hourIndices[j]])
  }

  /** The tick loop and the tick labels of a sampled axis. */
  method HourTicks(x: seq<string>, ghost start: int, ghost localTime: int -> LocalTime)
    returns (hourIndices: seq<nat>, tickvals: seq<string>)
    requires LabelsOfSamples(x, start, localTime)
    ensures HourTicksOf(x, start, localTime, hourIndices, tickvals)
  {
    hourIndices := HourIndices(x);
    forall i: nat | i < |x|
      ensures i in hourIndices <==>
                NewHourAt(start, localTime, i)
    {
      TicksOfSamples(x, start, localTime, i);
    }
    tickvals := TickValues(x, hourIndices);
  }

  /** A non-empty axis has a tick at its first sample. */
  lemma FirstSampleTicks(x: seq<string>, start: int, localTime: int -> LocalTime,
                         hourIndices: seq<nat>, tickvals: seq<string>)
    requires HourTicksOf(x, start, localTime, hourIndices, tickvals) && |x| > 0
    ensures |hourIndices| > 0 && hourIndices[0] == 0 && tickvals[0] == x[0]
  {
    assert NewHourAt(start, localTime, 0);
    var j :| 0 <= j < |hourIndices| && hourIndices[j] == 0;
  }

  /** `b ? 1 : 0`, a sample's value on an activity series. */
  function Indicator(b: bool): (v: int)
    ensures v == 0 || v == 1
    ensures v == 1 <==> b
  {
    if b then 1 else 0
  }
}
