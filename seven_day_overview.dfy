/** The seven-day overview: the names of the last seven days, the events
    of the last seven days grouped by the day they began, and per day the
    number of diapers, feeds and naps. Local-calendar conversions (the date
    an instant falls on, the date a number of days before today) are
    parameters. */
module SevenDayOverview {
  import opened Text
  import opened ApiTypes
  import opened Sequences
  import opened DataManager

  const MillisecondsPerDay := 24 * 60 * 60 * 1000

  /** `isWithinPastSevenDays(date, today)`: the whole days between the two
      instants, rounded down, are 0 to 6. An instant after `today` is
      outside. */
  function IsWithinPastSevenDays(dateMs: int, todayMs: int): (within: bool)
    ensures within <==> 0 <= todayMs - dateMs < 7 * 86400000
  {
    var diffInDays := (todayMs - dateMs) / MillisecondsPerDay;
    diffInDays >= 0 && diffInDays < 7
  }

  /** A local calendar date as `Date` reports it: the full year, the
      zero-based month and the day of the month. */
  datatype CalendarDate = CalendarDate(year: int, month: nat, day: nat)

  predicate ValidDate(d: CalendarDate) {
    d.month < 12 && 1 <= d.day <= 31
  }

  /** `formatDate(date)`: `MM-DD-YYYY`, the month counted from 1, month and
      day padded to two places with '0'. */
  function FormatDate(d: CalendarDate): string {
    PadStart(NatToString(d.month + 1), 2, '0') + "-" + PadStart(NatToString(d.day), 2, '0')
    + "-" + IntToString(d.year)
  }

  /** Reads `MM-DD-YYYY` back as a date. */
  function ReadDate(t: string): Option<CalendarDate> {
    if |t| < 7 || t[2] != '-' || t[5] != '-' then None
    else
      match (ParseInt(t[..2]), ParseInt(t[3..5]), ParseInt(t[6..]))
      case (Some(m), Some(d), Some(y)) =>
        if m >= 1 && d >= 0 then Some(CalendarDate(y, m - 1, d)) else None
      case _ => None
  }

  lemma DateTextFields(a: string, b: string, c: string)
    requires |a| == 2 && |b| == 2
    ensures var t := a + "-" + b + "-" + c;
      |t| == |c| + 6 && t[2] == '-' && t[5] == '-' && t[..2] == a && t[3..5] == b && t[6..] == c
  {
    var t := a + "-" + b + "-" + c;
    assert t[..2] == a;
    assert t[3..5] == b;
    assert t[6..] == c;
  }

  lemma ReadDateOfFields(a: string, b: string, c: string, m: int, d: int, y: int)
    requires |a| == 2 && |b| == 2 && |c| >= 1 && m >= 1 && d >= 0
    requires ParseInt(a) == Some(m) && ParseInt(b) == Some(d) && ParseInt(c) == Some(y)
    ensures ReadDate(a + "-" + b + "-" + c) == Some(CalendarDate(y, m - 1, d))
  {
    DateTextFields(a, b, c);
  }

  /** A valid date's text reads back as the date. */
  lemma ReadDateOfFormatDate(d: CalendarDate)
    requires ValidDate(d)
    ensures ReadDate(FormatDate(d)).Some?
    ensures ReadDate(FormatDate(d)).value == d
  {
    ParseIntOfPadded(d.month + 1);
    ParseIntOfPadded(d.day);
    ParseIntOfIntToString(d.year);
    ReadDateOfFields(PadStart(NatToString(d.month + 1), 2, '0'),
                     PadStart(NatToString(d.day), 2, '0'), IntToString(d.year),
                     d.month + 1, d.day, d.year);
  }

  /** Different valid dates have different texts, so grouping by the text
      is grouping by the date. */
  lemma FormatDateInjective(a: CalendarDate, b: CalendarDate)
    requires ValidDate(a) && ValidDate(b) && FormatDate(a) == FormatDate(b)
    ensures a == b
  {
    ReadDateOfFormatDate(a);
    ReadDateOfFormatDate(b);
  }

  /** `getPastSevenDayNames()`: the date `i` days before today is put in
      front for `i` from 0 to 6, so the list runs from six days ago to
      today. `daysAgo(i)` is the local date `i` days before today. */
  method GetPastSevenDayNames(daysAgo: nat -> CalendarDate) returns (pastSevenDays: seq<string>)
    ensures |pastSevenDays| == 7
    ensures forall k :: 0 <= k < 7 ==> pastSevenDays[k] == FormatDate(daysAgo(6 - k))
  {
    pastSevenDays := [];
    ghost var name := (n: nat) => FormatDate(daysAgo(n));
    for i := 0 to 7
      invariant |pastSevenDays| == i
      invariant forall k :: 0 <= k < i ==> pastSevenDays[k] == name(i - 1 - k)
    {
      Unshift(pastSevenDays, i, name);
      var day := DayName(daysAgo, i);
      pastSevenDays := [day] + pastSevenDays;
    }
  }

  /** The text of the date `n` days before today. It is the call
      `formatDate(date)` of the loop body, kept as a method of its own only
      so that the loop's proof does not unfold `FormatDate`. */
  method DayName(daysAgo: nat -> CalendarDate, n: nat) returns (name: string)
    ensures name == FormatDate(daysAgo(n))
  {
    name := FormatDate(daysAgo(n));
  }

  /** Putting entry `i` in front of the entries `i - 1` down to 0 gives
      the entries `i` down to 0. */
  lemma Unshift(s: seq<string>, i: nat, entry: nat -> string)
    requires |s| == i && forall k :: 0 <= k < i ==> s[k] == entry(i - 1 - k)
    ensures forall k :: 0 <= k < i + 1 ==> ([entry(i)] + s)[k] == entry(i - k)
  {
  }

  /** The group key of an event: the text of the local date it began on.
      `dateOf(t)` is the local date of the instant `t`. */
  function DateKey(e: ApiEvent, dateOf: int -> CalendarDate): string {
    FormatDate(dateOf(e.header.beginDt))
  }

  predicate InGroup(e: ApiEvent, todayMs: int, dateOf: int -> CalendarDate, key: string) {
    IsWithinPastSevenDays(e.header.beginDt, todayMs) && DateKey(e, dateOf) == key
  }

  /** The events of the last seven days that began on the day named `key`,
      in their order in `events`. */
  function GroupOf(events: seq<ApiEvent>, todayMs: int, dateOf: int -> CalendarDate, key: string)
    : seq<ApiEvent>
  {
    Filter(events, (e: ApiEvent) => InGroup(e, todayMs, dateOf, key))
  }

  lemma GroupOfSnoc(events: seq<ApiEvent>, e: ApiEvent, todayMs: int,
                    dateOf: int -> CalendarDate, key: string)
    ensures GroupOf(events + [e], todayMs, dateOf, key)
         == GroupOf(events, todayMs, dateOf, key)
            + (if InGroup(e, todayMs, dateOf, key) then [e] else [])
  {
    FilterSnoc(events, e, (e: ApiEvent) => InGroup(e, todayMs, dateOf, key));
  }

  /** An event of the last seven days is in the group of the day it began
      and in no other; any other event is in no group. */
  lemma GroupsPartition(events: seq<ApiEvent>, todayMs: int, dateOf: int -> CalendarDate,
                        i: nat, key: string)
    requires i < |events|
    ensures IsWithinPastSevenDays(events[i].header.beginDt, todayMs) ==>
              events[i] in GroupOf(events, todayMs, dateOf, DateKey(events[i], dateOf))
    ensures events[i] in GroupOf(events, todayMs, dateOf, key) ==>
              IsWithinPastSevenDays(events[i].header.beginDt, todayMs)
              && key == DateKey(events[i], dateOf)
  {
    var g := GroupOf(events, todayMs, dateOf, key);
    FilterMembers(events, (e: ApiEvent) => InGroup(e, todayMs, dateOf, key));
    FilterMembers(events, (e: ApiEvent) => InGroup(e, todayMs, dateOf, DateKey(events[i], dateOf)));
    if events[i] in g {
      var j :| 0 <= j < |g| && g[j] == events[i];
    }
  }

  /** `groups` holds, under each date text, that day's group of `events`,
      and holds no key whose group is empty. */
  ghost predicate Grouped(groups: map<string, seq<ApiEvent>>, events: seq<ApiEvent>,
                          todayMs: int, dateOf: int -> CalendarDate)
  {
    && (forall key :: key in groups <==> GroupOf(events, todayMs, dateOf, key) != [])
    && (forall key :: key in groups ==> groups[key] == GroupOf(events, todayMs, dateOf, key))
  }

  /** One step of the `forEach`: an event of the last seven days is pushed
      onto its day's group, created empty first if needed; any other event
      is skipped. */
  lemma GroupStep(groups: map<string, seq<ApiEvent>>, next: map<string, seq<ApiEvent>>,
                  events: seq<ApiEvent>, event: ApiEvent, todayMs: int, dateOf: int -> CalendarDate)
    requires Grouped(groups, events, todayMs, dateOf)
    requires var dateKey := DateKey(event, dateOf);
      next == if IsWithinPastSevenDays(event.header.beginDt, todayMs)
              then groups[dateKey := (if dateKey in groups then groups[dateKey] else []) + [event]]
              else groups
    ensures Grouped(next, events + [event], todayMs, dateOf)
  {
    forall key
      ensures GroupOf(events + [event], todayMs, dateOf, key)
           == GroupOf(events, todayMs, dateOf, key)
              + (if InGroup(event, todayMs, dateOf, key) then [event] else [])
    {
      GroupOfSnoc(events, event, todayMs, dateOf, key);
    }
  }

  /** `groupEventsByDate(events)`: a record from date text to the events of
      the last seven days that began on that date, created on the first
      such event and appended to in input order. */
  method GroupEventsByDate(events: seq<ApiEvent>, todayMs: int, dateOf: int -> CalendarDate)
    returns (pastSevenDays: map<string, seq<ApiEvent>>)
    ensures forall key :: key in pastSevenDays <==> GroupOf(events, todayMs, dateOf, key) != []
    ensures forall key :: key in pastSevenDays ==>
              pastSevenDays[key] == GroupOf(events, todayMs, dateOf, key)
  {
    pastSevenDays := map[];
    ghost var done: seq<ApiEvent> := [];
    var i := 0;
    while i < |events|
      invariant 0 <= i <= |events| && done == events[..i]
      invariant Grouped(pastSevenDays, done, todayMs, dateOf)
    {
      var event := events[i];
      var dateKey := DateKey(event, dateOf);
      ghost var before := pastSevenDays;
      ghost var group := if dateKey in before then before[dateKey] else [];
      if IsWithinPastSevenDays(event.header.beginDt, todayMs) {
        if dateKey !in pastSevenDays {
          pastSevenDays := pastSevenDays[dateKey := []];
        }
        assert pastSevenDays[dateKey] == group;
        pastSevenDays := pastSevenDays[dateKey := pastSevenDays[dateKey] + [event]];
        assert pastSevenDays == before[dateKey := group + [event]];
      }
      GroupStep(before, pastSevenDays, done, event, todayMs, dateOf);
      PrefixSnoc(events, i);
      done := done + [event];
      i := i + 1;
    }
    assert done == events;
  }

  /** `events.filter((x) => x.type === t).length`. */
  function CountOfType(events: seq<ApiEvent>, t: EventType): (n: nat)
    ensures n <= |events|
  {
    |GetEventsByType(events, t)|
  }

  /** `eventsByDate[day] ? Object.values(eventsByDate[day]) : []`. */
  function DayEvents(groups: map<string, seq<ApiEvent>>, day: string): seq<ApiEvent> {
    if day in groups then groups[day] else []
  }

  /** `counts[k]` is the number of events of type `t` in the group of
      `names[k]`, for every entry of `counts`. */
  ghost predicate Counted(groups: map<string, seq<ApiEvent>>, names: seq<string>,
                          counts: seq<nat>, t: EventType)
  {
    |counts| <= |names|
    && forall k :: 0 <= k < |counts| ==> counts[k] == CountOfType(DayEvents(groups, names[k]), t)
  }

  lemma CountedStep(groups: map<string, seq<ApiEvent>>, names: seq<string>,
                    counts: seq<nat>, t: EventType)
    requires Counted(groups, names, counts, t) && |counts| < |names|
    ensures Counted(groups, names, counts + [CountOfType(DayEvents(groups, names[|counts|]), t)], t)
  {
  }

  /** The loop over the day names: per name, the number of diapers, feeds
      and naps in that day's group, pushed onto three arrays. */
  method DailyCounts(groups: map<string, seq<ApiEvent>>, names: seq<string>)
    returns (diapersThisWeek: seq<nat>, feedsThisWeek: seq<nat>, napsThisWeek: seq<nat>)
    ensures |diapersThisWeek| == |feedsThisWeek| == |napsThisWeek| == |names|
    ensures Counted(groups, names, diapersThisWeek, DIAPER)
    ensures Counted(groups, names, feedsThisWeek, FEED)
    ensures Counted(groups, names, napsThisWeek, SLEEP)
  {
    diapersThisWeek, feedsThisWeek, napsThisWeek := [], [], [];
    for i := 0 to |names|
      invariant |diapersThisWeek| == |feedsThisWeek| == |napsThisWeek| == i
      invariant Counted(groups, names, diapersThisWeek, DIAPER)
      invariant Counted(groups, names, feedsThisWeek, FEED)
      invariant Counted(groups, names, napsThisWeek, SLEEP)
    {
      var events := DayEvents(groups, names[i]);
      CountedStep(groups, names, diapersThisWeek, DIAPER);
      CountedStep(groups, names, feedsThisWeek, FEED);
      CountedStep(groups, names, napsThisWeek, SLEEP);
      diapersThisWeek := diapersThisWeek + [CountOfType(events, DIAPER)];
      feedsThisWeek := feedsThisWeek + [CountOfType(events, FEED)];
      napsThisWeek := napsThisWeek + [CountOfType(events, SLEEP)];
    }
  }

  /** The whole overview: seven counts per kind, oldest day first, entry
      `k` counting the events of that kind among the events of the last
      seven days that began on the date six minus `k` days before today. */
  method Overview(events: seq<ApiEvent>, todayMs: int, dateOf: int -> CalendarDate,
                  daysAgo: nat -> CalendarDate)
    returns (diapers: seq<nat>, feeds: seq<nat>, naps: seq<nat>)
    ensures |diapers| == 7 && |feeds| == 7 && |naps| == 7
    ensures forall k :: 0 <= k < 7 ==>
              var day := GroupOf(events, todayMs, dateOf, FormatDate(daysAgo(6 - k)));
              diapers[k] == CountOfType(day, DIAPER) && feeds[k] == CountOfType(day, FEED)
              && naps[k] == CountOfType(day, SLEEP)
  {
    var eventsByDate := GroupEventsByDate(events, todayMs, dateOf);
    var pastSevenDayNames := GetPastSevenDayNames(daysAgo);
    diapers, feeds, naps := DailyCounts(eventsByDate, pastSevenDayNames);
  }
}
