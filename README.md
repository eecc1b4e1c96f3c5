# Baby-tracking dashboard core, modelled in Dafny

This project models the logic of a web dashboard for a baby-tracking
service. The dashboard does the following:

- keeps a local copy of the family's tracked events (feeds, sleeps, diapers,
  pumps, routines) in browser storage;
- syncs that copy with the backend through a cursor-based sync call, after
  refreshing the session token when the stored expiry says it is due;
- finds the family key over a realtime socket handshake;
- derives the views of the dashboard from the events:
  - today's totals;
  - the seven-day overview;
  - the twelve-hour feeding, diaper and sleep graphs sampled every five
    minutes, with their hour ticks;
  - the "OKAY / LATE / OVERDUE" status;
  - the running timer.

One Dafny module stands for each source file:

| module | file |
|---|---|
| `ApiTypes` | the event types |
| `ApiClient` | the HTTP client and the socket login |
| `WebSocket` | the socket wrapper, as a class with a message queue |
| `LocalStorage` | the storage wrapper, as a class over a key/value map |
| `DataManager` | sync and event queries |
| `TodaysSummary` | today's summary |
| `SevenDayOverview` | the seven-day overview |
| `FeedGraph` | the feeding graph |
| `DiaperGraph` | the diaper graph |
| `SleepGraph` | the sleep graph |
| `Timer` | the timer |

Four helper modules support them:

- `Timeline`: the sampling, labels and hour ticks that the three graphs share;
- `Text`: decimal text, JavaScript `parseInt` and `padStart`;
- `JsValues`: parsed JSON values, with JavaScript property access that fails
  on `null` and `undefined`;
- `Sequences`: `filter`, `some` and `reduce` over sequences.

Inputs from the outside world are parameters:

- HTTP responses;
- the socket replies, given in their arrival order;
- the clock reading (`nowMs`, `todayMs`);
- the local-time calendar functions (`localTime`, `dateOf`, `daysAgo`,
  `startOfDay`, `startOfHour`).

The code's own quirks are kept as written. Each is stated and proved as a
property of the model:

- the inverted choice of the sync request body;
- the token expiry stored in seconds but compared with milliseconds;
- the `&ls=undefined` reconnect URL;
- the socket waiter that is not cleared when a message wakes it, only by a flush;
- the summary that is not refreshed by an empty list.

## Model

| member | source | states |
|---|---|---|
| ApiTypes.TypeName | src/Models/ApiTypes.tsx:104 | the wire name of an event type is one of the five type strings |
| ApiTypes.KindOf | src/Models/ApiTypes.tsx:104-116 | a typed event has a kind exactly when it is recognised, and each kind belongs to exactly its variants (breast and bottle are feeds) |
| ApiTypes.HasTypeIsKind | src/Models/ApiTypes.tsx:104-116 | comparing the wire `type` tag with a type name is the same as comparing the event's kind |
| ApiTypes.EndDt | src/Models/ApiTypes.tsx:24 | only sleep and pump events carry an end time; a sleep's end is its own optional `endDt` and a pump's end is its `endDt` |
| ApiClient.RefreshIdToken | src/Utils/ApiClient.tsx:39-46 | the call rejects exactly on an error status, with the refresh error message and the body text, and otherwise yields the parsed body |
| ApiClient.VerifyPassword | src/Utils/ApiClient.tsx:67-73 | the call rejects exactly on an error status, with "Error: Invalid credentials", and otherwise yields the parsed body |
| ApiClient.RequestBody | src/Utils/ApiClient.tsx:78-92 | the body always names the sync action and the family key, and carries a `prevSyncKey` only when the cursor is the empty string (a non-empty cursor is dropped) |
| ApiClient.Classify | src/Utils/ApiClient.tsx:117-146 | an event id is kept exactly when its event is accepted by the type switch, and it is kept with the same event |
| ApiClient.AcceptedIffRecognised | src/Utils/ApiClient.tsx:117-146 | the type switch accepts an event exactly when it matches one of the typed variants |
| ApiClient.ClassifyKeepsRecognised | src/Utils/ApiClient.tsx:117-146 | after classification every event is recognised, and no recognised event is lost |
| ApiClient.GetStats | src/Utils/ApiClient.tsx:76-149 | the request is built from the tokens and the request body; an error status rejects with "Error: " and the text; an ok status yields the sync cursor and the classified events |
| ApiClient.HandshakeOpens | src/Utils/ApiClient.tsx:151-193 | the handshake sends nothing and opens the fixed host with `&ls=undefined`; it opens a second socket, to the host the first reply names, exactly when that reply carries no truthy session |
| ApiClient.ReconnectIffNoSession | src/Utils/ApiClient.tsx:151-193 | a whole login opens one or two sockets, the fixed host first; the second, to the host the first reply names, is opened exactly when that reply carries no truthy session |
| ApiClient.SendsAuthThenQuery | src/Utils/ApiClient.tsx:195-222 | a login sends nothing when the handshake stops; otherwise it sends the auth frame for the token and then, when the auth reply carries a user id, the family-key query for it, each right after a flush, and nothing else |
| ApiClient.SuccessfulRun | src/Utils/ApiClient.tsx:195-222 | a login that yields a key took it as the first key of the query reply's data, after a handshake and an auth reply with a user id, and ended by flushing and closing the socket |
| ApiClient.OpenSession | src/Utils/ApiClient.tsx:151-193 | the handshake method computes exactly the handshake that the specification function gives for the replies, and leaves the socket open and listening when connected |
| ApiClient.Authenticate | src/Utils/ApiClient.tsx:195-222 | after the handshake, the method's outcome and its socket trace are those of the specification over the remaining replies |
| ApiClient.GetFamilyKey | src/Utils/ApiClient.tsx:151-223 | the whole login, the handshake and then authentication, yields the outcome and trace of the specification function `GetFamilyKeySpec` |
| ApiClient.RefreshSession | src/Utils/ApiClient.tsx:225-248 | when the stored expiry is not due nothing is sent, storage is unchanged and the result is false; when due the stored refresh token is sent, an error response rejects with the refresh error and writes nothing, and an ok response stores the new id token, refresh token and expiry and resolves true |
| ApiClient.RefreshedExpiryIsDue | src/Utils/ApiClient.tsx:228-237 | the expiry a refresh stores, in seconds, is already due by the millisecond clock at that moment and at every later check, whenever the token's lifetime in seconds is at most the clock reading in seconds |
| ApiClient.RefreshTwice | src/Utils/ApiClient.tsx:228-237 | starting with no stored expiry, two session checks in a row both go to the token endpoint, the second sending the refresh token the first one stored |
| WebSocket.ConnectUrl | src/Components/WebSocketManager.tsx:14-18 | the URL starts with the base URL; it has no `ls` parameter exactly when the last session is the empty string; with no session stored it ends in `&ls=undefined`; otherwise it carries the session |
| WebSocket.AuthRequestReadsBack | src/Components/WebSocketManager.tsx:66-80 | the auth frame is a data frame whose action is "auth", whose request number is 2 and whose credential is the token |
| WebSocket.QueryRequestReadsBack | src/Components/WebSocketManager.tsx:82-100 | the query frame has action "q", request number 4, the given path and an empty hash |
| WebSocket.FamilyKeyzPathOfString | src/Components/WebSocketManager.tsx:82-100 | for a string user id the query path is `userz/<id>/familyKeyz` |
| WebSocket.WebSocketManager.constructor | src/Components/WebSocketManager.tsx:7-12 | a new manager has no socket, no queued message, no waiter and an empty history |
| WebSocket.WebSocketManager.Connect | src/Components/WebSocketManager.tsx:14-40 | connecting opens the computed URL, starts listening and records the opening, and keeps the queue and the waiter |
| WebSocket.WebSocketManager.Receive | src/Components/WebSocketManager.tsx:26-33 | an incoming message is appended to the queue, and it wakes a waiter exactly when one is registered |
| WebSocket.WebSocketManager.WaitForMessages | src/Components/WebSocketManager.tsx:42-49 | a wait suspends exactly when no waiter was registered, and a waiter is registered afterwards |
| WebSocket.WebSocketManager.GetNextMessage | src/Components/WebSocketManager.tsx:51-53 | takes the oldest queued message, or nothing when the queue is empty |
| WebSocket.WebSocketManager.FlushMessages | src/Components/WebSocketManager.tsx:55-58 | empties the queue and drops the waiter |
| WebSocket.WebSocketManager.Close | src/Components/WebSocketManager.tsx:60-64 | records a close exactly when a socket has been created; the reference is kept after closing, so a later close is recorded again |
| WebSocket.WebSocketManager.Auth | src/Components/WebSocketManager.tsx:66-80 | sends the auth frame exactly when a socket has been created, closed or not |
| WebSocket.WebSocketManager.GetFamilyKeyz | src/Components/WebSocketManager.tsx:82-100 | sends the family-key query for the user id exactly when a socket has been created, closed or not |
| WebSocket.DrainInArrivalOrder | src/Components/WebSocketManager.tsx:26-53 | messages received and then taken one by one come out in arrival order |
| WebSocket.WaiterLifeCycle | src/Components/WebSocketManager.tsx:26-58 | the first wait suspends and a message wakes it; the waiter stays set, so a second wait returns at once; after a flush a wait suspends again |
| LocalStorage.LocalStorageManager.constructor | src/Utils/LocalStorageManager.tsx:4-11 | the manager starts over the items already in browser storage |
| LocalStorage.LocalStorageManager.TextOr | src/Utils/LocalStorageManager.tsx:19-42 | a missing key reads as the empty string, and a stored key reads as its text |
| LocalStorage.LocalStorageManager.GetTrackz | src/Utils/LocalStorageManager.tsx:14-17 | missing events or an empty entry read as the empty map, stored events read as what was stored, and any other text that is not JSON throws |
| LocalStorage.LocalStorageManager.GetTokenExpiration | src/Utils/LocalStorageManager.tsx:31-34 | a missing or empty expiry reads as 0; otherwise the result is `parseInt` of the stored text |
| LocalStorage.LocalStorageManager.SetTrackz | src/Utils/LocalStorageManager.tsx:45-47 | stores the events under their key and changes no other key |
| LocalStorage.LocalStorageManager.SetIdToken | src/Utils/LocalStorageManager.tsx:49-51 | stores the id token under its key and changes no other key |
| LocalStorage.LocalStorageManager.SetRefreshToken | src/Utils/LocalStorageManager.tsx:53-55 | stores the refresh token under its key and changes no other key |
| LocalStorage.LocalStorageManager.SetNextSyncToken | src/Utils/LocalStorageManager.tsx:57-59 | stores the sync cursor under its key and changes no other key |
| LocalStorage.LocalStorageManager.SetTokenExpiration | src/Utils/LocalStorageManager.tsx:61-63 | stores the decimal text of the expiry, or "NaN", and changes no other key |
| LocalStorage.LocalStorageManager.SetFamilyKey | src/Utils/LocalStorageManager.tsx:65-67 | stores the family key under its key and changes no other key |
| LocalStorage.LocalStorageManager.SetLastWsSession | src/Utils/LocalStorageManager.tsx:69-71 | stores the socket session under its key and changes no other key |
| LocalStorage.LocalStorageManager.ClearLocalStorage | src/Utils/LocalStorageManager.tsx:74-76 | removes every item |
| LocalStorage.NumberText | src/Utils/LocalStorageManager.tsx:61-63 | a number is stored as its decimal text |
| LocalStorage.ParseIntOfNaNText | src/Utils/LocalStorageManager.tsx:31-63 | a stored `NaN` expiry reads back as `NaN` |
| LocalStorage.SetThenGetText | src/Utils/LocalStorageManager.tsx:19-71 | each text setting reads back as what was set, and each is independent of the others |
| LocalStorage.SetThenGetTrackz | src/Utils/LocalStorageManager.tsx:14-47 | stored events read back unchanged, whatever the entry held before |
| LocalStorage.SetThenGetExpiration | src/Utils/LocalStorageManager.tsx:31-63 | a stored expiry reads back as the same number, and NaN as NaN |
| LocalStorage.ClearThenGet | src/Utils/LocalStorageManager.tsx:14-76 | after a clear every getter returns its default: the empty map, empty strings and 0 |
| LocalStorage.SetIdTokenIsolated | src/Utils/LocalStorageManager.tsx:49-51 | setting the id token leaves every other getter's result unchanged |
| DataManager.Merge | src/Utils/DataManager.tsx:42-43 | the merged events have the keys of both sides; fetched events win, and other stored events are kept |
| DataManager.MergeAllUntouched | src/Utils/DataManager.tsx:42-43 | over several syncs, an id that no fetch mentions keeps its stored event, and is present only if it was stored |
| DataManager.MergeAllLastWins | src/Utils/DataManager.tsx:42-43 | over several syncs, an id ends with the event of the last fetch that mentions it |
| DataManager.SyncData | src/Utils/DataManager.tsx:26-54 | refreshes the session when due, and never settles when the refresh is rejected; the sync request uses the tokens read before the refresh; on success it stores the new cursor and the merged events and resolves true; when the fetch fails, or the cached events do not parse, it resolves false and leaves the events and the cursor as they were |
| DataManager.UnparsableCacheBlocksSync | src/Utils/DataManager.tsx:40-51 | with cached events that do not parse, a sync never succeeds, whatever the server answers, and writes neither the cache nor the cursor |
| DataManager.SecondSyncSendsNoCursor | src/Utils/DataManager.tsx:26-46 | once a sync over a readable cache has stored a non-empty cursor, the next sync request carries no cursor |
| DataManager.GetEventsByType | src/Utils/DataManager.tsx:56-60 | the result holds exactly the events of the type |
| DataManager.GetEventsByTypeMultiplicity | src/Utils/DataManager.tsx:56-60 | the result holds each event of the type as often as the input does, and no other event |
| DataManager.GetEventsByTypeConcat | src/Utils/DataManager.tsx:56-60 | filtering distributes over concatenation, so the original order is kept |
| DataManager.GetEventsByTypeKinds | src/Utils/DataManager.tsx:56-60 | on recognised events the result holds exactly the events of that kind |
| DataManager.TodaysEventsMembers | src/Utils/DataManager.tsx:62-70 | today's events of a type are exactly the events of that type that begin at or after the start of the day |
| DataManager.TodaysEventsSnoc | src/Utils/DataManager.tsx:62-70 | appending an event appends it to today's list exactly when it is of the type and begins today |
| DataManager.TodaysEventsNarrowKind | src/Utils/DataManager.tsx:62-70 | today's events are the events of the type, restricted to those that begin today |
| DataManager.GetFirstEventByType | src/Utils/DataManager.tsx:72-76 | the seedless reduce fails exactly on an empty list |
| DataManager.EarliestOfIsMinimum | src/Utils/DataManager.tsx:72-76 | no later event of the type begins before the result |
| DataManager.EarliestOfIsFirstMinimum | src/Utils/DataManager.tsx:72-76 | the result is the first element or an event of the type, and every competing event before it begins strictly later |
| DataManager.GetLastEventByType | src/Utils/DataManager.tsx:78-82 | the seedless reduce fails exactly on an empty list |
| DataManager.LatestOfIsMaximum | src/Utils/DataManager.tsx:78-82 | no later event of the type begins after the result |
| DataManager.LatestOfIsFirstMaximum | src/Utils/DataManager.tsx:78-82 | the result is the first element or an event of the type, and every competing event before it begins strictly earlier |
| DataManager.GetStatus | src/Utils/DataManager.tsx:88-110 | OKAY up to one hour since the event, LATE up to two hours, OVERDUE after that, and exactly one of the three |
| DataManager.StatusMonotone | src/Utils/DataManager.tsx:88-110 | as time passes the status never improves |
| TodaysSummary.TimeParts | src/Graphs/TodaysSummary.tsx:17-20 | hours, minutes below 60 and seconds below 60 that add back up to the total seconds |
| TodaysSummary.ReadClockOfFormatFields | src/Graphs/TodaysSummary.tsx:17-27 | fields below 100, 60 and 60 print as eight characters that read back as the seconds they stand for |
| TodaysSummary.ReadClockOfFormatTime | src/Graphs/TodaysSummary.tsx:17-27 | below 100 hours the `HH:MM:SS` text reads back as the seconds |
| TodaysSummary.FormatTimeInjective | src/Graphs/TodaysSummary.tsx:17-27 | below 100 hours, different durations print differently |
| TodaysSummary.NapLength | src/Graphs/TodaysSummary.tsx:65-69 | a finished nap counts its end minus its start, which is never negative when the end is not before the start |
| TodaysSummary.DailyTotalsEmpty | src/Graphs/TodaysSummary.tsx:33-69 | no events give all-zero totals |
| TodaysSummary.DailyTotalsSnoc | src/Graphs/TodaysSummary.tsx:33-69 | the totals of a list are the totals of its prefix plus the last event's contribution |
| TodaysSummary.FeedTotalsSnoc | src/Graphs/TodaysSummary.tsx:33-63 | a feed from today adds one feed, with its bottle volume or its left and right nursing times; anything else leaves the feed totals |
| TodaysSummary.NapTotalsSnoc | src/Graphs/TodaysSummary.tsx:34-69 | a sleep from today adds one nap and its length; anything else leaves the nap totals |
| TodaysSummary.DiaperTotalsSnoc | src/Graphs/TodaysSummary.tsx:83-96 | a diaper from today adds one diaper, and one wet or dirty count for each flag set |
| TodaysSummary.EarlierEventIgnored | src/Graphs/TodaysSummary.tsx:33-35 | an event that began before today changes no total |
| TodaysSummary.OngoingNapAddsNoTime | src/Graphs/TodaysSummary.tsx:65-69 | a nap without an end time counts as a nap but adds no nap time |
| TodaysSummary.ContributionCounts | src/Graphs/TodaysSummary.tsx:33-69 | for any event: it adds at most one diaper, feed or nap, and its wet and dirty counts are at most its diaper count |
| TodaysSummary.ContributionBounded | src/Graphs/TodaysSummary.tsx:33-69 | for a plausible event (no negative volume or duration, no nap ending before it began): every amount it adds is non-negative, it adds at most one diaper, feed or nap, and its wet and dirty counts are at most its diaper count |
| TodaysSummary.TotalsCountsBounded | src/Graphs/TodaysSummary.tsx:33-69 | for any events: wet and dirty counts never exceed the diaper count, and no count exceeds the number of events |
| TodaysSummary.TotalsBounded | src/Graphs/TodaysSummary.tsx:33-69 | for plausible events: every total (bottle volume, nursing times, nap time) is non-negative, wet and dirty counts never exceed the diaper count, and no count exceeds the number of events |
| TodaysSummary.Display | src/Graphs/TodaysSummary.tsx:71-140 | nursing times are shown in whole seconds, rounded down, and the other totals are shown as computed |
| TodaysSummary.RefreshKeepsOnEmpty | src/Graphs/TodaysSummary.tsx:29-30 | an empty event list leaves the shown summary as it was; a non-empty list replaces it with that list's summary |
| TodaysSummary.StaleSummaryAfterEmptyList | src/Graphs/TodaysSummary.tsx:29-30 | after the events are emptied the previous summary stays on screen |
| SevenDayOverview.IsWithinPastSevenDays | src/Graphs/SevenDayOverview.tsx:30-34 | an event counts exactly when it is not after today and less than seven days before it |
| SevenDayOverview.ReadDateOfFormatDate | src/Graphs/SevenDayOverview.tsx:23-28 | the day name `MM-DD-YYYY` reads back as the calendar date |
| SevenDayOverview.FormatDateInjective | src/Graphs/SevenDayOverview.tsx:23-28 | different dates give different day names |
| SevenDayOverview.GetPastSevenDayNames | src/Graphs/SevenDayOverview.tsx:10-21 | seven names, oldest first, the k-th naming the date six minus k days ago |
| SevenDayOverview.GroupOfSnoc | src/Graphs/SevenDayOverview.tsx:36-54 | an appended event joins exactly the group of its day, when it lies within the week |
| SevenDayOverview.GroupsPartition | src/Graphs/SevenDayOverview.tsx:36-54 | an event of the week lies in the group of its own day, and an event in a group is of the week and of that group's day |
| SevenDayOverview.GroupEventsByDate | src/Graphs/SevenDayOverview.tsx:36-54 | the grouping loop has a key exactly for each day with events, and each key holds that day's events in order |
| SevenDayOverview.CountOfType | src/Graphs/SevenDayOverview.tsx:58-68 | a count of one type never exceeds the number of events |
| SevenDayOverview.DailyCounts | src/Graphs/SevenDayOverview.tsx:58-68 | one count per day name, of diapers, feeds and naps in that day's group (zero for a day without a group) |
| SevenDayOverview.Overview | src/Graphs/SevenDayOverview.tsx:56-68 | seven counts of each type, the k-th counting the events of that type on the k-th day |
| Timeline.StopRule | src/Graphs/FeedGraph.tsx:26 | the sampling loop stops at the first sample time that is not before now |
| Timeline.SampledUntilCount | src/Graphs/FeedGraph.tsx:26 | that stopping point fixes the number of samples |
| Timeline.H12 | src/Graphs/FeedGraph.tsx:29-32 | the twelve-hour clock hour is between 1 and 12 and agrees with the hour modulo 12 |
| Timeline.AmPm | src/Graphs/FeedGraph.tsx:31 | AM exactly before noon, PM exactly from noon |
| Timeline.LabelPadsMinutes | src/Graphs/FeedGraph.tsx:28-33 | the label's minutes are the minutes padded to two digits |
| Timeline.HourOfLabel | src/Graphs/FeedGraph.tsx:28-33 | reading the hour back from a label gives its twelve-hour clock hour |
| Timeline.HourIndices | src/Graphs/FeedGraph.tsx:85-94 | the tick positions are increasing, within the axis, and are exactly the labels whose hour differs from the label before (or the first label) |
| Timeline.StartsHourOfLabels | src/Graphs/FeedGraph.tsx:85-94 | on labels of given times, a label starts an hour exactly when it is the first or its twelve-hour hour differs from the one before |
| Timeline.TicksOfSamples | src/Graphs/FeedGraph.tsx:85-94 | on sampled labels, a tick is at the first sample and at every sample whose twelve-hour hour differs from the sample before |
| Timeline.HourTicks | src/Graphs/FeedGraph.tsx:85-96 | the ticks of a sampled axis: increasing positions at exactly the new hours, with the labels at those positions |
| Timeline.FirstSampleTicks | src/Graphs/FeedGraph.tsx:85-96 | a non-empty axis has its first tick at the first sample |
| Timeline.TickValues | src/Graphs/FeedGraph.tsx:96 | the tick labels are the labels at the tick positions, in order |
| Timeline.Indicator | src/Graphs/FeedGraph.tsx:47-48 | a sample's value is 1 exactly when the activity is under way, and 0 otherwise |
| FeedGraph.GenerateAxisValues | src/Graphs/FeedGraph.tsx:19-58 | one label per five-minute sample from the start of the hour until now, and at each sample 1 exactly when a breast feed or a bottle feed covers it |
| FeedGraph.Axes | src/Graphs/FeedGraph.tsx:19-96 | the feed series have the sample count fixed by the clock, and their hour ticks |
| FeedGraph.FeedingOfFilters | src/Graphs/FeedGraph.tsx:23-45 | testing the filtered breast and bottle lists is testing the whole list for a feed of that kind |
| FeedGraph.BottleMarksFiveMinutes | src/Graphs/FeedGraph.tsx:43-45 | a bottle feed marks every sample in the five minutes from its start |
| FeedGraph.BreastCoverExtends | src/Graphs/FeedGraph.tsx:37-42 | a breast feed covers from its start through both nursing durations plus five minutes |
| FeedGraph.OtherEventsIgnored | src/Graphs/FeedGraph.tsx:23-24 | an event that is neither a breast nor a bottle feed marks neither series |
| DiaperGraph.GenerateAxisValues | src/Graphs/DiaperGraph.tsx:18-55 | one label per sample, and at each sample the wet and dirty values are 1 exactly when a wet or dirty diaper covers it |
| DiaperGraph.Axes | src/Graphs/DiaperGraph.tsx:18-90 | the diaper series have the sample count fixed by the clock, and their hour ticks |
| DiaperGraph.DiaperOfFilters | src/Graphs/DiaperGraph.tsx:22-42 | testing the wet and dirty lists is testing the whole list for a covering diaper with that flag |
| DiaperGraph.BothFlagsMarkBoth | src/Graphs/DiaperGraph.tsx:22-23 | a diaper that is both wet and dirty marks both series |
| DiaperGraph.NeitherFlagIgnored | src/Graphs/DiaperGraph.tsx:22-23 | a diaper with neither flag marks neither series |
| SleepGraph.GenerateAxisValues | src/Graphs/SleepGraph.tsx:19-45 | one label per sample, and at each sample 1 exactly when a sleep covers it |
| SleepGraph.Axes | src/Graphs/SleepGraph.tsx:19-71 | the sleep series has the sample count fixed by the clock, and its hour ticks |
| SleepGraph.OngoingSleepMarksLater | src/Graphs/SleepGraph.tsx:34-36 | a sleep without an end marks every sample from its start on |
| SleepGraph.FinishedSleepCovers | src/Graphs/SleepGraph.tsx:34-36 | a finished sleep covers exactly the samples from its start through its end |
| Timer.Breakdown | src/Components/Timer.tsx:13-17 | whole hours, minutes below 60 and seconds below 60 whose total is within one second below the elapsed milliseconds |
| Timer.Pad | src/Components/Timer.tsx:26-28 | below 100 the padded text is two digits |
| Timer.PadReadsBack | src/Components/Timer.tsx:26-28 | below 100 the padded text reads back as the number |
| Timer.ReadClockOfTimerText | src/Components/Timer.tsx:13-19 | below 100 hours a tick shows eight characters that read back as the whole seconds elapsed |
| Timer.FirstSecondShowsInitial | src/Components/Timer.tsx:8-19 | throughout the first second a tick shows `00:00:00`, the initial display |
| JsValues.Prop | src/Utils/ApiClient.tsx:158-162 | a property read throws exactly on `null` or `undefined` |
| JsValues.FirstKey | src/Utils/ApiClient.tsx:210-215 | `Object.keys(...)[0]` throws exactly on `null` or `undefined`, and gives `undefined` for an empty object |
| JsValues.TemplateText | src/Components/WebSocketManager.tsx:14-18 | a template literal shows `undefined` for a missing value and a string as itself |
| Text.ParseIntOfIntToString | src/Utils/LocalStorageManager.tsx:31-63 | `parseInt` reads back the decimal text of any integer |
| Text.ParseIntOfPadded | src/Components/Timer.tsx:26-28 | a number below 100 padded to two digits reads back as itself |
| Text.PadStartShape | src/Graphs/SevenDayOverview.tsx:27 | the result of `padStart` ends with the original text, and everything before it is the fill character |

## Left out

- HTTP and the socket transport are not modelled. Responses and socket replies are inputs, and the URLs, headers and JSON serialisation of the requests are represented by their fields.
- Timing between async steps is not modelled. A missing socket reply stands for a promise that never settles. The lost-wakeup race of the socket waiter is modelled only through the order of replies.
- ApiClient.RefreshSession: one clock reading `nowMs` serves both `Date.now()` calls (src/Utils/ApiClient.tsx:228 and :233). The second call runs after the token round trip, so the stored expiry may be based on a slightly later time.
- LocalStorage.LocalStorageManager.constructor: text under `trackz` that is valid JSON of something other than an event map (`null`, a number, an array) is not modelled. `Unparsable` stands only for text that `JSON.parse` rejects.
- Local-time and calendar arithmetic (`new Date`, `getHours`, `getDate`, start of day, start of hour) are not modelled. Each is a parameter function, and its time-zone behaviour is not captured.
- `toLocaleTimeString` footers are not modelled (src/Graphs/TodaysSummary.tsx:37-47, src/Utils/DataManager.tsx:84-86). Their text depends on the locale database.
- Floating-point values are not modelled: ounces, the nap time in seconds as a fraction, and the weekly averages (src/Graphs/SevenDayOverview.tsx:70-79). JavaScript numbers are modelled as unbounded integers.
- Timer: the elapsed time is a natural number, so a clock running behind an event's start, which would give a negative elapsed time, is not covered.
- The rendering layer is not part of this model: React state and effects, Plotly layouts, the singletons' `getInstance`, configuration and console logging.
- Wire objects whose `type` and `feedType` tags match no variant are kept as `Unrecognized` values. The casts in the source do not check fields, and the model does not either.
- TodaysSummary.NapLength: nap time is counted in milliseconds; its division into seconds is not modelled.
