/** The dashboard's data layer: `syncData` fetches the events changed since
    the stored cursor and merges them into the cached map; the queries the
    views run over the cached events select them by kind and by day, pick
    the earliest or the latest of a kind, and grade how long ago an event
    began. */
module DataManager {
  import opened Text
  import opened JsValues
  import opened ApiTypes
  import opened Sequences
  import opened LocalStorage
  import opened ApiClient

  // ---------------------------------------------------------------------
  // syncData

  /** `{...current, ...fetched}`: every id of either map, with the fetched
      event where both have one. */
  function Merge(current: Trackz, fetched: Trackz): (merged: Trackz)
    ensures merged.Keys == current.Keys + fetched.Keys
    ensures forall id :: id in fetched ==> merged[id] == fetched[id]
    ensures forall id :: id in current && id !in fetched ==> merged[id] == current[id]
  {
    current + fetched
  }

  /** The cache after merging a series of fetches, oldest first. */
  function MergeAll(current: Trackz, fetches: seq<Trackz>): Trackz
    decreases |fetches|
  {
    if fetches == [] then current else MergeAll(Merge(current, fetches[0]), fetches[1..])
  }

  /** An id no fetch mentions keeps its cached event, or stays absent. */
  lemma {:induction false} MergeAllUntouched(current: Trackz, fetches: seq<Trackz>, id: string)
    requires forall j :: 0 <= j < |fetches| ==> id !in fetches[j]
    ensures id in MergeAll(current, fetches) <==> id in current
    ensures id in current ==> MergeAll(current, fetches)[id] == current[id]
    decreases |fetches|
  {
    if fetches != [] {
      MergeAllUntouched(Merge(current, fetches[0]), fetches[1..], id);
    }
  }

  /** Over a series of syncs the cache holds, for each id, the event of the
      last fetch that mentioned it. */
  lemma {:induction false} MergeAllLastWins(current: Trackz, fetches: seq<Trackz>, k: nat, id: string)
    requires k < |fetches| && id in fetches[k]
    requires forall j :: k < j < |fetches| ==> id !in fetches[j]
    ensures id in MergeAll(current, fetches) && MergeAll(current, fetches)[id] == fetches[k][id]
    decreases |fetches|
  {
    var merged := Merge(current, fetches[0]);
    if k == 0 {
      MergeAllUntouched(merged, fetches[1..], id);
    } else {
      MergeAllLastWins(merged, fetches[1..], k - 1, id);
    }
  }

  /** How `syncData` settles: true after a merged fetch, false when the
      fetch fails, never when the session refresh rejects (nothing handles
      that rejection). */
  datatype SyncOutcome = Settled(synced: bool) | Unsettled  // a promise that never settles

  /** `syncData()`. The id token, the cursor and the family key are read
      BEFORE the session refresh, so the fetch carries the token that was
      stored before any refresh. On a fetch that succeeds the cursor and the
      merged map are stored; a failed fetch writes neither, and neither does
      a cache that `JSON.parse` rejects: the throw lands in the same `catch`
      and the sync resolves false. */
  method SyncData(store: LocalStorageManager, firebaseKey: string, nowMs: int,
                  refreshResponse: Http<RefreshTokenResponse>, statsResponse: Http<Result>)
    returns (request: Option<StatsRequest>, outcome: SyncOutcome)
    requires store.Valid()
    modifies store
    ensures store.Valid()
    ensures var due := RefreshDue(old(store.GetTokenExpiration()), nowMs);
      var refreshed := if due && refreshResponse.Ok?
                       then RefreshedItems(old(store.items), nowMs, refreshResponse.body)
                       else old(store.items);
      && (outcome == Unsettled <==> due && refreshResponse.NotOk?)
      && (outcome == Unsettled ==> request == None && store.items == old(store.items))
      && (outcome != Unsettled ==>
            request == Some(StatsRequest(old(store.GetIdToken()), firebaseKey,
                                         RequestBody(old(store.GetFamilyKey()),
                                                     Some(old(store.GetNextSyncToken()))))))
      && (outcome != Unsettled && statsResponse.NotOk? ==>
            outcome == Settled(false) && store.items == refreshed)
      && (outcome != Unsettled && statsResponse.Ok? && old(store.GetTrackz()).SyntaxError? ==>
            outcome == Settled(false) && store.items == refreshed)
      && (outcome != Unsettled && statsResponse.Ok? && old(store.GetTrackz()).Parsed? ==>
            outcome == Settled(true)
            && store.items ==
                 refreshed[NextSyncTokenKey := Plain(statsResponse.body.nextSyncKey)]
                          [TrackzKey := EncodedTrackz(Merge(old(store.GetTrackz()).value,
                                                            Classify(statsResponse.body.trackz)))])
  {
    var idToken := store.GetIdToken();
    var nextSyncToken := store.GetNextSyncToken();
    var familyKey := store.GetFamilyKey();
    var sent, refreshed := RefreshSession(store, nowMs, refreshResponse);
    if refreshed.Rejected? {
      return None, Unsettled;
    }
    var stats;
    var req;
    req, stats := GetStats(idToken, firebaseKey, familyKey, Some(nextSyncToken), statsResponse);
    request := Some(req);
    match stats {
      case Rejected(_) =>
        outcome := Settled(false);
      case Resolved(result) =>
        var currentTrackz := store.GetTrackz();
        if currentTrackz.SyntaxError? {
          outcome := Settled(false);
        } else {
          var newTrackz := Merge(currentTrackz.value, result.trackz);
          store.SetNextSyncToken(result.nextSyncKey);
          store.SetTrackz(newTrackz);
          outcome := Settled(true);
        }
    }
  }

  /** Once a sync over a readable cache has stored a non-empty cursor, the
      next sync sends the request body WITHOUT it (the inverted choice in
      `getStats`), so the server is never asked for the changes since that
      cursor. */
  method SecondSyncSendsNoCursor(contents: map<string, Item>, firebaseKey: string, nowMs: int,
                                 first: Result, second: Http<Result>)
    returns (request: Option<StatsRequest>)
    requires WellFormed(contents) && TokenExpirationKey in contents
    requires TrackzKey in contents ==> contents[TrackzKey].EncodedTrackz?
    requires ParseInt(contents[TokenExpirationKey].text) == Some(nowMs + 1)
    requires first.nextSyncKey != ""
    ensures request.Some? && request.value.body.prevSyncKey == None
  {
    var store := new LocalStorageManager(contents);
    var outcome;
    request, outcome := SyncData(store, firebaseKey, nowMs, NotOk(""), Ok(first));
    request, outcome := SyncData(store, firebaseKey, nowMs, NotOk(""), second);
  }

  /** A cached `trackz` entry that `JSON.parse` rejects blocks every sync:
      whatever the server answers, the sync does not succeed, and neither
      the cache nor the cursor is written, so the next sync fails the same
      way until the store is cleared. */
  method UnparsableCacheBlocksSync(contents: map<string, Item>, firebaseKey: string, nowMs: int,
                                   refreshResponse: Http<RefreshTokenResponse>,
                                   statsResponse: Http<Result>)
    returns (outcome: SyncOutcome, cache: Item, cursor: string)
    requires WellFormed(contents) && TrackzKey in contents
    requires contents[TrackzKey].Unparsable? && contents[TrackzKey].raw != ""
    ensures outcome != Settled(true)
    ensures cache == contents[TrackzKey]
    ensures cursor == if NextSyncTokenKey in contents then contents[NextSyncTokenKey].text else ""
  {
    var store := new LocalStorageManager(contents);
    var request;
    request, outcome := SyncData(store, firebaseKey, nowMs, refreshResponse, statsResponse);
    cache := store.items[TrackzKey];
    cursor := store.GetNextSyncToken();
  }

  // ---------------------------------------------------------------------
  // Queries over the cached events

  /** `getEventsByType(events, t)`: the events whose `type` is `t`, in
      their order in `events`. */
  function GetEventsByType(events: seq<ApiEvent>, t: EventType): (r: seq<ApiEvent>)
    ensures forall i :: 0 <= i < |r| ==> HasType(r[i], t) && r[i] in events
    ensures forall i :: 0 <= i < |events| && HasType(events[i], t) ==> events[i] in r
  {
    var p := (e: ApiEvent) => HasType(e, t);
    FilterMembers(events, p);
    Filter(events, p)
  }

  /** The selection keeps every event of the type as often as it occurs
      and no other event. */
  lemma GetEventsByTypeMultiplicity(events: seq<ApiEvent>, t: EventType)
    ensures forall e :: multiset(GetEventsByType(events, t))[e]
                        == if HasType(e, t) then multiset(events)[e] else 0
  {
    FilterMultiset(events, (e: ApiEvent) => HasType(e, t));
  }

  /** The selection is order-preserving: on a concatenation it selects
      from each part in turn. */
  lemma GetEventsByTypeConcat(a: seq<ApiEvent>, b: seq<ApiEvent>, t: EventType)
    ensures GetEventsByType(a + b, t) == GetEventsByType(a, t) + GetEventsByType(b, t)
  {
    FilterConcat(a, b, e => HasType(e, t));
  }

  /** On recognised events the string test selects exactly the variants
      `EventTypeToEventMap` maps `t` to, so the result's declared type
      holds. */
  lemma GetEventsByTypeKinds(events: seq<ApiEvent>, t: EventType)
    requires forall i :: 0 <= i < |events| ==> !events[i].Unrecognized?
    ensures forall i :: 0 <= i < |GetEventsByType(events, t)| ==>
              KindOf(GetEventsByType(events, t)[i]) == Some(t)
    ensures forall i :: 0 <= i < |events| && KindOf(events[i]) == Some(t) ==>
              events[i] in GetEventsByType(events, t)
  {
    var r := GetEventsByType(events, t);
    forall i | 0 <= i < |r|
      ensures KindOf(r[i]) == Some(t)
    {
      var j :| 0 <= j < |events| && events[j] == r[i];
      HasTypeIsKind(r[i], t);
    }
    forall i | 0 <= i < |events| && KindOf(events[i]) == Some(t)
      ensures events[i] in r
    {
      HasTypeIsKind(events[i], t);
    }
  }

  /** `getTodaysEventsByType(events, t)` with the local start of today
      given as `startOfDay`: the events of type `t` that began at or after
      it, in their order. */
  function GetTodaysEventsByType(events: seq<ApiEvent>, t: EventType, startOfDay: int)
    : seq<ApiEvent>
  {
    Filter(events, (e: ApiEvent) => e.header.beginDt >= startOfDay && HasType(e, t))
  }

  /** Today's events of type `t` are the events of the list that have
      type `t` and began at or after the start of the day. */
  lemma TodaysEventsMembers(events: seq<ApiEvent>, t: EventType, startOfDay: int)
    ensures var r := GetTodaysEventsByType(events, t, startOfDay);
      && (forall i :: 0 <= i < |r| ==>
            r[i] in events && r[i].header.beginDt >= startOfDay && HasType(r[i], t))
      && (forall i :: (0 <= i < |events| && events[i].header.beginDt >= startOfDay
                       && HasType(events[i], t)) ==> events[i] in r)
  {
    FilterMembers(events, (e: ApiEvent) => e.header.beginDt >= startOfDay && HasType(e, t));
  }

  /** Appending an event to the list appends it to today's events of its
      kind exactly when it began at or after the start of the day. */
  lemma TodaysEventsSnoc(events: seq<ApiEvent>, e: ApiEvent, t: EventType, startOfDay: int)
    ensures GetTodaysEventsByType(events + [e], t, startOfDay) ==
            GetTodaysEventsByType(events, t, startOfDay)
            + (if e.header.beginDt >= startOfDay && HasType(e, t) then [e] else [])
  {
    FilterSnoc(events, e, (e: ApiEvent) => e.header.beginDt >= startOfDay && HasType(e, t));
  }

  /** Today's events of a kind are that kind's events narrowed to those
      that began at or after the start of the day. */
  lemma {:induction false} TodaysEventsNarrowKind(events: seq<ApiEvent>, t: EventType, startOfDay: int)
    ensures GetTodaysEventsByType(events, t, startOfDay) ==
            Filter(GetEventsByType(events, t), (e: ApiEvent) => e.header.beginDt >= startOfDay)
  {
    var p := (e: ApiEvent) => HasType(e, t);
    var q := (e: ApiEvent) => e.header.beginDt >= startOfDay;
    if events != [] {
      TodaysEventsNarrowKind(events[1..], t, startOfDay);
      var head := if p(events[0]) then [events[0]] else [];
      FilterConcat(head, Filter(events[1..], p), q);
    }
  }

  /** A position whose event takes part in the comparison of the seedless
      `reduce`: the seed `events[0]` always, any other position only when
      its event has type `t`. */
  predicate Competes(events: seq<ApiEvent>, t: EventType, j: int)
    requires 0 <= j < |events|
  {
    j == 0 || HasType(events[j], t)
  }

  /** The seedless `reduce` of `getFirstEventByType`: the running pick
      moves to the current event when that one has type `t` and began
      strictly earlier. */
  function EarliestOf(events: seq<ApiEvent>, t: EventType): ApiEvent
    requires events != []
    decreases |events|
  {
    if |events| == 1 then events[0]
    else
      var prev := EarliestOf(events[..|events| - 1], t);
      var curr := events[|events| - 1];
      if HasType(curr, t) && prev.header.beginDt > curr.header.beginDt then curr else prev
  }

  /** The seedless `reduce` of `getLastEventByType`: the mirror image, with
      strictly later. */
  function LatestOf(events: seq<ApiEvent>, t: EventType): ApiEvent
    requires events != []
    decreases |events|
  {
    if |events| == 1 then events[0]
    else
      var prev := LatestOf(events[..|events| - 1], t);
      var curr := events[|events| - 1];
      if HasType(curr, t) && prev.header.beginDt < curr.header.beginDt then curr else prev
  }

  /** `getFirstEventByType(events, t)`: a TypeError on an empty list (a
      `reduce` with no seed). */
  function GetFirstEventByType(events: seq<ApiEvent>, t: EventType): (r: Access<ApiEvent>)
    ensures r.TypeError? <==> events == []
  {
    if events == [] then TypeError else Value(EarliestOf(events, t))
  }

  /** `getLastEventByType(events, t)`: a TypeError on an empty list. */
  function GetLastEventByType(events: seq<ApiEvent>, t: EventType): (r: Access<ApiEvent>)
    ensures r.TypeError? <==> events == []
  {
    if events == [] then TypeError else Value(LatestOf(events, t))
  }

  /** The pick of `getFirstEventByType` began no later than any competing
      event. */
  lemma {:induction false} EarliestOfIsMinimum(events: seq<ApiEvent>, t: EventType)
    requires events != []
    ensures forall j :: 0 <= j < |events| && Competes(events, t, j) ==>
              EarliestOf(events, t).header.beginDt <= events[j].header.beginDt
    decreases |events|
  {
    var n := |events|;
    if n > 1 {
      var init := events[..n - 1];
      EarliestOfIsMinimum(init, t);
      assert forall j :: 0 <= j < n - 1 ==> init[j] == events[j];
      assert forall j :: 0 <= j < n - 1 ==> (Competes(init, t, j) <==> Competes(events, t, j));
    }
  }

  /** The pick of `getFirstEventByType` is the first competing event (the
      seed `events[0]`, or an event of type `t`) with the smallest begin
      time: it began no later than any competitor, and every competitor
      before it began strictly later, so ties keep the earlier element. */
  lemma {:induction false} EarliestOfIsFirstMinimum(events: seq<ApiEvent>, t: EventType)
    requires events != []
    ensures var r := EarliestOf(events, t);
      exists i :: 0 <= i < |events| && events[i] == r && Competes(events, t, i)
        && forall j :: 0 <= j < i && Competes(events, t, j) ==>
             events[j].header.beginDt > r.header.beginDt
    ensures forall j :: 0 <= j < |events| && Competes(events, t, j) ==>
              EarliestOf(events, t).header.beginDt <= events[j].header.beginDt
    decreases |events|
  {
    EarliestOfIsMinimum(events, t);
    var n := |events|;
    var r := EarliestOf(events, t);
    if n == 1 {
      assert events[0] == r && Competes(events, t, 0);
    } else {
      var init := events[..n - 1];
      var prev := EarliestOf(init, t);
      var curr := events[n - 1];
      EarliestOfIsFirstMinimum(init, t);
      EarliestOfIsMinimum(init, t);
      var i :| 0 <= i < n - 1 && init[i] == prev && Competes(init, t, i)
        && forall j :: 0 <= j < i && Competes(init, t, j) ==>
             init[j].header.beginDt > prev.header.beginDt;
      if r == curr && HasType(curr, t) && prev.header.beginDt > curr.header.beginDt {
        assert Competes(events, t, n - 1);
        forall j | 0 <= j < n - 1 && Competes(events, t, j)
          ensures events[j].header.beginDt > r.header.beginDt
        {
          assert init[j] == events[j] && Competes(init, t, j);
        }
      } else {
        assert r == prev;
        assert events[i] == r && Competes(events, t, i);
        forall j | 0 <= j < i && Competes(events, t, j)
          ensures events[j].header.beginDt > r.header.beginDt
        {
          assert init[j] == events[j] && Competes(init, t, j);
        }
      }
    }
  }

  /** The pick of `getLastEventByType` began no earlier than any
      competing event. */
  lemma {:induction false} LatestOfIsMaximum(events: seq<ApiEvent>, t: EventType)
    requires events != []
    ensures forall j :: 0 <= j < |events| && Competes(events, t, j) ==>
              LatestOf(events, t).header.beginDt >= events[j].header.beginDt
    decreases |events|
  {
    var n := |events|;
    if n > 1 {
      var init := events[..n - 1];
      LatestOfIsMaximum(init, t);
      assert forall j :: 0 <= j < n - 1 ==> init[j] == events[j];
      assert forall j :: 0 <= j < n - 1 ==> (Competes(init, t, j) <==> Competes(events, t, j));
    }
  }

  /** The mirror image for `getLastEventByType`: the first competing event
      with the largest begin time. */
  lemma {:induction false} LatestOfIsFirstMaximum(events: seq<ApiEvent>, t: EventType)
    requires events != []
    ensures var r := LatestOf(events, t);
      exists i :: 0 <= i < |events| && events[i] == r && Competes(events, t, i)
        && forall j :: 0 <= j < i && Competes(events, t, j) ==>
             events[j].header.beginDt < r.header.beginDt
    ensures forall j :: 0 <= j < |events| && Competes(events, t, j) ==>
              LatestOf(events, t).header.beginDt >= events[j].header.beginDt
    decreases |events|
  {
    LatestOfIsMaximum(events, t);
    var n := |events|;
    var r := LatestOf(events, t);
    if n == 1 {
      assert events[0] == r && Competes(events, t, 0);
    } else {
      var init := events[..n - 1];
      var prev := LatestOf(init, t);
      var curr := events[n - 1];
      LatestOfIsFirstMaximum(init, t);
      LatestOfIsMaximum(init, t);
      var i :| 0 <= i < n - 1 && init[i] == prev && Competes(init, t, i)
        && forall j :: 0 <= j < i && Competes(init, t, j) ==>
             init[j].header.beginDt < prev.header.beginDt;
      if r == curr && HasType(curr, t) && prev.header.beginDt < curr.header.beginDt {
        assert Competes(events, t, n - 1);
        forall j | 0 <= j < n - 1 && Competes(events, t, j)
          ensures events[j].header.beginDt < r.header.beginDt
        {
          assert init[j] == events[j] && Competes(init, t, j);
        }
      } else {
        assert r == prev;
        assert events[i] == r && Competes(events, t, i);
        forall j | 0 <= j < i && Competes(events, t, j)
          ensures events[j].header.beginDt < r.header.beginDt
        {
          assert init[j] == events[j] && Competes(init, t, j);
        }
      }
    }
  }

  /** `getStatus` grades the time since an event began. */
  datatype Status = OKAY | LATE | OVERDUE

  const OneHour := 60 * 60 * 1000
  const TwoHours := 2 * OneHour

  /** `getStatus(beginDt)` at clock `nowMs`: OKAY up to one hour
      (inclusive), LATE up to two hours (inclusive), OVERDUE beyond. */
  function GetStatus(beginDt: int, nowMs: int): (s: Status)
    ensures s == OKAY <==> nowMs - beginDt <= 3600000
    ensures s == LATE <==> 3600000 < nowMs - beginDt <= 7200000
    ensures s == OVERDUE <==> nowMs - beginDt > 7200000
  {
    var timeDifference := nowMs - beginDt;
    if timeDifference <= OneHour then OKAY
    else if timeDifference <= TwoHours then LATE
    else OVERDUE
  }

  function Severity(s: Status): nat {
    match s
    case OKAY => 0
    case LATE => 1
    case OVERDUE => 2
  }

  /** As the clock advances the status never improves. */
  lemma StatusMonotone(beginDt: int, nowMs: int, laterMs: int)
    requires nowMs <= laterMs
    ensures Severity(GetStatus(beginDt, nowMs)) <= Severity(GetStatus(beginDt, laterMs))
  {
  }
}
