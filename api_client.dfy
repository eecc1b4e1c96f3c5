/** The client side of the backend: the three HTTP calls (token refresh,
    password check, event sync) with their responses given as inputs, the
    classification of synced events, the socket handshake that finds the
    user's family key, and the session refresh that decides from the stored
    expiry whether to renew the id token. */
module ApiClient {
  import opened Text
  import opened JsValues
  import opened ApiTypes
  import opened WebSocket
  import opened LocalStorage
  import opened Sequences

  /** An HTTP response: an ok status with its parsed body, or an error
      status with its body text. */
  datatype Http<T> = Ok(body: T) | NotOk(text: string)

  /** How an async call settles: resolved with a value, or rejected with
      an error message. */
  datatype Outcome<T> = Resolved(value: T) | Rejected(message: string)

  /** The token endpoint's answer; `expiresIn` is a decimal string of
      seconds. */
  datatype RefreshTokenResponse =
    RefreshTokenResponse(idToken: string, refreshToken: string, expiresIn: string)

  // ---------------------------------------------------------------------
  // refreshIdToken and verifyPassword

  /** `refreshIdToken`: the parsed body on an ok status, otherwise a
      rejection carrying the response text. */
  function RefreshIdToken(response: Http<RefreshTokenResponse>): (r: Outcome<RefreshTokenResponse>)
    ensures r.Rejected? <==> response.NotOk?
    ensures response.Ok? ==> r.value == response.body
    ensures response.NotOk? ==> r.message == "Error during token refresh: " + response.text
  {
    match response
    case Ok(body) => Resolved(body)
    case NotOk(text) => Rejected("Error during token refresh: " + text)
  }

  /** `verifyPassword`: the parsed body on an ok status, otherwise a
      rejection with a fixed message that does not depend on the response. */
  function VerifyPassword<T>(response: Http<T>): (r: Outcome<T>)
    ensures r.Rejected? <==> response.NotOk?
    ensures response.Ok? ==> r.value == response.body
    ensures response.NotOk? ==> r.message == "Error: Invalid credentials"
  {
    match response
    case Ok(body) => Resolved(body)
    case NotOk(_) => Rejected("Error: Invalid credentials")
  }

  // ---------------------------------------------------------------------
  // getStats

  const SyncAction := "/family/trackz/sync2"

  /** The sync request body as it is serialized: `JSON.stringify` drops a
      property whose value is `undefined`, so `prevSyncKey` is present only
      when it holds a string. */
  datatype SyncBody = SyncBody(action: string, familyKey: string, prevSyncKey: Option<string>)

  /** What `getStats` sends: the bearer token, the instance token and the
      body. */
  datatype StatsRequest = StatsRequest(bearerToken: string, firebaseToken: string, body: SyncBody)

  /** The request body `getStats` chooses. The choice is inverted as
      written: a truthy cursor selects the body WITHOUT it, and a falsy one
      (absent or empty) selects the body that carries it, so the only cursor
      ever sent is the empty string. */
  function RequestBody(familyKey: string, prevSyncKey: Option<string>): (b: SyncBody)
    ensures b.action == SyncAction && b.familyKey == familyKey
    ensures b.prevSyncKey.Some? <==> prevSyncKey == Some("")
    ensures b.prevSyncKey.Some? ==> b.prevSyncKey.value == ""
  {
    var truthy := prevSyncKey.Some? && prevSyncKey.value != "";
    if truthy then SyncBody(SyncAction, familyKey, None)
    else SyncBody(SyncAction, familyKey, prevSyncKey)
  }

  /** The `switch` in `getStats`: a FEED is kept when its `feedType` is
      BREAST or BOTTLE, PUMP, ROUTINE, DIAPER and SLEEP are always kept,
      every other `type` is dropped. */
  predicate Accepted(e: ApiEvent) {
    var t := TypeTag(e);
    if t == "FEED" then IsFeedSubtype(FeedTypeTag(e))
    else t == "PUMP" || t == "ROUTINE" || t == "DIAPER" || t == "SLEEP"
  }

  /** The classified map: the fetched entries the switch keeps, under their
      own ids. */
  function Classify(fetched: Trackz): (kept: Trackz)
    ensures forall id :: id in kept <==> id in fetched && Accepted(fetched[id])
    ensures forall id :: id in kept ==> kept[id] == fetched[id]
  {
    map id | id in fetched && Accepted(fetched[id]) :: fetched[id]
  }

  /** On objects whose tags select their shape the switch keeps exactly the
      recognised events: it drops a wire object iff none of the six shapes
      fits it. */
  lemma AcceptedIffRecognised(e: ApiEvent)
    requires WellTagged(e)
    ensures Accepted(e) <==> !e.Unrecognized?
  {
    if e.Unrecognized? {
      var t := e.typeTag;
      assert t !in {"SLEEP", "ROUTINE", "DIAPER", "PUMP"};
    }
  }

  /** Every event the classification keeps is recognised, and every
      recognised fetched event is kept. */
  lemma ClassifyKeepsRecognised(fetched: Trackz)
    requires forall id :: id in fetched ==> WellTagged(fetched[id])
    ensures AllRecognised(Classify(fetched))
    ensures forall id :: id in fetched && !fetched[id].Unrecognized? ==> id in Classify(fetched)
  {
    forall id | id in fetched {
      AcceptedIffRecognised(fetched[id]);
    }
  }

  /** `getStats`: on an ok response, the fetched events run through the
      switch one id at a time and the cursor is handed back unchanged; an
      error status rejects with the response text. */
  method GetStats(bearerToken: string, firebaseToken: string, familyKey: string,
                  prevSyncKey: Option<string>, response: Http<Result>)
    returns (request: StatsRequest, r: Outcome<Result>)
    ensures request == StatsRequest(bearerToken, firebaseToken, RequestBody(familyKey, prevSyncKey))
    ensures response.NotOk? ==> r == Rejected("Error: " + response.text)
    ensures response.Ok? ==>
              r == Resolved(Result(response.body.nextSyncKey, Classify(response.body.trackz)))
  {
    request := StatsRequest(bearerToken, firebaseToken, RequestBody(familyKey, prevSyncKey));
    if response.NotOk? {
      return request, Rejected("Error: " + response.text);
    }
    var result := response.body;
    var trackz: Trackz := map[];
    var pending := result.trackz.Keys;
    while pending != {}
      invariant pending <= result.trackz.Keys
      invariant trackz == map id | id in result.trackz && id !in pending
                                   && Accepted(result.trackz[id]) :: result.trackz[id]
      decreases pending
    {
      var eventId :| eventId in pending;
      var event := result.trackz[eventId];
      var t := TypeTag(event);
      if t == "FEED" {
        if FeedTypeTag(event) == Some("BREAST") {
          trackz := trackz[eventId := event];
        } else if FeedTypeTag(event) == Some("BOTTLE") {
          trackz := trackz[eventId := event];
        }
      } else if t == "PUMP" || t == "ROUTINE" || t == "DIAPER" || t == "SLEEP" {
        trackz := trackz[eventId := event];
      }
      pending := pending - {eventId};
    }
    assert trackz.Keys == Classify(result.trackz).Keys;
    r := Resolved(Result(result.nextSyncKey, trackz));
  }

  // ---------------------------------------------------------------------
  // getFamilyKey

  const FirebaseHost := "s-usc1a-nss-2056.firebaseio.com"

  /** How `getFamilyKey` ends: with the family key (`None` when the user has
      none), with a TypeError from reading a reply that lacks a field, or
      never, when a reply it waits for does not come. */
  datatype Login = FamilyKey(key: Option<string>) | Thrown | NeverSettles

  /** A run of `getFamilyKey`: how it ends and what it did to the socket. */
  datatype Run = Run(outcome: Login, trace: seq<Action>)

  /** Destructuring `{d: {d: {ts, v, h, s}}}` of a handshake reply: the
      inner `d`, which carries the host to move to when the session was
      refused, and the session identifier `s`. */
  function HandshakeFields(m: Json): (r: Access<(Option<Json>, Option<Json>)>)
    ensures r.Value? ==> Path(Some(m), ["d", "d"]) == Value(r.v.0)
  {
    match Path(Some(m), ["d", "d"])
    case TypeError => TypeError
    case Value(inner) =>
      match Prop(inner, "s")
      case TypeError => TypeError
      case Value(s) => Value((inner, s))
  }

  /** `authResult.d.b.d.auth.user_id`. */
  function UserIdOf(m: Json): Access<Option<Json>> {
    Path(Some(m), ["d", "b", "d", "auth", "user_id"])
  }

  /** `Object.keys(d)[0]` for the `d` destructured out of `{d: {b: {d}}}`. */
  function FamilyKeyOf(m: Json): Access<Option<string>> {
    match Path(Some(m), ["d", "b", "d"])
    case TypeError => TypeError
    case Value(d) => FirstKey(d)
  }

  /** Where the handshake leaves a run: stopped for good, or connected
      after consuming `next` replies with the socket actions in `trace`. */
  datatype Handshake = Stopped(run: Run) | Connected(next: nat, trace: seq<Action>)

  /** Step 1 of `getFamilyKey` as the code runs it, given the server's
      replies in the order they arrive (one reply to each wait). */
  function HandshakeSpec(replies: seq<Json>): (h: Handshake)
    ensures h.Connected? ==> 1 <= h.next <= |replies|
  {
    var connected := [Opened(ConnectUrl(FirebaseHost, None))];
    if |replies| == 0 then Stopped(Run(NeverSettles, connected))
    else match HandshakeFields(replies[0])
      case TypeError => Stopped(Run(Thrown, connected))
      case Value(fields) =>
        if Truthy(fields.1) then Connected(1, connected)
        else
          var moved := connected + [Flushed] + [Closed] + [Opened(ConnectUrl(TemplateText(fields.0), None))];
          if |replies| == 1 then Stopped(Run(NeverSettles, moved))
          else if HandshakeFields(replies[1]).TypeError? then Stopped(Run(Thrown, moved))
          else Connected(2, moved)
  }

  /** The whole of `getFamilyKey` as the code runs it. */
  function GetFamilyKeySpec(authToken: string, replies: seq<Json>): Run {
    match HandshakeSpec(replies)
    case Stopped(run) => run
    case Connected(next, trace) => AfterHandshake(authToken, replies[next..], trace)
  }

  /** What the code reads out of the reply to the auth frame, and out of
      the reply to the query; `None` where the reply never comes. */
  function ReadUserId(rest: seq<Json>): Option<Access<Option<Json>>> {
    if rest == [] then None else Some(UserIdOf(rest[0]))
  }

  function ReadKey(rest: seq<Json>): Option<Access<Option<string>>> {
    if |rest| < 2 then None else Some(FamilyKeyOf(rest[1]))
  }

  /** Steps 2 to 4 of `getFamilyKey`, after a handshake that produced
      `trace`, given what the code reads out of the two replies. */
  function AuthSteps(authToken: string, userId: Option<Access<Option<Json>>>,
                     key: Option<Access<Option<string>>>, trace: seq<Action>): Run {
    var authed := trace + [Flushed] + [Sent(AuthRequest(authToken))];
    match userId
    case None => Run(NeverSettles, authed)
    case Some(TypeError) => Run(Thrown, authed)
    case Some(Value(id)) =>
      var queried := authed + [Flushed] + [Sent(FamilyKeyzRequest(id))];
      match key
      case None => Run(NeverSettles, queried)
      case Some(TypeError) => Run(Thrown, queried)
      case Some(Value(k)) => Run(FamilyKey(k), queried + [Flushed] + [Closed])
  }

  /** Steps 2 to 4 of `getFamilyKey` on the replies that arrive after the
      handshake. */
  function AfterHandshake(authToken: string, rest: seq<Json>, trace: seq<Action>): Run {
    AuthSteps(authToken, ReadUserId(rest), ReadKey(rest), trace)
  }

  /** Every frame is sent right after a flush. */
  predicate FlushedBeforeEachSend(trace: seq<Action>) {
    forall i :: 0 <= i < |trace| && trace[i].Sent? ==> i > 0 && trace[i - 1] == Flushed
  }

  /** Appending a flush and then `a`, or an action that is not a send,
      keeps every send right after a flush. */
  lemma {:induction false} FlushedBeforeEachSendSnoc(trace: seq<Action>, a: Action)
    requires FlushedBeforeEachSend(trace)
    requires a.Sent? ==> trace != [] && trace[|trace| - 1] == Flushed
    ensures FlushedBeforeEachSend(trace + [a])
  {
    var t := trace + [a];
    forall i | 0 <= i < |t| && t[i].Sent?
      ensures i > 0 && t[i - 1] == Flushed
    {
      if i < |trace| {
        assert t[i] == trace[i];
      }
    }
  }

  /** The actions the auth step appends open no socket, and the auth frame
      follows a flush. */
  lemma {:induction false} AuthStepFacts(trace: seq<Action>, auth: Json)
    requires SentFrames(trace) == [] && FlushedBeforeEachSend(trace)
    ensures var t := trace + [Flushed] + [Sent(auth)];
      OpenedUrls(t) == OpenedUrls(trace) && SentFrames(t) == [auth] && FlushedBeforeEachSend(t)
  {
    var t1 := trace + [Flushed];
    TraceSnoc(trace, Flushed);
    TraceSnoc(t1, Sent(auth));
    FlushedBeforeEachSendSnoc(trace, Flushed);
    FlushedBeforeEachSendSnoc(t1, Sent(auth));
  }

  /** The same for the query step, after the auth step. */
  lemma {:induction false} QueryStepFacts(trace: seq<Action>, auth: Json, query: Json)
    requires SentFrames(trace) == [auth] && FlushedBeforeEachSend(trace)
    ensures var t := trace + [Flushed] + [Sent(query)];
      OpenedUrls(t) == OpenedUrls(trace) && SentFrames(t) == [auth, query] && FlushedBeforeEachSend(t)
  {
    var t1 := trace + [Flushed];
    TraceSnoc(trace, Flushed);
    TraceSnoc(t1, Sent(query));
    FlushedBeforeEachSendSnoc(trace, Flushed);
    FlushedBeforeEachSendSnoc(t1, Sent(query));
  }

  /** The final flush and close change no list of opened URLs or sent
      frames. */
  lemma {:induction false} CloseStepFacts(trace: seq<Action>)
    requires FlushedBeforeEachSend(trace)
    ensures var t := trace + [Flushed] + [Closed];
      OpenedUrls(t) == OpenedUrls(trace) && SentFrames(t) == SentFrames(trace)
      && FlushedBeforeEachSend(t)
  {
    var t1 := trace + [Flushed];
    TraceSnoc(trace, Flushed);
    TraceSnoc(t1, Closed);
    FlushedBeforeEachSendSnoc(trace, Flushed);
    FlushedBeforeEachSendSnoc(t1, Closed);
  }

  /** The auth and query steps open no socket, send the auth frame and then
      (once the auth reply yields a user id) the query for that user, each
      right after a flush; a run that yields a key ends by flushing and
      closing. */
  lemma {:induction false} AuthStepsFacts(authToken: string, userId: Option<Access<Option<Json>>>,
                                          key: Option<Access<Option<string>>>, trace: seq<Action>)
    requires SentFrames(trace) == [] && FlushedBeforeEachSend(trace)
    ensures var run := AuthSteps(authToken, userId, key, trace);
      && OpenedUrls(run.trace) == OpenedUrls(trace)
      && FlushedBeforeEachSend(run.trace)
      && SentFrames(run.trace) ==
           [AuthRequest(authToken)]
           + (match userId case Some(Value(id)) => [FamilyKeyzRequest(id)] case _ => [])
  {
    var run := AuthSteps(authToken, userId, key, trace);
    var auth := AuthRequest(authToken);
    var t2 := trace + [Flushed] + [Sent(auth)];
    AuthStepFacts(trace, auth);
    match userId {
      case None =>
      case Some(TypeError) =>
      case Some(Value(id)) =>
        var query := FamilyKeyzRequest(id);
        var t4 := t2 + [Flushed] + [Sent(query)];
        QueryStepFacts(t2, auth, query);
        if key.Some? && key.value.Value? {
          CloseStepFacts(t4);
          assert run.trace == t4 + [Flushed] + [Closed];
        }
    }
  }

  /** A run that yields a key ends by flushing and closing. */
  lemma {:induction false} AuthStepsEnd(authToken: string, userId: Option<Access<Option<Json>>>,
                                        key: Option<Access<Option<string>>>, trace: seq<Action>)
    requires AuthSteps(authToken, userId, key, trace).outcome.FamilyKey?
    ensures var t := AuthSteps(authToken, userId, key, trace).trace;
      |t| >= 2 && t[|t| - 2] == Flushed && t[|t| - 1] == Closed
  {
  }

  /** The actions of the handshake, in order. */
  lemma {:induction false} HandshakeTrace(replies: seq<Json>)
    ensures var h := HandshakeSpec(replies);
      var trace := if h.Connected? then h.trace else h.run.trace;
      var first := Opened(ConnectUrl(FirebaseHost, None));
      if replies == [] || HandshakeFields(replies[0]).TypeError?
         || Truthy(HandshakeFields(replies[0]).v.1) then trace == [first]
      else trace == [first] + [Flushed] + [Closed]
                    + [Opened(ConnectUrl(TemplateText(HandshakeFields(replies[0]).v.0), None))]
  {
  }

  /** The action lists the handshake builds: a first socket, then, on a
      redirect, a flush, a close and a second socket. */
  lemma {:induction false} HandshakeStepsFacts(trace: seq<Action>, first: Action, second: Action,
                                               redirect: bool)
    requires first.Opened? && second.Opened?
    requires trace == if redirect then [first] + [Flushed] + [Closed] + [second] else [first]
    ensures SentFrames(trace) == [] && FlushedBeforeEachSend(trace)
    ensures OpenedUrls(trace) == [first.url] + (if redirect then [second.url] else [])
  {
    TraceSnoc([], first);
    assert [] + [first] == [first];
    FlushedBeforeEachSendSnoc([], first);
    if redirect {
      var m1 := [first] + [Flushed];
      var m2 := m1 + [Closed];
      TraceSnoc([first], Flushed);
      TraceSnoc(m1, Closed);
      TraceSnoc(m2, second);
      FlushedBeforeEachSendSnoc([first], Flushed);
      FlushedBeforeEachSendSnoc(m1, Closed);
      FlushedBeforeEachSendSnoc(m2, second);
    }
  }

  /** The handshake opens the fixed host (with `&ls=undefined`, the session
      argument being omitted) and, iff the first reply carries no truthy
      session, the host that reply names; it sends nothing. */
  lemma {:induction false} HandshakeOpens(replies: seq<Json>)
    ensures var h := HandshakeSpec(replies);
      var trace := if h.Connected? then h.trace else h.run.trace;
      && SentFrames(trace) == [] && FlushedBeforeEachSend(trace)
      && OpenedUrls(trace) ==
           [BaseUrl(FirebaseHost) + "&ls=undefined"]
           + (if replies == [] || HandshakeFields(replies[0]).TypeError?
                 || Truthy(HandshakeFields(replies[0]).v.1) then []
              else [ConnectUrl(TemplateText(HandshakeFields(replies[0]).v.0), None)])
  {
    HandshakeTrace(replies);
    var h := HandshakeSpec(replies);
    var trace := if h.Connected? then h.trace else h.run.trace;
    var first := Opened(ConnectUrl(FirebaseHost, None));
    var redirect := !(replies == [] || HandshakeFields(replies[0]).TypeError?
                      || Truthy(HandshakeFields(replies[0]).v.1));
    var second := if redirect then Opened(ConnectUrl(TemplateText(HandshakeFields(replies[0]).v.0), None))
                  else first;
    HandshakeStepsFacts(trace, first, second, redirect);
  }

  /** The reconnect decision: a run opens the fixed host first and a second
      socket, to the host the first reply names, iff that reply carries no
      truthy session; no later step opens a socket, so there is at most one
      redirect. */
  lemma {:induction false} ReconnectIffNoSession(authToken: string, replies: seq<Json>)
    ensures var urls := OpenedUrls(GetFamilyKeySpec(authToken, replies).trace);
      && 1 <= |urls| <= 2
      && urls[0] == BaseUrl(FirebaseHost) + "&ls=undefined"
      && (|urls| == 2 <==>
            replies != [] && HandshakeFields(replies[0]).Value?
            && !Truthy(HandshakeFields(replies[0]).v.1))
      && (|urls| == 2 ==> urls[1] == ConnectUrl(TemplateText(HandshakeFields(replies[0]).v.0), None))
  {
    HandshakeOpens(replies);
    RunOpensAsHandshake(authToken, replies);
  }

  /** The steps after the handshake open no socket. */
  lemma RunOpensAsHandshake(authToken: string, replies: seq<Json>)
    ensures var h := HandshakeSpec(replies);
      OpenedUrls(GetFamilyKeySpec(authToken, replies).trace)
      == OpenedUrls(if h.Connected? then h.trace else h.run.trace)
  {
    HandshakeOpens(replies);
    var h := HandshakeSpec(replies);
    if h.Connected? {
      var rest := replies[h.next..];
      AuthStepsFacts(authToken, ReadUserId(rest), ReadKey(rest), h.trace);
    }
  }

  /** Every run sends, each right after a flush, the auth frame for the
      given token (once the handshake connects) and then the query for the
      user id the auth reply carries (once it carries one), and nothing
      else. */
  lemma {:induction false} SendsAuthThenQuery(authToken: string, replies: seq<Json>)
    ensures var h := HandshakeSpec(replies);
      var sent := SentFrames(GetFamilyKeySpec(authToken, replies).trace);
      && FlushedBeforeEachSend(GetFamilyKeySpec(authToken, replies).trace)
      && (h.Stopped? ==> sent == [])
      && (h.Connected? ==>
            sent == [AuthRequest(authToken)]
                    + (if h.next == |replies| || UserIdOf(replies[h.next]).TypeError? then []
                       else [FamilyKeyzRequest(UserIdOf(replies[h.next]).v)]))
  {
    HandshakeOpens(replies);
    var h := HandshakeSpec(replies);
    if h.Connected? {
      var rest := replies[h.next..];
      AuthStepsFacts(authToken, ReadUserId(rest), ReadKey(rest), h.trace);
      if rest != [] {
        assert rest[0] == replies[h.next];
      }
    }
  }

  /** A run that yields a key has used the reply to its query: the key is
      the first key of that reply's `d.b.d`, and the run ends by flushing
      and closing. */
  lemma {:induction false} SuccessfulRun(authToken: string, replies: seq<Json>)
    requires GetFamilyKeySpec(authToken, replies).outcome.FamilyKey?
    ensures var h := HandshakeSpec(replies);
      var run := GetFamilyKeySpec(authToken, replies);
      && h.Connected? && h.next + 2 <= |replies|
      && UserIdOf(replies[h.next]).Value?
      && run.outcome.key == FamilyKeyOf(replies[h.next + 1]).v
      && |run.trace| >= 2 && run.trace[|run.trace| - 2] == Flushed && run.trace[|run.trace| - 1] == Closed
  {
    var h := HandshakeSpec(replies);
    var rest := replies[h.next..];
    AuthStepsEnd(authToken, ReadUserId(rest), ReadKey(rest), h.trace);
    assert rest[0] == replies[h.next] && rest[1] == replies[h.next + 1];
  }

  /** `await waitForMessages(); getNextMessage()` on a manager whose queue
      is empty and whose waiter was reset: the wait suspends, and the next
      scripted reply, if there is one, wakes it and is dequeued. `None`
      means the await never resumes. */
  method AwaitReply(ws: WebSocketManager, replies: seq<Json>, next: nat) returns (reply: Option<Json>)
    requires ws.listening && ws.queue == [] && !ws.waiter
    modifies ws
    ensures next < |replies| ==> reply == Some(replies[next])
    ensures next >= |replies| ==> reply == None
    ensures ws.history == old(ws.history) && ws.socket == old(ws.socket) && ws.listening
  {
    var suspends := ws.WaitForMessages();
    assert suspends;
    if next < |replies| {
      var woke := ws.Receive(replies[next]);
      assert woke;
      reply := ws.GetNextMessage();
    } else {
      reply := None;
    }
  }

  /** Steps 2 to 4 of `getFamilyKey`, from the flush after the handshake:
      the run is the one `AfterHandshake` describes. */
  method Authenticate(ws: WebSocketManager, authToken: string, replies: seq<Json>, next: nat)
    returns (r: Login)
    requires ws.socket && ws.listening && next <= |replies|
    modifies ws
    ensures Run(r, ws.history) == AfterHandshake(authToken, replies[next..], old(ws.history))
  {
    var rest := replies[next..];
    ws.FlushMessages();
    ws.Auth(authToken);
    var reply := AwaitReply(ws, replies, next);
    if reply.None? {
      return NeverSettles;
    }
    assert reply.value == rest[0];
    var userId := UserIdOf(reply.value);
    if userId.TypeError? {
      return Thrown;
    }
    ws.FlushMessages();
    ws.GetFamilyKeyz(userId.v);
    reply := AwaitReply(ws, replies, next + 1);
    if reply.None? {
      return NeverSettles;
    }
    assert reply.value == rest[1];
    var key := FamilyKeyOf(reply.value);
    if key.TypeError? {
      return Thrown;
    }
    ws.FlushMessages();
    ws.Close();
    return FamilyKey(key.v);
  }

  /** Step 1 of `getFamilyKey` on a fresh manager: the outcome is the one
      `HandshakeSpec` describes, and a connected run leaves the manager with
      an open, listening socket. */
  method OpenSession(ws: WebSocketManager, replies: seq<Json>) returns (h: Handshake)
    requires !ws.socket && ws.queue == [] && !ws.waiter && ws.history == []
    modifies ws
    ensures h == HandshakeSpec(replies)
    ensures h.Stopped? ==> h.run.trace == ws.history
    ensures h.Connected? ==> h.trace == ws.history && ws.socket && ws.listening
  {
    ws.Connect(FirebaseHost, None);
    var reply := AwaitReply(ws, replies, 0);
    if reply.None? {
      return Stopped(Run(NeverSettles, ws.history));
    }
    var fields := HandshakeFields(reply.value);
    if fields.TypeError? {
      return Stopped(Run(Thrown, ws.history));
    }
    if Truthy(fields.v.1) {
      return Connected(1, ws.history);
    }
    ws.FlushMessages();
    ws.Close();
    ws.Connect(TemplateText(fields.v.0), None);
    reply := AwaitReply(ws, replies, 1);
    if reply.None? {
      return Stopped(Run(NeverSettles, ws.history));
    }
    if HandshakeFields(reply.value).TypeError? {
      return Stopped(Run(Thrown, ws.history));
    }
    return Connected(2, ws.history);
  }

  /** `getFamilyKey(authToken)`: connect to the fixed host; if the first
      reply has no truthy session, move to the host it names (once; the
      second reply is read but not checked); then authenticate, read the
      user id from the auth reply, query the user's family keys, and close.
      The run is the one `GetFamilyKeySpec` describes. */
  method GetFamilyKey(authToken: string, replies: seq<Json>) returns (r: Login, trace: seq<Action>)
    ensures Run(r, trace) == GetFamilyKeySpec(authToken, replies)
  {
    var ws := new WebSocketManager();
    var h := OpenSession(ws, replies);
    if h.Stopped? {
      return h.run.outcome, h.run.trace;
    }
    r := Authenticate(ws, authToken, replies, h.next);
    trace := ws.history;
  }

  // ---------------------------------------------------------------------
  // refreshSession

  /** `getTokenExpiration() <= Date.now()`: the stored expiry, written in
      seconds, is compared with a clock in milliseconds; a `NaN` expiry
      compares false. */
  predicate RefreshDue(expiration: Option<int>, nowMs: int) {
    expiration.Some? && expiration.value <= nowMs
  }

  /** `Math.floor(Date.now() / 1000) + parseInt(expires_in)`: seconds since
      the epoch, `NaN` when the lifetime does not parse. */
  function ExpirationTime(nowMs: int, expiresIn: string): Option<int> {
    match ParseInt(expiresIn)
    case Some(seconds) => Some(nowMs / 1000 + seconds)
    case None => None
  }

  /** The store after a successful refresh: new id token, new refresh
      token, new expiry, every other entry as it was. */
  function RefreshedItems(items: map<string, Item>, nowMs: int, response: RefreshTokenResponse)
    : map<string, Item>
  {
    items[IdTokenKey := Plain(response.idToken)]
         [RefreshTokenKey := Plain(response.refreshToken)]
         [TokenExpirationKey := Plain(NumberText(ExpirationTime(nowMs, response.expiresIn)))]
  }

  /** `refreshSession()`: when the stored expiry is due, sends the stored
      refresh token (`sent`) and, on success, stores the new credentials
      and resolves true; a failed refresh rejects and writes nothing. When
      the expiry is not due nothing is sent or written and it resolves
      false. */
  method RefreshSession(store: LocalStorageManager, nowMs: int, response: Http<RefreshTokenResponse>)
    returns (sent: Option<string>, r: Outcome<bool>)
    requires store.Valid()
    modifies store
    ensures store.Valid()
    ensures !RefreshDue(old(store.GetTokenExpiration()), nowMs) ==>
              sent == None && r == Resolved(false) && store.items == old(store.items)
    ensures RefreshDue(old(store.GetTokenExpiration()), nowMs) ==>
              sent == Some(old(store.GetRefreshToken()))
    ensures RefreshDue(old(store.GetTokenExpiration()), nowMs) && response.NotOk? ==>
              r == Rejected("Error during token refresh: " + response.text)
              && store.items == old(store.items)
    ensures RefreshDue(old(store.GetTokenExpiration()), nowMs) && response.Ok? ==>
              r == Resolved(true)
              && store.items == RefreshedItems(old(store.items), nowMs, response.body)
  {
    if !RefreshDue(store.GetTokenExpiration(), nowMs) {
      return None, Resolved(false);
    }
    sent := Some(store.GetRefreshToken());
    var result := RefreshIdToken(response);
    match result {
      case Rejected(reason) =>
        r := Rejected(reason);
      case Resolved(tokens) =>
        var expirationTime := ExpirationTime(nowMs, tokens.expiresIn);
        store.SetIdToken(tokens.idToken);
        store.SetRefreshToken(tokens.refreshToken);
        store.SetTokenExpiration(expirationTime);
        r := Resolved(true);
    }
  }

  /** The unit mismatch: an expiry written as seconds is due at once by a
      millisecond clock. Whenever the token's lifetime in seconds is at most
      the clock reading in seconds (for a one-hour token, any clock after
      one hour past the epoch), the expiry a refresh stores is already due
      at that moment and at every later check. */
  lemma RefreshedExpiryIsDue(nowMs: int, laterMs: int, expiresIn: string)
    requires 0 <= nowMs <= laterMs
    requires ParseInt(expiresIn).Some?
    requires 0 <= ParseInt(expiresIn).value && ParseInt(expiresIn).value * 1000 <= nowMs
    ensures RefreshDue(ExpirationTime(nowMs, expiresIn), laterMs)
  {
    var seconds := ParseInt(expiresIn).value;
    assert seconds <= nowMs / 1000;
  }

  /** Starting from a store with no expiry, two checks in a row both hit
      the token endpoint, as long as the new token's lifetime in seconds is
      at most the clock reading in seconds: the second check compares the
      expiry in seconds with the clock in milliseconds. */
  method RefreshTwice(contents: map<string, Item>, nowMs: int, laterMs: int,
                      response: RefreshTokenResponse, again: Http<RefreshTokenResponse>)
    returns (first: Option<string>, second: Option<string>)
    requires WellFormed(contents) && TokenExpirationKey !in contents
    requires 0 <= nowMs <= laterMs
    requires ParseInt(response.expiresIn).Some?
    requires 0 <= ParseInt(response.expiresIn).value
    requires ParseInt(response.expiresIn).value * 1000 <= nowMs
    ensures first.Some? && second == Some(response.refreshToken)
  {
    var store := new LocalStorageManager(contents);
    var r;
    first, r := RefreshSession(store, nowMs, Ok(response));
    RefreshedExpiryIsDue(nowMs, laterMs, response.expiresIn);
    ParseIntOfIntToString(ExpirationTime(nowMs, response.expiresIn).value);
    second, r := RefreshSession(store, laterMs, again);
  }
}
