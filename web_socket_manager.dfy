/** The socket manager the login handshake drives: one socket at a time, a
    FIFO queue of parsed incoming messages, and at most one registered
    waiter. The browser socket itself is not modelled; what the manager does
    to it (open, send, close), and each flush of its queue, is recorded in
    order in `history`. */
module WebSocket {
  import opened Text
  import opened JsValues

  /** The steps a manager takes that are visible from outside it. */
  datatype Action =
    | Opened(url: string)    // a socket is created for `url`
    | Sent(frame: Json)      // a frame is sent on the current socket
    | Closed                 // the current socket is closed
    | Flushed                // the queue and the waiter are reset

  /** The URLs of the sockets opened in a trace, in order. */
  function OpenedUrls(trace: seq<Action>): seq<string> {
    if trace == [] then []
    else
      var last := trace[|trace| - 1];
      OpenedUrls(trace[..|trace| - 1]) + (if last.Opened? then [last.url] else [])
  }

  /** The frames sent in a trace, in order. */
  function SentFrames(trace: seq<Action>): seq<Json> {
    if trace == [] then []
    else
      var last := trace[|trace| - 1];
      SentFrames(trace[..|trace| - 1]) + (if last.Sent? then [last.frame] else [])
  }

  /** Extending a trace by one action extends its lists of opened URLs and
      sent frames by that action's URL or frame, if it has one. */
  lemma {:induction false} TraceSnoc(trace: seq<Action>, a: Action)
    ensures OpenedUrls(trace + [a]) == OpenedUrls(trace) + (if a.Opened? then [a.url] else [])
    ensures SentFrames(trace + [a]) == SentFrames(trace) + (if a.Sent? then [a.frame] else [])
  {
    assert (trace + [a])[..|trace|] == trace;
  }

  /** The URL `connect` opens, up to the optional session parameter. */
  function BaseUrl(baseUrl: string): string {
    "wss://" + baseUrl + "/.ws?ns=amazing-ripple-221320&v=5"
  }

  /** `connect`'s URL. The session parameter is appended whenever
      `lastSession !== ''`: an omitted argument (`None`, JavaScript's
      `undefined`) appends `&ls=undefined`. */
  function ConnectUrl(baseUrl: string, lastSession: Option<string>): (url: string)
    ensures |url| >= |BaseUrl(baseUrl)| && url[..|BaseUrl(baseUrl)|] == BaseUrl(baseUrl)
    ensures url == BaseUrl(baseUrl) <==> lastSession == Some("")
    ensures lastSession == None ==> url == BaseUrl(baseUrl) + "&ls=undefined"
    ensures lastSession.Some? && lastSession.value != "" ==>
              url == BaseUrl(baseUrl) + "&ls=" + lastSession.value
  {
    var base := BaseUrl(baseUrl);
    if lastSession == Some("") then base
    else base + "&ls=" + (match lastSession case Some(s) => s case None => "undefined")
  }

  /** The frame `auth(token)` sends: `{t:'d', d:{a:'auth', r:2, b:{cred}}}`. */
  function AuthRequest(token: string): Json {
    JObject([("t", JString("d")),
             ("d", JObject([("a", JString("auth")),
                            ("r", JNumber(2)),
                            ("b", JObject([("cred", JString(token))]))]))])
  }

  /** The database path whose keys are the user's family keys. */
  function FamilyKeyzPath(userId: Option<Json>): string {
    "userz/" + TemplateText(userId) + "/familyKeyz"
  }

  /** A query frame: `{t:'d', d:{a:'q', r:4, b:{p: path, h:''}}}`. */
  function QueryRequest(path: string): Json {
    JObject([("t", JString("d")),
             ("d", JObject([("a", JString("q")),
                            ("r", JNumber(4)),
                            ("b", JObject([("p", JString(path)),
                                           ("h", JString(""))]))]))])
  }

  /** The frame `getFamilyKeyz(userId)` sends. */
  function FamilyKeyzRequest(userId: Option<Json>): Json {
    QueryRequest(FamilyKeyzPath(userId))
  }

  /** What the server reads out of an auth frame: the action, the request
      number and the credential it was built from. */
  lemma AuthRequestReadsBack(token: string)
    ensures Path(Some(AuthRequest(token)), ["t"]) == Value(Some(JString("d")))
    ensures Path(Some(AuthRequest(token)), ["d", "a"]) == Value(Some(JString("auth")))
    ensures Path(Some(AuthRequest(token)), ["d", "r"]) == Value(Some(JNumber(2)))
    ensures Path(Some(AuthRequest(token)), ["d", "b", "cred"]) == Value(Some(JString(token)))
  {
    var frame := AuthRequest(token);
    var d := frame.fields[1].1;
    var b := d.fields[2].1;
    assert Member(frame.fields, "d") == Some(d) by {
      MemberOfDistinct(frame.fields, 1);
    }
    assert Member(d.fields, "b") == Some(b) by {
      MemberOfDistinct(d.fields, 2);
    }
    assert Path(Some(frame), ["t"]) == Value(Some(JString("d"))) by {
      MemberOfDistinct(frame.fields, 0);
      PathStep(frame, "t", []);
      assert ["t"] + [] == ["t"];
    }
    assert Path(Some(frame), ["d", "a"]) == Value(Some(JString("auth"))) by {
      MemberOfDistinct(d.fields, 0);
      PathOfTwo(frame, "d", "a", Some(JString("auth")));
    }
    assert Path(Some(frame), ["d", "r"]) == Value(Some(JNumber(2))) by {
      MemberOfDistinct(d.fields, 1);
      PathOfTwo(frame, "d", "r", Some(JNumber(2)));
    }
    MemberOfDistinct(b.fields, 0);
    PathOfThree(frame, "d", "b", "cred", Some(JString(token)));
  }

  /** What the server reads out of a query frame: the action, the request
      number, the queried path and the empty hash. */
  lemma QueryRequestReadsBack(path: string)
    ensures Path(Some(QueryRequest(path)), ["d", "a"]) == Value(Some(JString("q")))
    ensures Path(Some(QueryRequest(path)), ["d", "r"]) == Value(Some(JNumber(4)))
    ensures Path(Some(QueryRequest(path)), ["d", "b", "p"]) == Value(Some(JString(path)))
    ensures Path(Some(QueryRequest(path)), ["d", "b", "h"]) == Value(Some(JString("")))
  {
    var frame := QueryRequest(path);
    var d := frame.fields[1].1;
    var b := d.fields[2].1;
    assert Member(frame.fields, "d") == Some(d) by {
      MemberOfDistinct(frame.fields, 1);
    }
    assert Member(d.fields, "b") == Some(b) by {
      MemberOfDistinct(d.fields, 2);
    }
    assert Path(Some(frame), ["d", "a"]) == Value(Some(JString("q"))) by {
      MemberOfDistinct(d.fields, 0);
      PathOfTwo(frame, "d", "a", Some(JString("q")));
    }
    assert Path(Some(frame), ["d", "r"]) == Value(Some(JNumber(4))) by {
      MemberOfDistinct(d.fields, 1);
      PathOfTwo(frame, "d", "r", Some(JNumber(4)));
    }
    assert Path(Some(frame), ["d", "b", "p"]) == Value(Some(JString(path))) by {
      MemberOfDistinct(b.fields, 0);
      PathOfThree(frame, "d", "b", "p", Some(JString(path)));
    }
    MemberOfDistinct(b.fields, 1);
    PathOfThree(frame, "d", "b", "h", Some(JString("")));
  }

  /** The queried path for a string user id. */
  lemma FamilyKeyzPathOfString(userId: string)
    ensures FamilyKeyzPath(Some(JString(userId))) == "userz/" + userId + "/familyKeyz"
  {
  }

  class WebSocketManager {
    /** `socket !== null`. The reference is kept after `close`. */
    var socket: bool
    /** The URL the current socket was opened for. */
    var url: string
    /** `messageListener !== null`: arriving messages are queued. */
    var listening: bool
    /** `messagesQueue`, oldest first. */
    var queue: seq<Json>
    /** `resolveQueuePromise !== null`: a waiter is registered. */
    var waiter: bool
    /** Sockets opened, frames sent, sockets closed and flushes, in order. */
    var history: seq<Action>

    constructor ()
      ensures !socket && !listening && queue == [] && !waiter && history == []
    {
      socket, url, listening := false, "", false;
      queue, waiter, history := [], false, [];
    }

    /** `connect(baseUrl, lastSession)`: opens a socket for `ConnectUrl` and
        installs the listener. The queue and the waiter are left as they
        were. */
    method Connect(baseUrl: string, lastSession: Option<string>)
      modifies this
      ensures socket && listening && url == ConnectUrl(baseUrl, lastSession)
      ensures history == old(history) + [Opened(url)]
      ensures queue == old(queue) && waiter == old(waiter)
    {
      url := ConnectUrl(baseUrl, lastSession);
      socket := true;
      listening := true;
      history := history + [Opened(url)];
    }

    /** The message listener: a parsed message goes to the back of the
        queue and the registered waiter, if any, is resolved (`woke`). The
        waiter stays registered. */
    method Receive(message: Json) returns (woke: bool)
      requires listening
      modifies this`queue
      ensures queue == old(queue) + [message]
      ensures woke == waiter
    {
      queue := queue + [message];
      woke := waiter;
    }

    /** `waitForMessages()`: registers a waiter and suspends the caller
        (`suspends`) when none is registered; otherwise returns at once. */
    method WaitForMessages() returns (suspends: bool)
      modifies this`waiter
      ensures suspends == !old(waiter)
      ensures waiter
    {
      suspends := !waiter;
      waiter := true;
    }

    /** `getNextMessage()`: removes and returns the oldest message;
        `undefined` on an empty queue, which stays empty. */
    method GetNextMessage() returns (message: Option<Json>)
      modifies this`queue
      ensures old(queue) == [] ==> message == None && queue == []
      ensures old(queue) != [] ==> message == Some(old(queue)[0]) && queue == old(queue)[1..]
    {
      if queue == [] {
        message := None;
      } else {
        message := Some(queue[0]);
        queue := queue[1..];
      }
    }

    /** `flushMessages()`: empties the queue and forgets the waiter; the
        socket is untouched. */
    method FlushMessages()
      modifies this`queue, this`waiter, this`history
      ensures queue == [] && !waiter
      ensures history == old(history) + [Flushed]
    {
      queue := [];
      waiter := false;
      history := history + [Flushed];
    }

    /** `close()`: closes the socket if there is one. The queue, the waiter
        and the socket reference stay as they are. */
    method Close()
      modifies this`history
      ensures history == if socket then old(history) + [Closed] else old(history)
    {
      if socket {
        history := history + [Closed];
      }
    }

    /** `auth(token)`: sends the auth frame when there is a socket. */
    method Auth(token: string)
      modifies this`history
      ensures history == if socket then old(history) + [Sent(AuthRequest(token))] else old(history)
    {
      if socket {
        history := history + [Sent(AuthRequest(token))];
      }
    }

    /** `getFamilyKeyz(userId)`: sends the family-key query when there is a
        socket. */
    method GetFamilyKeyz(userId: Option<Json>)
      modifies this`history
      ensures history == if socket then old(history) + [Sent(FamilyKeyzRequest(userId))] else old(history)
    {
      if socket {
        history := history + [Sent(FamilyKeyzRequest(userId))];
      }
    }
  }

  /** Messages come out of the queue in the order they arrived: a manager
      that receives `messages` and is then drained with `getNextMessage`
      until it yields `undefined` hands back exactly `messages`. */
  method DrainInArrivalOrder(messages: seq<Json>) returns (drained: seq<Json>)
    ensures drained == messages
  {
    var ws := new WebSocketManager();
    ws.Connect("host", Some(""));
    var i := 0;
    while i < |messages|
      invariant 0 <= i <= |messages|
      invariant ws.listening && ws.queue == messages[..i]
    {
      var _ := ws.Receive(messages[i]);
      i := i + 1;
    }
    drained := [];
    var next := ws.GetNextMessage();
    while next.Some?
      invariant drained + (if next.Some? then [next.value] else []) + ws.queue == messages
      invariant next.None? ==> ws.queue == []
      decreases |ws.queue| + (if next.Some? then 1 else 0)
    {
      drained := drained + [next.value];
      next := ws.GetNextMessage();
    }
  }

  /** The waiter's life cycle: the first wait suspends, an arrival resolves
      it without clearing it, so a second wait returns at once; after a
      flush the next wait suspends again. */
  method WaiterLifeCycle(message: Json) returns (first: bool, woke: bool, second: bool, afterFlush: bool)
    ensures first && woke && !second && afterFlush
  {
    var ws := new WebSocketManager();
    ws.Connect("host", None);
    first := ws.WaitForMessages();
    woke := ws.Receive(message);
    second := ws.WaitForMessages();
    ws.FlushMessages();
    afterFlush := ws.WaitForMessages();
  }
}
