/** The browser key-value store the dashboard persists its session and its
    cached events in, with the getters (each with a default for an absent
    key), the setters and `clear`. Every stored value is a string; the
    `trackz` entry holds the JSON text of an event map, modelled by the map
    it encodes, or, when something else wrote it, text that `JSON.parse`
    rejects. */
module LocalStorage {
  import opened Text
  import opened ApiTypes

  const TrackzKey := "trackz"
  const IdTokenKey := "idToken"
  const RefreshTokenKey := "refreshToken"
  const NextSyncTokenKey := "nextSyncToken"
  const TokenExpirationKey := "tokenExpiration"
  const FamilyKeyKey := "familyKey"
  const WebSocketSessionKey := "webSocketSession"

  /** A stored string: plain text, the JSON text of an event map, or text
      under `trackz` that is not JSON at all. */
  datatype Item = Plain(text: string) | EncodedTrackz(trackz: Trackz) | Unparsable(raw: string)

  /** What `JSON.parse` of the stored events gives: the map, or a thrown
      `SyntaxError`. */
  datatype Parsed<T> = Parsed(value: T) | SyntaxError

  /** Plain text under every key but `trackz`; under `trackz` the JSON text
      of an event map, or text that `JSON.parse` rejects. */
  ghost predicate WellFormed(items: map<string, Item>) {
    forall k :: k in items ==> (items[k].Plain? <==> k != TrackzKey)
  }

  /** `String(n)` for a JavaScript number that may be `NaN` (`None`). */
  function NumberText(n: Option<int>): (s: string)
    ensures n.Some? ==> s == IntToString(n.value)
  {
    match n
    case Some(v) => IntToString(v)
    case None => "NaN"
  }

  class LocalStorageManager {
    var items: map<string, Item>

    ghost predicate Valid()
      reads this
    {
      WellFormed(items)
    }

    /** The store as the browser hands it over: whatever an earlier session
        left in it. */
    constructor (contents: map<string, Item>)
      requires WellFormed(contents)
      ensures Valid() && items == contents
    {
      items := contents;
    }

    /** `getItem(key) || ''`. */
    function TextOr(key: string): (s: string)
      requires Valid() && key != TrackzKey
      reads this
      ensures key !in items ==> s == ""
      ensures key in items ==> s == items[key].text
    {
      if key in items then items[key].text else ""
    }

    /** `getTrackz()`: the stored map, or `{}` when there is none or the
        entry is the empty string (which is falsy); any other text that is
        not JSON makes `JSON.parse` throw. The JSON text of a map is never
        empty, so a stored map is always read back. */
    function GetTrackz(): (t: Parsed<Trackz>)
      requires Valid()
      reads this
      ensures t.SyntaxError? <==> TrackzKey in items && items[TrackzKey].Unparsable?
                                  && items[TrackzKey].raw != ""
      ensures TrackzKey !in items ==> t == Parsed(map[])
      ensures TrackzKey in items && items[TrackzKey].EncodedTrackz? ==>
                t == Parsed(items[TrackzKey].trackz)
    {
      if TrackzKey !in items then Parsed(map[])
      else match items[TrackzKey]
        case EncodedTrackz(trackz) => Parsed(trackz)
        case Unparsable(raw) => if raw == "" then Parsed(map[]) else SyntaxError
    }

    function GetIdToken(): string
      requires Valid()
      reads this
    {
      TextOr(IdTokenKey)
    }

    function GetRefreshToken(): string
      requires Valid()
      reads this
    {
      TextOr(RefreshTokenKey)
    }

    function GetNextSyncToken(): string
      requires Valid()
      reads this
    {
      TextOr(NextSyncTokenKey)
    }

    function GetFamilyKey(): string
      requires Valid()
      reads this
    {
      TextOr(FamilyKeyKey)
    }

    function GetLastWsSession(): string
      requires Valid()
      reads this
    {
      TextOr(WebSocketSessionKey)
    }

    /** `getTokenExpiration()`: 0 for an absent or empty entry, otherwise
        `parseInt` of the stored text, which is `NaN` (`None`) when the text
        does not start with a number. */
    function GetTokenExpiration(): (e: Option<int>)
      requires Valid()
      reads this
      ensures TokenExpirationKey !in items ==> e == Some(0)
      ensures TokenExpirationKey in items && items[TokenExpirationKey].text == "" ==> e == Some(0)
      ensures TokenExpirationKey in items && items[TokenExpirationKey].text != "" ==>
                e == ParseInt(items[TokenExpirationKey].text)
    {
      var s := TextOr(TokenExpirationKey);
      if s == "" then Some(0) else ParseInt(s)
    }

    method SetTrackz(trackz: Trackz)
      requires Valid()
      modifies this
      ensures Valid() && items == old(items)[TrackzKey := EncodedTrackz(trackz)]
    {
      items := items[TrackzKey := EncodedTrackz(trackz)];
    }

    method SetIdToken(idToken: string)
      requires Valid()
      modifies this
      ensures Valid() && items == old(items)[IdTokenKey := Plain(idToken)]
    {
      items := items[IdTokenKey := Plain(idToken)];
    }

    method SetRefreshToken(refreshToken: string)
      requires Valid()
      modifies this
      ensures Valid() && items == old(items)[RefreshTokenKey := Plain(refreshToken)]
    {
      items := items[RefreshTokenKey := Plain(refreshToken)];
    }

    method SetNextSyncToken(nextSyncToken: string)
      requires Valid()
      modifies this
      ensures Valid() && items == old(items)[NextSyncTokenKey := Plain(nextSyncToken)]
    {
      items := items[NextSyncTokenKey := Plain(nextSyncToken)];
    }

    /** `setTokenExpiration(n)` stores `n.toString()`, "NaN" for `NaN`. */
    method SetTokenExpiration(tokenExpiration: Option<int>)
      requires Valid()
      modifies this
      ensures Valid()
      ensures items == old(items)[TokenExpirationKey := Plain(NumberText(tokenExpiration))]
    {
      items := items[TokenExpirationKey := Plain(NumberText(tokenExpiration))];
    }

    method SetFamilyKey(key: string)
      requires Valid()
      modifies this
      ensures Valid() && items == old(items)[FamilyKeyKey := Plain(key)]
    {
      items := items[FamilyKeyKey := Plain(key)];
    }

    method SetLastWsSession(session: string)
      requires Valid()
      modifies this
      ensures Valid() && items == old(items)[WebSocketSessionKey := Plain(session)]
    {
      items := items[WebSocketSessionKey := Plain(session)];
    }

    /** `clearLocalStorage()`: removes every key. */
    method ClearLocalStorage()
      modifies this
      ensures Valid() && items == map[]
    {
      items := map[];
    }
  }

  /** `parseInt` reads the text a `NaN` expiration is stored as back as
      `NaN`. */
  lemma ParseIntOfNaNText()
    ensures ParseInt(NumberText(None)) == None
  {
    var s := NumberText(None);
    assert s[0] == 'N' && !IsJsSpace(s[0]);
    assert TrimStart(s) == s;
  }

  /** Whatever the store held before, a string getter returns the value
      last given to its setter, even when the other setters ran after it. */
  method SetThenGetText(contents: map<string, Item>, idToken: string, refreshToken: string,
                        nextSyncToken: string, familyKey: string, session: string)
    returns (r: (string, string, string, string, string))
    requires WellFormed(contents)
    ensures r == (idToken, refreshToken, nextSyncToken, familyKey, session)
  {
    var store := new LocalStorageManager(contents);
    store.SetIdToken(idToken);
    store.SetRefreshToken(refreshToken);
    store.SetNextSyncToken(nextSyncToken);
    store.SetFamilyKey(familyKey);
    store.SetLastWsSession(session);
    r := (store.GetIdToken(), store.GetRefreshToken(), store.GetNextSyncToken(),
          store.GetFamilyKey(), store.GetLastWsSession());
  }

  /** `getTrackz` after `setTrackz` returns the same map, whatever the
      entry held before. */
  method SetThenGetTrackz(contents: map<string, Item>, trackz: Trackz) returns (r: Parsed<Trackz>)
    requires WellFormed(contents)
    ensures r == Parsed(trackz)
  {
    var store := new LocalStorageManager(contents);
    store.SetTrackz(trackz);
    r := store.GetTrackz();
  }

  /** The expiration comes back as the number it was set to, and `NaN` as
      `NaN`. */
  method SetThenGetExpiration(contents: map<string, Item>, expiration: Option<int>)
    returns (r: Option<int>)
    requires WellFormed(contents)
    ensures r == expiration
  {
    var store := new LocalStorageManager(contents);
    store.SetTokenExpiration(expiration);
    match expiration {
      case Some(n) => ParseIntOfIntToString(n);
      case None => ParseIntOfNaNText();
    }
    r := store.GetTokenExpiration();
  }

  /** After `clearLocalStorage` every getter returns its default: `{}`, the
      empty string, and an expiration of 0. */
  method ClearThenGet(contents: map<string, Item>)
    returns (r: (Parsed<Trackz>, string, string, string, Option<int>, string, string))
    requires WellFormed(contents)
    ensures r == (Parsed(map[]), "", "", "", Some(0), "", "")
  {
    var store := new LocalStorageManager(contents);
    store.ClearLocalStorage();
    r := (store.GetTrackz(), store.GetIdToken(), store.GetRefreshToken(),
          store.GetNextSyncToken(), store.GetTokenExpiration(), store.GetFamilyKey(),
          store.GetLastWsSession());
  }

  /** A setter changes what its own getter returns and no other getter's
      result: setting the id token leaves every other entry as it was. */
  method SetIdTokenIsolated(contents: map<string, Item>, idToken: string)
    returns (before: (Parsed<Trackz>, string, string, Option<int>, string, string),
             after: (Parsed<Trackz>, string, string, Option<int>, string, string))
    requires WellFormed(contents)
    ensures before == after
  {
    var store := new LocalStorageManager(contents);
    before := (store.GetTrackz(), store.GetRefreshToken(), store.GetNextSyncToken(),
               store.GetTokenExpiration(), store.GetFamilyKey(), store.GetLastWsSession());
    store.SetIdToken(idToken);
    after := (store.GetTrackz(), store.GetRefreshToken(), store.GetNextSyncToken(),
              store.GetTokenExpiration(), store.GetFamilyKey(), store.GetLastWsSession());
  }
}
