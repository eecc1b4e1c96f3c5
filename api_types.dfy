/** The tracked events as the sync endpoint delivers them: a tagged union
    of five kinds (`type`), where a FEED is further tagged BREAST or BOTTLE
    (`feedType`). Events are keyed by id in a `Trackz` map. */
module ApiTypes {
  import opened Text

  /** `EventType`: the five kind tags. */
  datatype EventType = FEED | SLEEP | ROUTINE | DIAPER | PUMP

  /** The string a kind tag is written as. */
  function TypeName(t: EventType): (name: string)
    ensures name in {"FEED", "SLEEP", "ROUTINE", "DIAPER", "PUMP"}
  {
    match t
    case FEED => "FEED"
    case SLEEP => "SLEEP"
    case ROUTINE => "ROUTINE"
    case DIAPER => "DIAPER"
    case PUMP => "PUMP"
  }

  datatype Side = LEFT | RIGHT

  /** The fields every event carries. Times are epoch milliseconds. */
  datatype Header = Header(
    beginDt: int,
    childKey: string,
    createUserKey: string,
    etag: string,
    ord: int,
    serverUpdateDt: int,
    tz: string,
    updateDt: int,
    userKey: string)

  /** The optional volume fields of a bottle feed. */
  datatype BottleFields = BottleFields(
    bottleBreastMilkVolumeExp: Option<int>,
    bottleBreastMilkVolumeNum: Option<int>,
    bottleBreastMilkVolumeUnit: Option<string>,
    bottleTypeBreastMilk: Option<bool>,
    bottleTypeFormula: Option<bool>,
    bottleVolume: Option<int>,
    bottleVolumeBase: Option<int>,
    bottleVolumeExp: Option<int>,
    bottleVolumeNum: Option<int>,
    bottleVolumeUnit: Option<string>)

  /** `ApiEvent`, one variant per event shape. A sleep's end is optional, a
      pump's is not; nursing durations (milliseconds) and every bottle volume
      field are optional; the diaper flags are optional booleans.
      `Unrecognized` stands for an object the server sends whose tags match
      no shape (an unknown `type`, or a FEED whose `feedType` is neither
      BREAST nor BOTTLE): such objects exist on the wire only, the sync
      client drops them. */
  datatype ApiEvent =
    | Breast(header: Header, breastBeginSide: Side,
             breastLeftDuration: Option<int>, breastRightDuration: Option<int>)
    | Bottle(header: Header, bottle: BottleFields)
    | Pump(header: Header, endDt: int,
           breastLeftDuration: Option<int>, breastRightDuration: Option<int>)
    | Routine(header: Header, note: string, routineName: string)
    | Diaper(header: Header, diaperTypeDry: Option<bool>, diaperTypePee: Option<bool>,
             diaperTypePoop: Option<bool>, diaperTypeRash: Option<bool>)
    | Sleep(header: Header, sleepEndDt: Option<int>)
    | Unrecognized(header: Header, typeTag: string, feedTypeTag: Option<string>)

  /** The event's `type` field. */
  function TypeTag(e: ApiEvent): string {
    match e
    case Breast(_, _, _, _) => "FEED"
    case Bottle(_, _) => "FEED"
    case Pump(_, _, _, _) => "PUMP"
    case Routine(_, _, _) => "ROUTINE"
    case Diaper(_, _, _, _, _) => "DIAPER"
    case Sleep(_, _) => "SLEEP"
    case Unrecognized(_, t, _) => t
  }

  /** The event's `feedType` field; `None` where the object has none. */
  function FeedTypeTag(e: ApiEvent): Option<string> {
    match e
    case Breast(_, _, _, _) => Some("BREAST")
    case Bottle(_, _) => Some("BOTTLE")
    case Unrecognized(_, _, f) => f
    case _ => None
  }

  predicate IsFeedSubtype(f: Option<string>) {
    f == Some("BREAST") || f == Some("BOTTLE")
  }

  /** The tags of a wire object select its shape: an `Unrecognized` object
      is exactly one whose tags name none of the six shapes. */
  predicate WellTagged(e: ApiEvent) {
    e.Unrecognized? ==>
      e.typeTag !in {"SLEEP", "ROUTINE", "DIAPER", "PUMP"}
      && !(e.typeTag == "FEED" && IsFeedSubtype(e.feedTypeTag))
  }

  /** `EventTypeToEventMap`: the kind a recognised event belongs to. */
  function KindOf(e: ApiEvent): (k: Option<EventType>)
    ensures k.Some? <==> !e.Unrecognized?
    ensures k == Some(FEED) <==> e.Breast? || e.Bottle?
    ensures k == Some(SLEEP) <==> e.Sleep?
    ensures k == Some(ROUTINE) <==> e.Routine?
    ensures k == Some(DIAPER) <==> e.Diaper?
    ensures k == Some(PUMP) <==> e.Pump?
  {
    match e
    case Breast(_, _, _, _) => Some(FEED)
    case Bottle(_, _) => Some(FEED)
    case Pump(_, _, _, _) => Some(PUMP)
    case Routine(_, _, _) => Some(ROUTINE)
    case Diaper(_, _, _, _, _) => Some(DIAPER)
    case Sleep(_, _) => Some(SLEEP)
    case Unrecognized(_, _, _) => None
  }

  /** `event.type === eventType`, the test every kind filter applies. */
  predicate HasType(e: ApiEvent, t: EventType) {
    TypeTag(e) == TypeName(t)
  }

  /** On a recognised event the string test `event.type === t` agrees with
      the shape: it holds exactly for the variants `EventTypeToEventMap`
      maps `t` to, so every recognised event has exactly one kind. */
  lemma HasTypeIsKind(e: ApiEvent, t: EventType)
    requires !e.Unrecognized?
    ensures HasType(e, t) <==> KindOf(e) == Some(t)
  {
    var tag := TypeTag(e);
    var name := TypeName(t);
    if tag != name {
      match t
      case FEED => assert name[0] == 'F';
      case SLEEP => assert name[..2] == "SL";
      case ROUTINE => assert name[0] == 'R';
      case DIAPER => assert name[0] == 'D';
      case PUMP => assert name[..2] == "PU";
    }
  }

  /** `Trackz`: events keyed by id. */
  type Trackz = map<string, ApiEvent>

  /** `Result`: one sync response, the cursor for the next request and the
      events changed since the previous one. */
  datatype Result = Result(nextSyncKey: string, trackz: Trackz)

  /** Every event in a map of recognised events. */
  ghost predicate AllRecognised(t: Trackz) {
    forall id :: id in t ==> !t[id].Unrecognized?
  }

  // ---------------------------------------------------------------------
  // Field reads the views share: optional fields with their defaults, and
  // the feed and diaper tags compared by value

  /** `x.feedType === 'BOTTLE'`. */
  predicate IsBottleFeed(e: ApiEvent) {
    FeedTypeTag(e) == Some("BOTTLE")
  }

  /** `x.feedType === 'BREAST'`. */
  predicate IsBreastFeed(e: ApiEvent) {
    FeedTypeTag(e) == Some("BREAST")
  }

  /** `bottleVolume ?? 0`. */
  function BottleVolume(e: ApiEvent): int {
    if e.Bottle? && e.bottle.bottleVolume.Some? then e.bottle.bottleVolume.value else 0
  }

  /** `breastLeftDuration ?? 0`, in milliseconds. */
  function LeftDuration(e: ApiEvent): int {
    if e.Breast? && e.breastLeftDuration.Some? then e.breastLeftDuration.value else 0
  }

  /** `breastRightDuration ?? 0`, in milliseconds. */
  function RightDuration(e: ApiEvent): int {
    if e.Breast? && e.breastRightDuration.Some? then e.breastRightDuration.value else 0
  }

  /** `diaperTypePee` is truthy. */
  predicate IsWet(e: ApiEvent) {
    e.Diaper? && e.diaperTypePee == Some(true)
  }

  /** `diaperTypePoop` is truthy. */
  predicate IsDirty(e: ApiEvent) {
    e.Diaper? && e.diaperTypePoop == Some(true)
  }

  /** The `endDt` field: a sleep's optional end, a pump's end; the other
      shapes have none. */
  function EndDt(e: ApiEvent): (end: Option<int>)
    ensures e.Sleep? ==> end == e.sleepEndDt
    ensures e.Pump? ==> end == Some(e.endDt)
    ensures end.Some? ==> e.Sleep? || e.Pump?
  {
    match e
    case Sleep(_, end) => end
    case Pump(_, end, _, _) => Some(end)
    case _ => None
  }
}
