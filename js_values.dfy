/** Parsed JSON values as the socket code handles them after `JSON.parse`,
    and the JavaScript operations it applies to them: property access and
    destructuring (which throw a TypeError on `undefined` or `null`),
    truthiness, template-literal interpolation and `Object.keys(x)[0]`.
    A JavaScript value that may be `undefined` is an `Option<Json>`, with
    `None` for `undefined`. JSON numbers are integers here. */
module JsValues {
  import opened Text

  datatype Json =
    | JNull
    | JBool(b: bool)
    | JNumber(n: int)
    | JString(s: string)
    | JArray(items: seq<Json>)
    | JObject(fields: seq<(string, Json)>)

  /** The outcome of an expression that may throw a TypeError. */
  datatype Access<+T> = Value(v: T) | TypeError

  /** The value of member `name` of an object as `JSON.parse` builds it:
      with duplicate names the last one wins. */
  function Member(fields: seq<(string, Json)>, name: string): (r: Option<Json>)
    ensures r.Some? <==> exists i :: 0 <= i < |fields| && fields[i].0 == name

  {
    if fields == [] then None
    else if fields[|fields| - 1].0 == name then Some(fields[|fields| - 1].1)
    else
      var r := Member(fields[..|fields| - 1], name);
      assert forall i :: 0 <= i < |fields| - 1 ==> fields[..|fields| - 1][i] == fields[i];
      r
  }

  /** The array index a property name denotes, if it is one. */
  function IndexOf(name: string): Option<nat> {
    match ParseInt(name)
    case Some(i) => if i >= 0 && NatToString(i) == name then Some(i) else None
    case None => None
  }

  predicate IsNullish(v: Option<Json>) {
    v == None || v == Some(JNull)
  }

  /** `v[name]`: a TypeError on `undefined` and `null`; the member of an
      object; the element or `length` of an array or a string; `undefined`
      otherwise. */
  function Prop(v: Option<Json>, name: string): (r: Access<Option<Json>>)
    ensures r == TypeError <==> IsNullish(v)
  {
    match v
    case None => TypeError
    case Some(JNull) => TypeError
    case Some(JObject(fields)) => Value(Member(fields, name))
    case Some(JArray(items)) =>
      if name == "length" then Value(Some(JNumber(|items|)))
      else (match IndexOf(name)
        case Some(i) => if i < |items| then Value(Some(items[i])) else Value(None)
        case None => Value(None))
    case Some(JString(s)) =>
      if name == "length" then Value(Some(JNumber(|s|)))
      else (match IndexOf(name)
        case Some(i) => if i < |s| then Value(Some(JString([s[i]]))) else Value(None)
        case None => Value(None))
    case Some(_) => Value(None)
  }

  /** `v.n0.n1...nk`, or the destructuring pattern `{n0: {n1: ... {nk}}}`:
      a TypeError as soon as one of the values read from is nullish. */
  function Path(v: Option<Json>, names: seq<string>): (r: Access<Option<Json>>)
    decreases |names|
  {
    if names == [] then Value(v)
    else match Prop(v, names[0])
      case TypeError => TypeError
      case Value(w) => Path(w, names[1..])
  }

  /** Reading a path through an object reads the rest of the path from
      the member named by its first name. */
  lemma PathStep(o: Json, name: string, rest: seq<string>)
    requires o.JObject?
    ensures Path(Some(o), [name] + rest) == Path(Member(o.fields, name), rest)
  {
    assert ([name] + rest)[0] == name && ([name] + rest)[1..] == rest;
    assert Prop(Some(o), name) == Value(Member(o.fields, name));
  }

  /** A path of two names through nested objects. */
  lemma PathOfTwo(o: Json, a: string, b: string, w: Option<Json>)
    requires o.JObject? && Member(o.fields, a).Some? && Member(o.fields, a).value.JObject?
    requires Member(Member(o.fields, a).value.fields, b) == w
    ensures Path(Some(o), [a, b]) == Value(w)
  {
    var x := Member(o.fields, a).value;
    PathStep(o, a, [b]);
    PathStep(x, b, []);
    assert [a] + [b] == [a, b] && [b] + [] == [b];
  }

  /** A path of three names through nested objects. */
  lemma PathOfThree(o: Json, a: string, b: string, c: string, w: Option<Json>)
    requires o.JObject? && Member(o.fields, a).Some? && Member(o.fields, a).value.JObject?
    requires Member(Member(o.fields, a).value.fields, b).Some?
    requires Member(Member(o.fields, a).value.fields, b).value.JObject?
    requires Member(Member(Member(o.fields, a).value.fields, b).value.fields, c) == w
    ensures Path(Some(o), [a, b, c]) == Value(w)
  {
    var x := Member(o.fields, a).value;
    PathStep(o, a, [b, c]);
    PathOfTwo(x, b, c, w);
    assert [a] + [b, c] == [a, b, c];
  }

  /** JavaScript truthiness: `undefined`, `null`, `false`, `0` and `''`
      are falsy. */
  predicate Truthy(v: Option<Json>) {
    match v
    case None => false
    case Some(JNull) => false
    case Some(JBool(b)) => b
    case Some(JNumber(n)) => n != 0
    case Some(JString(s)) => s != ""
    case Some(_) => true
  }

  function Join(parts: seq<string>, sep: string): string {
    if parts == [] then ""
    else if |parts| == 1 then parts[0]
    else parts[0] + sep + Join(parts[1..], sep)
  }

  /** `${j}` for a parsed JSON value. */
  function JsonText(j: Json): string
    decreases j
  {
    match j
    case JNull => "null"
    case JBool(b) => if b then "true" else "false"
    case JNumber(n) => IntToString(n)
    case JString(s) => s
    case JObject(_) => "[object Object]"
    case JArray(items) =>
      Join(seq(|items|, i requires 0 <= i < |items| =>
        if items[i] == JNull then "" else JsonText(items[i])), ",")
  }

  /** `${v}`: interpolation of a value that may be `undefined`. */
  function TemplateText(v: Option<Json>): (t: string)
    ensures v == None ==> t == "undefined"
    ensures v.Some? && v.value.JString? ==> t == v.value.s
  {
    match v
    case None => "undefined"
    case Some(j) => JsonText(j)
  }

  /** The smallest array-index key among an object's member names:
      `Object.keys` lists such keys before all others, in ascending order. */
  function SmallestIndexKey(fields: seq<(string, Json)>): Option<nat> {
    if fields == [] then None
    else
      var rest := SmallestIndexKey(fields[1..]);
      match IndexOf(fields[0].0)
      case None => rest
      case Some(i) =>
        if i >= 0x1_0000_0000 - 1 then rest
        else if rest.Some? && rest.value < i then rest
        else Some(i)
  }

  /** `Object.keys(v)[0]`: a TypeError on `undefined` and `null`. Object
      keys come in JavaScript's order (array indices ascending first, then
      the other names in order of first appearance); a non-empty string or
      array has key "0"; numbers and booleans have none. */
  function FirstKey(v: Option<Json>): (r: Access<Option<string>>)
    ensures r == TypeError <==> IsNullish(v)
    ensures v.Some? && v.value.JObject? && v.value.fields == [] ==> r == Value(None)
  {
    match v
    case None => TypeError
    case Some(JNull) => TypeError
    case Some(JObject(fields)) =>
      if fields == [] then Value(None)
      else (match SmallestIndexKey(fields)
        case Some(i) => Value(Some(NatToString(i)))
        case None => Value(Some(fields[0].0)))
    case Some(JArray(items)) => if items == [] then Value(None) else Value(Some("0"))
    case Some(JString(s)) => if s == "" then Value(None) else Value(Some("0"))
    case Some(_) => Value(None)
  }

  /** Reading back a member of an object literal whose names are distinct
      yields the value written under it. */
  lemma {:induction false} MemberOfDistinct(fields: seq<(string, Json)>, k: nat)
    requires k < |fields|
    requires forall i, j :: 0 <= i < j < |fields| ==> fields[i].0 != fields[j].0
    ensures Member(fields, fields[k].0) == Some(fields[k].1)
  {
    if k < |fields| - 1 {
      var init := fields[..|fields| - 1];
      assert init[k] == fields[k];
      MemberOfDistinct(init, k);
    }
  }
}
