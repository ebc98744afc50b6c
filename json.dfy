/** JSON values as the client sees them after `JSON.parse`, JavaScript
    truthiness of such values, the browser's `localStorage` as a map from keys
    to strings, and the bearer-token lookup that every service performs on the
    stored session record. */
module Json {
  import opened Common

  /** The result of `JSON.parse` (numbers are integers here) */
  datatype Json =
    | JNull
    | JBool(b: bool)
    | JNum(n: int)
    | JStr(s: string)
    | JArr(items: seq<Json>)
    | JObj(fields: map<string, Json>)

  /** `!!v` */
  predicate Truthy(v: Json) {
    match v
    case JNull => false
    case JBool(b) => b
    case JNum(n) => n != 0
    case JStr(s) => s != ""
    case JArr(_) => true
    case JObj(_) => true
  }

  /** `String(v)`, the text JavaScript converts a value to (in a template
      literal, in `new Error(v)`): arrays join their elements with ',' */
  function ToJsString(v: Json): (text: string)
    decreases v
  {
    match v
    case JNull => "null"
    case JBool(b) => if b then "true" else "false"
    case JNum(n) => IntToString(n)
    case JStr(s) => s
    case JArr(items) => JoinElements(items)
    case JObj(_) => "[object Object]"
  }

  /** `items.join(',')`: a `null` element contributes nothing */
  function JoinElements(items: seq<Json>): (text: string)
    decreases items
  {
    if items == [] then ""
    else
      var head := if items[0].JNull? then "" else ToJsString(items[0]);
      if |items| == 1 then head else head + "," + JoinElements(items[1..])
  }

  /** Only an array can render as the empty string among truthy values, and
      `[]` does */
  lemma {:induction false} EmptyTextOfTruthy(v: Json)
    requires Truthy(v)
    ensures ToJsString(v) == "" ==> v.JArr?
    ensures ToJsString(JArr([])) == ""
  {
    match v
    case JNum(n) =>
      assert |IntToString(n)| > 0;
    case JObj(_) =>
      assert "[object Object]"[0] == '[';
    case JBool(_) =>
    case _ =>
  }

  /** `JSON.parse` (None: it throws) and `JSON.stringify`, supplied by the environment */
  datatype Codec = Codec(parse: string -> Option<Json>, stringify: Json -> string)

  /** What JSON promises: a stringified value is never the empty string, and
      parsing it gives the value back */
  ghost predicate Lawful(c: Codec) {
    forall v :: c.stringify(v) != "" && c.parse(c.stringify(v)) == Some(v)
  }

  /** `localStorage`: keys to stored strings */
  type Storage = map<string, string>

  /** The one key the client writes: the signed-in admin with the token */
  const UserKey: string := "exhiibot_user"

  /** The session record: the stored value when it is present, non-empty (the
      source tests `if (user)`) and parses; None when any of the three fails */
  function StoredRecord(st: Storage, codec: Codec): Option<Json> {
    match Lookup(st, UserKey)
    case None => None
    case Some(raw) => if raw == "" then None else codec.parse(raw)
  }

  /** `record.token` read from a parsed record: a string-valued `token` field of
      an object; every other shape gives no token (on `null` the property access
      throws and is caught) */
  function TokenField(record: Json): Option<string> {
    match record
    case JObj(m) =>
      if "token" in m && m["token"].JStr? then Some(m["token"].s) else None
    case _ => None
  }

  /** `getAuthToken`: the stored token, or '' when nothing is stored, when
      parsing fails, or when the token is missing or empty */
  function GetAuthToken(st: Storage, codec: Codec): (token: string)
    ensures UserKey !in st ==> token == ""
    ensures UserKey in st && codec.parse(st[UserKey]).None? ==> token == ""
    ensures token != "" <==>
              StoredRecord(st, codec).Some? &&
              TokenField(StoredRecord(st, codec).value).Some? &&
              TokenField(StoredRecord(st, codec).value).value != ""
    ensures token != "" ==> TokenField(StoredRecord(st, codec).value) == Some(token)
  {
    match StoredRecord(st, codec)
    case None => ""
    case Some(record) =>
      match TokenField(record)
      case Some(t) => t
      case None => ""
  }

  /** Storing a record with a string token makes that token the one every
      service reads back */
  lemma StoredTokenReadBack(st: Storage, codec: Codec, fields: map<string, Json>, token: string)
    requires Lawful(codec)
    requires "token" in fields && fields["token"] == JStr(token)
    ensures GetAuthToken(st[UserKey := codec.stringify(JObj(fields))], codec) == token
  {
    var st' := st[UserKey := codec.stringify(JObj(fields))];
    assert codec.parse(codec.stringify(JObj(fields))) == Some(JObj(fields));
    assert StoredRecord(st', codec) == Some(JObj(fields));
  }

  /** With the key removed no token is sent */
  lemma RemovedTokenIsEmpty(st: Storage, codec: Codec)
    ensures GetAuthToken(st - {UserKey}, codec) == ""
  {
  }
}
