/** The client's side of HTTP: a server response (status and the body as
    `response.json()` would parse it), the two `handleResponse` variants that
    turn a response into a value or a thrown message, `URLSearchParams` as an
    ordered list of key/value pairs, and a request as method, URL, headers
    and body. */
module Http {
  import opened Common
  import opened Json

  // ---------------------------------------------------------------------------
  // Responses
  // ---------------------------------------------------------------------------

  /** A fetched response; `body` is None when `response.json()` rejects */
  datatype Response = Response(status: int, body: Option<Json>)

  /** `response.ok`: a 2xx status */
  predicate IsOk(r: Response) {
    200 <= r.status <= 299
  }

  /** The text of the SyntaxError `response.json()` throws on a body that is
      not JSON (the exact wording belongs to the browser) */
  const SyntaxErrorMessage: string := "Unexpected token in JSON"

  /** The TypeError that reading `.message` of a `null` body throws (the
      wording belongs to the browser) */
  const NullMessageError: string := "Cannot read properties of null (reading 'message')"

  /** `body.message` when it is truthy, as `new Error(...)` turns it into text;
      None when the body has no such field or it is falsy (a body that is not
      an object has no `message`; `null` is the callers' case) */
  function MessageOf(body: Json): (r: Option<string>)
    ensures r.Some? <==> body.JObj? && "message" in body.fields && Truthy(body.fields["message"])
    ensures r.Some? ==> r.value == ToJsString(body.fields["message"])
  {
    match body
    case JObj(m) =>
      if "message" in m && Truthy(m["message"]) then Some(ToJsString(m["message"])) else None
    case _ => None
  }

  /** What the server's typical error bodies throw: a string as it is, a
      number in decimal, a list of validation messages joined by ',' */
  lemma MessageTexts(s: string, n: int, first: string, second: string)
    requires s != "" && n != 0
    ensures MessageOf(JObj(map["message" := JStr(s)])) == Some(s)
    ensures MessageOf(JObj(map["message" := JNum(n)])) == Some(IntToString(n))
    ensures MessageOf(JObj(map["message" := JArr([JStr(first)])])) == Some(first)
    ensures MessageOf(JObj(map["message" := JArr([JStr(first), JStr(second)])])) ==
              Some(first + "," + second)
    ensures MessageOf(JObj(map["message" := JArr([])])) == Some("")
    ensures MessageOf(JObj(map["message" := JStr("")])) == None
  {
    assert JoinElements([JStr(first)]) == first;
    assert ToJsString(JArr([JStr(first)])) == first;
    assert JoinElements([JStr(second)]) == second;
    assert [JStr(first), JStr(second)][1..] == [JStr(second)];
    assert ToJsString(JArr([JStr(first), JStr(second)])) == first + "," + second;
  }

  /** `handleResponse` of the shared admin client: an unparsable error body
      becomes `{message: 'Unknown error'}`, a body without a message gives
      `API request failed with status N` */
  function AdminHandleResponse(r: Response): (out: Result<Json>)
    ensures IsOk(r) && r.body.Some? ==> out == Ok(r.body.value)
    ensures IsOk(r) && r.body.None? ==> out == Err(SyntaxErrorMessage)
    ensures !IsOk(r) ==> out.Err?
    ensures !IsOk(r) && r.body.None? ==> out.message == "Unknown error"
    ensures !IsOk(r) && r.body == Some(JNull) ==> out.message == NullMessageError
    ensures !IsOk(r) && r.body.Some? && MessageOf(r.body.value).Some? ==>
              out.message == MessageOf(r.body.value).value
    ensures !IsOk(r) && r.body.Some? && r.body.value != JNull && MessageOf(r.body.value).None? ==>
              out.message == "API request failed with status " + IntToString(r.status)
  {
    if IsOk(r) then
      match r.body
      case Some(v) => Ok(v)
      case None => Err(SyntaxErrorMessage)
    else
      var error := match r.body
        case Some(v) => v
        case None => JObj(map["message" := JStr("Unknown error")]);
      if error == JNull then Err(NullMessageError)
      else
        match MessageOf(error)
        case Some(m) => Err(m)
        case None => Err("API request failed with status " + IntToString(r.status))
  }

  /** `handleResponse` of the per-resource services: an unparsable error body
      becomes `{message: 'Request failed with status N'}`, a body without a
      message gives 'Request failed' */
  function ServiceHandleResponse(r: Response): (out: Result<Json>)
    ensures IsOk(r) && r.body.Some? ==> out == Ok(r.body.value)
    ensures IsOk(r) && r.body.None? ==> out == Err(SyntaxErrorMessage)
    ensures !IsOk(r) ==> out.Err?
    ensures !IsOk(r) && r.body.None? ==>
              out.message == "Request failed with status " + IntToString(r.status)
    ensures !IsOk(r) && r.body == Some(JNull) ==> out.message == NullMessageError
    ensures !IsOk(r) && r.body.Some? && MessageOf(r.body.value).Some? ==>
              out.message == MessageOf(r.body.value).value
    ensures !IsOk(r) && r.body.Some? && r.body.value != JNull && MessageOf(r.body.value).None? ==>
              out.message == "Request failed"
  {
    if IsOk(r) then
      match r.body
      case Some(v) => Ok(v)
      case None => Err(SyntaxErrorMessage)
    else
      var errorData := match r.body
        case Some(v) => v
        case None => JObj(map["message" := JStr("Request failed with status " + IntToString(r.status))]);
      if errorData == JNull then Err(NullMessageError)
      else
        match MessageOf(errorData)
        case Some(m) => Err(m)
        case None => Err("Request failed")
  }

  /** Both variants agree on successes, on a `null` error body and on error
      bodies that carry a message; they differ only in the two fallback texts */
  lemma HandleResponseVariantsAgree(r: Response)
    ensures IsOk(r) ==> AdminHandleResponse(r) == ServiceHandleResponse(r)
    ensures !IsOk(r) && r.body.Some? && MessageOf(r.body.value).Some? ==>
              AdminHandleResponse(r) == ServiceHandleResponse(r)
    ensures !IsOk(r) && r.body == Some(JNull) ==> AdminHandleResponse(r) == ServiceHandleResponse(r)
    ensures !IsOk(r) && r.body.None? ==> AdminHandleResponse(r) != ServiceHandleResponse(r)
    ensures !IsOk(r) && r.body.Some? && r.body.value != JNull && MessageOf(r.body.value).None? ==>
              AdminHandleResponse(r) != ServiceHandleResponse(r)
  {
    if !IsOk(r) && r.body.None? {
      var a := AdminHandleResponse(r).message;
      assert a == "Unknown error";
      assert a[0] == 'U';
      assert ServiceHandleResponse(r).message[0] == 'R';
    }
    if !IsOk(r) && r.body.Some? && r.body.value != JNull && MessageOf(r.body.value).None? {
      assert AdminHandleResponse(r).message[0] == 'A';
      assert ServiceHandleResponse(r).message[0] == 'R';
    }
  }

  /** The error body's message renders as nothing: an array such as `[]` */
  predicate RendersEmpty(r: Response) {
    !IsOk(r) && r.body.Some? && r.body.value.JObj? && "message" in r.body.value.fields &&
    r.body.value.fields["message"].JArr? && ToJsString(r.body.value.fields["message"]) == ""
  }

  /** A thrown message is empty exactly when the body's message is an array
      that renders as nothing, so every other failure reaches
      `err.message || fallback` with the server's or the handler's text */
  lemma ThrownMessageEmptyOnlyForEmptyArrays(r: Response)
    ensures AdminHandleResponse(r).Err? && AdminHandleResponse(r).message == "" <==> RendersEmpty(r)
    ensures ServiceHandleResponse(r).Err? && ServiceHandleResponse(r).message == "" <==> RendersEmpty(r)
  {
    if !IsOk(r) && r.body.Some? && MessageOf(r.body.value).Some? {
      EmptyTextOfTruthy(r.body.value.fields["message"]);
    }
    assert "Request failed"[0] == 'R';
    assert |NullMessageError| > 0;
    assert SyntaxErrorMessage[0] == 'U';
  }

  // ---------------------------------------------------------------------------
  // Query strings
  // ---------------------------------------------------------------------------

  /** The pairs of a `URLSearchParams`, in append order (encoding left out) */
  type Query = seq<(string, string)>

  /** `new URLSearchParams()` with its `append` */
  class SearchParams {
    var pairs: Query

    constructor ()
      ensures pairs == []
    {
      pairs := [];
    }

    method Append(key: string, value: string)
      modifies this
      ensures pairs == old(pairs) + [(key, value)]
    {
      pairs := pairs + [(key, value)];
    }
  }

  /** `params.get(key)`: the value of the first pair with that key */
  function Get(q: Query, key: string): (r: Option<string>)
    ensures r.None? <==> forall i :: 0 <= i < |q| ==> q[i].0 != key
    ensures r.Some? ==> exists i :: 0 <= i < |q| && q[i] == (key, r.value)
  {
    if q == [] then None
    else if q[0].0 == key then Some(q[0].1)
    else Get(q[1..], key)
  }

  function Keys(q: Query): (ks: seq<string>)
    ensures |ks| == |q|
    ensures forall i :: 0 <= i < |q| ==> ks[i] == q[i].0
  {
    seq(|q|, i requires 0 <= i < |q| => q[i].0)
  }

  /** One conditional `append`: the key, and the value when the guard let it through */
  datatype Field = Field(key: string, value: Option<string>)

  /** The pair one field contributes: none when its guard failed */
  function Entry(f: Field): (q: Query)
    ensures |q| <= 1
    ensures q != [] <==> f.value.Some?
  {
    if f.value.Some? then [(f.key, f.value.value)] else []
  }

  /** The query a sequence of conditional appends produces */
  function Serialize(fs: seq<Field>): (q: Query)
    ensures |q| <= |fs|
  {
    if fs == [] then [] else Serialize(fs[..|fs| - 1]) + Entry(fs[|fs| - 1])
  }

  /** One more conditional append extends the query built so far */
  lemma SerializePrefix(fs: seq<Field>, k: int)
    requires 0 <= k < |fs|
    ensures Serialize(fs[..k + 1]) == Serialize(fs[..k]) + Entry(fs[k])
  {
    assert fs[..k + 1][..k] == fs[..k];
  }

  lemma Serialize2(fs: seq<Field>)
    requires |fs| == 2
    ensures Serialize(fs) == Entry(fs[0]) + Entry(fs[1])
  {
    SerializePrefix(fs, 0);
    SerializePrefix(fs, 1);
    assert fs[..2] == fs;
  }

  lemma Serialize3(fs: seq<Field>)
    requires |fs| == 3
    ensures Serialize(fs) == Entry(fs[0]) + Entry(fs[1]) + Entry(fs[2])
  {
    Serialize2(fs[..2]);
    SerializePrefix(fs, 2);
    assert fs[..3] == fs;
  }

  lemma Serialize4(fs: seq<Field>)
    requires |fs| == 4
    ensures Serialize(fs) == Entry(fs[0]) + Entry(fs[1]) + Entry(fs[2]) + Entry(fs[3])
  {
    Serialize3(fs[..3]);
    SerializePrefix(fs, 3);
    assert fs[..4] == fs;
  }

  lemma Serialize5(fs: seq<Field>)
    requires |fs| == 5
    ensures Serialize(fs) == Entry(fs[0]) + Entry(fs[1]) + Entry(fs[2]) + Entry(fs[3]) + Entry(fs[4])
  {
    Serialize4(fs[..4]);
    SerializePrefix(fs, 4);
    assert fs[..5] == fs;
  }

  /** `get` on the query reads what the guard of a truthy-number append let through */
  predicate SendsTruthyNum(q: Query, key: string, n: Option<int>) {
    Get(q, key) == if NumTruthy(n) then Some(IntToString(n.value)) else None
  }

  /** ... of a truthy-string append */
  predicate SendsTruthyStr(q: Query, key: string, s: Option<string>) {
    Get(q, key) == if StrTruthy(s) then s else None
  }

  /** ... of a defined-boolean append (`false` is sent) */
  predicate SendsDefinedBool(q: Query, key: string, b: Option<bool>) {
    Get(q, key) == if b.Some? then Some(BoolToString(b.value)) else None
  }

  function FieldKeys(fs: seq<Field>): (ks: seq<string>)
    ensures |ks| == |fs|
    ensures forall i :: 0 <= i < |fs| ==> ks[i] == fs[i].key
  {
    seq(|fs|, i requires 0 <= i < |fs| => fs[i].key)
  }

  predicate DistinctKeys(fs: seq<Field>) {
    forall i, j :: 0 <= i < j < |fs| ==> fs[i].key != fs[j].key
  }

  /** Appending a field extends the query by at most that one pair */
  lemma SerializeSnoc(fs: seq<Field>, f: Field)
    ensures Serialize(fs + [f]) ==
            Serialize(fs) + Entry(f)
  {
    assert (fs + [f])[..|fs|] == fs;
  }

  lemma GetAppendFresh(q: Query, key: string, value: string, k: string)
    ensures Get(q + [(key, value)], k) ==
            if Get(q, k).Some? then Get(q, k) else if key == k then Some(value) else None
  {
    if Get(q, k).Some? {
      GetFirst(q, q + [(key, value)], k);
    } else if key == k {
      assert (q + [(key, value)])[|q|] == (key, value);
      GetNoneThen(q, key, value);
    } else {
      assert forall i :: 0 <= i < |q + [(key, value)]| ==> (q + [(key, value)])[i].0 != k by {
        forall i | 0 <= i < |q + [(key, value)]| ensures (q + [(key, value)])[i].0 != k {
          if i < |q| { assert (q + [(key, value)])[i] == q[i]; }
        }
      }
    }
  }

  lemma {:induction false} GetFirst(q: Query, q': Query, k: string)
    requires Get(q, k).Some?
    requires |q| <= |q'| && q'[..|q|] == q
    ensures Get(q', k) == Get(q, k)
  {
    if q[0].0 != k {
      assert q'[1..][..|q[1..]|] == q[1..];
      GetFirst(q[1..], q'[1..], k);
    }
  }

  lemma {:induction false} GetNoneThen(q: Query, key: string, value: string)
    requires Get(q, key).None?
    ensures Get(q + [(key, value)], key) == Some(value)
  {
    if q != [] {
      assert (q + [(key, value)])[1..] == q[1..] + [(key, value)];
      GetNoneThen(q[1..], key, value);
    }
  }

  /** With distinct keys, `get` on the serialised query finds exactly the
      value the field's guard let through (None: the key was never appended) */
  lemma {:induction false} GetSerialize(fs: seq<Field>, i: int)
    requires DistinctKeys(fs)
    requires 0 <= i < |fs|
    ensures Get(Serialize(fs), fs[i].key) == fs[i].value
    decreases |fs|
  {
    var init := fs[..|fs| - 1];
    var last := fs[|fs| - 1];
    assert fs == init + [last];
    SerializeSnoc(init, last);
    if i == |fs| - 1 {
      GetSerializeAbsent(init, last.key);
      GetAppendFresh(Serialize(init), last.key, if last.value.Some? then last.value.value else "", last.key);
    } else {
      assert init[i] == fs[i];
      GetSerialize(init, i);
      if last.value.Some? {
        GetAppendFresh(Serialize(init), last.key, last.value.value, fs[i].key);
      } else {
        assert Serialize(fs) == Serialize(init) + [];
        assert Serialize(init) + [] == Serialize(init);
      }
    }
  }

  /** A key no field carries never appears in the query */
  lemma {:induction false} GetSerializeAbsent(fs: seq<Field>, k: string)
    requires forall i :: 0 <= i < |fs| ==> fs[i].key != k
    ensures Get(Serialize(fs), k) == None
    decreases |fs|
  {
    if fs != [] {
      var init := fs[..|fs| - 1];
      var last := fs[|fs| - 1];
      GetSerializeAbsent(init, k);
      if last.value.Some? {
        GetAppendFresh(Serialize(init), last.key, last.value.value, k);
      }
    }
  }

  /** The query's keys appear in the order the appends are written */
  lemma {:induction false} SerializeKeepsOrder(fs: seq<Field>)
    ensures IsSubseq(Keys(Serialize(fs)), FieldKeys(fs))
    decreases |fs|
  {
    if fs != [] {
      var init := fs[..|fs| - 1];
      var last := fs[|fs| - 1];
      SerializeKeepsOrder(init);
      var extra := Entry(last);
      assert FieldKeys(fs) == FieldKeys(init) + [last.key];
      assert Keys(Serialize(fs)) == Keys(Serialize(init)) + Keys(extra);
      SubseqSnoc(Keys(Serialize(init)), FieldKeys(init), Keys(extra), last.key);
    }
  }

  lemma {:induction false} SubseqSnoc<T>(a: seq<T>, b: seq<T>, e: seq<T>, x: T)
    requires IsSubseq(a, b)
    requires e == [] || e == [x]
    ensures IsSubseq(a + e, b + [x])
    decreases |b|
  {
    if a == [] {
      if e == [] {
        assert IsSubseq([], b + [x]);
      } else {
        SubseqSingleton(b, x);
        assert a + e == [x];
      }
    } else if b == [] {
    } else {
      assert (b + [x])[1..] == b[1..] + [x];
      if a[0] == b[0] && IsSubseq(a[1..], b[1..]) {
        SubseqSnoc(a[1..], b[1..], e, x);
        assert (a + e)[1..] == a[1..] + e;
      } else {
        SubseqSnoc(a, b[1..], e, x);
      }
    }
  }

  lemma {:induction false} SubseqSingleton<T>(b: seq<T>, x: T)
    ensures IsSubseq([x], b + [x])
    decreases |b|
  {
    if b == [] {
      assert IsSubseq([x][1..], []);
    } else {
      assert (b + [x])[1..] == b[1..] + [x];
      SubseqSingleton(b[1..], x);
    }
  }

  /** `String(bool)` */
  function BoolToString(b: bool): (r: string)
    ensures r == "true" <==> b
  {
    if b then "true" else "false"
  }

  /** `if (n) append(key, n.toString())`: only a truthy number is sent */
  function TruthyNum(key: string, n: Option<int>): (f: Field)
    ensures f.key == key
    ensures f.value.Some? <==> NumTruthy(n)
    ensures NumTruthy(n) ==> f.value == Some(IntToString(n.value))
  {
    Field(key, if NumTruthy(n) then Some(IntToString(n.value)) else None)
  }

  /** `if (s) append(key, s)`: only a non-empty string is sent */
  function TruthyStr(key: string, s: Option<string>): (f: Field)
    ensures f.key == key
    ensures f.value.Some? <==> StrTruthy(s)
    ensures StrTruthy(s) ==> f.value == s
  {
    Field(key, if StrTruthy(s) then s else None)
  }

  /** `if (b !== undefined) append(key, b.toString())`: `false` is sent too */
  function DefinedBool(key: string, b: Option<bool>): (f: Field)
    ensures f.key == key
    ensures f.value.Some? <==> b.Some?
    ensures b.Some? ==> f.value == Some(BoolToString(b.value))
  {
    Field(key, if b.Some? then Some(BoolToString(b.value)) else None)
  }

  // ---------------------------------------------------------------------------
  // Requests
  // ---------------------------------------------------------------------------

  datatype Verb = GET | POST | PUT | PATCH | DELETE

  /** A URL as base, path and the query after '?' (None: no '?' at all) */
  datatype Url = Url(base: string, path: string, query: Option<Query>)

  datatype Request = Request(verb: Verb, url: Url, headers: map<string, string>, body: Option<Json>)

  const JsonType: string := "application/json"

  /** The URL as text: `${base}${path}?${query}` with the pairs written as
      `key=value` joined by '&' (percent-encoding is not modelled) */
  function UrlText(u: Url): string {
    u.base + u.path + match u.query
      case None => ""
      case Some(q) => "?" + RenderQuery(q)
  }

  function RenderQuery(q: Query): (s: string)
    ensures q == [] <==> s == ""
  {
    if q == [] then ""
    else
      var pair := q[0].0 + "=" + q[0].1;
      if |q| == 1 then pair else pair + "&" + RenderQuery(q[1..])
  }

  /** A URL written `${base}${path}?${query}` ends in '?' when nothing was appended */
  lemma EmptyQueryEndsWithMark(base: string, path: string)
    ensures UrlText(Url(base, path, Some([]))) == base + path + "?"
  {
  }

  /** The headers of every per-resource service call: JSON accepted and the
      bearer credential, sent even when the token is empty */
  function BearerHeaders(token: string): (h: map<string, string>)
    ensures h.Keys == {"Accept", "Authorization"}
    ensures h["Accept"] == JsonType
    ensures h["Authorization"] == "Bearer " + token
  {
    map["Accept" := JsonType, "Authorization" := "Bearer " + token]
  }

  /** `BearerHeaders` with a JSON Content-Type, for calls that send a body */
  function BearerJsonHeaders(token: string): (h: map<string, string>)
    ensures h.Keys == {"Content-Type", "Accept", "Authorization"}
    ensures h["Content-Type"] == JsonType && h["Accept"] == JsonType
    ensures h["Authorization"] == "Bearer " + token
  {
    BearerHeaders(token)["Content-Type" := JsonType]
  }

  /** The path of one resource: `${collection}/${id}` */
  function ItemPath(collection: string, id: string): (path: string)
    ensures |path| == |collection| + 1 + |id|
    ensures path[..|collection| + 1] == collection + "/"
    ensures path[|collection| + 1..] == id
  {
    collection + "/" + id
  }

  /** The id is recovered from an item path, so distinct ids name distinct paths */
  lemma ItemPathInjective(collection: string, a: string, b: string)
    requires ItemPath(collection, a) == ItemPath(collection, b)
    ensures a == b
  {
    assert a == ItemPath(collection, a)[|collection| + 1..];
  }
}
