/** The values the agents exchange through the store.

    The store keeps strings. Every string the source puts there is either the output of
    `json.dumps` or plain text (paper titles, urls, extracted text). The model keeps the
    document a JSON string stands for, so that `json.loads` is exact on it, and keeps
    plain text as it is; plain text is never taken to parse as JSON. */
module Wire {
  import opened Wrappers

  /** A JSON document. Objects are maps: key order does not matter anywhere below. */
  datatype Json =
    | JNull
    | JBool(b: bool)
    | JNum(n: real)
    | JStr(s: string)
    | JArr(items: seq<Json>)
    | JObj(fields: map<string, Json>)

  /** A string as it sits in the store or travels on a channel. */
  datatype Value = Doc(doc: Json) | Text(text: string)

  /** `json.dumps` */
  function Dumps(j: Json): (v: Value)
    ensures Loads(v) == Some(j)
  {
    Doc(j)
  }

  /** `json.loads`: fails exactly on plain text. */
  function Loads(v: Value): (r: Option<Json>)
    ensures r.Some? <==> v.Doc?
  {
    match v
    case Doc(j) => Some(j)
    case Text(_) => None
  }

  /** Python truthiness of a decoded JSON value. */
  predicate Truthy(j: Json) {
    match j
    case JNull => false
    case JBool(b) => b
    case JNum(n) => n != 0.0
    case JStr(s) => s != ""
    case JArr(a) => a != []
    case JObj(m) => m != map[]
  }

  /** Python truthiness of a raw store value: only the empty string is false
      (`json.dumps` never produces it). */
  predicate NonEmpty(v: Value) {
    v.Doc? || v.text != ""
  }

  /** `d.get(key, default)` on a decoded object. */
  function GetField(m: map<string, Json>, key: string, default: Json): Json {
    if key in m then m[key] else default
  }

  /** A list of strings as a JSON array, as `json.dumps(ids)` writes it. */
  function StrList(xs: seq<string>): (j: Json)
    ensures j.JArr? && |j.items| == |xs|
    ensures forall i :: 0 <= i < |xs| ==> j.items[i] == JStr(xs[i])
  {
    JArr(seq(|xs|, i requires 0 <= i < |xs| => JStr(xs[i])))
  }

  /** An optional string as JSON: `None` becomes `null`. */
  function OptStr(x: Option<string>): Json {
    match x
    case Some(s) => JStr(s)
    case None => JNull
  }

  /** Python truthiness of an optional string argument (`if session_id:`). */
  predicate Given(x: Option<string>) {
    x.Some? && x.value != ""
  }

  lemma {:induction false} StrListInjective(xs: seq<string>, ys: seq<string>)
    requires StrList(xs) == StrList(ys)
    ensures xs == ys
  {
    assert |xs| == |ys|;
    forall i | 0 <= i < |xs| ensures xs[i] == ys[i] {
      assert StrList(xs).items[i] == JStr(xs[i]);
      assert StrList(ys).items[i] == JStr(ys[i]);
    }
  }
}
