/** The stock optional-value type. */
module Wrappers {
  datatype Option<+T> = None | Some(value: T)
}

/** JavaScript values as the dashboard sees them: record fields that are strings, `null`
    or `undefined`; response bodies already decoded from JSON; and the outcome of one
    `fetch` call, which the model takes as an input. */
module Js {
  import opened Wrappers
  import opened Text

  /** A field read from a record: `undefined`, `null`, or a string. */
  datatype JsValue = Undefined | Null | Str(s: string)

  /** A JSON object of the backend. A key that is absent reads as `undefined`. */
  type Record = map<string, JsValue>

  /** `r[k]`. */
  function Get(r: Record, k: string): (v: JsValue)
    ensures k !in r ==> v == Undefined
  {
    if k in r then r[k] else Undefined
  }

  /** JavaScript truthiness of a field: only a non-empty string is truthy. */
  predicate Truthy(v: JsValue) {
    v.Str? && v.s != ""
  }

  /** `a || b`. */
  function Or(a: JsValue, b: JsValue): (r: JsValue)
    ensures Truthy(a) ==> r == a
    ensures !Truthy(a) ==> r == b
  {
    if Truthy(a) then a else b
  }

  /** `String(v)`, as used when a value is interpolated into a template literal. */
  function ToJsString(v: JsValue): string {
    match v
    case Undefined => "undefined"
    case Null => "null"
    case Str(s) => s
  }

  /** A decoded JSON body. `JLiteral` stands for a number, a boolean or `null`, carried
      with its string rendering and its truthiness. Array elements are records. */
  datatype Json =
    | JArray(items: seq<Record>)
    | JObject(fields: map<string, Json>)
    | JString(s: string)
    | JLiteral(text: string, truthy: bool)

  predicate JsonTruthy(j: Json) {
    match j
    case JArray(_) => true
    case JObject(_) => true
    case JString(s) => s != ""
    case JLiteral(_, t) => t
  }

  /** `j?.k`: only an object has the envelope keys the dashboard asks for. */
  function Member(j: Json, k: string): (m: Option<Json>)
    ensures m.Some? ==> j.JObject? && k in j.fields && m.value == j.fields[k]
    ensures j.JObject? && k in j.fields ==> m.Some?
  {
    if j.JObject? && k in j.fields then Some(j.fields[k]) else None
  }

  /** `j?.k` is present and truthy. */
  predicate TruthyMember(j: Json, k: string) {
    Member(j, k).Some? && JsonTruthy(Member(j, k).value)
  }

  /** `keys[i]` is the first key whose member is truthy: the one `j?.k1 || j?.k2 || ...`
      stops at. */
  predicate FirstTruthyAt(j: Json, keys: seq<string>, i: int) {
    && 0 <= i < |keys| && TruthyMember(j, keys[i])
    && forall k :: 0 <= k < i ==> !TruthyMember(j, keys[k])
  }

  /** `j?.k1 || j?.k2 || ...`: the first truthy member, if any. */
  function FirstTruthyMember(j: Json, keys: seq<string>): (m: Option<Json>)
    ensures m.Some? ==> exists i :: FirstTruthyAt(j, keys, i) && Member(j, keys[i]) == m
    ensures m.None? ==> forall i :: 0 <= i < |keys| ==> !TruthyMember(j, keys[i])
  {
    if keys == [] then None
    else if TruthyMember(j, keys[0]) then
      assert FirstTruthyAt(j, keys, 0);
      Member(j, keys[0])
    else
      var t := FirstTruthyMember(j, keys[1..]);
      assert t.Some? ==> exists i :: FirstTruthyAt(j, keys, i) && Member(j, keys[i]) == t by {
        if t.Some? {
          var i :| FirstTruthyAt(j, keys[1..], i) && Member(j, keys[1..][i]) == t;
          forall k | 0 <= k < i + 1
            ensures !TruthyMember(j, keys[k])
          {
            if k > 0 { assert keys[k] == keys[1..][k - 1]; }
          }
          assert FirstTruthyAt(j, keys, i + 1);
        }
      }
      assert t.None? ==> forall i :: 0 <= i < |keys| ==> !TruthyMember(j, keys[i]) by {
        if t.None? {
          forall i | 0 <= i < |keys|
            ensures !TruthyMember(j, keys[i])
          {
            if i > 0 { assert keys[i] == keys[1..][i - 1]; }
          }
        }
      }
      t
  }

  /** The chain yields the member of the first truthy key, and nothing when no member
      is truthy. */
  lemma {:induction false} FirstTruthyMemberAt(j: Json, keys: seq<string>, i: int)
    requires FirstTruthyAt(j, keys, i)
    ensures FirstTruthyMember(j, keys) == Member(j, keys[i])
  {
    var m := FirstTruthyMember(j, keys);
    assert TruthyMember(j, keys[i]);
    var i' :| FirstTruthyAt(j, keys, i') && Member(j, keys[i']) == m;
    assert i' == i;
  }

  /** `Array.isArray(x) ? x : []`. */
  function ItemsOrEmpty(j: Json): (items: seq<Record>)
    ensures j.JArray? ==> items == j.items
    ensures !j.JArray? ==> items == []
  {
    if j.JArray? then j.items else []
  }

  /** The outcome of one `fetch`: a reply with its HTTP status and decoded body, or a
      thrown error (network failure, or a body that is not JSON) with its message. */
  datatype Reply =
    | Response(status: int, statusText: string, body: Json)
    | Thrown(message: string)

  /** `Math.min`. */
  function Min(a: int, b: int): (m: int)
    ensures m <= a && m <= b && (m == a || m == b)
  {
    if a <= b then a else b
  }

  /** `response.ok`. */
  predicate IsOk(status: int) {
    200 <= status <= 299
  }
}
