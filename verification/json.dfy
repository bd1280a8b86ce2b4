/** An abstract JSON value (RFC 8259) standing in for Go's `interface{}`
    values produced by `encoding/json`, and the shapes of the uninterpreted
    encoder and decoder that the model takes as parameters. Numbers are kept
    as their literal text: no floating point is modelled. */
module JsonValues {
  import opened Wrappers

  datatype Json =
    | JNull
    | JBool(b: bool)
    | JNumber(literal: string)
    | JString(str: string)
    | JArray(items: seq<Json>)
    | JObject(fields: map<string, Json>)

  /** `json.Marshal`, uninterpreted. Marshalling a JSON value never fails. */
  type Encoder = Json -> string

  /** `json.Unmarshal` into `interface{}`, uninterpreted: the decoded value or
      the decoder's error text. */
  type Decoder = string -> Result<Json, string>

  /** The error text for a document that is valid JSON but not an object. */
  const NotAnObject := "json: cannot unmarshal non-object into Go value of type map[string]interface {}"

  /** `json.Unmarshal(data, &m)` with `m` a `map[string]interface{}`: an
      object fills the map, `null` leaves it nil (no error), anything else is
      an error. */
  function UnmarshalObject(decode: Decoder, data: string): (r: Result<Option<map<string, Json>>, string>)
    ensures r.Ok? && r.value.Some? <==> decode(data).Ok? && decode(data).value.JObject?
    ensures r.Ok? && r.value.None? <==> decode(data) == Ok(JNull)
    ensures r.Ok? && r.value.Some? ==> r.value.value == decode(data).value.fields
  {
    match decode(data)
    case Err(e) => Err(e)
    case Ok(JNull) => Ok(None)
    case Ok(JObject(m)) => Ok(Some(m))
    case Ok(_) => Err(NotAnObject)
  }
  /** The string held under `key`, or "" when the key is absent or holds
      another kind of value (Go's `m[key].(string)` with the ok result
      ignored). */
  function StringField(m: map<string, Json>, key: string): (s: string)
    ensures key in m && m[key].JString? ==> s == m[key].str
    ensures !(key in m && m[key].JString?) ==> s == ""
  {
    if key in m && m[key].JString? then m[key].str else ""
  }

  /** The string entries of a JSON list, in order; other entries are dropped. */
  function StringsOf(items: seq<Json>): (r: seq<string>)
    ensures |r| <= |items|
    ensures forall s :: s in r <==> JString(s) in items
    ensures (forall i :: 0 <= i < |items| ==> items[i].JString?) ==> |r| == |items|
  {
    if |items| == 0 then []
    else (if items[0].JString? then [items[0].str] else []) + StringsOf(items[1..])
  }

  /** One item contributes its text when it is a string and nothing
      otherwise. */
  lemma StringsOfOne(x: Json)
    ensures StringsOf([x]) == if x.JString? then [x.str] else []
  {
    assert [x][1..] == [];
  }

  /** The strings keep the order of the items they came from. */
  lemma {:induction false} StringsOfAppend(a: seq<Json>, b: seq<Json>)
    ensures StringsOf(a + b) == StringsOf(a) + StringsOf(b)
    decreases |a|
  {
    if |a| == 0 {
      assert a + b == b;
    } else {
      assert (a + b)[0] == a[0] && (a + b)[1..] == a[1..] + b;
      StringsOfAppend(a[1..], b);
    }
  }
}
