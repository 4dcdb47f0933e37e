/**
 * JSON values as the application stores, loads, imports and validates them,
 * with JavaScript's truthiness and the generic pieces of schema decoding
 * (records and arrays of one schema).
 */
module Json {
  import opened Wrappers

  /** A parsed JSON value. Numbers are modelled as integers. */
  datatype Json =
    | JNull
    | JBool(b: bool)
    | JNum(n: int)
    | JStr(s: string)
    | JArr(items: seq<Json>)
    | JObj(fields: map<string, Json>)

  /** JavaScript truthiness of a JSON value: `null`, `false`, `0` and `""` are falsy. */
  predicate Truthy(j: Json) {
    match j
    case JNull => false
    case JBool(b) => b
    case JNum(n) => n != 0
    case JStr(s) => s != ""
    case JArr(_) => true
    case JObj(_) => true
  }

  /**
   * Text as it sits in browser storage or in an uploaded file: either the
   * serialisation of a JSON value (which `JSON.parse` accepts) or text that
   * `JSON.parse` rejects. A serialisation is never the empty string.
   */
  datatype JsonText = Serialized(value: Json) | Malformed(raw: string)

  /** The truthiness of the text as a JavaScript string. */
  predicate TextTruthy(t: JsonText) {
    t.Serialized? || t.raw != ""
  }

  /** `JSON.parse`: `None` when it throws. */
  function ParseText(t: JsonText): (r: Option<Json>)
    ensures r.Some? <==> t.Serialized?
  {
    match t
    case Serialized(j) => Some(j)
    case Malformed(_) => None
  }

  /** `z.string()`. */
  function DecodeString(j: Json): (r: Option<string>)
    ensures r.Some? <==> j.JStr?
    ensures r.Some? ==> j == JStr(r.value)
  {
    if j.JStr? then Some(j.s) else None
  }

  /** `z.number()`. */
  function DecodeNumber(j: Json): (r: Option<int>)
    ensures r.Some? <==> j.JNum?
    ensures r.Some? ==> j == JNum(r.value)
  {
    if j.JNum? then Some(j.n) else None
  }

  /** A required object property decoded by `dec`. */
  function Field<T>(fields: map<string, Json>, name: string, dec: Json -> Option<T>): Option<T> {
    if name in fields then dec(fields[name]) else None
  }

  /** `z.record(schema)`: an object every value of which decodes. */
  function DecodeRecord<T(!new)>(j: Json, dec: Json -> Option<T>): (r: Option<map<string, T>>)
    ensures r.Some? ==> j.JObj? && r.value.Keys == j.fields.Keys
    ensures r.Some? ==> forall k :: k in r.value ==> dec(j.fields[k]) == Some(r.value[k])
    ensures j.JObj? && (forall k :: k in j.fields ==> dec(j.fields[k]).Some?) ==> r.Some?
  {
    match j
    case JObj(m) =>
      if forall k :: k in m ==> dec(m[k]).Some? then Some(map k | k in m :: dec(m[k]).value) else None
    case _ => None
  }

  /** The object holding each entry of `m` encoded by `enc`. */
  function EncodeRecord<T>(m: map<string, T>, enc: T -> Json): (j: Json)
    ensures j.JObj? && j.fields.Keys == m.Keys
    ensures forall k :: k in m ==> j.fields[k] == enc(m[k])
  {
    JObj(map k | k in m :: enc(m[k]))
  }

  /** Encoding every entry with an inverse of `dec` gives an object `dec` decodes back. */
  lemma RecordRoundTrip<T(!new)>(m: map<string, T>, enc: T -> Json, dec: Json -> Option<T>)
    requires forall k :: k in m ==> dec(enc(m[k])) == Some(m[k])
    ensures DecodeRecord(EncodeRecord(m, enc), dec) == Some(m)
  {
    var r := DecodeRecord(EncodeRecord(m, enc), dec);
    assert r.Some?;
    assert r.value == m;
  }

  /** `z.array(schema)`: an array every item of which decodes. */
  function DecodeArray<T>(j: Json, dec: Json -> Option<T>): (r: Option<seq<T>>)
    ensures r.Some? ==> j.JArr? && |r.value| == |j.items|
    ensures r.Some? ==> forall i :: 0 <= i < |j.items| ==> dec(j.items[i]) == Some(r.value[i])
    ensures j.JArr? && (forall i :: 0 <= i < |j.items| ==> dec(j.items[i]).Some?) ==> r.Some?
  {
    match j
    case JArr(a) =>
      if forall i :: 0 <= i < |a| ==> dec(a[i]).Some? then
        Some(seq(|a|, i requires 0 <= i < |a| && dec(a[i]).Some? => dec(a[i]).value))
      else None
    case _ => None
  }

  /** The array of the items encoded by `enc`. */
  function EncodeArray<T>(s: seq<T>, enc: T -> Json): (j: Json)
    ensures j.JArr? && |j.items| == |s|
    ensures forall i :: 0 <= i < |s| ==> j.items[i] == enc(s[i])
  {
    JArr(seq(|s|, i requires 0 <= i < |s| => enc(s[i])))
  }

  /** Encoding every item with an inverse of `dec` gives an array `dec` decodes back. */
  lemma ArrayRoundTrip<T>(s: seq<T>, enc: T -> Json, dec: Json -> Option<T>)
    requires forall i :: 0 <= i < |s| ==> dec(enc(s[i])) == Some(s[i])
    ensures DecodeArray(EncodeArray(s, enc), dec) == Some(s)
  {
    var r := DecodeArray(EncodeArray(s, enc), dec);
    assert r.Some?;
    assert r.value == s;
  }
}
