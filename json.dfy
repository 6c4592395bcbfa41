/** An abstract JSON value, and the part of `encoding/json` the client relies on:
    decoding into freshly zeroed Go targets (strings, string maps, slices,
    `interface{}`) and the encoding that `json.Marshal` performs for the push body.
    Errors from the library are described by a short text. */
module Json {
  import opened Wrappers

  newtype int64 = x: int | -0x8000_0000_0000_0000 <= x < 0x8000_0000_0000_0000

  /** A JSON value as the decoder hands it to code that reads it through `interface{}`.
      A number carries the dynamic Go type the decoder gave it: `JInt64` for an
      `int64`, `JFloat64` for a `float64` (the only kind `encoding/json` produces
      by default). */
  datatype Json =
    | JNull
    | JBool(b: bool)
    | JInt64(i: int64)
    | JFloat64(f: real)
    | JString(s: string)
    | JArray(elems: seq<Json>)
    | JObject(fields: map<string, Json>)

  /** A struct field absent from the input leaves the zero value, as `null` does. */
  function FieldOrNull(fields: map<string, Json>, key: string): Json
  {
    if key in fields then fields[key] else JNull
  }

  /** Decoding into a fresh Go `string`. */
  function DecodeString(j: Json): (r: Result<string, string>)
    ensures r.Ok? <==> j.JString? || j.JNull?
    ensures j.JString? ==> r == Ok(j.s)
    ensures j.JNull? ==> r == Ok("")
  {
    match j
    case JString(s) => Ok(s)
    case JNull => Ok("")
    case _ => Err("cannot unmarshal into Go value of type string")
  }

  /** Decoding into a fresh Go `map[string]string`. */
  function DecodeStringMap(j: Json): (r: Result<map<string, string>, string>)
    ensures r.Ok? && j.JObject? ==> r.value.Keys == j.fields.Keys
    ensures r.Ok? && j.JObject? ==> forall k | k in j.fields :: DecodeString(j.fields[k]) == Ok(r.value[k])
    ensures r.Ok? <==> j.JNull? || (j.JObject? && forall k | k in j.fields :: DecodeString(j.fields[k]).Ok?)
  {
    match j
    case JNull => Ok(map[])
    case JObject(fields) =>
      if forall k | k in fields :: DecodeString(fields[k]).Ok? then
        Ok(map k | k in fields :: DecodeString(fields[k]).value)
      else
        Err("cannot unmarshal into Go value of type string")
    case _ => Err("cannot unmarshal into Go value of type map[string]string")
  }

  /** Decoding the elements of a JSON array one by one into a fresh Go slice;
      the first element that fails decides the error. */
  function DecodeList<T>(elems: seq<Json>, decode: Json -> Result<T, string>): (r: Result<seq<T>, string>)
    ensures r.Ok? ==> |r.value| == |elems|
    ensures r.Ok? ==> forall i :: 0 <= i < |elems| ==> decode(elems[i]) == Ok(r.value[i])
  {
    if elems == [] then Ok([])
    else
      match DecodeList(elems[..|elems| - 1], decode)
      case Err(e) => Err(e)
      case Ok(prefix) =>
        match decode(elems[|elems| - 1])
        case Err(e) => Err(e)
        case Ok(x) => Ok(prefix + [x])
  }

  /** Decoding into a fresh Go slice: `null` leaves it nil. */
  function DecodeArray<T>(j: Json, decode: Json -> Result<T, string>): Result<seq<T>, string>
  {
    match j
    case JNull => Ok([])
    case JArray(elems) => DecodeList(elems, decode)
    case _ => Err("cannot unmarshal into Go slice")
  }

  /** Decoding into `interface{}` keeps the value. */
  function DecodeAny(j: Json): Result<Json, string>
  {
    Ok(j)
  }

  /** `[]string` */
  function DecodeStringList(j: Json): Result<seq<string>, string>
  {
    DecodeArray(j, DecodeString)
  }

  /** `[]interface{}` */
  function DecodeAnyList(j: Json): Result<seq<Json>, string>
  {
    DecodeArray(j, DecodeAny)
  }

  // Encodings, as json.Marshal writes Go strings, string maps and slices of them.

  function EncodeStringMap(m: map<string, string>): Json
  {
    JObject(map k | k in m :: JString(m[k]))
  }

  function EncodeStringList(xs: seq<string>): Json
  {
    JArray(seq(|xs|, i requires 0 <= i < |xs| => JString(xs[i])))
  }

  /** `[][]string` */
  function EncodeStringTable(rows: seq<seq<string>>): Json
  {
    JArray(seq(|rows|, i requires 0 <= i < |rows| => EncodeStringList(rows[i])))
  }

  /** A list whose every element decodes to the matching value decodes to the list of those values. */
  lemma {:induction false} DecodeListAll<T>(elems: seq<Json>, decode: Json -> Result<T, string>, xs: seq<T>)
    requires |elems| == |xs|
    requires forall i :: 0 <= i < |xs| ==> decode(elems[i]) == Ok(xs[i])
    ensures DecodeList(elems, decode) == Ok(xs)
  {
    if xs != [] {
      DecodeListAll(elems[..|elems| - 1], decode, xs[..|xs| - 1]);
      assert xs[..|xs| - 1] + [xs[|xs| - 1]] == xs;
    }
  }

  lemma StringMapRoundTrip(m: map<string, string>)
    ensures DecodeStringMap(EncodeStringMap(m)) == Ok(m)
  {
    var fields := EncodeStringMap(m).fields;
    assert forall k | k in fields :: fields[k] == JString(m[k]);
    var back := map k | k in fields :: DecodeString(fields[k]).value;
    assert back.Keys == m.Keys;
    assert forall k | k in m :: back[k] == m[k];
    assert back == m;
    assert forall k | k in fields :: DecodeString(fields[k]).Ok?;
  }

  /** A `[]string` reads back as itself. */
  lemma StringListRoundTrip(xs: seq<string>)
    ensures DecodeStringList(EncodeStringList(xs)) == Ok(xs)
  {
    DecodeListAll(EncodeStringList(xs).elems, DecodeString, xs);
  }

  /** A `[][]string` reads back as itself. */
  lemma StringTableRoundTrip(rows: seq<seq<string>>)
    ensures DecodeArray(EncodeStringTable(rows), DecodeStringList) == Ok(rows)
  {
    forall i | 0 <= i < |rows| ensures DecodeStringList(EncodeStringTable(rows).elems[i]) == Ok(rows[i]) {
      StringListRoundTrip(rows[i]);
    }
    DecodeListAll(EncodeStringTable(rows).elems, DecodeStringList, rows);
  }
}
