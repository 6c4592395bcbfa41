/** Decoding of query results: the `resultType` tag picks which of three result
    shapes the `result` payload is decoded into, and a vector sample is read from a
    two-element `value` array. `VectorValues` and `DataType` are the Go receivers
    whose `UnmarshalJSON` methods assign their fields step by step;
    `UnmarshalVector` and `DecodeDataInto` say what those methods compute. */
module Results {
  import opened Wrappers
  import opened Json
  import opened Errors

  const NanosPerSecond := 1_000_000_000

  /** `time.Time{}`, Go's zero time (January 1 of year 1, UTC), in nanoseconds since the Unix epoch. */
  const ZeroTime: int := -62_135_596_800 * NanosPerSecond

  /** A log stream: its labels and its `[timestamp, line]` pairs. */
  datatype StreamValues = StreamValues(Stream: map<string, string>, Values: seq<seq<string>>)

  /** A metric series: its labels and its `[timestamp, value]` pairs, kept as decoded. */
  datatype MatrixValues = MatrixValues(Metric: map<string, string>, Values: seq<seq<Json>>)

  /** The fields of a `VectorValues`, with `Time` in nanoseconds since the Unix epoch. */
  datatype VectorEntry = VectorEntry(Metric: map<string, string>, Time: int, Value: string)

  const ZeroVector := VectorEntry(map[], ZeroTime, "")

  /** The fields of a `DataType`. */
  datatype DataValue = DataValue(
    ResultType: string,
    Stream: seq<StreamValues>,
    Matrix: seq<MatrixValues>,
    Vector: seq<VectorEntry>)

  const EmptyData := DataValue("", [], [], [])

  /** `Response`: the status string and the data payload. */
  datatype Response = Response(Status: string, Data: DataValue)

  /** The receiver after an `UnmarshalJSON` call, and the error it returned. */
  datatype Unmarshalled<S> = Unmarshalled(state: S, err: Option<Error>)

  /** The three result types the decoder knows. */
  predicate IsResultType(tag: string)
  {
    tag == "streams" || tag == "matrix" || tag == "vector"
  }

  /** `json.Unmarshal` on an empty `json.RawMessage`, which is what a missing `result` leaves. */
  const EndOfInput := "unexpected end of JSON input"

  function LiftError<T>(r: Result<T, string>): (l: Result<T, Error>)
    ensures l.Ok? <==> r.Ok?
    ensures r.Ok? ==> l.value == r.value
  {
    match r
    case Ok(v) => Ok(v)
    case Err(e) => Err(JsonError(e))
  }

  function DecodeStreamValues(j: Json): (r: Result<StreamValues, string>)
    ensures j.JNull? ==> r == Ok(StreamValues(map[], []))
    ensures r.Ok? ==> j.JNull? || j.JObject?
    ensures j.JObject? && r.Ok? ==>
      DecodeStringMap(FieldOrNull(j.fields, "stream")) == Ok(r.value.Stream) &&
      DecodeArray(FieldOrNull(j.fields, "values"), DecodeStringList) == Ok(r.value.Values)
  {
    match j
    case JNull => Ok(StreamValues(map[], []))
    case JObject(fields) =>
      (match DecodeStringMap(FieldOrNull(fields, "stream"))
       case Err(e) => Err(e)
       case Ok(labels) =>
         match DecodeArray(FieldOrNull(fields, "values"), DecodeStringList)
         case Err(e) => Err(e)
         case Ok(values) => Ok(StreamValues(labels, values)))
    case _ => Err("cannot unmarshal into Go value of type client.StreamValues")
  }

  function DecodeMatrixValues(j: Json): (r: Result<MatrixValues, string>)
    ensures j.JNull? ==> r == Ok(MatrixValues(map[], []))
    ensures r.Ok? ==> j.JNull? || j.JObject?
    ensures j.JObject? && r.Ok? ==>
      DecodeStringMap(FieldOrNull(j.fields, "metric")) == Ok(r.value.Metric) &&
      DecodeArray(FieldOrNull(j.fields, "values"), DecodeAnyList) == Ok(r.value.Values)
  {
    match j
    case JNull => Ok(MatrixValues(map[], []))
    case JObject(fields) =>
      (match DecodeStringMap(FieldOrNull(fields, "metric"))
       case Err(e) => Err(e)
       case Ok(labels) =>
         match DecodeArray(FieldOrNull(fields, "values"), DecodeAnyList)
         case Err(e) => Err(e)
         case Ok(values) => Ok(MatrixValues(labels, values)))
    case _ => Err("cannot unmarshal into Go value of type client.MatrixValues")
  }

  /** `[]StreamValues` */
  function DecodeStreamList(j: Json): Result<seq<StreamValues>, Error>
  {
    LiftError(DecodeArray(j, DecodeStreamValues))
  }

  /** `[]MatrixValues` */
  function DecodeMatrixList(j: Json): Result<seq<MatrixValues>, Error>
  {
    LiftError(DecodeArray(j, DecodeMatrixValues))
  }

  /** The auxiliary struct of `VectorValues.UnmarshalJSON`: `metric` as a string
      map and `value` as `[]interface{}`. */
  function DecodeVectorFields(b: Json): (r: Result<(map<string, string>, seq<Json>), string>)
    ensures b.JNull? ==> r == Ok((map[], []))
    ensures r.Ok? ==> b.JNull? || b.JObject?
    ensures b.JObject? && r.Ok? ==>
      DecodeStringMap(FieldOrNull(b.fields, "metric")) == Ok(r.value.0) &&
      DecodeAnyList(FieldOrNull(b.fields, "value")) == Ok(r.value.1)
  {
    match b
    case JNull => Ok((map[], []))
    case JObject(fields) =>
      (match DecodeStringMap(FieldOrNull(fields, "metric"))
       case Err(e) => Err(e)
       case Ok(metric) =>
         match DecodeAnyList(FieldOrNull(fields, "value"))
         case Err(e) => Err(e)
         case Ok(value) => Ok((metric, value)))
    case _ => Err("cannot unmarshal into Go value of type struct")
  }

  /** What `VectorValues.UnmarshalJSON(b)` does to a receiver holding `prev`. */
  function UnmarshalVector(prev: VectorEntry, b: Json): (r: Unmarshalled<VectorEntry>)
    // A failure of the inner decode changes nothing.
    ensures DecodeVectorFields(b).Err? ==> r == Unmarshalled(prev, Some(JsonError(DecodeVectorFields(b).error)))
    // Otherwise Metric is assigned, whatever happens next.
    ensures DecodeVectorFields(b).Ok? ==> r.state.Metric == DecodeVectorFields(b).value.0
    // The only error after that is a value array of the wrong length, reported with its length.
    ensures DecodeVectorFields(b).Ok? ==>
      var n := |DecodeVectorFields(b).value.1|;
      (r.err.Some? <==> n != 2) && (n != 2 ==> r.err == Some(UnexpectedValueLength(n)))
    // Time and Value change only on success.
    ensures r.err.Some? ==> r.state.Time == prev.Time && r.state.Value == prev.Value
    // On success each is taken only from an element of the expected dynamic type.
    ensures r.err.None? ==> DecodeVectorFields(b).Ok? && |DecodeVectorFields(b).value.1| == 2
    ensures r.err.None? ==> var v := DecodeVectorFields(b).value.1;
      r.state.Time == (if v[0].JInt64? then v[0].i as int * NanosPerSecond else prev.Time) &&
      r.state.Value == (if v[1].JString? then v[1].s else prev.Value)
  {
    match DecodeVectorFields(b)
    case Err(e) => Unmarshalled(prev, Some(JsonError(e)))
    case Ok((metric, value)) =>
      var withMetric := prev.(Metric := metric);
      if |value| != 2 then
        Unmarshalled(withMetric, Some(UnexpectedValueLength(|value|)))
      else
        var withTime := if value[0].JInt64? then withMetric.(Time := value[0].i as int * NanosPerSecond) else withMetric;
        var withValue := if value[1].JString? then withTime.(Value := value[1].s) else withTime;
        Unmarshalled(withValue, None)
  }

  /** Decoding the elements of a vector result one by one, each into a zeroed
      `VectorValues`; the first failure is the error. */
  function DecodeVectors(elems: seq<Json>): (r: Result<seq<VectorEntry>, Error>)
    ensures r.Ok? ==> |r.value| == |elems|
    ensures r.Ok? ==> forall i :: 0 <= i < |elems| ==> UnmarshalVector(ZeroVector, elems[i]) == Unmarshalled(r.value[i], None)
  {
    if elems == [] then Ok([])
    else
      var first := UnmarshalVector(ZeroVector, elems[0]);
      if first.err.Some? then Err(first.err.value)
      else
        match DecodeVectors(elems[1..])
        case Err(e) => Err(e)
        case Ok(rest) => Ok([first.state] + rest)
  }

  /** `[]VectorValues` */
  function DecodeVectorList(j: Json): Result<seq<VectorEntry>, Error>
  {
    match j
    case JNull => Ok([])
    case JArray(elems) => DecodeVectors(elems)
    case _ => Err(JsonError("cannot unmarshal into Go value of type []client.VectorValues"))
  }

  /** The auxiliary struct of `DataType.UnmarshalJSON`: the `resultType` string and
      the raw `result`, absent when the key is missing. */
  function DecodeDataHeader(b: Json): (r: Result<(string, Option<Json>), string>)
    ensures b.JNull? ==> r == Ok(("", None))
    ensures r.Ok? <==> b.JNull? || (b.JObject? && DecodeString(FieldOrNull(b.fields, "resultType")).Ok?)
    ensures b.JObject? && r.Ok? ==>
      r.value.0 == DecodeString(FieldOrNull(b.fields, "resultType")).value &&
      (r.value.1.Some? <==> "result" in b.fields) &&
      (r.value.1.Some? ==> r.value.1.value == b.fields["result"])
  {
    match b
    case JNull => Ok(("", None))
    case JObject(fields) =>
      (match DecodeString(FieldOrNull(fields, "resultType"))
       case Err(e) => Err(e)
       case Ok(tag) => Ok((tag, if "result" in fields then Some(fields["result"]) else None)))
    case _ => Err("cannot unmarshal into Go value of type struct")
  }

  function DecodeRaw<T>(raw: Option<Json>, decode: Json -> Result<seq<T>, Error>): Result<seq<T>, Error>
  {
    match raw
    case None => Err(JsonError(EndOfInput))
    case Some(j) => decode(j)
  }

  /** What `DataType.UnmarshalJSON(b)` does to a receiver holding `prev`. */
  function DecodeDataInto(prev: DataValue, b: Json): (r: Unmarshalled<DataValue>)
    // A failure leaves the receiver as it was; in particular ResultType is not set.
    ensures r.err.Some? ==> r.state == prev
    // Success happens only for one of the three tags, which is what ResultType becomes.
    ensures r.err.None? ==>
      DecodeDataHeader(b).Ok? && IsResultType(r.state.ResultType) &&
      r.state.ResultType == DecodeDataHeader(b).value.0
    // Any other tag is reported by name.
    ensures DecodeDataHeader(b).Ok? && !IsResultType(DecodeDataHeader(b).value.0) ==>
      r.err == Some(UnknownResultType(DecodeDataHeader(b).value.0))
    // Only the field the tag selects is filled.
    ensures r.err.None? && r.state.ResultType != "streams" ==> r.state.Stream == prev.Stream
    ensures r.err.None? && r.state.ResultType != "matrix" ==> r.state.Matrix == prev.Matrix
    ensures r.err.None? && r.state.ResultType != "vector" ==> r.state.Vector == prev.Vector
  {
    match DecodeDataHeader(b)
    case Err(e) => Unmarshalled(prev, Some(JsonError(e)))
    case Ok((tag, raw)) =>
      if tag == "streams" then
        match DecodeRaw(raw, DecodeStreamList)
        case Err(e) => Unmarshalled(prev, Some(e))
        case Ok(s) => Unmarshalled(prev.(Stream := s, ResultType := tag), None)
      else if tag == "matrix" then
        match DecodeRaw(raw, DecodeMatrixList)
        case Err(e) => Unmarshalled(prev, Some(e))
        case Ok(m) => Unmarshalled(prev.(Matrix := m, ResultType := tag), None)
      else if tag == "vector" then
        match DecodeRaw(raw, DecodeVectorList)
        case Err(e) => Unmarshalled(prev, Some(e))
        case Ok(v) => Unmarshalled(prev.(Vector := v, ResultType := tag), None)
      else
        Unmarshalled(prev, Some(UnknownResultType(tag)))
  }

  /** `json.Unmarshal` of a whole query response into a zeroed `Response`: `data`,
      when present, goes through `DataType.UnmarshalJSON`, whose error wins over a
      mistyped `status`. */
  function DecodeResponse(j: Json): (r: Result<Response, Error>)
    // A failure in `data` is the error, whatever `status` holds.
    ensures j.JObject? && "data" in j.fields && DecodeDataInto(EmptyData, j.fields["data"]).err.Some? ==>
      r == Err(DecodeDataInto(EmptyData, j.fields["data"]).err.value)
    // A missing `data` leaves an empty DataType and is no error.
    ensures j.JObject? && "data" !in j.fields && FieldOrNull(j.fields, "status").JString? ==>
      r == Ok(Response(j.fields["status"].s, EmptyData))
    // On success the data is exactly what DataType.UnmarshalJSON produced.
    ensures r.Ok? && j.JObject? && "data" in j.fields ==> r.value.Data == DecodeDataInto(EmptyData, j.fields["data"]).state
    // An object decodes exactly when its `data`, if any, and its `status` both do.
    ensures j.JObject? ==> (r.Ok? <==>
      (("data" in j.fields ==> DecodeDataInto(EmptyData, j.fields["data"]).err.None?) &&
       DecodeString(FieldOrNull(j.fields, "status")).Ok?))
    // On success the status is the decoded `status` field.
    ensures r.Ok? && j.JObject? ==> DecodeString(FieldOrNull(j.fields, "status")) == Ok(r.value.Status)
  {
    match j
    case JNull => Ok(Response("", EmptyData))
    case JObject(fields) =>
      var data := if "data" in fields then DecodeDataInto(EmptyData, fields["data"]) else Unmarshalled(EmptyData, None);
      if data.err.Some? then Err(data.err.value)
      else
        (match DecodeString(FieldOrNull(fields, "status"))
         case Err(e) => Err(JsonError(e))
         case Ok(status) => Ok(Response(status, data.state)))
    case _ => Err(JsonError("cannot unmarshal into Go value of type client.Response"))
  }

  // Encodings of well-formed query results, as the server writes them, and what
  // decoding them yields.

  /** A sample's timestamp in seconds, with the dynamic type it reaches the client
      with: `FloatSeconds` is what `encoding/json` produces for every JSON number,
      `IntSeconds` is the `int64` the source tests for. */
  datatype Stamp = IntSeconds(whole: int64) | FloatSeconds(secs: real)

  /** A vector sample: labels, timestamp and value. */
  datatype Sample = Sample(metric: map<string, string>, stamp: Stamp, value: string)

  function EncodeStamp(t: Stamp): Json
  {
    match t
    case IntSeconds(n) => JInt64(n)
    case FloatSeconds(f) => JFloat64(f)
  }

  function EncodeSample(s: Sample): Json
  {
    JObject(map["metric" := EncodeStringMap(s.metric), "value" := JArray([EncodeStamp(s.stamp), JString(s.value)])])
  }

  /** A receiver holding `prev` after taking in `s`: labels and value always, the
      time only from an `int64` timestamp. */
  function SampleInto(prev: VectorEntry, s: Sample): VectorEntry
  {
    VectorEntry(s.metric, if s.stamp.IntSeconds? then s.stamp.whole as int * NanosPerSecond else prev.Time, s.value)
  }

  /** A sample taken into a zeroed receiver, as the slice decoder does. */
  function SampleEntry(s: Sample): VectorEntry
  {
    SampleInto(ZeroVector, s)
  }

  function EncodeStream(s: StreamValues): Json
  {
    JObject(map["stream" := EncodeStringMap(s.Stream), "values" := EncodeStringTable(s.Values)])
  }

  function EncodeMatrix(m: MatrixValues): Json
  {
    JObject(map["metric" := EncodeStringMap(m.Metric),
                "values" := JArray(seq(|m.Values|, i requires 0 <= i < |m.Values| => JArray(m.Values[i])))])
  }

  /** A query result of one of the three types. */
  datatype QueryResult =
    | StreamsResult(streams: seq<StreamValues>)
    | MatrixResult(series: seq<MatrixValues>)
    | VectorResult(samples: seq<Sample>)

  function Tag(q: QueryResult): string
  {
    match q
    case StreamsResult(_) => "streams"
    case MatrixResult(_) => "matrix"
    case VectorResult(_) => "vector"
  }

  function EncodeData(q: QueryResult): Json
  {
    var payload := match q
      case StreamsResult(ss) => JArray(seq(|ss|, i requires 0 <= i < |ss| => EncodeStream(ss[i])))
      case MatrixResult(ms) => JArray(seq(|ms|, i requires 0 <= i < |ms| => EncodeMatrix(ms[i])))
      case VectorResult(vs) => JArray(seq(|vs|, i requires 0 <= i < |vs| => EncodeSample(vs[i])));
    JObject(map["resultType" := JString(Tag(q)), "result" := payload])
  }

  /** A receiver holding `prev` after taking in `q`: the tag and the one matching field. */
  function Received(prev: DataValue, q: QueryResult): DataValue
  {
    match q
    case StreamsResult(ss) => prev.(ResultType := "streams", Stream := ss)
    case MatrixResult(ms) => prev.(ResultType := "matrix", Matrix := ms)
    case VectorResult(vs) => prev.(ResultType := "vector", Vector := seq(|vs|, i requires 0 <= i < |vs| => SampleEntry(vs[i])))
  }

  function EncodeResponse(status: string, q: QueryResult): Json
  {
    JObject(map["status" := JString(status), "data" := EncodeData(q)])
  }

  /** A sample reads back with its labels and its value; an `int64` timestamp is
      scaled to nanoseconds, a `float64` one leaves the time as it was. */
  lemma VectorRoundTrip(prev: VectorEntry, s: Sample)
    ensures UnmarshalVector(prev, EncodeSample(s)) == Unmarshalled(SampleInto(prev, s), None)
  {
    var fields := EncodeSample(s).fields;
    StringMapRoundTrip(s.metric);
    assert FieldOrNull(fields, "metric") == EncodeStringMap(s.metric);
    var vals := [EncodeStamp(s.stamp), JString(s.value)];
    assert FieldOrNull(fields, "value") == JArray(vals);
    DecodeListAll(vals, DecodeAny, vals);
    assert DecodeVectorFields(EncodeSample(s)) == Ok((s.metric, vals));
  }

  /** A sample as the server sends it, with a `float64` timestamp, decodes with its
      labels and value but with Go's zero time. */
  lemma ServerSampleHasZeroTime(metric: map<string, string>, t: real, value: string)
    ensures UnmarshalVector(ZeroVector, EncodeSample(Sample(metric, FloatSeconds(t), value)))
         == Unmarshalled(VectorEntry(metric, ZeroTime, value), None)
  {
    VectorRoundTrip(ZeroVector, Sample(metric, FloatSeconds(t), value));
  }

  /** A timestamp that arrives as a `float64`, which is how `encoding/json` decodes
      every number into `interface{}`, never reaches Time: it keeps the value it had. */
  lemma FloatTimestampIgnored(prev: VectorEntry, b: Json)
    requires DecodeVectorFields(b).Ok?
    requires |DecodeVectorFields(b).value.1| == 2 && DecodeVectorFields(b).value.1[0].JFloat64?
    ensures UnmarshalVector(prev, b).err.None?
    ensures UnmarshalVector(prev, b).state.Time == prev.Time
  {
  }

  /** Elements that each decode to the matching entry decode to the list of those entries. */
  lemma {:induction false} DecodeVectorsAll(elems: seq<Json>, xs: seq<VectorEntry>)
    requires |elems| == |xs|
    requires forall i :: 0 <= i < |xs| ==> UnmarshalVector(ZeroVector, elems[i]) == Unmarshalled(xs[i], None)
    ensures DecodeVectors(elems) == Ok(xs)
  {
    if xs != [] {
      assert UnmarshalVector(ZeroVector, elems[0]) == Unmarshalled(xs[0], None);
      DecodeVectorsAll(elems[1..], xs[1..]);
      assert [xs[0]] + xs[1..] == xs;
    }
  }

  lemma VectorsRoundTrip(vs: seq<Sample>)
    ensures DecodeVectors(seq(|vs|, i requires 0 <= i < |vs| => EncodeSample(vs[i])))
         == Ok(seq(|vs|, i requires 0 <= i < |vs| => SampleEntry(vs[i])))
  {
    var elems := seq(|vs|, i requires 0 <= i < |vs| => EncodeSample(vs[i]));
    var xs := seq(|vs|, i requires 0 <= i < |vs| => SampleEntry(vs[i]));
    forall i | 0 <= i < |vs| ensures UnmarshalVector(ZeroVector, elems[i]) == Unmarshalled(xs[i], None) {
      VectorRoundTrip(ZeroVector, vs[i]);
    }
    DecodeVectorsAll(elems, xs);
  }

  lemma StreamRoundTrip(s: StreamValues)
    ensures DecodeStreamValues(EncodeStream(s)) == Ok(s)
  {
    var fields := EncodeStream(s).fields;
    StringMapRoundTrip(s.Stream);
    StringTableRoundTrip(s.Values);
    assert FieldOrNull(fields, "stream") == EncodeStringMap(s.Stream);
    assert FieldOrNull(fields, "values") == EncodeStringTable(s.Values);
  }

  lemma MatrixRoundTrip(m: MatrixValues)
    ensures DecodeMatrixValues(EncodeMatrix(m)) == Ok(m)
  {
    var fields := EncodeMatrix(m).fields;
    StringMapRoundTrip(m.Metric);
    var rows := seq(|m.Values|, i requires 0 <= i < |m.Values| => JArray(m.Values[i]));
    assert FieldOrNull(fields, "metric") == EncodeStringMap(m.Metric);
    assert FieldOrNull(fields, "values") == JArray(rows);
    forall i | 0 <= i < |rows| ensures DecodeAnyList(rows[i]) == Ok(m.Values[i]) {
      DecodeListAll(m.Values[i], DecodeAny, m.Values[i]);
    }
    DecodeListAll(rows, DecodeAnyList, m.Values);
  }

  lemma DataHeaderOf(q: QueryResult)
    ensures DecodeDataHeader(EncodeData(q)) == Ok((Tag(q), Some(EncodeData(q).fields["result"])))
  {
    assert FieldOrNull(EncodeData(q).fields, "resultType") == JString(Tag(q));
  }

  lemma StreamsDecode(ss: seq<StreamValues>)
    ensures DecodeStreamList(JArray(seq(|ss|, i requires 0 <= i < |ss| => EncodeStream(ss[i])))) == Ok(ss)
  {
    var elems := seq(|ss|, i requires 0 <= i < |ss| => EncodeStream(ss[i]));
    forall i | 0 <= i < |ss| ensures DecodeStreamValues(elems[i]) == Ok(ss[i]) {
      StreamRoundTrip(ss[i]);
    }
    DecodeListAll(elems, DecodeStreamValues, ss);
  }

  lemma MatrixDecode(ms: seq<MatrixValues>)
    ensures DecodeMatrixList(JArray(seq(|ms|, i requires 0 <= i < |ms| => EncodeMatrix(ms[i])))) == Ok(ms)
  {
    var elems := seq(|ms|, i requires 0 <= i < |ms| => EncodeMatrix(ms[i]));
    forall i | 0 <= i < |ms| ensures DecodeMatrixValues(elems[i]) == Ok(ms[i]) {
      MatrixRoundTrip(ms[i]);
    }
    DecodeListAll(elems, DecodeMatrixValues, ms);
  }

  /** A well-formed result of any type fills exactly the field its tag names. */
  lemma DataRoundTrip(prev: DataValue, q: QueryResult)
    ensures DecodeDataInto(prev, EncodeData(q)) == Unmarshalled(Received(prev, q), None)
  {
    DataHeaderOf(q);
    match q
    case StreamsResult(ss) => StreamsDecode(ss);
    case MatrixResult(ms) => MatrixDecode(ms);
    case VectorResult(vs) => VectorsRoundTrip(vs);
  }

  /** `DataType.UnmarshalJSON` never succeeds without a `result` key, for any known tag. */
  lemma MissingResultFails(prev: DataValue, tag: string)
    requires IsResultType(tag)
    ensures DecodeDataInto(prev, JObject(map["resultType" := JString(tag)]))
         == Unmarshalled(prev, Some(JsonError(EndOfInput)))
  {
    var b := JObject(map["resultType" := JString(tag)]);
    assert FieldOrNull(b.fields, "resultType") == JString(tag);
    assert DecodeDataHeader(b) == Ok((tag, None));
  }

  /** A well-formed response reads back with its status and its data. */
  lemma ResponseRoundTrip(status: string, q: QueryResult)
    ensures DecodeResponse(EncodeResponse(status, q)) == Ok(Response(status, Received(EmptyData, q)))
  {
    var fields := EncodeResponse(status, q).fields;
    assert fields["data"] == EncodeData(q);
    DataRoundTrip(EmptyData, q);
    assert FieldOrNull(fields, "status") == JString(status);
  }

  /** `VectorValues`, the receiver of a vector sample's decoding. */
  class VectorValues {
    var Metric: map<string, string>
    var Time: int
    var Value: string

    function Entry(): VectorEntry
      reads this
    {
      VectorEntry(Metric, Time, Value)
    }

    /** A zeroed `VectorValues`, as the decoder allocates for each slice element. */
    constructor ()
      ensures Entry() == ZeroVector
    {
      Metric, Time, Value := map[], ZeroTime, "";
    }

    /** `VectorValues.UnmarshalJSON`: Metric is assigned before the length check;
        Time only when element 0 is an `int64` (seconds), Value only when element 1
        is a string. */
    method UnmarshalJSON(b: Json) returns (err: Option<Error>)
      modifies this
      ensures Unmarshalled(Entry(), err) == UnmarshalVector(old(Entry()), b)
    {
      var s := DecodeVectorFields(b);
      if s.Err? {
        return Some(JsonError(s.error));
      }
      Metric := s.value.0;
      var value := s.value.1;
      if |value| != 2 {
        return Some(UnexpectedValueLength(|value|));
      }
      if value[0].JInt64? {
        Time := value[0].i as int * NanosPerSecond;
      }
      if value[1].JString? {
        Value := value[1].s;
      }
      return None;
    }
  }

  function PrependOk(done: seq<VectorEntry>, rest: Result<seq<VectorEntry>, Error>): Result<seq<VectorEntry>, Error>
  {
    match rest
    case Ok(xs) => Ok(done + xs)
    case Err(e) => Err(e)
  }

  /** One step of `DecodeVectors` at position `i`. */
  lemma DecodeVectorsStep(elems: seq<Json>, i: nat)
    requires i < |elems|
    ensures var first := UnmarshalVector(ZeroVector, elems[i]);
      DecodeVectors(elems[i..]) ==
        if first.err.Some? then Err(first.err.value)
        else PrependOk([first.state], DecodeVectors(elems[i + 1..]))
  {
    assert elems[i..][0] == elems[i];
    assert elems[i..][1..] == elems[i + 1..];
  }

  lemma PrependOkNothing(rest: Result<seq<VectorEntry>, Error>)
    ensures PrependOk([], rest) == rest
  {
    if rest.Ok? {
      assert [] + rest.value == rest.value;
    }
  }

  lemma PrependOkOne(done: seq<VectorEntry>, x: VectorEntry, rest: Result<seq<VectorEntry>, Error>)
    ensures PrependOk(done, PrependOk([x], rest)) == PrependOk(done + [x], rest)
  {
    if rest.Ok? {
      assert done + ([x] + rest.value) == (done + [x]) + rest.value;
    }
  }

  /** The decoder's loop over a vector result's elements: a zeroed `VectorValues`
      per element, decoded by its own `UnmarshalJSON`; the first error stops it. */
  method UnmarshalVectorSlice(elems: seq<Json>) returns (r: Result<seq<VectorEntry>, Error>)
    ensures r == DecodeVectors(elems)
  {
    var done: seq<VectorEntry> := [];
    assert elems[0..] == elems;
    PrependOkNothing(DecodeVectors(elems));
    for i := 0 to |elems|
      invariant PrependOk(done, DecodeVectors(elems[i..])) == DecodeVectors(elems)
    {
      var v := new VectorValues();
      var err := v.UnmarshalJSON(elems[i]);
      DecodeVectorsStep(elems, i);
      if err.Some? {
        return Err(err.value);
      }
      PrependOkOne(done, v.Entry(), DecodeVectors(elems[i + 1..]));
      done := done + [v.Entry()];
    }
    assert elems[|elems|..] == [];
    assert done + [] == done;
    return Ok(done);
  }

  /** `json.Unmarshal(s.Result, &a.Vector)`: a missing result, `null`, an array
      (decoded element by element) or anything else. */
  method UnmarshalVectorResult(raw: Option<Json>) returns (v: Result<seq<VectorEntry>, Error>)
    ensures v == DecodeRaw(raw, DecodeVectorList)
  {
    if raw == None {
      v := Err(JsonError(EndOfInput));
    } else if raw.value.JArray? {
      v := UnmarshalVectorSlice(raw.value.elems);
    } else {
      v := DecodeVectorList(raw.value);
    }
  }

  /** `DataType`, the receiver of a query result's decoding. */
  class DataType {
    var ResultType: string
    var Stream: seq<StreamValues>
    var Matrix: seq<MatrixValues>
    var Vector: seq<VectorEntry>

    function Data(): DataValue
      reads this
    {
      DataValue(ResultType, Stream, Matrix, Vector)
    }

    constructor ()
      ensures Data() == EmptyData
    {
      ResultType, Stream, Matrix, Vector := "", [], [], [];
    }

    /** `DataType.UnmarshalJSON`: reads the tag, decodes `result` into the field it
        selects, and sets ResultType last. */
    method UnmarshalJSON(b: Json) returns (err: Option<Error>)
      modifies this
      ensures Unmarshalled(Data(), err) == DecodeDataInto(old(Data()), b)
    {
      var header := DecodeDataHeader(b);
      if header.Err? {
        return Some(JsonError(header.error));
      }
      var tag, raw := header.value.0, header.value.1;
      if tag == "streams" {
        var s := DecodeRaw(raw, DecodeStreamList);
        if s.Err? {
          return Some(s.error);
        }
        Stream := s.value;
      } else if tag == "matrix" {
        var m := DecodeRaw(raw, DecodeMatrixList);
        if m.Err? {
          return Some(m.error);
        }
        Matrix := m.value;
      } else if tag == "vector" {
        var v := UnmarshalVectorResult(raw);
        if v.Err? {
          return Some(v.error);
        }
        Vector := v.value;
      } else {
        return Some(UnknownResultType(tag));
      }
      ResultType := tag;
      return None;
    }
  }
}
