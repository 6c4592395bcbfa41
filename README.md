# Loki test client, modelled in Dafny

This project models the HTTP test client of a Loki/Cortex log service
(`integration/client/client.go`). The client pushes log lines, flushes the
ingesters, reads the metrics page, runs instant and range queries, and lists
labels. The model covers:

- **Header shaping.** The authenticating transport sets the tenant header
  `X-Scope-OrgID`. It sets basic auth when a token is configured. Then it
  appends every injected header value. `New` picks the injected headers from
  its options.
- **The push payload.** The labels are `{job: "varlog"}` overlaid by the
  extra label maps, in order. The payload holds a single
  `[nanosecond timestamp, line]` pair.
- **The tagged decoding of query results.** `resultType` picks whether
  `result` is read as streams, a matrix or a vector. Vector samples are read
  from two-element `value` arrays.
- **Status and error decisions.** Each endpoint decides success by its own
  status rule and reports its own errors.

Modules, one per file:

| module | file | contents |
|---|---|---|
| `Wrappers` | `wrappers.dfy` | `Option`, `Result` |
| `Decimal` | `decimal.dfy` | `strconv.FormatInt` in base 10, and a parser as its inverse |
| `Json` | `json.dfy` | An abstract JSON value. Numbers carry their Go dynamic type: `int64` or `float64`. It also holds the `encoding/json` decodings and encodings the client relies on, with their round trips. |
| `Http` | `http.dfy` | Header maps with `Set`, `Add` and `Values`. Request targets. The request object. The result of one exchange. The test `StatusCode/100 == 2`, with Go's truncating division. |
| `Errors` | `errors.dfy` | The client's errors, and the texts of those the client formats itself |
| `Transport` | `transport.dfy` | `roundTripper` as a class. `RoundTrip` edits the request header in place, in the same nested loops as the source. It is proved against the header function `ShapedHeader`. |
| `Results` | `results.dfy` | `VectorValues` and `DataType` as classes whose `UnmarshalJSON` assigns fields step by step. They are proved against pure decoders `UnmarshalVector` and `DecodeDataInto`. Encoders for well-formed results, and round trips through them. |
| `LokiClient` | `client.dfy` | The options and `New`, the push body, the query time parameters, and the outcome of every endpoint. The `Client` class holds one method per endpoint. |

What the client gets back from the network is a parameter `reply: Exchange`
on every endpoint method. It is either the transport's error, or a status code
plus what reading the body yields. The JSON parser is also a parameter,
`parse`, and so is `url.PathEscape`.

Times are integer nanoseconds since the Unix epoch. Go's zero `time.Time`
(year 1, January 1, UTC) is `Results.ZeroTime`.

Two points of the code worth stating:

- `Metrics` succeeds only on status 200 (`client.go:182`). Push and Flush
  test `StatusCode/100 == 2` (`client.go:147`, `client.go:203`), both
  queries do so in `parseResponse` (`client.go:331`), and both label
  endpoints test `StatusCode/100 != 2` (`client.go:367`, `client.go:396`).
  `Get` returns the response whatever its status (`client.go:160-167`),
  and `run` returns the body and the code whatever the status
  (`client.go:419-437`).
- The token is sent as HTTP basic auth, with the tenant ID as the user name
  (`client.go:26`).

A decoding note: `encoding/json` decodes every JSON number held in an
`interface{}` as a `float64`. So the `int64` type assertion in
`VectorValues.UnmarshalJSON` never matches server output, and `Time` keeps its
zero value. The model keeps the check as written, with a dynamic-type tag on
numbers. `Results.FloatTimestampIgnored` and `Results.ServerSampleHasZeroTime`
state what then happens. The round trips cover both: a `Results.Sample`
carries its timestamp as either an `int64` or a `float64`.

## Model

| member | source | states |
|---|---|---|
| Http.Values | integration/client/client.go:34 | `Values` gives the values stored under a key, and none for an absent key |
| Http.SetHeader | integration/client/client.go:24 | `Set` leaves exactly the one value under its key and changes no other key |
| Http.AddHeader | integration/client/client.go:31 | `Add` appends the value after the key's existing values and changes no other key |
| Http.Request.constructor | integration/client/client.go:134 | A new request has the given method, target and body, and an empty header |
| Http.GoQuotient | integration/client/client.go:147 | Go's integer `/` truncates toward zero, for either sign of the dividend |
| Http.Is2xx | integration/client/client.go:147 | `StatusCode/100 == 2` holds exactly for the codes 200 to 299 |
| Decimal.FormatNat | integration/client/client.go:96 | The decimal rendering of a natural is a non-empty digit string with no leading zero |
| Decimal.FormatInt | integration/client/client.go:96 | A '-' sign appears exactly for negative numbers and is followed by digits |
| Decimal.ParseFormatNat | integration/client/client.go:96 | Reading the digits of a rendered natural gives it back |
| Decimal.ParseFormatInt | integration/client/client.go:96 | Parsing the rendering of any integer gives it back |
| Decimal.FormatIntInjective | integration/client/client.go:96 | Distinct integers have distinct renderings |
| Json.DecodeString | integration/client/client.go:260 | A string field decodes from a JSON string, to that string, or from null, to "". Nothing else decodes. |
| Json.DecodeStringMap | integration/client/client.go:230 | A `map[string]string` decodes from null, or from an object whose every value decodes as a string. It has exactly the object's keys, each mapped to its decoded value. |
| Json.DecodeList | integration/client/client.go:231 | A decoded slice has one element per array element, each the decoding of that element |
| Json.DecodeListAll | integration/client/client.go:231 | An array whose elements each decode to given values decodes to the list of those values |
| Json.StringMapRoundTrip | integration/client/client.go:100 | A string map reads back as itself after `json.Marshal` |
| Json.StringListRoundTrip | integration/client/client.go:372 | A string list reads back as itself |
| Json.StringTableRoundTrip | integration/client/client.go:101 | A `[][]string` reads back as itself |
| Errors.Message | integration/client/client.go:154-157 | Each error the client formats starts with its fixed text. These are "reading request failed with status code ", "request failed with status code " (lines 157, 183, 206, 334 and 434), "unknown result type " (281), "unexpected value length " (238), "error parsing response data: " (328) and "Unexpected status code of " (368). |
| Errors.StatusCodeNamed | integration/client/client.go:154-157 | Every error that reports a status code names it in its text |
| Errors.BytesText | integration/client/client.go:157 | `string(buf)` has one character per byte, with that byte's value |
| Errors.StatusWithBodyMessage | integration/client/client.go:157 | The status error's text contains the status code and ends with the response body |
| Errors.DecodeErrorMessages | integration/client/client.go:228-285 | The unknown-type error ends with the tag, and the length error's number parses back to the length |
| Transport.Injected | integration/client/client.go:29-33 | Each key's injected values come after its existing ones, and new keys appear only when they have values |
| Transport.ShapedHeader | integration/client/client.go:24-35 | `X-Scope-OrgID` becomes the tenant ID followed by any injected values. `Authorization` is replaced by basic auth iff the token is non-empty. Every other key gets its injected values appended after its own. No key appears that was not present, set or injected. |
| Transport.NoTokenNoAuthorization | integration/client/client.go:25-27 | With an empty token, no `Authorization` is added unless one was already present or injected |
| Transport.AddAll | integration/client/client.go:30-32 | Adding a list of values appends them all, in order, under one key |
| Transport.Visited | integration/client/client.go:29 | The injected headers restricted to the keys visited so far |
| Transport.VisitOneMore | integration/client/client.go:29-33 | Visiting one more key appends exactly that key's values |
| Transport.RoundTripper.constructor | integration/client/client.go:61-65 | A transport starts with the tenant, the token and no injected headers |
| Transport.RoundTripper.RoundTrip | integration/client/client.go:23-38 | The header left on the request is `ShapedHeader` of the one it came with, and the next transport's answer is returned unchanged |
| Transport.RoundTripper.AppendInjected | integration/client/client.go:29-35 | The loop over the injected keys, in any visiting order, appends every injected value |
| Transport.RoundTripper.AddValues | integration/client/client.go:30-32 | The inner loop calls `Add` for each value, in order |
| Results.LiftError | integration/client/client.go:269-278 | The library's error becomes the client's error; successes pass through |
| Results.DecodeStreamValues | integration/client/client.go:209-213 | A stream decodes from null, as empty, or from an object. Its labels come from `stream` and its pairs from `values`. |
| Results.DecodeMatrixValues | integration/client/client.go:215-219 | A series decodes from null, as empty, or from an object. Its labels come from `metric` and its pairs from `values`. |
| Results.DecodeVectorFields | integration/client/client.go:229-235 | The auxiliary struct decodes from null, with no labels and no values, or from an object. `metric` decodes as a string map and `value` as a list. |
| Results.DecodeDataHeader | integration/client/client.go:259-265 | The auxiliary struct decodes exactly when `resultType` is a string or null. The raw `result` is present exactly when the key is. Null gives the tag "" and no result. |
| Results.UnmarshalVector | integration/client/client.go:228-247 | An inner decode failure changes nothing. Otherwise `Metric` is assigned first, and a `value` of length N ≠ 2 gives `unexpected value length N` with `Time` and `Value` untouched. On success, `Time` is seconds times 10^9 only when element 0 is an `int64`, and `Value` is set only when element 1 is a string. |
| Results.VectorValues.constructor | integration/client/client.go:222-226 | A fresh receiver holds no labels, Go's zero time and an empty value |
| Results.VectorValues.UnmarshalJSON | integration/client/client.go:228-247 | The step-by-step assignments leave exactly the state and error that `UnmarshalVector` describes |
| Results.DecodeVectors | integration/client/client.go:277 | On success, each element decoded into a zeroed receiver gives the matching entry |
| Results.DecodeVectorsStep | integration/client/client.go:277 | Stepping from one element of a vector result to the next |
| Results.UnmarshalVectorSlice | integration/client/client.go:276-279 | The decoder's loop over a vector result computes `DecodeVectors` and stops at the first error |
| Results.UnmarshalVectorResult | integration/client/client.go:276-279 | Decoding `result` into the vector field, with a missing `result` failing as end of input |
| Results.DecodeDataInto | integration/client/client.go:257-285 | A failure leaves the receiver as it was, with `ResultType` unset. Success needs one of `streams`, `matrix` or `vector`, and sets `ResultType` to it. Any other tag gives `unknown result type <tag>`. Only the field the tag selects changes. |
| Results.DataType.constructor | integration/client/client.go:250-255 | A fresh receiver is empty |
| Results.DataType.UnmarshalJSON | integration/client/client.go:257-285 | The method leaves exactly the state and error that `DecodeDataInto` describes |
| Results.DecodeResponse | integration/client/client.go:287-291 | An error from `data` wins over a mistyped `status`. A missing `data` is no error. An object decodes exactly when its `data`, if present, and its `status` both decode. On success the status is the decoded `status` and the data is what `DataType.UnmarshalJSON` produced. |
| Results.VectorRoundTrip | integration/client/client.go:228-247 | A sample reads back with its labels and value. An `int64` timestamp becomes seconds times 10^9. A `float64` one leaves the receiver's time as it was. |
| Results.ServerSampleHasZeroTime | integration/client/client.go:240-242 | A sample as `encoding/json` delivers it, with a `float64` timestamp, decodes into a zeroed receiver with Go's zero time |
| Results.FloatTimestampIgnored | integration/client/client.go:240-242 | A `float64` timestamp is no error and never reaches `Time` |
| Results.DecodeVectorsAll | integration/client/client.go:276-279 | Elements that each decode to an entry decode to the list of those entries |
| Results.VectorsRoundTrip | integration/client/client.go:276-279 | A list of samples of either timestamp type reads back as their entries, each taken into a zeroed receiver |
| Results.StreamRoundTrip | integration/client/client.go:209-213 | A stream reads back as itself |
| Results.MatrixRoundTrip | integration/client/client.go:215-219 | A matrix series reads back as itself |
| Results.DataHeaderOf | integration/client/client.go:259-265 | An encoded result yields its tag and its raw `result` |
| Results.StreamsDecode | integration/client/client.go:268-271 | An encoded list of streams decodes to itself |
| Results.MatrixDecode | integration/client/client.go:272-275 | An encoded list of series decodes to itself |
| Results.DataRoundTrip | integration/client/client.go:257-285 | A well-formed result of any of the three types sets the tag and exactly its own field |
| Results.MissingResultFails | integration/client/client.go:259-279 | With a known tag but no `result`, decoding fails as end of input and nothing changes |
| Results.ResponseRoundTrip | integration/client/client.go:287-291 | A well-formed response reads back with its status and data |
| LokiClient.ClientOption.Type | integration/client/client.go:46-48 | An `InjectHeadersOption` reports "headerinject", and any other option reports its own type name |
| LokiClient.SelectedInjectHeaders | integration/client/client.go:67-72 | The injected headers are either none or the headers of some `InjectHeadersOption` |
| LokiClient.NoInjectOption | integration/client/client.go:67-72 | Without header-injection options, nothing is injected |
| LokiClient.LastInjectOptionWins | integration/client/client.go:67-72 | The last header-injection option wins over earlier ones, and foreign options are ignored |
| LokiClient.SelectedStep | integration/client/client.go:67-72 | One more option replaces the choice only when it is a header injection |
| LokiClient.ApplyOptions | integration/client/client.go:67-72 | The option loop panics exactly when some option claims to be a header injection and is not one. Otherwise it leaves the last header injection's headers. |
| LokiClient.New | integration/client/client.go:60-82 | A client is returned, `null` standing for the panic, exactly when no option panics. Its transport carries the tenant, the token and the selected headers. |
| LokiClient.FormatTS | integration/client/client.go:95-97 | The timestamp string parses back to the nanosecond count |
| LokiClient.InstantQueryParams | integration/client/client.go:305-307 | The instant query sends the query text and `time` = now + 10^9 ns, and nothing else |
| LokiClient.RangeQueryParams | integration/client/client.go:338-341 | The range query sends the query text, `start` = now − 7200·10^9 ns and `end` = now + 10^9 ns, and nothing else |
| LokiClient.RangeWindow | integration/client/client.go:337-341 | The range ends at the instant query's time, spans 2 h + 1 s around now, and no time parameter depends on the query text |
| LokiClient.Overlay | integration/client/client.go:119-124 | A label is present exactly when the base map or some extra map has it |
| LokiClient.OverlayLastWins | integration/client/client.go:119-124 | A label takes the value of the last extra map that has it |
| LokiClient.OverlayKeepsBase | integration/client/client.go:108-124 | A label in no extra map keeps its base value |
| LokiClient.BuildStream | integration/client/client.go:108-124 | The nested copy loop, in any key order, produces the overlaid labels and the one `[formatTS(timestamp), line]` pair |
| LokiClient.CopyOneMore | integration/client/client.go:121-123 | Copying one more label moves it from pending to copied |
| LokiClient.PushBody | integration/client/client.go:126-130 | The body is an object whose only key is `streams`, holding exactly one encoded stream |
| LokiClient.PushBodyRoundTrip | integration/client/client.go:126-130 | The push body reads back as exactly the one stream |
| LokiClient.PushedLine | integration/client/client.go:105-130 | The pushed body holds one stream with one pair. The pair's timestamp parses back and its line is the line. The labels have `job`, which is `varlog` unless overridden, and are exactly `{job: varlog}` with no extra maps. |
| LokiClient.PushOutcome | integration/client/client.go:142-157 | A push succeeds exactly on 2xx. Otherwise the error holds the status and the body, or the status and the read failure. |
| LokiClient.PushRejection | integration/client/client.go:152-157 | A rejected push's error text contains the status code and ends with the body |
| LokiClient.FlushOutcome | integration/client/client.go:197-206 | A flush succeeds exactly on 2xx. Otherwise the error carries the status. |
| LokiClient.FlushIgnoresBody | integration/client/client.go:197-206 | A flush's outcome does not depend on the body |
| LokiClient.MetricsOutcome | integration/client/client.go:170-186 | Metrics succeed only on exactly 200 with a readable body, and return the body verbatim. A read failure is reported before the status. |
| LokiClient.MetricsStricterThanFlush | integration/client/client.go:182-206 | Every 2xx other than 200 is a successful flush but a failed metrics read, whatever the body |
| LokiClient.RunOutcome | integration/client/client.go:419-438 | `run` returns the body and status whatever the status. A read failure gives the status and the cause. |
| LokiClient.ParseResponse | integration/client/client.go:324-335 | Decoding comes first, and its failure is reported whatever the status. Success needs a decoded body and a 2xx status. A decoded body with another status gives the status and the raw body. |
| LokiClient.ErrorPageReportedAsDecodeFailure | integration/client/client.go:324-329 | An unparsable body is reported as a decoding failure even on an error status |
| LokiClient.QueryOutcome | integration/client/client.go:294-301 | A transport failure or a read failure ends the query before decoding. A read body goes to `parseResponse` with its status. Success needs 2xx. |
| LokiClient.QueryRoundTrip | integration/client/client.go:294-335 | A 2xx answer holding a well-formed response yields its status and data. A vector result with `float64` timestamps comes back with its labels and values, each at Go's zero time. |
| LokiClient.DecodeLabelData | integration/client/client.go:371-377 | The label list is the object's `data` field, and is empty without one |
| LokiClient.LabelsOutcome | integration/client/client.go:367-378 | A non-2xx status fails before the body is looked at. Success exactly when the status is 2xx and the body reads, parses and decodes, and then the result is the decoded `data`. A read failure is reported as such. |
| LokiClient.LabelsRejection | integration/client/client.go:367-368 | A rejected label request names the status code, whatever the body |
| LokiClient.LabelsRoundTrip | integration/client/client.go:371-378 | A 2xx answer whose object holds `data: names`, with any other keys, yields exactly `names`, in order |
| LokiClient.Client.constructor | integration/client/client.go:74-81 | The client keeps the clock value, the transport, the base URL and the tenant |
| LokiClient.Client.NewRequest | integration/client/client.go:410-417 | `request` builds a body-less request whose header has only the tenant |
| LokiClient.Client.PushLine | integration/client/client.go:105-158 | The push POSTs the one-stream body to `/loki/api/v1/push`. It leaves with the content type and tenant, shaped by the transport. Its error is `PushOutcome`. |
| LokiClient.Client.PushLogLine | integration/client/client.go:85-87 | A push stamped with the client's `Now` |
| LokiClient.Client.PushLogLineWithTimestamp | integration/client/client.go:91-93 | A push stamped with the given time |
| LokiClient.Client.Get | integration/client/client.go:160-167 | A GET of the base URL plus the path, shaped by the transport, whose answer is returned as is |
| LokiClient.Client.Metrics | integration/client/client.go:170-186 | The metrics GET carries no header at all, because it bypasses the transport. Its result is `MetricsOutcome`. |
| LokiClient.Client.Flush | integration/client/client.go:189-207 | The flush POSTs with tenant and content type, shaped by the transport. Its error is `FlushOutcome`. |
| LokiClient.Client.Run | integration/client/client.go:419-438 | `run` GETs the URL with the tenant header, and its result is `RunOutcome` |
| LokiClient.Client.RangeQueryURL | integration/client/client.go:337-351 | The range-query path on the base URL. `start` parses back to `Now` − 2 h and `end` to `Now` + 1 s. |
| LokiClient.Client.InstantQueryURL | integration/client/client.go:304-314 | The instant-query path on the base URL. `time` parses back to `Now` + 1 s. |
| LokiClient.Client.RunRangeQuery | integration/client/client.go:294-301 | A GET of the range-query URL, whose result is `run` followed by `parseResponse` |
| LokiClient.Client.RunQuery | integration/client/client.go:304-322 | A GET of the instant-query URL, whose result is `run` followed by `parseResponse` |
| LokiClient.Client.LabelNames | integration/client/client.go:353-379 | A GET of `/loki/api/v1/labels` with the tenant header, whose result is `LabelsOutcome` |
| LokiClient.Client.LabelValues | integration/client/client.go:382-408 | A GET of `/loki/api/v1/label/<escaped name>/values`, whose result is `LabelsOutcome` |

## Left out

- HTTP I/O. `httpClient.Do`, `http.Get`, `io.ReadAll`, `io.Copy` and body closing are replaced by the parameter `reply`, which is what sending the request and reading its body gives back. Timeouts and connection reuse belong to `net/http`. So does the basic auth `http.Client.Do` adds from a user name and password in the URL: with an empty token `ShapedHeader` leaves Authorization as it was, but `Do` may still set it from the URL.
- JSON syntax. Parsing is the parameter `parse`. `json.Marshal` is modelled on the abstract JSON value, not as text. The texts of `encoding/json`'s own errors are not modelled (`JsonError` carries a placeholder).
- `json.NewDecoder(...).Decode` reads only the first JSON value of a label body. That is left to `parse`.
- `url.Parse`, `url.Values.Encode` and `url.PathEscape`. A parsed URL keeps the base, the path and the parameter map, and `PathEscape` is a parameter. The error `RunQuery` returns, and the panic in `rangeQueryURL`, for a malformed base URL are not modelled. Nor is the error `http.NewRequest` returns for one.
- Header key canonicalisation by `Header.Set`/`Add`: keys are used as written.
- The base64 encoding inside `SetBasicAuth`: `BasicAuth` keeps `user:password` as it is.
- The debug `fmt.Println` in `RoundTrip`.
- `time.Now()` in `New`: the clock value is the parameter `now`.
- Concurrent use of a client, and concurrent changes to `Now`.
- Transport.BasicAuth: does not model base64, for the reason above.
- Results.DecodeDataInto: on an error it keeps the receiver's earlier slices. Go may leave partly decoded content in `Stream`, `Matrix` or `Vector`. Callers discard the receiver on error.
- Results.DecodeDataInto: a non-empty receiver's slices are replaced. Go reuses their elements and merges maps into them. The client only decodes into zeroed receivers.
- Go's case-insensitive matching of JSON keys to struct fields: keys must match the lower-case names the server sends.
- Overflow of `UnixNano`, which is undefined outside the years 1678 to 2262: timestamps are unbounded integers.
- Errors.Message: a `TransportError` prints only its cause. `http.Client.Do` and `http.Get` wrap every transport error in a `*url.Error`, which prints the method, the quoted URL, then the cause. That wrapping and Go's `%q` quoting are not modelled. `RoundTrip` returns the next transport's answer as what `Do` returns.
- Go strings are bytes, but lines, labels and header values here are Dafny strings of characters. `Errors.BytesText` reads one character per byte. So a body holding UTF-8 text is not equal to the Dafny string with the same text, and no UTF-8 encoding or decoding is modelled.
- LokiClient.New: the transport gets a copy of the option's header map. In Go it shares the caller's map, so later changes to that map show up in every later `RoundTrip`. That aliasing is not modelled.
- LokiClient.New: a nil option makes `opt.Type()` panic. The model has no nil option.
- Numbers inside matrix values stay abstract JSON values, with no `float64` arithmetic.
