/** The slice of `net/http` the client touches: header maps with `Set`, `Add` and
    `Values`, request targets, a request object whose header the transport edits
    in place, what one exchange with the server gives back, and the 2xx test. */
module Http {
  import opened Wrappers
  import opened Json

  newtype byte = x: int | 0 <= x < 256

  /** `http.Header`: a canonical header name to its values, in order. */
  type Header = map<string, seq<string>>

  /** `Header.Values`: the values under a key, none when it is absent. */
  function Values(h: Header, key: string): (vs: seq<string>)
    ensures key in h ==> vs == h[key]
    ensures key !in h ==> vs == []
  {
    if key in h then h[key] else []
  }

  /** `Header.Set`: the key ends up with exactly one value. */
  function SetHeader(h: Header, key: string, value: string): (r: Header)
    ensures Values(r, key) == [value]
    ensures forall k :: k != key ==> Values(r, k) == Values(h, k)
    ensures r.Keys == h.Keys + {key}
  {
    h[key := [value]]
  }

  /** `Header.Add`: the value goes after those already under the key. */
  function AddHeader(h: Header, key: string, value: string): (r: Header)
    ensures Values(r, key) == Values(h, key) + [value]
    ensures forall k :: k != key ==> Values(r, k) == Values(h, k)
    ensures r.Keys == h.Keys + {key}
  {
    h[key := Values(h, key) + [value]]
  }

  /** Two headers with the same keys and the same values under every key are equal. */
  lemma HeaderExtensionality(a: Header, b: Header)
    requires forall k :: k in a <==> k in b
    requires forall k :: Values(a, k) == Values(b, k)
    ensures a == b
  {
    forall k | k in a ensures a[k] == b[k] {
      assert Values(a, k) == Values(b, k);
    }
  }

  /** Where a request goes. `Raw` is a URL put together with `fmt.Sprintf`; `Parsed`
      is the base URL read by `url.Parse`, with its path replaced and its query set
      to the encoding of the given parameters. */
  datatype URL =
    | Raw(url: string)
    | Parsed(base: string, path: string, query: map<string, string>)

  /** What reading a whole response body yields. */
  datatype BodyRead = BodyBytes(bytes: seq<byte>) | ReadFailure(cause: string)

  /** What sending a request gives back: a transport error, or a status code and
      what reading the body would yield. */
  datatype Exchange =
    | DoFailed(cause: string)
    | Responded(StatusCode: int, body: BodyRead)

  /** An outgoing request. Only the header is changed after construction. */
  class Request {
    const Method: string
    const URL: URL
    /** The value `json.Marshal` serialises into the body, if there is one. */
    const Body: Option<Json>
    var Header: Header

    /** `http.NewRequest`: an empty header. */
    constructor (verb: string, url: URL, body: Option<Json>)
      ensures Method == verb && URL == url && Body == body && Header == map[]
    {
      Method, URL, Body := verb, url, body;
      Header := map[];
    }
  }

  /** Go's `/` on integers, which truncates toward zero. */
  function GoQuotient(a: int, b: int): (q: int)
    requires b > 0
    ensures a >= 0 ==> q * b <= a < q * b + b
    ensures a < 0 ==> q * b - b < a <= q * b
  {
    if a >= 0 then a / b else -((-a) / b)
  }

  /** `StatusCode/100 == 2`, the success test of push, flush, queries and labels. */
  predicate Is2xx(code: int)
    ensures Is2xx(code) <==> 200 <= code < 300
  {
    GoQuotient(code, 100) == 2
  }
}
