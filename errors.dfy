/** The errors the client returns, and the texts of those it formats itself. Errors
    passed through from `encoding/json` and `net/http` keep only their cause. */
module Errors {
  import opened Wrappers
  import opened Decimal
  import opened Http

  datatype Error =
    /** An error from `encoding/json` (a syntax error or a type mismatch); its
        text is the library's and is not modelled. */
    | JsonError(detail: string)
    /** Any other result type tag. */
    | UnknownResultType(resultType: string)
    /** A vector sample whose `value` array does not have two elements. */
    | UnexpectedValueLength(length: nat)
    /** A query response that could not be decoded. */
    | ParsingResponseData(inner: Error)
    /** A non-2xx status, with the response body as the wrapped error. */
    | StatusWithBody(statusCode: int, body: seq<byte>)
    /** A body that could not be read in `run`. */
    | StatusWithCause(statusCode: int, cause: string)
    /** A body that could not be read after a failed push. */
    | ReadingFailedWithStatus(statusCode: int, cause: string)
    /** A failed flush or metrics request. */
    | StatusFailed(statusCode: int)
    /** A non-2xx status on a label endpoint. */
    | UnexpectedStatus(statusCode: int)
    /** Sending the request failed. */
    | TransportError(cause: string)
    /** Reading the body failed, reported as the reader's own error. */
    | ReadError(cause: string)

  /** `string(buf)`: a body's bytes as text, one character per byte. */
  function BytesText(b: seq<byte>): (s: string)
    ensures |s| == |b| && forall i :: 0 <= i < |b| ==> s[i] as int == b[i] as int
  {
    seq(|b|, i requires 0 <= i < |b| => b[i] as char)
  }

  /** The fixed text each of the client's own errors starts with. */
  function FixedText(e: Error): string
  {
    match e
    case UnknownResultType(_) => "unknown result type "
    case UnexpectedValueLength(_) => "unexpected value length "
    case ParsingResponseData(_) => "error parsing response data: "
    case StatusWithBody(_, _) => "request failed with status code "
    case StatusWithCause(_, _) => "request failed with status code "
    case ReadingFailedWithStatus(_, _) => "reading request failed with status code "
    case StatusFailed(_) => "request failed with status code "
    case UnexpectedStatus(_) => "Unexpected status code of "
    case _ => ""
  }

  /** A fixed text followed by the part that varies. */
  function Prefixed(prefix: string, rest: string): (m: string)
    ensures prefix <= m && m[|prefix|..] == rest
  {
    prefix + rest
  }

  /** The error's text, as `Error()` returns it for the client's own errors. */
  function Message(e: Error): (m: string)
    ensures FixedText(e) <= m
  {
    match e
    case JsonError(d) => d
    case UnknownResultType(t) => Prefixed("unknown result type ", t)
    case UnexpectedValueLength(n) => Prefixed("unexpected value length ", FormatInt(n))
    case ParsingResponseData(c) => Prefixed("error parsing response data: ", Message(c))
    case StatusWithBody(code, body) => Prefixed("request failed with status code ", FormatInt(code) + ": " + BytesText(body))
    case StatusWithCause(code, cause) => Prefixed("request failed with status code ", FormatInt(code) + ": " + cause)
    case ReadingFailedWithStatus(code, cause) => Prefixed("reading request failed with status code ", FormatInt(code) + ": " + cause)
    case StatusFailed(code) => Prefixed("request failed with status code ", FormatInt(code))
    case UnexpectedStatus(code) => Prefixed("Unexpected status code of ", FormatInt(code))
    case TransportError(cause) => cause
    case ReadError(cause) => cause
  }

  predicate Contains(s: string, part: string)
  {
    exists i :: 0 <= i <= |s| && part <= s[i..]
  }

  /** The status code an error reports, if it reports one. */
  function StatusOf(e: Error): Option<int>
  {
    match e
    case StatusWithBody(code, _) => Some(code)
    case StatusWithCause(code, _) => Some(code)
    case ReadingFailedWithStatus(code, _) => Some(code)
    case StatusFailed(code) => Some(code)
    case UnexpectedStatus(code) => Some(code)
    case _ => None
  }

  /** Every error that reports a status code names it in its text, right after its fixed prefix. */
  lemma StatusCodeNamed(e: Error)
    requires StatusOf(e).Some?
    ensures Contains(Message(e), FormatInt(StatusOf(e).value))
  {
    var m := Message(e);
    var code := StatusOf(e).value;
    var prefix := match e
      case ReadingFailedWithStatus(_, _) => "reading request failed with status code "
      case UnexpectedStatus(_) => "Unexpected status code of "
      case _ => "request failed with status code ";
    assert FormatInt(code) <= m[|prefix|..];
  }

  /** A failed push or query names the status code and ends with the response body. */
  lemma StatusWithBodyMessage(code: int, body: seq<byte>)
    ensures Contains(Message(StatusWithBody(code, body)), FormatInt(code))
    ensures var m := Message(StatusWithBody(code, body));
            |m| >= |body| && m[|m| - |body|..] == BytesText(body)
  {
    var prefix := "request failed with status code ";
    var m := Message(StatusWithBody(code, body));
    assert m == prefix + FormatInt(code) + ": " + BytesText(body);
    assert FormatInt(code) <= m[|prefix|..];
  }

  /** An unknown result type error names the tag, and the length error reads back as the length. */
  lemma DecodeErrorMessages(tag: string, n: nat)
    ensures var m := Message(UnknownResultType(tag)); m[|m| - |tag|..] == tag
    ensures var m := Message(UnexpectedValueLength(n));
            ParseInt(m[|"unexpected value length "|..]) == Some(n as int)
  {
    ParseFormatInt(n);
    var m := Message(UnexpectedValueLength(n));
    assert m[|"unexpected value length "|..] == FormatInt(n);
  }
}
