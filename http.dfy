/** A server's answer to one GET request, as a value: the status, the two headers the
    downloaders consult, the body chunks delivered, and how the body stream ended. */
module Http {
  import opened Wrappers
  import opened FileSystem
  import Strings

  type Url = string

  /** The request the downloader sends: the URL and, when resuming, the Range header value. */
  datatype Request = Request(url: Url, range: Option<string>)

  /** `content-length` (absent or empty reads as None) and whether `Accept-Ranges` is present
      (header names are matched case-insensitively by both HTTP libraries). */
  datatype Headers = Headers(contentLength: Option<nat>, acceptRanges: bool)

  /** An exception raised by the HTTP library itself: connection refused or reset, a timeout,
      any other request error; or an error of no known kind. */
  datatype Fault = RequestFault | UnexpectedFault

  /** How the body stream ended after the delivered chunks. */
  datatype StreamEnd =
    | Complete          // every byte arrived
    | ChunkedBreak      // the chunked transfer encoding broke off (ChunkedEncodingError)
    | StreamFault(f: Fault)  // the connection failed while reading
    | DiskFault         // writing the local file failed (OSError)

  datatype Reply =
    | Unreachable(fault: Fault)   // no response at all
    | Response(status: int, headers: Headers, chunks: seq<seq<Byte>>, end: StreamEnd)

  /** All delivered bytes, in order. */
  function Flatten(chunks: seq<seq<Byte>>): (r: seq<Byte>)
  {
    if chunks == [] then [] else Flatten(chunks[..|chunks| - 1]) + chunks[|chunks| - 1]
  }

  /** aiohttp's raise_for_status(): every status from 400 up raises ClientResponseError. */
  predicate AiohttpRaises(status: int) { status >= 400 }

  /** requests' raise_for_status(): client (4xx) and server (5xx) errors raise HTTPError. */
  predicate RequestsRaises(status: int) { 400 <= status < 600 }

  /** The statuses for which the image is replaced by the placeholder. */
  predicate IsGone(status: int) { status == 401 || status == 403 || status == 404 }

  /** The Range header value "bytes=k-". */
  function RangeFrom(k: nat): string { "bytes=" + Strings.NatToString(k) + "-" }
}
