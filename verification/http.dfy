/** The parts of an HTTP exchange that the core reads or writes.

    Headers are keyed by the name as written; the transport and the lookup
    are assumed to normalise names the same way. A header holds one value. */
module Http {
  import opened Errors
  import Codes

  newtype byte = x: int | 0 <= x < 256

  /** An outbound request. Its method and URL are fixed when it is built; its
      header set is changed in place (the signer sets Authorization on it). */
  class Request {
    const verb: string
    const url: string
    var header: map<string, string>

    constructor (verb: string, url: string, header: map<string, string>)
      ensures this.verb == verb && this.url == url && this.header == header
    {
      this.verb := verb;
      this.url := url;
      this.header := header;
    }
  }

  /** A response as the transport delivers it. */
  datatype Response = Response(statusCode: int, header: map<string, string>, body: seq<byte>)

  /** `getTraceID`: the value of the TRACE_ID header, or "" when it is absent. */
  function GetTraceId(resp: Response): (id: string)
    ensures Codes.TraceIdHeader in resp.header ==> id == resp.header[Codes.TraceIdHeader]
    ensures Codes.TraceIdHeader !in resp.header ==> id == ""
  {
    if Codes.TraceIdHeader in resp.header then resp.header[Codes.TraceIdHeader] else ""
  }
}
