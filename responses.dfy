/** The response side: what the handler finally sends, the `http.ResponseWriter` the
    handler writes into, and `http.Error`. */
module Responses {
  import opened Wrappers
  import opened Text
  import opened Headers

  /** What the handler sends: status code, the header set it committed, and body bytes
      (the server may add `Content-Type`, `Content-Length` and `Date` on top). */
  datatype Response = Response(status: int, header: Header, body: seq<byte>)

  /** The header set `http.Error` gives a response that nothing else wrote headers into. */
  const ErrorHeader: Header :=
    map["Content-Type" := ["text/plain; charset=utf-8"], "X-Content-Type-Options" := ["nosniff"]]

  /** The response `http.Error(w, message, code)` produces on a fresh writer. */
  function ErrorResponse(code: int, message: string): Response {
    Response(code, ErrorHeader, Utf8(message + "\n"))
  }

  /** An `http.ResponseWriter`. Its header set can be changed until the status is written;
      `WriteHeader` then commits the status and a copy of the header set, and later changes
      to either are not sent. */
  class ResponseWriter {
    const header: HeaderMap
    var status: Option<int>
    var sentHeader: Header
    var body: seq<byte>

    /** A writer as the server hands it to the handler. */
    ghost predicate Unused()
      reads this, header
    {
      header.values == map[] && status == None && body == []
    }

    constructor ()
      ensures Unused() && fresh(header)
    {
      header := new HeaderMap();
      status := None;
      sentHeader := map[];
      body := [];
    }

    /** What the handler has sent once it returns (a handler that wrote nothing
        sends 200 with the current header set). */
    function Sent(): Response
      reads this, header
    {
      match status
      case Some(code) => Response(code, sentHeader, body)
      case None => Response(200, header.values, body)
    }

    /** `WriteHeader(code)`: the first call commits; a later one is superfluous and ignored. */
    method WriteHeader(code: int)
      modifies this
      ensures old(status).None? ==> status == Some(code) && sentHeader == header.values
      ensures old(status).Some? ==> status == old(status) && sentHeader == old(sentHeader)
      ensures body == old(body)
    {
      if status.None? {
        status := Some(code);
        sentHeader := header.values;
      }
    }

    /** `Write(data)`: commits status 200 first if nothing was committed, then sends `data`. */
    method Write(data: seq<byte>)
      modifies this
      ensures old(status).None? ==> status == Some(200) && sentHeader == header.values
      ensures old(status).Some? ==> status == old(status) && sentHeader == old(sentHeader)
      ensures body == old(body) + data
    {
      WriteHeader(200);
      body := body + data;
    }
  }

  /** `http.Error(w, message, code)`: marks the reply as plain text, writes `code` and then
      the message and a newline. On a writer that has already committed, only the text
      reaches the client. */
  method HttpError(w: ResponseWriter, message: string, code: int)
    modifies w, w.header
    ensures w.header.values ==
      (old(w.header.values) - {"Content-Length"})["Content-Type" := ["text/plain; charset=utf-8"]]["X-Content-Type-Options" := ["nosniff"]]
    ensures old(w.status).None? ==> w.status == Some(code) && w.sentHeader == w.header.values
    ensures old(w.status).Some? ==> w.status == old(w.status) && w.sentHeader == old(w.sentHeader)
    ensures w.body == old(w.body) + Utf8(message + "\n")
    ensures old(w.Unused()) ==> w.Sent() == ErrorResponse(code, message)
  {
    ghost var unused := w.Unused();
    w.header.Del("Content-Length");
    w.header.Set("Content-Type", "text/plain; charset=utf-8");
    w.header.Set("X-Content-Type-Options", "nosniff");
    w.WriteHeader(code);
    w.Write(Utf8(message + "\n"));
    if unused {
      assert old(w.header.values) - {"Content-Length"} == map[];
    }
  }
}
