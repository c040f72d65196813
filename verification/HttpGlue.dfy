/** http.c: what llhttp decides once the headers and the message are complete. */
module HttpGlue {
  import opened Llparse

  const HTTP_REQUEST := 1
  const HTTP_RESPONSE := 2
  const HTTP_CONNECT := 5

  const FINISH_SAFE := 0
  const FINISH_SAFE_WITH_CB := 1
  const FINISH_UNSAFE := 2

  const NO_FLAGS := Flags(false, false, false, false, false, false, false, false, false)

  function BeforeHeadersComplete(r: Registers): Registers {
    r.(upgrade :=
      if r.flags.upgrade && r.flags.connectionUpgrade
      then r.kind == HTTP_REQUEST || r.statusCode == 101
      else r.verb == HTTP_CONNECT)
  }

  /** The return values 0 to 5 of `llhttp__after_headers_complete`. */
  datatype BodyKind = NoBody | NoBodyUpgrade | Chunks | Counted | UntilEof | BadTransferEncoding

  function AfterHeadersComplete(r: Registers): BodyKind {
    var hasBody := r.flags.chunked || r.contentLength > 0;
    if r.upgrade && (r.verb == HTTP_CONNECT || r.flags.skipBody || !hasBody) then NoBodyUpgrade
    else if r.flags.skipBody then NoBody
    else if r.flags.chunked then Chunks
    else if r.flags.transferEncoding then
      if r.kind == HTTP_REQUEST && !r.lenient.chunkedLength then BadTransferEncoding else UntilEof
    else if !r.flags.contentLength then
      if MessageNeedsEof(r) then UntilEof else NoBody
    else if r.contentLength == 0 then NoBody
    else Counted
  }

  predicate MessageNeedsEof(r: Registers) {
    if r.kind == HTTP_REQUEST then false
    else if r.statusCode / 100 == 1 || r.statusCode == 204 || r.statusCode == 304 || r.flags.skipBody then false
    else if r.flags.transferEncoding && !r.flags.chunked then true
    else if r.flags.chunked || r.flags.contentLength then false
    else true
  }

  predicate ShouldKeepAlive(r: Registers) {
    && (if r.httpMajor > 0 && r.httpMinor > 0 then !r.flags.close else r.flags.keepAlive)
    && !MessageNeedsEof(r)
  }

  function AfterMessageComplete(r: Registers): Registers {
    r.(finish := FINISH_SAFE, flags := NO_FLAGS)
  }
}
