/** The loose half of llhttp.c as an llparse program: control states and nodes as the source has
    them (line numbers are llhttp.c's), chains of invoke nodes without a callback joined into one,
    the method trie cut to seven methods and the url grammar to its last state. */
module Llhttp {
  import opened Bytes
  import opened Llparse
  import opened HttpGlue
  import opened Digits

  const HT: Byte := 9
  const LF: Byte := 10
  const CR: Byte := 13
  const SP: Byte := 32

  // HPE_*
  const INTERNAL: Errno := 1
  const LF_EXPECTED: Errno := 3
  const UNEXPECTED_CONTENT_LENGTH: Errno := 4
  const INVALID_METHOD: Errno := 6
  const INVALID_URL: Errno := 7
  const INVALID_CONSTANT: Errno := 8
  const INVALID_VERSION: Errno := 9
  const INVALID_HEADER_TOKEN: Errno := 10
  const INVALID_CONTENT_LENGTH: Errno := 11
  const INVALID_CHUNK_SIZE: Errno := 12
  const INVALID_STATUS: Errno := 13
  const INVALID_TRANSFER_ENCODING: Errno := 15
  const PAUSED_UPGRADE: Errno := 22

  // `header_state`
  const H_GENERAL := 0
  const H_CONNECTION := 1
  const H_CONTENT_LENGTH := 2
  const H_TRANSFER_ENCODING := 3
  const H_UPGRADE := 4
  const H_KEEP_ALIVE := 5
  const H_CLOSE := 6
  const H_CONNECTION_UPGRADE := 7
  const H_CHUNKED := 8

  const CHUNKED: seq<Byte> := [0x63, 0x68, 0x75, 0x6e, 0x6b, 0x65, 0x64]   // "chunked"
  const ENT_LENGTH: seq<Byte> := [0x65, 0x6e, 0x74, 0x2d, 0x6c, 0x65, 0x6e, 0x67, 0x74, 0x68]   // "ent-length"

  datatype Label =
    | Begin(begin: BeginState) | Request(request: RequestState) | Version(version: VersionState)
    | Status(status: StatusState) | Name(name: NameState) | Value(value: ValueState)
    | Connection(connection: ConnectionState) | Length(length: LengthState) | Coding(coding: CodingState)
    | Headers(headers: HeadersState) | Body(body: BodyState) | Done(done: DoneState)
    | Failing(code: Errno)   // `error` set, `_current` about to be s_error
    | Dead                   // s_error

  // message start, request or response (13016-13142, 14836-14889)
  datatype BeginState =
    | Start | OnMessageBegin | LoadType | StartReqOrRes | UpdateType2 | ReqOrResMethod | ReqOrResMethod1
    | ReqOrResMethod2 | ReqOrResMethod3 | UpdateType1 | StoreMethod | StoreMethod1

  // request line: seven of the methods, one of the url states (10399-10452, 10900-12625, 14049-14107, 14340-14407)
  datatype RequestState =
    | StartReq | StartReq5 | StartReq7 | StartReq8 | StartReq15 | StartReq16 | StartReq17 | StartReq18
    | StartReq32 | StartReq33 | StartReq38 | StartReq44 | ReqFirstSpaceBeforeUrl | ReqSpacesBeforeUrl
    | SpanStartUrl | Url | UrlEndLf | UrlEndCr | UrlEndSpace

  // request line: the version (10059-10408, 14025-14048, 14119-14258, 14332-14339)
  datatype VersionState =
    | UrlSkipToHttp09 | UrlSkipLfToHttp09 | UrlSkipToHttp | UpdateHttp09 | OnUrlComplete | ReqHttpStart
    | ReqHttpStart1 | LoadMethod | ReqHttpMajor | StoreReqMajor | ReqHttpDot | ReqHttpMinor | StoreReqMinor
    | ReqHttpComplete | ReqHttpComplete1

  // status line (12626-12966, 14687-14792)
  datatype StatusState =
    | StartRes | ResHttpMajor | StoreResMajor | ResHttpDot | ResHttpMinor | StoreResMinor | ResHttpEnd
    | UpdateStatusCode | ResStatusCode | MulAddStatusCode | ResStatusCodeOtherwise | ResStatusStart
    | SpanStartStatus | ResStatus | SpanEndStatus | SpanEndStatus1 | ResLineAlmostDone | OnStatusComplete

  // header names (9713-10058, 13956-14024)
  datatype NameState =
    | HeaderFieldStart | SpanStartHeaderField | HeaderField | HeaderField1 | HeaderField2 | HeaderField3
    | HeaderField4 | HeaderField5 | HeaderField6 | HeaderField7 | ClearHeaderState | StoreHeaderState
    | HeaderFieldColon | HeaderFieldGeneral | HeaderFieldGeneralOtherwise | SpanEndHeaderField
    | OnHeaderFieldComplete

  // header values (9113-9229, 9551-9608, 9673-9712, 13512-13741, 13940-13955)
  datatype ValueState =
    | HeaderValueDiscardWs | HeaderValueDiscardWsAlmostDone | HeaderValueDiscardLws | EmptyHeaderValue
    | SpanStartHeaderValue | SpanEndHeaderValue | OnHeaderValueComplete | SpanStartHeaderValue1
    | LoadHeaderState2 | HeaderValue | HeaderValueOtherwise | TestLenientHeaders | HeaderValueLenient
    | SpanEndHeaderValue1 | SpanEndHeaderValue2 | HeaderValueAlmostDone | HeaderValueLws | EndHeaderValue

  // the value of Connection (9230-9400, 13741-13828)
  datatype ConnectionState =
    | HeaderValueConnection | HeaderValueConnection1 | HeaderValueConnection2 | HeaderValueConnection3
    | SawClose | SawKeepAlive | SawUpgrade | HeaderValueConnectionWs | EndConnectionToken | NoConnectionToken
    | HeaderValueConnectionToken

  // the value of Content-Length (9401-9506, 13829-13899)
  datatype LengthState =
    | HeaderValueContentLength | MulAddContentLength1 | HeaderValueContentLengthWs | SpanEndContentLength
    | HaveContentLength

  // the value of Transfer-Encoding (9507-9550, 9610-9672, 13900-13939)
  datatype CodingState =
    | HeaderValueTeChunked | HeaderValueTeChunkedLast | HaveChunked | HeaderValueTeToken
    | HeaderValueTeTokenOws | ForgetTe

  // end of the headers (9075-9103, 13377-13511)
  datatype HeadersState =
    | HeadersAlmostDone | HeadersDone | OnHeadersComplete | AfterHeaders

  // bodies (8657-9074, 13179-13376)
  datatype BodyState =
    | UpdateContentLength | ChunkSizeDigit | ChunkSize | MulAddContentLength | ChunkSizeOtherwise
    | ChunkParameters | ChunkSizeAlmostDone | OnChunkHeader | SpanStartBody | ConsumeContentLength
    | SpanEndBody | ChunkDataAlmostDone | ChunkDataAlmostDoneSkip | OnChunkComplete | OnChunkComplete1
    | SpanStartBody1 | ConsumeContentLength1 | SpanEndBody1 | BodyUntilEof | SpanStartBody2 | Eof

  // message end (8602-8656, 13117-13142, 13218-13229, 13404-13415)
  datatype DoneState =
    | OnMessageComplete | OnMessageComplete1 | OnMessageComplete2 | IsEqualUpgrade | Upgraded | AfterMessage
    | KeepAlive | Close | Closed

  function Read(l: Label): Edge<Label> { Edge(true, 0, l) }

  function ReadAs(matched: nat, l: Label): Edge<Label> { Edge(true, matched, l) }

  function Peek(l: Label): Edge<Label> { Edge(false, 0, l) }

  function Fail(code: Errno): Edge<Label> { Peek(Failing(code)) }

  /** The lookup tables of header_field_general and header_value. */
  predicate IsHeaderNameByte(b: Byte) {
    || b == SP || b == '!' as int || '#' as int <= b <= '\'' as int || b == '*' as int || b == '+' as int
    || b == '-' as int || b == '.' as int || IsDigit(b) || 'A' as int <= b <= 'Z' as int
    || '^' as int <= b <= 'z' as int || b == '|' as int || b == '~' as int
  }

  predicate IsHeaderValueByte(b: Byte) {
    b == HT || 0x20 <= b <= 0x7e || b >= 0x80
  }

  /** The flag a finished Connection token or chunked coding sets (load_header_state_1, _3 and _4). */
  function ApplyHeaderState(r: Registers): Registers {
    if r.headerState == H_KEEP_ALIVE then r.(flags := r.flags.(keepAlive := true), headerState := H_CONNECTION)
    else if r.headerState == H_CLOSE then r.(flags := r.flags.(close := true), headerState := H_CONNECTION)
    else if r.headerState == H_CONNECTION_UPGRADE
    then r.(flags := r.flags.(connectionUpgrade := true), headerState := H_CONNECTION)
    else if r.headerState == H_CHUNKED then r.(flags := r.flags.(chunked := true))
    else r
  }

  // ---------------------------------------------------------------- message start, request or response
  // (13016-13142, 14836-14889)

  function BeginNode(s: BeginState): Node<Label> {
    match s
    case OnMessageBegin => Invoke(Some(MessageBegin))
    case ReqOrResMethod2 => Sequence(Exact, [0x41, 0x44], 2, Begin(StoreMethod), Failing(INVALID_CONSTANT))   // "AD"
    case ReqOrResMethod3 =>   // "TP/"
      Sequence(Exact, [0x54, 0x50, 0x2f],
               0, Begin(UpdateType1), Failing(INVALID_CONSTANT))
    case LoadType | UpdateType2 | UpdateType1 | StoreMethod | StoreMethod1 => Invoke(None)
    case _ => Switch
  }

  function BeginEdge(s: BeginState, b: Byte): Edge<Label> {
    match s
    case Start => if b == LF || b == CR then Read(Begin(Start)) else Peek(Begin(OnMessageBegin))
    case StartReqOrRes =>
      if b == 'H' as int then Peek(Begin(ReqOrResMethod)) else Peek(Begin(UpdateType2))
    case ReqOrResMethod =>
      if b == 'H' as int then Read(Begin(ReqOrResMethod1)) else Fail(INVALID_CONSTANT)
    case ReqOrResMethod1 =>
      if b == 'E' as int then Read(Begin(ReqOrResMethod2)) else if b == 'T' as int then Read(Begin(ReqOrResMethod3))
      else Fail(INVALID_CONSTANT)
    case _ => Peek(Dead)
  }

  function BeginRun(s: BeginState, r: Registers): (Registers, Label) {
    match s
    case OnMessageBegin => (r.(finish := FINISH_UNSAFE), Begin(LoadType))
    case LoadType =>
      (r, if r.kind == HTTP_REQUEST then Request(StartReq)
          else if r.kind == HTTP_RESPONSE then Status(StartRes) else Begin(StartReqOrRes))
    case UpdateType2 => (r.(kind := HTTP_REQUEST), Request(StartReq))
    case UpdateType1 => (r.(kind := HTTP_RESPONSE), Status(ResHttpMajor))
    case StoreMethod => (r.(verb := r.matched, kind := HTTP_REQUEST), Request(ReqFirstSpaceBeforeUrl))
    case StoreMethod1 => (r.(verb := r.matched), Request(ReqFirstSpaceBeforeUrl))
    case _ => (r, Dead)
  }

  function BeginRank(s: BeginState): nat {
    match s
    case UpdateType2 | UpdateType1 | StoreMethod | StoreMethod1 => 2
    case StartReqOrRes => 3
    case LoadType => 4
    case OnMessageBegin => 5
    case Start => 6
    case _ => 1
  }

  // ------------------------------ request line: seven of the methods, one of the url states
  // (10399-10452, 10900-12625, 14049-14107, 14340-14407)

  function RequestNode(s: RequestState): Node<Label> {
    match s
    case StartReq8 =>   // "NECT"
      Sequence(Exact, [0x4e, 0x45, 0x43, 0x54],
               HTTP_CONNECT, Begin(StoreMethod1), Failing(INVALID_METHOD))
    case StartReq15 => Sequence(Exact, [0x45, 0x54], 0, Request(StartReq16), Failing(INVALID_METHOD))   // "ET"
    case StartReq17 =>   // "PARAMETER"
      Sequence(Exact, [0x50, 0x41, 0x52, 0x41, 0x4d, 0x45, 0x54, 0x45, 0x52],
               41, Begin(StoreMethod1), Failing(INVALID_METHOD))
    case StartReq18 => Sequence(Exact, [0x45, 0x41, 0x44], 2, Begin(StoreMethod1), Failing(INVALID_METHOD))   // "EAD"
    case StartReq32 =>   // "PTIONS"
      Sequence(Exact, [0x50, 0x54, 0x49, 0x4f, 0x4e, 0x53],
               6, Begin(StoreMethod1), Failing(INVALID_METHOD))
    case StartReq38 => Sequence(Exact, [0x53, 0x54], 3, Begin(StoreMethod1), Failing(INVALID_METHOD))   // "ST"
    case SpanStartUrl => SpanStart(OnUrl, Request(Url))
    case UrlEndLf => SpanEnd(false, Version(UrlSkipToHttp09))
    case UrlEndCr => SpanEnd(false, Version(UrlSkipLfToHttp09))
    case UrlEndSpace => SpanEnd(false, Version(UrlSkipToHttp))
    case _ => Switch
  }

  function RequestEdge(s: RequestState, b: Byte): Edge<Label> {
    match s
    case StartReq =>
      if b == 'C' as int then Read(Request(StartReq5)) else if b == 'G' as int then Read(Request(StartReq15))
      else if b == 'H' as int then Read(Request(StartReq18)) else if b == 'O' as int then Read(Request(StartReq32))
      else if b == 'P' as int then Read(Request(StartReq33)) else Fail(INVALID_METHOD)
    case StartReq5 => if b == 'O' as int then Read(Request(StartReq7)) else Fail(INVALID_METHOD)
    case StartReq7 => if b == 'N' as int then Read(Request(StartReq8)) else Fail(INVALID_METHOD)
    case StartReq16 =>
      if b == '_' as int then Read(Request(StartReq17)) else Edge(false, 1, Begin(StoreMethod1))
    case StartReq33 =>
      if b == 'O' as int then Read(Request(StartReq38)) else if b == 'U' as int then Read(Request(StartReq44))
      else Fail(INVALID_METHOD)
    case StartReq44 => if b == 'T' as int then ReadAs(4, Begin(StoreMethod1)) else Fail(INVALID_METHOD)
    case ReqFirstSpaceBeforeUrl =>
      if b == SP then Read(Request(ReqSpacesBeforeUrl)) else Fail(INVALID_METHOD)
    case ReqSpacesBeforeUrl =>
      if b == SP then Read(Request(ReqSpacesBeforeUrl)) else Peek(Request(SpanStartUrl))
    case Url =>
      if b == LF then Peek(Request(UrlEndLf)) else if b == CR then Peek(Request(UrlEndCr))
      else if b == SP then Peek(Request(UrlEndSpace))
      else if b == HT || b == 0xc || 0x21 <= b <= 0x7e || b >= 0x80 then Read(Request(Url)) else Fail(INVALID_URL)
    case _ => Peek(Dead)
  }

  function RequestRank(s: RequestState): nat {
    match s
    case UrlEndCr => 2
    case StartReq16 | Url => 3
    case SpanStartUrl => 4
    case ReqSpacesBeforeUrl => 5
    case _ => 1
  }

  function RequestSpan(s: RequestState): Option<Span> {
    match s
    case Url | UrlEndLf | UrlEndCr | UrlEndSpace => Some(OnUrl)
    case _ => None
  }

  // ---------------------------------------------------------------- request line: the version
  // (10059-10408, 14025-14048, 14119-14258, 14332-14339)

  function VersionNode(s: VersionState): Node<Label> {
    match s
    case UrlSkipLfToHttp09 => Sequence(Exact, [CR, LF], 0, Version(UpdateHttp09), Failing(INVALID_URL))   // CRLF
    case UpdateHttp09 => Invoke(Some(UrlComplete))
    case OnUrlComplete => Invoke(Some(UrlComplete))
    case ReqHttpStart1 =>   // "TTP/"
      Sequence(Exact, [0x54, 0x54, 0x50, 0x2f],
               0, Version(LoadMethod), Failing(INVALID_CONSTANT))
    case LoadMethod | StoreReqMajor | StoreReqMinor => Invoke(None)
    case _ => Switch
  }

  function VersionEdge(s: VersionState, b: Byte): Edge<Label> {
    match s
    case UrlSkipToHttp09 => Read(Version(UpdateHttp09))
    case UrlSkipToHttp => Read(Version(OnUrlComplete))
    case ReqHttpStart =>
      if b == SP then Read(Version(ReqHttpStart)) else if b == 'H' as int then Read(Version(ReqHttpStart1))
      else Fail(INVALID_CONSTANT)
    case ReqHttpMajor =>
      if IsDigit(b) then ReadAs(b - '0' as int, Version(StoreReqMajor)) else Fail(INVALID_VERSION)
    case ReqHttpDot => if b == '.' as int then Read(Version(ReqHttpMinor)) else Fail(INVALID_VERSION)
    case ReqHttpMinor =>
      if IsDigit(b) then ReadAs(b - '0' as int, Version(StoreReqMinor)) else Fail(INVALID_VERSION)
    case ReqHttpComplete =>
      if b == LF then Read(Name(HeaderFieldStart)) else if b == CR then Read(Version(ReqHttpComplete1))
      else Fail(INVALID_VERSION)
    case ReqHttpComplete1 => if b == LF then Read(Name(HeaderFieldStart)) else Fail(INVALID_VERSION)
    case _ => Peek(Dead)
  }

  function VersionRun(s: VersionState, r: Registers): (Registers, Label) {
    match s
    case UpdateHttp09 => (r.(httpMajor := 0, httpMinor := 9), Name(HeaderFieldStart))
    case OnUrlComplete => (r, Version(ReqHttpStart))
    case LoadMethod => (r, if r.verb <= 34 then Version(ReqHttpMajor) else Failing(INVALID_CONSTANT))
    case StoreReqMajor => (r.(httpMajor := r.matched), Version(ReqHttpDot))
    case StoreReqMinor => (r.(httpMinor := r.matched), Version(ReqHttpComplete))
    case _ => (r, Dead)
  }

  function VersionRank(s: VersionState): nat {
    match s
    case UrlSkipToHttp09 | UrlSkipToHttp => 0
    case OnUrlComplete | LoadMethod | StoreReqMajor | StoreReqMinor => 2
    case UpdateHttp09 => 7
    case _ => 1
  }

  // ---------------------------------------------------------------- status line (12626-12966, 14687-14792)

  function StatusNode(s: StatusState): Node<Label> {
    match s
    case StartRes =>   // "HTTP/"
      Sequence(Exact, [0x48, 0x54, 0x54, 0x50, 0x2f],
               0, Status(ResHttpMajor), Failing(INVALID_CONSTANT))
    case SpanStartStatus => SpanStart(OnStatus, Status(ResStatus))
    case SpanEndStatus => SpanEnd(true, Status(OnStatusComplete))
    case SpanEndStatus1 => SpanEnd(true, Status(ResLineAlmostDone))
    case OnStatusComplete => Invoke(Some(StatusComplete))
    case StoreResMajor | StoreResMinor | UpdateStatusCode | MulAddStatusCode => Invoke(None)
    case _ => Switch
  }

  function StatusEdge(s: StatusState, b: Byte): Edge<Label> {
    match s
    case ResHttpMajor =>
      if IsDigit(b) then ReadAs(b - '0' as int, Status(StoreResMajor)) else Fail(INVALID_VERSION)
    case ResHttpDot => if b == '.' as int then Read(Status(ResHttpMinor)) else Fail(INVALID_VERSION)
    case ResHttpMinor =>
      if IsDigit(b) then ReadAs(b - '0' as int, Status(StoreResMinor)) else Fail(INVALID_VERSION)
    case ResHttpEnd => if b == SP then Read(Status(UpdateStatusCode)) else Fail(INVALID_VERSION)
    case ResStatusCode =>
      if IsDigit(b) then ReadAs(b - '0' as int, Status(MulAddStatusCode)) else Peek(Status(ResStatusCodeOtherwise))
    case ResStatusCodeOtherwise =>
      if b == LF || b == CR then Peek(Status(ResStatusStart)) else if b == SP then Read(Status(ResStatusStart))
      else Fail(INVALID_STATUS)
    case ResStatusStart =>
      if b == LF then Read(Status(OnStatusComplete)) else if b == CR then Read(Status(ResLineAlmostDone))
      else Peek(Status(SpanStartStatus))
    case ResStatus =>
      if b == LF then Peek(Status(SpanEndStatus)) else if b == CR then Peek(Status(SpanEndStatus1))
      else Read(Status(ResStatus))
    case ResLineAlmostDone => Read(Status(OnStatusComplete))
    case _ => Peek(Dead)
  }

  function StatusRun(s: StatusState, r: Registers): (Registers, Label) {
    match s
    case StoreResMajor => (r.(httpMajor := r.matched), Status(ResHttpDot))
    case StoreResMinor => (r.(httpMinor := r.matched), Status(ResHttpEnd))
    case UpdateStatusCode => (r.(statusCode := 0), Status(ResStatusCode))
    case MulAddStatusCode =>
      var f := FoldStatus(r.statusCode, r.matched);
      (r.(statusCode := f.value), if f.overflow then Failing(INVALID_STATUS) else Status(ResStatusCode))
    case OnStatusComplete => (r, Name(HeaderFieldStart))
    case _ => (r, Dead)
  }

  function StatusRank(s: StatusState): nat {
    match s
    case SpanEndStatus | SpanEndStatus1 | ResLineAlmostDone => 0
    case StoreResMajor | StoreResMinor | SpanStartStatus => 2
    case ResStatusStart => 3
    case ResStatusCodeOtherwise => 4
    case ResStatusCode => 5
    case UpdateStatusCode | MulAddStatusCode => 6
    case OnStatusComplete => 7
    case _ => 1
  }

  function StatusSpan(s: StatusState): Option<Span> {
    match s
    case ResStatus | SpanEndStatus | SpanEndStatus1 => Some(OnStatus)
    case _ => None
  }

  // ---------------------------------------------------------------- header names (9713-10058, 13956-14024)

  function NameNode(s: NameState): Node<Label> {
    match s
    case SpanStartHeaderField => SpanStart(OnHeaderField, Name(HeaderField))
    case HeaderField1 => Sequence(ToLower, [0x6f, 0x6e], 0, Name(HeaderField2), Name(ClearHeaderState))   // "on"
    case HeaderField3 =>   // "ection"
      Sequence(ToLower, [0x65, 0x63, 0x74, 0x69, 0x6f, 0x6e],
               H_CONNECTION, Name(StoreHeaderState), Name(ClearHeaderState))
    case HeaderField4 => Sequence(ToLower, ENT_LENGTH, H_CONTENT_LENGTH, Name(StoreHeaderState), Name(ClearHeaderState))
    case HeaderField5 =>   // "roxy-connection"
      Sequence(ToLower, [0x72, 0x6f, 0x78, 0x79, 0x2d, 0x63, 0x6f, 0x6e, 0x6e, 0x65, 0x63, 0x74, 0x69, 0x6f, 0x6e],
               H_CONNECTION, Name(StoreHeaderState), Name(ClearHeaderState))
    case HeaderField6 =>   // "ransfer-encoding"
      Sequence(ToLower,
               [0x72, 0x61, 0x6e, 0x73, 0x66, 0x65, 0x72, 0x2d, 0x65, 0x6e, 0x63, 0x6f, 0x64, 0x69, 0x6e, 0x67],
               H_TRANSFER_ENCODING, Name(StoreHeaderState), Name(ClearHeaderState))
    case HeaderField7 =>   // "pgrade"
      Sequence(ToLower, [0x70, 0x67, 0x72, 0x61, 0x64, 0x65],
               H_UPGRADE, Name(StoreHeaderState), Name(ClearHeaderState))
    case SpanEndHeaderField => SpanEnd(true, Name(OnHeaderFieldComplete))
    case OnHeaderFieldComplete => Invoke(Some(HeaderFieldComplete))
    case ClearHeaderState | StoreHeaderState => Invoke(None)
    case _ => Switch
  }

  function NameEdge(s: NameState, b: Byte): Edge<Label> {
    match s
    case HeaderFieldStart =>
      if b == LF then Peek(Headers(HeadersAlmostDone)) else if b == CR then Read(Headers(HeadersAlmostDone))
      else Peek(Name(SpanStartHeaderField))
    case HeaderField =>
      var c := FoldByte(ToLower, b);
      if c == 'c' as int then Read(Name(HeaderField1)) else if c == 'p' as int then Read(Name(HeaderField5))
      else if c == 't' as int then Read(Name(HeaderField6)) else if c == 'u' as int then Read(Name(HeaderField7))
      else Peek(Name(ClearHeaderState))
    case HeaderField2 =>
      var c := FoldByte(ToLower, b);
      if c == 'n' as int then Read(Name(HeaderField3)) else if c == 't' as int then Read(Name(HeaderField4))
      else Peek(Name(ClearHeaderState))
    case HeaderFieldColon =>
      if b == SP then Read(Name(HeaderFieldColon)) else if b == ':' as int then Peek(Name(SpanEndHeaderField))
      else Peek(Name(ClearHeaderState))
    case HeaderFieldGeneral =>
      if IsHeaderNameByte(b) then Read(Name(HeaderFieldGeneral)) else Peek(Name(HeaderFieldGeneralOtherwise))
    case HeaderFieldGeneralOtherwise =>
      if b == ':' as int then Peek(Name(SpanEndHeaderField)) else Fail(INVALID_HEADER_TOKEN)
    case _ => Peek(Dead)
  }

  function NameRun(s: NameState, r: Registers): (Registers, Label) {
    match s
    case ClearHeaderState => (r.(headerState := H_GENERAL), Name(HeaderFieldGeneral))
    case StoreHeaderState => (r.(headerState := r.matched), Name(HeaderFieldColon))
    case OnHeaderFieldComplete => (r, Value(HeaderValueDiscardWs))
    case _ => (r, Dead)
  }

  function NameRank(s: NameState): nat {
    match s
    case SpanEndHeaderField => 0
    case HeaderFieldGeneralOtherwise => 1
    case HeaderFieldGeneral => 2
    case ClearHeaderState => 3
    case SpanStartHeaderField | StoreHeaderState => 5
    case HeaderFieldStart => 6
    case OnHeaderFieldComplete => 13
    case _ => 4
  }

  function NameSpan(s: NameState): Option<Span> {
    match s
    case HeaderFieldStart | SpanStartHeaderField | OnHeaderFieldComplete => None
    case _ => Some(OnHeaderField)
  }

  // ---------------------------------------------------------------- header values
  // (9113-9229, 9551-9608, 9673-9712, 13512-13741, 13940-13955)

  function ValueNode(s: ValueState): Node<Label> {
    match s
    case SpanStartHeaderValue => SpanStart(OnHeaderValue, Value(SpanEndHeaderValue))
    case SpanEndHeaderValue => SpanEnd(false, Value(OnHeaderValueComplete))
    case OnHeaderValueComplete => Invoke(Some(HeaderValueComplete))
    case SpanStartHeaderValue1 => SpanStart(OnHeaderValue, Value(LoadHeaderState2))
    case SpanEndHeaderValue1 => SpanEnd(false, Value(HeaderValueAlmostDone))
    case SpanEndHeaderValue2 => SpanEnd(true, Value(HeaderValueAlmostDone))
    case EmptyHeaderValue | LoadHeaderState2 | TestLenientHeaders | EndHeaderValue => Invoke(None)
    case _ => Switch
  }

  function ValueEdge(s: ValueState, b: Byte): Edge<Label> {
    match s
    case HeaderValueDiscardWs =>
      if b == HT || b == SP then Read(Value(HeaderValueDiscardWs))
      else if b == LF then Read(Value(HeaderValueDiscardLws))
      else if b == CR then Read(Value(HeaderValueDiscardWsAlmostDone)) else Peek(Value(SpanStartHeaderValue1))
    case HeaderValueDiscardWsAlmostDone => Read(Value(HeaderValueDiscardLws))
    case HeaderValueDiscardLws =>
      if b == HT || b == SP then Read(Value(HeaderValueDiscardWs)) else Peek(Value(EmptyHeaderValue))
    case HeaderValue =>
      if IsHeaderValueByte(b) then Read(Value(HeaderValue)) else Peek(Value(HeaderValueOtherwise))
    case HeaderValueOtherwise =>
      if b == LF then Peek(Value(SpanEndHeaderValue1)) else if b == CR then Peek(Value(SpanEndHeaderValue2))
      else Peek(Value(TestLenientHeaders))
    case HeaderValueLenient =>
      if b == LF then Peek(Value(SpanEndHeaderValue1)) else if b == CR then Peek(Value(SpanEndHeaderValue2))
      else Read(Value(HeaderValueLenient))
    case HeaderValueAlmostDone => if b == LF then Read(Value(HeaderValueLws)) else Fail(LF_EXPECTED)
    case HeaderValueLws =>
      if b == HT || b == SP then Peek(Value(SpanStartHeaderValue1)) else Peek(Value(EndHeaderValue))
    case _ => Peek(Dead)
  }

  function ValueRun(s: ValueState, r: Registers): (Registers, Label) {
    match s
    case EmptyHeaderValue =>
      if r.headerState == H_CONTENT_LENGTH then (r, Failing(INVALID_CONTENT_LENGTH))
      else (ApplyHeaderState(r), Value(SpanStartHeaderValue))
    case OnHeaderValueComplete => (r, Name(HeaderFieldStart))
    case LoadHeaderState2 =>
      if r.headerState == H_CONNECTION then (r, Connection(HeaderValueConnection))
      else if r.headerState == H_CONTENT_LENGTH then
      (r, if r.flags.contentLength then Failing(UNEXPECTED_CONTENT_LENGTH) else Length(HeaderValueContentLength))
      else if r.headerState == H_TRANSFER_ENCODING then
      (r.(flags := r.flags.(transferEncoding := true, chunked := false)), Coding(HeaderValueTeChunked))
      else if r.headerState == H_UPGRADE then
      (r.(flags := r.flags.(upgrade := true), headerState := H_GENERAL), Value(HeaderValue))
      else (r, Value(HeaderValue))
    case TestLenientHeaders =>
      (r, if r.lenient.headers then Value(HeaderValueLenient) else Failing(INVALID_HEADER_TOKEN))
    case EndHeaderValue => (ApplyHeaderState(r), Value(OnHeaderValueComplete))
    case _ => (r, Dead)
  }

  function ValueRank(s: ValueState): nat {
    match s
    case HeaderValueAlmostDone => 1
    case SpanEndHeaderValue1 => 2
    case HeaderValueLenient => 3
    case TestLenientHeaders => 4
    case HeaderValueOtherwise => 5
    case HeaderValue => 6
    case OnHeaderValueComplete => 7
    case SpanEndHeaderValue | EndHeaderValue => 8
    case SpanStartHeaderValue => 9
    case EmptyHeaderValue | LoadHeaderState2 => 10
    case HeaderValueDiscardLws | SpanStartHeaderValue1 => 11
    case HeaderValueDiscardWs | HeaderValueLws => 12
    case _ => 0
  }

  function ValueSpan(s: ValueState): Option<Span> {
    match s
    case SpanEndHeaderValue | LoadHeaderState2 | HeaderValue | HeaderValueOtherwise | TestLenientHeaders |
    HeaderValueLenient | SpanEndHeaderValue1 | SpanEndHeaderValue2 => Some(OnHeaderValue)
    case _ => None
  }

  // ---------------------------------------------------------------- the value of Connection (9230-9400, 13741-13828)

  function ConnectionNode(s: ConnectionState): Node<Label> {
    match s
    case HeaderValueConnection1 =>   // "lose"
      Sequence(ToLower, [0x6c, 0x6f, 0x73, 0x65],
               0, Connection(SawClose), Connection(HeaderValueConnectionToken))
    case HeaderValueConnection2 =>   // "eep-alive"
      Sequence(ToLower, [0x65, 0x65, 0x70, 0x2d, 0x61, 0x6c, 0x69, 0x76, 0x65],
               0, Connection(SawKeepAlive), Connection(HeaderValueConnectionToken))
    case HeaderValueConnection3 =>   // "pgrade"
      Sequence(ToLower, [0x70, 0x67, 0x72, 0x61, 0x64, 0x65],
               0, Connection(SawUpgrade), Connection(HeaderValueConnectionToken))
    case SawClose | SawKeepAlive | SawUpgrade | EndConnectionToken | NoConnectionToken => Invoke(None)
    case _ => Switch
  }

  function ConnectionEdge(s: ConnectionState, b: Byte): Edge<Label> {
    match s
    case HeaderValueConnection =>
      var c := FoldByte(ToLower, b);
      if b == HT || b == SP then Read(Connection(HeaderValueConnection))
      else if c == 'c' as int then Read(Connection(HeaderValueConnection1))
      else if c == 'k' as int then Read(Connection(HeaderValueConnection2))
      else if c == 'u' as int then Read(Connection(HeaderValueConnection3))
      else Peek(Connection(HeaderValueConnectionToken))
    case HeaderValueConnectionWs =>
      if b == LF || b == CR then Peek(Value(HeaderValueOtherwise))
      else if b == SP then Read(Connection(HeaderValueConnectionWs))
      else if b == ',' as int then Read(Connection(EndConnectionToken)) else Peek(Connection(NoConnectionToken))
    case HeaderValueConnectionToken =>
      if b == ',' as int then Read(Connection(HeaderValueConnection))
      else if IsHeaderValueByte(b) then Read(Connection(HeaderValueConnectionToken))
      else Peek(Value(HeaderValueOtherwise))
    case _ => Peek(Dead)
  }

  function ConnectionRun(s: ConnectionState, r: Registers): (Registers, Label) {
    match s
    case SawClose => (r.(headerState := H_CLOSE), Connection(HeaderValueConnectionWs))
    case SawKeepAlive => (r.(headerState := H_KEEP_ALIVE), Connection(HeaderValueConnectionWs))
    case SawUpgrade => (r.(headerState := H_CONNECTION_UPGRADE), Connection(HeaderValueConnectionWs))
    case EndConnectionToken => (ApplyHeaderState(r), Connection(HeaderValueConnection))
    case NoConnectionToken => (r.(headerState := H_GENERAL), Connection(HeaderValueConnectionToken))
    case _ => (r, Dead)
  }

  function ConnectionRank(s: ConnectionState): nat {
    match s
    case HeaderValueConnectionToken => 6
    case HeaderValueConnectionWs | EndConnectionToken => 8
    case SawClose | SawKeepAlive | SawUpgrade => 9
    case _ => 7
  }

  // ------------------------------ the value of Content-Length (9401-9506, 13829-13899)

  function LengthNode(s: LengthState): Node<Label> {
    match s
    case SpanEndContentLength => SpanEnd(false, Failing(INVALID_CONTENT_LENGTH))
    case MulAddContentLength1 | HaveContentLength => Invoke(None)
    case _ => Switch
  }

  function LengthEdge(s: LengthState, b: Byte): Edge<Label> {
    match s
    case HeaderValueContentLength =>
      if IsDigit(b) then ReadAs(b - '0' as int, Length(MulAddContentLength1))
      else Peek(Length(HeaderValueContentLengthWs))
    case HeaderValueContentLengthWs =>
      if b == LF || b == CR then Peek(Length(HaveContentLength))
      else if b == SP then Read(Length(HeaderValueContentLengthWs)) else Peek(Length(SpanEndContentLength))
    case _ => Peek(Dead)
  }

  function LengthRun(s: LengthState, r: Registers): (Registers, Label) {
    match s
    case MulAddContentLength1 =>
      var f := MulAdd(10, r.contentLength, r.matched);
      (r.(contentLength := f.value),
       if f.overflow then Length(SpanEndContentLength) else Length(HeaderValueContentLength))
    case HaveContentLength =>
      (r.(flags := r.flags.(contentLength := true)), Value(HeaderValueOtherwise))
    case _ => (r, Dead)
  }

  function LengthRank(s: LengthState): nat {
    match s
    case HaveContentLength => 6
    case HeaderValueContentLengthWs => 7
    case HeaderValueContentLength => 8
    case MulAddContentLength1 => 9
    case _ => 1
  }

  // ---------------------------------------------------------------- the value of Transfer-Encoding
  // (9507-9550, 9610-9672, 13900-13939)

  function CodingNode(s: CodingState): Node<Label> {
    match s
    case HeaderValueTeChunked => Sequence(ToLowerUnsafe, CHUNKED, 0, Coding(HeaderValueTeChunkedLast),
                                          Coding(HeaderValueTeToken))
    case HaveChunked | ForgetTe => Invoke(None)
    case _ => Switch
  }

  function CodingEdge(s: CodingState, b: Byte): Edge<Label> {
    match s
    case HeaderValueTeChunkedLast =>
      if b == LF || b == CR then Peek(Coding(HaveChunked)) else if b == SP then Read(Coding(HeaderValueTeChunkedLast))
      else Peek(Coding(HeaderValueTeChunked))
    case HeaderValueTeToken =>
      if b == ',' as int then Read(Coding(HeaderValueTeTokenOws))
      else if IsHeaderValueByte(b) then Read(Coding(HeaderValueTeToken)) else Peek(Coding(ForgetTe))
    case HeaderValueTeTokenOws =>
      if b == HT || b == SP then Read(Coding(HeaderValueTeTokenOws)) else Peek(Coding(HeaderValueTeChunked))
    case _ => Peek(Dead)
  }

  function CodingRun(s: CodingState, r: Registers): (Registers, Label) {
    match s
    case HaveChunked => (r.(headerState := H_CHUNKED), Value(HeaderValueOtherwise))
    case ForgetTe => (r.(headerState := H_GENERAL), Value(HeaderValue))
    case _ => (r, Dead)
  }

  function CodingRank(s: CodingState): nat {
    match s
    case HaveChunked => 6
    case ForgetTe => 7
    case HeaderValueTeToken => 8
    case HeaderValueTeChunked => 9
    case _ => 10
  }

  // ---------------------------------------------------------------- end of the headers (9075-9103, 13377-13511)

  function HeadersNode(s: HeadersState): Node<Label> {
    match s
    case OnHeadersComplete => Invoke(Some(HeadersComplete))
    case HeadersDone | AfterHeaders => Invoke(None)
    case _ => Switch
  }

  function HeadersEdge(s: HeadersState, b: Byte): Edge<Label> {
    match s
    case HeadersAlmostDone => Read(Headers(HeadersDone))
    case _ => Peek(Dead)
  }

  function HeadersRun(s: HeadersState, r: Registers): (Registers, Label) {
    match s
    case HeadersDone =>
      if r.flags.trailing then (r, Body(OnChunkComplete1))
      else if r.flags.contentLength && r.flags.transferEncoding && !r.lenient.chunkedLength
      then (r, Failing(UNEXPECTED_CONTENT_LENGTH))
      else (BeforeHeadersComplete(r), Headers(OnHeadersComplete))
    case OnHeadersComplete => (r, Headers(AfterHeaders))
    case AfterHeaders =>
      (r, match AfterHeadersComplete(r)
      case NoBodyUpgrade => Done(OnMessageComplete1)
      case Chunks => Body(UpdateContentLength)
      case Counted => Body(SpanStartBody1)
      case UntilEof => Body(BodyUntilEof)
      case BadTransferEncoding => Failing(INVALID_TRANSFER_ENCODING)
      case NoBody => Done(OnMessageComplete))
    case _ => (r, Dead)
  }

  function HeadersRank(s: HeadersState): nat {
    match s
    case AfterHeaders => 15
    case OnHeadersComplete => 16
    case HeadersDone => 17
    case _ => 0
  }

  // ---------------------------------------------------------------- bodies (8657-9074, 13179-13376)

  function BodyNode(s: BodyState): Node<Label> {
    match s
    case OnChunkHeader => Invoke(Some(ChunkHeader))
    case SpanStartBody => SpanStart(OnBody, Body(ConsumeContentLength))
    case ConsumeContentLength => Consume(Body(SpanEndBody))
    case SpanEndBody => SpanEnd(false, Body(ChunkDataAlmostDone))
    case OnChunkComplete => Invoke(Some(ChunkComplete))
    case OnChunkComplete1 => Invoke(Some(ChunkComplete))
    case SpanStartBody1 => SpanStart(OnBody, Body(ConsumeContentLength1))
    case ConsumeContentLength1 => Consume(Body(SpanEndBody1))
    case SpanEndBody1 => SpanEnd(false, Done(OnMessageComplete2))
    case SpanStartBody2 => SpanStart(OnBody, Body(Eof))
    case UpdateContentLength | MulAddContentLength | BodyUntilEof => Invoke(None)
    case _ => Switch
  }

  function BodyEdge(s: BodyState, b: Byte): Edge<Label> {
    match s
    case ChunkSizeDigit =>
      if IsHexDigit(b) then ReadAs(HexValue(b), Body(MulAddContentLength)) else Fail(INVALID_CHUNK_SIZE)
    case ChunkSize =>
      if IsHexDigit(b) then ReadAs(HexValue(b), Body(MulAddContentLength)) else Peek(Body(ChunkSizeOtherwise))
    case ChunkSizeOtherwise =>
      if b == CR then Read(Body(ChunkSizeAlmostDone))
      else if b == SP || b == ';' as int then Read(Body(ChunkParameters)) else Fail(INVALID_CHUNK_SIZE)
    case ChunkParameters =>
      if b == CR then Read(Body(ChunkSizeAlmostDone)) else Read(Body(ChunkParameters))
    case ChunkSizeAlmostDone => Read(Body(OnChunkHeader))
    case ChunkDataAlmostDone => Read(Body(ChunkDataAlmostDoneSkip))
    case ChunkDataAlmostDoneSkip => Read(Body(OnChunkComplete))
    case Eof => Read(Body(Eof))
    case _ => Peek(Dead)
  }

  function BodyRun(s: BodyState, r: Registers): (Registers, Label) {
    match s
    case UpdateContentLength => (r.(contentLength := 0), Body(ChunkSizeDigit))
    case MulAddContentLength =>
      var f := MulAdd(16, r.contentLength, r.matched);
      (r.(contentLength := f.value), if f.overflow then Failing(INVALID_CHUNK_SIZE) else Body(ChunkSize))
    case OnChunkHeader =>
      if r.contentLength == 0 then (r.(flags := r.flags.(trailing := true)), Name(HeaderFieldStart))
      else (r, Body(SpanStartBody))
    case OnChunkComplete => (r, Body(UpdateContentLength))
    case OnChunkComplete1 => (r, Done(OnMessageComplete2))
    case BodyUntilEof => (r.(finish := FINISH_SAFE_WITH_CB), Body(SpanStartBody2))
    case _ => (r, Dead)
  }

  function BodyRank(s: BodyState): nat {
    match s
    case ChunkSizeDigit | ChunkSizeOtherwise | SpanEndBody | SpanStartBody2 => 1
    case UpdateContentLength | ChunkSize | ConsumeContentLength | BodyUntilEof => 2
    case MulAddContentLength | SpanStartBody | OnChunkComplete => 3
    case OnChunkHeader => 7
    case OnChunkComplete1 | SpanEndBody1 => 12
    case ConsumeContentLength1 => 13
    case SpanStartBody1 => 14
    case _ => 0
  }

  function BodySpan(s: BodyState): Option<Span> {
    match s
    case ConsumeContentLength | SpanEndBody | ConsumeContentLength1 | SpanEndBody1 | Eof => Some(OnBody)
    case _ => None
  }

  // ---------------------------------------------------------------- message end
  // (8602-8656, 13117-13142, 13218-13229, 13404-13415)

  function DoneNode(s: DoneState): Node<Label> {
    match s
    case OnMessageComplete => Invoke(Some(MessageComplete))
    case OnMessageComplete1 => Invoke(Some(MessageComplete))
    case OnMessageComplete2 => Invoke(Some(MessageComplete))
    case Upgraded => Pause(PAUSED_UPGRADE, Done(AfterMessage))
    case IsEqualUpgrade | AfterMessage | KeepAlive | Close => Invoke(None)
    case _ => Switch
  }

  function DoneEdge(s: DoneState, b: Byte): Edge<Label> {
    match s
    case Closed => Read(Done(Closed))
    case _ => Peek(Dead)
  }

  function DoneRun(s: DoneState, r: Registers): (Registers, Label) {
    match s
    case OnMessageComplete => (r, Done(AfterMessage))
    case OnMessageComplete1 => (r, Done(Upgraded))
    case OnMessageComplete2 => (r, Done(IsEqualUpgrade))
    case IsEqualUpgrade => (r, if r.upgrade then Done(Upgraded) else Done(AfterMessage))
    case AfterMessage =>
      (AfterMessageComplete(r), if ShouldKeepAlive(r) then Done(KeepAlive) else Done(Close))
    case KeepAlive => (r.(finish := FINISH_SAFE), Begin(Start))
    case Close =>
      (r.(finish := FINISH_SAFE), if r.lenient.keepAlive then Done(KeepAlive) else Done(Closed))
    case _ => (r, Dead)
  }

  function DoneRank(s: DoneState): nat {
    match s
    case OnMessageComplete1 => 1
    case KeepAlive => 7
    case Close => 8
    case AfterMessage => 9
    case OnMessageComplete | IsEqualUpgrade => 10
    case OnMessageComplete2 => 11
    case _ => 0
  }

  function NodeOf(l: Label): Node<Label> {
    match l
    case Begin(s) => BeginNode(s)
    case Request(s) => RequestNode(s)
    case Version(s) => VersionNode(s)
    case Status(s) => StatusNode(s)
    case Name(s) => NameNode(s)
    case Value(s) => ValueNode(s)
    case Connection(s) => ConnectionNode(s)
    case Length(s) => LengthNode(s)
    case Coding(s) => CodingNode(s)
    case Headers(s) => HeadersNode(s)
    case Body(s) => BodyNode(s)
    case Done(s) => DoneNode(s)
    // the error nodes; nothing runs in s_error
    case Failing(code) => Pause(code, Dead)
    case Dead => Pause(INTERNAL, Dead)
  }

  function EdgeOf(l: Label, b: Byte): Edge<Label> {
    match l
    case Begin(s) => BeginEdge(s, b)
    case Request(s) => RequestEdge(s, b)
    case Version(s) => VersionEdge(s, b)
    case Status(s) => StatusEdge(s, b)
    case Name(s) => NameEdge(s, b)
    case Value(s) => ValueEdge(s, b)
    case Connection(s) => ConnectionEdge(s, b)
    case Length(s) => LengthEdge(s, b)
    case Coding(s) => CodingEdge(s, b)
    case Headers(s) => HeadersEdge(s, b)
    case Body(s) => BodyEdge(s, b)
    case Done(s) => DoneEdge(s, b)
    case _ => Peek(Dead)
  }

  function RunOf(l: Label, r: Registers): (Registers, Label) {
    match l
    case Begin(s) => BeginRun(s, r)
    case Version(s) => VersionRun(s, r)
    case Status(s) => StatusRun(s, r)
    case Name(s) => NameRun(s, r)
    case Value(s) => ValueRun(s, r)
    case Connection(s) => ConnectionRun(s, r)
    case Length(s) => LengthRun(s, r)
    case Coding(s) => CodingRun(s, r)
    case Headers(s) => HeadersRun(s, r)
    case Body(s) => BodyRun(s, r)
    case Done(s) => DoneRun(s, r)
    case _ => (r, Dead)
  }

  /** Goes down along every jump that reads nothing. */
  function RankOf(l: Label): nat {
    match l
    case Begin(s) => BeginRank(s)
    case Request(s) => RequestRank(s)
    case Version(s) => VersionRank(s)
    case Status(s) => StatusRank(s)
    case Name(s) => NameRank(s)
    case Value(s) => ValueRank(s)
    case Connection(s) => ConnectionRank(s)
    case Length(s) => LengthRank(s)
    case Coding(s) => CodingRank(s)
    case Headers(s) => HeadersRank(s)
    case Body(s) => BodyRank(s)
    case Done(s) => DoneRank(s)
    case _ => 0
  }

  /** The span open in a control state. */
  function SpanOf(l: Label): Option<Span> {
    match l
    case Request(s) => RequestSpan(s)
    case Status(s) => StatusSpan(s)
    case Name(s) => NameSpan(s)
    case Value(s) => ValueSpan(s)
    case Connection(s) => Some(OnHeaderValue)
    case Length(s) => Some(OnHeaderValue)
    case Coding(s) => Some(OnHeaderValue)
    case Body(s) => BodySpan(s)
    case _ => None
  }

  function Table(): Program<Label> { Program(NodeOf, EdgeOf, RunOf, RankOf, SpanOf) }

  /** `llhttp_init`. */
  function Init(kind: nat, lenient: Lenient): State<Label> {
    State(Begin(Start), 0, Registers(0, 0, kind, 0, 0, 0, 0, lenient, false, FINISH_SAFE, NO_FLAGS, 0), None, [], 0, [])
  }

  ghost predicate Jump(l: Label, advance: bool, next: Label) {
    (advance || RankOf(next) < RankOf(l)) && (next.Failing? || next.Dead? || SpanOf(next) == SpanOf(l))
  }

  ghost predicate StaticOk(l: Label) {
    match NodeOf(l)
    case Sequence(_, blob, _, complete, mismatch) => blob != [] && Jump(l, true, complete) && Jump(l, false, mismatch)
    case SpanStart(span, next) => SpanOf(l) == None && RankOf(next) < RankOf(l) && SpanOf(next) == Some(span)
    case SpanEnd(advance, next) =>
      SpanOf(l).Some? && (advance || RankOf(next) < RankOf(l)) && (next.Failing? || SpanOf(next) == None)
    case Consume(next) => Jump(l, false, next)
    case Invoke(call) => call.Some? ==> SpanOf(l) == None
    case _ => true
  }

  ghost predicate EdgeOk(l: Label, b: Byte) {
    NodeOf(l).Switch? ==> Jump(l, EdgeOf(l, b).advance, EdgeOf(l, b).next)
  }

  ghost predicate RunOk(l: Label, r: Registers) {
    NodeOf(l).Invoke? ==> Jump(l, false, RunOf(l, r).1)
  }

  lemma BeginEdges(s: BeginState, b: Byte)
    ensures EdgeOk(Begin(s), b)
  {}

  lemma BeginRuns(s: BeginState, r: Registers)
    ensures RunOk(Begin(s), r)
  {}

  lemma BeginStatic(s: BeginState)
    ensures StaticOk(Begin(s))
  {}

  lemma RequestEdges(s: RequestState, b: Byte)
    ensures EdgeOk(Request(s), b)
  {}

  lemma RequestStatic(s: RequestState)
    ensures StaticOk(Request(s))
  {}

  lemma VersionEdges(s: VersionState, b: Byte)
    ensures EdgeOk(Version(s), b)
  {}

  lemma VersionRuns(s: VersionState, r: Registers)
    ensures RunOk(Version(s), r)
  {}

  lemma VersionStatic(s: VersionState)
    ensures StaticOk(Version(s))
  {}

  lemma StatusEdges(s: StatusState, b: Byte)
    ensures EdgeOk(Status(s), b)
  {}

  lemma StatusRuns(s: StatusState, r: Registers)
    ensures RunOk(Status(s), r)
  {}

  lemma StatusStatic(s: StatusState)
    ensures StaticOk(Status(s))
  {}

  lemma NameEdges(s: NameState, b: Byte)
    ensures EdgeOk(Name(s), b)
  {}

  lemma NameRuns(s: NameState, r: Registers)
    ensures RunOk(Name(s), r)
  {}

  lemma NameStatic(s: NameState)
    ensures StaticOk(Name(s))
  {}

  lemma ValueEdges(s: ValueState, b: Byte)
    ensures EdgeOk(Value(s), b)
  {}

  lemma ValueRuns(s: ValueState, r: Registers)
    ensures RunOk(Value(s), r)
  {}

  lemma ValueStatic(s: ValueState)
    ensures StaticOk(Value(s))
  {}

  lemma ConnectionEdges(s: ConnectionState, b: Byte)
    ensures EdgeOk(Connection(s), b)
  {}

  lemma ConnectionRuns(s: ConnectionState, r: Registers)
    ensures RunOk(Connection(s), r)
  {}

  lemma ConnectionStatic(s: ConnectionState)
    ensures StaticOk(Connection(s))
  {}

  lemma LengthEdges(s: LengthState, b: Byte)
    ensures EdgeOk(Length(s), b)
  {}

  lemma LengthRuns(s: LengthState, r: Registers)
    ensures RunOk(Length(s), r)
  {}

  lemma LengthStatic(s: LengthState)
    ensures StaticOk(Length(s))
  {}

  lemma CodingEdges(s: CodingState, b: Byte)
    ensures EdgeOk(Coding(s), b)
  {}

  lemma CodingRuns(s: CodingState, r: Registers)
    ensures RunOk(Coding(s), r)
  {}

  lemma CodingStatic(s: CodingState)
    ensures StaticOk(Coding(s))
  {}

  lemma HeadersEdges(s: HeadersState, b: Byte)
    ensures EdgeOk(Headers(s), b)
  {}

  lemma HeadersRuns(s: HeadersState, r: Registers)
    ensures RunOk(Headers(s), r)
  {}

  lemma HeadersStatic(s: HeadersState)
    ensures StaticOk(Headers(s))
  {}

  lemma BodyEdges(s: BodyState, b: Byte)
    ensures EdgeOk(Body(s), b)
  {}

  lemma BodyRuns(s: BodyState, r: Registers)
    ensures RunOk(Body(s), r)
  {}

  lemma BodyStatic(s: BodyState)
    ensures StaticOk(Body(s))
  {}

  lemma DoneEdges(s: DoneState, b: Byte)
    ensures EdgeOk(Done(s), b)
  {}

  lemma DoneRuns(s: DoneState, r: Registers)
    ensures RunOk(Done(s), r)
  {}

  lemma DoneStatic(s: DoneState)
    ensures StaticOk(Done(s))
  {}

  lemma EveryEdge(l: Label, b: Byte)
    ensures EdgeOk(l, b)
  {
    match l
    case Begin(s) => BeginEdges(s, b);
    case Request(s) => RequestEdges(s, b);
    case Version(s) => VersionEdges(s, b);
    case Status(s) => StatusEdges(s, b);
    case Name(s) => NameEdges(s, b);
    case Value(s) => ValueEdges(s, b);
    case Connection(s) => ConnectionEdges(s, b);
    case Length(s) => LengthEdges(s, b);
    case Coding(s) => CodingEdges(s, b);
    case Headers(s) => HeadersEdges(s, b);
    case Body(s) => BodyEdges(s, b);
    case Done(s) => DoneEdges(s, b);
    case _ =>
  }

  lemma EveryRun(l: Label, r: Registers)
    ensures RunOk(l, r)
  {
    match l
    case Begin(s) => BeginRuns(s, r);
    case Version(s) => VersionRuns(s, r);
    case Status(s) => StatusRuns(s, r);
    case Name(s) => NameRuns(s, r);
    case Value(s) => ValueRuns(s, r);
    case Connection(s) => ConnectionRuns(s, r);
    case Length(s) => LengthRuns(s, r);
    case Coding(s) => CodingRuns(s, r);
    case Headers(s) => HeadersRuns(s, r);
    case Body(s) => BodyRuns(s, r);
    case Done(s) => DoneRuns(s, r);
    case _ =>
  }

  lemma EveryNode(l: Label)
    ensures StaticOk(l)
  {
    match l
    case Begin(s) => BeginStatic(s);
    case Request(s) => RequestStatic(s);
    case Version(s) => VersionStatic(s);
    case Status(s) => StatusStatic(s);
    case Name(s) => NameStatic(s);
    case Value(s) => ValueStatic(s);
    case Connection(s) => ConnectionStatic(s);
    case Length(s) => LengthStatic(s);
    case Coding(s) => CodingStatic(s);
    case Headers(s) => HeadersStatic(s);
    case Body(s) => BodyStatic(s);
    case Done(s) => DoneStatic(s);
    case _ =>
  }

  lemma TableFields(l: Label)
    ensures Table().node(l) == NodeOf(l) && Table().rank(l) == RankOf(l) && Table().open(l) == SpanOf(l)
  {}

  lemma TableEdges(l: Label, b: Byte)
    ensures Table().edge(l, b) == EdgeOf(l, b)
  {}

  lemma TableRuns(l: Label, r: Registers)
    ensures Table().run(l, r) == RunOf(l, r)
  {}

  lemma JumpOkFrom(l: Label, advance: bool, open: Option<Span>, next: Label)
    requires (advance || RankOf(next) < RankOf(l)) && (next.Failing? || next.Dead? || SpanOf(next) == open)
    ensures JumpOk(Table(), l, advance, open, next)
  {
    TableFields(l);
    TableFields(next);
  }

  lemma SwitchOk(l: Label)
    requires NodeOf(l) == Switch
    ensures NodeOk(Table(), l)
  {
    TableFields(l);
    forall b: Byte
      ensures JumpOk(Table(), l, Table().edge(l, b).advance, Table().open(l), Table().edge(l, b).next)
    {
      EveryEdge(l, b);
      TableEdges(l, b);
      JumpOkFrom(l, EdgeOf(l, b).advance, SpanOf(l), EdgeOf(l, b).next);
    }
  }

  lemma InvokeOk(l: Label)
    requires NodeOf(l).Invoke?
    ensures NodeOk(Table(), l)
  {
    TableFields(l);
    EveryNode(l);
    forall r: Registers
      ensures JumpOk(Table(), l, false, Table().open(l), Table().run(l, r).1)
    {
      EveryRun(l, r);
      TableRuns(l, r);
      JumpOkFrom(l, false, SpanOf(l), RunOf(l, r).1);
    }
  }

  lemma FixedOk(l: Label)
    requires NodeOf(l) != Switch && !NodeOf(l).Invoke?
    ensures NodeOk(Table(), l)
  {
    TableFields(l);
    EveryNode(l);
    match NodeOf(l)
    case Sequence(_, blob, _, complete, mismatch) =>
      JumpOkFrom(l, true, SpanOf(l), complete);
      JumpOkFrom(l, false, SpanOf(l), mismatch);
    case SpanStart(span, next) => JumpOkFrom(l, false, Some(span), next);
    case SpanEnd(advance, next) => JumpOkFrom(l, advance, None, next);
    case Consume(next) => JumpOkFrom(l, false, SpanOf(l), next);
    case _ =>
  }

  /** The llhttp table is a well-formed program: its run loop ends, and the spans it opens depend
      only on the control state. */
  lemma LlhttpWellFormed()
    ensures WellFormed(Table())
  {
    forall l ensures NodeOk(Table(), l) {
      match NodeOf(l)
      case Switch => SwitchOk(l);
      case Invoke(_) => InvokeOk(l);
      case _ => FixedOk(l);
    }
  }
}
