/** Whole messages, from the parser's first state on: start line, header fields, body and trailers. */
module Messages {
  import opened Bytes
  import opened Llparse
  import opened HttpGlue
  import opened Digits
  import opened Llhttp
  import opened LlhttpSteps
  import opened ContentLengthValue
  import opened MessageEnd
  import opened HeaderFields
  import opened HeaderBlock
  import opened StartLine
  import opened ChunkedBody
  import opened ContentLengthBody
  import opened ReachableStates
  import opened UntilClose

  datatype Payload = Plain(body: seq<Byte>) | Split(chunks: seq<Chunk>, last: Chunk, trailers: seq<Field>)

  datatype Sent = Sent(line: Line, fields: seq<Field>, payload: Payload)

  function RenderPayload(p: Payload): seq<Byte> {
    match p
    case Plain(body) => body
    case Split(chunks, last, trailers) => RenderBody(chunks, last, trailers)
  }

  function Render(m: Sent): seq<Byte> {
    RenderLine(m.line) + (RenderFields(m.fields) + (CRLF + RenderPayload(m.payload)))
  }

  function BodyIn(m: Sent): seq<Byte> {
    match m.payload
    case Plain(body) => body
    case Split(chunks, _, _) => DataOf(chunks)
  }

  function PayloadCalls(p: Payload): seq<Call> {
    match p
    case Plain(body) => if body == [] then [] else [Data(OnBody, body)]
    case Split(chunks, _, trailers) => BodyCalls(chunks, trailers)
  }

  function HeadCalls(m: Sent): seq<Call> {
    LineCalls(m.line) + (CallsOfFields(m.fields) + [Notify(HeadersComplete)])
  }

  /** What the callbacks are told of a message before it is complete. */
  function Calls(m: Sent): seq<Call> {
    HeadCalls(m) + PayloadCalls(m.payload)
  }

  /** What a message leaves in content_length: the number in its trailers, if there is one. */
  ghost function LeftOver(m: Sent): Option<UInt64> {
    match m.payload
    case Plain(_) => Some(0)
    case Split(_, _, trailers) => LengthAfter(false, 0, Lengths(trailers))
  }

  predicate IsConnect(line: Line) {
    line.RequestLine? && line.verb.Connect?
  }

  /** A response that has no body for its status. */
  ghost predicate IsBodiless(line: Line)
    requires IsLine(line)
  {
    line.StatusLine? &&
    (StatusOf(line.code) / 100 == 1 || StatusOf(line.code) == 204 || StatusOf(line.code) == 304)
  }

  /** The fields say how the body is sent: its length, once; or that it comes in chunks; or nothing, and
      then it is empty, in a request or in a response that has none.  A Content-Length among the trailers
      can be read. */
  ghost predicate IsSent(m: Sent) {
    && IsLine(m.line) && AreFields(m.fields)
    && match m.payload
       case Plain(body) =>
         && Codings(m.fields) == []
         && if Lengths(m.fields) == [] then body == [] && (m.line.RequestLine? || IsBodiless(m.line))
            else !IsConnect(m.line) && Declares(Lengths(m.fields), |body|)
       case Split(chunks, last, trailers) =>
         && !IsConnect(m.line) && Lengths(m.fields) == [] && LastIsRun(Codings(m.fields))
         && IsBody(chunks, last, trailers) && LeftOver(m).Some?
  }

  ghost predicate Declares(lengths: seq<Written>, n: nat) {
    && |lengths| == 1 && lengths[0].folds == [] && HT !in lengths[0].first
    && Declared(lengths[0].first) == Some(n) && n <= MAX64
  }

  /** The parser between messages; and with nothing left of the one before. */
  ghost predicate AtAnyStart(s: State<Label>) {
    s.current == Begin(Start) && Between(s) && s.regs.flags == NO_FLAGS &&
      (s.regs.kind != HTTP_REQUEST ==> s.regs.verb == 0)
  }

  ghost predicate AtStart(s: State<Label>) {
    AtAnyStart(s) && s.regs.contentLength == 0
  }

  lemma InitIsAtStart(kind: nat, lenient: Lenient)
    ensures var s := Init(kind, lenient); AtStart(s) && Between(s) && s.log == [] && s.regs.kind == kind
  {}

  // ---------------------------------------------------------------- the start line

  ghost function AfterLine(s: State<Label>, line: Line): State<Label>
    requires IsLine(line)
  {
    s.(current := Name(HeaderFieldStart), regs := ApplyLine(s.regs, line), log := s.log + LineCalls(line))
  }

  lemma LineLeaves(s: State<Label>, line: Line)
    requires AtStart(s) && IsLine(line) && Expects(s.regs.kind, line)
    ensures AtHeaders(AfterLine(s, line)) && AfterLine(s, line).regs.contentLength == 0
    ensures AfterLine(s, line).regs.verb == HTTP_CONNECT <==> IsConnect(line)
  {}

  // ---------------------------------------------------------------- the bodies

  /** A request, or a response that has none for its status, that says nothing of a body. */
  predicate SaysNothing(r: Registers) {
    r.kind == HTTP_REQUEST || r.statusCode / 100 == 1 || r.statusCode == 204 || r.statusCode == 304
  }

  lemma NothingRuns(s: State<Label>, fields: seq<Field>, rest: seq<Byte>)
    requires AtHeaders(s) && s.regs.contentLength == 0 && SaysNothing(s.regs)
    requires AreFields(fields) && Codings(fields) == [] && Lengths(fields) == []
    ensures ApplyFields(s.regs, fields).Accepted?
    ensures RunsOnTo(s, RenderFields(fields) + (CRLF + rest), Completed(AfterCounted(s, fields, [])), rest)
  {
    FieldsMean(s.regs, fields);
    HeadersAreTold(s, fields, rest);
    var t := HeadersTold(s, fields);
    assert CallsOfFields(fields) + [Notify(HeadersComplete)] + [] == CallsOfFields(fields) + [Notify(HeadersComplete)];
    if t.regs.upgrade {
      NoBodyPauses(t, rest);
    } else {
      NoBodyEnds(t, rest);
    }
  }

  lemma PlainRuns(s: State<Label>, fields: seq<Field>, body: seq<Byte>, rest: seq<Byte>)
    requires AtHeaders(s) && s.regs.contentLength == 0 && AreFields(fields) && Codings(fields) == []
    requires if Lengths(fields) == [] then body == [] && SaysNothing(s.regs)
             else s.regs.verb != HTTP_CONNECT && Declares(Lengths(fields), |body|)
    ensures ApplyFields(s.regs, fields).Accepted?
    ensures RunsOnTo(s, RenderFields(fields) + (CRLF + (body + rest)), Completed(AfterCounted(s, fields, body)), rest)
  {
    if Lengths(fields) == [] {
      assert body + rest == rest;
      NothingRuns(s, fields, rest);
    } else {
      var v := Lengths(fields)[0].first;
      assert Lengths(fields) == OnOneLine(v);
      LengthsAreValues(fields, v);
      ReadAsDeclaredIff(0, v);
      MessageRuns(s, fields, v, body, rest);
    }
  }

  /** The parser before the first chunk. */
  ghost function BeforeChunks(s: State<Label>, fields: seq<Field>): State<Label>
    requires ApplyFields(s.regs, fields).Accepted?
  {
    var t := HeadersTold(s, fields);
    t.(current := Body(ChunkSizeDigit), regs := t.regs.(contentLength := 0))
  }

  /** Fields that call for chunks. */
  ghost predicate CallsForChunks(s: State<Label>, fields: seq<Field>) {
    AtHeaders(s) && s.regs.verb != HTTP_CONNECT && AreFields(fields) && Lengths(fields) == [] &&
      LastIsRun(Codings(fields))
  }

  lemma ChunksFollow(s: State<Label>, fields: seq<Field>)
    requires CallsForChunks(s, fields)
    ensures ApplyFields(s.regs, fields).Accepted?
    ensures var r := ApplyFields(s.regs, fields).regs;
            && !r.flags.trailing && !Contradictory(r) && AfterHeadersComplete(Completing(r)).Chunks?
            && !r.flags.contentLength
  {
    FieldsMean(s.regs, fields);
  }

  lemma ChunksStart(s: State<Label>, rest: seq<Byte>)
    requires s.current == Body(UpdateContentLength)
    ensures RunOn(s, rest) == RunOn(s.(current := Body(ChunkSizeDigit), regs := s.regs.(contentLength := 0)), rest)
  {
    Invokes(s, rest);
  }

  lemma ChunksBegin(s: State<Label>, fields: seq<Field>, rest: seq<Byte>)
    requires CallsForChunks(s, fields)
    ensures ApplyFields(s.regs, fields).Accepted? && AtChunk(BeforeChunks(s, fields))
    ensures !BeforeChunks(s, fields).regs.flags.contentLength
    ensures RunOn(s, RenderFields(fields) + (CRLF + rest)) == RunOn(BeforeChunks(s, fields), rest)
  {
    ChunksFollow(s, fields);
    HeadersAreTold(s, fields, rest);
    ChunksStart(HeadersTold(s, fields), rest);
  }

  /** Trailers are accepted if their Content-Length, if any, can be read. */
  lemma TrailersAccepted(r: Registers, trailers: seq<Field>)
    requires !r.flags.contentLength && LengthAfter(false, 0, Lengths(trailers)).Some?
    ensures ApplyFields(Ended(r), trailers).Accepted?
    ensures Some(ApplyFields(Ended(r), trailers).regs.contentLength) == LengthAfter(false, 0, Lengths(trailers))
  {
    FieldsMean(Ended(r), trailers);
  }

  /** The state in which the last of a chunked body has been told. */
  ghost function AfterChunked(s: State<Label>, fields: seq<Field>, p: Payload): State<Label>
    requires p.Split? && ApplyFields(s.regs, fields).Accepted?
    requires ApplyFields(Ended(BeforeChunks(s, fields).regs), p.trailers).Accepted?
  {
    var t := BeforeChunks(s, fields);
    AfterBody(t, p.chunks, p.trailers, ApplyFields(Ended(t.regs), p.trailers).regs)
  }

  lemma ChunkedRuns(s: State<Label>, fields: seq<Field>, p: Payload, rest: seq<Byte>)
    requires CallsForChunks(s, fields)
    requires p.Split? && IsBody(p.chunks, p.last, p.trailers) && LengthAfter(false, 0, Lengths(p.trailers)).Some?
    ensures ApplyFields(s.regs, fields).Accepted? &&
            ApplyFields(Ended(BeforeChunks(s, fields).regs), p.trailers).Accepted?
    ensures RunsOnTo(s, RenderFields(fields) + (CRLF + (RenderPayload(p) + rest)),
                     Completed(AfterChunked(s, fields, p)), rest)
  {
    ChunksBegin(s, fields, RenderPayload(p) + rest);
    var t := BeforeChunks(s, fields);
    TrailersAccepted(t.regs, p.trailers);
    ChunkedBody.BodyRuns(t, p.chunks, p.last, p.trailers, ApplyFields(Ended(t.regs), p.trailers).regs, rest);
  }

  // ---------------------------------------------------------------- the message

  ghost predicate AsksUpgrade(fields: seq<Field>) {
    Upgrades(fields) != [] && H_CONNECTION_UPGRADE in ConnectionOptions(fields)
  }

  /** What follows the message is in another protocol. */
  ghost predicate Upgrading(line: Line, fields: seq<Field>)
    requires IsLine(line)
  {
    if AsksUpgrade(fields) then line.RequestLine? || StatusOf(line.code) == 101 else IsConnect(line)
  }

  /** What the run has come to when the message is told but for its end. */
  ghost predicate Told(s: State<Label>, m: Sent, t: State<Label>)
    requires IsSent(m)
  {
    && t.span == None && t.held == [] && t.error == 0 && t.index == 0 && t.log == s.log + Calls(m)
    && Some(t.regs.contentLength) == LeftOver(m) && t.regs.lenient == s.regs.lenient
    && t.regs.upgrade == Upgrading(m.line, m.fields)
    && t.regs.kind == (if m.line.RequestLine? then HTTP_REQUEST else HTTP_RESPONSE)
    && (m.line.StatusLine? ==> t.regs.verb == s.regs.verb)
  }

  /** The options of Connection, those among the trailers too. */
  ghost function AllOptions(m: Sent): set<nat> {
    ConnectionOptions(m.fields) + if m.payload.Split? then ConnectionOptions(m.payload.trailers) else {}
  }

  /** What its version and its options say of the connection (section 6.3 of RFC 7230): HTTP/1.1 keeps it
      unless told to close it, HTTP/1.0 closes it unless told to keep it alive. */
  ghost predicate Asks(m: Sent) {
    if m.line.major != '0' as int && m.line.minor != '0' as int then H_CLOSE !in AllOptions(m)
    else H_KEEP_ALIVE in AllOptions(m)
  }

  /** A Transfer-Encoding among the trailers of a response takes back what its header said. */
  ghost predicate TakesBack(m: Sent)
    requires IsSent(m)
  {
    && m.line.StatusLine? && !IsBodiless(m.line)
    && m.payload.Split? && Codings(m.payload.trailers) != [] && !LastIsRun(Codings(m.payload.trailers))
  }

  /** Another message can follow. */
  ghost predicate Lasts(m: Sent)
    requires IsSent(m)
  {
    !Upgrading(m.line, m.fields) && Asks(m) && !TakesBack(m)
  }

  lemma CallsTogether(log: seq<Call>, m: Sent)
    ensures log + LineCalls(m.line) + (CallsOfFields(m.fields) + [Notify(HeadersComplete)]) +
            PayloadCalls(m.payload) == log + Calls(m)
  {
    Associates(log, LineCalls(m.line), CallsOfFields(m.fields) + [Notify(HeadersComplete)]);
    Associates(log, HeadCalls(m), PayloadCalls(m.payload));
  }

  /** The parser behind a message keeps the connection just if that asks for it. */
  ghost predicate Keeps(m: Sent, t: State<Label>)
    requires IsSent(m)
  {
    ShouldKeepAlive(t.regs) <==> Asks(m) && !TakesBack(m)
  }

  /** What the headers leave of the start line. */
  lemma BlockKeeps(r: Registers, fields: seq<Field>)
    requires r.flags == NO_FLAGS && ApplyFields(r, fields).Accepted?
    ensures var a := AfterBlock(r, fields);
            && a.flags == FlagsAfter(NO_FLAGS, fields)
            && a.upgrade == (if AsksUpgrade(fields) then r.kind == HTTP_REQUEST || r.statusCode == 101
                             else r.verb == HTTP_CONNECT)
            && a == r.(matched := 0, headerState := a.headerState, contentLength := a.contentLength, flags := a.flags,
                       upgrade := a.upgrade)
  {
    FieldsMean(r, fields);
  }

  lemma LineUpgrades(s: State<Label>, line: Line, fields: seq<Field>)
    requires AtStart(s) && IsLine(line) && Expects(s.regs.kind, line)
    ensures var r := AfterLine(s, line).regs;
            r.flags == NO_FLAGS &&
            (Upgrading(line, fields) <==>
             if AsksUpgrade(fields) then r.kind == HTTP_REQUEST || r.statusCode == 101 else r.verb == HTTP_CONNECT)
  {}

  lemma PlainTold(s: State<Label>, m: Sent)
    requires AtStart(s) && IsSent(m) && m.payload.Plain? && Expects(s.regs.kind, m.line)
    requires ApplyFields(AfterLine(s, m.line).regs, m.fields).Accepted?
    ensures Told(s, m, AfterCounted(AfterLine(s, m.line), m.fields, m.payload.body))
  {
    var s1 := AfterLine(s, m.line);
    LineUpgrades(s, m.line, m.fields);
    BlockKeeps(s1.regs, m.fields);
    CallsTogether(s.log, m);
    Associates(s1.log, CallsOfFields(m.fields) + [Notify(HeadersComplete)], PayloadCalls(m.payload));
  }

  lemma PlainKeeps(s: State<Label>, m: Sent)
    requires AtStart(s) && IsSent(m) && m.payload.Plain? && Expects(s.regs.kind, m.line)
    requires ApplyFields(AfterLine(s, m.line).regs, m.fields).Accepted?
    ensures Keeps(m, AfterCounted(AfterLine(s, m.line), m.fields, m.payload.body))
  {
    LineUpgrades(s, m.line, m.fields);
    BlockKeeps(AfterLine(s, m.line).regs, m.fields);
  }

  lemma PlainIsTold(s: State<Label>, m: Sent, rest: seq<Byte>) returns (t: State<Label>)
    requires AtStart(s) && IsSent(m) && m.payload.Plain? && Expects(s.regs.kind, m.line)
    ensures Told(s, m, t) && Keeps(m, t)
    ensures RunsOnTo(AfterLine(s, m.line), RenderFields(m.fields) + (CRLF + (RenderPayload(m.payload) + rest)),
                     Completed(t), rest)
  {
    LineLeaves(s, m.line);
    PlainRuns(AfterLine(s, m.line), m.fields, m.payload.body, rest);
    PlainTold(s, m);
    PlainKeeps(s, m);
    t := AfterCounted(AfterLine(s, m.line), m.fields, m.payload.body);
  }

  /** The trailers have been accepted behind the chunks. */
  ghost predicate Trailed(s: State<Label>, m: Sent) {
    && AtStart(s) && IsSent(m) && m.payload.Split? && Expects(s.regs.kind, m.line)
    && ApplyFields(AfterLine(s, m.line).regs, m.fields).Accepted?
    && ApplyFields(Ended(BeforeChunks(AfterLine(s, m.line), m.fields).regs), m.payload.trailers).Accepted?
  }

  /** What is left of the start line when the chunks begin. */
  lemma BeforeChunksKeeps(s: State<Label>, m: Sent)
    requires Trailed(s, m)
    ensures var r, a := AfterLine(s, m.line).regs, BeforeChunks(AfterLine(s, m.line), m.fields).regs;
            && a.flags == FlagsAfter(NO_FLAGS, m.fields) && a.upgrade == Upgrading(m.line, m.fields)
            && a == r.(matched := 0, headerState := a.headerState, contentLength := 0, flags := a.flags,
                       upgrade := a.upgrade)
  {
    LineUpgrades(s, m.line, m.fields);
    BlockKeeps(AfterLine(s, m.line).regs, m.fields);
  }

  lemma ChunkedTold(s: State<Label>, m: Sent)
    requires Trailed(s, m)
    ensures Told(s, m, AfterChunked(AfterLine(s, m.line), m.fields, m.payload))
  {
    BeforeChunksKeeps(s, m);
    FieldsMean(Ended(BeforeChunks(AfterLine(s, m.line), m.fields).regs), m.payload.trailers);
    CallsTogether(s.log, m);
  }

  lemma ChunkedKeeps(s: State<Label>, m: Sent)
    requires Trailed(s, m)
    ensures Keeps(m, AfterChunked(AfterLine(s, m.line), m.fields, m.payload))
  {
    BeforeChunksKeeps(s, m);
    FieldsMean(Ended(BeforeChunks(AfterLine(s, m.line), m.fields).regs), m.payload.trailers);
  }

  lemma ChunkedIsTold(s: State<Label>, m: Sent, rest: seq<Byte>) returns (t: State<Label>)
    requires AtStart(s) && IsSent(m) && m.payload.Split? && Expects(s.regs.kind, m.line)
    ensures Told(s, m, t) && Keeps(m, t)
    ensures RunsOnTo(AfterLine(s, m.line), RenderFields(m.fields) + (CRLF + (RenderPayload(m.payload) + rest)),
                     Completed(t), rest)
  {
    LineLeaves(s, m.line);
    ChunkedRuns(AfterLine(s, m.line), m.fields, m.payload, rest);
    ChunkedTold(s, m);
    ChunkedKeeps(s, m);
    t := AfterChunked(AfterLine(s, m.line), m.fields, m.payload);
  }

  lemma MessageIsTold(s: State<Label>, m: Sent, rest: seq<Byte>) returns (t: State<Label>)
    requires AtStart(s) && IsSent(m) && Expects(s.regs.kind, m.line)
    ensures Told(s, m, t) && Keeps(m, t)
    ensures RunsOnTo(s, Render(m) + rest, Completed(t), rest)
  {
    var tail := RenderFields(m.fields) + (CRLF + RenderPayload(m.payload));
    Associates(RenderLine(m.line), tail, rest);
    Associates(RenderFields(m.fields), CRLF + RenderPayload(m.payload), rest);
    Associates(CRLF, RenderPayload(m.payload), rest);
    LineIsRead(s, m.line, tail + rest);
    if m.payload.Plain? {
      t := PlainIsTold(s, m, rest);
    } else {
      t := ChunkedIsTold(s, m, rest);
    }
  }

  lemma LineIsQuiet(line: Line)
    ensures Quiet(LineCalls(line))
  {
    QuietThen([], Notify(MessageBegin));
    assert [] + [Notify(MessageBegin)] == [Notify(MessageBegin)];
    match line
    case RequestLine(_, url, _, _) =>
      QuietThenTwo([Notify(MessageBegin)], Data(OnUrl, url), Notify(UrlComplete));
      assert LineCalls(line) == [Notify(MessageBegin)] + [Data(OnUrl, url), Notify(UrlComplete)];
    case StatusLine(_, _, _, reason) =>
      if reason == [] {
        QuietThen([Notify(MessageBegin)], Notify(StatusComplete));
        assert LineCalls(line) == [Notify(MessageBegin)] + [Notify(StatusComplete)];
      } else {
        QuietThenTwo([Notify(MessageBegin)], Data(OnStatus, reason), Notify(StatusComplete));
        assert LineCalls(line) == [Notify(MessageBegin)] + [Data(OnStatus, reason), Notify(StatusComplete)];
      }
  }

  /** Of this, the body is the body, and no message is complete yet. */
  lemma ToldOfCalls(m: Sent)
    ensures BodyOf(Norm(Calls(m))) == BodyIn(m) && CountOf(MessageComplete, Norm(Calls(m))) == 0
  {
    LineIsQuiet(m.line);
    FieldsAreQuiet(m.fields);
    QuietThen(CallsOfFields(m.fields), Notify(HeadersComplete));
    QuietTogether(LineCalls(m.line), CallsOfFields(m.fields) + [Notify(HeadersComplete)]);
    match m.payload
    case Plain(body) =>
      if body == [] {
        assert HeadCalls(m) + [] == HeadCalls(m);
      } else {
        ThenDelivers(HeadCalls(m), body);
      }
    case Split(chunks, _, trailers) =>
      ToldOfBody(chunks, trailers);
      ToldOfBoth(HeadCalls(m), BodyCalls(chunks, trailers));
      assert [] + DataOf(chunks) == DataOf(chunks);
  }

  /** A whole message, request or response, with a counted body, chunks and trailers, or none, cut into
      buffers anywhere: the callbacks get its line, its fields and exactly its body, and then one complete
      message; t is where that leaves the parser. */
  lemma MessageRoundTrip(s: State<Label>, m: Sent, pieces: seq<seq<Byte>>) returns (t: State<Label>)
    requires AtStart(s) && IsSent(m) && Expects(s.regs.kind, m.line) && Concat(pieces) == Render(m)
    ensures Told(s, m, t) && DeliversOnce(s, pieces, t, Calls(m), BodyIn(m))
  {
    assert Render(m) + [] == Render(m);
    t := MessageIsTold(s, m, []);
    ToldOfCalls(m);
    CompletesOnce(s, pieces, Calls(m), t, BodyIn(m));
  }

  // ---------------------------------------------------------------- one after another

  function RenderMessages(ms: seq<Sent>): seq<Byte> {
    if ms == [] then [] else Render(ms[0]) + RenderMessages(ms[1..])
  }

  function CallsOfMessages(ms: seq<Sent>): seq<Call> {
    if ms == [] then [] else Calls(ms[0]) + [Notify(MessageComplete)] + CallsOfMessages(ms[1..])
  }

  /** The bodies, one behind the other. */
  function BodiesIn(ms: seq<Sent>): seq<Byte> {
    if ms == [] then [] else BodyIn(ms[0]) + BodiesIn(ms[1..])
  }

  /** Requests all, or responses all, none of which ends the connection or has a length in its trailers. */
  ghost predicate AreSent(ms: seq<Sent>, requests: bool) {
    forall m | m in ms :: IsSent(m) && Lasts(m) && LeftOver(m) == Some(0) && m.line.RequestLine? == requests
  }

  ghost predicate ExpectsAll(kind: nat, requests: bool) {
    if requests then kind != HTTP_RESPONSE else kind != HTTP_REQUEST
  }

  lemma MessageIsFollowed(s: State<Label>, m: Sent, requests: bool, rest: seq<Byte>) returns (u: State<Label>)
    requires AtStart(s) && IsSent(m) && Lasts(m) && m.line.RequestLine? == requests && ExpectsAll(s.regs.kind, requests)
    ensures AtAnyStart(u) && Some(u.regs.contentLength) == LeftOver(m) && ExpectsAll(u.regs.kind, requests)
    ensures u.regs.lenient == s.regs.lenient
    ensures u.log == s.log + (Calls(m) + [Notify(MessageComplete)])
    ensures RunOn(s, Render(m) + rest) == RunOn(u, rest)
  {
    var t := MessageIsTold(s, m, rest);
    u := Completed(t);
    Associates(s.log, Calls(m), [Notify(MessageComplete)]);
  }

  lemma {:induction false} MessagesRun(s: State<Label>, ms: seq<Sent>, requests: bool, rest: seq<Byte>)
    returns (u: State<Label>)
    requires AtStart(s) && AreSent(ms, requests) && ExpectsAll(s.regs.kind, requests)
    ensures u.regs.lenient == s.regs.lenient
    ensures AtStart(u) && ExpectsAll(u.regs.kind, requests) && u.log == s.log + CallsOfMessages(ms)
    ensures RunOn(s, RenderMessages(ms) + rest) == RunOn(u, rest)
    decreases |ms|
  {
    if ms == [] {
      u := s;
      assert RenderMessages(ms) + rest == rest && s.log + [] == s.log;
    } else {
      assert ms[0] in ms && forall m | m in ms[1..] :: m in ms;
      var tail := RenderMessages(ms[1..]) + rest;
      Associates(Render(ms[0]), RenderMessages(ms[1..]), rest);
      var t := MessageIsFollowed(s, ms[0], requests, tail);
      u := MessagesRun(t, ms[1..], requests, rest);
      Associates(s.log, Calls(ms[0]) + [Notify(MessageComplete)], CallsOfMessages(ms[1..]));
    }
  }

  lemma {:induction false} ToldOfMessages(ms: seq<Sent>)
    ensures BodyOf(Norm(CallsOfMessages(ms))) == BodiesIn(ms) &&
            CountOf(MessageComplete, Norm(CallsOfMessages(ms))) == |ms|
  {
    if ms != [] {
      ToldOfCalls(ms[0]);
      ThenCompletes(Calls(ms[0]));
      ToldOfMessages(ms[1..]);
      ToldOfBoth(Calls(ms[0]) + [Notify(MessageComplete)], CallsOfMessages(ms[1..]));
    }
  }

  /** Any number of messages on one connection, from the first state of the parser on, cut into buffers
      anywhere: the callbacks get each of them, whole and once, in order; and the parser waits for the
      next. */
  lemma MessagesRoundTrip(kind: nat, lenient: Lenient, ms: seq<Sent>, requests: bool, pieces: seq<seq<Byte>>)
    requires AreSent(ms, requests) && ExpectsAll(kind, requests) && Concat(pieces) == RenderMessages(ms)
    ensures var t, told := Feed(Init(kind, lenient), pieces), Norm(CallsOfMessages(ms));
            && t.error == 0 && t.current == Begin(Start) && Norm(t.log) == told
            && BodyOf(told) == BodiesIn(ms) && CountOf(MessageComplete, told) == |ms|
  {
    var s := Init(kind, lenient);
    InitIsAtStart(kind, lenient);
    ToldOfMessages(ms);
    if pieces != [] {
      assert RenderMessages(ms) + [] == RenderMessages(ms);
      var u := MessagesRun(s, ms, requests, []);
      Rests(u);
      FeedsTo(s, pieces, u);
      assert s.log + CallsOfMessages(ms) == CallsOfMessages(ms);
    }
  }

  // ---------------------------------------------------------------- the last message

  lemma SomethingSent(ms: seq<Sent>, last: Sent, pieces: seq<seq<Byte>>)
    requires Concat(pieces) == RenderMessages(ms) + Render(last)
    ensures pieces != []
  {
    assert |Render(last)| > 0;
  }

  /** What the callbacks are told of messages and a last one. */
  function CallsWithLast(ms: seq<Sent>, last: Sent): seq<Call> {
    CallsOfMessages(ms) + Calls(last) + [Notify(MessageComplete)]
  }

  lemma ToldWithLast(ms: seq<Sent>, last: Sent)
    ensures BodyOf(Norm(CallsWithLast(ms, last))) == BodiesIn(ms) + BodyIn(last)
    ensures CountOf(MessageComplete, Norm(CallsWithLast(ms, last))) == |ms| + 1
  {
    ToldOfMessages(ms);
    ToldOfCalls(last);
    ToldOfBoth(CallsOfMessages(ms), Calls(last));
    ThenCompletes(CallsOfMessages(ms) + Calls(last));
  }

  /** Where a message leaves the parser: paused before an upgrade, waiting for the next message, or
      closed. */
  ghost predicate LeftAt(m: Sent, lenient: Lenient, t: State<Label>)
    requires IsSent(m)
  {
    if Upgrading(m.line, m.fields) then t.error == PAUSED_UPGRADE && t.current == Done(AfterMessage)
    else t.error == 0 && t.current == if Lasts(m) || lenient.keepAlive then Begin(Start) else Done(Closed)
  }

  lemma CompletedAt(s: State<Label>, m: Sent, v: State<Label>)
    requires IsSent(m) && Told(s, m, v) && Keeps(m, v)
    ensures var t := Completed(v);
            && t.span == None && t.held == [] && t.log == s.log + Calls(m) + [Notify(MessageComplete)]
            && LeftAt(m, s.regs.lenient, t)
  {}

  lemma RunEnds(s: State<Label>, m: Sent) returns (t: State<Label>)
    requires AtStart(s) && IsSent(m) && Expects(s.regs.kind, m.line)
    ensures RunOn(s, Render(m)) == t && t.span == None && t.held == []
    ensures t.log == s.log + Calls(m) + [Notify(MessageComplete)] && LeftAt(m, s.regs.lenient, t)
  {
    assert Render(m) + [] == Render(m);
    var v := MessageIsTold(s, m, []);
    EndsThere(s, Render(m), v);
    CompletedAt(s, m, v);
    t := Completed(v);
  }

  lemma LastRuns(s: State<Label>, ms: seq<Sent>, last: Sent, requests: bool) returns (t: State<Label>)
    requires AtStart(s) && s.log == [] && AreSent(ms, requests) && ExpectsAll(s.regs.kind, requests)
    requires IsSent(last) && last.line.RequestLine? == requests
    ensures RunOn(s, RenderMessages(ms) + Render(last)) == t && t.span == None && t.held == []
    ensures t.log == CallsWithLast(ms, last) && LeftAt(last, s.regs.lenient, t)
  {
    var u := MessagesRun(s, ms, requests, Render(last));
    t := RunEnds(u, last);
    assert [] + CallsOfMessages(ms) == CallsOfMessages(ms);
  }

  /** The same with a last message of any kind, one that closes or upgrades the connection, or a CONNECT,
      or one with a length in its trailers: it is told likewise; and the parser is paused, closed or waits
      for the next message just as the last one's fields ask. */
  lemma LastMessageRoundTrip(kind: nat, lenient: Lenient, ms: seq<Sent>, last: Sent, requests: bool,
                             pieces: seq<seq<Byte>>)
    requires AreSent(ms, requests) && ExpectsAll(kind, requests)
    requires IsSent(last) && last.line.RequestLine? == requests
    requires Concat(pieces) == RenderMessages(ms) + Render(last)
    ensures var t, told := Feed(Init(kind, lenient), pieces), Norm(CallsWithLast(ms, last));
            && LeftAt(last, lenient, t) && Norm(t.log) == told
            && BodyOf(told) == BodiesIn(ms) + BodyIn(last) && CountOf(MessageComplete, told) == |ms| + 1
  {
    var s := Init(kind, lenient);
    InitIsAtStart(kind, lenient);
    ToldWithLast(ms, last);
    SomethingSent(ms, last, pieces);
    var t := LastRuns(s, ms, last, requests);
    FeedsTo(s, pieces, t);
  }

  // ---------------------------------------------------------------- nothing behind it

  /** Nothing is made of what comes behind this message. */
  ghost predicate IsTheLast(m: Sent, lenient: Lenient)
    requires IsSent(m)
  {
    Upgrading(m.line, m.fields) || !(Lasts(m) || lenient.keepAlive)
  }

  lemma {:induction false} ClosedReadsOn(s: State<Label>, rest: seq<Byte>)
    requires s.current == Done(Closed) && s.span == None
    ensures RunOn(s, rest) == s || RunOn(s, rest) == To(s, Done(Closed))
    decreases |rest|
  {
    if rest == [] {
      Rests(s);
    } else {
      assert rest == [rest[0]] + rest[1..];
      Reads(s, rest[0], rest[1..]);
      ClosedReadsOn(To(s, Done(Closed)), rest[1..]);
    }
  }

  lemma EndsThereToo(s: State<Label>, m: Sent, rest: seq<Byte>) returns (t: State<Label>)
    requires AtStart(s) && IsSent(m) && Expects(s.regs.kind, m.line) && IsTheLast(m, s.regs.lenient)
    ensures RunOn(s, Render(m) + rest) == t && t.span == None && t.held == []
    ensures t.log == s.log + Calls(m) + [Notify(MessageComplete)] && LeftAt(m, s.regs.lenient, t)
  {
    var v := MessageIsTold(s, m, rest);
    CompletedAt(s, m, v);
    if !Upgrading(m.line, m.fields) {
      ClosedReadsOn(Completed(v), rest);
    }
    t := RunOn(s, Render(m) + rest);
  }

  lemma TheLastRuns(s: State<Label>, ms: seq<Sent>, last: Sent, requests: bool, rest: seq<Byte>)
    returns (t: State<Label>)
    requires AtStart(s) && s.log == [] && AreSent(ms, requests) && ExpectsAll(s.regs.kind, requests)
    requires IsSent(last) && last.line.RequestLine? == requests && IsTheLast(last, s.regs.lenient)
    ensures RunOn(s, RenderMessages(ms) + (Render(last) + rest)) == t && t.span == None && t.held == []
    ensures t.log == CallsWithLast(ms, last) && LeftAt(last, s.regs.lenient, t)
  {
    var u := MessagesRun(s, ms, requests, Render(last) + rest);
    t := EndsThereToo(u, last, rest);
    assert [] + CallsOfMessages(ms) == CallsOfMessages(ms);
  }

  /** Behind a message that upgrades or closes the connection, or does not ask for it to be kept alive, the
      callbacks are told nothing, whatever comes, unless the parser is lenient. */
  lemma NothingFollows(kind: nat, lenient: Lenient, ms: seq<Sent>, last: Sent, requests: bool, rest: seq<Byte>,
                       pieces: seq<seq<Byte>>)
    requires AreSent(ms, requests) && ExpectsAll(kind, requests)
    requires IsSent(last) && last.line.RequestLine? == requests && IsTheLast(last, lenient)
    requires Concat(pieces) == RenderMessages(ms) + (Render(last) + rest)
    ensures var t := Feed(Init(kind, lenient), pieces);
            LeftAt(last, lenient, t) && Norm(t.log) == Norm(CallsWithLast(ms, last))
  {
    var s := Init(kind, lenient);
    InitIsAtStart(kind, lenient);
    assert |Render(last)| > 0;
    var t := TheLastRuns(s, ms, last, requests, rest);
    FeedsTo(s, pieces, t);
  }

  // ---------------------------------------------------------------- up to the end of the connection

  /** A response whose body ends with the connection: nothing says how long it is. */
  ghost predicate IsUnending(line: Line, fields: seq<Field>) {
    && IsLine(line) && line.StatusLine? && !IsBodiless(line) && AreFields(fields)
    && Lengths(fields) == [] && !LastIsRun(Codings(fields))
  }

  /** What the callbacks are told of it before its end. */
  function UnendingCalls(line: Line, fields: seq<Field>, body: seq<Byte>): seq<Call> {
    LineCalls(line) + (CallsOfFields(fields) + [Notify(HeadersComplete)]) +
    if body == [] then [] else [Data(OnBody, body)]
  }

  lemma UnendingKind(s: State<Label>, line: Line, fields: seq<Field>)
    requires AtStart(s) && IsUnending(line, fields) && Expects(s.regs.kind, line)
    ensures var s1 := AfterLine(s, line);
            ApplyFields(s1.regs, fields).Accepted? &&
            var r := ApplyFields(s1.regs, fields).regs;
            !r.flags.trailing && !Contradictory(r) && AfterHeadersComplete(Completing(r)).UntilEof?
  {
    FieldsMean(AfterLine(s, line).regs, fields);
  }

  /** The parser that reads to the end of the connection. */
  function AwaitingEnd(s: State<Label>): State<Label> {
    s.(current := Body(SpanStartBody2), regs := s.regs.(finish := FINISH_SAFE_WITH_CB))
  }

  lemma EofBegins(s: State<Label>, rest: seq<Byte>)
    requires s.current == Body(BodyUntilEof)
    ensures RunOn(s, rest) == RunOn(AwaitingEnd(s), rest)
  {
    Invokes(s, rest);
  }

  lemma UnendingHeadRuns(s: State<Label>, fields: seq<Field>, body: seq<Byte>)
    requires AtHeaders(s) && AreFields(fields) && ApplyFields(s.regs, fields).Accepted?
    requires var r := ApplyFields(s.regs, fields).regs;
             !r.flags.trailing && !Contradictory(r) && AfterHeadersComplete(Completing(r)).UntilEof?
    ensures RunOn(s, RenderFields(fields) + (CRLF + body)) == RunOn(AwaitingEnd(HeadersTold(s, fields)), body)
  {
    HeadersAreTold(s, fields, body);
    EofBegins(HeadersTold(s, fields), body);
  }

  lemma AwaitingIsAtEof(s: State<Label>, fields: seq<Field>)
    requires AtHeaders(s) && ApplyFields(s.regs, fields).Accepted?
    ensures var t := AwaitingEnd(HeadersTold(s, fields));
            AtEof(t) && t.log == s.log + (CallsOfFields(fields) + [Notify(HeadersComplete)])
  {}

  lemma UnendingBegins(s: State<Label>, line: Line, fields: seq<Field>, body: seq<Byte>) returns (t: State<Label>)
    requires AtStart(s) && IsUnending(line, fields) && Expects(s.regs.kind, line)
    ensures AtEof(t) && t.log == s.log + (LineCalls(line) + (CallsOfFields(fields) + [Notify(HeadersComplete)]))
    ensures RunOn(s, RenderLine(line) + (RenderFields(fields) + (CRLF + body))) == RunOn(t, body)
  {
    LineLeaves(s, line);
    LineIsRead(s, line, RenderFields(fields) + (CRLF + body));
    UnendingKind(s, line, fields);
    UnendingHeadRuns(AfterLine(s, line), fields, body);
    AwaitingIsAtEof(AfterLine(s, line), fields);
    t := AwaitingEnd(HeadersTold(AfterLine(s, line), fields));
    Associates(s.log, LineCalls(line), CallsOfFields(fields) + [Notify(HeadersComplete)]);
  }

  lemma UnendingLog(log: seq<Call>, line: Line, fields: seq<Field>, body: seq<Byte>)
    ensures Norm(log + (LineCalls(line) + (CallsOfFields(fields) + [Notify(HeadersComplete)]))) +
            Octets(OnBody, body) ==
            Norm(log + UnendingCalls(line, fields, body))
  {
    var head := LineCalls(line) + (CallsOfFields(fields) + [Notify(HeadersComplete)]);
    if body == [] {
      assert head + [] == head && Norm(log + head) + [] == Norm(log + head);
    } else {
      Associates(log, head, [Data(OnBody, body)]);
      NormSnoc(log + head, Data(OnBody, body));
    }
  }

  lemma UnendingRuns(s: State<Label>, ms: seq<Sent>, line: Line, fields: seq<Field>, body: seq<Byte>)
    requires AtStart(s) && s.log == [] && AreSent(ms, false) && ExpectsAll(s.regs.kind, false) &&
             IsUnending(line, fields)
    ensures var t := Flush(RunOn(s, RenderMessages(ms) + (RenderLine(line) + (RenderFields(fields) + (CRLF + body)))));
            && t.error == 0 && t.regs.finish == FINISH_SAFE_WITH_CB
            && Norm(t.log) == Norm(CallsOfMessages(ms) + UnendingCalls(line, fields, body))
  {
    var u := MessagesRun(s, ms, false, RenderLine(line) + (RenderFields(fields) + (CRLF + body)));
    var t := UnendingBegins(u, line, fields, body);
    assert [] + CallsOfMessages(ms) == CallsOfMessages(ms);
    FlushTells(t, body);
    UnendingLog(CallsOfMessages(ms), line, fields, body);
  }

  /** And with a last response that the end of the connection ends: everything behind its headers is its
      body, and `llhttp_finish` completes it. */
  lemma UnendingRoundTrip(kind: nat, lenient: Lenient, ms: seq<Sent>, line: Line, fields: seq<Field>, body: seq<Byte>,
                          pieces: seq<seq<Byte>>)
    requires AreSent(ms, false) && ExpectsAll(kind, false) && IsUnending(line, fields)
    requires Concat(pieces) == RenderMessages(ms) + (RenderLine(line) + (RenderFields(fields) + (CRLF + body)))
    ensures var t := Feed(Init(kind, lenient), pieces);
            && t.error == 0 && Norm(t.log) == Norm(CallsOfMessages(ms) + UnendingCalls(line, fields, body))
            && Finish(t) == (0, t.log + [Notify(MessageComplete)])
  {
    InitIsAtStart(kind, lenient);
    UnendingRuns(Init(kind, lenient), ms, line, fields, body);
    OneBuffer(Init(kind, lenient), Concat(pieces));
    AnyCutting(Init(kind, lenient), pieces);
  }
}
