/** The first line of a message, of a request or of a response. */
module StartLine {
  import opened Bytes
  import opened Llparse
  import opened HttpGlue
  import opened Digits
  import opened Llhttp
  import opened LlhttpSteps
  import opened ContentLengthValue

  const DOT: Byte := 0x2e
  const H: seq<Byte> := [0x48]
  const TTP: seq<Byte> := [0x54, 0x54, 0x50, 0x2f]      // "TTP/"
  const GET: seq<Byte> := [0x47, 0x45, 0x54]
  const HEAD: seq<Byte> := [0x48, 0x45, 0x41, 0x44]
  const POST: seq<Byte> := [0x50, 0x4f, 0x53, 0x54]
  const PUT: seq<Byte> := [0x50, 0x55, 0x54]
  const CONNECT: seq<Byte> := [0x43, 0x4f, 0x4e, 0x4e, 0x45, 0x43, 0x54]
  const OPTIONS: seq<Byte> := [0x4f, 0x50, 0x54, 0x49, 0x4f, 0x4e, 0x53]

  datatype Method = Get | Head | Post | Put | Connect | Options

  /** `llhttp_method` */
  function VerbOf(m: Method): nat {
    match m
    case Get => 1
    case Head => 2
    case Post => 3
    case Put => 4
    case Connect => HTTP_CONNECT
    case Options => 6
  }

  function NameOf(m: Method): seq<Byte> {
    match m
    case Get => GET
    case Head => HEAD
    case Post => POST
    case Put => PUT
    case Connect => CONNECT
    case Options => OPTIONS
  }

  /** The digits of the version are bytes. */
  datatype Line =
    | RequestLine(verb: Method, url: seq<Byte>, major: Byte, minor: Byte)
    | StatusLine(major: Byte, minor: Byte, code: seq<Byte>, reason: seq<Byte>)

  predicate IsUrlByte(b: Byte) {
    b == HT || b == 0xc || 0x21 <= b <= 0x7e || b >= 0x80
  }

  ghost predicate IsUrl(url: seq<Byte>) {
    url != [] && forall b | b in url :: IsUrlByte(b)
  }

  ghost function StatusOf(code: seq<Byte>): nat
    requires IsDigits(code)
  {
    Number(10, DecimalValues(code))
  }

  ghost predicate IsLine(line: Line) {
    && IsDigit(line.major) && IsDigit(line.minor)
    && match line
       case RequestLine(_, url, _, _) => IsUrl(url)
       case StatusLine(_, _, code, reason) =>
         code != [] && IsDigits(code) && StatusOf(code) <= 999 && CR !in reason && LF !in reason
  }

  function RenderLine(line: Line): seq<Byte> {
    match line
    case RequestLine(verb, url, major, minor) =>
      NameOf(verb) + ([SP] + (url + ([SP] + (H + (TTP + ([major] + ([DOT] + ([minor] + CRLF))))))))
    case StatusLine(major, minor, code, reason) =>
      H + (TTP + ([major] + ([DOT] + ([minor] + ([SP] + (code + ([SP] + (reason + CRLF))))))))
  }

  function LineCalls(line: Line): seq<Call> {
    match line
    case RequestLine(_, url, _, _) => [Notify(MessageBegin), Data(OnUrl, url), Notify(UrlComplete)]
    case StatusLine(_, _, _, reason) =>
      [Notify(MessageBegin)] + (if reason == [] then [] else [Data(OnStatus, reason)]) + [Notify(StatusComplete)]
  }

  /** What the line leaves in the registers. */
  ghost function ApplyLine(r: Registers, line: Line): Registers
    requires IsLine(line)
  {
    match line
    case RequestLine(verb, _, major, minor) =>
      r.(matched := 0, finish := FINISH_UNSAFE, kind := HTTP_REQUEST, verb := VerbOf(verb),
         httpMajor := DecimalValue(major), httpMinor := DecimalValue(minor))
    case StatusLine(major, minor, code, _) =>
      r.(matched := 0, finish := FINISH_UNSAFE, kind := HTTP_RESPONSE,
         httpMajor := DecimalValue(major), httpMinor := DecimalValue(minor), statusCode := StatusOf(code))
  }

  /** The parser may be told to expect requests only, or responses only. */
  predicate Expects(kind: nat, line: Line) {
    match line
    case RequestLine(_, _, _, _) => kind != HTTP_RESPONSE
    case StatusLine(_, _, _, _) => kind != HTTP_REQUEST
  }

  // ---------------------------------------------------------------- the version of a request

  /** A control state outside spans, with these registers. */
  function With(s: State<Label>, l: Label, r: Registers): State<Label> {
    s.(current := l, regs := r.(matched := 0))
  }

  lemma MajorRuns(s: State<Label>, r: Registers, b: Byte, rest: seq<Byte>)
    requires s.span == None && IsDigit(b)
    ensures RunOn(With(s, Version(ReqHttpMajor), r), [b] + ([DOT] + rest)) ==
            RunOn(With(s, Version(ReqHttpMinor), r.(httpMajor := DecimalValue(b))), rest)
  {
    var r0 := r.(matched := DecimalValue(b));
    Reads(With(s, Version(ReqHttpMajor), r), b, [DOT] + rest);
    Invokes(s.(current := Version(StoreReqMajor), regs := r0), [DOT] + rest);
    Reads(s.(current := Version(ReqHttpDot), regs := r0.(httpMajor := DecimalValue(b))), DOT, rest);
  }

  lemma VersionEnds(s: State<Label>, r: Registers, matched: nat, rest: seq<Byte>)
    requires s.span == None
    ensures RunOn(s.(current := Version(ReqHttpComplete), regs := r.(matched := matched)), CRLF + rest) ==
            RunOn(With(s, Name(HeaderFieldStart), r), rest)
  {
    assert CRLF + rest == [CR] + ([LF] + rest);
    Reads(s.(current := Version(ReqHttpComplete), regs := r.(matched := matched)), CR, [LF] + rest);
    Reads(With(s, Version(ReqHttpComplete1), r), LF, rest);
  }

  lemma MinorRuns(s: State<Label>, r: Registers, b: Byte, rest: seq<Byte>)
    requires s.span == None && IsDigit(b)
    ensures RunOn(With(s, Version(ReqHttpMinor), r), [b] + (CRLF + rest)) ==
            RunOn(With(s, Name(HeaderFieldStart), r.(httpMinor := DecimalValue(b))), rest)
  {
    var r0 := r.(matched := DecimalValue(b));
    Reads(With(s, Version(ReqHttpMinor), r), b, CRLF + rest);
    Invokes(s.(current := Version(StoreReqMinor), regs := r0), CRLF + rest);
    VersionEnds(s, r.(httpMinor := DecimalValue(b)), DecimalValue(b), rest);
  }

  lemma SpellsTtp()
    ensures Spells(Exact, TTP, TTP)
  {}

  lemma VersionIsRead(s: State<Label>, r: Registers, major: Byte, minor: Byte, rest: seq<Byte>)
    requires s.span == None && s.index == 0 && IsDigit(major) && IsDigit(minor) && r.verb <= 34
    ensures RunOn(With(s, Version(ReqHttpStart), r), H + (TTP + ([major] + ([DOT] + ([minor] + (CRLF + rest)))))) ==
            RunOn(With(s, Name(HeaderFieldStart),
                       r.(httpMajor := DecimalValue(major), httpMinor := DecimalValue(minor))), rest)
  {
    var tail := [major] + ([DOT] + ([minor] + (CRLF + rest)));
    Reads(With(s, Version(ReqHttpStart), r), H[0], TTP + tail);
    SpellsTtp();
    Spelled(With(s, Version(ReqHttpStart1), r), TTP, tail);
    Invokes(With(s, Version(LoadMethod), r), tail);
    MajorRuns(s, r, major, [minor] + (CRLF + rest));
    MinorRuns(s, r.(httpMajor := DecimalValue(major)), minor, rest);
  }

  // ---------------------------------------------------------------- the url

  function InUrl(s: State<Label>, r: Registers, held: seq<Byte>): State<Label> {
    s.(current := Request(Url), span := Some(OnUrl), held := held, regs := r.(matched := 0))
  }

  lemma {:induction false} UrlBytesRun(s: State<Label>, r: Registers, held: seq<Byte>, url: seq<Byte>, rest: seq<Byte>)
    requires forall b | b in url :: IsUrlByte(b)
    ensures RunOn(InUrl(s, r, held), url + rest) == RunOn(InUrl(s, r, held + url), rest)
    decreases |url|
  {
    if url == [] {
      assert url + rest == rest && held + url == held;
    } else {
      assert url[0] in url && url == [url[0]] + url[1..] && forall b | b in url[1..] :: b in url;
      assert url + rest == [url[0]] + (url[1..] + rest);
      Reads(InUrl(s, r, held), url[0], url[1..] + rest);
      UrlBytesRun(s, r, held + [url[0]], url[1..], rest);
      Associates(held, [url[0]], url[1..]);
    }
  }

  lemma UrlEnds(s: State<Label>, r: Registers, url: seq<Byte>, rest: seq<Byte>)
    requires s.span == None && s.held == []
    ensures RunOn(InUrl(s, r, url), [SP] + rest) ==
            RunOn(With(s, Version(ReqHttpStart), r).(log := s.log + [Data(OnUrl, url), Notify(UrlComplete)]), rest)
  {
    var t := With(s, Version(UrlSkipToHttp), r).(log := s.log + [Data(OnUrl, url)]);
    Peeks(InUrl(s, r, url), SP, rest);
    EndsSpan(InUrl(s, r, url).(current := Request(UrlEndSpace)), [SP] + rest);
    Reads(t, SP, rest);
    Invokes(t.(current := Version(OnUrlComplete)), rest);
    assert t.log + [Notify(UrlComplete)] == s.log + [Data(OnUrl, url), Notify(UrlComplete)];
  }

  lemma UrlStarts(s: State<Label>, r: Registers, b: Byte, rest: seq<Byte>)
    requires s.span == None && IsUrlByte(b)
    ensures RunOn(With(s, Request(ReqFirstSpaceBeforeUrl), r), [SP] + ([b] + rest)) ==
            RunOn(InUrl(s, r, []), [b] + rest)
  {
    Reads(With(s, Request(ReqFirstSpaceBeforeUrl), r), SP, [b] + rest);
    Peeks(With(s, Request(ReqSpacesBeforeUrl), r), b, rest);
    StartsSpan(With(s, Request(SpanStartUrl), r), [b] + rest);
  }

  lemma UrlRuns(s: State<Label>, r: Registers, url: seq<Byte>, rest: seq<Byte>)
    requires s.span == None && s.held == [] && IsUrl(url)
    ensures RunOn(With(s, Request(ReqFirstSpaceBeforeUrl), r), [SP] + (url + ([SP] + rest))) ==
            RunOn(With(s, Version(ReqHttpStart), r).(log := s.log + [Data(OnUrl, url), Notify(UrlComplete)]), rest)
  {
    assert url[0] in url && url + ([SP] + rest) == [url[0]] + (url[1..] + ([SP] + rest));
    UrlStarts(s, r, url[0], url[1..] + ([SP] + rest));
    UrlBytesRun(s, r, [], url, [SP] + rest);
    assert [] + url == url;
    UrlEnds(s, r, url, rest);
  }

  // ---------------------------------------------------------------- the method

  /** Behind the method: it is stored. */
  lemma MethodEnds(s: State<Label>, r: Registers, verb: nat, rest: seq<Byte>)
    requires s.current == Begin(StoreMethod1) && s.regs == r.(matched := verb)
    ensures RunOn(s, [SP] + rest) == RunOn(s.(current := Request(ReqFirstSpaceBeforeUrl),
                                              regs := r.(matched := verb, verb := verb)), [SP] + rest)
  {
    Invokes(s, [SP] + rest);
  }

  lemma SpaceForgets(s: State<Label>, r: Registers, verb: nat, rest: seq<Byte>)
    requires s.current == Request(ReqFirstSpaceBeforeUrl) && s.span == None && s.regs == r.(matched := verb)
    ensures RunOn(s, [SP] + rest) == RunOn(With(s, Request(ReqFirstSpaceBeforeUrl), r), [SP] + rest)
  {
    Reads(s, SP, rest);
    Reads(With(s, Request(ReqFirstSpaceBeforeUrl), r), SP, rest);
  }

  lemma StoredRuns(s: State<Label>, r: Registers, verb: nat, rest: seq<Byte>)
    requires s.span == None
    ensures RunOn(s.(current := Begin(StoreMethod1), regs := r.(matched := verb)), [SP] + rest) ==
            RunOn(With(s, Request(ReqFirstSpaceBeforeUrl), r.(verb := verb)), [SP] + rest)
  {
    var t := s.(current := Begin(StoreMethod1), regs := r.(matched := verb));
    MethodEnds(t, r, verb, rest);
    SpaceForgets(s.(current := Request(ReqFirstSpaceBeforeUrl), regs := r.(matched := verb, verb := verb)),
                 r.(verb := verb), verb, rest);
  }

  lemma GetRuns(s: State<Label>, r: Registers, rest: seq<Byte>)
    requires s.span == None && s.index == 0
    ensures RunOn(With(s, Request(StartReq), r), GET + ([SP] + rest)) ==
            RunOn(With(s, Request(ReqFirstSpaceBeforeUrl), r.(verb := 1)), [SP] + rest)
  {
    var et: seq<Byte> := [0x45, 0x54];
    assert GET + ([SP] + rest) == [GET[0]] + (et + ([SP] + rest));
    Reads(With(s, Request(StartReq), r), GET[0], et + ([SP] + rest));
    assert Spells(Exact, et, et);
    Spelled(With(s, Request(StartReq15), r), et, [SP] + rest);
    Peeks(With(s, Request(StartReq16), r), SP, rest);
    StoredRuns(s, r, 1, rest);
  }

  lemma HeadRuns(s: State<Label>, r: Registers, rest: seq<Byte>)
    requires s.span == None && s.index == 0
    ensures RunOn(With(s, Request(StartReq), r), HEAD + ([SP] + rest)) ==
            RunOn(With(s, Request(ReqFirstSpaceBeforeUrl), r.(verb := 2)), [SP] + rest)
  {
    var ead: seq<Byte> := [0x45, 0x41, 0x44];
    assert HEAD + ([SP] + rest) == [HEAD[0]] + (ead + ([SP] + rest));
    Reads(With(s, Request(StartReq), r), HEAD[0], ead + ([SP] + rest));
    assert Spells(Exact, ead, ead);
    Spelled(With(s, Request(StartReq18), r), ead, [SP] + rest);
    StoredRuns(s, r, 2, rest);
  }

  lemma PostRuns(s: State<Label>, r: Registers, rest: seq<Byte>)
    requires s.span == None && s.index == 0
    ensures RunOn(With(s, Request(StartReq), r), POST + ([SP] + rest)) ==
            RunOn(With(s, Request(ReqFirstSpaceBeforeUrl), r.(verb := 3)), [SP] + rest)
  {
    var st: seq<Byte> := [0x53, 0x54];
    assert POST + ([SP] + rest) == [POST[0]] + ([POST[1]] + (st + ([SP] + rest)));
    Reads(With(s, Request(StartReq), r), POST[0], [POST[1]] + (st + ([SP] + rest)));
    Reads(With(s, Request(StartReq33), r), POST[1], st + ([SP] + rest));
    assert Spells(Exact, st, st);
    Spelled(With(s, Request(StartReq38), r), st, [SP] + rest);
    StoredRuns(s, r, 3, rest);
  }

  lemma PutRuns(s: State<Label>, r: Registers, rest: seq<Byte>)
    requires s.span == None && s.index == 0
    ensures RunOn(With(s, Request(StartReq), r), PUT + ([SP] + rest)) ==
            RunOn(With(s, Request(ReqFirstSpaceBeforeUrl), r.(verb := 4)), [SP] + rest)
  {
    assert PUT + ([SP] + rest) == [PUT[0]] + ([PUT[1]] + ([PUT[2]] + ([SP] + rest)));
    Reads(With(s, Request(StartReq), r), PUT[0], [PUT[1]] + ([PUT[2]] + ([SP] + rest)));
    Reads(With(s, Request(StartReq33), r), PUT[1], [PUT[2]] + ([SP] + rest));
    Reads(With(s, Request(StartReq44), r), PUT[2], [SP] + rest);
    StoredRuns(s, r, 4, rest);
  }

  lemma ConnectRuns(s: State<Label>, r: Registers, rest: seq<Byte>)
    requires s.span == None && s.index == 0
    ensures RunOn(With(s, Request(StartReq), r), CONNECT + ([SP] + rest)) ==
            RunOn(With(s, Request(ReqFirstSpaceBeforeUrl), r.(verb := HTTP_CONNECT)), [SP] + rest)
  {
    var nect: seq<Byte> := [0x4e, 0x45, 0x43, 0x54];
    var tail := nect + ([SP] + rest);
    assert CONNECT + ([SP] + rest) == [CONNECT[0]] + ([CONNECT[1]] + ([CONNECT[2]] + tail));
    Reads(With(s, Request(StartReq), r), CONNECT[0], [CONNECT[1]] + ([CONNECT[2]] + tail));
    Reads(With(s, Request(StartReq5), r), CONNECT[1], [CONNECT[2]] + tail);
    Reads(With(s, Request(StartReq7), r), CONNECT[2], tail);
    assert Spells(Exact, nect, nect);
    Spelled(With(s, Request(StartReq8), r), nect, [SP] + rest);
    StoredRuns(s, r, HTTP_CONNECT, rest);
  }

  lemma OptionsRuns(s: State<Label>, r: Registers, rest: seq<Byte>)
    requires s.span == None && s.index == 0
    ensures RunOn(With(s, Request(StartReq), r), OPTIONS + ([SP] + rest)) ==
            RunOn(With(s, Request(ReqFirstSpaceBeforeUrl), r.(verb := 6)), [SP] + rest)
  {
    var ptions: seq<Byte> := [0x50, 0x54, 0x49, 0x4f, 0x4e, 0x53];
    assert OPTIONS + ([SP] + rest) == [OPTIONS[0]] + (ptions + ([SP] + rest));
    Reads(With(s, Request(StartReq), r), OPTIONS[0], ptions + ([SP] + rest));
    assert Spells(Exact, ptions, ptions);
    Spelled(With(s, Request(StartReq32), r), ptions, [SP] + rest);
    StoredRuns(s, r, 6, rest);
  }

  lemma MethodRuns(s: State<Label>, r: Registers, m: Method, rest: seq<Byte>)
    requires s.span == None && s.index == 0
    ensures RunOn(With(s, Request(StartReq), r), NameOf(m) + ([SP] + rest)) ==
            RunOn(With(s, Request(ReqFirstSpaceBeforeUrl), r.(verb := VerbOf(m))), [SP] + rest)
  {
    match m
    case Get => GetRuns(s, r, rest);
    case Head => HeadRuns(s, r, rest);
    case Post => PostRuns(s, r, rest);
    case Put => PutRuns(s, r, rest);
    case Connect => ConnectRuns(s, r, rest);
    case Options => OptionsRuns(s, r, rest);
  }

  lemma HeadIsStored(s: State<Label>, r: Registers, rest: seq<Byte>)
    requires s.span == None
    ensures RunOn(s.(current := Begin(StoreMethod), regs := r.(matched := 2)), [SP] + rest) ==
            RunOn(With(s, Request(ReqFirstSpaceBeforeUrl), r.(kind := HTTP_REQUEST, verb := 2)), [SP] + rest)
  {
    var r1 := r.(kind := HTTP_REQUEST, verb := 2);
    Invokes(s.(current := Begin(StoreMethod), regs := r.(matched := 2)), [SP] + rest);
    SpaceForgets(s.(current := Request(ReqFirstSpaceBeforeUrl), regs := r1.(matched := 2)), r1, 2, rest);
  }

  /** A parser for both kinds of message tells them apart by what follows the first H. */
  lemma HeadIsRequest(s: State<Label>, r: Registers, rest: seq<Byte>)
    requires s.span == None && s.index == 0
    ensures RunOn(With(s, Begin(StartReqOrRes), r), HEAD + ([SP] + rest)) ==
            RunOn(With(s, Request(ReqFirstSpaceBeforeUrl), r.(kind := HTTP_REQUEST, verb := 2)), [SP] + rest)
  {
    var ad: seq<Byte> := [0x41, 0x44];
    var tail := [HEAD[1]] + (ad + ([SP] + rest));
    assert HEAD + ([SP] + rest) == [HEAD[0]] + tail;
    Peeks(With(s, Begin(StartReqOrRes), r), HEAD[0], tail);
    Reads(With(s, Begin(ReqOrResMethod), r), HEAD[0], tail);
    Reads(With(s, Begin(ReqOrResMethod1), r), HEAD[1], ad + ([SP] + rest));
    assert Spells(Exact, ad, ad);
    Spelled(With(s, Begin(ReqOrResMethod2), r), ad, [SP] + rest);
    HeadIsStored(s, r, rest);
  }

  lemma OtherIsRequest(s: State<Label>, r: Registers, m: Method, rest: seq<Byte>)
    requires s.span == None && s.index == 0 && m != Head
    ensures RunOn(With(s, Begin(StartReqOrRes), r), NameOf(m) + ([SP] + rest)) ==
            RunOn(With(s, Request(ReqFirstSpaceBeforeUrl), r.(kind := HTTP_REQUEST, verb := VerbOf(m))), [SP] + rest)
  {
    var input := NameOf(m) + ([SP] + rest);
    var r1 := r.(kind := HTTP_REQUEST);
    assert input == [input[0]] + input[1..] && input[0] == NameOf(m)[0] != 'H' as int;
    Peeks(With(s, Begin(StartReqOrRes), r), input[0], input[1..]);
    Invokes(With(s, Begin(UpdateType2), r), input);
    MethodRuns(s, r1, m, rest);
  }

  // ---------------------------------------------------------------- where messages begin

  /** The parser that has told that a message begins. */
  function Begun(s: State<Label>): State<Label> {
    s.(log := s.log + [Notify(MessageBegin)])
  }

  lemma Begins(s: State<Label>, b: Byte, rest: seq<Byte>)
    requires s.current == Begin(Start) && b != CR && b != LF
    ensures RunOn(s, [b] + rest) == RunOn(With(Begun(s), Begin(LoadType), s.regs.(finish := FINISH_UNSAFE)), [b] + rest)
  {
    Peeks(s, b, rest);
    Invokes(With(s, Begin(OnMessageBegin), s.regs), [b] + rest);
  }

  lemma MethodIsRead(s: State<Label>, r: Registers, m: Method, rest: seq<Byte>)
    requires s.span == None && s.index == 0 && r.kind != HTTP_RESPONSE
    ensures RunOn(With(s, Begin(LoadType), r), NameOf(m) + ([SP] + rest)) ==
            RunOn(With(s, Request(ReqFirstSpaceBeforeUrl), r.(kind := HTTP_REQUEST, verb := VerbOf(m))), [SP] + rest)
  {
    var input := NameOf(m) + ([SP] + rest);
    Invokes(With(s, Begin(LoadType), r), input);
    if r.kind == HTTP_REQUEST {
      assert r.(kind := HTTP_REQUEST) == r;
      MethodRuns(s, r, m, rest);
    } else if m == Head {
      HeadIsRequest(s, r, rest);
    } else {
      OtherIsRequest(s, r, m, rest);
    }
  }

  lemma RequestApart(verb: Method, url: seq<Byte>, major: Byte, minor: Byte, rest: seq<Byte>)
    ensures RenderLine(RequestLine(verb, url, major, minor)) + rest ==
            NameOf(verb) + ([SP] + (url + ([SP] + (H + (TTP + ([major] + ([DOT] + ([minor] + (CRLF + rest)))))))))
  {
    var a := [minor] + CRLF;
    var b := [major] + ([DOT] + a);
    var c := [SP] + (H + (TTP + b));
    assert a + rest == [minor] + (CRLF + rest);
    assert b + rest == [major] + ([DOT] + (a + rest));
    assert c + rest == [SP] + (H + (TTP + (b + rest)));
    Associates(url, c, rest);
    Associates([SP], url + c, rest);
    Associates(NameOf(verb), [SP] + (url + c), rest);
  }

  lemma RequestLog(log: seq<Call>, url: seq<Byte>)
    ensures log + [Notify(MessageBegin)] + [Data(OnUrl, url), Notify(UrlComplete)] ==
            log + [Notify(MessageBegin), Data(OnUrl, url), Notify(UrlComplete)]
  {}

  lemma NameBegins(m: Method, rest: seq<Byte>)
    ensures var input := NameOf(m) + rest; input == [input[0]] + input[1..] && input[0] != CR && input[0] != LF
  {}

  lemma RequestLineRuns(s: State<Label>, line: Line, rest: seq<Byte>)
    requires s.current == Begin(Start) && Between(s) && line.RequestLine? && IsLine(line) && Expects(s.regs.kind, line)
    ensures RunOn(s, RenderLine(line) + rest) ==
            RunOn(s.(current := Name(HeaderFieldStart), regs := ApplyLine(s.regs, line),
                     log := s.log + LineCalls(line)), rest)
  {
    var r := s.regs.(finish := FINISH_UNSAFE);
    var r1 := r.(kind := HTTP_REQUEST, verb := VerbOf(line.verb));
    var tail := H + (TTP + ([line.major] + ([DOT] + ([line.minor] + (CRLF + rest)))));
    var input := NameOf(line.verb) + ([SP] + (line.url + ([SP] + tail)));
    RequestApart(line.verb, line.url, line.major, line.minor, rest);
    NameBegins(line.verb, [SP] + (line.url + ([SP] + tail)));
    Begins(s, input[0], input[1..]);
    MethodIsRead(Begun(s), r, line.verb, line.url + ([SP] + tail));
    UrlRuns(Begun(s), r1, line.url, tail);
    RequestLog(s.log, line.url);
    VersionIsRead(s.(log := s.log + LineCalls(line)), r1, line.major, line.minor, rest);
  }

  // ---------------------------------------------------------------- the status line

  lemma StatusMajorRuns(s: State<Label>, r: Registers, b: Byte, rest: seq<Byte>)
    requires s.span == None && IsDigit(b)
    ensures RunOn(With(s, Status(ResHttpMajor), r), [b] + ([DOT] + rest)) ==
            RunOn(With(s, Status(ResHttpMinor), r.(httpMajor := DecimalValue(b))), rest)
  {
    var r0 := r.(matched := DecimalValue(b));
    Reads(With(s, Status(ResHttpMajor), r), b, [DOT] + rest);
    Invokes(s.(current := Status(StoreResMajor), regs := r0), [DOT] + rest);
    Reads(s.(current := Status(ResHttpDot), regs := r0.(httpMajor := DecimalValue(b))), DOT, rest);
  }

  lemma StatusMinorRuns(s: State<Label>, r: Registers, b: Byte, rest: seq<Byte>)
    requires s.span == None && IsDigit(b)
    ensures RunOn(With(s, Status(ResHttpMinor), r), [b] + ([SP] + rest)) ==
            RunOn(With(s, Status(ResStatusCode), r.(httpMinor := DecimalValue(b), statusCode := 0)), rest)
  {
    var r0 := r.(matched := DecimalValue(b));
    var r1 := r.(httpMinor := DecimalValue(b));
    Reads(With(s, Status(ResHttpMinor), r), b, [SP] + rest);
    Invokes(s.(current := Status(StoreResMinor), regs := r0), [SP] + rest);
    Reads(s.(current := Status(ResHttpEnd), regs := r0.(httpMinor := DecimalValue(b))), SP, rest);
    Invokes(With(s, Status(UpdateStatusCode), r1), rest);
  }

  function InCode(s: State<Label>, r: Registers, value: nat, matched: nat): State<Label> {
    s.(current := Status(ResStatusCode), regs := r.(matched := matched, statusCode := value))
  }

  lemma CodeDigitRuns(s: State<Label>, r: Registers, value: nat, matched: nat, b: Byte, rest: seq<Byte>)
    requires s.span == None && IsDigit(b) && !FoldStatus(value, DecimalValue(b)).overflow
    ensures RunOn(InCode(s, r, value, matched), [b] + rest) ==
            RunOn(InCode(s, r, FoldStatus(value, DecimalValue(b)).value, DecimalValue(b)), rest)
  {
    Reads(InCode(s, r, value, matched), b, rest);
    Invokes(s.(current := Status(MulAddStatusCode), regs := r.(matched := DecimalValue(b), statusCode := value)), rest);
  }

  lemma {:induction false} CodeRuns(s: State<Label>, r: Registers, value: nat, matched: nat, code: seq<Byte>,
                                    rest: seq<Byte>)
    requires s.span == None && IsDigits(code) && !FoldStatusAll(value, DecimalValues(code)).overflow
    ensures RunOn(InCode(s, r, value, matched), code + ([SP] + rest)) ==
            RunOn(With(s, Status(ResStatusStart),
                       r.(statusCode := FoldStatusAll(value, DecimalValues(code)).value)), rest)
    decreases |code|
  {
    if code == [] {
      assert code + ([SP] + rest) == [SP] + rest;
      Peeks(InCode(s, r, value, matched), SP, rest);
      Reads(With(s, Status(ResStatusCodeOtherwise), r.(statusCode := value)), SP, rest);
    } else {
      var b, more := code[0], code[1..];
      assert b in code && forall d | d in more :: d in code;
      assert code + ([SP] + rest) == [b] + (more + ([SP] + rest)) && DecimalValues(code)[1..] == DecimalValues(more);
      CodeDigitRuns(s, r, value, matched, b, more + ([SP] + rest));
      CodeRuns(s, r, FoldStatus(value, DecimalValue(b)).value, DecimalValue(b), more, rest);
    }
  }

  function InReason(s: State<Label>, r: Registers, held: seq<Byte>): State<Label> {
    s.(current := Status(ResStatus), span := Some(OnStatus), held := held, regs := r.(matched := 0))
  }

  lemma {:induction false} ReasonRuns(s: State<Label>, r: Registers, held: seq<Byte>, reason: seq<Byte>,
                                      rest: seq<Byte>)
    requires CR !in reason && LF !in reason
    ensures RunOn(InReason(s, r, held), reason + rest) == RunOn(InReason(s, r, held + reason), rest)
    decreases |reason|
  {
    if reason == [] {
      assert reason + rest == rest && held + reason == held;
    } else {
      assert reason[0] in reason && reason == [reason[0]] + reason[1..];
      assert reason + rest == [reason[0]] + (reason[1..] + rest) && forall b | b in reason[1..] :: b in reason;
      Reads(InReason(s, r, held), reason[0], reason[1..] + rest);
      ReasonRuns(s, r, held + [reason[0]], reason[1..], rest);
      Associates(held, [reason[0]], reason[1..]);
    }
  }

  function ReasonCalls(reason: seq<Byte>): seq<Call> {
    (if reason == [] then [] else [Data(OnStatus, reason)]) + [Notify(StatusComplete)]
  }

  lemma StatusEnds(s: State<Label>, r: Registers, rest: seq<Byte>)
    requires s.span == None
    ensures RunOn(With(s, Status(ResLineAlmostDone), r), [LF] + rest) ==
            RunOn(With(s, Name(HeaderFieldStart), r).(log := s.log + [Notify(StatusComplete)]), rest)
  {
    Reads(With(s, Status(ResLineAlmostDone), r), LF, rest);
    Invokes(With(s, Status(OnStatusComplete), r), rest);
  }

  lemma NoReasonRuns(s: State<Label>, r: Registers, rest: seq<Byte>)
    requires s.span == None
    ensures RunOn(With(s, Status(ResStatusStart), r), CRLF + rest) ==
            RunOn(With(s, Name(HeaderFieldStart), r).(log := s.log + ReasonCalls([])), rest)
  {
    assert CRLF + rest == [CR] + ([LF] + rest);
    Reads(With(s, Status(ResStatusStart), r), CR, [LF] + rest);
    StatusEnds(s, r, rest);
    assert ReasonCalls([]) == [Notify(StatusComplete)];
  }

  lemma ReasonEnds(s: State<Label>, r: Registers, reason: seq<Byte>, rest: seq<Byte>)
    requires s.span == None && s.held == [] && reason != []
    ensures RunOn(InReason(s, r, reason), CRLF + rest) ==
            RunOn(With(s, Name(HeaderFieldStart), r).(log := s.log + ReasonCalls(reason)), rest)
  {
    var t := s.(log := s.log + [Data(OnStatus, reason)]);
    assert CRLF + rest == [CR] + ([LF] + rest) && (CRLF + rest)[1..] == [LF] + rest;
    Peeks(InReason(s, r, reason), CR, [LF] + rest);
    EndsSpan(InReason(s, r, reason).(current := Status(SpanEndStatus1)), CRLF + rest);
    StatusEnds(t, r, rest);
    assert t.log + [Notify(StatusComplete)] == s.log + ReasonCalls(reason);
  }

  lemma ReasonIsRead(s: State<Label>, r: Registers, reason: seq<Byte>, rest: seq<Byte>)
    requires s.span == None && s.held == [] && CR !in reason && LF !in reason
    ensures RunOn(With(s, Status(ResStatusStart), r), reason + (CRLF + rest)) ==
            RunOn(With(s, Name(HeaderFieldStart), r).(log := s.log + ReasonCalls(reason)), rest)
  {
    if reason == [] {
      assert reason + (CRLF + rest) == CRLF + rest;
      NoReasonRuns(s, r, rest);
    } else {
      var tail := reason[1..] + (CRLF + rest);
      assert reason[0] in reason && reason + (CRLF + rest) == [reason[0]] + tail;
      Peeks(With(s, Status(ResStatusStart), r), reason[0], tail);
      StartsSpan(With(s, Status(SpanStartStatus), r), [reason[0]] + tail);
      ReasonRuns(s, r, [], reason, CRLF + rest);
      assert [] + reason == reason;
      ReasonEnds(s, r, reason, rest);
    }
  }

  lemma HttpIsRead(s: State<Label>, r: Registers, rest: seq<Byte>)
    requires s.span == None && s.index == 0
    ensures RunOn(With(s, Status(StartRes), r), H + (TTP + rest)) == RunOn(With(s, Status(ResHttpMajor), r), rest)
  {
    var http: seq<Byte> := [0x48, 0x54, 0x54, 0x50, 0x2f];
    assert H + (TTP + rest) == http + rest;
    assert Spells(Exact, http, http);
    Spelled(With(s, Status(StartRes), r), http, rest);
  }

  lemma HttpIsResponse(s: State<Label>, r: Registers, rest: seq<Byte>)
    requires s.span == None && s.index == 0
    ensures RunOn(With(s, Begin(StartReqOrRes), r), H + (TTP + rest)) ==
            RunOn(With(s, Status(ResHttpMajor), r.(kind := HTTP_RESPONSE)), rest)
  {
    var tp: seq<Byte> := [0x54, 0x50, 0x2f];
    assert H + (TTP + rest) == [H[0]] + ([TTP[0]] + (tp + rest));
    Peeks(With(s, Begin(StartReqOrRes), r), H[0], [TTP[0]] + (tp + rest));
    Reads(With(s, Begin(ReqOrResMethod), r), H[0], [TTP[0]] + (tp + rest));
    Reads(With(s, Begin(ReqOrResMethod1), r), TTP[0], tp + rest);
    assert Spells(Exact, tp, tp);
    Spelled(With(s, Begin(ReqOrResMethod3), r), tp, rest);
    Invokes(With(s, Begin(UpdateType1), r), rest);
  }

  lemma ResponseIsRead(s: State<Label>, r: Registers, rest: seq<Byte>)
    requires s.span == None && s.index == 0 && r.kind != HTTP_REQUEST
    ensures RunOn(With(s, Begin(LoadType), r), H + (TTP + rest)) ==
            RunOn(With(s, Status(ResHttpMajor), r.(kind := HTTP_RESPONSE)), rest)
  {
    Invokes(With(s, Begin(LoadType), r), H + (TTP + rest));
    if r.kind == HTTP_RESPONSE {
      assert r.(kind := HTTP_RESPONSE) == r;
      HttpIsRead(s, r, rest);
    } else {
      HttpIsResponse(s, r, rest);
    }
  }

  lemma StatusApart(major: Byte, minor: Byte, code: seq<Byte>, reason: seq<Byte>, rest: seq<Byte>)
    ensures RenderLine(StatusLine(major, minor, code, reason)) + rest ==
            H + (TTP + ([major] + ([DOT] + ([minor] + ([SP] + (code + ([SP] + (reason + (CRLF + rest)))))))))
  {
    var a := [SP] + (reason + CRLF);
    var b := [major] + ([DOT] + ([minor] + ([SP] + (code + a))));
    Associates(reason, CRLF, rest);
    assert a + rest == [SP] + (reason + (CRLF + rest));
    Associates(code, a, rest);
    assert b + rest == [major] + ([DOT] + ([minor] + ([SP] + (code + (a + rest)))));
    assert H + (TTP + b) + rest == H + (TTP + (b + rest));
  }

  lemma StatusLog(log: seq<Call>, line: Line)
    requires line.StatusLine?
    ensures log + [Notify(MessageBegin)] + ReasonCalls(line.reason) == log + LineCalls(line)
  {}

  lemma {:induction false} DigitValues(code: seq<Byte>)
    requires IsDigits(code)
    ensures forall d | d in DecimalValues(code) :: d <= 9
  {
    if code != [] {
      assert code[0] in code && forall d | d in code[1..] :: d in code;
      DigitValues(code[1..]);
      assert forall d | d in DecimalValues(code) :: d == DecimalValue(code[0]) || d in DecimalValues(code[1..]);
    }
  }

  lemma CodeIsRead(s: State<Label>, r: Registers, code: seq<Byte>, rest: seq<Byte>)
    requires s.span == None && IsDigits(code) && StatusOf(code) <= 999 && r.statusCode == 0
    ensures RunOn(With(s, Status(ResStatusCode), r), code + ([SP] + rest)) ==
            RunOn(With(s, Status(ResStatusStart), r.(statusCode := StatusOf(code))), rest)
  {
    DigitValues(code);
    FoldStatusIsExact(DecimalValues(code));
    CodeRuns(s, r, 0, 0, code, rest);
  }

  lemma StatusLineRuns(s: State<Label>, line: Line, rest: seq<Byte>)
    requires s.current == Begin(Start) && Between(s) && line.StatusLine? && IsLine(line) && Expects(s.regs.kind, line)
    ensures RunOn(s, RenderLine(line) + rest) ==
            RunOn(s.(current := Name(HeaderFieldStart), regs := ApplyLine(s.regs, line),
                     log := s.log + LineCalls(line)), rest)
  {
    var t := Begun(s);
    var r := s.regs.(finish := FINISH_UNSAFE);
    var r1 := r.(kind := HTTP_RESPONSE, httpMajor := DecimalValue(line.major));
    var r2 := r1.(httpMinor := DecimalValue(line.minor), statusCode := 0);
    var c := line.code + ([SP] + (line.reason + (CRLF + rest)));
    var tail := TTP + ([line.major] + ([DOT] + ([line.minor] + ([SP] + c))));
    StatusApart(line.major, line.minor, line.code, line.reason, rest);
    Begins(s, H[0], tail);
    ResponseIsRead(t, r, [line.major] + ([DOT] + ([line.minor] + ([SP] + c))));
    StatusMajorRuns(t, r.(kind := HTTP_RESPONSE), line.major, [line.minor] + ([SP] + c));
    StatusMinorRuns(t, r1, line.minor, c);
    CodeIsRead(t, r2, line.code, line.reason + (CRLF + rest));
    ReasonIsRead(t, r2.(statusCode := StatusOf(line.code)), line.reason, rest);
    StatusLog(s.log, line);
  }

  /** The parser at the beginning of a message reads its first line, and is then before its fields. */
  lemma LineIsRead(s: State<Label>, line: Line, rest: seq<Byte>)
    requires s.current == Begin(Start) && Between(s) && IsLine(line) && Expects(s.regs.kind, line)
    ensures RunOn(s, RenderLine(line) + rest) ==
            RunOn(s.(current := Name(HeaderFieldStart), regs := ApplyLine(s.regs, line),
                     log := s.log + LineCalls(line)), rest)
  {
    if line.RequestLine? {
      RequestLineRuns(s, line, rest);
    } else {
      StatusLineRuns(s, line, rest);
    }
  }
}
