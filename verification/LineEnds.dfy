/** How strictly the loose parser takes the ends of lines, and the bytes of a value. */
module LineEnds {
  import opened Bytes
  import opened Llparse
  import opened Llhttp
  import opened LlhttpSteps
  import opened TransferEncoding
  import opened HeaderFields
  import opened StartLine
  import opened AnyStartLine

  // ---------------------------------------------------------------- LF without CR

  /** Where a line may end, outside chunks. */
  predicate MayEndLine(l: Label) {
    || l == Version(ReqHttpComplete) || l == Status(ResStatusStart) || l == Status(ResStatus)
    || l == Value(HeaderValueDiscardWs) || l == Value(HeaderValueOtherwise) || l == Name(HeaderFieldStart)
    || l == Request(Url)
  }

  lemma CrThenLf(rest: seq<Byte>)
    ensures CRLF + rest == [CR] + ([LF] + rest) && (CRLF + rest)[1..] == [LF] + rest && ([LF] + rest)[1..] == rest
  {}

  lemma EmptyLineLf(s: State<Label>, rest: seq<Byte>)
    requires s.current == Name(HeaderFieldStart) && s.span == None
    ensures RunOn(s, [LF] + rest) == RunOn(s, CRLF + rest)
  {
    EmptyHeadersRun(s, rest);
    Peeks(s, LF, rest);
    Reads(To(s, Headers(HeadersAlmostDone)), LF, rest);
  }

  lemma BlankValueLf(s: State<Label>, rest: seq<Byte>)
    requires s.current == Value(HeaderValueDiscardWs) && s.span == None
    ensures RunOn(s, [LF] + rest) == RunOn(s, CRLF + rest)
  {
    CrThenLf(rest);
    Reads(s, LF, rest);
    Reads(s, CR, [LF] + rest);
    Reads(To(s, Value(HeaderValueDiscardWsAlmostDone)), LF, rest);
  }

  lemma ValueLf(s: State<Label>, rest: seq<Byte>)
    requires s.current == Value(HeaderValueOtherwise) && s.span == Some(OnHeaderValue) && s.regs.matched == 0
    ensures RunOn(s, [LF] + rest) == RunOn(s, CRLF + rest)
  {
    ValueLineEnds(s, s.held, rest);
    Peeks(s, LF, rest);
    EndsSpan(s.(current := Value(SpanEndHeaderValue1)), [LF] + rest);
    Reads(s.(current := Value(HeaderValueAlmostDone), span := None, held := [],
             log := s.log + [Data(OnHeaderValue, s.held)]), LF, rest);
  }

  lemma RequestLf(s: State<Label>, rest: seq<Byte>)
    requires s.current == Version(ReqHttpComplete) && s.span == None
    ensures RunOn(s, [LF] + rest) == RunOn(s, CRLF + rest)
  {
    VersionEnds(s, s.regs, s.regs.matched, rest);
    assert s.(current := Version(ReqHttpComplete), regs := s.regs.(matched := s.regs.matched)) == s;
    Reads(s, LF, rest);
  }

  lemma StatusLf(s: State<Label>, rest: seq<Byte>)
    requires s.current == Status(ResStatusStart) && s.span == None
    ensures RunOn(s, [LF] + rest) == RunOn(s, CRLF + rest)
  {
    CrThenLf(rest);
    Reads(s, LF, rest);
    Reads(s, CR, [LF] + rest);
    Reads(To(s, Status(ResLineAlmostDone)), LF, rest);
  }

  lemma ReasonLf(s: State<Label>, rest: seq<Byte>)
    requires s.current == Status(ResStatus) && s.span == Some(OnStatus)
    ensures RunOn(s, [LF] + rest) == RunOn(CloseSpan(To(s, Status(OnStatusComplete))), rest)
  {
    assert ([LF] + rest)[1..] == rest;
    Peeks(s, LF, rest);
    EndsSpan(To(s, Status(SpanEndStatus)), [LF] + rest);
  }

  lemma ReasonCr(s: State<Label>, x: Byte, rest: seq<Byte>)
    requires s.current == Status(ResStatus) && s.span == Some(OnStatus)
    ensures RunOn(s, [CR] + ([x] + rest)) == RunOn(CloseSpan(To(s, Status(OnStatusComplete))), rest)
  {
    assert ([CR] + ([x] + rest))[1..] == [x] + rest;
    Peeks(s, CR, [x] + rest);
    EndsSpan(To(s, Status(SpanEndStatus1)), [CR] + ([x] + rest));
    Reads(CloseSpan(To(s, Status(ResLineAlmostDone))), x, rest);
  }

  /** Behind a url, where the line has no version. */
  lemma UrlLf(s: State<Label>, rest: seq<Byte>)
    requires s.current == Request(Url) && s.span == Some(OnUrl)
    ensures RunOn(s, [LF] + rest) == RunOn(CloseSpan(To(s, Version(UpdateHttp09))), rest)
  {
    Peeks(s, LF, rest);
    EndsSpan(To(s, Request(UrlEndLf)), [LF] + rest);
    Reads(CloseSpan(To(s, Version(UrlSkipToHttp09))), LF, rest);
  }

  lemma UrlEndsAtCr(s: State<Label>, x: Byte, rest: seq<Byte>)
    requires s.current == Request(Url) && s.span == Some(OnUrl)
    ensures RunOn(s, [CR] + ([x] + rest)) ==
            RunOn(CloseSpan(To(s, Version(UrlSkipLfToHttp09))), [CR] + ([x] + rest))
  {
    Peeks(s, CR, [x] + rest);
    EndsSpan(To(s, Request(UrlEndCr)), [CR] + ([x] + rest));
  }

  lemma UrlCr(s: State<Label>, x: Byte, rest: seq<Byte>)
    requires s.current == Request(Url) && s.span == Some(OnUrl) && s.index == 0
    ensures var t := RunOn(s, [CR] + ([x] + rest));
            if x == LF then t == RunOn(CloseSpan(To(s, Version(UpdateHttp09))), rest) else t.error == INVALID_URL
  {
    var u := CloseSpan(To(s, Version(UrlSkipLfToHttp09)));
    UrlEndsAtCr(s, x, rest);
    if x == LF {
      ExactSpells(CRLF, CRLF);
      assert CRLF + rest == [CR] + ([x] + rest);
      Spelled(u, CRLF, rest);
    } else {
      assert Match(Exact, CRLF, 0, [CR] + ([x] + rest)) == MatchMismatch(1) by {
        assert ([CR] + ([x] + rest))[1..] == [x] + rest;
      }
      Misspelled(u, [CR] + ([x] + rest));
      Fails(u.(current := Failing(INVALID_URL)), ([CR] + ([x] + rest))[1..]);
    }
  }

  /** An LF alone ends a line wherever CR and LF do, but for the lines around chunks. */
  lemma LfIsEnough(s: State<Label>, rest: seq<Byte>)
    requires MayEndLine(s.current) && s.regs.matched == 0 && s.span == SpanOf(s.current) && s.index == 0
    ensures RunOn(s, [LF] + rest) == RunOn(s, CRLF + rest)
  {
    match s.current
    case Version(_) => RequestLf(s, rest);
    case Status(l) =>
      if l == ResStatusStart {
        StatusLf(s, rest);
      } else {
        CrThenLf(rest);
        ReasonLf(s, rest);
        ReasonCr(s, LF, rest);
      }
    case Value(l) =>
      if l == HeaderValueDiscardWs {
        BlankValueLf(s, rest);
      } else {
        ValueLf(s, rest);
      }
    case Name(_) => EmptyLineLf(s, rest);
    case Request(_) =>
      CrThenLf(rest);
      UrlLf(s, rest);
      UrlCr(s, LF, rest);
    case _ =>
  }

  // ---------------------------------------------------------------- CR without LF

  /** Where the LF is looked for. */
  predicate WantsLf(l: Label) {
    l == Version(ReqHttpComplete) || l == Value(HeaderValueOtherwise) || l == Request(Url)
  }

  lemma EmptyLineCr(s: State<Label>, x: Byte, rest: seq<Byte>)
    requires s.current == Name(HeaderFieldStart) && s.span == None
    ensures RunOn(s, [CR] + ([x] + rest)) == RunOn(To(s, Headers(HeadersDone)), rest)
  {
    Reads(s, CR, [x] + rest);
    Reads(To(s, Headers(HeadersAlmostDone)), x, rest);
  }

  lemma BlankValueCr(s: State<Label>, x: Byte, rest: seq<Byte>)
    requires s.current == Value(HeaderValueDiscardWs) && s.span == None
    ensures RunOn(s, [CR] + ([x] + rest)) == RunOn(To(s, Value(HeaderValueDiscardLws)), rest)
  {
    Reads(s, CR, [x] + rest);
    Reads(To(s, Value(HeaderValueDiscardWsAlmostDone)), x, rest);
  }

  lemma StatusCr(s: State<Label>, x: Byte, rest: seq<Byte>)
    requires s.current == Status(ResStatusStart) && s.span == None
    ensures RunOn(s, [CR] + ([x] + rest)) == RunOn(To(s, Status(OnStatusComplete)), rest)
  {
    Reads(s, CR, [x] + rest);
    Reads(To(s, Status(ResLineAlmostDone)), x, rest);
  }

  lemma RequestCr(s: State<Label>, x: Byte, rest: seq<Byte>)
    requires s.current == Version(ReqHttpComplete) && s.span == None && x != LF
    ensures RunOn(s, [CR] + ([x] + rest)).error == INVALID_VERSION
  {
    Reads(s, CR, [x] + rest);
    FailsOn(To(s, Version(ReqHttpComplete1)), x, rest, INVALID_VERSION);
  }

  lemma ValueCr(s: State<Label>, x: Byte, rest: seq<Byte>)
    requires s.current == Value(HeaderValueOtherwise) && s.span == Some(OnHeaderValue) && x != LF
    ensures RunOn(s, [CR] + ([x] + rest)).error == LF_EXPECTED
  {
    assert ([CR] + ([x] + rest))[1..] == [x] + rest;
    Peeks(s, CR, [x] + rest);
    EndsSpan(To(s, Value(SpanEndHeaderValue2)), [CR] + ([x] + rest));
    FailsOn(CloseSpan(To(s, Value(HeaderValueAlmostDone))), x, rest, LF_EXPECTED);
  }

  lemma AnyEndsLine(s: State<Label>, x: Byte, rest: seq<Byte>)
    requires MayEndLine(s.current) && !WantsLf(s.current) && s.span == SpanOf(s.current)
    ensures RunOn(s, [CR] + ([x] + rest)) == RunOn(s, CRLF + rest)
  {
    CrThenLf(rest);
    match s.current
    case Status(l) =>
      if l == ResStatusStart {
        StatusCr(s, x, rest);
        StatusCr(s, LF, rest);
      } else {
        ReasonCr(s, x, rest);
        ReasonCr(s, LF, rest);
      }
    case Value(_) =>
      BlankValueCr(s, x, rest);
      BlankValueCr(s, LF, rest);
    case Name(_) =>
      EmptyLineCr(s, x, rest);
      EmptyLineCr(s, LF, rest);
    case _ =>
  }

  function LfError(l: Label): Errno {
    if l.Version? then INVALID_VERSION else if l.Request? then INVALID_URL else LF_EXPECTED
  }

  /** Behind a CR the LF is looked for at the end of a request line and of a value alone; anywhere else any
      byte will do. */
  lemma LfIsWantedIff(s: State<Label>, x: Byte, rest: seq<Byte>)
    requires MayEndLine(s.current) && s.span == SpanOf(s.current) && s.index == 0
    ensures WantsLf(s.current) && x != LF ==> RunOn(s, [CR] + ([x] + rest)).error == LfError(s.current)
    ensures !(WantsLf(s.current) && x != LF) ==> RunOn(s, [CR] + ([x] + rest)) == RunOn(s, CRLF + rest)
  {
    if !WantsLf(s.current) {
      AnyEndsLine(s, x, rest);
    } else if x == LF {
      CrThenLf(rest);
    } else if s.current == Version(ReqHttpComplete) {
      RequestCr(s, x, rest);
    } else if s.current == Request(Url) {
      UrlCr(s, x, rest);
    } else {
      ValueCr(s, x, rest);
    }
  }

  // ---------------------------------------------------------------- behind a chunk

  /** Two bytes behind the data of a chunk are skipped, whatever they are. */
  lemma ChunkEndSkipped(s: State<Label>, x: Byte, y: Byte, rest: seq<Byte>)
    requires s.current == Body(ChunkDataAlmostDone) && s.span == None
    ensures RunOn(s, [x] + ([y] + rest)) == RunOn(s, CRLF + rest)
  {
    CrThenLf(rest);
    Reads(s, x, [y] + rest);
    Reads(To(s, Body(ChunkDataAlmostDoneSkip)), y, rest);
    Reads(s, CR, [LF] + rest);
    Reads(To(s, Body(ChunkDataAlmostDoneSkip)), LF, rest);
  }

  // ---------------------------------------------------------------- the bytes of a value

  lemma {:induction false} LenientReads(s: State<Label>, held: seq<Byte>, text: seq<Byte>, end: seq<Byte>)
    requires s.regs.matched == 0 && CR !in text && LF !in text
    ensures RunOn(InSpan(s, HeaderValueLenient, held), text + (CRLF + end)) ==
            RunOn(InSpan(s, HeaderValueLenient, held + text), CRLF + end)
    decreases |text|
  {
    if text == [] {
      assert text + (CRLF + end) == CRLF + end && held + text == held;
    } else {
      assert text[0] in text && text == [text[0]] + text[1..] && forall b | b in text[1..] :: b in text;
      assert text + (CRLF + end) == [text[0]] + (text[1..] + (CRLF + end));
      Reads(InSpan(s, HeaderValueLenient, held), text[0], text[1..] + (CRLF + end));
      LenientReads(s, held + [text[0]], text[1..], end);
      Associates(held, [text[0]], text[1..]);
    }
  }

  lemma LenientEnds(s: State<Label>, v: seq<Byte>, end: seq<Byte>)
    requires s.span == None && s.held == [] && s.regs.matched == 0
    ensures RunOn(InSpan(s, HeaderValueLenient, v), CRLF + end) == RunOn(LineTold(s, v), end)
  {
    CrThenLf(end);
    assert s.(regs := s.regs) == s;
    LineEnds(s, s.regs, v, end);
    Peeks(InSpan(s, HeaderValueOtherwise, v), CR, [LF] + end);
    Peeks(InSpan(s, HeaderValueLenient, v), CR, [LF] + end);
  }

  /** A byte that no value has. */
  lemma ControlRuns(s: State<Label>, held: seq<Byte>, b: Byte, rest: seq<Byte>)
    requires s.regs.matched == 0 && !IsHeaderValueByte(b) && b != CR && b != LF
    ensures var t := RunOn(InSpan(s, HeaderValue, held), [b] + rest);
            if s.regs.lenient.headers then t == RunOn(InSpan(s, HeaderValueLenient, held), [b] + rest)
            else t.error == INVALID_HEADER_TOKEN
  {
    Peeks(InSpan(s, HeaderValue, held), b, rest);
    Peeks(InSpan(s, HeaderValueOtherwise, held), b, rest);
    Invokes(InSpan(s, TestLenientHeaders, held), [b] + rest);
    if !s.regs.lenient.headers {
      Fails(InSpan(s, HeaderValue, held).(current := Failing(INVALID_HEADER_TOKEN)), [b] + rest);
    }
  }

  lemma {:induction false} TextRuns(s: State<Label>, held: seq<Byte>, text: seq<Byte>, end: seq<Byte>)
    requires s.span == None && s.held == [] && s.regs.matched == 0 && CR !in text && LF !in text
    ensures var t := RunOn(InSpan(s, HeaderValue, held), text + (CRLF + end));
            if IsValue(text) || s.regs.lenient.headers then t == RunOn(LineTold(s, held + text), end)
            else t.error == INVALID_HEADER_TOKEN
    decreases |text|
  {
    if text == [] {
      PlainRuns(s, held, text, end);
      assert s.(regs := s.regs) == s;
      LineEnds(s, s.regs, held + text, end);
    } else {
      var more := text[1..] + (CRLF + end);
      assert text[0] in text && text == [text[0]] + text[1..] && forall b | b in text[1..] :: b in text;
      assert text + (CRLF + end) == [text[0]] + more;
      Associates(held, [text[0]], text[1..]);
      if IsHeaderValueByte(text[0]) {
        Reads(InSpan(s, HeaderValue, held), text[0], more);
        TextRuns(s, held + [text[0]], text[1..], end);
      } else {
        ControlRuns(s, held, text[0], more);
        if s.regs.lenient.headers {
          LenientReads(s, held, text, end);
          LenientEnds(s, held + text, end);
        }
      }
    }
  }

  /** A line of a value that is not looked into is told as it is if and only if it has no byte that no value
      has, or the parser is lenient; and otherwise refused. */
  lemma AnyTextIff(s: State<Label>, text: seq<Byte>, end: seq<Byte>)
    requires AtLine(s) && s.regs.headerState == H_GENERAL && CR !in text && LF !in text
    ensures var t := RunOn(s, text + (CRLF + end));
            if IsValue(text) || s.regs.lenient.headers then t == RunOn(LineTold(s, text), end)
            else t.error == INVALID_HEADER_TOKEN
  {
    LineStarts(s, text, end);
    Invokes(InSpan(s, LoadHeaderState2, []), text + (CRLF + end));
    TextRuns(s, [], text, end);
    assert [] + text == text;
  }

  // ---------------------------------------------------------------- in values that are looked into

  /** No value has it, and it ends no line. */
  predicate IsControl(b: Byte) { !IsHeaderValueByte(b) && b != CR && b != LF }

  /** A matcher of letters stops at it at the latest. */
  lemma {:induction false} ControlStops(fold: Fold, blob: seq<Byte>, index: nat, v: seq<Byte>, b: Byte, rest: seq<Byte>)
    requires index < |blob| && IsControl(b) && forall x | x in blob :: x == 0x2d || 0x61 <= x <= 0x7a
    ensures var m := Match(fold, blob, index, v + ([b] + rest));
            (m.MatchMismatch? && m.p <= |v|) || (m.MatchComplete? && m.p < |v|)
    decreases |v|
  {
    var input := v + ([b] + rest);
    assert blob[index] in blob;
    if v == [] {
      assert input[0] == b;
    } else {
      assert input[1..] == v[1..] + ([b] + rest);
      if index + 1 < |blob| {
        ControlStops(fold, blob, index + 1, v[1..], b, rest);
      }
    }
  }

  /** What a matcher makes of it: it goes on behind its word, or at the first wrong byte. */
  lemma MatcherGoes(s: State<Label>, v: seq<Byte>, b: Byte, rest: seq<Byte>) returns (t: State<Label>, w: seq<Byte>)
    requires NodeOf(s.current).Sequence? && s.index == 0 && IsControl(b) && IsValue(v)
    requires var n := NodeOf(s.current); n.blob != [] && forall x | x in n.blob :: x == 0x2d || 0x61 <= x <= 0x7a
    ensures RunOn(s, v + ([b] + rest)) == RunOn(t, w + ([b] + rest)) && IsValue(w) && t.index == 0
    ensures t.regs.lenient == s.regs.lenient && t.regs.flags == s.regs.flags
    ensures (t.current == NodeOf(s.current).complete && |w| < |v|) ||
            (t.current == NodeOf(s.current).mismatch && |w| <= |v|)
  {
    var n, input := NodeOf(s.current), v + ([b] + rest);
    var m := Match(n.fold, n.blob, 0, input);
    ControlStops(n.fold, n.blob, 0, v, b, rest);
    SequenceStep(s, input);
    var read := if m.MatchComplete? then m.p + 1 else m.p;
    w := v[read..];
    t := Hold(AfterMatch(s, m, n.matched, n.complete, n.mismatch), input[..read]);
    assert input[read..] == w + ([b] + rest) && forall x | x in w :: x in v;
    Goes(s, input);
  }

  /** The states in which the values of Connection and Transfer-Encoding, and others, are read. */
  predicate InValue(l: Label) {
    || l.Connection? || l.Coding? || l == Value(HeaderValue) || l == Value(HeaderValueOtherwise)
    || l == Value(TestLenientHeaders)
  }

  lemma ByteStays(l: Label, b: Byte)
    requires InValue(l) && NodeOf(l) == Switch && b != CR && b != LF
    ensures var e := EdgeOf(l, b);
            && InValue(e.next)
            && if e.advance then IsHeaderValueByte(b) else RankOf(e.next) < RankOf(l)
  {}

  lemma MatcherStays(l: Label)
    requires InValue(l) && NodeOf(l).Sequence?
    ensures var n := NodeOf(l);
            && InValue(n.complete) && InValue(n.mismatch) && RankOf(n.mismatch) < RankOf(l)
            && n.blob != [] && forall x | x in n.blob :: x == 0x2d || 0x61 <= x <= 0x7a
  {}

  lemma InvokeStays(l: Label, r: Registers)
    requires InValue(l) && NodeOf(l).Invoke? && !r.lenient.headers
    ensures var o := RunOf(l, r);
            && NodeOf(l).call == None && (InValue(o.1) || o.1 == Failing(INVALID_HEADER_TOKEN))
            && RankOf(o.1) < RankOf(l) && o.0.lenient == r.lenient
  {}

  lemma NodesInValue(l: Label)
    requires InValue(l)
    ensures NodeOf(l) == Switch || NodeOf(l).Sequence? || NodeOf(l).Invoke?
  {}

  /** One byte of a value, or the one that is in none. */
  lemma SwitchGoes(s: State<Label>, v: seq<Byte>, b: Byte, rest: seq<Byte>) returns (t: State<Label>, w: seq<Byte>)
    requires NodeOf(s.current) == Switch && IsValue(v) && s.index == 0
    requires var e := EdgeOf(s.current, if v == [] then b else v[0]);
             if e.advance then v != [] else RankOf(e.next) < RankOf(s.current)
    ensures RunOn(s, v + ([b] + rest)) == RunOn(t, w + ([b] + rest)) && IsValue(w) && t.index == 0
    ensures t.regs.lenient == s.regs.lenient && t.regs.flags == s.regs.flags
    ensures t.current == EdgeOf(s.current, if v == [] then b else v[0]).next
    ensures if EdgeOf(s.current, if v == [] then b else v[0]).advance then |w| < |v| else w == v
  {
    var x, more := if v == [] then b else v[0], if v == [] then rest else v[1..] + ([b] + rest);
    assert v + ([b] + rest) == [x] + more && forall y | y in v[if v == [] then 0 else 1..] :: y in v;
    if EdgeOf(s.current, x).advance {
      Reads(s, x, more);
      t, w := Hold(MoveTo(s, EdgeOf(s.current, x)), [x]), v[1..];
    } else {
      Peeks(s, x, more);
      t, w := MoveTo(s, EdgeOf(s.current, x)), v;
    }
  }

  /** Wherever it is. */
  lemma {:induction false} ValueRefuses(s: State<Label>, v: seq<Byte>, b: Byte, rest: seq<Byte>)
    requires InValue(s.current) && s.index == 0 && !s.regs.lenient.headers && IsValue(v) && IsControl(b)
    ensures RunOn(s, v + ([b] + rest)).error == INVALID_HEADER_TOKEN
    decreases |v|, RankOf(s.current)
  {
    NodesInValue(s.current);
    if NodeOf(s.current) == Switch {
      assert v != [] ==> v[0] in v;
      ByteStays(s.current, if v == [] then b else v[0]);
      var t, w := SwitchGoes(s, v, b, rest);
      ValueRefuses(t, w, b, rest);
    } else if NodeOf(s.current).Sequence? {
      MatcherStays(s.current);
      var t, w := MatcherGoes(s, v, b, rest);
      ValueRefuses(t, w, b, rest);
    } else {
      InvokeRefuses(s, v, b, rest);
    }
  }

  lemma InvokeRefuses(s: State<Label>, v: seq<Byte>, b: Byte, rest: seq<Byte>)
    requires InValue(s.current) && NodeOf(s.current).Invoke?
    requires s.index == 0 && !s.regs.lenient.headers && IsValue(v) && IsControl(b)
    ensures RunOn(s, v + ([b] + rest)).error == INVALID_HEADER_TOKEN
    decreases |v|, RankOf(s.current), 0
  {
    var o, input := RunOf(s.current, s.regs), v + ([b] + rest);
    var t := s.(current := o.1, regs := o.0);
    InvokeStays(s.current, s.regs);
    Invokes(s, input);
    if InValue(o.1) {
      ValueRefuses(t, v, b, rest);
    } else {
      Fails(t, input);
    }
  }

  // ---------------------------------------------------------------- in Content-Length

  predicate InLength(l: Label) {
    || l == Length(HeaderValueContentLength) || l == Length(MulAddContentLength1)
    || l == Length(HeaderValueContentLengthWs) || l == Length(SpanEndContentLength)
  }

  lemma DigitStays(l: Label, b: Byte)
    requires InLength(l) && NodeOf(l) == Switch && b != CR && b != LF
    ensures var e := EdgeOf(l, b);
            && InLength(e.next)
            && if e.advance then IsHeaderValueByte(b) else RankOf(e.next) < RankOf(l)
  {}

  lemma LengthFails(s: State<Label>, input: seq<Byte>)
    requires s.current == Length(SpanEndContentLength)
    ensures RunOn(s, input).error == INVALID_CONTENT_LENGTH
  {
    EndsSpan(s, input);
    Fails(CloseSpan(s).(current := Failing(INVALID_CONTENT_LENGTH)), input);
  }

  lemma {:induction false} LengthRefuses(s: State<Label>, v: seq<Byte>, b: Byte, rest: seq<Byte>)
    requires InLength(s.current) && s.index == 0 && IsValue(v) && IsControl(b)
    ensures RunOn(s, v + ([b] + rest)).error == INVALID_CONTENT_LENGTH
    decreases |v|, RankOf(s.current)
  {
    var input := v + ([b] + rest);
    if s.current == Length(SpanEndContentLength) {
      LengthFails(s, input);
    } else if s.current == Length(MulAddContentLength1) {
      Invokes(s, input);
      LengthRefuses(s.(current := RunOf(s.current, s.regs).1, regs := RunOf(s.current, s.regs).0), v, b, rest);
    } else {
      assert v != [] ==> v[0] in v;
      DigitStays(s.current, if v == [] then b else v[0]);
      var t, w := SwitchGoes(s, v, b, rest);
      LengthRefuses(t, w, b, rest);
    }
  }

  /** A byte that no value has is refused in any line of any value, unless the parser is lenient. */
  lemma ControlIsRefused(s: State<Label>, v: seq<Byte>, b: Byte, rest: seq<Byte>)
    requires AtLine(s) && !s.regs.lenient.headers && IsValue(v) && IsControl(b)
    ensures RunOn(s, v + ([b] + rest)).error ==
            if s.regs.headerState != H_CONTENT_LENGTH then INVALID_HEADER_TOKEN
            else if s.regs.flags.contentLength then UNEXPECTED_CONTENT_LENGTH else INVALID_CONTENT_LENGTH
  {
    var input := v + ([b] + rest);
    var t := InSpan(s, LoadHeaderState2, []);
    var o := ValueRun(LoadHeaderState2, s.regs);
    var u := t.(current := o.1, regs := o.0);
    assert |input| > 0;
    StartsSpan(s, input);
    Invokes(t, input);
    if s.regs.headerState != H_CONTENT_LENGTH {
      ValueRefuses(u, v, b, rest);
    } else if s.regs.flags.contentLength {
      Fails(u, input);
    } else {
      LengthRefuses(u, v, b, rest);
    }
  }
}
