/** Any first line a message may begin with, and whether the parser takes it for one. */
module AnyStartLine {
  import opened Bytes
  import opened Llparse
  import opened HttpGlue
  import opened Digits
  import opened Llhttp
  import opened LlhttpSteps
  import opened ContentLengthValue
  import opened StartLine

  /** A byte that has no place here. */
  lemma FailsOn(s: State<Label>, b: Byte, rest: seq<Byte>, code: Errno)
    requires NodeOf(s.current) == Switch && EdgeOf(s.current, b) == Fail(code)
    ensures RunOn(s, [b] + rest).error == code
  {
    Peeks(s, b, rest);
    Fails(To(s, Failing(code)), [b] + rest);
  }

  // ---------------------------------------------------------------- the status code

  predicate IsVersion(major: Byte, dot: Byte, minor: Byte) {
    IsDigit(major) && dot == DOT && IsDigit(minor)
  }

  /** The status a text begins with, if that is a number up to 999, or none, alone or before a space. */
  ghost function StatusIn(text: seq<Byte>): Option<nat> {
    var digits := DigitsOf(text);
    var n, tail := Number(10, DecimalValues(digits)), text[|digits|..];
    if n <= 999 && (tail == [] || tail[0] == SP) then Some(n) else None
  }

  ghost function ReasonIn(text: seq<Byte>): seq<Byte> {
    var tail := text[|DigitsOf(text)|..];
    if tail == [] then [] else tail[1..]
  }

  lemma CodeDigitFails(s: State<Label>, r: Registers, value: nat, matched: nat, b: Byte, rest: seq<Byte>)
    requires s.span == None && IsDigit(b) && FoldStatus(value, DecimalValue(b)).overflow
    ensures RunOn(InCode(s, r, value, matched), [b] + rest).error == INVALID_STATUS
  {
    var t := s.(current := Status(MulAddStatusCode), regs := r.(matched := DecimalValue(b), statusCode := value));
    Reads(InCode(s, r, value, matched), b, rest);
    Invokes(t, rest);
    Fails(t.(current := Failing(INVALID_STATUS), regs := StatusRun(MulAddStatusCode, t.regs).0), rest);
  }

  lemma {:induction false} CodeFails(s: State<Label>, r: Registers, value: nat, matched: nat, code: seq<Byte>,
                                     rest: seq<Byte>)
    requires s.span == None && IsDigits(code) && FoldStatusAll(value, DecimalValues(code)).overflow
    ensures RunOn(InCode(s, r, value, matched), code + rest).error == INVALID_STATUS
    decreases |code|
  {
    var b, more := code[0], code[1..];
    assert b in code && forall d | d in more :: d in code;
    assert code + rest == [b] + (more + rest) && DecimalValues(code)[1..] == DecimalValues(more);
    var f := FoldStatus(value, DecimalValue(b));
    if f.overflow {
      CodeDigitFails(s, r, value, matched, b, more + rest);
    } else {
      CodeDigitRuns(s, r, value, matched, b, more + rest);
      CodeFails(s, r, f.value, DecimalValue(b), more, rest);
    }
  }

  /** The parser behind the digits; the last of them is still in a register. */
  function BehindCode(s: State<Label>, r: Registers, value: nat, matched: nat, code: seq<Byte>): State<Label>
    requires IsDigits(code)
  {
    InCode(s, r, value, if code == [] then matched else DecimalValue(code[|code| - 1]))
  }

  lemma {:induction false} CodeDigitsRun(s: State<Label>, r: Registers, value: nat, matched: nat, code: seq<Byte>,
                                         rest: seq<Byte>)
    requires s.span == None && IsDigits(code) && !FoldStatusAll(value, DecimalValues(code)).overflow
    ensures RunOn(InCode(s, r, value, matched), code + rest) ==
            RunOn(BehindCode(s, r, FoldStatusAll(value, DecimalValues(code)).value, matched, code), rest)
    decreases |code|
  {
    if code == [] {
      assert code + rest == rest;
    } else {
      var b, more := code[0], code[1..];
      assert b in code && forall d | d in more :: d in code;
      assert code + rest == [b] + (more + rest) && DecimalValues(code)[1..] == DecimalValues(more);
      CodeDigitRuns(s, r, value, matched, b, more + rest);
      CodeDigitsRun(s, r, FoldStatus(value, DecimalValue(b)).value, DecimalValue(b), more, rest);
    }
  }

  lemma CodeEndsAlone(s: State<Label>, r: Registers, value: nat, matched: nat, rest: seq<Byte>)
    requires s.span == None && s.held == []
    ensures RunOn(InCode(s, r, value, matched), CRLF + rest) ==
            RunOn(With(s, Name(HeaderFieldStart), r.(statusCode := value)).(log := s.log + ReasonCalls([])), rest)
  {
    var r1 := r.(statusCode := value);
    assert CRLF + rest == [CR] + ([LF] + rest);
    Peeks(InCode(s, r, value, matched), CR, [LF] + rest);
    Peeks(With(s, Status(ResStatusCodeOtherwise), r1), CR, [LF] + rest);
    NoReasonRuns(s, r1, rest);
  }

  lemma CodeEndsBeforeReason(s: State<Label>, r: Registers, value: nat, matched: nat, reason: seq<Byte>,
                             rest: seq<Byte>)
    requires s.span == None && s.held == [] && CR !in reason && LF !in reason
    ensures RunOn(InCode(s, r, value, matched), [SP] + (reason + (CRLF + rest))) ==
            RunOn(With(s, Name(HeaderFieldStart), r.(statusCode := value)).(log := s.log + ReasonCalls(reason)), rest)
  {
    var r1 := r.(statusCode := value);
    Peeks(InCode(s, r, value, matched), SP, reason + (CRLF + rest));
    Reads(With(s, Status(ResStatusCodeOtherwise), r1), SP, reason + (CRLF + rest));
    ReasonIsRead(s, r1, reason, rest);
  }

  lemma CodeEndsBadly(s: State<Label>, r: Registers, value: nat, matched: nat, b: Byte, rest: seq<Byte>)
    requires s.span == None && !IsDigit(b) && b != CR && b != LF && b != SP
    ensures RunOn(InCode(s, r, value, matched), [b] + rest).error == INVALID_STATUS
  {
    Peeks(InCode(s, r, value, matched), b, rest);
    FailsOn(With(s, Status(ResStatusCodeOtherwise), r.(statusCode := value)), b, rest, INVALID_STATUS);
  }

  lemma {:induction false} DigitsOfEnd(text: seq<Byte>)
    ensures var tail := text[|DigitsOf(text)|..]; tail != [] ==> !IsDigit(tail[0])
  {
    if text != [] && IsDigit(text[0]) {
      DigitsOfEnd(text[1..]);
      assert text[1..][|DigitsOf(text[1..])|..] == text[|DigitsOf(text)|..];
    }
  }

  /** What a status line that can be read leaves, behind its code and its reason. */
  function BehindStatus(s: State<Label>, r: Registers, status: nat, reason: seq<Byte>): State<Label> {
    With(s, Name(HeaderFieldStart), r.(statusCode := status)).(log := s.log + ReasonCalls(reason))
  }

  /** What is left of the text behind its digits. */
  lemma TailRuns(s: State<Label>, r: Registers, value: nat, matched: nat, tail: seq<Byte>, rest: seq<Byte>)
    requires s.span == None && s.held == [] && CR !in tail && LF !in tail && (tail != [] ==> !IsDigit(tail[0]))
    ensures var t := RunOn(InCode(s, r, value, matched), tail + (CRLF + rest));
            if tail == [] || tail[0] == SP
            then t == RunOn(BehindStatus(s, r, value, if tail == [] then [] else tail[1..]), rest)
            else t.error == INVALID_STATUS
  {
    if tail == [] {
      assert tail + (CRLF + rest) == CRLF + rest;
      CodeEndsAlone(s, r, value, matched, rest);
    } else {
      assert tail[0] in tail && forall b | b in tail[1..] :: b in tail;
      assert tail + (CRLF + rest) == [tail[0]] + (tail[1..] + (CRLF + rest));
      if tail[0] == SP {
        CodeEndsBeforeReason(s, r, value, matched, tail[1..], rest);
      } else {
        CodeEndsBadly(s, r, value, matched, tail[0], tail[1..] + (CRLF + rest));
      }
    }
  }

  lemma CodeTooBig(s: State<Label>, r: Registers, digits: seq<Byte>, rest: seq<Byte>)
    requires s.span == None && IsDigits(digits) && Number(10, DecimalValues(digits)) > 999
    ensures RunOn(InCode(s, r, 0, 0), digits + rest).error == INVALID_STATUS
  {
    DigitValues(digits);
    FoldStatusIsExact(DecimalValues(digits));
    CodeFails(s, r, 0, 0, digits, rest);
  }

  lemma CodeFits(s: State<Label>, r: Registers, digits: seq<Byte>, rest: seq<Byte>) returns (matched: nat)
    requires s.span == None && IsDigits(digits) && Number(10, DecimalValues(digits)) <= 999
    ensures RunOn(InCode(s, r, 0, 0), digits + rest) ==
            RunOn(InCode(s, r, Number(10, DecimalValues(digits)), matched), rest)
  {
    DigitValues(digits);
    FoldStatusIsExact(DecimalValues(digits));
    CodeDigitsRun(s, r, 0, 0, digits, rest);
    matched := if digits == [] then 0 else DecimalValue(digits[|digits| - 1]);
  }

  lemma StatusTextRuns(s: State<Label>, r: Registers, text: seq<Byte>, rest: seq<Byte>)
    requires s.span == None && s.held == [] && CR !in text && LF !in text && r.statusCode == 0
    ensures var t := RunOn(With(s, Status(ResStatusCode), r), text + (CRLF + rest));
            if StatusIn(text).Some? then t == RunOn(BehindStatus(s, r, StatusIn(text).value, ReasonIn(text)), rest)
            else t.error == INVALID_STATUS
  {
    var digits := DigitsOf(text);
    var tail := text[|digits|..];
    assert text == digits + tail && forall b | b in tail :: b in text;
    assert With(s, Status(ResStatusCode), r) == InCode(s, r, 0, 0);
    Associates(digits, tail, CRLF + rest);
    if Number(10, DecimalValues(digits)) > 999 {
      CodeTooBig(s, r, digits, tail + (CRLF + rest));
    } else {
      var matched := CodeFits(s, r, digits, tail + (CRLF + rest));
      DigitsOfEnd(text);
      TailRuns(s, r, Number(10, DecimalValues(digits)), matched, tail, rest);
    }
  }

  // ---------------------------------------------------------------- any status line

  lemma StatusMajorOnly(s: State<Label>, r: Registers, b: Byte, rest: seq<Byte>)
    requires s.span == None && IsDigit(b)
    ensures RunOn(With(s, Status(ResHttpMajor), r), [b] + rest) ==
            RunOn(s.(current := Status(ResHttpDot),
                     regs := r.(matched := DecimalValue(b), httpMajor := DecimalValue(b))), rest)
  {
    Reads(With(s, Status(ResHttpMajor), r), b, rest);
    Invokes(s.(current := Status(StoreResMajor), regs := r.(matched := DecimalValue(b))), rest);
  }

  lemma StatusMinorOnly(s: State<Label>, r: Registers, b: Byte, rest: seq<Byte>)
    requires s.span == None && IsDigit(b)
    ensures RunOn(With(s, Status(ResHttpMinor), r), [b] + rest) ==
            RunOn(s.(current := Status(ResHttpEnd),
                     regs := r.(matched := DecimalValue(b), httpMinor := DecimalValue(b))), rest)
  {
    Reads(With(s, Status(ResHttpMinor), r), b, rest);
    Invokes(s.(current := Status(StoreResMinor), regs := r.(matched := DecimalValue(b))), rest);
  }

  /** What is no version, or not before a space, is refused. */
  lemma NoStatusVersion(s: State<Label>, r: Registers, major: Byte, dot: Byte, minor: Byte, space: Byte,
                        rest: seq<Byte>)
    requires s.span == None && !(IsVersion(major, dot, minor) && space == SP)
    ensures RunOn(With(s, Status(ResHttpMajor), r), [major] + ([dot] + ([minor] + ([space] + rest)))).error ==
            INVALID_VERSION
  {
    var tail := [minor] + ([space] + rest);
    if !IsDigit(major) {
      FailsOn(With(s, Status(ResHttpMajor), r), major, [dot] + tail, INVALID_VERSION);
    } else if dot != DOT {
      StatusMajorOnly(s, r, major, [dot] + tail);
      var t := s.(current := Status(ResHttpDot),
                  regs := r.(matched := DecimalValue(major), httpMajor := DecimalValue(major)));
      FailsOn(t, dot, tail, INVALID_VERSION);
    } else {
      StatusMajorRuns(s, r, major, tail);
      var r1 := r.(httpMajor := DecimalValue(major));
      if !IsDigit(minor) {
        FailsOn(With(s, Status(ResHttpMinor), r1), minor, [space] + rest, INVALID_VERSION);
      } else {
        StatusMinorOnly(s, r1, minor, [space] + rest);
        var t := s.(current := Status(ResHttpEnd),
                    regs := r1.(matched := DecimalValue(minor), httpMinor := DecimalValue(minor)));
        FailsOn(t, space, rest, INVALID_VERSION);
      }
    }
  }

  /** "HTTP/", a version, a space and a text. */
  function StatusText(major: Byte, dot: Byte, minor: Byte, space: Byte, text: seq<Byte>, rest: seq<Byte>): seq<Byte> {
    H + (TTP + ([major] + ([dot] + ([minor] + ([space] + (text + (CRLF + rest)))))))
  }

  /** What a status line leaves. */
  ghost function AfterStatus(s: State<Label>, major: Byte, minor: Byte, text: seq<Byte>): State<Label>
    requires IsDigit(major) && IsDigit(minor) && StatusIn(text).Some?
  {
    s.(current := Name(HeaderFieldStart), log := s.log + ([Notify(MessageBegin)] + ReasonCalls(ReasonIn(text))),
       regs := s.regs.(matched := 0, finish := FINISH_UNSAFE, kind := HTTP_RESPONSE, httpMajor := DecimalValue(major),
                       httpMinor := DecimalValue(minor), statusCode := StatusIn(text).value))
  }

  /** Any line that begins with "HTTP/": a parser that may get responses takes it for a status line if and
      only if a version of two digits follows, a space, and a status up to 999, alone or before a space and
      a reason; and otherwise refuses it. */
  lemma StatusLineIff(s: State<Label>, major: Byte, dot: Byte, minor: Byte, space: Byte, text: seq<Byte>,
                      rest: seq<Byte>)
    requires s.current == Begin(Start) && Between(s) && s.regs.kind != HTTP_REQUEST && CR !in text && LF !in text
    ensures var t := RunOn(s, StatusText(major, dot, minor, space, text, rest));
            if !(IsVersion(major, dot, minor) && space == SP) then t.error == INVALID_VERSION
            else if StatusIn(text).None? then t.error == INVALID_STATUS
            else t == RunOn(AfterStatus(s, major, minor, text), rest)
  {
    var r := s.regs.(finish := FINISH_UNSAFE);
    var r0 := r.(kind := HTTP_RESPONSE);
    var end := text + (CRLF + rest);
    var tail := [major] + ([dot] + ([minor] + ([space] + end)));
    Begins(s, H[0], TTP + tail);
    ResponseIsRead(Begun(s), r, tail);
    if !(IsVersion(major, dot, minor) && space == SP) {
      NoStatusVersion(Begun(s), r0, major, dot, minor, space, end);
    } else {
      var r1 := r0.(httpMajor := DecimalValue(major));
      var r2 := r1.(httpMinor := DecimalValue(minor), statusCode := 0);
      StatusMajorRuns(Begun(s), r0, major, [minor] + ([space] + end));
      StatusMinorRuns(Begun(s), r1, minor, end);
      StatusTextRuns(Begun(s), r2, text, rest);
      Associates(s.log, [Notify(MessageBegin)], ReasonCalls(ReasonIn(text)));
    }
  }
  // ---------------------------------------------------------------- words

  lemma {:induction false} ExactSpells(bytes: seq<Byte>, blob: seq<Byte>)
    ensures Spells(Exact, bytes, blob) <==> bytes == blob
    decreases |bytes|
  {
    if |bytes| == |blob| && bytes != [] {
      ExactSpells(bytes[1..], blob[1..]);
      assert bytes == [bytes[0]] + bytes[1..] && blob == [blob[0]] + blob[1..];
    }
  }

  /** A word that ends before the blob does is told from it by what ends it. */
  lemma {:induction false} WordIsTold(blob: seq<Byte>, k: nat, w: seq<Byte>, e: Byte, rest: seq<Byte>)
    requires k < |blob| && e !in blob
    ensures !Match(Exact, blob, k, w + ([e] + rest)).MatchPause?
    decreases |w|
  {
    var input := w + ([e] + rest);
    if w == [] {
      assert input[0] == e && blob[k] in blob;
    } else if w[0] == blob[k] && k + 1 < |blob| {
      assert input[1..] == w[1..] + ([e] + rest);
      WordIsTold(blob, k + 1, w[1..], e, rest);
    }
  }

  lemma PrefixOfWord(blob: seq<Byte>, w: seq<Byte>, e: Byte, rest: seq<Byte>)
    requires e !in blob
    ensures blob <= w + ([e] + rest) <==> blob <= w
  {
    var input := w + ([e] + rest);
    if |w| < |blob| <= |input| {
      assert input[|w|] == e && blob[|w|] in blob;
    }
  }

  lemma WordMatchesIff(blob: seq<Byte>, w: seq<Byte>, e: Byte, rest: seq<Byte>)
    requires blob != [] && e !in blob
    ensures var m := Match(Exact, blob, 0, w + ([e] + rest));
            if blob <= w then m.MatchComplete? else m.MatchMismatch?
  {
    var input := w + ([e] + rest);
    WordIsTold(blob, 0, w, e, rest);
    MatchIsSpelling(Exact, blob, 0, input);
    PrefixOfWord(blob, w, e, rest);
    assert blob[0..] == blob;
    if |blob| <= |input| {
      ExactSpells(input[..|blob|], blob);
    }
  }

  /** A word that has to begin with the blob. */
  lemma WordRuns(s: State<Label>, w: seq<Byte>, e: Byte, rest: seq<Byte>, code: Errno)
    requires NodeOf(s.current).Sequence? && s.index == 0 && s.span == None
    requires var n := NodeOf(s.current); n.fold == Exact && n.blob != [] && e !in n.blob && n.mismatch == Failing(code)
    ensures var n, t := NodeOf(s.current), RunOn(s, w + ([e] + rest));
            if n.blob <= w then
              t == RunOn(s.(current := n.complete, regs := s.regs.(matched := n.matched)),
                         w[|n.blob|..] + ([e] + rest))
            else t.error == code
  {
    var n := NodeOf(s.current);
    WordMatchesIff(n.blob, w, e, rest);
    if n.blob <= w {
      assert w + ([e] + rest) == n.blob + (w[|n.blob|..] + ([e] + rest));
      ExactSpells(n.blob, n.blob);
      Spelled(s, n.blob, w[|n.blob|..] + ([e] + rest));
    } else {
      assert w + ([e] + rest) != [];
      Misspelled(s, w + ([e] + rest));
      var p := Match(n.fold, n.blob, 0, w + ([e] + rest)).p;
      Fails(s.(current := Failing(code)), (w + ([e] + rest))[p..]);
    }
  }

  // ---------------------------------------------------------------- the method

  const PARAMETER: seq<Byte> := [0x50, 0x41, 0x52, 0x41, 0x4d, 0x45, 0x54, 0x45, 0x52]
  const GET_PARAMETER: seq<Byte> := GET + [0x5f] + PARAMETER

  /** The methods, among them one of RTSP. */
  function VerbNamed(w: seq<Byte>): Option<nat> {
    if w == GET then Some(1) else if w == HEAD then Some(2) else if w == POST then Some(3)
    else if w == PUT then Some(4) else if w == CONNECT then Some(HTTP_CONNECT) else if w == OPTIONS then Some(6)
    else if w == GET_PARAMETER then Some(41) else None
  }

  /** How the run goes on behind a word: with the verb stored before a space, or not at all. */
  ghost predicate VerbRead(t: State<Label>, s: State<Label>, r: Registers, verb: Option<nat>, rest: seq<Byte>) {
    match verb
    case Some(v) => t == RunOn(With(s, Request(ReqFirstSpaceBeforeUrl), r.(verb := v)), [SP] + rest)
    case None => t.error == INVALID_METHOD
  }

  /** Behind a method that is known, nothing but a space. */
  lemma VerbEnds(s: State<Label>, r: Registers, verb: nat, w: seq<Byte>, rest: seq<Byte>)
    requires s.span == None && SP !in w
    ensures VerbRead(RunOn(s.(current := Begin(StoreMethod1), regs := r.(matched := verb)), w + ([SP] + rest)), s, r,
                     if w == [] then Some(verb) else None, rest)
  {
    if w == [] {
      assert w + ([SP] + rest) == [SP] + rest;
      StoredRuns(s, r, verb, rest);
    } else {
      var t := s.(current := Begin(StoreMethod1), regs := r.(matched := verb));
      assert w[0] in w && w + ([SP] + rest) == [w[0]] + (w[1..] + ([SP] + rest));
      Invokes(t, w + ([SP] + rest));
      FailsOn(t.(current := Request(ReqFirstSpaceBeforeUrl), regs := t.regs.(verb := verb)), w[0],
              w[1..] + ([SP] + rest), INVALID_METHOD);
    }
  }

  lemma TailOf(w: seq<Byte>, n: nat)
    requires SP !in w && n <= |w|
    ensures SP !in w[n..]
  {
    assert forall b | b in w[n..] :: b in w;
  }

  /** A method whose end is looked for as one. */
  lemma BlobEnds(s: State<Label>, l: RequestState, r: Registers, w: seq<Byte>, rest: seq<Byte>,
                 blob: seq<Byte>, verb: nat)
    requires s.span == None && s.index == 0 && SP !in w && blob != [] && SP !in blob
    requires RequestNode(l) == Sequence(Exact, blob, verb, Begin(StoreMethod1), Failing(INVALID_METHOD))
    ensures VerbRead(RunOn(With(s, Request(l), r), w + ([SP] + rest)), s, r,
                     if w == blob then Some(verb) else None, rest)
  {
    WordRuns(With(s, Request(l), r), w, SP, rest, INVALID_METHOD);
    if blob <= w {
      TailOf(w, |blob|);
      assert w == blob + w[|blob|..];
      VerbEnds(s, r, verb, w[|blob|..], rest);
    }
  }

  /** The first letter, and those behind it. */
  lemma FirstLetter(w: seq<Byte>, rest: seq<Byte>)
    requires w != [] && SP !in w
    ensures w == [w[0]] + w[1..] && w + ([SP] + rest) == [w[0]] + (w[1..] + ([SP] + rest)) && SP !in w[1..]
  {
    TailOf(w, 1);
  }

  const EAD: seq<Byte> := [0x45, 0x41, 0x44]
  const PTIONS: seq<Byte> := [0x50, 0x54, 0x49, 0x4f, 0x4e, 0x53]
  const NECT: seq<Byte> := [0x4e, 0x45, 0x43, 0x54]
  const ST: seq<Byte> := [0x53, 0x54]
  const ET: seq<Byte> := [0x45, 0x54]

  lemma HNames(w: seq<Byte>)
    requires w != [] && w[0] == 'H' as int
    ensures VerbNamed(w) == if w[1..] == EAD then Some(2) else None
  {
    assert w == [w[0]] + w[1..] && HEAD == [0x48] + EAD;
  }

  lemma ONames(w: seq<Byte>)
    requires w != [] && w[0] == 'O' as int
    ensures VerbNamed(w) == if w[1..] == PTIONS then Some(6) else None
  {
    assert w == [w[0]] + w[1..] && OPTIONS == [0x4f] + PTIONS;
  }

  lemma CNames(w: seq<Byte>)
    requires w != [] && w[0] == 'C' as int
    ensures VerbNamed(w) == if w[1..] == [0x4f] + ([0x4e] + NECT) then Some(HTTP_CONNECT) else None
  {
    assert w == [w[0]] + w[1..] && CONNECT == [0x43] + ([0x4f] + ([0x4e] + NECT));
  }

  lemma PNames(w: seq<Byte>)
    requires w != [] && w[0] == 'P' as int
    ensures VerbNamed(w) ==
            if w[1..] == [0x4f] + ST then Some(3) else if w[1..] == [0x55] + [0x54] then Some(4) else None
  {
    assert w == [w[0]] + w[1..] && POST == [0x50] + ([0x4f] + ST) && PUT == [0x50] + ([0x55] + [0x54]);
  }

  lemma GNames(w: seq<Byte>)
    requires w != [] && w[0] == 'G' as int
    ensures VerbNamed(w) ==
            if w[1..] == ET then Some(1) else if w[1..] == ET + ([0x5f] + PARAMETER) then Some(41) else None
  {
    assert w == [w[0]] + w[1..] && GET == [0x47] + ET;
    assert GET_PARAMETER == [0x47] + (ET + ([0x5f] + PARAMETER));
  }

  lemma HWords(s: State<Label>, r: Registers, w: seq<Byte>, rest: seq<Byte>)
    requires s.span == None && s.index == 0 && SP !in w && w != [] && w[0] == 'H' as int
    ensures VerbRead(RunOn(With(s, Request(StartReq), r), w + ([SP] + rest)), s, r, VerbNamed(w), rest)
  {
    FirstLetter(w, rest);
    HNames(w);
    Reads(With(s, Request(StartReq), r), w[0], w[1..] + ([SP] + rest));
    BlobEnds(s, StartReq18, r, w[1..], rest, EAD, 2);
  }

  lemma OWords(s: State<Label>, r: Registers, w: seq<Byte>, rest: seq<Byte>)
    requires s.span == None && s.index == 0 && SP !in w && w != [] && w[0] == 'O' as int
    ensures VerbRead(RunOn(With(s, Request(StartReq), r), w + ([SP] + rest)), s, r, VerbNamed(w), rest)
  {
    FirstLetter(w, rest);
    ONames(w);
    Reads(With(s, Request(StartReq), r), w[0], w[1..] + ([SP] + rest));
    BlobEnds(s, StartReq32, r, w[1..], rest, PTIONS, 6);
  }

  lemma NWords(s: State<Label>, r: Registers, w: seq<Byte>, rest: seq<Byte>)
    requires s.span == None && s.index == 0 && SP !in w
    ensures VerbRead(RunOn(With(s, Request(StartReq7), r), w + ([SP] + rest)), s, r,
                     if w == [0x4e] + NECT then Some(HTTP_CONNECT) else None, rest)
  {
    if w == [] {
      assert w + ([SP] + rest) == [SP] + rest;
      FailsOn(With(s, Request(StartReq7), r), SP, rest, INVALID_METHOD);
    } else {
      FirstLetter(w, rest);
      if w[0] == 0x4e {
        Reads(With(s, Request(StartReq7), r), w[0], w[1..] + ([SP] + rest));
        BlobEnds(s, StartReq8, r, w[1..], rest, NECT, HTTP_CONNECT);
      } else {
        FailsOn(With(s, Request(StartReq7), r), w[0], w[1..] + ([SP] + rest), INVALID_METHOD);
      }
    }
  }

  lemma OnWords(s: State<Label>, r: Registers, w: seq<Byte>, rest: seq<Byte>)
    requires s.span == None && s.index == 0 && SP !in w
    ensures VerbRead(RunOn(With(s, Request(StartReq5), r), w + ([SP] + rest)), s, r,
                     if w == [0x4f] + ([0x4e] + NECT) then Some(HTTP_CONNECT) else None, rest)
  {
    if w == [] {
      assert w + ([SP] + rest) == [SP] + rest;
      FailsOn(With(s, Request(StartReq5), r), SP, rest, INVALID_METHOD);
    } else {
      FirstLetter(w, rest);
      if w[0] == 0x4f {
        Reads(With(s, Request(StartReq5), r), w[0], w[1..] + ([SP] + rest));
        NWords(s, r, w[1..], rest);
      } else {
        FailsOn(With(s, Request(StartReq5), r), w[0], w[1..] + ([SP] + rest), INVALID_METHOD);
      }
    }
  }

  lemma CWords(s: State<Label>, r: Registers, w: seq<Byte>, rest: seq<Byte>)
    requires s.span == None && s.index == 0 && SP !in w && w != [] && w[0] == 'C' as int
    ensures VerbRead(RunOn(With(s, Request(StartReq), r), w + ([SP] + rest)), s, r, VerbNamed(w), rest)
  {
    FirstLetter(w, rest);
    CNames(w);
    Reads(With(s, Request(StartReq), r), w[0], w[1..] + ([SP] + rest));
    OnWords(s, r, w[1..], rest);
  }

  lemma PutWords(s: State<Label>, r: Registers, w: seq<Byte>, rest: seq<Byte>)
    requires s.span == None && SP !in w
    ensures VerbRead(RunOn(With(s, Request(StartReq44), r), w + ([SP] + rest)), s, r,
                     if w == [0x54] then Some(4) else None, rest)
  {
    if w == [] {
      assert w + ([SP] + rest) == [SP] + rest;
      FailsOn(With(s, Request(StartReq44), r), SP, rest, INVALID_METHOD);
    } else {
      FirstLetter(w, rest);
      if w[0] == 'T' as int {
        Reads(With(s, Request(StartReq44), r), w[0], w[1..] + ([SP] + rest));
        VerbEnds(s, r, 4, w[1..], rest);
      } else {
        FailsOn(With(s, Request(StartReq44), r), w[0], w[1..] + ([SP] + rest), INVALID_METHOD);
      }
    }
  }

  lemma PostOrPut(s: State<Label>, r: Registers, w: seq<Byte>, rest: seq<Byte>)
    requires s.span == None && s.index == 0 && SP !in w
    ensures VerbRead(RunOn(With(s, Request(StartReq33), r), w + ([SP] + rest)), s, r,
                     if w == [0x4f] + ST then Some(3) else if w == [0x55] + [0x54] then Some(4) else None, rest)
  {
    if w == [] {
      assert w + ([SP] + rest) == [SP] + rest;
      FailsOn(With(s, Request(StartReq33), r), SP, rest, INVALID_METHOD);
    } else {
      FirstLetter(w, rest);
      if w[0] == 'O' as int {
        Reads(With(s, Request(StartReq33), r), w[0], w[1..] + ([SP] + rest));
        BlobEnds(s, StartReq38, r, w[1..], rest, ST, 3);
      } else if w[0] == 'U' as int {
        Reads(With(s, Request(StartReq33), r), w[0], w[1..] + ([SP] + rest));
        PutWords(s, r, w[1..], rest);
      } else {
        FailsOn(With(s, Request(StartReq33), r), w[0], w[1..] + ([SP] + rest), INVALID_METHOD);
      }
    }
  }

  lemma PWords(s: State<Label>, r: Registers, w: seq<Byte>, rest: seq<Byte>)
    requires s.span == None && s.index == 0 && SP !in w && w != [] && w[0] == 'P' as int
    ensures VerbRead(RunOn(With(s, Request(StartReq), r), w + ([SP] + rest)), s, r, VerbNamed(w), rest)
  {
    FirstLetter(w, rest);
    PNames(w);
    Reads(With(s, Request(StartReq), r), w[0], w[1..] + ([SP] + rest));
    PostOrPut(s, r, w[1..], rest);
  }

  lemma GetWords(s: State<Label>, r: Registers, w: seq<Byte>, rest: seq<Byte>)
    requires s.span == None && s.index == 0 && SP !in w
    ensures VerbRead(RunOn(With(s, Request(StartReq16), r), w + ([SP] + rest)), s, r,
                     if w == [] then Some(1) else if w == [0x5f] + PARAMETER then Some(41) else None, rest)
  {
    if w != [] && w[0] == 0x5f {
      FirstLetter(w, rest);
      Reads(With(s, Request(StartReq16), r), w[0], w[1..] + ([SP] + rest));
      BlobEnds(s, StartReq17, r, w[1..], rest, PARAMETER, 41);
    } else {
      var input := w + ([SP] + rest);
      assert input == [input[0]] + input[1..] && input[0] != 0x5f;
      Peeks(With(s, Request(StartReq16), r), input[0], input[1..]);
      VerbEnds(s, r, 1, w, rest);
    }
  }

  lemma EtWords(s: State<Label>, r: Registers, w: seq<Byte>, rest: seq<Byte>)
    requires s.span == None && s.index == 0 && SP !in w
    ensures VerbRead(RunOn(With(s, Request(StartReq15), r), w + ([SP] + rest)), s, r,
                     if w == ET then Some(1) else if w == ET + ([0x5f] + PARAMETER) then Some(41) else None, rest)
  {
    WordRuns(With(s, Request(StartReq15), r), w, SP, rest, INVALID_METHOD);
    if ET <= w {
      TailOf(w, 2);
      assert w == ET + w[2..];
      GetWords(s, r, w[2..], rest);
    }
  }

  lemma GWords(s: State<Label>, r: Registers, w: seq<Byte>, rest: seq<Byte>)
    requires s.span == None && s.index == 0 && SP !in w && w != [] && w[0] == 'G' as int
    ensures VerbRead(RunOn(With(s, Request(StartReq), r), w + ([SP] + rest)), s, r, VerbNamed(w), rest)
  {
    FirstLetter(w, rest);
    GNames(w);
    Reads(With(s, Request(StartReq), r), w[0], w[1..] + ([SP] + rest));
    EtWords(s, r, w[1..], rest);
  }

  lemma OtherWords(s: State<Label>, r: Registers, w: seq<Byte>, rest: seq<Byte>)
    requires s.span == None && w != []
    requires w[0] != 'C' as int && w[0] != 'G' as int && w[0] != 'H' as int && w[0] != 'O' as int && w[0] != 'P' as int
    ensures VerbRead(RunOn(With(s, Request(StartReq), r), w + ([SP] + rest)), s, r, VerbNamed(w), rest)
  {
    assert w + ([SP] + rest) == [w[0]] + (w[1..] + ([SP] + rest));
    FailsOn(With(s, Request(StartReq), r), w[0], w[1..] + ([SP] + rest), INVALID_METHOD);
  }

  /** Any word before a space is stored as a method if and only if it is one, letter by letter. */
  lemma MethodIff(s: State<Label>, r: Registers, w: seq<Byte>, rest: seq<Byte>)
    requires s.span == None && s.index == 0 && SP !in w && w != []
    ensures VerbRead(RunOn(With(s, Request(StartReq), r), w + ([SP] + rest)), s, r, VerbNamed(w), rest)
  {
    if w[0] == 'C' as int {
      CWords(s, r, w, rest);
    } else if w[0] == 'G' as int {
      GWords(s, r, w, rest);
    } else if w[0] == 'H' as int {
      HWords(s, r, w, rest);
    } else if w[0] == 'O' as int {
      OWords(s, r, w, rest);
    } else if w[0] == 'P' as int {
      PWords(s, r, w, rest);
    } else {
      OtherWords(s, r, w, rest);
    }
  }

  // ---------------------------------------------------------------- the url

  lemma UrlStartsAny(s: State<Label>, r: Registers, b: Byte, rest: seq<Byte>)
    requires s.span == None && b != SP
    ensures RunOn(With(s, Request(ReqFirstSpaceBeforeUrl), r), [SP] + ([b] + rest)) ==
            RunOn(InUrl(s, r, []), [b] + rest)
  {
    Reads(With(s, Request(ReqFirstSpaceBeforeUrl), r), SP, [b] + rest);
    Peeks(With(s, Request(ReqSpacesBeforeUrl), r), b, rest);
    StartsSpan(With(s, Request(SpanStartUrl), r), [b] + rest);
  }

  /** The first byte that no url has. */
  lemma {:induction false} UrlFails(s: State<Label>, r: Registers, held: seq<Byte>, url: seq<Byte>, rest: seq<Byte>)
    requires SP !in url && CR !in url && LF !in url && exists b :: b in url && !IsUrlByte(b)
    ensures RunOn(InUrl(s, r, held), url + rest).error == INVALID_URL
    decreases |url|
  {
    assert url[0] in url && url + rest == [url[0]] + (url[1..] + rest) && forall b | b in url[1..] :: b in url;
    if IsUrlByte(url[0]) {
      var b :| b in url && !IsUrlByte(b);
      assert b in url[1..];
      Reads(InUrl(s, r, held), url[0], url[1..] + rest);
      UrlFails(s, r, held + [url[0]], url[1..], rest);
    } else {
      FailsOn(InUrl(s, r, held), url[0], url[1..] + rest, INVALID_URL);
    }
  }

  lemma NoUrl(s: State<Label>, r: Registers, url: seq<Byte>, rest: seq<Byte>)
    requires s.span == None && url != [] && SP !in url && CR !in url && LF !in url && !IsUrl(url)
    ensures RunOn(With(s, Request(ReqFirstSpaceBeforeUrl), r), [SP] + (url + rest)).error == INVALID_URL
  {
    assert url[0] in url && url + rest == [url[0]] + (url[1..] + rest);
    UrlStartsAny(s, r, url[0], url[1..] + rest);
    UrlFails(s, r, [], url, rest);
  }

  // ---------------------------------------------------------------- the version

  /** "HTTP/" and two digits with a dot between them. */
  ghost predicate IsProtocol(proto: seq<Byte>) {
    |proto| == 8 && proto[..5] == H + TTP && IsVersion(proto[5], proto[6], proto[7])
  }

  lemma MajorOnly(s: State<Label>, r: Registers, b: Byte, rest: seq<Byte>)
    requires s.span == None && IsDigit(b)
    ensures RunOn(With(s, Version(ReqHttpMajor), r), [b] + rest) ==
            RunOn(s.(current := Version(ReqHttpDot),
                     regs := r.(matched := DecimalValue(b), httpMajor := DecimalValue(b))), rest)
  {
    Reads(With(s, Version(ReqHttpMajor), r), b, rest);
    Invokes(s.(current := Version(StoreReqMajor), regs := r.(matched := DecimalValue(b))), rest);
  }

  lemma MinorOnly(s: State<Label>, r: Registers, b: Byte, rest: seq<Byte>)
    requires s.span == None && IsDigit(b)
    ensures RunOn(With(s, Version(ReqHttpMinor), r), [b] + rest) ==
            RunOn(s.(current := Version(ReqHttpComplete),
                     regs := r.(matched := DecimalValue(b), httpMinor := DecimalValue(b))), rest)
  {
    Reads(With(s, Version(ReqHttpMinor), r), b, rest);
    Invokes(s.(current := Version(StoreReqMinor), regs := r.(matched := DecimalValue(b))), rest);
  }

  lemma First(v: seq<Byte>, z: Byte, rest: seq<Byte>) returns (b: Byte, more: seq<Byte>)
    ensures v + ([CR, z] + rest) == [b] + more && b == if v == [] then CR else v[0]
    ensures more == if v == [] then [z] + rest else v[1..] + ([CR, z] + rest)
  {
    if v == [] {
      b, more := CR, [z] + rest;
      assert v + ([CR, z] + rest) == [b] + more;
    } else {
      b, more := v[0], v[1..] + ([CR, z] + rest);
      assert v + ([CR, z] + rest) == [b] + more;
    }
  }

  lemma BehindMinor(s: State<Label>, r: Registers, matched: nat, v: seq<Byte>, z: Byte, rest: seq<Byte>)
    requires s.span == None && CR !in v && LF !in v
    ensures var t :=
            RunOn(s.(current := Version(ReqHttpComplete), regs := r.(matched := matched)), v + ([CR, z] + rest));
            if v == [] && z == LF then t == RunOn(With(s, Name(HeaderFieldStart), r), rest)
            else t.error == INVALID_VERSION
  {
    var u := s.(current := Version(ReqHttpComplete), regs := r.(matched := matched));
    var b, more := First(v, z, rest);
    if v != [] {
      assert v[0] in v;
      FailsOn(u, b, more, INVALID_VERSION);
    } else {
      Reads(u, CR, [z] + rest);
      if z == LF {
        Reads(With(s, Version(ReqHttpComplete1), r), LF, rest);
      } else {
        FailsOn(With(s, Version(ReqHttpComplete1), r), z, rest, INVALID_VERSION);
      }
    }
  }

  lemma MinorRead(s: State<Label>, r: Registers, v: seq<Byte>, z: Byte, rest: seq<Byte>)
    requires s.span == None && CR !in v && LF !in v
    ensures var t := RunOn(With(s, Version(ReqHttpMinor), r), v + ([CR, z] + rest));
            if |v| == 1 && IsDigit(v[0]) && z == LF
            then t == RunOn(With(s, Name(HeaderFieldStart), r.(httpMinor := DecimalValue(v[0]))), rest)
            else t.error == INVALID_VERSION
  {
    var b, more := First(v, z, rest);
    if v != [] && IsDigit(v[0]) {
      MinorOnly(s, r, b, more);
      assert forall x | x in v[1..] :: x in v;
      BehindMinor(s, r.(httpMinor := DecimalValue(b)), DecimalValue(b), v[1..], z, rest);
    } else {
      FailsOn(With(s, Version(ReqHttpMinor), r), b, more, INVALID_VERSION);
    }
  }

  lemma DotRead(s: State<Label>, r: Registers, matched: nat, v: seq<Byte>, z: Byte, rest: seq<Byte>)
    requires s.span == None && CR !in v && LF !in v
    ensures var t := RunOn(s.(current := Version(ReqHttpDot), regs := r.(matched := matched)), v + ([CR, z] + rest));
            if |v| == 2 && v[0] == DOT && IsDigit(v[1]) && z == LF
            then t == RunOn(With(s, Name(HeaderFieldStart), r.(httpMinor := DecimalValue(v[1]))), rest)
            else t.error == INVALID_VERSION
  {
    var u := s.(current := Version(ReqHttpDot), regs := r.(matched := matched));
    var b, more := First(v, z, rest);
    if v != [] && v[0] == DOT {
      Reads(u, b, more);
      assert forall x | x in v[1..] :: x in v;
      MinorRead(s, r, v[1..], z, rest);
    } else {
      FailsOn(u, b, more, INVALID_VERSION);
    }
  }

  lemma MajorRead(s: State<Label>, r: Registers, v: seq<Byte>, z: Byte, rest: seq<Byte>)
    requires s.span == None && CR !in v && LF !in v
    ensures var t := RunOn(With(s, Version(ReqHttpMajor), r), v + ([CR, z] + rest));
            if |v| == 3 && IsVersion(v[0], v[1], v[2]) && z == LF
            then t == RunOn(With(s, Name(HeaderFieldStart),
                                 r.(httpMajor := DecimalValue(v[0]), httpMinor := DecimalValue(v[2]))), rest)
            else t.error == INVALID_VERSION
  {
    var b, more := First(v, z, rest);
    if v != [] && IsDigit(v[0]) {
      MajorOnly(s, r, b, more);
      assert forall x | x in v[1..] :: x in v;
      DotRead(s, r.(httpMajor := DecimalValue(b)), DecimalValue(b), v[1..], z, rest);
    } else {
      FailsOn(With(s, Version(ReqHttpMajor), r), b, more, INVALID_VERSION);
    }
  }

  /** Any protocol before the end of a request line. */
  lemma ProtocolIff(s: State<Label>, r: Registers, proto: seq<Byte>, z: Byte, rest: seq<Byte>)
    requires s.span == None && s.index == 0 && proto != [] && SP !in proto && CR !in proto && LF !in proto
    ensures var t := RunOn(With(s, Version(ReqHttpStart), r), proto + ([CR, z] + rest));
            if IsProtocol(proto) && r.verb <= 34 && z == LF
            then t == RunOn(With(s, Name(HeaderFieldStart),
                                 r.(httpMajor := DecimalValue(proto[5]), httpMinor := DecimalValue(proto[7]))), rest)
            else t.error == if H + TTP <= proto && r.verb <= 34 then INVALID_VERSION else INVALID_CONSTANT
  {
    var v := proto[1..];
    var end := [z] + rest;
    assert proto[0] in proto && forall x | x in v :: x in proto;
    assert proto == [proto[0]] + v && [CR, z] + rest == [CR] + end;
    assert proto + ([CR] + end) == [proto[0]] + (v + ([CR] + end));
    if proto[0] != 'H' as int {
      FailsOn(With(s, Version(ReqHttpStart), r), proto[0], v + ([CR] + end), INVALID_CONSTANT);
    } else {
      Reads(With(s, Version(ReqHttpStart), r), proto[0], v + ([CR] + end));
      WordRuns(With(s, Version(ReqHttpStart1), r), v, CR, end, INVALID_CONSTANT);
      HttpBegins(proto);
      if TTP <= v {
        BehindHttp(s, r, proto, z, rest);
      }
    }
  }

  lemma HttpBegins(proto: seq<Byte>)
    requires proto != [] && proto[0] == 'H' as int
    ensures H + TTP <= proto <==> TTP <= proto[1..]
  {
    assert proto == H + proto[1..];
    if TTP <= proto[1..] {
      assert proto[..5] == H + proto[1..][..4];
    } else if |proto| >= 5 {
      assert proto[1..][..4] == proto[..5][1..];
      assert (H + TTP)[1..] == TTP;
    }
  }

  lemma BehindHttp(s: State<Label>, r: Registers, proto: seq<Byte>, z: Byte, rest: seq<Byte>)
    requires s.span == None && |proto| >= 5 && H + TTP <= proto && CR !in proto && LF !in proto
    ensures var t := RunOn(With(s, Version(LoadMethod), r), proto[1..][4..] + ([CR] + ([z] + rest)));
            if IsProtocol(proto) && r.verb <= 34 && z == LF
            then t == RunOn(With(s, Name(HeaderFieldStart),
                                 r.(httpMajor := DecimalValue(proto[5]), httpMinor := DecimalValue(proto[7]))), rest)
            else t.error == if r.verb <= 34 then INVALID_VERSION else INVALID_CONSTANT
  {
    var v := proto[5..];
    assert proto[1..][4..] == v && proto[..5] == H + TTP && forall x | x in v :: x in proto;
    assert [CR] + ([z] + rest) == [CR, z] + rest;
    Invokes(With(s, Version(LoadMethod), r), v + ([CR, z] + rest));
    if r.verb <= 34 {
      MajorRead(s, r, v, z, rest);
    } else {
      Fails(With(s, Failing(INVALID_CONSTANT), r), v + ([CR, z] + rest));
    }
  }

  // ---------------------------------------------------------------- any request line

  /** Three words, and what ends the line. */
  function RequestText(w: seq<Byte>, url: seq<Byte>, proto: seq<Byte>, z: Byte, rest: seq<Byte>): seq<Byte> {
    w + ([SP] + (url + ([SP] + (proto + ([CR, z] + rest)))))
  }

  /** What a request line leaves. */
  ghost function AfterRequest(s: State<Label>, w: seq<Byte>, url: seq<Byte>, proto: seq<Byte>): State<Label>
    requires VerbNamed(w).Some? && IsProtocol(proto)
  {
    s.(current := Name(HeaderFieldStart), log := s.log + [Notify(MessageBegin), Data(OnUrl, url), Notify(UrlComplete)],
       regs := s.regs.(matched := 0, finish := FINISH_UNSAFE, verb := VerbNamed(w).value,
                       httpMajor := DecimalValue(proto[5]), httpMinor := DecimalValue(proto[7])))
  }

  ghost predicate IsWord(w: seq<Byte>) {
    w != [] && SP !in w && CR !in w && LF !in w
  }

  lemma BehindMethod(s: State<Label>, r: Registers, url: seq<Byte>, proto: seq<Byte>, z: Byte, rest: seq<Byte>)
    requires s.span == None && s.held == [] && s.index == 0 && IsWord(url) && IsWord(proto)
    ensures var t := RunOn(With(s, Request(ReqFirstSpaceBeforeUrl), r),
                           [SP] + (url + ([SP] + (proto + ([CR, z] + rest)))));
            if !IsUrl(url) then t.error == INVALID_URL
            else if IsProtocol(proto) && r.verb <= 34 && z == LF then
              t == RunOn(With(s, Name(HeaderFieldStart),
                              r.(httpMajor := DecimalValue(proto[5]), httpMinor := DecimalValue(proto[7]))).(
                           log := s.log + [Data(OnUrl, url), Notify(UrlComplete)]), rest)
            else t.error == if H + TTP <= proto && r.verb <= 34 then INVALID_VERSION else INVALID_CONSTANT
  {
    var tail := proto + ([CR, z] + rest);
    if IsUrl(url) {
      UrlRuns(s, r, url, tail);
      ProtocolIff(s.(log := s.log + [Data(OnUrl, url), Notify(UrlComplete)]), r, proto, z, rest);
    } else {
      NoUrl(s, r, url, [SP] + tail);
    }
  }

  /** Any three words on a line, cut by single spaces: a parser of requests takes them for a request line if
      and only if the first is a method of HTTP, the second has the bytes of a url, the third is "HTTP/" and
      a version of two digits, and LF is behind the CR; and otherwise refuses them. */
  lemma RequestLineIff(s: State<Label>, w: seq<Byte>, url: seq<Byte>, proto: seq<Byte>, z: Byte, rest: seq<Byte>)
    requires s.current == Begin(Start) && Between(s) && s.regs.kind == HTTP_REQUEST
    requires IsWord(w) && IsWord(url) && IsWord(proto)
    ensures var t := RunOn(s, RequestText(w, url, proto, z, rest));
            if VerbNamed(w).None? then t.error == INVALID_METHOD
            else if !IsUrl(url) then t.error == INVALID_URL
            else if w == GET_PARAMETER || !(H + TTP <= proto) then t.error == INVALID_CONSTANT
            else if !IsProtocol(proto) || z != LF then t.error == INVALID_VERSION
            else t == RunOn(AfterRequest(s, w, url, proto), rest)
  {
    var r := s.regs.(finish := FINISH_UNSAFE);
    var tail := url + ([SP] + (proto + ([CR, z] + rest)));
    assert w[0] in w && w + ([SP] + tail) == [w[0]] + (w[1..] + ([SP] + tail));
    Begins(s, w[0], w[1..] + ([SP] + tail));
    Invokes(With(Begun(s), Begin(LoadType), r), w + ([SP] + tail));
    MethodIff(Begun(s), r, w, tail);
    if VerbNamed(w).Some? {
      BehindMethod(Begun(s), r.(verb := VerbNamed(w).value), url, proto, z, rest);
      RequestLog(s.log, url);
      VerbsApart(w);
    }
  }

  lemma VerbsApart(w: seq<Byte>)
    requires VerbNamed(w).Some?
    ensures VerbNamed(w).value <= 34 <==> w != GET_PARAMETER
  {
    assert |GET_PARAMETER| == 13;
  }

  // ---------------------------------------------------------------- either kind

  const AD: seq<Byte> := [0x41, 0x44]
  const TP: seq<Byte> := [0x54, 0x50, 0x2f]

  /** Behind HEAD. */
  lemma HeadEnds(s: State<Label>, r: Registers, w: seq<Byte>, rest: seq<Byte>)
    requires s.span == None && SP !in w
    ensures VerbRead(RunOn(s.(current := Begin(StoreMethod), regs := r.(matched := 2)), w + ([SP] + rest)), s,
                     r.(kind := HTTP_REQUEST), if w == [] then Some(2) else None, rest)
  {
    if w == [] {
      assert w + ([SP] + rest) == [SP] + rest;
      HeadIsStored(s, r, rest);
    } else {
      var t := s.(current := Begin(StoreMethod), regs := r.(matched := 2));
      FirstLetter(w, rest);
      Invokes(t, w + ([SP] + rest));
      FailsOn(t.(current := Request(ReqFirstSpaceBeforeUrl), regs := t.regs.(verb := 2, kind := HTTP_REQUEST)), w[0],
              w[1..] + ([SP] + rest), INVALID_METHOD);
    }
  }

  /** What follows the first H. */
  ghost predicate EitherRead(t: State<Label>, s: State<Label>, r: Registers, w: seq<Byte>, rest: seq<Byte>) {
    if EAD <= w then VerbRead(t, s, r.(kind := HTTP_REQUEST), if w == EAD then Some(2) else None, rest)
    else if TTP <= w then
      t == RunOn(With(s, Status(ResHttpMajor), r.(kind := HTTP_RESPONSE)), w[4..] + ([SP] + rest))
    else t.error == INVALID_CONSTANT
  }

  lemma HeadRead(s: State<Label>, r: Registers, w: seq<Byte>, rest: seq<Byte>)
    requires s.span == None && s.index == 0 && SP !in w
    ensures var t := RunOn(With(s, Begin(ReqOrResMethod2), r), w + ([SP] + rest));
            if AD <= w then VerbRead(t, s, r.(kind := HTTP_REQUEST), if w == AD then Some(2) else None, rest)
            else t.error == INVALID_CONSTANT
  {
    WordRuns(With(s, Begin(ReqOrResMethod2), r), w, SP, rest, INVALID_CONSTANT);
    if AD <= w {
      TailOf(w, 2);
      assert w == AD + w[2..];
      HeadEnds(s, r, w[2..], rest);
    }
  }

  lemma HttpRead(s: State<Label>, r: Registers, w: seq<Byte>, rest: seq<Byte>)
    requires s.span == None && s.index == 0 && SP !in w
    ensures var t := RunOn(With(s, Begin(ReqOrResMethod3), r), w + ([SP] + rest));
            if TP <= w
            then t == RunOn(With(s, Status(ResHttpMajor), r.(kind := HTTP_RESPONSE)), w[3..] + ([SP] + rest))
            else t.error == INVALID_CONSTANT
  {
    WordRuns(With(s, Begin(ReqOrResMethod3), r), w, SP, rest, INVALID_CONSTANT);
    if TP <= w {
      Invokes(With(s, Begin(UpdateType1), r), w[3..] + ([SP] + rest));
    }
  }

  lemma SecondLetter(w: seq<Byte>)
    ensures EAD <= w <==> w != [] && w[0] == 0x45 && AD <= w[1..]
    ensures TTP <= w <==> w != [] && w[0] == 0x54 && TP <= w[1..]
    ensures w == EAD <==> w != [] && w[0] == 0x45 && w[1..] == AD
  {
    assert EAD == [0x45] + AD && TTP == [0x54] + TP;
    if w != [] {
      assert w == [w[0]] + w[1..];
      assert |w| >= 3 ==> w[..3] == [w[0]] + w[1..][..2];
      assert |w| >= 4 ==> w[..4] == [w[0]] + w[1..][..3];
    }
  }

  lemma BehindHT(s: State<Label>, r: Registers, w: seq<Byte>, rest: seq<Byte>)
    requires s.span == None && s.index == 0 && SP !in w && w != [] && w[0] == 0x54
    ensures EitherRead(RunOn(With(s, Begin(ReqOrResMethod1), r), w + ([SP] + rest)), s, r, w, rest)
  {
    SecondLetter(w);
    FirstLetter(w, rest);
    Reads(With(s, Begin(ReqOrResMethod1), r), w[0], w[1..] + ([SP] + rest));
    HttpRead(s, r, w[1..], rest);
    if TP <= w[1..] {
      assert w[4..] == w[1..][3..];
    }
  }

  lemma BehindH(s: State<Label>, r: Registers, w: seq<Byte>, rest: seq<Byte>)
    requires s.span == None && s.index == 0 && SP !in w
    ensures EitherRead(RunOn(With(s, Begin(ReqOrResMethod1), r), w + ([SP] + rest)), s, r, w, rest)
  {
    SecondLetter(w);
    if w == [] {
      assert w + ([SP] + rest) == [SP] + rest;
      FailsOn(With(s, Begin(ReqOrResMethod1), r), SP, rest, INVALID_CONSTANT);
    } else {
      FirstLetter(w, rest);
      if w[0] == 0x45 {
        Reads(With(s, Begin(ReqOrResMethod1), r), w[0], w[1..] + ([SP] + rest));
        HeadRead(s, r, w[1..], rest);
      } else if w[0] == 0x54 {
        BehindHT(s, r, w, rest);
      } else {
        FailsOn(With(s, Begin(ReqOrResMethod1), r), w[0], w[1..] + ([SP] + rest), INVALID_CONSTANT);
      }
    }
  }

  /** A parser for both kinds of message takes a first word that begins with H for HEAD or for the version of
      a response, or refuses it; any other is a method or refused. */
  lemma EitherIff(s: State<Label>, r: Registers, w: seq<Byte>, rest: seq<Byte>)
    requires s.span == None && s.index == 0 && SP !in w && w != [] && r.kind != HTTP_REQUEST && r.kind != HTTP_RESPONSE
    ensures var t := RunOn(With(s, Begin(LoadType), r), w + ([SP] + rest));
            if w[0] == 'H' as int then EitherRead(t, s, r, w[1..], rest)
            else VerbRead(t, s, r.(kind := HTTP_REQUEST), VerbNamed(w), rest)
  {
    FirstLetter(w, rest);
    Invokes(With(s, Begin(LoadType), r), w + ([SP] + rest));
    Peeks(With(s, Begin(StartReqOrRes), r), w[0], w[1..] + ([SP] + rest));
    if w[0] == 'H' as int {
      Reads(With(s, Begin(ReqOrResMethod), r), w[0], w[1..] + ([SP] + rest));
      BehindH(s, r, w[1..], rest);
    } else {
      Invokes(With(s, Begin(UpdateType2), r), w + ([SP] + rest));
      MethodIff(s, r.(kind := HTTP_REQUEST), w, rest);
    }
  }

  const HTTP: seq<Byte> := H + TTP

  /** A parser of responses takes a first word just if that begins with "HTTP/". */
  lemma ResponseIff(s: State<Label>, r: Registers, w: seq<Byte>, rest: seq<Byte>)
    requires s.span == None && s.index == 0 && r.kind == HTTP_RESPONSE
    ensures var t := RunOn(With(s, Begin(LoadType), r), w + ([SP] + rest));
            if HTTP <= w then t == RunOn(With(s, Status(ResHttpMajor), r), w[5..] + ([SP] + rest))
            else t.error == INVALID_CONSTANT
  {
    Invokes(With(s, Begin(LoadType), r), w + ([SP] + rest));
    assert HTTP == [0x48, 0x54, 0x54, 0x50, 0x2f];
    WordRuns(With(s, Status(StartRes), r), w, SP, rest, INVALID_CONSTANT);
  }

  // ---------------------------------------------------------------- before the line, and without a version

  /** Spaces before the url and before the protocol are skipped. */
  lemma {:induction false} SpacesSkipped(s: State<Label>, spaces: seq<Byte>, rest: seq<Byte>)
    requires s.current == Request(ReqSpacesBeforeUrl) || s.current == Version(ReqHttpStart)
    requires s.span == None && s.regs.matched == 0 && forall b | b in spaces :: b == SP
    ensures RunOn(s, spaces + rest) == RunOn(s, rest)
    decreases |spaces|
  {
    if spaces == [] {
      assert spaces + rest == rest;
    } else {
      assert spaces[0] in spaces && forall b | b in spaces[1..] :: b in spaces;
      assert spaces + rest == [SP] + (spaces[1..] + rest) && To(s, s.current) == s;
      Reads(s, SP, spaces[1..] + rest);
      SpacesSkipped(s, spaces[1..], rest);
    }
  }

  /** Empty lines before a message are skipped. */
  lemma {:induction false} EmptyLinesSkipped(s: State<Label>, ends: seq<Byte>, rest: seq<Byte>)
    requires s.current == Begin(Start) && s.span == None && s.regs.matched == 0
    requires forall b | b in ends :: b == CR || b == LF
    ensures RunOn(s, ends + rest) == RunOn(s, rest)
    decreases |ends|
  {
    if ends == [] {
      assert ends + rest == rest;
    } else {
      assert ends[0] in ends && ends + rest == [ends[0]] + (ends[1..] + rest) && forall b | b in ends[1..] :: b in ends;
      Reads(s, ends[0], ends[1..] + rest);
      assert To(s, Begin(Start)) == s;
      EmptyLinesSkipped(s, ends[1..], rest);
    }
  }

  lemma NoVersionEnds(s: State<Label>, r: Registers, url: seq<Byte>, rest: seq<Byte>)
    requires s.span == None && s.held == [] && s.index == 0
    ensures RunOn(InUrl(s, r, url), CRLF + rest) ==
            RunOn(With(s, Name(HeaderFieldStart), r.(httpMajor := 0, httpMinor := 9)).(
                    log := s.log + [Data(OnUrl, url), Notify(UrlComplete)]), rest)
  {
    var t := With(s, Version(UrlSkipLfToHttp09), r).(log := s.log + [Data(OnUrl, url)]);
    assert CRLF + rest == [CR] + ([LF] + rest);
    Peeks(InUrl(s, r, url), CR, [LF] + rest);
    EndsSpan(InUrl(s, r, url).(current := Request(UrlEndCr)), CRLF + rest);
    ExactSpells(CRLF, CRLF);
    Spelled(t, CRLF, rest);
    Invokes(t.(current := Version(UpdateHttp09)), rest);
    assert t.log + [Notify(UrlComplete)] == s.log + [Data(OnUrl, url), Notify(UrlComplete)];
  }

  /** A request line may be without a version, and is then of HTTP/0.9. */
  lemma NoVersionRead(s: State<Label>, w: seq<Byte>, url: seq<Byte>, rest: seq<Byte>)
    requires s.current == Begin(Start) && Between(s) && s.regs.kind == HTTP_REQUEST
    requires IsWord(w) && IsWord(url) && VerbNamed(w).Some? && IsUrl(url)
    ensures RunOn(s, w + ([SP] + (url + (CRLF + rest)))) ==
            RunOn(s.(current := Name(HeaderFieldStart),
                     log := s.log + [Notify(MessageBegin), Data(OnUrl, url), Notify(UrlComplete)],
                     regs := s.regs.(matched := 0, finish := FINISH_UNSAFE, verb := VerbNamed(w).value, httpMajor := 0,
                                     httpMinor := 9)), rest)
  {
    var r := s.regs.(finish := FINISH_UNSAFE);
    var r1 := r.(verb := VerbNamed(w).value);
    var tail := url + (CRLF + rest);
    FirstLetter(w, tail);
    assert w[0] in w && url[0] in url && tail == [url[0]] + (url[1..] + (CRLF + rest));
    Begins(s, w[0], w[1..] + ([SP] + tail));
    Invokes(With(Begun(s), Begin(LoadType), r), w + ([SP] + tail));
    MethodIff(Begun(s), r, w, tail);
    UrlStarts(Begun(s), r1, url[0], url[1..] + (CRLF + rest));
    UrlBytesRun(Begun(s), r1, [], url, CRLF + rest);
    assert [] + url == url;
    NoVersionEnds(Begun(s), r1, url, rest);
    RequestLog(s.log, url);
  }
}
