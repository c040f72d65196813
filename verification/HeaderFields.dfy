/** Header fields, whatever their names and values, and what the parser has noted when it has read them. */
module HeaderFields {
  import opened Bytes
  import opened Llparse
  import opened Llhttp
  import opened LlhttpSteps
  import opened HeaderNames
  import opened TransferEncoding
  import opened ContentLengthValue
  import opened ConnectionValue
  import opened MessageEnd

  /** A header field as section 3.2 of RFC 7230 has it: a name, blanks and a value that does not begin
      with one.  The value may be folded: further lines of it begin with a blank, and so do lines of
      nothing but blanks before it. */
  datatype Field = Field(name: seq<Byte>, blanks: seq<Byte>, leads: seq<seq<Byte>>, value: seq<Byte>,
                         folds: seq<seq<Byte>>)

  /** A line that goes on with the field above it. */
  ghost predicate IsFold(line: seq<Byte>) {
    line != [] && (line[0] == SP || line[0] == HT) && IsValue(line)
  }

  ghost predicate AreFolds(lines: seq<seq<Byte>>) {
    forall line | line in lines :: IsFold(line)
  }

  ghost predicate AreBlank(lines: seq<seq<Byte>>) {
    forall line | line in lines :: IsBlank(line)
  }

  ghost predicate IsField(f: Field) {
    && f.name != [] && IsToken(f.name) && IsValue(f.value)
    && IsBlank(f.blanks) && AreFolds(f.leads) && AreBlank(f.leads) && AreFolds(f.folds)
    && if f.value == [] then f.folds == [] else f.value[0] != SP && f.value[0] != HT
  }

  ghost predicate AreFields(fields: seq<Field>) {
    forall f | f in fields :: IsField(f)
  }

  /** Lines, each with its end. */
  function RenderLines(lines: seq<seq<Byte>>): seq<Byte> {
    if lines == [] then [] else lines[0] + (CRLF + RenderLines(lines[1..]))
  }

  /** Line ends, each followed by the blank line it precedes. */
  function RenderLeads(leads: seq<seq<Byte>>): seq<Byte> {
    if leads == [] then [] else CRLF + (leads[0] + RenderLeads(leads[1..]))
  }

  /** The lines of the value. */
  function LinesOf(f: Field): seq<seq<Byte>> { [f.value] + f.folds }

  function RenderField(f: Field): seq<Byte> {
    f.name + ([COLON] + (f.blanks + (RenderLeads(f.leads) + RenderLines(LinesOf(f)))))
  }

  function RenderFields(fields: seq<Field>): seq<Byte> {
    if fields == [] then [] else RenderField(fields[0]) + RenderFields(fields[1..])
  }

  function CallsOfLines(lines: seq<seq<Byte>>): seq<Call> {
    if lines == [] then [] else [Data(OnHeaderValue, lines[0])] + CallsOfLines(lines[1..])
  }

  function FieldCalls(f: Field): seq<Call> {
    [Data(OnHeaderField, f.name), Notify(HeaderFieldComplete)] +
      (CallsOfLines(LinesOf(f)) + [Notify(HeaderValueComplete)])
  }

  function CallsOfFields(fields: seq<Field>): seq<Call> {
    if fields == [] then [] else FieldCalls(fields[0]) + CallsOfFields(fields[1..])
  }

  /** The registers after a field, or the error it is refused with. */
  datatype Reading = Accepted(regs: Registers) | Refused(code: Errno)

  ghost function ApplyLength(r: Registers, v: seq<Byte>): Reading {
    if r.flags.contentLength then Refused(UNEXPECTED_CONTENT_LENGTH)
    else
      match ReadLength(r.contentLength, v)
      case None => Refused(INVALID_CONTENT_LENGTH)
      case Some(n) => Accepted(r.(contentLength := n, flags := r.flags.(contentLength := true)))
  }

  /** One line of a value: load_header_state_2 tells how it is read. */
  ghost function ApplyValueLine(r: Registers, v: seq<Byte>): Reading {
    if r.headerState == H_CONNECTION then Accepted(AtItem(r, v))
    else if r.headerState == H_CONTENT_LENGTH then ApplyLength(r, v)
    else if r.headerState == H_TRANSFER_ENCODING then Accepted(CodingLine(r, v))
    else if r.headerState == H_UPGRADE then Accepted(r.(flags := r.flags.(upgrade := true), headerState := H_GENERAL))
    else Accepted(r)
  }

  /** The lines of a value, the first and those it goes on with; what is found is applied at its end. */
  ghost function ApplyValue(r: Registers, lines: seq<seq<Byte>>): Reading
    decreases |lines|
  {
    if lines == [] then Accepted(ApplyHeaderState(r))
    else
      match ApplyValueLine(r, lines[0])
      case Accepted(a) => ApplyValue(a, lines[1..])
      case Refused(code) => Refused(code)
  }

  ghost function ApplyField(r: Registers, f: Field): Reading {
    var kind := KindOf(f.name);
    var r0 := r.(matched := 0, headerState := kind);
    if f.value != [] then ApplyValue(r0, LinesOf(f))
    else if kind == H_CONTENT_LENGTH then Refused(INVALID_CONTENT_LENGTH)
    else Accepted(r0)
  }

  ghost function ApplyFields(r: Registers, fields: seq<Field>): Reading
    decreases |fields|
  {
    if fields == [] then Accepted(r)
    else
      match ApplyField(r, fields[0])
      case Accepted(r') => ApplyFields(r', fields[1..])
      case Refused(code) => Refused(code)
  }

  // ---------------------------------------------------------------- the run over a value

  /** The parser at the value of a field of this kind, behind the colon. */
  ghost predicate AtValue(s: State<Label>, kind: nat) {
    && s.current == Value(HeaderValueDiscardWs) && Between(s) && s.regs.matched == 0 && s.regs.headerState == kind
    && kind <= H_UPGRADE
  }

  lemma {:induction false} BlanksRun(s: State<Label>, ws: seq<Byte>, rest: seq<Byte>)
    requires s.current == Value(HeaderValueDiscardWs) && s.span == None && s.regs.matched == 0 && IsBlank(ws)
    ensures RunOn(s, ws + rest) == RunOn(s, rest)
    decreases |ws|
  {
    if ws == [] {
      assert ws + rest == rest;
    } else {
      assert ws[0] in ws && forall b | b in ws[1..] :: b in ws;
      assert ws + rest == [ws[0]] + (ws[1..] + rest);
      Reads(s, ws[0], ws[1..] + rest);
      BlanksRun(s, ws[1..], rest);
    }
  }

  lemma {:induction false} LeadsRun(s: State<Label>, leads: seq<seq<Byte>>, rest: seq<Byte>)
    requires s.current == Value(HeaderValueDiscardWs) && s.span == None && s.regs.matched == 0
    requires AreFolds(leads) && AreBlank(leads)
    ensures RunOn(s, RenderLeads(leads) + rest) == RunOn(s, rest)
    decreases |leads|
  {
    if leads == [] {
      assert RenderLeads(leads) + rest == rest;
    } else {
      var line, more := leads[0], leads[1..];
      assert line in leads && forall l | l in more :: l in leads;
      LeadRuns(s, line, RenderLeads(more) + rest);
      Associates(line, RenderLeads(more), rest);
      Associates(CRLF, line + RenderLeads(more), rest);
      LeadsRun(s, more, rest);
    }
  }

  lemma LeadRuns(s: State<Label>, line: seq<Byte>, rest: seq<Byte>)
    requires s.current == Value(HeaderValueDiscardWs) && s.span == None && s.regs.matched == 0
    requires IsFold(line) && IsBlank(line)
    ensures RunOn(s, CRLF + (line + rest)) == RunOn(s, rest)
  {
    var tail := line[1..] + rest;
    assert line + rest == [line[0]] + tail && CRLF + (line + rest) == [CR] + ([LF] + ([line[0]] + tail));
    assert forall b | b in line[1..] :: b in line;
    Reads(s, CR, [LF] + ([line[0]] + tail));
    Reads(s.(current := Value(HeaderValueDiscardWsAlmostDone)), LF, [line[0]] + tail);
    Reads(s.(current := Value(HeaderValueDiscardLws)), line[0], tail);
    BlanksRun(s, line[1..], rest);
  }

  /** What a value without content leaves behind, once a byte that does not continue it is seen. */
  function NothingTold(s: State<Label>): State<Label> {
    s.(current := Name(HeaderFieldStart), log := s.log + [Data(OnHeaderValue, []), Notify(HeaderValueComplete)])
  }

  lemma EmptyValueSeen(s: State<Label>, b: Byte, rest: seq<Byte>)
    requires s.current == Value(HeaderValueDiscardWs) && Between(s) && s.regs.matched == 0 && b != SP && b != HT
    ensures RunOn(s, CRLF + ([b] + rest)) == RunOn(s.(current := Value(EmptyHeaderValue)), [b] + rest)
  {
    assert CRLF + ([b] + rest) == [CR] + ([LF] + ([b] + rest));
    Reads(s, CR, [LF] + ([b] + rest));
    Reads(s.(current := Value(HeaderValueDiscardWsAlmostDone)), LF, [b] + rest);
    Peeks(s.(current := Value(HeaderValueDiscardLws)), b, rest);
  }

  lemma EmptyValueTold(s: State<Label>, b: Byte, rest: seq<Byte>)
    requires s.current == Value(SpanStartHeaderValue) && Between(s)
    ensures RunOn(s, [b] + rest) == RunOn(NothingTold(s), [b] + rest)
  {
    StartsSpan(s, [b] + rest);
    EndsSpan(s.(current := Value(SpanEndHeaderValue), span := Some(OnHeaderValue)), [b] + rest);
    var t := s.(current := Value(OnHeaderValueComplete), log := s.log + [Data(OnHeaderValue, [])]);
    Invokes(t, [b] + rest);
    assert t.log + [Notify(HeaderValueComplete)] == s.log + [Data(OnHeaderValue, []), Notify(HeaderValueComplete)];
  }

  lemma EmptyLengthFails(s: State<Label>, b: Byte, rest: seq<Byte>)
    requires AtValue(s, H_CONTENT_LENGTH) && b != SP && b != HT
    ensures RunOn(s, CRLF + ([b] + rest)).error == INVALID_CONTENT_LENGTH
  {
    EmptyValueSeen(s, b, rest);
    var t := s.(current := Value(EmptyHeaderValue));
    Invokes(t, [b] + rest);
    Fails(t.(current := Failing(INVALID_CONTENT_LENGTH)), [b] + rest);
  }

  lemma EmptyValueRuns(s: State<Label>, kind: nat, b: Byte, rest: seq<Byte>)
    requires AtValue(s, kind) && kind != H_CONTENT_LENGTH && b != SP && b != HT
    ensures RunOn(s, CRLF + ([b] + rest)) == RunOn(NothingTold(s), [b] + rest)
  {
    EmptyValueSeen(s, b, rest);
    var t := s.(current := Value(EmptyHeaderValue));
    Invokes(t, [b] + rest);
    EmptyValueTold(s.(current := Value(SpanStartHeaderValue)), b, rest);
  }

  // ---------------------------------------------------------------- the run over a line of a value

  /** The parser before a line of a value. */
  ghost predicate AtLine(s: State<Label>) {
    s.current == Value(SpanStartHeaderValue1) && Between(s) && s.regs.matched == 0
  }

  /** The parser that has noted where the line begins. */
  function InSpan(s: State<Label>, l: ValueState, held: seq<Byte>): State<Label> {
    s.(current := Value(l), span := Some(OnHeaderValue), held := held)
  }

  /** The parser behind the line and its end; it has yet to see whether the value goes on. */
  function LineTold(s: State<Label>, v: seq<Byte>): State<Label> {
    s.(current := Value(HeaderValueLws), log := s.log + [Data(OnHeaderValue, v)])
  }

  /** How a run ends: in a state, with the rest of the input before it; or with an error. */
  ghost predicate Comes(s: State<Label>, input: seq<Byte>, reading: Reading, t: State<Label>, rest: seq<Byte>) {
    match reading
    case Accepted(r) => RunOn(s, input) == RunOn(t.(regs := r), rest)
    case Refused(code) => RunOn(s, input).error == code
  }

  lemma FirstOfValue(v: seq<Byte>, end: seq<Byte>)
    requires v != [] && IsValue(v)
    ensures v + (CRLF + end) == [v[0]] + (v[1..] + (CRLF + end)) && IsHeaderValueByte(v[0]) && IsValue(v[1..])
  {
    assert v == [v[0]] + v[1..] && v[0] in v;
    PartsAreValues([v[0]], v[1..]);
  }

  lemma LineStarts(s: State<Label>, v: seq<Byte>, end: seq<Byte>)
    requires AtLine(s)
    ensures RunOn(s, v + (CRLF + end)) == RunOn(InSpan(s, LoadHeaderState2, []), v + (CRLF + end))
  {
    assert |v + (CRLF + end)| > 0;
    StartsSpan(s, v + (CRLF + end));
  }

  lemma LineEnds(s: State<Label>, r: Registers, v: seq<Byte>, end: seq<Byte>)
    requires s.span == None && s.held == [] && r.matched == 0
    ensures RunOn(InSpan(s.(regs := r), HeaderValueOtherwise, v), CRLF + end) == RunOn(LineTold(s, v).(regs := r), end)
  {
    ValueLineEnds(InSpan(s.(regs := r), HeaderValueOtherwise, v), v, end);
  }

  lemma {:induction false} PlainRuns(s: State<Label>, held: seq<Byte>, v: seq<Byte>, end: seq<Byte>)
    requires IsValue(v) && s.regs.matched == 0
    ensures RunOn(InSpan(s, HeaderValue, held), v + (CRLF + end)) ==
            RunOn(InSpan(s, HeaderValueOtherwise, held + v), CRLF + end)
    decreases |v|
  {
    if v == [] {
      assert v + (CRLF + end) == CRLF + end == [CR] + ([LF] + end) && held + v == held;
      Peeks(InSpan(s, HeaderValue, held), CR, [LF] + end);
    } else {
      FirstOfValue(v, end);
      Reads(InSpan(s, HeaderValue, held), v[0], v[1..] + (CRLF + end));
      PlainRuns(s, held + [v[0]], v[1..], end);
      assert v == [v[0]] + v[1..];
      Associates(held, [v[0]], v[1..]);
    }
  }

  /** A line that is not looked into. */
  predicate IsPlain(headerState: nat) {
    headerState == H_GENERAL || headerState >= H_UPGRADE
  }

  lemma PlainLineRuns(s: State<Label>, v: seq<Byte>, end: seq<Byte>)
    requires AtLine(s) && IsPlain(s.regs.headerState) && IsValue(v)
    ensures Comes(s, v + (CRLF + end), ApplyValueLine(s.regs, v), LineTold(s, v), end)
  {
    var r := ApplyValueLine(s.regs, v).regs;
    LineStarts(s, v, end);
    Invokes(InSpan(s, LoadHeaderState2, []), v + (CRLF + end));
    PlainRuns(s.(regs := r), [], v, end);
    assert [] + v == v;
    LineEnds(s, r, v, end);
  }

  lemma ConnectionLineRuns(s: State<Label>, v: seq<Byte>, end: seq<Byte>)
    requires AtLine(s) && s.regs.headerState == H_CONNECTION && IsValue(v)
    ensures Comes(s, v + (CRLF + end), ApplyValueLine(s.regs, v), LineTold(s, v), end)
  {
    LineStarts(s, v, end);
    Invokes(InSpan(s, LoadHeaderState2, []), v + (CRLF + end));
    ItemRuns(s, s.regs, [], v, end);
    ItemKeepsMatched(s.regs, v);
    assert [] + v == v;
    LineEnds(s, AtItem(s.regs, v), v, end);
  }

  /** None of the states touches the match register, which is clear. */
  lemma ItemKeepsMatched(r: Registers, v: seq<Byte>)
    requires r.headerState <= H_CONNECTION
    ensures AtItem(r, v).matched == r.matched
  {
    AtItemMeans(r, v);
  }

  lemma RepeatedLengthFails(s: State<Label>, v: seq<Byte>, end: seq<Byte>)
    requires AtLine(s) && s.regs.headerState == H_CONTENT_LENGTH && s.regs.flags.contentLength
    ensures RunOn(s, v + (CRLF + end)).error == UNEXPECTED_CONTENT_LENGTH
  {
    LineStarts(s, v, end);
    var t := InSpan(s, LoadHeaderState2, []);
    Invokes(t, v + (CRLF + end));
    Fails(t.(current := Failing(UNEXPECTED_CONTENT_LENGTH)), v + (CRLF + end));
  }

  lemma LengthLineRuns(s: State<Label>, v: seq<Byte>, end: seq<Byte>)
    requires AtLine(s) && s.regs.headerState == H_CONTENT_LENGTH && !s.regs.flags.contentLength && IsValue(v)
    ensures Comes(s, v + (CRLF + end), ApplyValueLine(s.regs, v), LineTold(s, v), end)
  {
    LineStarts(s, v, end);
    Invokes(InSpan(s, LoadHeaderState2, []), v + (CRLF + end));
    LengthIsRead(s, s.regs.contentLength, 0, [], v, end);
    assert [] + v == v;
    var read := ReadLength(s.regs.contentLength, v);
    if read.Some? {
      LineEnds(s, s.regs.(contentLength := read.value, flags := s.regs.flags.(contentLength := true)), v, end);
    }
  }

  /** Any line of any value, the first or one it goes on with. */
  lemma LineRuns(s: State<Label>, v: seq<Byte>, end: seq<Byte>)
    requires AtLine(s) && IsValue(v)
    ensures Comes(s, v + (CRLF + end), ApplyValueLine(s.regs, v), LineTold(s, v), end)
  {
    if IsPlain(s.regs.headerState) {
      PlainLineRuns(s, v, end);
    } else if s.regs.headerState == H_CONNECTION {
      ConnectionLineRuns(s, v, end);
    } else if s.regs.headerState == H_TRANSFER_ENCODING {
      CodingLineRuns(s, v, end);
    } else if s.regs.flags.contentLength {
      RepeatedLengthFails(s, v, end);
    } else {
      LengthLineRuns(s, v, end);
    }
  }

  lemma LineKeepsMatched(r: Registers, v: seq<Byte>)
    requires r.matched == 0
    ensures ApplyValueLine(r, v).Accepted? ==> ApplyValueLine(r, v).regs.matched == 0
  {
    if r.headerState == H_CONNECTION {
      ItemKeepsMatched(r, v);
    }
  }

  // ---------------------------------------------------------------- the run over a value

  /** Where the value has been told and what it says applied. */
  function ValueTold(s: State<Label>, lines: seq<seq<Byte>>): State<Label> {
    s.(current := Name(HeaderFieldStart), log := s.log + (CallsOfLines(lines) + [Notify(HeaderValueComplete)]))
  }

  /** The parser behind a line sees the next. */
  lemma FoldSeen(s: State<Label>, line: seq<Byte>, rest: seq<Byte>)
    requires s.current == Value(HeaderValueLws) && Between(s) && s.regs.matched == 0 && IsFold(line)
    ensures RunOn(s, line + rest) == RunOn(s.(current := Value(SpanStartHeaderValue1)), line + rest)
  {
    assert line + rest == [line[0]] + (line[1..] + rest);
    Peeks(s, line[0], line[1..] + rest);
  }

  lemma LinesTogether(log: seq<Call>, line: seq<Byte>, more: seq<seq<Byte>>)
    ensures log + [Data(OnHeaderValue, line)] + (CallsOfLines(more) + [Notify(HeaderValueComplete)]) ==
            log + (CallsOfLines([line] + more) + [Notify(HeaderValueComplete)])
  {
    assert ([line] + more)[1..] == more;
    Associates([Data(OnHeaderValue, line)], CallsOfLines(more), [Notify(HeaderValueComplete)]);
    Associates(log, [Data(OnHeaderValue, line)], CallsOfLines(more) + [Notify(HeaderValueComplete)]);
  }

  /** Behind a line: the lines the value goes on with, and its end. */
  lemma {:induction false} FoldsRun(s: State<Label>, folds: seq<seq<Byte>>, b: Byte, rest: seq<Byte>)
    requires s.current == Value(HeaderValueLws) && Between(s) && s.regs.matched == 0
    requires AreFolds(folds) && b != SP && b != HT
    ensures Comes(s, RenderLines(folds) + ([b] + rest), ApplyValue(s.regs, folds), ValueTold(s, folds), [b] + rest)
    decreases |folds|
  {
    var end := [b] + rest;
    if folds == [] {
      assert RenderLines(folds) + end == end &&
             CallsOfLines([]) + [Notify(HeaderValueComplete)] == [Notify(HeaderValueComplete)];
      FieldEnds(s, b, rest);
    } else {
      var line, more := folds[0], folds[1..];
      var t := s.(current := Value(SpanStartHeaderValue1));
      assert line in folds && folds == [line] + more && forall l | l in more :: l in folds;
      LinesApart(line, more, end);
      FoldSeen(s, line, CRLF + (RenderLines(more) + end));
      LineRuns(t, line, RenderLines(more) + end);
      var reading := ApplyValueLine(s.regs, line);
      if reading.Accepted? {
        LineKeepsMatched(s.regs, line);
        FoldsRun(LineTold(t, line).(regs := reading.regs), more, b, rest);
        LinesTogether(s.log, line, more);
      }
    }
  }

  lemma LinesApart(line: seq<Byte>, more: seq<seq<Byte>>, end: seq<Byte>)
    ensures RenderLines([line] + more) + end == line + (CRLF + (RenderLines(more) + end))
  {
    assert ([line] + more)[1..] == more;
    Associates(CRLF, RenderLines(more), end);
    Associates(line, CRLF + RenderLines(more), end);
  }

  lemma ValueSeen(s: State<Label>, v: seq<Byte>, rest: seq<Byte>)
    requires s.current == Value(HeaderValueDiscardWs) && Between(s) && s.regs.matched == 0
    requires v != [] && IsValue(v) && v[0] != SP && v[0] != HT
    ensures RunOn(s, v + rest) == RunOn(s.(current := Value(SpanStartHeaderValue1)), v + rest)
  {
    assert v[0] in v && v + rest == [v[0]] + (v[1..] + rest);
    Peeks(s, v[0], v[1..] + rest);
  }

  /** A value, folded or not, before a line that does not go on with it. */
  lemma LinesRun(s: State<Label>, v: seq<Byte>, folds: seq<seq<Byte>>, b: Byte, rest: seq<Byte>)
    requires s.current == Value(HeaderValueDiscardWs) && Between(s) && s.regs.matched == 0
    requires v != [] && IsValue(v) && v[0] != SP && v[0] != HT && AreFolds(folds) && b != SP && b != HT
    ensures Comes(s, RenderLines([v] + folds) + ([b] + rest), ApplyValue(s.regs, [v] + folds),
                  ValueTold(s, [v] + folds), [b] + rest)
  {
    var end := RenderLines(folds) + ([b] + rest);
    var t := s.(current := Value(SpanStartHeaderValue1));
    LinesApart(v, folds, [b] + rest);
    ValueSeen(s, v, CRLF + end);
    LineRuns(t, v, end);
    assert ([v] + folds)[1..] == folds;
    var reading := ApplyValueLine(s.regs, v);
    if reading.Accepted? {
      LineKeepsMatched(s.regs, v);
      FoldsRun(LineTold(t, v).(regs := reading.regs), folds, b, rest);
      LinesTogether(s.log, v, folds);
    }
  }

  // ---------------------------------------------------------------- the run over fields

  lemma NothingIsOneLine(s: State<Label>)
    ensures NothingTold(s) == ValueTold(s, [[]]) && RenderLines([[]]) == CRLF
  {
    var lines: seq<seq<Byte>> := [[]];
    assert lines[1..] == [] && CRLF + [] == CRLF && [] + CRLF == CRLF;
    assert CallsOfLines(lines) == [Data(OnHeaderValue, [])];
    assert [Data(OnHeaderValue, [])] + [Notify(HeaderValueComplete)] ==
           [Data(OnHeaderValue, []), Notify(HeaderValueComplete)];
  }

  /** What is read of a field behind its colon, its blanks and the blank lines after them. */
  lemma ValueRuns(s: State<Label>, r: Registers, f: Field, b: Byte, rest: seq<Byte>)
    requires IsField(f) && b != SP && b != HT
    requires AtValue(s, KindOf(f.name)) && s.regs == r.(matched := 0, headerState := KindOf(f.name))
    ensures Comes(s, RenderLines(LinesOf(f)) + ([b] + rest), ApplyField(r, f), ValueTold(s, LinesOf(f)), [b] + rest)
  {
    if f.value != [] {
      LinesRun(s, f.value, f.folds, b, rest);
    } else {
      assert LinesOf(f) == [[]];
      NothingIsOneLine(s);
      if KindOf(f.name) == H_CONTENT_LENGTH {
        EmptyLengthFails(s, b, rest);
      } else {
        EmptyValueRuns(s, KindOf(f.name), b, rest);
      }
    }
  }

  /** The parser at the beginning of a header line. */
  ghost predicate AtFields(s: State<Label>) {
    s.current == Name(HeaderFieldStart) && Between(s)
  }

  function FieldTold(s: State<Label>, f: Field): State<Label> {
    s.(log := s.log + FieldCalls(f))
  }

  lemma FieldApart(f: Field, tail: seq<Byte>)
    ensures RenderField(f) + tail ==
            f.name + ([COLON] + (f.blanks + (RenderLeads(f.leads) + (RenderLines(LinesOf(f)) + tail))))
  {
    var colon, leads, lines := [COLON], RenderLeads(f.leads), RenderLines(LinesOf(f));
    Associates(leads, lines, tail);
    Associates(f.blanks, leads + lines, tail);
    Associates(colon, f.blanks + (leads + lines), tail);
    Associates(f.name, colon + (f.blanks + (leads + lines)), tail);
  }

  lemma ToldTogether(log: seq<Call>, f: Field)
    ensures log + [Data(OnHeaderField, f.name), Notify(HeaderFieldComplete)] +
            (CallsOfLines(LinesOf(f)) + [Notify(HeaderValueComplete)]) == log + FieldCalls(f)
  {
    Associates(log, [Data(OnHeaderField, f.name), Notify(HeaderFieldComplete)],
               CallsOfLines(LinesOf(f)) + [Notify(HeaderValueComplete)]);
  }

  /** The name, the colon and what is blank before the value. */
  lemma NameAndBlanksRun(s: State<Label>, f: Field, rest: seq<Byte>)
    requires AtFields(s) && IsField(f)
    ensures RunOn(s, f.name + ([COLON] + (f.blanks + (RenderLeads(f.leads) + rest)))) ==
            RunOn(AfterName(s, f.name, KindOf(f.name)), rest)
  {
    var t := AfterName(s, f.name, KindOf(f.name));
    NameIsRead(s, f.name, f.blanks + (RenderLeads(f.leads) + rest));
    BlanksRun(t, f.blanks, RenderLeads(f.leads) + rest);
    LeadsRun(t, f.leads, rest);
  }

  lemma FieldRuns(s: State<Label>, f: Field, b: Byte, rest: seq<Byte>)
    requires AtFields(s) && IsField(f) && b != SP && b != HT
    ensures Comes(s, RenderField(f) + ([b] + rest), ApplyField(s.regs, f), FieldTold(s, f), [b] + rest)
  {
    var tail := [b] + rest;
    FieldApart(f, tail);
    NameAndBlanksRun(s, f, RenderLines(LinesOf(f)) + tail);
    ValueRuns(AfterName(s, f.name, KindOf(f.name)), s.regs, f, b, rest);
    ToldTogether(s.log, f);
  }

  function FieldsTold(s: State<Label>, fields: seq<Field>): State<Label> {
    s.(log := s.log + CallsOfFields(fields))
  }

  /** A header line begins with no blank. */
  lemma FieldBegins(f: Field, rest: seq<Byte>)
    requires IsField(f)
    ensures var input := RenderField(f) + rest; input == [input[0]] + input[1..] && input[0] != SP && input[0] != HT
  {
    assert f.name[0] in f.name && (RenderField(f) + rest)[0] == f.name[0];
  }

  lemma FieldsBegin(fields: seq<Field>, b: Byte, rest: seq<Byte>)
    requires AreFields(fields) && b != SP && b != HT
    ensures var input := RenderFields(fields) + ([b] + rest);
            input == [input[0]] + input[1..] && input[0] != SP && input[0] != HT
  {
    if fields == [] {
      assert [] + ([b] + rest) == [b] + rest;
    } else {
      var f, more := fields[0], RenderFields(fields[1..]);
      assert f in fields;
      Associates(RenderField(f), more, [b] + rest);
      FieldBegins(f, more + ([b] + rest));
    }
  }

  lemma FirstField(fields: seq<Field>, rest: seq<Byte>)
    requires fields != [] && AreFields(fields)
    ensures RenderFields(fields) + rest == RenderField(fields[0]) + (RenderFields(fields[1..]) + rest)
    ensures IsField(fields[0]) && AreFields(fields[1..])
  {
    assert fields[0] in fields && forall g | g in fields[1..] :: g in fields;
    Associates(RenderField(fields[0]), RenderFields(fields[1..]), rest);
  }

  /** Any header fields, before a line that does not continue the last. */
  lemma {:induction false} FieldsThen(s: State<Label>, fields: seq<Field>, b: Byte, rest: seq<Byte>)
    requires AtFields(s) && AreFields(fields) && b != SP && b != HT
    ensures Comes(s, RenderFields(fields) + ([b] + rest), ApplyFields(s.regs, fields),
                  FieldsTold(s, fields), [b] + rest)
    decreases |fields|
  {
    if fields == [] {
      assert RenderFields(fields) + ([b] + rest) == [b] + rest && s.log + [] == s.log;
    } else {
      var f, more := fields[0], fields[1..];
      var tail := RenderFields(more) + ([b] + rest);
      FirstField(fields, [b] + rest);
      FieldsBegin(more, b, rest);
      FieldRuns(s, f, tail[0], tail[1..]);
      var reading := ApplyField(s.regs, f);
      if reading.Accepted? {
        FieldsThen(FieldTold(s, f).(regs := reading.regs), more, b, rest);
        Associates(s.log, FieldCalls(f), CallsOfFields(more));
      }
    }
  }

  /** Any header fields and the empty line after them. */
  lemma FieldsRun(s: State<Label>, fields: seq<Field>, rest: seq<Byte>)
    requires AtFields(s) && AreFields(fields)
    ensures Comes(s, RenderFields(fields) + (CRLF + rest), ApplyFields(s.regs, fields), FieldsTold(s, fields),
                  CRLF + rest)
  {
    assert CRLF + rest == [CR] + ([LF] + rest);
    FieldsThen(s, fields, CR, [LF] + rest);
  }

  /** A Content-Length that cannot be read is refused before its line is over. */
  lemma LengthFieldFails(s: State<Label>, f: Field, rest: seq<Byte>)
    requires AtFields(s) && IsField(f) && KindOf(f.name) == H_CONTENT_LENGTH && f.value != [] &&
             !s.regs.flags.contentLength
    requires ReadLength(s.regs.contentLength, f.value).None?
    ensures RunOn(s, RenderField(f) + rest).error == INVALID_CONTENT_LENGTH
  {
    var t := AfterName(s, f.name, H_CONTENT_LENGTH);
    var end := RenderLines(f.folds) + rest;
    FieldApart(f, rest);
    NameAndBlanksRun(s, f, RenderLines(LinesOf(f)) + rest);
    LinesApart(f.value, f.folds, rest);
    ValueSeen(t, f.value, CRLF + end);
    LengthLineRuns(t.(current := Value(SpanStartHeaderValue1)), f.value, end);
  }

  // ---------------------------------------------------------------- what callbacks are told

  lemma {:induction false} LinesAreQuiet(lines: seq<seq<Byte>>)
    ensures Quiet(CallsOfLines(lines))
  {
    if lines != [] {
      QuietThen([], Data(OnHeaderValue, lines[0]));
      assert [] + [Data(OnHeaderValue, lines[0])] == [Data(OnHeaderValue, lines[0])];
      LinesAreQuiet(lines[1..]);
      QuietTogether([Data(OnHeaderValue, lines[0])], CallsOfLines(lines[1..]));
    }
  }

  lemma FieldIsQuiet(f: Field)
    ensures Quiet(FieldCalls(f))
  {
    var name := [Data(OnHeaderField, f.name), Notify(HeaderFieldComplete)];
    QuietThenTwo([], name[0], name[1]);
    assert [] + [name[0], name[1]] == name;
    LinesAreQuiet(LinesOf(f));
    QuietThen(CallsOfLines(LinesOf(f)), Notify(HeaderValueComplete));
    QuietTogether(name, CallsOfLines(LinesOf(f)) + [Notify(HeaderValueComplete)]);
  }

  lemma {:induction false} FieldsAreQuiet(fields: seq<Field>)
    ensures Quiet(CallsOfFields(fields))
  {
    if fields != [] {
      FieldIsQuiet(fields[0]);
      FieldsAreQuiet(fields[1..]);
      QuietTogether(FieldCalls(fields[0]), CallsOfFields(fields[1..]));
    }
  }
}
