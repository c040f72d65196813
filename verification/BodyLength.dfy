/** How long a message's body is: what the parser decides, header block read, against section 3.3.3 of
    RFC 7230, which the comments of http.c cite. */
module BodyLength {
  import opened Bytes
  import opened Llparse
  import opened HttpGlue
  import opened Digits
  import opened Llhttp
  import opened LlhttpSteps
  import opened HeaderNames
  import opened TransferEncoding
  import opened ContentLengthValue
  import opened ConnectionValue
  import opened MessageEnd
  import opened HeaderFields
  import opened HeaderBlock
  import opened StartLine
  import opened ContentLengthBody
  import opened Messages
  import opened MessageStarts

  // ---------------------------------------------------------------- the section

  /** What can follow a header block: chunks, so many bytes, bytes up to the end of the connection; or
      the message is turned away; or there is no telling yet. */
  datatype Framing = InChunks | OfLength(n: nat) | UntilClose | TurnedAway | Undecided

  /** What counts of a message: request or status, CONNECT, whether Connection and Upgrade ask for an
      upgrade, whether any value is folded, and the values of Transfer-Encoding and Content-Length.  A
      Transfer-Encoding that says nothing, which the grammar does not have, is none. */
  datatype Message = Message(
    request: bool, status: nat, connect: bool, upgrades: bool, folded: bool, codings: seq<Written>,
    lengths: seq<Written>)

  /** Each fold, the line end and the blanks around it, stands for a space (section 3.2.4). */
  function UnfoldAll(folds: seq<seq<Byte>>): seq<Byte> {
    if folds == [] then [] else [SP] + DropBlanks(folds[0]) + UnfoldAll(folds[1..])
  }

  function Unfold(w: Written): seq<Byte> { w.first + UnfoldAll(w.folds) }

  function DropLast(v: seq<Byte>): seq<Byte> {
    if v != [] && (v[|v| - 1] == SP || v[|v| - 1] == HT) then DropLast(v[..|v| - 1]) else v
  }

  /** Without the white space around it. */
  function Trim(v: seq<Byte>): seq<Byte> { DropLast(DropBlanks(v)) }

  /** The codings of a comma-separated list; empty items are none. */
  function CodingsOf(v: seq<Byte>): seq<seq<Byte>>
    decreases |v|
  {
    var item := Trim(BeforeComma(v));
    (if item == [] then [] else [item]) + if COMMA in v then CodingsOf(AfterComma(v)) else []
  }

  function AllCodings(values: seq<Written>): seq<seq<Byte>> {
    if values == [] then [] else CodingsOf(Unfold(values[0])) + AllCodings(values[1..])
  }

  /** The final transfer coding is chunked. */
  ghost predicate LastIsChunked(values: seq<Written>) {
    var codings := AllCodings(values);
    codings != [] && Named(codings[|codings| - 1], CHUNKED)
  }

  /** Rule 1: responses that have no body, whatever their header fields say. */
  predicate Bodiless(m: Message) {
    !m.request && (m.status / 100 == 1 || m.status == 204 || m.status == 304)
  }

  /** Rule 3, but for what it says of Content-Length. */
  ghost function ByCoding(m: Message): Framing {
    if LastIsChunked(m.codings) then InChunks else if m.request then TurnedAway else UntilClose
  }

  /** The rules, in their order, on the unfolded header fields.  Transfer-Encoding overrides
      Content-Length, but having both may be an error; so may be a length that needs more than 64 bits, and
      a length said twice.  (Rule 2 is about what only the client of a CONNECT knows.) */
  ghost predicate ByTheRules(m: Message, f: Framing) {
    if Bodiless(m) then f == OfLength(0)
    else if m.codings != [] then f == ByCoding(m) || (m.lengths != [] && f == TurnedAway)
    else if m.lengths == [] then f == if m.request then OfLength(0) else UntilClose
    else if |m.lengths| == 1 then
      var n := Declared(Unfold(m.lengths[0]));
      if n.Some? then f == OfLength(n.value) || (n.value > MAX64 && f == TurnedAway) else f == TurnedAway
    else f == TurnedAway || (f.OfLength? && forall w | w in m.lengths :: Declared(Unfold(w)) == Some(f.n))
  }

  /** A server may turn a request away for a fold; a client has to unfold the response. */
  predicate MayRefuse(m: Message) { m.request && m.folded }

  ghost predicate Allowed(m: Message, f: Framing) {
    ByTheRules(m, f) || (MayRefuse(m) && f == TurnedAway)
  }

  // ---------------------------------------------------------------- the parser

  /** The last that was told is a complete message. */
  ghost predicate EndsComplete(log: seq<Call>) {
    var told := Norm(log);
    told != [] && told[|told| - 1] == Tick(MessageComplete)
  }

  /** What the parser is about to do. */
  ghost function FramingOf(t: State<Label>): Framing {
    if t.error != 0 && t.error != PAUSED_UPGRADE then TurnedAway
    else if t.current == Body(ChunkSizeDigit) then InChunks
    else if t.current == Body(SpanStartBody1) then OfLength(t.regs.contentLength)
    else if t.current == Body(SpanStartBody2) then UntilClose
    else if EndsComplete(t.log) then OfLength(0)
    else Undecided
  }

  ghost predicate HasFold(fields: seq<Field>) {
    exists f | f in fields :: f.leads != [] || f.folds != []
  }

  /** The message in whose header block the parser is. */
  ghost function MessageAt(r: Registers, fields: seq<Field>): Message {
    var request := r.kind == HTTP_REQUEST;
    Message(request, if request then 0 else r.statusCode, request && r.verb == HTTP_CONNECT, AsksUpgrade(fields),
            HasFold(fields), Codings(fields), Lengths(fields))
  }

  /** `upgrade` */
  predicate Upgrading(m: Message) {
    if m.upgrades then m.request || m.status == 101 else m.connect
  }

  /** The list is read as chunked though it does not end so, or the other way round. */
  ghost predicate Misread(codings: seq<Written>) {
    LastIsRun(codings) != LastIsChunked(codings)
  }

  /** And turning the message away does not make up for it. */
  ghost predicate CodingMissed(m: Message) {
    Misread(m.codings) && !(MayRefuse(m) && !LastIsRun(m.codings))
  }

  /** The fields pass the parser's own tests of them. */
  ghost predicate Taken(m: Message, lenient: bool, stale: UInt64) {
    LengthAfter(false, stale, m.lengths).Some? && (m.lengths == [] || m.codings == [] || lenient)
  }

  /** An upgrade that leaves the parser without a body. */
  ghost predicate UpgradedAway(m: Message, stale: UInt64) {
    Upgrading(m) && !LastIsRun(m.codings) && LengthAfter(false, stale, m.lengths) == Some(0)
  }

  /** Where the parser goes its own way.  lenient is LENIENT_CHUNKED_LENGTH; stale is what content_length
      holds when the header block begins. */
  ghost predicate Misframed(m: Message, lenient: bool, stale: UInt64) {
    if Bodiless(m) then
      if m.codings != [] then !(Taken(m, lenient, stale) && UpgradedAway(m, stale))
      else m.lengths != [] && LengthAfter(false, stale, m.lengths) != Some(0)
    else if m.codings != [] then
      Taken(m, lenient, stale) &&
      (m.connect || CodingMissed(m) || UpgradedAway(m, stale) || (lenient && m.request && !LastIsRun(m.codings)))
    else
      |m.lengths| == 1 && LengthMiscounted(m, m.lengths[0], stale)
  }

  /** A single Content-Length that could be counted is refused, for a fold or a tab behind it or because of
      what the register held; or it is not what is counted: by CONNECT, or because of that again. */
  ghost predicate LengthMiscounted(m: Message, w: Written, stale: UInt64) {
    var n := Declared(Unfold(w));
    && n.Some? && n.value <= MAX64
    && if w.folds != [] || HT in w.first || ReadOn(stale, w.first) > MAX64 then !MayRefuse(m)
       else if m.connect then n.value > 0
       else stale > 0
  }

  /** What AfterHeadersComplete comes to. */
  function FramingOfKind(r: Registers): Framing {
    match AfterHeadersComplete(r)
    case NoBody | NoBodyUpgrade => OfLength(0)
    case Chunks => InChunks
    case Counted => OfLength(r.contentLength)
    case UntilEof => UntilClose
    case BadTransferEncoding => TurnedAway
  }

  ghost function Decided(r: Registers, fields: seq<Field>): Framing {
    match ApplyFields(r, fields)
    case Refused(_) => TurnedAway
    case Accepted(r') => if Contradictory(r') then TurnedAway else FramingOfKind(Completing(r'))
  }

  // ---------------------------------------------------------------- the run

  /** The errors a block is refused with. */
  ghost predicate IsRefusal(reading: Reading) {
    reading.Refused? ==> reading.code == UNEXPECTED_CONTENT_LENGTH || reading.code == INVALID_CONTENT_LENGTH
  }

  lemma {:induction false} ValueRefusedFor(r: Registers, lines: seq<seq<Byte>>)
    ensures IsRefusal(ApplyValue(r, lines))
    decreases |lines|
  {
    if lines != [] && ApplyValueLine(r, lines[0]).Accepted? {
      ValueRefusedFor(ApplyValueLine(r, lines[0]).regs, lines[1..]);
    }
  }

  lemma FieldRefusedFor(r: Registers, f: Field)
    ensures IsRefusal(ApplyField(r, f))
  {
    ValueRefusedFor(r.(matched := 0, headerState := KindOf(f.name)), LinesOf(f));
  }

  lemma {:induction false} RefusedFor(r: Registers, fields: seq<Field>)
    ensures IsRefusal(ApplyFields(r, fields))
    decreases |fields|
  {
    if fields != [] {
      FieldRefusedFor(r, fields[0]);
      if ApplyField(r, fields[0]).Accepted? {
        RefusedFor(ApplyField(r, fields[0]).regs, fields[1..]);
      }
    }
  }

  lemma CompleteEnds(log: seq<Call>)
    ensures EndsComplete(log + [Notify(MessageComplete)])
  {
    NormSnoc(log, Notify(MessageComplete));
  }

  lemma EndsUpgraded(t: State<Label>)
    requires AfterHeadersComplete(t.regs).NoBodyUpgrade? && t.current == AfterHeadersLabel(t.regs) && t.span == None
    ensures var u := Flush(RunOn(t, [])); FramingOf(u) == OfLength(0) && u.span == None
  {
    NoBodyPauses(t, []);
    CompleteEnds(t.log);
  }

  lemma EndsWithoutBody(t: State<Label>)
    requires AfterHeadersComplete(t.regs).NoBody? && t.current == AfterHeadersLabel(t.regs) && t.error == 0 &&
             t.span == None
    ensures var u := Flush(RunOn(t, [])); FramingOf(u) == OfLength(0) && u.error == 0
  {
    var r := t.regs;
    NoBodyEnds(t, []);
    Rests(t.(current := AfterEnd(r), regs := AfterMessageComplete(r), log := t.log + [Notify(MessageComplete)]));
    CompleteEnds(t.log);
  }

  lemma WaitsForChunks(t: State<Label>)
    requires AfterHeadersComplete(t.regs).Chunks? && t.current == AfterHeadersLabel(t.regs) && t.error == 0
    ensures var u := Flush(RunOn(t, [])); FramingOf(u) == InChunks && u.error == 0
  {
    var u := t.(current := Body(ChunkSizeDigit), regs := t.regs.(contentLength := 0));
    Invokes(t, []);
    Rests(u);
  }

  lemma WaitsForBytes(t: State<Label>)
    requires AfterHeadersComplete(t.regs).Counted? && t.current == AfterHeadersLabel(t.regs) && t.error == 0
    ensures var u := Flush(RunOn(t, [])); FramingOf(u) == OfLength(t.regs.contentLength) && u.error == 0
  {
    SpanStartRests(t);
  }

  lemma WaitsForTheEnd(t: State<Label>)
    requires AfterHeadersComplete(t.regs).UntilEof? && t.current == AfterHeadersLabel(t.regs) && t.error == 0
    ensures var u := Flush(RunOn(t, [])); FramingOf(u) == UntilClose && u.error == 0
  {
    var u := t.(current := Body(SpanStartBody2), regs := t.regs.(finish := FINISH_SAFE_WITH_CB));
    Invokes(t, []);
    SpanStartRests(u);
  }

  lemma TurnsAway(t: State<Label>)
    requires AfterHeadersComplete(t.regs).BadTransferEncoding? && t.current == AfterHeadersLabel(t.regs)
    ensures FramingOf(Flush(RunOn(t, []))) == TurnedAway
  {
    Fails(t, []);
  }

  /** The framing and, of a parser that pauses, that no span is open. */
  ghost predicate Settled(t: State<Label>, f: Framing) {
    FramingOf(t) == f && (t.error == PAUSED_UPGRADE ==> t.span == None)
  }

  lemma Settles(t: State<Label>)
    requires t.current == AfterHeadersLabel(t.regs) && t.error == 0 && t.span == None
    ensures Settled(Flush(RunOn(t, [])), FramingOfKind(t.regs))
  {
    match AfterHeadersComplete(t.regs)
    case NoBodyUpgrade => EndsUpgraded(t);
    case NoBody => EndsWithoutBody(t);
    case Chunks => WaitsForChunks(t);
    case Counted => WaitsForBytes(t);
    case UntilEof => WaitsForTheEnd(t);
    case BadTransferEncoding => TurnsAway(t);
  }

  lemma FailureIsRefusal(t: State<Label>, code: Errno)
    requires t.error == code && code != PAUSED_UPGRADE
    ensures Settled(Flush(t), TurnedAway)
  {}

  lemma BlockDecides(s: State<Label>, fields: seq<Field>)
    requires AtHeaders(s) && AreFields(fields)
    ensures Settled(Flush(RunOn(s, RenderFields(fields) + (CRLF + []))), Decided(s.regs, fields))
  {
    var reading := ApplyFields(s.regs, fields);
    FieldsRun(s, fields, []);
    FieldsMean(s.regs, fields);
    RefusedFor(s.regs, fields);
    var input := RenderFields(fields) + (CRLF + []);
    if reading.Refused? {
      FailureIsRefusal(RunOn(s, input), reading.code);
    } else if Contradictory(reading.regs) {
      ContradictionFails(FieldsTold(s, fields).(regs := reading.regs), []);
      FailureIsRefusal(RunOn(s, input), UNEXPECTED_CONTENT_LENGTH);
    } else {
      HeadersAreTold(s, fields, []);
      Settles(HeadersTold(s, fields));
    }
  }

  lemma SameFraming(t: State<Label>, u: State<Label>, f: Framing)
    requires SameRun(t, u) && Settled(u, f)
    ensures FramingOf(t) == f
  {
    if t.error == 0 || t.span.None? {
      assert EndsComplete(t.log) == EndsComplete(u.log);
    }
  }

  /** Cutting the input changes nothing about it. */
  lemma FeedSettles(s: State<Label>, pieces: seq<seq<Byte>>, f: Framing)
    requires Between(s) && pieces != [] && Settled(Flush(RunOn(s, Concat(pieces))), f)
    ensures FramingOf(Feed(s, pieces)) == f
  {
    OneBuffer(s, Concat(pieces));
    AnyCutting(s, pieces);
    SameFraming(Feed(s, pieces), Flush(RunOn(s, Concat(pieces))), f);
  }

  // ---------------------------------------------------------------- the comparison

  /** The registers that decide, when the headers are complete. */
  lemma DecidingRegisters(r: Registers, fields: seq<Field>)
    requires r.flags == NO_FLAGS && ApplyFields(r, fields).Accepted? &&
             (r.kind != HTTP_REQUEST ==> r.verb != HTTP_CONNECT)
    ensures var m, a, h := MessageAt(r, fields), ApplyFields(r, fields).regs, AfterBlock(r, fields);
            && Contradictory(a) == (m.lengths != [] && m.codings != [] && !r.lenient.chunkedLength)
            && h.upgrade == Upgrading(m) && h.kind == r.kind && h.statusCode == r.statusCode && h.lenient == r.lenient
            && (h.verb == HTTP_CONNECT <==> m.connect)
            && h.flags.chunked == LastIsRun(m.codings) && h.flags.transferEncoding == (m.codings != [])
            && h.flags.contentLength == (m.lengths != []) && !h.flags.skipBody
            && LengthAfter(false, r.contentLength, m.lengths) == Some(h.contentLength)
  {
    FieldsMean(r, fields);
  }

  /** What is decided, in terms of the message. */
  ghost function DecidedFor(m: Message, lenient: bool, stale: UInt64): Framing {
    var n := LengthAfter(false, stale, m.lengths);
    if n.None? || (m.lengths != [] && m.codings != [] && !lenient) then TurnedAway
    else if Upgrading(m) && (m.connect || !(LastIsRun(m.codings) || n.value > 0)) then OfLength(0)
    else if LastIsRun(m.codings) then InChunks
    else if m.codings != [] then if m.request && !lenient then TurnedAway else UntilClose
    else if m.lengths != [] then OfLength(n.value)
    else if m.request || Bodiless(m) then OfLength(0) else UntilClose
  }

  lemma RefusedAsSaid(r: Registers, fields: seq<Field>)
    requires r.flags == NO_FLAGS
    ensures ApplyFields(r, fields).Refused? <==> LengthAfter(false, r.contentLength, Lengths(fields)).None?
  {
    FieldsMean(r, fields);
  }

  /** Registers like these decide for what is said of the message. */
  lemma KindAsSaid(h: Registers, m: Message, lenient: bool, stale: UInt64)
    requires h.upgrade == Upgrading(m) && (h.kind == HTTP_REQUEST <==> m.request) && (m.connect ==> m.request)
    requires !m.request ==> h.statusCode == m.status
    requires h.lenient.chunkedLength == lenient && (h.verb == HTTP_CONNECT <==> m.connect)
    requires h.flags.chunked == LastIsRun(m.codings) && h.flags.transferEncoding == (m.codings != [])
    requires h.flags.contentLength == (m.lengths != []) && !h.flags.skipBody
    requires LengthAfter(false, stale, m.lengths) == Some(h.contentLength)
    requires m.lengths == [] || m.codings == [] || lenient
    ensures FramingOfKind(h) == DecidedFor(m, lenient, stale)
  {}

  lemma DecidesAsSaid(r: Registers, fields: seq<Field>)
    requires r.flags == NO_FLAGS && (r.kind != HTTP_REQUEST ==> r.verb != HTTP_CONNECT)
    ensures Decided(r, fields) == DecidedFor(MessageAt(r, fields), r.lenient.chunkedLength, r.contentLength)
  {
    var m := MessageAt(r, fields);
    RefusedAsSaid(r, fields);
    if ApplyFields(r, fields).Accepted? {
      DecidingRegisters(r, fields);
      if !Contradictory(ApplyFields(r, fields).regs) {
        KindAsSaid(AfterBlock(r, fields), m, r.lenient.chunkedLength, r.contentLength);
      }
    }
  }

  ghost predicate AreValues(values: seq<Written>) {
    forall w | w in values :: if w.first == [] then w.folds == [] else w.first[0] != SP && w.first[0] != HT
  }

  /** A single length is counted as declared unless it is miscounted. */
  lemma LengthAllowedIff(m: Message, lenient: bool, stale: UInt64)
    requires !Bodiless(m) && m.codings == [] && |m.lengths| == 1 && AreValues(m.lengths)
    requires !m.request ==> !m.connect && !(m.upgrades && m.status == 101)
    ensures Allowed(m, DecidedFor(m, lenient, stale)) <==> !LengthMiscounted(m, m.lengths[0], stale)
  {
    var w := m.lengths[0];
    var v := w.first;
    assert w in m.lengths;
    if w.folds == [] {
      assert Unfold(w) == v;
      if v != [] {
        ReadLengthIff(stale, v);
        ReadOnGrows(stale, v);
        if Declared(v).Some? {
          NumberIsNumberFrom(10, DecimalValues(DigitsOf(v)));
        }
      }
    }
  }

  lemma BodilessAllowedIff(m: Message, lenient: bool, stale: UInt64)
    requires Bodiless(m) && !m.connect
    ensures Allowed(m, DecidedFor(m, lenient, stale)) <==> !Misframed(m, lenient, stale)
  {}

  lemma CodedDecision(m: Message, lenient: bool, stale: UInt64)
    requires m.codings != [] && (m.connect ==> m.request)
    ensures DecidedFor(m, lenient, stale) ==
            if !Taken(m, lenient, stale) then TurnedAway
            else if m.connect || UpgradedAway(m, stale) then OfLength(0)
            else if LastIsRun(m.codings) then InChunks
            else if m.request && !lenient then TurnedAway else UntilClose
  {}

  lemma CodedAllowedIff(m: Message, lenient: bool, stale: UInt64)
    requires !Bodiless(m) && m.codings != [] && (m.connect ==> m.request)
    ensures Allowed(m, DecidedFor(m, lenient, stale)) <==> !Misframed(m, lenient, stale)
  {
    var f := DecidedFor(m, lenient, stale);
    CodedDecision(m, lenient, stale);
    assert ByTheRules(m, f) <==> f == ByCoding(m) || (m.lengths != [] && f == TurnedAway);
    if LastIsRun(m.codings) {
      assert Misread(m.codings) <==> !LastIsChunked(m.codings);
    } else {
      assert Misread(m.codings) <==> LastIsChunked(m.codings);
    }
  }

  lemma PlainAllowedIff(m: Message, lenient: bool, stale: UInt64)
    requires !Bodiless(m) && m.codings == [] && |m.lengths| != 1 && (m.connect ==> m.request)
    ensures Allowed(m, DecidedFor(m, lenient, stale)) && !Misframed(m, lenient, stale)
  {}

  lemma AllowedIff(m: Message, lenient: bool, stale: UInt64)
    requires AreValues(m.lengths) && (m.connect ==> m.request)
    ensures Allowed(m, DecidedFor(m, lenient, stale)) <==> !Misframed(m, lenient, stale)
  {
    if Bodiless(m) {
      BodilessAllowedIff(m, lenient, stale);
    } else if m.codings != [] {
      CodedAllowedIff(m, lenient, stale);
    } else if |m.lengths| == 1 {
      LengthAllowedIff(m, lenient, stale);
    } else {
      PlainAllowedIff(m, lenient, stale);
    }
  }

  lemma ValuesAreValues(fields: seq<Field>)
    requires AreFields(fields)
    ensures AreValues(Lengths(fields))
  {
    forall w | w in Lengths(fields)
      ensures if w.first == [] then w.folds == [] else w.first[0] != SP && w.first[0] != HT
    {
      ValueAmong(fields, H_CONTENT_LENGTH, w);
    }
  }

  /** Where the parser is when it has read a block, however it is cut. */
  lemma FeedDecides(s: State<Label>, fields: seq<Field>, pieces: seq<seq<Byte>>)
    requires AtHeaders(s) && AreFields(fields) && Concat(pieces) == RenderFields(fields) + CRLF
    ensures FramingOf(Feed(s, pieces)) == Decided(s.regs, fields)
  {
    assert CRLF + [] == CRLF;
    BlockDecides(s, fields);
    FeedSettles(s, pieces, Decided(s.regs, fields));
  }

  /** For every block of header fields, however it is cut: the parser frames the body as section 3.3.3
      of RFC 7230 says of these fields if and only if the message is none of those it goes its own way
      with. */
  lemma FollowsRfc7230Iff(s: State<Label>, fields: seq<Field>, pieces: seq<seq<Byte>>)
    requires AtHeaders(s) && (s.regs.kind != HTTP_REQUEST ==> s.regs.verb != HTTP_CONNECT)
    requires AreFields(fields) && Concat(pieces) == RenderFields(fields) + CRLF
    ensures var m := MessageAt(s.regs, fields);
            Allowed(m, FramingOf(Feed(s, pieces))) <==>
              !Misframed(m, s.regs.lenient.chunkedLength, s.regs.contentLength)
  {
    FeedDecides(s, fields, pieces);
    DecidesAsSaid(s.regs, fields);
    ValuesAreValues(fields);
    AllowedIff(MessageAt(s.regs, fields), s.regs.lenient.chunkedLength, s.regs.contentLength);
  }

  // ---------------------------------------------------------------- from the first state on

  /** The message with this start line and these fields. */
  ghost function MessageOf(line: Line, fields: seq<Field>): Message
    requires IsLine(line)
  {
    Message(line.RequestLine?, if line.RequestLine? then 0 else StatusOf(line.code),
            IsConnect(line), AsksUpgrade(fields), HasFold(fields), Codings(fields), Lengths(fields))
  }

  lemma AfterAnyLine(s: State<Label>, line: Line, fields: seq<Field>)
    requires AtAnyStart(s) && IsLine(line) && Expects(s.regs.kind, line)
    ensures var t := AfterLine(s, line);
            && AtHeaders(t) && (t.regs.kind != HTTP_REQUEST ==> t.regs.verb != HTTP_CONNECT)
            && MessageAt(t.regs, fields) == MessageOf(line, fields)
            && t.regs.lenient == s.regs.lenient && t.regs.contentLength == s.regs.contentLength
  {}

  /** What is decided of the message with this line and these fields. */
  ghost function DecidedAt(s: State<Label>, line: Line, fields: seq<Field>): Framing
    requires IsLine(line)
  {
    DecidedFor(MessageOf(line, fields), s.regs.lenient.chunkedLength, s.regs.contentLength)
  }

  lemma HeadIsRead(s: State<Label>, line: Line, fields: seq<Field>)
    requires AtAnyStart(s) && IsLine(line) && Expects(s.regs.kind, line) && AreFields(fields)
    ensures Settled(Flush(RunOn(s, RenderLine(line) + (RenderFields(fields) + CRLF))), DecidedAt(s, line, fields))
  {
    var t := AfterLine(s, line);
    AfterAnyLine(s, line, fields);
    LineIsRead(s, line, RenderFields(fields) + CRLF);
    assert CRLF + [] == CRLF;
    BlockDecides(t, fields);
    DecidesAsSaid(t.regs, fields);
  }

  lemma HeadDecides(s: State<Label>, line: Line, fields: seq<Field>, pieces: seq<seq<Byte>>)
    requires AtAnyStart(s) && IsLine(line) && Expects(s.regs.kind, line) && AreFields(fields)
    requires Concat(pieces) == RenderLine(line) + (RenderFields(fields) + CRLF)
    ensures FramingOf(Feed(s, pieces)) == DecidedAt(s, line, fields)
  {
    HeadIsRead(s, line, fields);
    FeedSettles(s, pieces, DecidedAt(s, line, fields));
  }

  /** The same from the parser's first state on: whatever has been received before, wherever a message
      begins, and for every start line and every block of fields, the body is framed as section 3.3.3
      says if and only if the message is none of those; and content_length is clear then unless a message
      has been completed. */
  lemma EveryMessageFramedIff(kind: nat, lenient: Lenient, before: seq<seq<Byte>>, line: Line, fields: seq<Field>,
                              pieces: seq<seq<Byte>>)
    requires var s := Feed(Init(kind, lenient), before);
             s.error == 0 && s.current == Begin(Start) && Expects(s.regs.kind, line)
    requires IsLine(line) && AreFields(fields)
    requires Concat(pieces) == RenderLine(line) + (RenderFields(fields) + CRLF)
    ensures var s, m := Feed(Init(kind, lenient), before), MessageOf(line, fields);
            && (Allowed(m, FramingOf(Feed(s, pieces))) <==>
                !Misframed(m, s.regs.lenient.chunkedLength, s.regs.contentLength))
            && (!Past(s.log) ==> s.regs.contentLength == 0)
  {
    var s := Feed(Init(kind, lenient), before);
    EveryStart(kind, lenient, before);
    HeadDecides(s, line, fields, pieces);
    ValuesAreValues(fields);
    AllowedIff(MessageOf(line, fields), s.regs.lenient.chunkedLength, s.regs.contentLength);
  }
}
