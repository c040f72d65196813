/** A message framed by Content-Length (section 3.3.3 of RFC 7230): its header fields, the empty
    line, and the body they count. */
module ContentLengthBody {
  import opened Bytes
  import opened Llparse
  import opened Digits
  import opened HttpGlue
  import opened Llhttp
  import opened LlhttpSteps
  import opened HeaderNames
  import opened ContentLengthValue
  import opened MessageEnd
  import opened HeaderFields
  import opened HeaderBlock

  // ---------------------------------------------------------------- counting the body

  /** The parser about to read a counted body of s.regs.contentLength bytes. */
  ghost predicate AtCounted(s: State<Label>) {
    s.current == Body(SpanStartBody1) && s.regs.contentLength > 0 && Between(s)
  }

  lemma PartRuns(s: State<Label>, data: seq<Byte>)
    requires AtCounted(s) && 0 < |data| < s.regs.contentLength
    ensures RunOn(s, data) ==
            s.(current := Body(ConsumeContentLength1), span := Some(OnBody), held := data,
               regs := s.regs.(contentLength := s.regs.contentLength - |data|))
  {
    StartsSpan(s, data);
    ConsumesPart(s.(current := Body(ConsumeContentLength1), span := Some(OnBody)), data);
    assert [] + data == data;
  }

  lemma PartIsTold(s: State<Label>, data: seq<Byte>)
    requires AtCounted(s) && 0 < |data| < s.regs.contentLength
    ensures ExecuteOn(s, data) ==
            s.(current := Body(ConsumeContentLength1), span := Some(OnBody), log := s.log + [Data(OnBody, data)],
               regs := s.regs.(contentLength := s.regs.contentLength - |data|))
  {
    OneBuffer(s, data);
    PartRuns(s, data);
  }

  /** At every cut before the end: what has been delivered and what is still counted make up the
      length that was declared. */
  lemma CountedSoFar(s: State<Label>, pieces: seq<seq<Byte>>)
    requires AtCounted(s) && pieces != [] && |Concat(pieces)| < s.regs.contentLength
    ensures var t := Feed(s, pieces);
            && t.error == 0 && Norm(t.log) == Norm(s.log) + Octets(OnBody, Concat(pieces))
            && t.regs == s.regs.(contentLength := s.regs.contentLength - |Concat(pieces)|)
  {
    var data := Concat(pieces);
    AnyCutting(s, pieces);
    if data == [] {
      OneBuffer(s, data);
      SpanStartRests(s);
      assert Norm(s.log) + Octets(OnBody, []) == Norm(s.log);
    } else {
      PartIsTold(s, data);
      NormSnoc(s.log, Data(OnBody, data));
    }
  }

  lemma CountedRuns(s: State<Label>, body: seq<Byte>, rest: seq<Byte>)
    requires AtCounted(s) && |body| == s.regs.contentLength
    ensures RunsOnTo(s, body + rest,
                     Completed(s.(regs := s.regs.(contentLength := 0), log := s.log + [Data(OnBody, body)])), rest)
  {
    StartsSpan(s, body + rest);
    var t := s.(current := Body(ConsumeContentLength1), span := Some(OnBody));
    Consumes(t, body, rest);
    assert [] + body == body;
    t := t.(current := Body(SpanEndBody1), regs := s.regs.(contentLength := 0), held := body);
    EndsSpan(t, rest);
    MessageEnds(s.(current := Done(OnMessageComplete2), regs := t.regs, log := s.log + [Data(OnBody, body)]), rest);
  }

  // ---------------------------------------------------------------- the header fields

  /** The parser before the fields of a message: none of its flags is set. */
  ghost predicate AtHeaders(s: State<Label>) {
    AtFields(s) && s.regs.flags == NO_FLAGS
  }

  /** One Content-Length, v, no coding, and v is read, behind what the register holds, as n. */
  ghost predicate Counts(s: State<Label>, fields: seq<Field>, v: seq<Byte>, n: nat) {
    && AreFields(fields) && Codings(fields) == [] && Lengths(fields) == OnOneLine(v) && v != []
    && ReadLength(s.regs.contentLength, v) == Some(n)
  }

  /** The registers when the headers are complete. */
  ghost function AfterBlock(r: Registers, fields: seq<Field>): Registers
    requires ApplyFields(r, fields).Accepted?
  {
    Completing(ApplyFields(r, fields).regs)
  }

  lemma CountsMeans(s: State<Label>, fields: seq<Field>, v: seq<Byte>, n: nat)
    requires AtHeaders(s) && Counts(s, fields, v, n)
    ensures ApplyFields(s.regs, fields).Accepted?
    ensures var r := ApplyFields(s.regs, fields).regs;
            !r.flags.trailing && !Contradictory(r) && r.contentLength == n && r.verb == s.regs.verb
            && r.flags.contentLength && !r.flags.transferEncoding && !r.flags.chunked && !r.flags.skipBody
  {
    FieldsMean(s.regs, fields);
  }

  /** The headers of a counted message, not a CONNECT, are followed by the body they count. */
  lemma CountedKind(s: State<Label>, fields: seq<Field>, v: seq<Byte>, n: nat)
    requires AtHeaders(s) && Counts(s, fields, v, n) && s.regs.verb != HTTP_CONNECT
    ensures ApplyFields(s.regs, fields).Accepted?
    ensures var r := AfterBlock(s.regs, fields);
            r.contentLength == n &&
            AfterHeadersComplete(r) == if n > 0 then Counted else if r.upgrade then NoBodyUpgrade else NoBody
  {
    CountsMeans(s, fields, v, n);
  }

  /** The state when the headers are told. */
  ghost function HeadersTold(s: State<Label>, fields: seq<Field>): State<Label>
    requires ApplyFields(s.regs, fields).Accepted?
  {
    var r := AfterBlock(s.regs, fields);
    s.(current := AfterHeadersLabel(r), regs := r, log := s.log + (CallsOfFields(fields) + [Notify(HeadersComplete)]))
  }

  lemma HeadersAreTold(s: State<Label>, fields: seq<Field>, rest: seq<Byte>)
    requires AtFields(s) && AreFields(fields) && ApplyFields(s.regs, fields).Accepted?
    requires var r := ApplyFields(s.regs, fields).regs; !r.flags.trailing && !Contradictory(r)
    ensures RunOn(s, RenderFields(fields) + (CRLF + rest)) == RunOn(HeadersTold(s, fields), rest)
  {
    FieldsRun(s, fields, rest);
    EmptyLineRuns(FieldsTold(s, fields).(regs := ApplyFields(s.regs, fields).regs), rest);
    Associates(s.log, CallsOfFields(fields), [Notify(HeadersComplete)]);
  }

  // ---------------------------------------------------------------- the message

  /** What callbacks are told of a message with these fields and this body, before it is complete. */
  function MessageCalls(fields: seq<Field>, body: seq<Byte>): seq<Call> {
    CallsOfFields(fields) + [Notify(HeadersComplete)] + if body == [] then [] else [Data(OnBody, body)]
  }

  lemma ToldOfMessage(fields: seq<Field>, body: seq<Byte>)
    ensures var told := Norm(MessageCalls(fields, body)); BodyOf(told) == body && CountOf(MessageComplete, told) == 0
  {
    var l := CallsOfFields(fields) + [Notify(HeadersComplete)];
    FieldsAreQuiet(fields);
    QuietThen(CallsOfFields(fields), Notify(HeadersComplete));
    if body == [] {
      assert l + [] == l;
    } else {
      ThenDelivers(l, body);
    }
  }

  /** The state in which the last of the body has been told. */
  ghost function AfterCounted(s: State<Label>, fields: seq<Field>, body: seq<Byte>): State<Label>
    requires ApplyFields(s.regs, fields).Accepted?
  {
    s.(regs := AfterBlock(s.regs, fields).(contentLength := 0), log := s.log + MessageCalls(fields, body))
  }

  lemma EmptyBodyRuns(s: State<Label>, fields: seq<Field>, v: seq<Byte>, rest: seq<Byte>)
    requires AtHeaders(s) && Counts(s, fields, v, 0) && s.regs.verb != HTTP_CONNECT &&
             ApplyFields(s.regs, fields).Accepted?
    ensures RunsOnTo(HeadersTold(s, fields), rest, Completed(AfterCounted(s, fields, [])), rest)
  {
    CountedKind(s, fields, v, 0);
    var t := HeadersTold(s, fields);
    assert CallsOfFields(fields) + [Notify(HeadersComplete)] + [] == CallsOfFields(fields) + [Notify(HeadersComplete)];
    if t.regs.upgrade {
      NoBodyPauses(t, rest);
    } else {
      NoBodyEnds(t, rest);
    }
  }

  lemma FullBodyRuns(s: State<Label>, fields: seq<Field>, v: seq<Byte>, body: seq<Byte>, rest: seq<Byte>)
    requires AtHeaders(s) && Counts(s, fields, v, |body|) && s.regs.verb != HTTP_CONNECT && body != []
    requires ApplyFields(s.regs, fields).Accepted?
    ensures RunsOnTo(HeadersTold(s, fields), body + rest, Completed(AfterCounted(s, fields, body)), rest)
  {
    CountedKind(s, fields, v, |body|);
    CountedRuns(HeadersTold(s, fields), body, rest);
    Associates(s.log, CallsOfFields(fields) + [Notify(HeadersComplete)], [Data(OnBody, body)]);
  }

  lemma MessageRuns(s: State<Label>, fields: seq<Field>, v: seq<Byte>, body: seq<Byte>, rest: seq<Byte>)
    requires AtHeaders(s) && Counts(s, fields, v, |body|) && s.regs.verb != HTTP_CONNECT
    ensures ApplyFields(s.regs, fields).Accepted?
    ensures RunsOnTo(s, RenderFields(fields) + (CRLF + (body + rest)), Completed(AfterCounted(s, fields, body)), rest)
  {
    CountsMeans(s, fields, v, |body|);
    HeadersAreTold(s, fields, body + rest);
    if body == [] {
      assert body + rest == rest;
      EmptyBodyRuns(s, fields, v, rest);
    } else {
      FullBodyRuns(s, fields, v, body, rest);
    }
  }

  /** Any header block whose only framing is one Content-Length field, the empty line and as many body
      bytes as its digits say when they are read behind those of the register, cut into buffers
      anywhere: exactly those bytes are the body, and the message completes once. */
  lemma ContentLengthRoundTrip(s: State<Label>, fields: seq<Field>, v: seq<Byte>, body: seq<Byte>,
                               pieces: seq<seq<Byte>>)
    requires AtHeaders(s) && Counts(s, fields, v, |body|) && s.regs.verb != HTTP_CONNECT
    requires Concat(pieces) == RenderFields(fields) + (CRLF + body)
    ensures ApplyFields(s.regs, fields).Accepted?
    ensures DeliversOnce(s, pieces, AfterCounted(s, fields, body), MessageCalls(fields, body), body)
  {
    ToldOfMessage(fields, body);
    assert body + [] == body;
    MessageRuns(s, fields, v, body, []);
    CompletesOnce(s, pieces, MessageCalls(fields, body), AfterCounted(s, fields, body), body);
  }

  lemma PartWaits(s: State<Label>, data: seq<Byte>)
    requires AtCounted(s) && |data| < s.regs.contentLength
    ensures var t := Flush(RunOn(s, data));
            t.error == 0 && t.current.Body? && t.regs.contentLength == s.regs.contentLength - |data|
  {
    if data == [] {
      SpanStartRests(s);
    } else {
      PartRuns(s, data);
    }
  }

  /** A body of the declared length, before which more has been counted, does not complete the message. */
  lemma OvercountedWaits(s: State<Label>, fields: seq<Field>, v: seq<Byte>, n: nat, body: seq<Byte>,
                         pieces: seq<seq<Byte>>)
    requires AtHeaders(s) && Counts(s, fields, v, n) && s.regs.verb != HTTP_CONNECT && |body| < n
    requires Concat(pieces) == RenderFields(fields) + (CRLF + body)
    ensures var t := Feed(s, pieces); t.error == 0 && t.current.Body? && t.regs.contentLength == n - |body|
  {
    CountsMeans(s, fields, v, n);
    CountedKind(s, fields, v, n);
    HeadersAreTold(s, fields, body);
    PartWaits(HeadersTold(s, fields), body);
    OneBuffer(s, Concat(pieces));
    AnyCutting(s, pieces);
  }

  /** A length that cannot be read is an error, whatever has come before it in the block and whatever
      follows: it is no number, or one that does not fit 64 bits behind what the register holds. */
  lemma ContentLengthOverflow(s: State<Label>, before: seq<Field>, f: Field, rest: seq<Byte>, pieces: seq<seq<Byte>>)
    requires AtFields(s) && AreFields(before) && Lengths(before) == [] && !s.regs.flags.contentLength
    requires IsField(f) && KindOf(f.name) == H_CONTENT_LENGTH && f.value != []
    requires ReadLength(s.regs.contentLength, f.value).None?
    requires Concat(pieces) == RenderFields(before) + (RenderField(f) + rest)
    ensures Feed(s, pieces).error == INVALID_CONTENT_LENGTH
  {
    var tail := RenderField(f) + rest;
    FieldBegins(f, rest);
    FieldsThen(s, before, tail[0], tail[1..]);
    FieldsMean(s.regs, before);
    LengthFieldFails(FieldsTold(s, before).(regs := ApplyFields(s.regs, before).regs), f, rest);
    OneBuffer(s, Concat(pieces));
    AnyCutting(s, pieces);
  }

  /** A message whose header block declares the length its body has, and nothing else about its framing,
      is delivered as it was sent if and only if the content_length register was clear before it. */
  lemma DeliveredAsDeclaredIff(s: State<Label>, fields: seq<Field>, v: seq<Byte>, body: seq<Byte>,
                               pieces: seq<seq<Byte>>)
    requires AtHeaders(s) && s.regs.verb != HTTP_CONNECT
    requires AreFields(fields) && Codings(fields) == [] && Lengths(fields) == OnOneLine(v) && HT !in v
    requires Declared(v) == Some(|body|) && |body| <= MAX64
    requires Concat(pieces) == RenderFields(fields) + (CRLF + body)
    ensures var reading := ApplyFields(s.regs, fields);
            reading.Accepted? &&
              DeliversOnce(s, pieces, AfterCounted(s, fields, body), MessageCalls(fields, body), body) <==>
            s.regs.contentLength == 0
  {
    LengthsAreValues(fields, v);
    ReadAsDeclaredIff(s.regs.contentLength, v);
    FieldsMean(s.regs, fields);
    var read := ReadLength(s.regs.contentLength, v);
    if s.regs.contentLength == 0 {
      ContentLengthRoundTrip(s, fields, v, body, pieces);
    } else if read.Some? {
      ReadLengthIff(s.regs.contentLength, v);
      ReadOnGrows(s.regs.contentLength, v);
      NumberIsNumberFrom(10, DecimalValues(DigitsOf(v)));
      OvercountedWaits(s, fields, v, read.value, body, pieces);
    }
  }

  lemma {:induction false} ValueAmong(fields: seq<Field>, kind: nat, w: Written)
    requires AreFields(fields) && w in ValuesOf(fields, kind)
    ensures AreFolds(w.folds) && if w.first == [] then w.folds == [] else w.first[0] != SP && w.first[0] != HT
    decreases |fields|
  {
    var f := fields[0];
    assert f in fields && forall g | g in fields[1..] :: g in fields;
    if KindOf(f.name) != kind || w != Written(f.value, f.folds) {
      ValueAmong(fields[1..], kind, w);
    }
  }

  lemma LengthsAreValues(fields: seq<Field>, v: seq<Byte>)
    requires AreFields(fields) && Lengths(fields) == OnOneLine(v) && Declared(v).Some?
    ensures v != [] && v[0] != SP && v[0] != HT
  {
    assert Written(v, []) in Lengths(fields);
    ValueAmong(fields, H_CONTENT_LENGTH, Written(v, []));
  }

  // ---------------------------------------------------------------- CONNECT

  /** A CONNECT has no body, whatever its fields say: the parser stops before what follows them. */
  lemma ConnectStops(s: State<Label>, fields: seq<Field>, rest: seq<Byte>, pieces: seq<seq<Byte>>)
    requires AtHeaders(s) && s.regs.kind == HTTP_REQUEST && s.regs.verb == HTTP_CONNECT
    requires AreFields(fields) && ApplyFields(s.regs, fields).Accepted? &&
             !Contradictory(ApplyFields(s.regs, fields).regs)
    requires Concat(pieces) == RenderFields(fields) + (CRLF + rest)
    ensures var m := s.(regs := AfterBlock(s.regs, fields), log := s.log + MessageCalls(fields, []));
            m.regs.upgrade && DeliversOnce(s, pieces, m, MessageCalls(fields, []), [])
  {
    FieldsMean(s.regs, fields);
    HeadersAreTold(s, fields, rest);
    var l := CallsOfFields(fields) + [Notify(HeadersComplete)];
    assert l + [] == l;
    NoBodyPauses(HeadersTold(s, fields), rest);
    ToldOfMessage(fields, []);
    CompletesOnce(s, pieces, MessageCalls(fields, []),
                  s.(regs := AfterBlock(s.regs, fields), log := s.log + MessageCalls(fields, [])), []);
  }
}
