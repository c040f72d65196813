/** Single nodes of the llhttp table, one lemma a node kind. */
module LlhttpSteps {
  import opened Bytes
  import opened Llparse
  import opened Llhttp

  const CRLF: seq<Byte> := [CR, LF]

  ghost function RunOn(s: State<Label>, input: seq<Byte>): State<Label> {
    LlhttpWellFormed();
    Run(Table(), s, input)
  }

  ghost function BytesReadOn(s: State<Label>, input: seq<Byte>): (n: nat)
    ensures n <= |input|
  {
    LlhttpWellFormed();
    BytesRead(Table(), s, input)
  }

  lemma Goes(s: State<Label>, input: seq<Byte>)
    ensures var o := Step(Table(), s, input);
            RunOn(s, input) == if o.Stop? then o.s else RunOn(o.s, input[o.n..])
  {
    LlhttpWellFormed();
    RunGoes(Table(), s, input);
  }

  lemma Descends(s: State<Label>, input: seq<Byte>)
    ensures var o := Step(Table(), s, input); o.Goto? ==> o.n > 0 || RankOf(o.s.current) < RankOf(s.current)
  {
    LlhttpWellFormed();
    StepDescends(Table(), s, input);
    TableFields(s.current);
    TableFields(Step(Table(), s, input).s.current);
  }

  /** What is read by one node, and by the rest of the run. */
  lemma GoesReading(s: State<Label>, input: seq<Byte>)
    requires s.error == 0
    ensures var o, n := Step(Table(), s, input), NodeReads(Table(), s, input);
            if o.Goto? then o.n == n && o.s.error == 0 && BytesReadOn(s, input) == n + BytesReadOn(o.s, input[n..])
            else BytesReadOn(s, input) == n && (o.s.error == 0 ==> n == |input|)
  {
    LlhttpWellFormed();
    StepReads(Table(), s, input);
  }

  lemma SequenceStep(s: State<Label>, input: seq<Byte>)
    requires NodeOf(s.current).Sequence? && input != []
    ensures var n := NodeOf(s.current);
            var m := Match(n.fold, n.blob, s.index, input);
            var t := AfterMatch(s, m, n.matched, n.complete, n.mismatch);
            var read := if m.MatchPause? then |input| else if m.MatchComplete? then m.p + 1 else m.p;
            var u := Hold(t, input[..read]);
            Step(Table(), s, input) == if m.MatchPause? then Stop(u) else Goto(u, read)
  {
    TableFields(s.current);
    StepOfSequence(Table(), s, input);
  }

  function MoveTo(s: State<Label>, e: Edge<Label>): State<Label> {
    s.(current := e.next, regs := s.regs.(matched := e.matched))
  }

  lemma Reads(s: State<Label>, b: Byte, rest: seq<Byte>)
    requires NodeOf(s.current) == Switch && EdgeOf(s.current, b).advance
    ensures RunOn(s, [b] + rest) == RunOn(Hold(MoveTo(s, EdgeOf(s.current, b)), [b]), rest)
  {
    TableFields(s.current);
    TableEdges(s.current, b);
    assert ([b] + rest)[1..] == rest && ([b] + rest)[..1] == [b];
    Goes(s, [b] + rest);
  }

  lemma Peeks(s: State<Label>, b: Byte, rest: seq<Byte>)
    requires NodeOf(s.current) == Switch && !EdgeOf(s.current, b).advance
    ensures RunOn(s, [b] + rest) == RunOn(MoveTo(s, EdgeOf(s.current, b)), [b] + rest)
  {
    TableFields(s.current);
    TableEdges(s.current, b);
    assert ([b] + rest)[0..] == [b] + rest;
    Goes(s, [b] + rest);
  }

  lemma Invokes(s: State<Label>, input: seq<Byte>)
    requires NodeOf(s.current).Invoke?
    ensures var r := RunOf(s.current, s.regs);
            var call := NodeOf(s.current).call;
            RunOn(s, input) ==
            RunOn(s.(current := r.1, regs := r.0,
                     log := if call.Some? then s.log + [Notify(call.value)] else s.log), input)
  {
    TableFields(s.current);
    TableRuns(s.current, s.regs);
    assert input[0..] == input;
    Goes(s, input);
  }

  /** The bytes that spell the blob are read as one. */
  lemma Spelled(s: State<Label>, bytes: seq<Byte>, rest: seq<Byte>)
    requires NodeOf(s.current).Sequence? && s.index == 0
    requires var n := NodeOf(s.current); n.blob != [] && Spells(n.fold, bytes, n.blob)
    ensures var n := NodeOf(s.current);
            RunOn(s, bytes + rest) ==
            RunOn(Hold(s.(current := n.complete, regs := s.regs.(matched := n.matched)), bytes), rest)
  {
    var n := NodeOf(s.current);
    SequenceStep(s, bytes + rest);
    assert (bytes + rest)[..|bytes|] == bytes && (bytes + rest)[|bytes|..] == rest && n.blob[0..] == n.blob;
    MatchIsSpelling(n.fold, n.blob, 0, bytes + rest);
    Goes(s, bytes + rest);
  }

  /** Bytes that do not spell the blob are read up to the first wrong one. */
  lemma Misspelled(s: State<Label>, input: seq<Byte>)
    requires NodeOf(s.current).Sequence? && s.index == 0 && input != []
    requires var n := NodeOf(s.current); Match(n.fold, n.blob, 0, input).MatchMismatch?
    ensures var n := NodeOf(s.current);
            var p := Match(n.fold, n.blob, 0, input).p;
            RunOn(s, input) == RunOn(Hold(s.(current := n.mismatch), input[..p]), input[p..])
  {
    TableFields(s.current);
    Goes(s, input);
  }

  lemma StartsSpan(s: State<Label>, input: seq<Byte>)
    requires NodeOf(s.current).SpanStart? && input != []
    ensures RunOn(s, input) ==
            RunOn(s.(current := NodeOf(s.current).next, span := Some(NodeOf(s.current).span), held := []), input)
  {
    TableFields(s.current);
    assert input[0..] == input;
    Goes(s, input);
  }

  lemma EndsSpan(s: State<Label>, input: seq<Byte>)
    requires NodeOf(s.current).SpanEnd? && (NodeOf(s.current).advance ==> input != [])
    ensures var n := NodeOf(s.current);
            RunOn(s, input) == RunOn(CloseSpan(s).(current := n.next), if n.advance then input[1..] else input)
  {
    TableFields(s.current);
    assert input[0..] == input;
    Goes(s, input);
  }

  lemma Consumes(s: State<Label>, bytes: seq<Byte>, rest: seq<Byte>)
    requires NodeOf(s.current).Consume? && s.regs.contentLength == |bytes|
    ensures RunOn(s, bytes + rest) ==
            RunOn(Hold(s.(current := NodeOf(s.current).next, regs := s.regs.(contentLength := 0)), bytes), rest)
  {
    TableFields(s.current);
    assert (bytes + rest)[..|bytes|] == bytes && (bytes + rest)[|bytes|..] == rest;
    Goes(s, bytes + rest);
  }

  lemma Fails(s: State<Label>, input: seq<Byte>)
    requires NodeOf(s.current).Pause?
    ensures var n := NodeOf(s.current); RunOn(s, input) == s.(current := n.resume, error := n.code)
  {
    TableFields(s.current);
    Goes(s, input);
  }

  lemma Rests(s: State<Label>)
    requires NodeOf(s.current) == Switch
    ensures RunOn(s, []) == s
  {
    TableFields(s.current);
    Goes(s, []);
  }

  /** `llhttp_execute` on one buffer, and on one buffer after another. */
  ghost function ExecuteOn(s: State<Label>, data: seq<Byte>): State<Label> {
    LlhttpWellFormed();
    Execute(Table(), s, data)
  }

  ghost function Feed(s: State<Label>, pieces: seq<seq<Byte>>): State<Label> {
    LlhttpWellFormed();
    ExecuteAll(Table(), s, pieces)
  }

  /** The parser between two buffers, in a control state outside spans. */
  ghost predicate Between(s: State<Label>) {
    s.error == 0 && s.index == 0 && s.span == None == SpanOf(s.current) && s.held == [] && !NodeOf(s.current).Sequence?
  }

  /** Cutting a stream into buffers changes nothing. */
  lemma AnyCutting(s: State<Label>, pieces: seq<seq<Byte>>)
    requires Between(s) && pieces != []
    ensures SameRun(Feed(s, pieces), ExecuteOn(s, Concat(pieces)))
  {
    LlhttpWellFormed();
    TableFields(s.current);
    FragmentationIndependence(Table(), s, pieces);
  }

  /** `llhttp_execute` on one buffer is the run, and at its end the open span's bytes. */
  lemma OneBuffer(s: State<Label>, data: seq<Byte>)
    requires Between(s)
    ensures ExecuteOn(s, data) == Flush(RunOn(s, data))
  {
    LlhttpWellFormed();
    assert s.(held := []) == s;
  }

  /** What the run refuses is refused however the input is cut. */
  lemma RefusedInPieces(s: State<Label>, pieces: seq<seq<Byte>>)
    requires Between(s) && pieces != [] && RunOn(s, Concat(pieces)).error != 0
    ensures Feed(s, pieces).error == RunOn(s, Concat(pieces)).error
  {
    OneBuffer(s, Concat(pieces));
    AnyCutting(s, pieces);
  }

  lemma ConsumesPart(s: State<Label>, data: seq<Byte>)
    requires NodeOf(s.current).Consume? && s.regs.contentLength > |data|
    ensures RunOn(s, data) == Hold(s.(regs := s.regs.(contentLength := s.regs.contentLength - |data|)), data)
  {
    TableFields(s.current);
    Goes(s, data);
  }

  lemma SpanStartRests(s: State<Label>)
    requires NodeOf(s.current).SpanStart?
    ensures RunOn(s, []) == s
  {
    TableFields(s.current);
    Goes(s, []);
  }

  function To(s: State<Label>, l: Label): State<Label> {
    s.(current := l, regs := s.regs.(matched := 0))
  }

  lemma EmptyHeadersRun(s: State<Label>, rest: seq<Byte>)
    requires s.current == Name(HeaderFieldStart) && s.span == None
    ensures RunOn(s, CRLF + rest) == RunOn(To(s, Headers(HeadersDone)), rest)
  {
    assert CRLF + rest == [CR] + ([LF] + rest);
    Reads(s, CR, [LF] + rest);
    Reads(To(s, Headers(HeadersAlmostDone)), LF, rest);
  }

  lemma ValueLineEnds(s: State<Label>, held: seq<Byte>, rest: seq<Byte>)
    requires s.current == Value(HeaderValueOtherwise) && s.span == Some(OnHeaderValue) && s.held == held
    requires s.regs.matched == 0
    ensures RunOn(s, CRLF + rest) ==
            RunOn(s.(current := Value(HeaderValueLws), span := None, held := [],
                     log := s.log + [Data(OnHeaderValue, held)]), rest)
  {
    var tail := [LF] + rest;
    assert CRLF + rest == [CR] + tail && ([CR] + tail)[1..] == tail;
    Peeks(s, CR, tail);
    EndsSpan(s.(current := Value(SpanEndHeaderValue2)), [CR] + tail);
    Reads(s.(current := Value(HeaderValueAlmostDone), span := None, held := [],
             log := s.log + [Data(OnHeaderValue, held)]), LF, rest);
  }

  /** A line that does not continue the value closes the field. */
  lemma FieldEnds(s: State<Label>, b: Byte, rest: seq<Byte>)
    requires s.current == Value(HeaderValueLws) && s.span == None && b != SP && b != HT
    ensures RunOn(s, [b] + rest) ==
            RunOn(s.(current := Name(HeaderFieldStart), regs := ApplyHeaderState(s.regs.(matched := 0)),
                     log := s.log + [Notify(HeaderValueComplete)]), [b] + rest)
  {
    Peeks(s, b, rest);
    var t := s.(current := Value(EndHeaderValue), regs := s.regs.(matched := 0));
    Invokes(t, [b] + rest);
    Invokes(t.(current := Value(OnHeaderValueComplete), regs := ApplyHeaderState(t.regs)), [b] + rest);
  }
}
