/** What the registers hold where a message begins: no flags, and content_length clear unless an earlier
    message has left something there. */
module MessageStarts {
  import opened Bytes
  import opened Llparse
  import opened HttpGlue
  import opened Llhttp
  import opened LlhttpSteps
  import opened ReachableStates

  /** The states before a header block, in which no flag is set. */
  predicate IsOpening(l: Label) {
    match l
    case Begin(_) | Request(_) | Version(_) | Status(_) => true
    case Done(s) => s.KeepAlive? || s.Close? || s.Closed?
    case _ => false
  }

  /** The states in which the method is being read, or just has been. */
  predicate IsMethod(l: Label) {
    l.Request? || (l.Begin? && l.begin.StoreMethod1?)
  }

  /** The states in which the parser finds out whether it reads a request or a response. */
  predicate IsUndecided(l: Label) {
    l.Begin? && !l.begin.Start? && !l.begin.OnMessageBegin? && !l.begin.LoadType? && !l.begin.StoreMethod1?
  }

  /** A callback cannot ask for the body to be skipped; a request has a method, nothing else does. */
  predicate Opened(l: Label, r: Registers) {
    && !r.flags.skipBody && (r.kind != HTTP_REQUEST ==> r.verb == 0)
    && (IsOpening(l) ==> r.flags == NO_FLAGS)
    && (IsMethod(l) ==> r.kind == HTTP_REQUEST) && (IsUndecided(l) ==> r.kind != HTTP_REQUEST)
  }

  /** While the first message lasts: content_length is clear up to its Content-Length field. */
  predicate Early(l: Label, r: Registers) {
    match l
    case Begin(_) | Request(_) | Version(_) | Status(_) => r.contentLength == 0
    case Name(_) | Value(_) | Connection(_) | Coding(_) | Headers(_) =>
      r.flags.trailing || r.flags.contentLength || r.contentLength == 0
    case Done(s) => s.OnMessageComplete? || s.OnMessageComplete1? || s.OnMessageComplete2?
    case _ => true
  }

  /** past: a message has been completed. */
  predicate Starts(l: Label, r: Registers, past: bool) {
    l.Failing? || l.Dead? || (Opened(l, r) && (past || Early(l, r)))
  }

  // ---------------------------------------------------------------- one node keeps it

  lemma OpeningEdgeStarts(l: Label, b: Byte, r: Registers, past: bool)
    requires (l.Begin? || l.Request? || l.Version? || l.Status?) && NodeOf(l) == Switch && Starts(l, r, past)
    ensures var e := EdgeOf(l, b); Starts(e.next, r.(matched := e.matched), past)
  {}

  lemma OpeningRunStarts(l: Label, r: Registers, past: bool)
    requires (l.Begin? || l.Request? || l.Version? || l.Status?) && NodeOf(l).Invoke? && Starts(l, r, past)
    ensures var o := RunOf(l, r); Starts(o.1, o.0, past)
  {}

  lemma NameEdgeStarts(l: Label, b: Byte, r: Registers, past: bool)
    requires l.Name? && NodeOf(l) == Switch && Starts(l, r, past)
    ensures var e := EdgeOf(l, b); Starts(e.next, r.(matched := e.matched), past)
  {}

  lemma ValueEdgeStarts(l: Label, b: Byte, r: Registers, past: bool)
    requires (l.Value? || l.Connection?) && NodeOf(l) == Switch && Starts(l, r, past)
    ensures var e := EdgeOf(l, b); Starts(e.next, r.(matched := e.matched), past)
  {}

  lemma FramingEdgeStarts(l: Label, b: Byte, r: Registers, past: bool)
    requires (l.Length? || l.Coding? || l.Headers?) && NodeOf(l) == Switch && Starts(l, r, past)
    ensures var e := EdgeOf(l, b); Starts(e.next, r.(matched := e.matched), past)
  {}

  lemma BodyEdgeStarts(l: Label, b: Byte, r: Registers, past: bool)
    requires (l.Body? || l.Done?) && NodeOf(l) == Switch && Starts(l, r, past)
    ensures var e := EdgeOf(l, b); Starts(e.next, r.(matched := e.matched), past)
  {}

  /** Nothing that matters here differs. */
  predicate SameStart(r: Registers, a: Registers) {
    && a.kind == r.kind && a.verb == r.verb && a.contentLength == r.contentLength
    && a.flags.skipBody == r.flags.skipBody && a.flags.trailing == r.flags.trailing
    && a.flags.contentLength == r.flags.contentLength
  }

  lemma ApplyIsSame(r: Registers)
    ensures SameStart(r, ApplyHeaderState(r))
  {}

  predicate IsInField(l: Label) {
    l.Name? || l.Value? || l.Connection? || l.Length? || l.Coding?
  }

  lemma FieldStays(l: Label, r: Registers, next: Label, a: Registers, past: bool)
    requires (l.Value? || l.Connection?) && Starts(l, r, past) && SameStart(r, a)
    requires IsInField(next) || next.Failing? || next.Dead?
    ensures Starts(next, a, past)
  {}

  lemma LoadStays(r: Registers)
    ensures var o := ValueRun(LoadHeaderState2, r); SameStart(r, o.0) && (IsInField(o.1) || o.1.Failing? || o.1.Dead?)
  {}

  lemma EmptyStays(r: Registers)
    ensures var o := ValueRun(EmptyHeaderValue, r); SameStart(r, o.0) && (IsInField(o.1) || o.1.Failing? || o.1.Dead?)
  {
    ApplyIsSame(r);
  }

  lemma ValueRunStays(s: ValueState, r: Registers)
    ensures var o := ValueRun(s, r); SameStart(r, o.0) && (IsInField(o.1) || o.1.Failing? || o.1.Dead?)
  {
    match s
    case LoadHeaderState2 => LoadStays(r);
    case EmptyHeaderValue => EmptyStays(r);
    case EndHeaderValue => ApplyIsSame(r);
    case _ =>
  }

  lemma ConnectionRunStays(s: ConnectionState, r: Registers)
    ensures var o := ConnectionRun(s, r); SameStart(r, o.0) && (IsInField(o.1) || o.1.Failing? || o.1.Dead?)
  {
    ApplyIsSame(r);
  }

  lemma NameRunStarts(l: Label, r: Registers, past: bool)
    requires l.Name? && NodeOf(l).Invoke? && Starts(l, r, past)
    ensures var o := RunOf(l, r); Starts(o.1, o.0, past)
  {}

  lemma ValueRunStarts(l: Label, r: Registers, past: bool)
    requires l.Value? && Starts(l, r, past)
    ensures var o := RunOf(l, r); Starts(o.1, o.0, past)
  {
    var o := ValueRun(l.value, r);
    ValueRunStays(l.value, r);
    FieldStays(l, r, o.1, o.0, past);
  }

  lemma ConnectionRunStarts(l: Label, r: Registers, past: bool)
    requires l.Connection? && Starts(l, r, past)
    ensures var o := RunOf(l, r); Starts(o.1, o.0, past)
  {
    var o := ConnectionRun(l.connection, r);
    ConnectionRunStays(l.connection, r);
    FieldStays(l, r, o.1, o.0, past);
  }

  lemma FramingRunStarts(l: Label, r: Registers, past: bool)
    requires (l.Length? || l.Coding? || l.Headers?) && NodeOf(l).Invoke? && Starts(l, r, past)
    ensures var o := RunOf(l, r); Starts(o.1, o.0, past)
  {}

  lemma BodyRunStarts(l: Label, r: Registers, past: bool)
    requires l.Body? && NodeOf(l).Invoke? && Starts(l, r, past)
    ensures var o := RunOf(l, r); Starts(o.1, o.0, past)
  {}

  lemma DoneRunStarts(l: Label, r: Registers, past: bool)
    requires l.Done? && NodeOf(l).Invoke? && Starts(l, r, past)
    ensures var o := RunOf(l, r); Starts(o.1, o.0, past || NodeOf(l).call == Some(MessageComplete))
  {}

  lemma EdgeStarts(l: Label, b: Byte, r: Registers, past: bool)
    requires NodeOf(l) == Switch && Starts(l, r, past)
    ensures var e := EdgeOf(l, b); Starts(e.next, r.(matched := e.matched), past)
  {
    match l
    case Begin(_) | Request(_) | Version(_) | Status(_) => OpeningEdgeStarts(l, b, r, past);
    case Name(_) => NameEdgeStarts(l, b, r, past);
    case Value(_) | Connection(_) => ValueEdgeStarts(l, b, r, past);
    case Length(_) | Coding(_) | Headers(_) => FramingEdgeStarts(l, b, r, past);
    case Body(_) | Done(_) => BodyEdgeStarts(l, b, r, past);
    case _ =>
  }

  lemma MorePast(l: Label, r: Registers, past: bool, more: bool)
    requires Starts(l, r, past)
    ensures Starts(l, r, past || more)
  {}

  lemma RunStarts(l: Label, r: Registers, past: bool)
    requires NodeOf(l).Invoke? && Starts(l, r, past)
    ensures var o := RunOf(l, r); Starts(o.1, o.0, past || NodeOf(l).call == Some(MessageComplete))
  {
    var o, completes := RunOf(l, r), NodeOf(l).call == Some(MessageComplete);
    match l
    case Begin(_) | Request(_) | Version(_) | Status(_) =>
      OpeningRunStarts(l, r, past);
      MorePast(o.1, o.0, past, completes);
    case Name(_) =>
      NameRunStarts(l, r, past);
      MorePast(o.1, o.0, past, completes);
    case Value(_) =>
      ValueRunStarts(l, r, past);
      MorePast(o.1, o.0, past, completes);
    case Connection(_) =>
      ConnectionRunStarts(l, r, past);
      MorePast(o.1, o.0, past, completes);
    case Length(_) | Coding(_) | Headers(_) =>
      FramingRunStarts(l, r, past);
      MorePast(o.1, o.0, past, completes);
    case Body(_) =>
      BodyRunStarts(l, r, past);
      MorePast(o.1, o.0, past, completes);
    case Done(_) => DoneRunStarts(l, r, past);
    case _ =>
  }

  lemma SequenceStarts(l: Label, r: Registers, past: bool)
    requires NodeOf(l).Sequence? && Starts(l, r, past)
    ensures var n := NodeOf(l); Starts(n.complete, r.(matched := n.matched), past) && Starts(n.mismatch, r, past)
  {}

  lemma SpanStarts(l: Label, r: Registers, past: bool)
    requires (NodeOf(l).SpanStart? || NodeOf(l).SpanEnd?) && Starts(l, r, past)
    ensures Starts(NodeOf(l).next, r, past)
  {}

  lemma ConsumeStarts(l: Label, r: Registers, n: UInt64, past: bool)
    requires NodeOf(l).Consume? && Starts(l, r, past)
    ensures Starts(NodeOf(l).next, r.(contentLength := n), past) && Starts(l, r.(contentLength := n), past)
  {}

  // ---------------------------------------------------------------- runs keep it

  /** A message has been completed. */
  predicate Past(log: seq<Call>) { Notify(MessageComplete) in log }

  ghost predicate Tidy(s: State<Label>) {
    s.error == 0 ==> Starts(s.current, s.regs, Past(s.log))
  }

  lemma ReadIsTidy(s: State<Label>, input: seq<Byte>)
    requires s.error == 0 && Tidy(s) &&
             (NodeOf(s.current).Switch? || NodeOf(s.current).Sequence? || NodeOf(s.current).Consume?)
    ensures Tidy(Step(Table(), s, input).s)
  {
    TableFields(s.current);
    match NodeOf(s.current)
    case Switch =>
      if input != [] {
        TableEdges(s.current, input[0]);
        EdgeStarts(s.current, input[0], s.regs, Past(s.log));
      }
    case Sequence(_, _, _, _, _) => SequenceStarts(s.current, s.regs, Past(s.log));
    case Consume(_) =>
      ConsumeStarts(s.current, s.regs, if |input| < s.regs.contentLength then s.regs.contentLength - |input| else 0,
                    Past(s.log));
    case _ =>
  }

  lemma OtherIsTidy(s: State<Label>, input: seq<Byte>)
    requires s.error == 0 && Tidy(s) &&
             (NodeOf(s.current).SpanStart? || NodeOf(s.current).SpanEnd? || NodeOf(s.current).Invoke?)
    ensures Tidy(Step(Table(), s, input).s)
  {
    TableFields(s.current);
    match NodeOf(s.current)
    case Invoke(call) =>
      TableRuns(s.current, s.regs);
      RunStarts(s.current, s.regs, Past(s.log));
      assert call.Some? ==> Past(s.log + [Notify(call.value)]) == (Past(s.log) || call == Some(MessageComplete));
    case _ => SpanStarts(s.current, s.regs, Past(s.log));
  }

  lemma StepIsTidy(s: State<Label>, input: seq<Byte>)
    requires s.error == 0 && Tidy(s)
    ensures Tidy(Step(Table(), s, input).s)
  {
    match NodeOf(s.current)
    case Switch | Sequence(_, _, _, _, _) | Consume(_) => ReadIsTidy(s, input);
    case Pause(_, _) => TableFields(s.current);
    case _ => OtherIsTidy(s, input);
  }

  lemma {:induction false} RunIsTidy(s: State<Label>, input: seq<Byte>)
    requires s.error == 0 && Tidy(s)
    ensures Tidy(RunOn(s, input))
    decreases |input|, RankOf(s.current)
  {
    StepIsTidy(s, input);
    GoesReading(s, input);
    Descends(s, input);
    Goes(s, input);
    var o := Step(Table(), s, input);
    if o.Goto? {
      RunIsTidy(o.s, input[o.n..]);
    }
  }

  lemma {:induction false} FeedIsTidy(s: State<Label>, pieces: seq<seq<Byte>>)
    requires Tidy(s) && s.held == []
    ensures Tidy(Feed(s, pieces))
    decreases |pieces|
  {
    LlhttpWellFormed();
    if pieces != [] {
      var t := Execute(Table(), s, pieces[0]);
      if s.error == 0 {
        assert s.(held := []) == s;
        RunIsTidy(s, pieces[0]);
      }
      FeedIsTidy(t, pieces[1..]);
    }
  }

  // ---------------------------------------------------------------- what it means

  /** Where a message begins, whatever has come before: the parser holds nothing back, no flag is set, a
      parser of responses has no method; and while no message has been completed, content_length is
      clear. */
  lemma EveryStart(kind: nat, lenient: Lenient, pieces: seq<seq<Byte>>)
    ensures var s := Feed(Init(kind, lenient), pieces);
            s.error == 0 && s.current == Begin(Start) ==>
              && Between(s) && s.regs.flags == NO_FLAGS && (s.regs.kind != HTTP_REQUEST ==> s.regs.verb == 0)
              && (!Past(s.log) ==> s.regs.contentLength == 0)
  {
    InitIsGood(kind, lenient);
    FeedIsGood(Init(kind, lenient), pieces);
    FeedIsTidy(Init(kind, lenient), pieces);
    TableFields(Begin(Start));
  }

  /** While no message has been completed, content_length is clear at every header field, of its header
      block, before the one that sets it. */
  lemma ClearBeforeLength(kind: nat, lenient: Lenient, pieces: seq<seq<Byte>>)
    ensures var s := Feed(Init(kind, lenient), pieces);
            s.error == 0 && !Past(s.log) && s.current.Name? && !s.regs.flags.trailing && !s.regs.flags.contentLength ==>
              s.regs.contentLength == 0
  {
    FeedIsTidy(Init(kind, lenient), pieces);
  }

  /** No input asks for a body to be skipped. */
  lemma NeverSkips(kind: nat, lenient: Lenient, pieces: seq<seq<Byte>>)
    ensures var s := Feed(Init(kind, lenient), pieces); s.error == 0 ==> !s.regs.flags.skipBody
  {
    InitIsGood(kind, lenient);
    FeedIsGood(Init(kind, lenient), pieces);
    FeedIsTidy(Init(kind, lenient), pieces);
  }
}
