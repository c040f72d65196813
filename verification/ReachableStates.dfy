/** What holds of the llhttp parser after any input, cut in any way. */
module ReachableStates {
  import opened Bytes
  import opened Llparse
  import opened HttpGlue
  import opened Llhttp
  import opened LlhttpSteps

  // ---------------------------------------------------------------- the invariant

  /** Chunks and trailers only under Transfer-Encoding. */
  predicate FlagsOk(f: Flags) {
    (f.chunked ==> f.transferEncoding) && (f.trailing ==> f.transferEncoding)
  }

  /** Content-Length and Transfer-Encoding together only when the parser was told to be lenient. */
  predicate Framed(r: Registers) {
    r.flags.contentLength && r.flags.transferEncoding ==> r.lenient.chunkedLength
  }

  /** `finish`, told from the control state alone. */
  function FinishOf(l: Label): nat {
    match l
    case Begin(Start) | Begin(OnMessageBegin) => FINISH_SAFE
    case Body(SpanStartBody2) | Body(Eof) => FINISH_SAFE_WITH_CB
    case Done(KeepAlive) | Done(Close) | Done(Closed) => FINISH_SAFE
    case _ => FINISH_UNSAFE
  }

  /** Between on_message_begin and on_message_complete? */
  predicate Inside(l: Label) {
    match l
    case Begin(s) => !s.Start? && !s.OnMessageBegin?
    case Done(s) => s.OnMessageComplete? || s.OnMessageComplete1? || s.OnMessageComplete2?
    case _ => true
  }

  /** The field name has been looked up. */
  predicate IsLookedUp(s: NameState) {
    s.HeaderFieldColon? || s.HeaderFieldGeneral? || s.HeaderFieldGeneralOtherwise? || s.SpanEndHeaderField?
    || s.OnHeaderFieldComplete?
  }

  predicate IsChunkState(s: BodyState) {
    !s.OnChunkComplete1? && !s.SpanStartBody1? && !s.ConsumeContentLength1? && !s.SpanEndBody1? && !s.BodyUntilEof?
    && !s.SpanStartBody2? && !s.Eof?
  }

  /** What the registers owe the control state: a stale header_state is never taken for a fresh one,
      chunks are read only if flagged, and a body only if its framing is not in doubt. */
  predicate Owed(l: Label, r: Registers) {
    match l
    case Name(s) => (s.StoreHeaderState? ==> r.matched <= H_UPGRADE) && (IsLookedUp(s) ==> r.headerState <= H_UPGRADE)
    case Value(_) | Connection(_) | Length(_) => r.headerState == H_CHUNKED ==> r.flags.transferEncoding
    case Coding(_) => r.flags.transferEncoding
    case Headers(s) => s.OnHeadersComplete? || s.AfterHeaders? ==> Framed(r)
    case Body(s) => (IsChunkState(s) ==> r.flags.chunked) && (!s.OnChunkComplete1? ==> Framed(r))
    case _ => true
  }

  predicate Keeps(l: Label, r: Registers) {
    l.Failing? || l.Dead? || (FlagsOk(r.flags) && r.finish == FinishOf(l) && Owed(l, r))
  }

  // ---------------------------------------------------------------- one node keeps it

  /** Whether the log leaves a message open; None if a message was begun inside another, or
      completed outside. */
  function Phase(log: seq<Call>): Option<bool> {
    if log == [] then Some(false) else NextPhase(Phase(log[..|log| - 1]), log[|log| - 1])
  }

  function NextPhase(p: Option<bool>, call: Call): Option<bool> {
    if call == Notify(MessageBegin) then (if p == Some(false) then Some(true) else None)
    else if call == Notify(MessageComplete) then (if p == Some(true) then Some(false) else None)
    else p
  }

  lemma PhaseSnoc(log: seq<Call>, call: Call)
    ensures Phase(log + [call]) == NextPhase(Phase(log), call)
  {
    assert (log + [call])[..|log|] == log;
  }

  predicate SamePhase(l: Label, next: Label) {
    next.Failing? || next.Dead? || Inside(next) == Inside(l)
  }

  lemma ApplyKeeps(r: Registers)
    requires FlagsOk(r.flags) && (r.headerState == H_CHUNKED ==> r.flags.transferEncoding)
    ensures var a := ApplyHeaderState(r);
            && FlagsOk(a.flags) && a.flags.transferEncoding == r.flags.transferEncoding && a.finish == r.finish
            && (a.headerState == H_CHUNKED ==> r.flags.transferEncoding)
  {}

  lemma BeginEdgeKeeps(l: Label, b: Byte, r: Registers)
    requires l.Begin? && NodeOf(l) == Switch && Keeps(l, r)
    ensures var e := EdgeOf(l, b); Keeps(e.next, r.(matched := e.matched)) && SamePhase(l, e.next)
  {}

  lemma RequestEdgeStays(s: RequestState, b: Byte)
    ensures var l := RequestEdge(s, b).next; l.Request? || l == Begin(StoreMethod1) || l.Failing? || l.Dead?
  {}

  lemma RequestEdgeKeeps(l: Label, b: Byte, r: Registers)
    requires l.Request? && Keeps(l, r)
    ensures var e := EdgeOf(l, b); Keeps(e.next, r.(matched := e.matched)) && SamePhase(l, e.next)
  {
    RequestEdgeStays(l.request, b);
  }

  lemma VersionEdgeKeeps(l: Label, b: Byte, r: Registers)
    requires l.Version? && NodeOf(l) == Switch && Keeps(l, r)
    ensures var e := EdgeOf(l, b); Keeps(e.next, r.(matched := e.matched)) && SamePhase(l, e.next)
  {}

  lemma OpeningRunKeeps(l: Label, r: Registers)
    requires (l.Begin? || l.Request? || l.Version?) && NodeOf(l).Invoke? && Keeps(l, r)
    ensures var o := RunOf(l, r); Keeps(o.1, o.0)
  {}

  lemma StatusEdgeKeeps(l: Label, b: Byte, r: Registers)
    requires l.Status? && NodeOf(l) == Switch && Keeps(l, r)
    ensures var e := EdgeOf(l, b); Keeps(e.next, r.(matched := e.matched)) && SamePhase(l, e.next)
  {}

  lemma StatusRunKeeps(l: Label, r: Registers)
    requires l.Status? && NodeOf(l).Invoke? && Keeps(l, r)
    ensures var o := RunOf(l, r); Keeps(o.1, o.0)
  {}

  lemma NameEdgeKeeps(l: Label, b: Byte, r: Registers)
    requires l.Name? && NodeOf(l) == Switch && Keeps(l, r)
    ensures var e := EdgeOf(l, b); Keeps(e.next, r.(matched := e.matched)) && SamePhase(l, e.next)
  {}

  lemma NameRunKeeps(l: Label, r: Registers)
    requires l.Name? && NodeOf(l).Invoke? && Keeps(l, r)
    ensures var o := RunOf(l, r); Keeps(o.1, o.0)
  {}

  lemma ValueEdgeKeeps(l: Label, b: Byte, r: Registers)
    requires l.Value? && NodeOf(l) == Switch && Keeps(l, r)
    ensures var e := EdgeOf(l, b); Keeps(e.next, r.(matched := e.matched)) && SamePhase(l, e.next)
  {}

  lemma LoadKeeps(r: Registers)
    requires Keeps(Value(LoadHeaderState2), r)
    ensures var o := ValueRun(LoadHeaderState2, r); Keeps(o.1, o.0)
  {}

  lemma EmptyKeeps(r: Registers)
    requires Keeps(Value(EmptyHeaderValue), r)
    ensures var o := ValueRun(EmptyHeaderValue, r); Keeps(o.1, o.0)
  {
    ApplyKeeps(r);
  }

  lemma ValueRunKeeps(l: Label, r: Registers)
    requires l.Value? && NodeOf(l).Invoke? && Keeps(l, r)
    ensures var o := RunOf(l, r); Keeps(o.1, o.0)
  {
    match l.value
    case LoadHeaderState2 => LoadKeeps(r);
    case EmptyHeaderValue => EmptyKeeps(r);
    case EndHeaderValue => ApplyKeeps(r);
    case _ =>
  }

  lemma ConnectionEdgeKeeps(l: Label, b: Byte, r: Registers)
    requires l.Connection? && NodeOf(l) == Switch && Keeps(l, r)
    ensures var e := EdgeOf(l, b); Keeps(e.next, r.(matched := e.matched)) && SamePhase(l, e.next)
  {}

  lemma EndTokenKeeps(r: Registers)
    requires Keeps(Connection(EndConnectionToken), r)
    ensures var o := ConnectionRun(EndConnectionToken, r); Keeps(o.1, o.0)
  {
    ApplyKeeps(r);
  }

  lemma WordRunKeeps(l: ConnectionState, r: Registers)
    requires l != EndConnectionToken && NodeOf(Connection(l)).Invoke? && Keeps(Connection(l), r)
    ensures var o := ConnectionRun(l, r); Keeps(o.1, o.0)
  {}

  lemma ConnectionRunKeeps(l: Label, r: Registers)
    requires l.Connection? && NodeOf(l).Invoke? && Keeps(l, r)
    ensures var o := RunOf(l, r); Keeps(o.1, o.0)
  {
    if l.connection == EndConnectionToken {
      EndTokenKeeps(r);
    } else {
      WordRunKeeps(l.connection, r);
    }
  }

  lemma FramingEdgeKeeps(l: Label, b: Byte, r: Registers)
    requires (l.Length? || l.Coding? || l.Headers?) && NodeOf(l) == Switch && Keeps(l, r)
    ensures var e := EdgeOf(l, b); Keeps(e.next, r.(matched := e.matched)) && SamePhase(l, e.next)
  {}

  lemma FramingRunKeeps(l: Label, r: Registers)
    requires (l.Length? || l.Coding? || l.Headers?) && NodeOf(l).Invoke? && Keeps(l, r)
    ensures var o := RunOf(l, r); Keeps(o.1, o.0)
  {}

  lemma BodyEdgeKeeps(l: Label, b: Byte, r: Registers)
    requires l.Body? && NodeOf(l) == Switch && Keeps(l, r)
    ensures var e := EdgeOf(l, b); Keeps(e.next, r.(matched := e.matched)) && SamePhase(l, e.next)
  {}

  lemma BodyRunKeeps(l: Label, r: Registers)
    requires l.Body? && NodeOf(l).Invoke? && Keeps(l, r)
    ensures var o := RunOf(l, r); Keeps(o.1, o.0)
  {}

  lemma DoneEdgeKeeps(l: Label, b: Byte, r: Registers)
    requires l.Done? && NodeOf(l) == Switch && Keeps(l, r)
    ensures var e := EdgeOf(l, b); Keeps(e.next, r.(matched := e.matched)) && SamePhase(l, e.next)
  {}

  lemma DoneRunKeeps(l: Label, r: Registers)
    requires l.Done? && NodeOf(l).Invoke? && Keeps(l, r)
    ensures var o := RunOf(l, r); Keeps(o.1, o.0)
  {}

  lemma EdgeKeeps(l: Label, b: Byte, r: Registers)
    requires NodeOf(l) == Switch && Keeps(l, r)
    ensures var e := EdgeOf(l, b); Keeps(e.next, r.(matched := e.matched)) && SamePhase(l, e.next)
  {
    match l
    case Begin(_) => BeginEdgeKeeps(l, b, r);
    case Request(_) => RequestEdgeKeeps(l, b, r);
    case Version(_) => VersionEdgeKeeps(l, b, r);
    case Status(_) => StatusEdgeKeeps(l, b, r);
    case Name(_) => NameEdgeKeeps(l, b, r);
    case Value(_) => ValueEdgeKeeps(l, b, r);
    case Connection(_) => ConnectionEdgeKeeps(l, b, r);
    case Length(_) | Coding(_) | Headers(_) => FramingEdgeKeeps(l, b, r);
    case Body(_) => BodyEdgeKeeps(l, b, r);
    case Done(_) => DoneEdgeKeeps(l, b, r);
    case _ =>
  }

  lemma RunKeeps(l: Label, r: Registers)
    requires NodeOf(l).Invoke? && Keeps(l, r)
    ensures var o := RunOf(l, r); Keeps(o.1, o.0)
  {
    match l
    case Begin(_) | Request(_) | Version(_) => OpeningRunKeeps(l, r);
    case Status(_) => StatusRunKeeps(l, r);
    case Name(_) => NameRunKeeps(l, r);
    case Value(_) => ValueRunKeeps(l, r);
    case Connection(_) => ConnectionRunKeeps(l, r);
    case Length(_) | Coding(_) | Headers(_) => FramingRunKeeps(l, r);
    case Body(_) => BodyRunKeeps(l, r);
    case Done(_) => DoneRunKeeps(l, r);
    case _ =>
  }

  lemma SequenceKeeps(l: Label, r: Registers)
    requires NodeOf(l).Sequence? && Keeps(l, r)
    ensures var n := NodeOf(l);
            Keeps(n.complete, r.(matched := n.matched)) && Keeps(n.mismatch, r) && SamePhase(l, n.complete) &&
              SamePhase(l, n.mismatch)
  {}

  lemma SpanKeeps(l: Label, r: Registers)
    requires (NodeOf(l).SpanStart? || NodeOf(l).SpanEnd?) && Keeps(l, r)
    ensures Keeps(NodeOf(l).next, r) && SamePhase(l, NodeOf(l).next)
  {}

  lemma ConsumeKeeps(l: Label, r: Registers, n: UInt64)
    requires NodeOf(l).Consume? && Keeps(l, r)
    ensures Keeps(NodeOf(l).next, r.(contentLength := n)) && Keeps(l, r.(contentLength := n)) &&
            SamePhase(l, NodeOf(l).next)
  {}

  /** on_message_begin and on_message_complete come just where the control state says. */
  lemma RunPhase(l: Label, r: Registers, phase: Option<bool>)
    requires NodeOf(l).Invoke? && phase == Some(Inside(l))
    ensures var o, call := RunOf(l, r), NodeOf(l).call;
            var after := if call.Some? then NextPhase(phase, Notify(call.value)) else phase;
            after.Some? && (o.1.Failing? || o.1.Dead? || after == Some(Inside(o.1)))
  {}

  ghost predicate Good(s: State<Label>) {
    && s.error == 0 && Fits(Table(), s) && Keeps(s.current, s.regs)
    && Phase(s.log).Some? && (s.current.Failing? || s.current.Dead? || Phase(s.log) == Some(Inside(s.current)))
  }

  /** A parser that stopped: with an error, or waiting for input in a good state. */
  ghost predicate Stopped(s: State<Label>) {
    if s.error != 0 then Phase(s.log).Some? else Good(s) && !NodeOf(s.current).Invoke? && !NodeOf(s.current).Pause?
  }

  lemma ReadIsGood(s: State<Label>, input: seq<Byte>)
    requires Good(s) && (NodeOf(s.current).Switch? || NodeOf(s.current).Sequence? || NodeOf(s.current).Consume?)
    ensures var o := Step(Table(), s, input); if o.Goto? then Good(o.s) else Stopped(o.s)
  {
    LlhttpWellFormed();
    StepFits(Table(), s, input);
    TableFields(s.current);
    match NodeOf(s.current)
    case Switch =>
      if input != [] {
        TableEdges(s.current, input[0]);
        EdgeKeeps(s.current, input[0], s.regs);
      }
    case Sequence(_, _, _, _, _) => SequenceKeeps(s.current, s.regs);
    case Consume(_) =>
      ConsumeKeeps(s.current, s.regs, if |input| < s.regs.contentLength then s.regs.contentLength - |input| else 0);
    case _ =>
  }

  lemma SpanStartIsGood(s: State<Label>, input: seq<Byte>)
    requires Good(s) && NodeOf(s.current).SpanStart?
    ensures var o := Step(Table(), s, input); if o.Goto? then Good(o.s) else Stopped(o.s)
  {
    LlhttpWellFormed();
    StepFits(Table(), s, input);
    TableFields(s.current);
    SpanKeeps(s.current, s.regs);
  }

  lemma SpanEndIsGood(s: State<Label>, input: seq<Byte>)
    requires Good(s) && NodeOf(s.current).SpanEnd?
    ensures var o := Step(Table(), s, input); if o.Goto? then Good(o.s) else Stopped(o.s)
  {
    LlhttpWellFormed();
    StepFits(Table(), s, input);
    TableFields(s.current);
    SpanKeeps(s.current, s.regs);
    ClosingKeepsPhase(s);
  }

  lemma ClosingKeepsPhase(s: State<Label>)
    ensures Phase(CloseSpan(s).log) == Phase(s.log)
  {
    if s.span.Some? {
      PhaseSnoc(s.log, Data(s.span.value, s.held));
    }
  }

  lemma InvokeIsGood(s: State<Label>, input: seq<Byte>)
    requires Good(s) && (NodeOf(s.current).Invoke? || NodeOf(s.current).Pause?)
    ensures var o := Step(Table(), s, input); if o.Goto? then Good(o.s) else Stopped(o.s)
  {
    LlhttpWellFormed();
    StepFits(Table(), s, input);
    TableFields(s.current);
    if NodeOf(s.current).Invoke? {
      TableRuns(s.current, s.regs);
      RunKeeps(s.current, s.regs);
      RunPhase(s.current, s.regs, Phase(s.log));
      if NodeOf(s.current).call.Some? {
        PhaseSnoc(s.log, Notify(NodeOf(s.current).call.value));
      }
    }
  }

  lemma StepIsGood(s: State<Label>, input: seq<Byte>)
    requires Good(s)
    ensures var o := Step(Table(), s, input); if o.Goto? then Good(o.s) else Stopped(o.s)
  {
    match NodeOf(s.current)
    case Switch | Sequence(_, _, _, _, _) | Consume(_) => ReadIsGood(s, input);
    case SpanStart(_, _) => SpanStartIsGood(s, input);
    case SpanEnd(_, _) => SpanEndIsGood(s, input);
    case _ => InvokeIsGood(s, input);
  }

  lemma {:induction false} RunIsGood(s: State<Label>, input: seq<Byte>)
    requires Good(s)
    ensures Stopped(RunOn(s, input))
    decreases |input|, RankOf(s.current)
  {
    StepIsGood(s, input);
    LlhttpWellFormed();
    StepDescends(Table(), s, input);
    var o := Step(Table(), s, input);
    Goes(s, input);
    if o.Goto? {
      TableFields(s.current);
      TableFields(o.s.current);
      RunIsGood(o.s, input[o.n..]);
    }
  }

  lemma FlushIsGood(s: State<Label>)
    requires Stopped(s)
    ensures Stopped(Flush(s)) && Flush(s).held == []
  {
    if s.span.Some? {
      PhaseSnoc(s.log, Data(s.span.value, s.held));
    }
  }

  lemma {:induction false} FeedIsGood(s: State<Label>, pieces: seq<seq<Byte>>)
    requires Stopped(s) && s.held == []
    ensures Stopped(Feed(s, pieces))
    decreases |pieces|
  {
    LlhttpWellFormed();
    if pieces != [] {
      var t := Execute(Table(), s, pieces[0]);
      if s.error == 0 {
        assert s.(held := []) == s;
        RunIsGood(s, pieces[0]);
        FlushIsGood(RunOn(s, pieces[0]));
      }
      FeedIsGood(t, pieces[1..]);
    }
  }

  // ---------------------------------------------------------------- what it means

  lemma InitIsGood(kind: nat, lenient: Lenient)
    ensures Stopped(Init(kind, lenient)) && Init(kind, lenient).held == []
  {
    TableFields(Begin(Start));
  }

  /** After any input, cut in any way: messages begin and complete in turn; and unless the parser
      has failed, chunked and trailing are flagged only under Transfer-Encoding, `finish` is told by
      the control state, chunks are read only if chunked is flagged, and the parser is at a body only if
      the header block did not hold both Content-Length and Transfer-Encoding, or it was told to be
      lenient. */
  lemma EveryReachableState(kind: nat, lenient: Lenient, pieces: seq<seq<Byte>>)
    ensures var s := Feed(Init(kind, lenient), pieces);
            && Phase(s.log).Some?
            && (s.error == 0 ==>
                  && FlagsOk(s.regs.flags) && s.regs.finish == FinishOf(s.current)
                  && Phase(s.log) == Some(Inside(s.current))
                  && (s.current.Body? && !s.current.body.OnChunkComplete1? ==> Framed(s.regs))
                  && (s.current.Body? && IsChunkState(s.current.body) ==> s.regs.flags.chunked)
                  && (s.span == Some(OnBody) ==> Framed(s.regs)))
  {
    InitIsGood(kind, lenient);
    FeedIsGood(Init(kind, lenient), pieces);
    var s := Feed(Init(kind, lenient), pieces);
    TableFields(s.current);
  }

  // ---------------------------------------------------------------- every step of a run

  /** One step hands body bytes to their callback. */
  ghost predicate Delivers(s: State<Label>, t: State<Label>) {
    s.span == Some(OnBody) && t.log == s.log + [Data(OnBody, s.held)]
  }

  /** Every step of the run, up to the flush at its end, that adds body bytes to the log starts with the
      framing of the message not in doubt. */
  ghost predicate DeliversFramed(s: State<Label>, input: seq<Byte>)
    decreases |input|, RankOf(s.current)
  {
    var o := Step(Table(), s, input);
    Descends(s, input);
    && (AddsBody(s, o.s) ==> Delivers(s, o.s) && Framed(s.regs))
    && if o.Goto? then DeliversFramed(o.s, input[o.n..]) else AddsBody(o.s, Flush(o.s)) ==> Framed(o.s.regs)
  }

  /** The last call is of body bytes, and new. */
  ghost predicate AddsBody(s: State<Label>, t: State<Label>) {
    t.log != s.log && t.log != [] && t.log[|t.log| - 1].Data? && t.log[|t.log| - 1].span == OnBody
  }

  /** A node adds to the log when it ends a span, or when it is notified of. */
  lemma AddsWhatItHeld(s: State<Label>, input: seq<Byte>)
    ensures var t := Step(Table(), s, input).s;
            AddsBody(s, t) ==> Delivers(s, t) && NodeOf(s.current).SpanEnd?
  {
    TableFields(s.current);
  }

  lemma BodyIsFramed(s: State<Label>)
    requires Good(s) && s.span == Some(OnBody) && !NodeOf(s.current).Pause?
    ensures Framed(s.regs)
  {
    TableFields(s.current);
  }

  lemma {:induction false} RunDeliversFramed(s: State<Label>, input: seq<Byte>)
    requires Good(s)
    ensures DeliversFramed(s, input)
    decreases |input|, RankOf(s.current)
  {
    AddsWhatItHeld(s, input);
    Descends(s, input);
    StepIsGood(s, input);
    var o := Step(Table(), s, input);
    if s.span == Some(OnBody) && !NodeOf(s.current).Pause? {
      BodyIsFramed(s);
    }
    if o.Goto? {
      RunDeliversFramed(o.s, input[o.n..]);
    } else if o.s.error == 0 && o.s.span == Some(OnBody) {
      BodyIsFramed(o.s);
    }
  }

  /** Whatever has come before: in the next call of execute each step that hands body bytes to their
      callback, be it but one byte, is taken with the framing of the message not in doubt. */
  lemma EveryDelivery(kind: nat, lenient: Lenient, pieces: seq<seq<Byte>>, data: seq<Byte>)
    ensures var s := Feed(Init(kind, lenient), pieces); s.error == 0 ==> DeliversFramed(s, data)
  {
    InitIsGood(kind, lenient);
    FeedIsGood(Init(kind, lenient), pieces);
    var s := Feed(Init(kind, lenient), pieces);
    if s.error == 0 {
      RunDeliversFramed(s, data);
    }
  }

  /** `llhttp_finish`: the code it returns and what the callbacks have been told then. */
  function Finish(s: State<Label>): (nat, seq<Call>) {
    if s.error != 0 then (0, s.log)
    else if s.regs.finish == FINISH_SAFE_WITH_CB then (0, s.log + [Notify(MessageComplete)])
    else if s.regs.finish == FINISH_SAFE then (0, s.log)
    else (INVALID_EOF_STATE, s.log)
  }

  const INVALID_EOF_STATE := 14

  /** Where the parser waits for input, `finish` tells whether it waits inside a message. */
  lemma FinishTells(l: Label)
    requires !NodeOf(l).Invoke? && !NodeOf(l).Pause?
    ensures Inside(l) <==> FinishOf(l) != FINISH_SAFE
  {}

  /** The parser is in a body that runs to the end of the connection. */
  predicate ReadsToEnd(l: Label) { l == Body(SpanStartBody2) || l == Body(Eof) }

  /** What ending the connection comes to: nothing between messages or behind an error; a complete message,
      if that is what it waits for; or an error. */
  ghost predicate EndsAs(s: State<Label>) {
    Finish(s) == if s.error != 0 || Phase(s.log) == Some(false) then (0, s.log)
                 else if ReadsToEnd(s.current) then (0, s.log + [Notify(MessageComplete)])
                 else (INVALID_EOF_STATE, s.log)
  }

  lemma EndsIffComplete(s: State<Label>)
    requires s.error == 0 && s.regs.finish == FinishOf(s.current) && Phase(s.log) == Some(Inside(s.current))
    requires !NodeOf(s.current).Invoke? && !NodeOf(s.current).Pause?
    ensures (Finish(s).0 == 0 <==> Phase(Finish(s).1) == Some(false)) && EndsAs(s)
  {
    FinishTells(s.current);
    PhaseSnoc(s.log, Notify(MessageComplete));
  }

  /** Unless the parser has failed, ending the connection is fine exactly when that cuts no message
      short: each one begun has been completed, by its framing or by the end itself. */
  lemma FinishIffComplete(kind: nat, lenient: Lenient, pieces: seq<seq<Byte>>)
    ensures var s := Feed(Init(kind, lenient), pieces);
            s.error == 0 ==> (Finish(s).0 == 0 <==> Phase(Finish(s).1) == Some(false))
    ensures EndsAs(Feed(Init(kind, lenient), pieces))
  {
    InitIsGood(kind, lenient);
    FeedIsGood(Init(kind, lenient), pieces);
    var s := Feed(Init(kind, lenient), pieces);
    if s.error == 0 {
      EndsIffComplete(s);
    }
  }
}
