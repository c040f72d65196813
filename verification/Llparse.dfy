/** The node kinds an llparse-generated parser is made of, and the loop that runs them.
    A parser is a program: a map from control states to nodes.  Everything in this module
    holds of every program whose jumps that read nothing go down in rank. */
module Llparse {
  import opened Bytes

  type UInt64 = n: int | 0 <= n < 0x1_0000_0000_0000_0000

  type Errno = n: nat | n != 0 witness 1

  /** The span callbacks and the notifications of `llhttp_settings_t`. */
  datatype Span = OnUrl | OnStatus | OnHeaderField | OnHeaderValue | OnBody
  datatype Mark =
    | MessageBegin | UrlComplete | StatusComplete | HeaderFieldComplete | HeaderValueComplete
    | HeadersComplete | ChunkHeader | ChunkComplete | MessageComplete
  datatype Call = Data(span: Span, bytes: seq<Byte>) | Notify(mark: Mark)

  /** The bits of `flags`, and of `lenient_flags`. */
  datatype Flags = Flags(keepAlive: bool, close: bool, connectionUpgrade: bool, chunked: bool, upgrade: bool,
                         contentLength: bool, skipBody: bool, trailing: bool, transferEncoding: bool)
  datatype Lenient = Lenient(headers: bool, chunkedLength: bool, keepAlive: bool)

  /** The scalar members of `llhttp_t` that the nodes read and write.  `matched` is the local
      variable `match`, set by one node and read only by the next. */
  datatype Registers = Registers(
    matched: nat, contentLength: UInt64, kind: nat, verb: nat, httpMajor: nat, httpMinor: nat,
    headerState: nat, lenient: Lenient, upgrade: bool, finish: nat, flags: Flags, statusCode: nat)

  datatype Fold = Exact | ToLower | ToLowerUnsafe

  datatype Edge<+L> = Edge(advance: bool, matched: nat, next: L)

  datatype Node<+L> =
    | Switch
    | Sequence(fold: Fold, blob: seq<Byte>, matched: nat, complete: L, mismatch: L)
    | SpanStart(span: Span, next: L)
    | SpanEnd(advance: bool, next: L)
    | Consume(next: L)
    | Invoke(call: Option<Mark>)
    | Pause(code: Errno, resume: L)

  /** The node of every control state; where a Switch goes on a byte; what an Invoke does to the
      registers and where it goes; and, for the proofs, a rank and the span open there. */
  datatype Program<!L> = Program(
    node: L -> Node<L>, edge: (L, Byte) -> Edge<L>, run: (L, Registers) -> (Registers, L),
    rank: L -> nat, open: L -> Option<Span>)

  /** What survives between two calls of `llhttp__internal_execute`, and the bytes of the open
      span not yet handed to its callback (`_span_pos0` up to p; none between two calls). */
  datatype State<+L> = State(
    current: L, index: nat, regs: Registers, span: Option<Span>, held: seq<Byte>, error: nat, log: seq<Call>)

  // ---------------------------------------------------------------- the sequence matchers

  function FoldByte(fold: Fold, b: Byte): Byte {
    match fold
    case Exact => b
    case ToLower => if 'A' as int <= b <= 'Z' as int then b + 0x20 else b
    case ToLowerUnsafe => if (b / 0x20) % 2 == 0 then b + 0x20 else b   // b | 0x20
  }

  datatype MatchResult = MatchComplete(p: nat) | MatchPause(index: nat) | MatchMismatch(p: nat)

  /** `llparse__match_sequence_*`: p is the last byte of a complete match, or the first byte that
      does not match. */
  function Match(fold: Fold, blob: seq<Byte>, index: nat, input: seq<Byte>): (m: MatchResult)
    ensures m.MatchComplete? || m.MatchMismatch? ==> m.p < |input|
    ensures m.MatchPause? && index < |blob| ==> m.index == index + |input| < |blob|
    decreases |input|
  {
    if input == [] then MatchPause(index)
    else if index < |blob| && FoldByte(fold, input[0]) == blob[index] then
      if index + 1 == |blob| then MatchComplete(0) else Later(Match(fold, blob, index + 1, input[1..]), 1)
    else MatchMismatch(0)
  }

  function Later(m: MatchResult, n: nat): MatchResult {
    match m
    case MatchComplete(p) => MatchComplete(p + n)
    case MatchMismatch(p) => MatchMismatch(p + n)
    case MatchPause(_) => m
  }

  /** The bytes spell the blob, in any case the fold forgets. */
  predicate Spells(fold: Fold, bytes: seq<Byte>, blob: seq<Byte>) {
    |bytes| == |blob| && (bytes != [] ==> FoldByte(fold, bytes[0]) == blob[0] && Spells(fold, bytes[1..], blob[1..]))
  }

  lemma {:induction false} SpellsParts(fold: Fold, a: seq<Byte>, b: seq<Byte>, x: seq<Byte>, y: seq<Byte>)
    requires |a| == |x|
    ensures Spells(fold, a + b, x + y) <==> Spells(fold, a, x) && Spells(fold, b, y)
    decreases |a|
  {
    if a == [] {
      assert a + b == b && x + y == y;
    } else {
      assert (a + b)[1..] == a[1..] + b && (x + y)[1..] == x[1..] + y;
      SpellsParts(fold, a[1..], b, x[1..], y);
    }
  }

  /** A matcher completes exactly on the bytes that spell its blob from index on. */
  lemma {:induction false} MatchIsSpelling(fold: Fold, blob: seq<Byte>, index: nat, input: seq<Byte>)
    requires index < |blob|
    ensures var need := |blob| - index;
            var m := Match(fold, blob, index, input);
            && (m.MatchComplete? <==> need <= |input| && Spells(fold, input[..need], blob[index..]))
            && (m.MatchComplete? ==> m.p == need - 1)
    decreases |input|
  {
    var need := |blob| - index;
    if input != [] {
      if need > 1 {
        MatchIsSpelling(fold, blob, index + 1, input[1..]);
      }
      if need <= |input| {
        assert input[..need][1..] == input[1..][..need - 1];
        assert blob[index..][1..] == blob[index + 1..];
      }
    }
  }

  /** What a matcher has read when it gives up is spelled right. */
  lemma {:induction false} MismatchIsLate(fold: Fold, blob: seq<Byte>, index: nat, input: seq<Byte>)
    requires index < |blob|
    ensures var m := Match(fold, blob, index, input);
            m.MatchMismatch? ==> index + m.p <= |blob| && Spells(fold, input[..m.p], blob[index..index + m.p])
    decreases |input|
  {
    var m := Match(fold, blob, index, input);
    if m.MatchMismatch? && m.p > 0 {
      MismatchIsLate(fold, blob, index + 1, input[1..]);
      assert input[..m.p][1..] == input[1..][..m.p - 1];
      assert blob[index..index + m.p][1..] == blob[index + 1..index + m.p];
    }
  }

  lemma {:induction false} MatchResumes(fold: Fold, blob: seq<Byte>, index: nat, a: seq<Byte>, b: seq<Byte>)
    ensures var m := Match(fold, blob, index, a);
            Match(fold, blob, index, a + b) ==
            if m.MatchPause? then Later(Match(fold, blob, m.index, b), |a|) else m
    decreases |a|
  {
    if a == [] {
      assert a + b == b;
    } else {
      assert (a + b)[1..] == a[1..] + b;
      MatchResumes(fold, blob, index + 1, a[1..], b);
    }
  }

  // ---------------------------------------------------------------- one node, and a whole run

  /** Stop leaves `llhttp__internal__run`; Goto has read n bytes and jumps to the next node. */
  datatype Outcome<+L> = Stop(s: State<L>) | Goto(s: State<L>, n: nat)

  function Hold<L>(s: State<L>, bytes: seq<Byte>): State<L> {
    if s.span.Some? then s.(held := s.held + bytes) else s
  }

  function CloseSpan<L>(s: State<L>): State<L> {
    if s.span.Some? then s.(span := None, held := [], log := s.log + [Data(s.span.value, s.held)]) else s
  }

  function AfterMatch<L>(s: State<L>, m: MatchResult, matched: nat, complete: L, mismatch: L): State<L> {
    match m
    case MatchComplete(_) => s.(index := 0, current := complete, regs := s.regs.(matched := matched))
    case MatchPause(i) => s.(index := i)
    case MatchMismatch(_) => s.(index := 0, current := mismatch)
  }

  function Step<L>(prog: Program<L>, s: State<L>, input: seq<Byte>): (o: Outcome<L>)
    ensures o.Goto? ==> o.n <= |input|
  {
    match prog.node(s.current)
    case Switch =>
      if input == [] then Stop(s) else
        var e := prog.edge(s.current, input[0]);
        var t := s.(current := e.next, regs := s.regs.(matched := e.matched));
        if e.advance then Goto(Hold(t, input[..1]), 1) else Goto(t, 0)
    case Sequence(fold, blob, matched, complete, mismatch) =>
      if input == [] then Stop(s) else
        var m := Match(fold, blob, s.index, input);
        var t := AfterMatch(s, m, matched, complete, mismatch);
        if m.MatchPause? then Stop(Hold(t, input))
        else var n := if m.MatchComplete? then m.p + 1 else m.p; Goto(Hold(t, input[..n]), n)
    case SpanStart(span, next) =>
      if input == [] then Stop(s) else Goto(s.(current := next, span := Some(span), held := []), 0)
    case SpanEnd(advance, next) =>
      // `p++` in a span end always follows a look at `*p`, so this pause is never taken
      if advance && input == [] then Stop(s) else
        Goto(CloseSpan(s).(current := next), if advance then 1 else 0)
    case Consume(next) =>
      var need := s.regs.contentLength;
      if |input| >= need
      then Goto(Hold(s.(current := next, regs := s.regs.(contentLength := 0)), input[..need]), need)
      else Stop(Hold(s.(regs := s.regs.(contentLength := need - |input|)), input))
    case Invoke(call) =>
      var r := prog.run(s.current, s.regs);
      Goto(s.(current := r.1, regs := r.0, log := if call.Some? then s.log + [Notify(call.value)] else s.log), 0)
    case Pause(code, resume) =>
      Stop(s.(current := resume, error := code))
  }

  ghost predicate JumpOk<L>(prog: Program<L>, l: L, advance: bool, open: Option<Span>, next: L) {
    (advance || prog.rank(next) < prog.rank(l)) && (prog.node(next).Pause? || prog.open(next) == open)
  }

  ghost predicate NodeOk<L(!new)>(prog: Program<L>, l: L) {
    match prog.node(l)
    case Switch =>
      forall b :: JumpOk(prog, l, prog.edge(l, b).advance, prog.open(l), prog.edge(l, b).next)
    case Sequence(_, blob, _, complete, mismatch) =>
      blob != [] && JumpOk(prog, l, true, prog.open(l), complete) && JumpOk(prog, l, false, prog.open(l), mismatch)
    case SpanStart(span, next) => prog.open(l) == None && JumpOk(prog, l, false, Some(span), next)
    case SpanEnd(advance, next) => prog.open(l).Some? && JumpOk(prog, l, advance, None, next)
    case Consume(next) => JumpOk(prog, l, false, prog.open(l), next)
    case Invoke(call) =>
      (call.Some? ==> prog.open(l) == None) && forall r :: JumpOk(prog, l, false, prog.open(l), prog.run(l, r).1)
    case Pause(_, _) => true
  }

  /** Every jump reads a byte or goes down in rank, and whether a span is open depends only on
      the control state: spans do not nest, and nothing is notified inside one. */
  ghost predicate WellFormed<L(!new)>(prog: Program<L>) {
    forall l :: NodeOk(prog, l)
  }

  /** The saved state fits its control state: `_span_pos0` and `_index` are set only where the
      program uses them, and `_index` is inside the sequence being matched. */
  ghost predicate Fits<L>(prog: Program<L>, s: State<L>) {
    && s.error == 0
    && (prog.node(s.current).Pause? || s.span == prog.open(s.current)) && (s.span.None? ==> s.held == [])
    && s.index < (if prog.node(s.current).Sequence? then |prog.node(s.current).blob| else 1)
  }

  lemma StepOfSequence<L>(prog: Program<L>, s: State<L>, input: seq<Byte>)
    requires prog.node(s.current).Sequence? && input != []
    ensures var n := prog.node(s.current);
            var m := Match(n.fold, n.blob, s.index, input);
            var t := AfterMatch(s, m, n.matched, n.complete, n.mismatch);
            var read := if m.MatchPause? then |input| else if m.MatchComplete? then m.p + 1 else m.p;
            var u := Hold(t, input[..read]);
            Step(prog, s, input) == if m.MatchPause? then Stop(u) else Goto(u, read)
  {
    assert input[..|input|] == input;
  }

  lemma StepDescends<L(!new)>(prog: Program<L>, s: State<L>, input: seq<Byte>)
    requires WellFormed(prog)
    ensures var o := Step(prog, s, input);
            o.Goto? ==> o.n > 0 || prog.rank(o.s.current) < prog.rank(s.current)
  {
    assert NodeOk(prog, s.current);
  }

  /** `llhttp__internal__run`. */
  ghost function Run<L(!new)>(prog: Program<L>, s: State<L>, input: seq<Byte>): State<L>
    requires WellFormed(prog)
    decreases |input|, prog.rank(s.current)
  {
    var o := Step(prog, s, input);
    if o.Stop? then o.s else
      StepDescends(prog, s, input);
      Run(prog, o.s, input[o.n..])
  }

  /** How many bytes of the input one node reads: what it looks at and goes past. */
  function NodeReads<L>(prog: Program<L>, s: State<L>, input: seq<Byte>): (n: nat)
    ensures n <= |input|
  {
    match prog.node(s.current)
    case Switch => if input != [] && prog.edge(s.current, input[0]).advance then 1 else 0
    case Sequence(fold, blob, _, _, _) =>
      if input == [] then 0 else
        var m := Match(fold, blob, s.index, input);
        if m.MatchPause? then |input| else if m.MatchComplete? then m.p + 1 else m.p
    case SpanEnd(advance, _) => if advance && input != [] then 1 else 0
    case Consume(_) => if |input| >= s.regs.contentLength then s.regs.contentLength else |input|
    case _ => 0
  }

  /** How many bytes of the input are read before `llhttp__internal__run` returns. */
  ghost function BytesRead<L(!new)>(prog: Program<L>, s: State<L>, input: seq<Byte>): (n: nat)
    requires WellFormed(prog)
    ensures n <= |input|
    decreases |input|, prog.rank(s.current)
  {
    var o := Step(prog, s, input);
    if o.Stop? then NodeReads(prog, s, input) else
      StepDescends(prog, s, input);
      o.n + BytesRead(prog, o.s, input[o.n..])
  }

  /** A goto has read what its node reads; a node that stops without an error has read everything. */
  lemma StepReads<L>(prog: Program<L>, s: State<L>, input: seq<Byte>)
    requires s.error == 0
    ensures var o := Step(prog, s, input);
            if o.Goto? then o.n == NodeReads(prog, s, input) && o.s.error == 0
            else o.s.error == 0 ==> NodeReads(prog, s, input) == |input|
  {}

  /** The run loop returns only with an error or with all its input read. */
  lemma {:induction false} RunReadsAll<L(!new)>(prog: Program<L>, s: State<L>, input: seq<Byte>)
    requires WellFormed(prog) && s.error == 0
    ensures Run(prog, s, input).error == 0 ==> BytesRead(prog, s, input) == |input|
    decreases |input|, prog.rank(s.current)
  {
    StepReads(prog, s, input);
    var o := Step(prog, s, input);
    if o.Goto? {
      StepDescends(prog, s, input);
      RunReadsAll(prog, o.s, input[o.n..]);
    }
  }

  /** At the end of `llhttp__internal_execute`, what an open span holds goes to its callback. */
  function Flush<L>(s: State<L>): State<L> {
    if s.error != 0 || s.span.None? then s.(held := [])
    else s.(held := [], log := s.log + [Data(s.span.value, s.held)])
  }

  /** `llhttp__internal_execute`: lingering errors are returned, an open span restarts at the
      new buffer. */
  ghost function Execute<L(!new)>(prog: Program<L>, s: State<L>, data: seq<Byte>): State<L>
    requires WellFormed(prog)
  {
    if s.error != 0 then s else Flush(Run(prog, s.(held := []), data))
  }

  ghost function ExecuteAll<L(!new)>(prog: Program<L>, s: State<L>, pieces: seq<seq<Byte>>): State<L>
    requires WellFormed(prog)
    decreases |pieces|
  {
    if pieces == [] then s else ExecuteAll(prog, Execute(prog, s, pieces[0]), pieces[1..])
  }

  function Concat(pieces: seq<seq<Byte>>): seq<Byte> {
    if pieces == [] then [] else pieces[0] + Concat(pieces[1..])
  }

  // ---------------------------------------------------------------- what callbacks can observe

  /** The callback log with the cuts inside a span forgotten. */
  datatype Atom = Octet(span: Span, b: Byte) | Tick(mark: Mark)

  function Octets(span: Span, bytes: seq<Byte>): seq<Atom> {
    if bytes == [] then [] else Octets(span, bytes[..|bytes| - 1]) + [Octet(span, bytes[|bytes| - 1])]
  }

  lemma {:induction false} OctetsConcat(span: Span, a: seq<Byte>, b: seq<Byte>)
    ensures Octets(span, a + b) == Octets(span, a) + Octets(span, b)
  {
    if b == [] {
      assert a + b == a;
    } else {
      assert (a + b)[..|a + b| - 1] == a + b[..|b| - 1];
      OctetsConcat(span, a, b[..|b| - 1]);
    }
  }

  function Atoms(call: Call): seq<Atom> {
    match call
    case Data(span, bytes) => Octets(span, bytes)
    case Notify(mark) => [Tick(mark)]
  }

  function Norm(log: seq<Call>): seq<Atom> {
    if log == [] then [] else Norm(log[..|log| - 1]) + Atoms(log[|log| - 1])
  }

  lemma NormSnoc(log: seq<Call>, call: Call)
    ensures Norm(log + [call]) == Norm(log) + Atoms(call)
  {
    assert (log + [call])[..|log|] == log;
  }

  lemma {:induction false} NormConcat(a: seq<Call>, b: seq<Call>)
    ensures Norm(a + b) == Norm(a) + Norm(b)
    decreases |b|
  {
    if b == [] {
      assert a + b == a;
    } else {
      var init, x := b[..|b| - 1], b[|b| - 1];
      assert a + b == a + init + [x] by { assert b == init + [x]; Associates(a, init, [x]); }
      NormSnoc(a + init, x);
      NormConcat(a, init);
      Associates(Norm(a), Norm(init), Atoms(x));
    }
  }

  /** What the callbacks have been told, and what the open span still holds back from them. */
  function View<L>(s: State<L>): seq<Atom> {
    Norm(s.log) + if s.span.Some? then Octets(s.span.value, s.held) else []
  }

  lemma ViewHold<L>(s: State<L>, bytes: seq<Byte>)
    ensures View(Hold(s, bytes)) == View(s) + if s.span.Some? then Octets(s.span.value, bytes) else []
  {
    if s.span.Some? {
      OctetsConcat(s.span.value, s.held, bytes);
    }
  }

  /** A notification outside spans comes after everything told so far. */
  lemma ViewNotify<L>(s: State<L>, mark: Mark)
    requires s.span.None?
    ensures View(s.(log := s.log + [Notify(mark)])) == View(s) + [Tick(mark)]
  {
    NormSnoc(s.log, Notify(mark));
  }

  lemma ViewClose<L>(s: State<L>)
    ensures View(CloseSpan(s)) == View(s)
  {
    if s.span.Some? {
      NormSnoc(s.log, Data(s.span.value, s.held));
    }
  }

  // ---------------------------------------------------------------- cutting the input

  /** Ending the buffer after a: the node either does what it does with b behind a, or stops with
      all of a read, in a state from which the same node carries on in b. */
  lemma StepResumes<L(!new)>(prog: Program<L>, s: State<L>, a: seq<Byte>, b: seq<Byte>)
    requires s.error == 0 && WellFormed(prog)
    ensures var o := Step(prog, s, a);
            if o.Stop? && o.s.error == 0
            then var o' := Step(prog, o.s, b);
                 Step(prog, s, a + b) == if o'.Goto? then Goto(o'.s, |a| + o'.n) else o'
            else Step(prog, s, a + b) == o
  {
    assert NodeOk(prog, s.current);
    assert a != [] ==> (a + b)[0] == a[0] && (a + b)[..1] == a[..1];
    assert a == [] ==> a + b == b;
    match prog.node(s.current)
    case Sequence(_, _, _, _, _) => if a != [] { SequenceResumes(prog, s, a, b); }
    case Consume(_) => ConsumeResumes(prog, s, a, b);
    case _ =>
  }

  lemma SequenceResumes<L(!new)>(prog: Program<L>, s: State<L>, a: seq<Byte>, b: seq<Byte>)
    requires prog.node(s.current).Sequence? && s.error == 0 && a != []
    ensures var o := Step(prog, s, a);
            if o.Stop?
            then var o' := Step(prog, o.s, b);
                 Step(prog, s, a + b) == if o'.Goto? then Goto(o'.s, |a| + o'.n) else o'
            else Step(prog, s, a + b) == o
  {
    var n := prog.node(s.current);
    MatchResumes(n.fold, n.blob, s.index, a, b);
    var m := Match(n.fold, n.blob, s.index, a);
    if m.MatchPause? {
      HoldResumes(s.(index := m.index), a, b);
    } else {
      assert (a + b)[..m.p] == a[..m.p] && (a + b)[..m.p + 1] == a[..m.p + 1];
    }
  }

  lemma HoldResumes<L>(s: State<L>, a: seq<Byte>, b: seq<Byte>)
    ensures Hold(s, a + b) == Hold(Hold(s, a), b)
    ensures forall n | 0 <= n <= |b| :: Hold(s, (a + b)[..|a| + n]) == Hold(Hold(s, a), b[..n])
    ensures Hold(s, []) == s
  {
    assert s.held + [] == s.held;
    assert s.held + (a + b) == s.held + a + b;
    forall n | 0 <= n <= |b|
      ensures s.held + (a + b)[..|a| + n] == s.held + a + b[..n]
    {
      assert (a + b)[..|a| + n] == a + b[..n];
    }
  }

  lemma ConsumeResumes<L(!new)>(prog: Program<L>, s: State<L>, a: seq<Byte>, b: seq<Byte>)
    requires prog.node(s.current).Consume? && s.error == 0
    ensures var o := Step(prog, s, a);
            if o.Stop?
            then var o' := Step(prog, o.s, b);
                 Step(prog, s, a + b) == if o'.Goto? then Goto(o'.s, |a| + o'.n) else o'
            else Step(prog, s, a + b) == o
  {
    var need := s.regs.contentLength;
    if |a| >= need {
      assert (a + b)[..need] == a[..need];
    } else if |a| + |b| >= need {
      assert (a + b)[..need] == a + b[..need - |a|];
      assert s.held + (a + b[..need - |a|]) == s.held + a + b[..need - |a|];
    } else {
      assert s.held + (a + b) == s.held + a + b;
    }
  }

  /** Run, unfolded once. */
  lemma RunGoes<L(!new)>(prog: Program<L>, s: State<L>, input: seq<Byte>)
    requires WellFormed(prog)
    ensures var o := Step(prog, s, input);
            Run(prog, s, input) == if o.Stop? then o.s else Run(prog, o.s, input[o.n..])
  {}

  /** A stop is followed by what the rest of the input brings. */
  lemma StopThenGoes<L(!new)>(prog: Program<L>, s: State<L>, r: State<L>, o: Outcome<L>, a: seq<Byte>, b: seq<Byte>)
    requires WellFormed(prog) && o == Step(prog, r, b)
    requires Step(prog, s, a + b) == if o.Goto? then Goto(o.s, |a| + o.n) else o
    ensures Run(prog, s, a + b) == Run(prog, r, b)
  {
    if o.Goto? {
      DropsPast(a, b, o.n);
      calc {
        Run(prog, s, a + b);
        { RunGoes(prog, s, a + b); }
        Run(prog, o.s, (a + b)[|a| + o.n..]);
        Run(prog, o.s, b[o.n..]);
        { RunGoes(prog, r, b); }
        Run(prog, r, b);
      }
    } else {
      RunGoes(prog, s, a + b);
      RunGoes(prog, r, b);
    }
  }

  lemma StopResumes<L(!new)>(prog: Program<L>, s: State<L>, a: seq<Byte>, b: seq<Byte>)
    requires s.error == 0 && WellFormed(prog) && Step(prog, s, a).Stop? && Step(prog, s, a).s.error == 0
    ensures Run(prog, s, a + b) == Run(prog, Step(prog, s, a).s, b)
  {
    StepResumes(prog, s, a, b);
    var r := Step(prog, s, a).s;
    StopThenGoes(prog, s, r, Step(prog, r, b), a, b);
  }

  lemma DropsPast(a: seq<Byte>, b: seq<Byte>, n: nat)
    requires n <= |b|
    ensures (a + b)[|a| + n..] == b[n..]
  {}

  lemma {:induction false} RunResumes<L(!new)>(prog: Program<L>, s: State<L>, a: seq<Byte>, b: seq<Byte>)
    requires s.error == 0 && WellFormed(prog)
    ensures var r := Run(prog, s, a);
            Run(prog, s, a + b) == if r.error == 0 then Run(prog, r, b) else r
    decreases |a|, prog.rank(s.current)
  {
    RunGoes(prog, s, a);
    var o := Step(prog, s, a);
    if o.Stop? && o.s.error == 0 {
      StopResumes(prog, s, a, b);
    } else {
      StepResumes(prog, s, a, b);
      RunGoes(prog, s, a + b);
      if o.Goto? {
        StepDescends(prog, s, a);
        assert (a + b)[o.n..] == a[o.n..] + b;
        RunResumes(prog, o.s, a[o.n..], b);
      }
    }
  }

  /** Two states that differ only in which of their octets have already been handed over. */
  ghost predicate Alike<L>(x: State<L>, y: State<L>) {
    x == y.(log := x.log, held := x.held) && View(x) == View(y)
  }

  lemma HoldAlike<L>(x: State<L>, y: State<L>, bytes: seq<Byte>)
    requires Alike(x, y)
    ensures Alike(Hold(x, bytes), Hold(y, bytes))
  {
    ViewHold(x, bytes);
    ViewHold(y, bytes);
  }

  lemma SwitchAlike<L(!new)>(prog: Program<L>, x: State<L>, y: State<L>, input: seq<Byte>)
    requires prog.node(y.current).Switch? && Alike(x, y)
    ensures var ox, oy := Step(prog, x, input), Step(prog, y, input);
            ox.Stop? == oy.Stop? && Alike(ox.s, oy.s) && (ox.Goto? ==> ox.n == oy.n)
  {
    if input != [] {
      var e := prog.edge(y.current, input[0]);
      HoldAlike(x.(current := e.next, regs := x.regs.(matched := e.matched)),
                y.(current := e.next, regs := y.regs.(matched := e.matched)), input[..1]);
    }
  }

  lemma SequenceAlike<L(!new)>(prog: Program<L>, x: State<L>, y: State<L>, input: seq<Byte>)
    requires prog.node(y.current).Sequence? && Alike(x, y)
    ensures var ox, oy := Step(prog, x, input), Step(prog, y, input);
            ox.Stop? == oy.Stop? && Alike(ox.s, oy.s) && (ox.Goto? ==> ox.n == oy.n)
  {
    if input != [] {
      var n := prog.node(y.current);
      var m := Match(n.fold, n.blob, y.index, input);
      var tx := AfterMatch(x, m, n.matched, n.complete, n.mismatch);
      var ty := AfterMatch(y, m, n.matched, n.complete, n.mismatch);
      HoldAlike(tx, ty, if m.MatchPause? then input else if m.MatchComplete? then input[..m.p + 1] else input[..m.p]);
    }
  }

  lemma ConsumeAlike<L(!new)>(prog: Program<L>, x: State<L>, y: State<L>, input: seq<Byte>)
    requires prog.node(y.current).Consume? && Alike(x, y)
    ensures var ox, oy := Step(prog, x, input), Step(prog, y, input);
            ox.Stop? == oy.Stop? && Alike(ox.s, oy.s) && (ox.Goto? ==> ox.n == oy.n)
  {
    var next, need := prog.node(y.current).next, y.regs.contentLength;
    if |input| >= need {
      HoldAlike(x.(current := next, regs := x.regs.(contentLength := 0)),
                y.(current := next, regs := y.regs.(contentLength := 0)), input[..need]);
    } else {
      HoldAlike(x.(regs := x.regs.(contentLength := need - |input|)),
                y.(regs := y.regs.(contentLength := need - |input|)), input);
    }
  }

  lemma OtherAlike<L(!new)>(prog: Program<L>, x: State<L>, y: State<L>, input: seq<Byte>)
    requires WellFormed(prog) && Fits(prog, y) && Alike(x, y)
    requires var n := prog.node(y.current); !n.Switch? && !n.Sequence? && !n.Consume?
    ensures var ox, oy := Step(prog, x, input), Step(prog, y, input);
            ox.Stop? == oy.Stop? && Alike(ox.s, oy.s) && (ox.Goto? ==> ox.n == oy.n)
  {
    assert NodeOk(prog, y.current);
    match prog.node(y.current)
    case SpanEnd(_, _) =>
      ViewClose(x);
      ViewClose(y);
    case Invoke(call) =>
      if call.Some? {
        ViewNotify(x, call.value);
        ViewNotify(y, call.value);
      }
    case _ =>
  }

  lemma StepAlike<L(!new)>(prog: Program<L>, x: State<L>, y: State<L>, input: seq<Byte>)
    requires WellFormed(prog) && Fits(prog, y) && Alike(x, y)
    ensures var ox, oy := Step(prog, x, input), Step(prog, y, input);
            ox.Stop? == oy.Stop? && Alike(ox.s, oy.s) && (ox.Goto? ==> ox.n == oy.n)
  {
    match prog.node(y.current)
    case Switch => SwitchAlike(prog, x, y, input);
    case Sequence(_, _, _, _, _) => SequenceAlike(prog, x, y, input);
    case Consume(_) => ConsumeAlike(prog, x, y, input);
    case _ => OtherAlike(prog, x, y, input);
  }

  lemma StepFits<L(!new)>(prog: Program<L>, s: State<L>, input: seq<Byte>)
    requires WellFormed(prog) && Fits(prog, s)
    ensures var t := Step(prog, s, input).s; t.error == 0 ==> Fits(prog, t)
  {
    assert NodeOk(prog, s.current);
    assert NodeOk(prog, Step(prog, s, input).s.current);
  }

  lemma {:induction false} RunAlike<L(!new)>(prog: Program<L>, x: State<L>, y: State<L>, input: seq<Byte>)
    requires WellFormed(prog) && Fits(prog, y) && Alike(x, y)
    ensures var r := Run(prog, y, input); Alike(Run(prog, x, input), r) && (r.error == 0 ==> Fits(prog, r))
    decreases |input|, prog.rank(y.current)
  {
    StepAlike(prog, x, y, input);
    StepFits(prog, y, input);
    var ox, oy := Step(prog, x, input), Step(prog, y, input);
    if oy.Goto? {
      StepDescends(prog, y, input);
      GotoKeepsErrors(prog, y, input);
      RunAlike(prog, ox.s, oy.s, input[oy.n..]);
    }
  }

  lemma GotoKeepsErrors<L(!new)>(prog: Program<L>, s: State<L>, input: seq<Byte>)
    ensures Step(prog, s, input).Goto? ==> Step(prog, s, input).s.error == s.error
  {}

  lemma FlushAlike<L>(s: State<L>)
    requires s.error == 0 && (s.span.None? ==> s.held == [])
    ensures Alike(Flush(s), s) && Norm(Flush(s).log) == View(s)
  {
    if s.span.Some? {
      NormSnoc(s.log, Data(s.span.value, s.held));
      assert Octets(s.span.value, []) == [];
    }
  }

  /** Same registers, same control state, same error; and the callbacks have been told the same, but
      for the bytes of a span that an error cut short. */
  ghost predicate SameRun<L>(x: State<L>, y: State<L>) {
    x == y.(log := x.log) && (x.error == 0 || x.span.None? ==> Norm(x.log) == Norm(y.log))
  }

  lemma EndAlike<L>(x: State<L>, y: State<L>)
    requires Alike(x, y) && y.error != 0
    ensures SameRun(Flush(x), Flush(y))
  {
    if y.span.None? {
      assert View(x) == Norm(x.log) && View(y) == Norm(y.log);
    }
  }

  lemma FlushesAlike<L>(x: State<L>, y: State<L>)
    requires Alike(x, y) && y.error == 0 && (y.span.None? ==> x.held == [] && y.held == [])
    ensures SameRun(Flush(x), Flush(y))
  {
    FlushAlike(x);
    FlushAlike(y);
  }

  lemma RunFlushAlike<L(!new)>(prog: Program<L>, x: State<L>, y: State<L>, input: seq<Byte>)
    requires WellFormed(prog) && Fits(prog, x) && Fits(prog, y) && Alike(x, y)
    ensures var r := Flush(Run(prog, y, input));
            SameRun(Flush(Run(prog, x, input)), r) && r.held == [] && (r.error == 0 ==> Fits(prog, r))
  {
    RunAlike(prog, x, y, input);
    RunAlike(prog, x, x, input);
    var q, r := Run(prog, x, input), Run(prog, y, input);
    if r.error == 0 {
      FlushesAlike(q, r);
    } else {
      EndAlike(q, r);
    }
  }

  lemma CutOnce<L(!new)>(prog: Program<L>, s: State<L>, a: seq<Byte>, b: seq<Byte>)
    requires WellFormed(prog) && Fits(prog, s) && s.held == []
    ensures SameRun(Execute(prog, Execute(prog, s, a), b), Execute(prog, s, a + b))
  {
    RunResumes(prog, s, a, b);
    RunAlike(prog, s, s, a);
    var r := Run(prog, s, a);
    if r.error == 0 {
      FlushAlike(r);
      RunFlushAlike(prog, Flush(r), r, b);
    }
  }

  lemma ExecuteAlike<L(!new)>(prog: Program<L>, x: State<L>, y: State<L>, data: seq<Byte>)
    requires WellFormed(prog) && x.held == y.held == [] && SameRun(x, y) && (y.error == 0 ==> Fits(prog, y))
    ensures SameRun(Execute(prog, x, data), Execute(prog, y, data))
    ensures var r := Execute(prog, y, data); r.held == [] && (r.error == 0 ==> Fits(prog, r))
  {
    if y.error == 0 {
      RunFlushAlike(prog, x, y, data);
    }
  }

  lemma {:induction false} ExecuteAllAfterError<L(!new)>(prog: Program<L>, s: State<L>, pieces: seq<seq<Byte>>)
    requires WellFormed(prog) && s.error != 0
    ensures ExecuteAll(prog, s, pieces) == s
    decreases |pieces|
  {
    if pieces != [] {
      ExecuteAllAfterError(prog, s, pieces[1..]);
    }
  }

  /** However a stream is cut into `execute` calls, the parser ends in the same control state with
      the same registers and the same error as if it had come in one buffer; and unless that is an
      error inside a span, the callbacks have been told the same. */
  lemma {:induction false} FragmentationIndependence<L(!new)>(prog: Program<L>, s: State<L>, pieces: seq<seq<Byte>>)
    requires WellFormed(prog) && Fits(prog, s) && s.held == [] && pieces != []
    ensures SameRun(ExecuteAll(prog, s, pieces), Execute(prog, s, Concat(pieces)))
    decreases |pieces|
  {
    var t, rest := Execute(prog, s, pieces[0]), pieces[1..];
    ExecuteAlike(prog, s, s, pieces[0]);
    if rest == [] {
      assert pieces[0] + [] == pieces[0];
    } else {
      CutOnce(prog, s, pieces[0], Concat(rest));
      if t.error == 0 {
        FragmentationIndependence(prog, t, rest);
      } else {
        ExecuteAllAfterError(prog, t, rest);
      }
    }
  }
}
