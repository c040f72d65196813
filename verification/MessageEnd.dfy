/** How a message ends, and what the callbacks have been told by then. */
module MessageEnd {
  import opened Bytes
  import opened Llparse
  import opened HttpGlue
  import opened Llhttp
  import opened LlhttpSteps

  /** Where the parser waits for the next message, or for nothing, once this one is complete. */
  function AfterEnd(r: Registers): Label {
    if ShouldKeepAlive(r) || r.lenient.keepAlive then Begin(Start) else Done(Closed)
  }

  lemma KeepsOrCloses(s: State<Label>, rest: seq<Byte>)
    requires s.current == Done(AfterMessage)
    ensures RunOn(s, rest) == RunOn(s.(current := AfterEnd(s.regs), regs := AfterMessageComplete(s.regs)), rest)
  {
    var r := AfterMessageComplete(s.regs);
    Invokes(s, rest);
    if ShouldKeepAlive(s.regs) {
      Invokes(s.(current := Done(KeepAlive), regs := r), rest);
    } else {
      Invokes(s.(current := Done(Close), regs := r), rest);
      if s.regs.lenient.keepAlive {
        Invokes(s.(current := Done(KeepAlive), regs := r), rest);
      }
    }
  }

  /** The parser that has told a complete message: it stops before an upgrade, and otherwise waits for
      the next message or for nothing. */
  function Completed(s: State<Label>): State<Label> {
    var t := s.(log := s.log + [Notify(MessageComplete)]);
    if s.regs.upgrade then t.(current := Done(AfterMessage), error := PAUSED_UPGRADE)
    else t.(current := AfterEnd(s.regs), regs := AfterMessageComplete(s.regs))
  }

  /** What the run makes of what follows: nothing, before an upgrade. */
  ghost predicate RunsOnTo(s: State<Label>, input: seq<Byte>, t: State<Label>, rest: seq<Byte>) {
    RunOn(s, input) == if t.error != 0 then t else RunOn(t, rest)
  }

  lemma MessageEnds(s: State<Label>, rest: seq<Byte>)
    requires s.current == Done(OnMessageComplete2) && s.error == 0
    ensures RunsOnTo(s, rest, Completed(s), rest)
  {
    var t := s.(log := s.log + [Notify(MessageComplete)]);
    Invokes(s, rest);
    Invokes(t.(current := Done(IsEqualUpgrade)), rest);
    if s.regs.upgrade {
      Fails(t.(current := Done(Upgraded)), rest);
    } else {
      KeepsOrCloses(t.(current := Done(AfterMessage)), rest);
    }
  }

  /** A message without a body, which is no upgrade. */
  lemma NoBodyEnds(s: State<Label>, rest: seq<Byte>)
    requires s.current == Done(OnMessageComplete)
    ensures RunOn(s, rest) ==
            RunOn(s.(current := AfterEnd(s.regs), regs := AfterMessageComplete(s.regs),
                     log := s.log + [Notify(MessageComplete)]), rest)
  {
    Invokes(s, rest);
    KeepsOrCloses(s.(current := Done(AfterMessage), log := s.log + [Notify(MessageComplete)]), rest);
  }

  /** A message without a body before an upgrade. */
  lemma NoBodyPauses(s: State<Label>, rest: seq<Byte>)
    requires s.current == Done(OnMessageComplete1)
    ensures RunOn(s, rest) ==
            s.(current := Done(AfterMessage), error := PAUSED_UPGRADE, log := s.log + [Notify(MessageComplete)])
  {
    var t := s.(current := Done(Upgraded), log := s.log + [Notify(MessageComplete)]);
    Invokes(s, rest);
    Fails(t, rest);
  }

  /** The body bytes among what callbacks were told, and how often a mark was. */
  function BodyOf(atoms: seq<Atom>): seq<Byte> {
    if atoms == [] then []
    else (if atoms[0].Octet? && atoms[0].span == OnBody then [atoms[0].b] else []) + BodyOf(atoms[1..])
  }

  function CountOf(mark: Mark, atoms: seq<Atom>): nat {
    if atoms == [] then 0 else (if atoms[0] == Tick(mark) then 1 else 0) + CountOf(mark, atoms[1..])
  }

  lemma {:induction false} BodyOfConcat(a: seq<Atom>, b: seq<Atom>)
    ensures BodyOf(a + b) == BodyOf(a) + BodyOf(b)
    decreases |a|
  {
    if a == [] {
      assert a + b == b;
    } else {
      assert (a + b)[1..] == a[1..] + b;
      BodyOfConcat(a[1..], b);
    }
  }

  lemma {:induction false} CountOfConcat(mark: Mark, a: seq<Atom>, b: seq<Atom>)
    ensures CountOf(mark, a + b) == CountOf(mark, a) + CountOf(mark, b)
    decreases |a|
  {
    if a == [] {
      assert a + b == b;
    } else {
      assert (a + b)[1..] == a[1..] + b;
      CountOfConcat(mark, a[1..], b);
    }
  }

  lemma ToldOfOne(atom: Atom)
    ensures BodyOf([atom]) == (if atom.Octet? && atom.span == OnBody then [atom.b] else [])
    ensures forall mark :: CountOf(mark, [atom]) == if atom == Tick(mark) then 1 else 0
  {
    assert [atom][1..] == [];
  }

  lemma {:induction false} ToldOfOctets(mark: Mark, span: Span, data: seq<Byte>)
    ensures BodyOf(Octets(span, data)) == (if span == OnBody then data else [])
    ensures CountOf(mark, Octets(span, data)) == 0
  {
    if data != [] {
      var init, b := data[..|data| - 1], data[|data| - 1];
      ToldOfOctets(mark, span, init);
      BodyOfConcat(Octets(span, init), [Octet(span, b)]);
      CountOfConcat(mark, Octets(span, init), [Octet(span, b)]);
      ToldOfOne(Octet(span, b));
      assert data == init + [b];
    }
  }

  lemma ToldOfCall(call: Call)
    ensures BodyOf(Norm([call])) == (if call.Data? && call.span == OnBody then call.bytes else [])
    ensures CountOf(MessageComplete, Norm([call])) == if call == Notify(MessageComplete) then 1 else 0
  {
    assert [call] == [] + [call];
    NormSnoc([], call);
    match call
    case Data(span, bytes) =>
      assert Norm([call]) == Octets(span, bytes);
      ToldOfOctets(MessageComplete, span, bytes);
    case Notify(mark) =>
      assert Norm([call]) == [Tick(mark)];
      ToldOfOne(Tick(mark));
  }

  lemma ToldThen(log: seq<Call>, call: Call)
    ensures BodyOf(Norm(log + [call])) == BodyOf(Norm(log)) + BodyOf(Norm([call]))
    ensures CountOf(MessageComplete, Norm(log + [call])) ==
            CountOf(MessageComplete, Norm(log)) + CountOf(MessageComplete, Norm([call]))
  {
    NormConcat(log, [call]);
    BodyOfConcat(Norm(log), Norm([call]));
    CountOfConcat(MessageComplete, Norm(log), Norm([call]));
  }

  ghost predicate Quiet(log: seq<Call>) {
    BodyOf(Norm(log)) == [] && CountOf(MessageComplete, Norm(log)) == 0
  }

  lemma QuietThen(log: seq<Call>, call: Call)
    requires Quiet(log) && (call.Data? ==> call.span != OnBody) && call != Notify(MessageComplete)
    ensures Quiet(log + [call])
  {
    ToldThen(log, call);
    ToldOfCall(call);
  }

  lemma QuietThenTwo(log: seq<Call>, x: Call, y: Call)
    requires Quiet(log)
    requires (x.Data? ==> x.span != OnBody) && x != Notify(MessageComplete)
    requires (y.Data? ==> y.span != OnBody) && y != Notify(MessageComplete)
    ensures Quiet(log + [x, y])
  {
    QuietThen(log, x);
    QuietThen(log + [x], y);
    assert log + [x] + [y] == log + [x, y];
  }

  lemma ThenCompletes(log: seq<Call>)
    ensures BodyOf(Norm(log + [Notify(MessageComplete)])) == BodyOf(Norm(log))
    ensures CountOf(MessageComplete, Norm(log + [Notify(MessageComplete)])) == CountOf(MessageComplete, Norm(log)) + 1
  {
    ToldThen(log, Notify(MessageComplete));
    ToldOfCall(Notify(MessageComplete));
    assert BodyOf(Norm(log)) + [] == BodyOf(Norm(log));
  }

  lemma ThenDelivers(log: seq<Call>, body: seq<Byte>)
    requires Quiet(log)
    ensures BodyOf(Norm(log + [Data(OnBody, body)])) == body &&
            CountOf(MessageComplete, Norm(log + [Data(OnBody, body)])) == 0
  {
    ToldThen(log, Data(OnBody, body));
    ToldOfCall(Data(OnBody, body));
    assert [] + body == body;
  }

  lemma ToldOfBoth(a: seq<Call>, b: seq<Call>)
    ensures BodyOf(Norm(a + b)) == BodyOf(Norm(a)) + BodyOf(Norm(b))
    ensures CountOf(MessageComplete, Norm(a + b)) ==
            CountOf(MessageComplete, Norm(a)) + CountOf(MessageComplete, Norm(b))
  {
    NormConcat(a, b);
    BodyOfConcat(Norm(a), Norm(b));
    CountOfConcat(MessageComplete, Norm(a), Norm(b));
  }

  lemma QuietTogether(a: seq<Call>, b: seq<Call>)
    requires Quiet(a) && Quiet(b)
    ensures Quiet(a + b)
  {
    ToldOfBoth(a, b);
  }

  // ---------------------------------------------------------------- whole messages

  /** However the input is cut: the parser is where a complete message leaves it, with m's registers; the
      callbacks have got these calls, with just this body among them, and then one complete message. */
  ghost predicate DeliversOnce(s: State<Label>, pieces: seq<seq<Byte>>, m: State<Label>, calls: seq<Call>,
                               body: seq<Byte>) {
    var t, told := Feed(s, pieces), Norm(calls + [Notify(MessageComplete)]);
    && t == Completed(m).(log := t.log) && Norm(t.log) == Norm(s.log) + told
    && BodyOf(told) == body && CountOf(MessageComplete, told) == 1
  }

  /** However the input is cut, the callbacks have been told what the run tells them, and the parser is
      where it ends; unless that is inside a span. */
  lemma FeedsTo(s: State<Label>, pieces: seq<seq<Byte>>, u: State<Label>)
    requires Between(s) && pieces != [] && RunOn(s, Concat(pieces)) == u && u.span == None && u.held == []
    ensures Feed(s, pieces) == u.(log := Feed(s, pieces).log) && Norm(Feed(s, pieces).log) == Norm(u.log)
  {
    OneBuffer(s, Concat(pieces));
    AnyCutting(s, pieces);
  }

  /** Behind a complete message there is nothing to run. */
  lemma EndsThere(s: State<Label>, input: seq<Byte>, m: State<Label>)
    requires RunsOnTo(s, input, Completed(m), []) && m.error == 0
    ensures RunOn(s, input) == Completed(m)
  {
    if !m.regs.upgrade {
      Rests(Completed(m));
    }
  }

  lemma ToldOnce(log: seq<Call>, calls: seq<Call>)
    requires CountOf(MessageComplete, Norm(calls)) == 0
    ensures var told := Norm(calls + [Notify(MessageComplete)]);
            && Norm(log + calls + [Notify(MessageComplete)]) == Norm(log) + told
            && BodyOf(told) == BodyOf(Norm(calls)) && CountOf(MessageComplete, told) == 1
  {
    Associates(log, calls, [Notify(MessageComplete)]);
    NormConcat(log, calls + [Notify(MessageComplete)]);
    ThenCompletes(calls);
  }

  lemma CompletesOnce(s: State<Label>, pieces: seq<seq<Byte>>, calls: seq<Call>, m: State<Label>, body: seq<Byte>)
    requires Between(s) && pieces != [] && m.log == s.log + calls && m.span == None && m.held == [] && m.error == 0
    requires RunsOnTo(s, Concat(pieces), Completed(m), [])
    requires BodyOf(Norm(calls)) == body && CountOf(MessageComplete, Norm(calls)) == 0
    ensures DeliversOnce(s, pieces, m, calls, body)
  {
    EndsThere(s, Concat(pieces), m);
    FeedsTo(s, pieces, Completed(m));
    ToldOnce(s.log, calls);
    assert Completed(m).log == s.log + calls + [Notify(MessageComplete)];
  }
}
