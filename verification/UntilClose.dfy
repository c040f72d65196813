/** Messages whose body runs to the end of the connection. */
module UntilClose {
  import opened Bytes
  import opened Llparse
  import opened HttpGlue
  import opened Llhttp
  import opened LlhttpSteps
  import opened ReachableStates
  import opened MessageStarts

  predicate IsRequest(r: Registers) { r.kind == HTTP_REQUEST }

  predicate IsBodiless(r: Registers) {
    !IsRequest(r) && (r.statusCode / 100 == 1 || r.statusCode == 204 || r.statusCode == 304)
  }

  /** Chunks only under Transfer-Encoding, and no body skipped. */
  predicate Sound(r: Registers) {
    (r.flags.chunked ==> r.flags.transferEncoding) && !r.flags.skipBody
  }

  /** So it is in every reachable state. */
  lemma AlwaysSound(kind: nat, lenient: Lenient, pieces: seq<seq<Byte>>)
    ensures var s := Feed(Init(kind, lenient), pieces); s.error == 0 ==> Sound(s.regs)
  {
    EveryReachableState(kind, lenient, pieces);
    NeverSkips(kind, lenient, pieces);
  }

  /** The message stops before its upgrade. */
  predicate Stops(r: Registers) {
    r.upgrade && (r.verb == HTTP_CONNECT || !(r.flags.chunked || r.contentLength > 0))
  }

  /** A Transfer-Encoding that does not end in chunks, where the message does not need the end of the
      connection: in a request of a lenient parser, and in a response that should have no body. */
  predicate Overread(r: Registers) {
    r.flags.transferEncoding && !r.flags.chunked && if IsRequest(r) then r.lenient.chunkedLength else IsBodiless(r)
  }

  /** A body runs to the end of the connection if and only if the message needs its end, or is one of
      those; and does not stop before an upgrade. */
  lemma UntilEofIff(r: Registers)
    requires Sound(r)
    ensures AfterHeadersComplete(r) == UntilEof <==> !Stops(r) && (MessageNeedsEof(r) || Overread(r))
  {}

  /** After a message without a definite end the connection is kept alive for none but those. */
  lemma NothingAfterEof(r: Registers)
    requires Sound(r) && AfterHeadersComplete(r) == UntilEof
    ensures ShouldKeepAlive(r) ==> Overread(r)
  {
    UntilEofIff(r);
  }

  /** Both, whatever has been received. */
  lemma InEveryState(kind: nat, lenient: Lenient, pieces: seq<seq<Byte>>)
    ensures var s := Feed(Init(kind, lenient), pieces);
            s.error == 0 ==>
              && (AfterHeadersComplete(s.regs) == UntilEof <==>
                    !Stops(s.regs) && (MessageNeedsEof(s.regs) || Overread(s.regs)))
              && (AfterHeadersComplete(s.regs) == UntilEof && ShouldKeepAlive(s.regs) ==> Overread(s.regs))
  {
    var s := Feed(Init(kind, lenient), pieces);
    AlwaysSound(kind, lenient, pieces);
    if s.error == 0 {
      UntilEofIff(s.regs);
      if AfterHeadersComplete(s.regs) == UntilEof {
        NothingAfterEof(s.regs);
      }
    }
  }

  // ---------------------------------------------------------------- the body

  /** The parser before such a body. */
  ghost predicate AtEof(s: State<Label>) {
    s.current == Body(SpanStartBody2) && Between(s) && s.regs.finish == FINISH_SAFE_WITH_CB
  }

  function InEof(s: State<Label>, held: seq<Byte>): State<Label> {
    s.(current := Body(Eof), span := Some(OnBody), held := held)
  }

  lemma {:induction false} EofRuns(s: State<Label>, held: seq<Byte>, data: seq<Byte>)
    ensures var t := RunOn(InEof(s, held), data); t == InEof(s, held + data).(regs := t.regs)
    ensures RunOn(InEof(s, held), data).regs.finish == s.regs.finish
    decreases |data|
  {
    if data == [] {
      Rests(InEof(s, held));
      assert held + data == held;
    } else {
      assert data == [data[0]] + data[1..];
      Reads(InEof(s, held), data[0], data[1..]);
      EofRuns(s.(regs := s.regs.(matched := 0)), held + [data[0]], data[1..]);
      Associates(held, [data[0]], data[1..]);
    }
  }

  lemma FlushTells(s: State<Label>, data: seq<Byte>)
    requires AtEof(s)
    ensures var t := Flush(RunOn(s, data));
            && t.error == 0 && t.regs.finish == s.regs.finish && Norm(t.log) == Norm(s.log) + Octets(OnBody, data)
  {
    if data == [] {
      SpanStartRests(s);
      assert Norm(s.log) + Octets(OnBody, []) == Norm(s.log);
    } else {
      StartsSpan(s, data);
      EofRuns(s, [], data);
      assert [] + data == data;
      NormSnoc(s.log, Data(OnBody, data));
    }
  }

  /** Everything that comes is body, however it is cut, and the end of the connection completes the
      message. */
  lemma EofTakesAll(s: State<Label>, pieces: seq<seq<Byte>>)
    requires AtEof(s) && pieces != []
    ensures var t := Feed(s, pieces);
            && t.error == 0 && Norm(t.log) == Norm(s.log) + Octets(OnBody, Concat(pieces))
            && Finish(t) == (0, t.log + [Notify(MessageComplete)])
  {
    FlushTells(s, Concat(pieces));
    OneBuffer(s, Concat(pieces));
    AnyCutting(s, pieces);
  }
}
