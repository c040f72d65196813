/** Which Transfer-Encoding values make the parser expect chunks. */
module TransferEncoding {
  import opened Bytes
  import opened Llparse
  import opened Llhttp
  import opened LlhttpSteps

  const COMMA: Byte := 0x2c

  /** What follows the first comma. */
  function AfterComma(v: seq<Byte>): (r: seq<Byte>)
    ensures COMMA in v ==> |r| < |v|
  {
    if v == [] then [] else if v[0] == COMMA then v[1..] else AfterComma(v[1..])
  }

  function DropBlanks(v: seq<Byte>): (r: seq<Byte>)
    ensures |r| <= |v|
  {
    if v != [] && (v[0] == SP || v[0] == HT) then DropBlanks(v[1..]) else v
  }

  function DropSpaces(v: seq<Byte>): (r: seq<Byte>)
    ensures |r| <= |v|
  {
    if v != [] && v[0] == SP then DropSpaces(v[1..]) else v
  }

  /** The last item of the comma-separated list v, without the blanks after its comma. */
  function LastItem(v: seq<Byte>): seq<Byte>
    decreases |v|
  {
    if COMMA in v then LastItem(DropBlanks(AfterComma(v))) else v
  }

  /** "chunked" in any case, then spaces; once or several times over. */
  predicate IsChunkedRun(item: seq<Byte>)
    decreases |item|
  {
    && |item| >= 7 && Spells(ToLowerUnsafe, item[..7], CHUNKED)
    && var more := DropSpaces(item[7..]); more == [] || IsChunkedRun(more)
  }

  // ---------------------------------------------------------------- what the parser does

  /** Reading the value from header_value_te_chunked, as the control states go. */
  predicate Recognised(v: seq<Byte>)
    decreases |v|
  {
    if |v| >= 7 && Spells(ToLowerUnsafe, v[..7], CHUNKED) then
      var more := DropSpaces(v[7..]); more == [] || Recognised(more)
    else COMMA in v && Recognised(DropBlanks(AfterComma(v)))
  }

  lemma {:induction false} SpelledHasNoComma(bytes: seq<Byte>, blob: seq<Byte>)
    requires Spells(ToLowerUnsafe, bytes, blob) && forall b | b in blob :: b >= 0x61
    ensures COMMA !in bytes
    decreases |bytes|
  {
    if bytes != [] {
      assert blob[0] in blob && forall b | b in blob[1..] :: b in blob;
      SpelledHasNoComma(bytes[1..], blob[1..]);
    }
  }

  lemma {:induction false} SameAfterComma(a: seq<Byte>, b: seq<Byte>)
    requires COMMA !in a
    ensures AfterComma(a + b) == AfterComma(b)
    decreases |a|
  {
    if a == [] {
      assert a + b == b;
    } else {
      assert (a + b)[1..] == a[1..] + b && a[0] in a && forall x | x in a[1..] :: x in a;
      SameAfterComma(a[1..], b);
    }
  }

  lemma {:induction false} SpacesHaveNoComma(v: seq<Byte>)
    ensures AfterComma(DropSpaces(v)) == AfterComma(v) && (COMMA in DropSpaces(v) <==> COMMA in v)
    decreases |v|
  {
    if v != [] && v[0] == SP {
      assert v == [v[0]] + v[1..];
      SpacesHaveNoComma(v[1..]);
    }
  }

  /** The control states recognise a value by its last item alone. */
  lemma {:induction false} RecognisedByLastItem(v: seq<Byte>)
    ensures Recognised(v) <==> IsChunkedRun(LastItem(v))
    decreases |v|
  {
    if |v| >= 7 && Spells(ToLowerUnsafe, v[..7], CHUNKED) {
      var more := DropSpaces(v[7..]);
      assert v == v[..7] + v[7..];
      SpelledHasNoComma(v[..7], CHUNKED);
      SpacesHaveNoComma(v[7..]);
      SameAfterComma(v[..7], v[7..]);
      RecognisedByLastItem(more);
    } else if COMMA in v {
      RecognisedByLastItem(DropBlanks(AfterComma(v)));
    }
  }

  // ---------------------------------------------------------------- the run over a value

  ghost predicate IsValue(v: seq<Byte>) {
    forall b | b in v :: IsHeaderValueByte(b)
  }

  lemma PartsAreValues(a: seq<Byte>, b: seq<Byte>)
    requires IsValue(a + b)
    ensures IsValue(a) && IsValue(b)
  {
    assert forall x | x in a :: x in a + b;
    assert forall x | x in b :: x in a + b;
  }

  /** In the value of Transfer-Encoding, with held already read. */
  function Reading(s: State<Label>, l: CodingState, held: seq<Byte>): State<Label> {
    s.(current := Coding(l), span := Some(OnHeaderValue), held := held, index := 0,
       regs := s.regs.(matched := 0, headerState := H_TRANSFER_ENCODING))
  }

  /** At the end of the value. */
  function HasRead(s: State<Label>, headerState: nat, held: seq<Byte>): State<Label> {
    s.(current := Value(HeaderValueOtherwise), span := Some(OnHeaderValue), held := held, index := 0,
       regs := s.regs.(matched := 0, headerState := headerState))
  }

  function Consumed(v: seq<Byte>, rest: seq<Byte>): seq<Byte>
    requires |rest| <= |v|
  {
    v[..|v| - |rest|]
  }

  /** A token is skipped up to its comma, or forgotten at the end of the value. */
  lemma {:induction false} TokenRuns(s: State<Label>, held: seq<Byte>, v: seq<Byte>, end: seq<Byte>)
    requires IsValue(v)
    ensures RunOn(Reading(s, HeaderValueTeToken, held), v + (CRLF + end)) ==
            if COMMA in v
            then RunOn(Reading(s, HeaderValueTeTokenOws, held + Consumed(v, AfterComma(v))),
                       AfterComma(v) + (CRLF + end))
            else RunOn(HasRead(s, H_GENERAL, held + v), CRLF + end)
    decreases |v|
  {
    if v == [] {
      TokenEnds(s, held, end);
      assert v + (CRLF + end) == CRLF + end && held + v == held;
    } else {
      var tail := v[1..] + (CRLF + end);
      assert v + (CRLF + end) == [v[0]] + tail && v == [v[0]] + v[1..] && v[0] in v;
      Reads(Reading(s, HeaderValueTeToken, held), v[0], tail);
      PartsAreValues([v[0]], v[1..]);
      if v[0] == COMMA {
        assert Consumed(v, v[1..]) == [v[0]];
      } else {
        TokenRuns(s, held + [v[0]], v[1..], end);
        if COMMA in v[1..] {
          assert Consumed(v, AfterComma(v)) == [v[0]] + Consumed(v[1..], AfterComma(v[1..]));
          Associates(held, [v[0]], Consumed(v[1..], AfterComma(v[1..])));
        } else {
          Associates(held, [v[0]], v[1..]);
        }
      }
    }
  }

  lemma TokenEnds(s: State<Label>, held: seq<Byte>, end: seq<Byte>)
    ensures RunOn(Reading(s, HeaderValueTeToken, held), CRLF + end) == RunOn(HasRead(s, H_GENERAL, held), CRLF + end)
  {
    assert CRLF + end == [CR] + ([LF] + end);
    Peeks(Reading(s, HeaderValueTeToken, held), CR, [LF] + end);
    Invokes(Reading(s, ForgetTe, held), CRLF + end);
    Peeks(HasRead(s, H_GENERAL, held).(current := Value(HeaderValue)), CR, [LF] + end);
  }

  lemma {:induction false} BlanksAreDropped(s: State<Label>, held: seq<Byte>, v: seq<Byte>, end: seq<Byte>)
    ensures RunOn(Reading(s, HeaderValueTeTokenOws, held), v + (CRLF + end)) ==
            RunOn(Reading(s, HeaderValueTeChunked, held + Consumed(v, DropBlanks(v))), DropBlanks(v) + (CRLF + end))
    decreases |v|
  {
    var input := v + (CRLF + end);
    var b, tail := input[0], input[1..];
    assert input == [b] + tail;
    if v != [] && (v[0] == SP || v[0] == HT) {
      assert tail == v[1..] + (CRLF + end);
      Reads(Reading(s, HeaderValueTeTokenOws, held), b, tail);
      BlanksAreDropped(s, held + [v[0]], v[1..], end);
      assert Consumed(v, DropBlanks(v)) == [v[0]] + Consumed(v[1..], DropBlanks(v[1..]));
      Associates(held, [v[0]], Consumed(v[1..], DropBlanks(v[1..])));
    } else {
      Peeks(Reading(s, HeaderValueTeTokenOws, held), b, tail);
      assert held + Consumed(v, v) == held;
    }
  }

  /** After "chunked": spaces, then the end of the value or another try at "chunked". */
  lemma {:induction false} SpacesAreDropped(s: State<Label>, held: seq<Byte>, v: seq<Byte>, end: seq<Byte>)
    requires IsValue(v)
    ensures var more := DropSpaces(v);
            RunOn(Reading(s, HeaderValueTeChunkedLast, held), v + (CRLF + end)) ==
            if more == [] then RunOn(HasRead(s, H_CHUNKED, held + v), CRLF + end)
            else RunOn(Reading(s, HeaderValueTeChunked, held + Consumed(v, more)), more + (CRLF + end))
    decreases |v|
  {
    if v == [] {
      ChunkedEnds(s, held, end);
      assert v + (CRLF + end) == CRLF + end && held + v == held;
    } else {
      var tail := v[1..] + (CRLF + end);
      assert v + (CRLF + end) == [v[0]] + tail && v == [v[0]] + v[1..] && v[0] in v;
      if v[0] == SP {
        PartsAreValues([v[0]], v[1..]);
        Reads(Reading(s, HeaderValueTeChunkedLast, held), SP, tail);
        SpacesAreDropped(s, held + [v[0]], v[1..], end);
        var more := DropSpaces(v[1..]);
        assert Consumed(v, more) == [v[0]] + Consumed(v[1..], more);
        Associates(held, [v[0]], Consumed(v[1..], more));
        Associates(held, [v[0]], v[1..]);
      } else {
        Peeks(Reading(s, HeaderValueTeChunkedLast, held), v[0], tail);
        assert held + Consumed(v, v) == held;
      }
    }
  }

  lemma ChunkedEnds(s: State<Label>, held: seq<Byte>, end: seq<Byte>)
    ensures RunOn(Reading(s, HeaderValueTeChunkedLast, held), CRLF + end) ==
            RunOn(HasRead(s, H_CHUNKED, held), CRLF + end)
  {
    assert CRLF + end == [CR] + ([LF] + end);
    Peeks(Reading(s, HeaderValueTeChunkedLast, held), CR, [LF] + end);
    Invokes(Reading(s, HaveChunked, held), CRLF + end);
  }

  /** The matcher gives up at the line end at the latest. */
  lemma {:induction false} LineEndFails(blob: seq<Byte>, index: nat, v: seq<Byte>, end: seq<Byte>)
    requires index < |blob| && forall b | b in blob :: b >= 0x61
    ensures var m := Match(ToLowerUnsafe, blob, index, v + (CRLF + end));
            (m.MatchMismatch? && m.p <= |v|) || (m.MatchComplete? && m.p < |v|)
    decreases |v|
  {
    var input := v + (CRLF + end);
    assert blob[index] in blob;
    if v == [] {
      assert input[0] == CR;
    } else {
      assert input[1..] == v[1..] + (CRLF + end);
      if index + 1 < |blob| {
        LineEndFails(blob, index + 1, v[1..], end);
      }
    }
  }

  lemma WhereChunkedFails(v: seq<Byte>, end: seq<Byte>) returns (p: nat)
    requires IsValue(v) && !(|v| >= 7 && Spells(ToLowerUnsafe, v[..7], CHUNKED))
    ensures Match(ToLowerUnsafe, CHUNKED, 0, v + (CRLF + end)) == MatchMismatch(p) && p <= |v| && COMMA !in v[..p]
  {
    var input := v + (CRLF + end);
    var m := Match(ToLowerUnsafe, CHUNKED, 0, input);
    MatchIsSpelling(ToLowerUnsafe, CHUNKED, 0, input);
    assert CHUNKED[0..] == CHUNKED;
    LineEndFails(CHUNKED, 0, v, end);
    assert |v| >= 7 ==> input[..7] == v[..7];
    p := m.p;
    MismatchIsLate(ToLowerUnsafe, CHUNKED, 0, input);
    assert input[..p] == v[..p];
    assert forall b | b in CHUNKED[0..p] :: b in CHUNKED;
    SpelledHasNoComma(v[..p], CHUNKED[0..p]);
  }

  /** Where "chunked" is not spelled, the token is skipped; the letters read so far held no comma. */
  lemma TokenRunsLate(s: State<Label>, held: seq<Byte>, a: seq<Byte>, b: seq<Byte>, end: seq<Byte>)
    requires IsValue(a + b) && COMMA !in a
    ensures var v := a + b;
            RunOn(Reading(s, HeaderValueTeToken, held + a), b + (CRLF + end)) ==
            if COMMA in v
            then RunOn(Reading(s, HeaderValueTeTokenOws, held + Consumed(v, AfterComma(v))),
                       AfterComma(v) + (CRLF + end))
            else RunOn(HasRead(s, H_GENERAL, held + v), CRLF + end)
  {
    PartsAreValues(a, b);
    TokenRuns(s, held + a, b, end);
    SameAfterComma(a, b);
    if COMMA in b {
      assert Consumed(a + b, AfterComma(b)) == a + Consumed(b, AfterComma(b));
      Associates(held, a, Consumed(b, AfterComma(b)));
    } else {
      Associates(held, a, b);
    }
  }

  lemma ChunkedGivesUp(s: State<Label>, held: seq<Byte>, a: seq<Byte>, rest: seq<Byte>)
    requires rest != [] && Match(ToLowerUnsafe, CHUNKED, 0, a + rest) == MatchMismatch(|a|)
    ensures RunOn(Reading(s, HeaderValueTeChunked, held), a + rest) ==
            RunOn(Reading(s, HeaderValueTeToken, held + a), rest)
  {
    assert (a + rest)[..|a|] == a && (a + rest)[|a|..] == rest;
    Misspelled(Reading(s, HeaderValueTeChunked, held), a + rest);
  }

  lemma GivesUpAt(s: State<Label>, held: seq<Byte>, a: seq<Byte>, b: seq<Byte>, end: seq<Byte>)
    requires IsValue(a + b) && COMMA !in a
    requires Match(ToLowerUnsafe, CHUNKED, 0, a + (b + (CRLF + end))) == MatchMismatch(|a|)
    ensures var v := a + b;
            RunOn(Reading(s, HeaderValueTeChunked, held), a + (b + (CRLF + end))) ==
            if COMMA in v
            then RunOn(Reading(s, HeaderValueTeTokenOws, held + Consumed(v, AfterComma(v))),
                       AfterComma(v) + (CRLF + end))
            else RunOn(HasRead(s, H_GENERAL, held + v), CRLF + end)
  {
    TokenRunsLate(s, held, a, b, end);
    ChunkedGivesUp(s, held, a, b + (CRLF + end));
  }

  lemma NotChunkedRuns(s: State<Label>, held: seq<Byte>, v: seq<Byte>, end: seq<Byte>)
    requires IsValue(v) && !(|v| >= 7 && Spells(ToLowerUnsafe, v[..7], CHUNKED))
    ensures RunOn(Reading(s, HeaderValueTeChunked, held), v + (CRLF + end)) ==
            if COMMA in v
            then RunOn(Reading(s, HeaderValueTeTokenOws, held + Consumed(v, AfterComma(v))),
                       AfterComma(v) + (CRLF + end))
            else RunOn(HasRead(s, H_GENERAL, held + v), CRLF + end)
  {
    var p := WhereChunkedFails(v, end);
    Splits(v, p, CRLF + end);
    GivesUpAt(s, held, v[..p], v[p..], end);
  }

  lemma Splits(v: seq<Byte>, p: nat, rest: seq<Byte>)
    requires p <= |v|
    ensures v == v[..p] + v[p..] && v + rest == v[..p] + (v[p..] + rest)
  {
    assert v == v[..p] + v[p..];
    Associates(v[..p], v[p..], rest);
  }

  /** The parser sets header_state to chunked at the end of the values it recognises, and forgets
      the others. */
  lemma {:induction false} CodingRuns(s: State<Label>, held: seq<Byte>, v: seq<Byte>, end: seq<Byte>)
    requires IsValue(v)
    ensures RunOn(Reading(s, HeaderValueTeChunked, held), v + (CRLF + end)) ==
            RunOn(HasRead(s, if Recognised(v) then H_CHUNKED else H_GENERAL, held + v), CRLF + end)
    decreases |v|
  {
    if |v| >= 7 && Spells(ToLowerUnsafe, v[..7], CHUNKED) {
      ChunkedThenRuns(s, held, v, end);
      var more := DropSpaces(v[7..]);
      if more != [] {
        SpacesLeaveRest(v[7..]);
        RestIsValue(v, more);
        CodingRuns(s, held + Consumed(v, more), more, end);
        ConsumedThenRest(held, v, more);
      }
    } else {
      NotChunkedRuns(s, held, v, end);
      if COMMA in v {
        CommaLeavesRest(v);
        var item := AfterComma(v);
        BlanksLeaveRest(item);
        var more := DropBlanks(item);
        BlanksAreDropped(s, held + Consumed(v, item), item, end);
        ConsumedTwice(held, v, item, more);
        RestIsValue(v, more);
        CodingRuns(s, held + Consumed(v, more), more, end);
        ConsumedThenRest(held, v, more);
      }
    }
  }

  // rest is what is left of v once a part of it is read

  ghost predicate IsRest(v: seq<Byte>, rest: seq<Byte>) {
    |rest| <= |v| && v[|v| - |rest|..] == rest
  }

  lemma {:induction false} CommaLeavesRest(v: seq<Byte>)
    ensures |AfterComma(v)| <= |v| && IsRest(v, AfterComma(v))
    decreases |v|
  {
    if v != [] && v[0] != COMMA {
      CommaLeavesRest(v[1..]);
      var r := AfterComma(v);
      assert v[|v| - |r|..] == v[1..][|v| - 1 - |r|..];
    }
  }

  lemma {:induction false} BlanksLeaveRest(v: seq<Byte>)
    ensures IsRest(v, DropBlanks(v))
    decreases |v|
  {
    if v != [] && (v[0] == SP || v[0] == HT) {
      BlanksLeaveRest(v[1..]);
      var r := DropBlanks(v);
      assert v[|v| - |r|..] == v[1..][|v| - 1 - |r|..];
    }
  }

  lemma {:induction false} SpacesLeaveRest(v: seq<Byte>)
    ensures IsRest(v, DropSpaces(v))
    decreases |v|
  {
    if v != [] && v[0] == SP {
      SpacesLeaveRest(v[1..]);
      var r := DropSpaces(v);
      assert v[|v| - |r|..] == v[1..][|v| - 1 - |r|..];
    }
  }

  lemma RestIsValue(v: seq<Byte>, rest: seq<Byte>)
    requires IsValue(v) && IsRest(v, rest)
    ensures IsValue(rest)
  {
    assert forall b | b in rest :: b in v;
  }

  lemma ConsumedThenRest(held: seq<Byte>, v: seq<Byte>, rest: seq<Byte>)
    requires IsRest(v, rest)
    ensures held + Consumed(v, rest) + rest == held + v
  {
    assert Consumed(v, rest) + rest == v;
    Associates(held, Consumed(v, rest), rest);
  }

  lemma ConsumedTwice(held: seq<Byte>, v: seq<Byte>, item: seq<Byte>, rest: seq<Byte>)
    requires IsRest(v, item) && IsRest(item, rest)
    ensures IsRest(v, rest) && held + Consumed(v, item) + Consumed(item, rest) == held + Consumed(v, rest)
  {
    assert Consumed(v, rest) == Consumed(v, item) + Consumed(item, rest);
    Associates(held, Consumed(v, item), Consumed(item, rest));
  }

  lemma ChunkedThenRuns(s: State<Label>, held: seq<Byte>, v: seq<Byte>, end: seq<Byte>)
    requires IsValue(v) && |v| >= 7 && Spells(ToLowerUnsafe, v[..7], CHUNKED)
    ensures var more := DropSpaces(v[7..]);
            && IsRest(v, more)
            && RunOn(Reading(s, HeaderValueTeChunked, held), v + (CRLF + end)) ==
               if more == [] then RunOn(HasRead(s, H_CHUNKED, held + v), CRLF + end)
               else RunOn(Reading(s, HeaderValueTeChunked, held + Consumed(v, more)), more + (CRLF + end))
  {
    var a, b := v[..7], v[7..];
    var more := DropSpaces(b);
    assert v == a + b && v + (CRLF + end) == a + (b + (CRLF + end));
    Spelled(Reading(s, HeaderValueTeChunked, held), a, b + (CRLF + end));
    PartsAreValues(a, b);
    SpacesAreDropped(s, held + a, b, end);
    SpacesLeaveRest(b);
    assert Consumed(v, b) == a && IsRest(v, b);
    ConsumedTwice(held, v, b, more);
    Associates(held, a, b);
  }

  // ---------------------------------------------------------------- the field

  /** The parser at the first byte of a Transfer-Encoding value. */
  ghost predicate AtCoding(s: State<Label>) {
    s.current == Value(SpanStartHeaderValue1) && s.regs.headerState == H_TRANSFER_ENCODING && Between(s)
  }

  /** What a line of the value leaves behind: whether it was recognised is told by its last item. */
  function CodingLine(r: Registers, v: seq<Byte>): Registers {
    r.(matched := 0, headerState := if IsChunkedRun(LastItem(v)) then H_CHUNKED else H_GENERAL,
       flags := r.flags.(transferEncoding := true, chunked := false))
  }

  lemma CodingStarts(s: State<Label>, input: seq<Byte>)
    requires AtCoding(s) && input != []
    ensures var t := s.(regs := s.regs.(flags := s.regs.flags.(transferEncoding := true, chunked := false)));
            RunOn(s.(regs := s.regs.(matched := 0)), input) == RunOn(Reading(t, HeaderValueTeChunked, []), input)
  {
    var u := s.(regs := s.regs.(matched := 0));
    StartsSpan(u, input);
    Invokes(u.(current := Value(LoadHeaderState2), span := Some(OnHeaderValue)), input);
  }

  /** The line is read up to its end, where the value may go on. */
  lemma CodingLineRuns(s: State<Label>, v: seq<Byte>, end: seq<Byte>)
    requires AtCoding(s) && s.regs.matched == 0 && IsValue(v)
    ensures RunOn(s, v + (CRLF + end)) ==
            RunOn(s.(current := Value(HeaderValueLws), regs := CodingLine(s.regs, v),
                     log := s.log + [Data(OnHeaderValue, v)]), end)
  {
    CodingStarts(s, v + (CRLF + end));
    assert s.(regs := s.regs.(matched := 0)) == s;
    var t := s.(regs := s.regs.(flags := s.regs.flags.(transferEncoding := true, chunked := false)));
    CodingRuns(t, [], v, end);
    RecognisedByLastItem(v);
    assert [] + v == v;
    ValueLineEnds(HasRead(t, if Recognised(v) then H_CHUNKED else H_GENERAL, v), v, end);
  }

  /** However a Transfer-Encoding line and the line end after it are cut into buffers, chunks are
      expected if and only if the last item of its list is "chunked" in any case and spaces, once or
      several times over. */
  lemma ChunkedIffLastItem(s: State<Label>, v: seq<Byte>, pieces: seq<seq<Byte>>)
    requires AtCoding(s) && s.regs.matched == 0 && IsValue(v)
    requires Concat(pieces) == v + CRLF + [CR]
    ensures var t := Feed(s, pieces);
            && t.error == 0 && t.current == Headers(HeadersAlmostDone) && t.regs.flags.transferEncoding
            && (t.regs.flags.chunked <==> IsChunkedRun(LastItem(v)))
  {
    assert v + CRLF + [CR] == v + (CRLF + ([CR] + []));
    CodingLineRuns(s, v, [CR] + []);
    var u :=
      s.(current := Value(HeaderValueLws), regs := CodingLine(s.regs, v), log := s.log + [Data(OnHeaderValue, v)]);
    FieldEnds(u, CR, []);
    var t := u.(current := Name(HeaderFieldStart), regs := ApplyHeaderState(u.regs),
                log := u.log + [Notify(HeaderValueComplete)]);
    Reads(t, CR, []);
    Rests(t.(current := Headers(HeadersAlmostDone)));
    OneBuffer(s, Concat(pieces));
    AnyCutting(s, pieces);
  }

  /** The list whose last item is just "chunked" is recognised... */
  lemma ChunkedTokenIsRun(token: seq<Byte>, spaces: seq<Byte>)
    requires Spells(ToLower, token, CHUNKED) && forall b | b in spaces :: b == SP
    ensures IsChunkedRun(token + spaces)
  {
    var item := token + spaces;
    assert item[..7] == token && item[7..] == spaces;
    LowerIsUnsafe(token, CHUNKED);
    AllSpacesDrop(spaces);
  }

  lemma {:induction false} LowerIsUnsafe(bytes: seq<Byte>, blob: seq<Byte>)
    requires Spells(ToLower, bytes, blob) && forall b | b in blob :: 0x61 <= b <= 0x7a
    ensures Spells(ToLowerUnsafe, bytes, blob)
    decreases |bytes|
  {
    if bytes != [] {
      assert blob[0] in blob && forall b | b in blob[1..] :: b in blob;
      LowerIsUnsafe(bytes[1..], blob[1..]);
    }
  }

  lemma {:induction false} AllSpacesDrop(spaces: seq<Byte>)
    requires forall b | b in spaces :: b == SP
    ensures DropSpaces(spaces) == []
    decreases |spaces|
  {
    if spaces != [] {
      assert spaces[0] in spaces && forall b | b in spaces[1..] :: b in spaces;
      AllSpacesDrop(spaces[1..]);
    }
  }

  /** ... nothing is that does not end in "chunked" and spaces... */
  lemma {:induction false} RunEndsInChunked(item: seq<Byte>) returns (k: nat)
    requires IsChunkedRun(item)
    ensures k + 7 <= |item| && Spells(ToLowerUnsafe, item[k..k + 7], CHUNKED) && DropSpaces(item[k + 7..]) == []
    decreases |item|
  {
    var more := DropSpaces(item[7..]);
    if more == [] {
      k := 0;
      assert item[0..7] == item[..7];
    } else {
      SpacesLeaveRest(item[7..]);
      var at := |item| - |more|;
      assert item[at..] == more;
      var i := RunEndsInChunked(more);
      k := at + i;
      assert item[k..k + 7] == more[i..i + 7] && item[k + 7..] == more[i + 7..];
    }
  }

  /** ... but more than the token "chunked" is. */
  lemma DoubledTokenIsRun()
    ensures IsChunkedRun(CHUNKED + CHUNKED) && LastItem(CHUNKED + CHUNKED) == CHUNKED + CHUNKED
  {
    var v := CHUNKED + CHUNKED;
    assert v[..7] == CHUNKED && v[7..] == CHUNKED;
    assert CHUNKED + [] == CHUNKED;
    SpellsItself(CHUNKED);
    ChunkedTokenIsRun(CHUNKED, []);
    LowerIsUnsafe(CHUNKED, CHUNKED);
  }

  /** A word without capitals. */
  lemma {:induction false} SpellsItself(blob: seq<Byte>)
    requires forall b | b in blob :: b <= 0x40 || b >= 0x5b
    ensures Spells(ToLower, blob, blob)
    decreases |blob|
  {
    if blob != [] {
      assert blob[0] in blob && forall b | b in blob[1..] :: b in blob;
      SpellsItself(blob[1..]);
    }
  }
}
