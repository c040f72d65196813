/** What a whole block of header fields leaves in the registers, and what the empty line after it
    decides. */
module HeaderBlock {
  import opened Bytes
  import opened Llparse
  import opened HttpGlue
  import opened Llhttp
  import opened LlhttpSteps
  import opened HeaderNames
  import opened TransferEncoding
  import opened ContentLengthValue
  import opened ConnectionValue
  import opened MessageEnd
  import opened HeaderFields

  /** A value as it is written: its first line, and those it goes on with. */
  datatype Written = Written(first: seq<Byte>, folds: seq<seq<Byte>>)

  /** One value, on one line. */
  function OnOneLine(v: seq<Byte>): seq<Written> { [Written(v, [])] }

  /** The values of the fields of one kind, in order. */
  ghost function ValuesOf(fields: seq<Field>, kind: nat): seq<Written> {
    if fields == [] then []
    else
      (if KindOf(fields[0].name) == kind then [Written(fields[0].value, fields[0].folds)] else []) +
      ValuesOf(fields[1..], kind)
  }

  function NonEmpty(values: seq<Written>): seq<Written> {
    if values == [] then [] else (if values[0].first == [] then [] else [values[0]]) + NonEmpty(values[1..])
  }

  /** Content-Length, and Transfer-Encoding where it says anything. */
  ghost function Lengths(fields: seq<Field>): seq<Written> { ValuesOf(fields, H_CONTENT_LENGTH) }

  ghost function Codings(fields: seq<Field>): seq<Written> { NonEmpty(ValuesOf(fields, H_TRANSFER_ENCODING)) }

  ghost function Upgrades(fields: seq<Field>): seq<Written> { NonEmpty(ValuesOf(fields, H_UPGRADE)) }

  /** Registers at the value of a Connection field. */
  const AT_CONNECTION := Registers(0, 0, 0, 0, 0, 0, H_CONNECTION, Lenient(false, false, false), false, 0, NO_FLAGS, 0)

  /** The parser reads the line after this one as a list of options too, and not as text. */
  predicate GoesOn(v: seq<Byte>) {
    AtItem(AT_CONNECTION, v).headerState == H_CONNECTION
  }

  /** The options the parser finds in the lines of one value. */
  function OptionsInLines(lines: seq<seq<Byte>>): set<nat> {
    if lines == [] then {}
    else OptionsIn(lines[0]) + if GoesOn(lines[0]) then OptionsInLines(lines[1..]) else {}
  }

  /** The options of Connection and Proxy-Connection. */
  function Options(values: seq<Written>): set<nat> {
    if values == [] then {} else OptionsInLines([values[0].first] + values[0].folds) + Options(values[1..])
  }

  ghost function ConnectionOptions(fields: seq<Field>): set<nat> { Options(NonEmpty(ValuesOf(fields, H_CONNECTION))) }

  /** The parser's test for chunks: the last item on the first line of the last Transfer-Encoding. */
  predicate LastIsRun(codings: seq<Written>) {
    codings != [] && IsChunkedRun(LastItem(codings[|codings| - 1].first))
  }

  /** content_length after fields with these Content-Length values: only one can be read, on one line. */
  ghost function LengthAfter(flagged: bool, c: UInt64, lengths: seq<Written>): Option<UInt64> {
    if lengths == [] then Some(c)
    else if flagged || |lengths| > 1 || lengths[0].first == [] || lengths[0].folds != [] then None
    else ReadLength(c, lengths[0].first)
  }

  ghost function FlagsAfter(f: Flags, fields: seq<Field>): Flags {
    Flagged(f, ConnectionOptions(fields)).(
      upgrade := f.upgrade || Upgrades(fields) != [],
      contentLength := f.contentLength || Lengths(fields) != [],
      transferEncoding := f.transferEncoding || Codings(fields) != [],
      chunked := if Codings(fields) == [] then f.chunked else LastIsRun(Codings(fields)))
  }

  /** The block comes to this: refused for its lengths, or accepted with these registers. */
  ghost predicate Means(r: Registers, fields: seq<Field>, reading: Reading) {
    match LengthAfter(r.flags.contentLength, r.contentLength, Lengths(fields))
    case None => reading.Refused?
    case Some(n) =>
      && reading.Accepted?
      && reading.regs == r.(matched := reading.regs.matched, headerState := reading.regs.headerState,
                            contentLength := n, flags := FlagsAfter(r.flags, fields))
  }

  // ---------------------------------------------------------------- one field

  lemma ValuesOfOne(f: Field, kind: nat)
    ensures ValuesOf([f], kind) == if KindOf(f.name) == kind then [Written(f.value, f.folds)] else []
  {
    assert [f][1..] == [];
  }

  lemma NonEmptyOne(w: Written)
    ensures NonEmpty([w]) == (if w.first == [] then [] else [w]) && NonEmpty([]) == []
    ensures Options([w]) == OptionsInLines([w.first] + w.folds) && Options([]) == {}
  {
    assert [w][1..] == [];
  }

  /** What one field is among. */
  lemma OneField(f: Field)
    ensures var kind, w := KindOf(f.name), Written(f.value, f.folds);
            && Lengths([f]) == (if kind == H_CONTENT_LENGTH then [w] else [])
            && Codings([f]) == (if kind == H_TRANSFER_ENCODING && f.value != [] then [w] else [])
            && Upgrades([f]) == (if kind == H_UPGRADE && f.value != [] then [w] else [])
            && ConnectionOptions([f]) ==
               if kind == H_CONNECTION && f.value != [] then OptionsInLines(LinesOf(f)) else {}
  {
    ValuesOfOne(f, H_CONTENT_LENGTH);
    ValuesOfOne(f, H_TRANSFER_ENCODING);
    ValuesOfOne(f, H_UPGRADE);
    ValuesOfOne(f, H_CONNECTION);
    NonEmptyOne(Written(f.value, f.folds));
  }

  lemma NothingFlagged(f: Flags)
    ensures Flagged(f, {}) == f
  {}

  /** Lines that are not looked into change nothing but what their end applies. */
  lemma {:induction false} PlainLines(r: Registers, lines: seq<seq<Byte>>)
    requires r.headerState == H_GENERAL || r.headerState > H_UPGRADE
    ensures ApplyValue(r, lines) == Accepted(ApplyHeaderState(r))
    decreases |lines|
  {
    if lines != [] {
      PlainLines(r, lines[1..]);
    }
  }

  /** A list of options is read on as long as the parser takes its lines for one. */
  lemma {:induction false} ConnectionLines(r: Registers, lines: seq<seq<Byte>>)
    requires r.headerState == H_CONNECTION
    ensures var reading := ApplyValue(r, lines);
            && reading.Accepted?
            && reading.regs ==
               r.(flags := Flagged(r.flags, OptionsInLines(lines)), headerState := reading.regs.headerState)
    decreases |lines|
  {
    NothingFlagged(r.flags);
    if lines != [] {
      var a, more := AtItem(r, lines[0]), lines[1..];
      AtItemMeans(r, lines[0]);
      AtItemState(r, AT_CONNECTION, lines[0]);
      if GoesOn(lines[0]) {
        ConnectionLines(a, more);
        FlaggedTwice(r.flags, OptionsIn(lines[0]), OptionsInLines(more));
      } else {
        PlainLines(a, more);
        assert OptionsIn(lines[0]) + {} == OptionsIn(lines[0]);
      }
    }
  }

  /** A Content-Length goes on with no line. */
  lemma LengthLines(r: Registers, v: seq<Byte>, folds: seq<seq<Byte>>)
    requires r.headerState == H_CONTENT_LENGTH
    ensures var reading := ApplyValue(r, [v] + folds);
            if r.flags.contentLength || folds != [] || ReadLength(r.contentLength, v).None? then reading.Refused?
            else reading == ApplyLength(r, v)
  {
    assert ([v] + folds)[1..] == folds;
    var read := ReadLength(r.contentLength, v);
    if !r.flags.contentLength && read.Some? {
      var a := r.(contentLength := read.value, flags := r.flags.(contentLength := true));
      assert folds != [] ==> ApplyValue(a, folds) == Refused(UNEXPECTED_CONTENT_LENGTH);
    }
  }

  /** The first line of a coding tells; the first line of anything else too. */
  lemma OtherLines(r: Registers, v: seq<Byte>, folds: seq<seq<Byte>>)
    requires r.headerState == H_GENERAL || r.headerState == H_TRANSFER_ENCODING || r.headerState == H_UPGRADE
    ensures ApplyValue(r, [v] + folds) == Accepted(ApplyHeaderState(ApplyValueLine(r, v).regs))
  {
    assert ([v] + folds)[1..] == folds;
    PlainLines(ApplyValueLine(r, v).regs, folds);
  }

  lemma FieldMeans(r: Registers, f: Field)
    ensures Means(r, [f], ApplyField(r, f))
  {
    var kind := KindOf(f.name);
    var r0 := r.(matched := 0, headerState := kind);
    OneField(f);
    NothingFlagged(r.flags);
    if f.value != [] {
      if kind == H_CONNECTION {
        ConnectionLines(r0, LinesOf(f));
      } else if kind == H_CONTENT_LENGTH {
        LengthLines(r0, f.value, f.folds);
      } else {
        OtherLines(r0, f.value, f.folds);
      }
    }
  }

  // ---------------------------------------------------------------- many fields

  lemma ValuesOfMore(f: Field, more: seq<Field>, kind: nat)
    ensures ValuesOf([f] + more, kind) == ValuesOf([f], kind) + ValuesOf(more, kind)
  {
    ValuesOfOne(f, kind);
    assert ([f] + more)[1..] == more;
  }

  lemma {:induction false} NonEmptyConcat(a: seq<Written>, b: seq<Written>)
    ensures NonEmpty(a + b) == NonEmpty(a) + NonEmpty(b)
    decreases |a|
  {
    if a == [] {
      assert a + b == b;
    } else {
      var first := if a[0].first == [] then [] else [a[0]];
      assert (a + b)[1..] == a[1..] + b && (a + b)[0] == a[0];
      NonEmptyConcat(a[1..], b);
      assert first + (NonEmpty(a[1..]) + NonEmpty(b)) == first + NonEmpty(a[1..]) + NonEmpty(b);
    }
  }

  lemma {:induction false} OptionsConcat(a: seq<Written>, b: seq<Written>)
    ensures Options(a + b) == Options(a) + Options(b)
    decreases |a|
  {
    if a == [] {
      assert a + b == b;
    } else {
      var first := OptionsInLines([a[0].first] + a[0].folds);
      assert (a + b)[1..] == a[1..] + b && (a + b)[0] == a[0];
      OptionsConcat(a[1..], b);
      assert first + (Options(a[1..]) + Options(b)) == first + Options(a[1..]) + Options(b);
    }
  }

  lemma MoreFields(f: Field, more: seq<Field>)
    ensures Lengths([f] + more) == Lengths([f]) + Lengths(more)
    ensures Codings([f] + more) == Codings([f]) + Codings(more)
    ensures Upgrades([f] + more) == Upgrades([f]) + Upgrades(more)
    ensures ConnectionOptions([f] + more) == ConnectionOptions([f]) + ConnectionOptions(more)
  {
    ValuesOfMore(f, more, H_CONTENT_LENGTH);
    ValuesOfMore(f, more, H_TRANSFER_ENCODING);
    ValuesOfMore(f, more, H_UPGRADE);
    ValuesOfMore(f, more, H_CONNECTION);
    NonEmptyConcat(ValuesOf([f], H_TRANSFER_ENCODING), ValuesOf(more, H_TRANSFER_ENCODING));
    NonEmptyConcat(ValuesOf([f], H_UPGRADE), ValuesOf(more, H_UPGRADE));
    NonEmptyConcat(ValuesOf([f], H_CONNECTION), ValuesOf(more, H_CONNECTION));
    OptionsConcat(NonEmpty(ValuesOf([f], H_CONNECTION)), NonEmpty(ValuesOf(more, H_CONNECTION)));
  }

  lemma LastOfMore(a: seq<Written>, b: seq<Written>)
    requires b != []
    ensures LastIsRun(a + b) == LastIsRun(b)
  {}

  lemma FlagsOfMore(flags: Flags, f: Field, more: seq<Field>)
    ensures FlagsAfter(flags, [f] + more) == FlagsAfter(FlagsAfter(flags, [f]), more)
  {
    MoreFields(f, more);
    FlaggedTwice(flags, ConnectionOptions([f]), ConnectionOptions(more));
    if Codings(more) != [] {
      LastOfMore(Codings([f]), Codings(more));
    } else {
      assert Codings([f]) + [] == Codings([f]);
    }
  }

  lemma LengthsOfOne(f: Field)
    ensures |Lengths([f])| <= 1
  {
    OneField(f);
  }

  lemma LengthOfMore(flagged: bool, c: UInt64, f: Field, more: seq<Field>)
    ensures LengthAfter(flagged, c, Lengths([f] + more)) ==
            match LengthAfter(flagged, c, Lengths([f]))
            case None => None
            case Some(n) => LengthAfter(flagged || Lengths([f]) != [], n, Lengths(more))
  {
    MoreFields(f, more);
    LengthsOfOne(f);
    if Lengths([f]) == [] {
      assert [] + Lengths(more) == Lengths(more);
    } else {
      assert (Lengths([f]) + Lengths(more))[0] == Lengths([f])[0];
    }
  }

  /** A block of fields is refused just for its Content-Length fields; otherwise the registers are those
      that went in, but for the match, the header state, the length read and the flags. */
  lemma {:induction false} FieldsMean(r: Registers, fields: seq<Field>)
    ensures Means(r, fields, ApplyFields(r, fields))
    decreases |fields|
  {
    if fields == [] {
      NothingFlagged(r.flags);
    } else {
      var f, more := fields[0], fields[1..];
      assert fields == [f] + more;
      FieldMeans(r, f);
      LengthOfMore(r.flags.contentLength, r.contentLength, f, more);
      FlagsOfMore(r.flags, f, more);
      var reading := ApplyField(r, f);
      if reading.Accepted? {
        FieldsMean(reading.regs, more);
      }
    }
  }

  // ---------------------------------------------------------------- the empty line

  /** The state behind the headers. */
  function AfterHeadersLabel(r: Registers): Label {
    match AfterHeadersComplete(r)
    case NoBodyUpgrade => Done(OnMessageComplete1)
    case Chunks => Body(UpdateContentLength)
    case Counted => Body(SpanStartBody1)
    case UntilEof => Body(BodyUntilEof)
    case BadTransferEncoding => Failing(INVALID_TRANSFER_ENCODING)
    case NoBody => Done(OnMessageComplete)
  }

  /** Both Content-Length and Transfer-Encoding, which only a lenient parser takes. */
  predicate Contradictory(r: Registers) {
    r.flags.contentLength && r.flags.transferEncoding && !r.lenient.chunkedLength
  }

  /** The registers once the headers are complete. */
  function Completing(r: Registers): Registers {
    BeforeHeadersComplete(r.(matched := 0))
  }

  lemma EmptyLineRuns(s: State<Label>, rest: seq<Byte>)
    requires AtFields(s) && !s.regs.flags.trailing && !Contradictory(s.regs)
    ensures var r := Completing(s.regs);
            RunOn(s, CRLF + rest) ==
            RunOn(s.(current := AfterHeadersLabel(r), regs := r, log := s.log + [Notify(HeadersComplete)]), rest)
  {
    var r := Completing(s.regs);
    EmptyHeadersRun(s, rest);
    Invokes(To(s, Headers(HeadersDone)), rest);
    Invokes(s.(current := Headers(OnHeadersComplete), regs := r), rest);
    Invokes(s.(current := Headers(AfterHeaders), regs := r, log := s.log + [Notify(HeadersComplete)]), rest);
  }

  lemma ContradictionFails(s: State<Label>, rest: seq<Byte>)
    requires AtFields(s) && !s.regs.flags.trailing && Contradictory(s.regs)
    ensures RunOn(s, CRLF + rest).error == UNEXPECTED_CONTENT_LENGTH
  {
    EmptyHeadersRun(s, rest);
    var t := To(s, Headers(HeadersDone));
    Invokes(t, rest);
    Fails(t.(current := Failing(UNEXPECTED_CONTENT_LENGTH)), rest);
  }

  /** Behind trailers the empty line completes the last chunk and the message. */
  lemma TrailersEnd(s: State<Label>, rest: seq<Byte>)
    requires AtFields(s) && s.regs.flags.trailing
    ensures RunsOnTo(s, CRLF + rest,
                     Completed(s.(regs := s.regs.(matched := 0), log := s.log + [Notify(ChunkComplete)])), rest)
  {
    var t := To(s, Headers(HeadersDone));
    EmptyHeadersRun(s, rest);
    Invokes(t, rest);
    Invokes(t.(current := Body(OnChunkComplete1)), rest);
    MessageEnds(t.(current := Done(OnMessageComplete2), log := t.log + [Notify(ChunkComplete)]), rest);
  }
}
