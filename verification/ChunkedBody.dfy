/** The chunked coding of section 4.1 of RFC 7230, and what the parser makes of it. */
module ChunkedBody {
  import opened Bytes
  import opened Llparse
  import opened Digits
  import opened Llhttp
  import opened LlhttpSteps
  import opened MessageEnd
  import opened HeaderFields
  import opened HeaderBlock

  /** A chunk as a sender may write it: any hexadecimal spelling of its size, any extension. */
  datatype Chunk = Chunk(size: seq<Byte>, extension: seq<Byte>, data: seq<Byte>)

  ghost predicate IsSize(size: seq<Byte>, n: nat) {
    size != [] && (forall b | b in size :: IsHexDigit(b)) && Number(16, HexValues(size)) == n <= MAX64
  }

  ghost predicate IsExtension(extension: seq<Byte>) {
    extension != [] ==> (extension[0] == SP || extension[0] == ';' as int) && CR !in extension
  }

  ghost predicate IsChunk(c: Chunk) {
    IsSize(c.size, |c.data|) && IsExtension(c.extension)
  }

  function HexValues(size: seq<Byte>): seq<nat>
    requires forall b | b in size :: IsHexDigit(b)
  {
    if size == [] then [] else [HexValue(size[0])] + HexValues(size[1..])
  }

  ghost predicate AreChunks(chunks: seq<Chunk>) {
    chunks != [] ==> IsChunk(chunks[0]) && chunks[0].data != [] && AreChunks(chunks[1..])
  }

  function RenderChunk(c: Chunk): seq<Byte> {
    c.size + c.extension + CRLF + c.data + CRLF
  }

  function RenderAll(chunks: seq<Chunk>): seq<Byte> {
    if chunks == [] then [] else RenderChunk(chunks[0]) + RenderAll(chunks[1..])
  }

  function ChunkCalls(c: Chunk): seq<Call> {
    [Notify(ChunkHeader), Data(OnBody, c.data), Notify(ChunkComplete)]
  }

  function CallsOf(chunks: seq<Chunk>): seq<Call> {
    if chunks == [] then [] else ChunkCalls(chunks[0]) + CallsOf(chunks[1..])
  }

  /** The last chunk and the trailer section, as callbacks are told. */
  function EndCalls(trailers: seq<Field>): seq<Call> {
    [Notify(ChunkHeader)] + (CallsOfFields(trailers) + [Notify(ChunkComplete)])
  }

  /** What the chunks carry. */
  function DataOf(chunks: seq<Chunk>): seq<Byte> {
    if chunks == [] then [] else chunks[0].data + DataOf(chunks[1..])
  }

  /** The parser about to read a chunk size. */
  ghost predicate AtChunk(s: State<Label>) {
    s.current == Body(ChunkSizeDigit) && s.regs.contentLength == 0 && s.regs.matched == 0 && Between(s)
  }

  function AtSize(s: State<Label>, value: UInt64, matched: nat): State<Label> {
    s.(current := Body(ChunkSize), regs := s.regs.(matched := matched, contentLength := value))
  }

  /** A digit is folded in. */
  lemma DigitRuns(s: State<Label>, b: Byte, rest: seq<Byte>)
    requires s.current == Body(ChunkSizeDigit) || s.current == Body(ChunkSize)
    requires s.span == None && IsHexDigit(b) && !MulAdd(16, s.regs.contentLength, HexValue(b)).overflow
    ensures RunOn(s, [b] + rest) ==
            RunOn(AtSize(s, MulAdd(16, s.regs.contentLength, HexValue(b)).value, HexValue(b)), rest)
  {
    Reads(s, b, rest);
    Invokes(s.(current := Body(MulAddContentLength), regs := s.regs.(matched := HexValue(b))), rest);
  }

  lemma {:induction false} SizeRuns(s: State<Label>, size: seq<Byte>, rest: seq<Byte>)
    requires s.current == Body(ChunkSizeDigit) || s.current == Body(ChunkSize)
    requires s.span == None && size != [] && forall b | b in size :: IsHexDigit(b)
    requires !MulAddAll(16, s.regs.contentLength, HexValues(size)).overflow
    ensures RunOn(s, size + rest) ==
            RunOn(AtSize(s, MulAddAll(16, s.regs.contentLength, HexValues(size)).value,
                         HexValue(size[|size| - 1])), rest)
    decreases |size|
  {
    assert size[0] in size;
    var f := MulAdd(16, s.regs.contentLength, HexValue(size[0]));
    assert HexValues(size)[1..] == HexValues(size[1..]);
    assert size + rest == [size[0]] + (size[1..] + rest);
    DigitRuns(s, size[0], size[1..] + rest);
    if |size| == 1 {
      assert size[1..] + rest == rest;
    } else {
      assert forall b | b in size[1..] :: b in size;
      SizeRuns(AtSize(s, f.value, HexValue(size[0])), size[1..], rest);
    }
  }

  /** An extension is skipped, whatever it says; and so is a byte behind the CR. */
  lemma {:induction false} ParametersRun(s: State<Label>, extension: seq<Byte>, x: Byte, rest: seq<Byte>)
    requires s.current == Body(ChunkParameters) && s.span == None && CR !in extension
    ensures RunOn(s, extension + [CR, x] + rest) == RunOn(To(s, Body(OnChunkHeader)), rest)
    decreases |extension|
  {
    if extension == [] {
      assert extension + [CR, x] + rest == [CR] + ([x] + rest);
      Reads(s, CR, [x] + rest);
      Reads(To(s, Body(ChunkSizeAlmostDone)), x, rest);
    } else {
      assert extension + [CR, x] + rest == [extension[0]] + (extension[1..] + [CR, x] + rest);
      Reads(s, extension[0], extension[1..] + [CR, x] + rest);
      ParametersRun(To(s, Body(ChunkParameters)), extension[1..], x, rest);
    }
  }

  lemma LineEndRuns(s: State<Label>, extension: seq<Byte>, x: Byte, rest: seq<Byte>)
    requires s.current == Body(ChunkSize) && s.span == None && IsExtension(extension)
    ensures RunOn(s, extension + [CR, x] + rest) == RunOn(To(s, Body(OnChunkHeader)), rest)
  {
    var t := To(s, Body(ChunkSizeOtherwise));
    if extension == [] {
      assert extension + [CR, x] + rest == [CR] + ([x] + rest);
      Peeks(s, CR, [x] + rest);
      Reads(t, CR, [x] + rest);
      Reads(To(s, Body(ChunkSizeAlmostDone)), x, rest);
    } else {
      assert extension + [CR, x] + rest == [extension[0]] + (extension[1..] + [CR, x] + rest);
      Peeks(s, extension[0], extension[1..] + [CR, x] + rest);
      Reads(t, extension[0], extension[1..] + [CR, x] + rest);
      ParametersRun(To(s, Body(ChunkParameters)), extension[1..], x, rest);
    }
  }

  // ---------------------------------------------------------------- any size line

  /** The digits a line begins with. */
  function SizeDigits(line: seq<Byte>): (digits: seq<Byte>)
    ensures digits <= line && forall b | b in digits :: IsHexDigit(b)
  {
    if line != [] && IsHexDigit(line[0]) then [line[0]] + SizeDigits(line[1..]) else []
  }

  /** The size a line says, if it says one: a hexadecimal number of 64 bits, alone or before an extension. */
  function SizeIn(line: seq<Byte>): Option<nat> {
    var digits := SizeDigits(line);
    var n, tail := Number(16, HexValues(digits)), line[|digits|..];
    if digits != [] && n <= MAX64 && (tail == [] || tail[0] == SP || tail[0] == ';' as int) then Some(n) else None
  }

  lemma {:induction false} DigitsEnd(line: seq<Byte>)
    ensures var tail := line[|SizeDigits(line)|..]; tail != [] ==> !IsHexDigit(tail[0])
  {
    if line != [] && IsHexDigit(line[0]) {
      DigitsEnd(line[1..]);
      assert line[1..][|SizeDigits(line[1..])|..] == line[|SizeDigits(line)|..];
    }
  }

  lemma DigitFails(s: State<Label>, b: Byte, rest: seq<Byte>)
    requires s.current == Body(ChunkSizeDigit) || s.current == Body(ChunkSize)
    requires s.span == None && IsHexDigit(b) && MulAdd(16, s.regs.contentLength, HexValue(b)).overflow
    ensures RunOn(s, [b] + rest).error == INVALID_CHUNK_SIZE
  {
    var t := s.(current := Body(MulAddContentLength), regs := s.regs.(matched := HexValue(b)));
    Reads(s, b, rest);
    Invokes(t, rest);
    Fails(t.(current := Failing(INVALID_CHUNK_SIZE), regs := BodyRun(MulAddContentLength, t.regs).0), rest);
  }

  /** Digits that do not fit are refused, whatever follows. */
  lemma {:induction false} SizeFails(s: State<Label>, size: seq<Byte>, rest: seq<Byte>)
    requires s.current == Body(ChunkSizeDigit) || s.current == Body(ChunkSize)
    requires s.span == None && forall b | b in size :: IsHexDigit(b)
    requires MulAddAll(16, s.regs.contentLength, HexValues(size)).overflow
    ensures RunOn(s, size + rest).error == INVALID_CHUNK_SIZE
    decreases |size|
  {
    assert size[0] in size && forall b | b in size[1..] :: b in size;
    var f := MulAdd(16, s.regs.contentLength, HexValue(size[0]));
    assert HexValues(size)[1..] == HexValues(size[1..]);
    assert size + rest == [size[0]] + (size[1..] + rest);
    if f.overflow {
      DigitFails(s, size[0], size[1..] + rest);
    } else {
      DigitRuns(s, size[0], size[1..] + rest);
      SizeFails(AtSize(s, f.value, HexValue(size[0])), size[1..], rest);
    }
  }

  lemma NoDigitFails(s: State<Label>, b: Byte, rest: seq<Byte>)
    requires s.current == Body(ChunkSizeDigit) && s.span == None && !IsHexDigit(b)
    ensures RunOn(s, [b] + rest).error == INVALID_CHUNK_SIZE
  {
    Peeks(s, b, rest);
    Fails(To(s, Failing(INVALID_CHUNK_SIZE)), [b] + rest);
  }

  lemma BehindDigitsFails(s: State<Label>, b: Byte, rest: seq<Byte>)
    requires s.current == Body(ChunkSize) && s.span == None
    requires !IsHexDigit(b) && b != CR && b != SP && b != ';' as int
    ensures RunOn(s, [b] + rest).error == INVALID_CHUNK_SIZE
  {
    Peeks(s, b, rest);
    Peeks(To(s, Body(ChunkSizeOtherwise)), b, rest);
    Fails(To(s, Failing(INVALID_CHUNK_SIZE)), [b] + rest);
  }

  /** Behind the line, before the header of the chunk is told. */
  function SizeRead(s: State<Label>, n: UInt64): State<Label> {
    s.(current := Body(OnChunkHeader), regs := s.regs.(matched := 0, contentLength := n))
  }

  lemma LineSplits(line: seq<Byte>, x: Byte, rest: seq<Byte>)
    ensures var digits := SizeDigits(line);
            line + [CR, x] + rest == digits + (line[|digits|..] + [CR, x] + rest)
  {
    var digits := SizeDigits(line);
    assert line == digits + line[|digits|..];
  }

  lemma LineWithSize(s: State<Label>, line: seq<Byte>, x: Byte, rest: seq<Byte>)
    requires AtChunk(s) && CR !in line && SizeIn(line).Some?
    ensures RunOn(s, line + [CR, x] + rest) == RunOn(SizeRead(s, SizeIn(line).value), rest)
  {
    var digits := SizeDigits(line);
    var tail := line[|digits|..];
    MulAddAllIsExact(16, HexValues(digits));
    LineSplits(line, x, rest);
    SizeRuns(s, digits, tail + [CR, x] + rest);
    LineEndRuns(AtSize(s, SizeIn(line).value, HexValue(digits[|digits| - 1])), tail, x, rest);
  }

  lemma LineWithoutSize(s: State<Label>, line: seq<Byte>, x: Byte, rest: seq<Byte>)
    requires AtChunk(s) && CR !in line && SizeIn(line).None?
    ensures RunOn(s, line + [CR, x] + rest).error == INVALID_CHUNK_SIZE
  {
    var digits := SizeDigits(line);
    var tail := line[|digits|..];
    var input := tail + [CR, x] + rest;
    MulAddAllIsExact(16, HexValues(digits));
    LineSplits(line, x, rest);
    DigitsEnd(line);
    if digits == [] {
      assert input == [input[0]] + input[1..] && digits + input == input;
      NoDigitFails(s, input[0], input[1..]);
    } else if Number(16, HexValues(digits)) > MAX64 {
      SizeFails(s, digits, input);
    } else {
      SizeRuns(s, digits, input);
      assert input == [tail[0]] + input[1..] && tail[0] in line;
      BehindDigitsFails(AtSize(s, Number(16, HexValues(digits)), HexValue(digits[|digits| - 1])), tail[0], input[1..]);
    }
  }

  /** A line that says no size is refused, wherever the input is cut and whatever follows. */
  lemma NoSizeRefused(s: State<Label>, line: seq<Byte>, x: Byte, rest: seq<Byte>, pieces: seq<seq<Byte>>)
    requires AtChunk(s) && CR !in line && SizeIn(line).None?
    requires Concat(pieces) == line + [CR, x] + rest
    ensures Feed(s, pieces).error == INVALID_CHUNK_SIZE
  {
    LineWithoutSize(s, line, x, rest);
    assert |Concat(pieces)| > 0;
    RefusedInPieces(s, pieces);
  }

  /** Any line before a chunk, cut anywhere: it is taken for the header of a chunk of n bytes if and only
      if it says that size, and otherwise refused. */
  lemma SizeLineIff(s: State<Label>, line: seq<Byte>, x: Byte, pieces: seq<seq<Byte>>)
    requires AtChunk(s) && CR !in line && Concat(pieces) == line + [CR, x]
    ensures var t := Feed(s, pieces);
            match SizeIn(line)
            case None => t.error == INVALID_CHUNK_SIZE
            case Some(n) =>
              && t.error == 0 && t.regs.contentLength == n && Norm(t.log) == Norm(s.log + [Notify(ChunkHeader)])
              && t.current == if n == 0 then Name(HeaderFieldStart) else Body(SpanStartBody)
  {
    assert line + [CR, x] + [] == line + [CR, x];
    if SizeIn(line).None? {
      NoSizeRefused(s, line, x, [], pieces);
    } else {
      var n := SizeIn(line).value;
      LineWithSize(s, line, x, []);
      HeaderTold(SizeRead(s, n));
      FeedsTo(s, pieces, AfterSize(SizeRead(s, n)));
    }
  }

  /** The parser at the data of the chunk, or at the trailers. */
  function AfterSize(s: State<Label>): State<Label> {
    var t := s.(log := s.log + [Notify(ChunkHeader)]);
    if s.regs.contentLength == 0
    then t.(current := Name(HeaderFieldStart), regs := s.regs.(flags := s.regs.flags.(trailing := true)))
    else t.(current := Body(SpanStartBody))
  }

  lemma HeaderTold(s: State<Label>)
    requires s.current == Body(OnChunkHeader)
    ensures RunOn(s, []) == AfterSize(s)
  {
    Invokes(s, []);
    if s.regs.contentLength == 0 {
      Rests(AfterSize(s));
    } else {
      SpanStartRests(AfterSize(s));
    }
  }

  // ---------------------------------------------------------------- chunks

  lemma SizeOfChunk(c: Chunk)
    requires IsChunk(c)
    ensures SizeIn(c.size + c.extension) == Some(|c.data|) && CR !in c.size + c.extension
  {
    PrefixDigits(c.size, c.extension);
    assert (c.size + c.extension)[|c.size|..] == c.extension;
    assert forall b | b in c.size :: b != CR;
  }

  lemma {:induction false} PrefixDigits(size: seq<Byte>, extension: seq<Byte>)
    requires (forall b | b in size :: IsHexDigit(b)) && (extension != [] ==> !IsHexDigit(extension[0]))
    ensures SizeDigits(size + extension) == size
    decreases |size|
  {
    if size == [] {
      assert size + extension == extension;
    } else {
      assert size[0] in size && (size + extension)[1..] == size[1..] + extension;
      assert forall b | b in size[1..] :: b in size;
      PrefixDigits(size[1..], extension);
      assert size == [size[0]] + size[1..];
    }
  }

  /** The state after the size line, its extension and its line end. */
  lemma SizeLineRuns(s: State<Label>, c: Chunk, rest: seq<Byte>)
    requires AtChunk(s) && IsChunk(c)
    ensures RunOn(s, c.size + c.extension + CRLF + rest) == RunOn(SizeRead(s, |c.data|), rest)
  {
    SizeOfChunk(c);
    LineWithSize(s, c.size + c.extension, LF, rest);
  }

  lemma DataIsRead(s: State<Label>, data: seq<Byte>, rest: seq<Byte>)
    requires s.current == Body(SpanStartBody) && s.span == None && 0 < |data| == s.regs.contentLength
    ensures RunOn(s, data + rest) ==
            RunOn(s.(current := Body(ChunkDataAlmostDone), regs := s.regs.(contentLength := 0), held := [],
                     log := s.log + [Data(OnBody, data)]), rest)
  {
    StartsSpan(s, data + rest);
    var t := s.(current := Body(ConsumeContentLength), span := Some(OnBody), held := []);
    Consumes(t, data, rest);
    assert [] + data == data;
    EndsSpan(t.(current := Body(SpanEndBody), regs := t.regs.(contentLength := 0), held := data), rest);
  }

  lemma DataRuns(s: State<Label>, data: seq<Byte>, rest: seq<Byte>)
    requires s.current == Body(OnChunkHeader) && s.span == None && s.held == []
    requires 0 < |data| == s.regs.contentLength
    ensures RunOn(s, data + rest) ==
            RunOn(s.(current := Body(ChunkDataAlmostDone), regs := s.regs.(contentLength := 0),
                     log := s.log + [Notify(ChunkHeader), Data(OnBody, data)]), rest)
  {
    Invokes(s, data + rest);
    DataIsRead(s.(current := Body(SpanStartBody), log := s.log + [Notify(ChunkHeader)]), data, rest);
    assert s.log + [Notify(ChunkHeader)] + [Data(OnBody, data)] == s.log + [Notify(ChunkHeader), Data(OnBody, data)];
  }

  lemma ChunkEndRuns(s: State<Label>, rest: seq<Byte>)
    requires s.current == Body(ChunkDataAlmostDone) && s.span == None
    ensures RunOn(s, CRLF + rest) ==
            RunOn(s.(current := Body(ChunkSizeDigit), regs := s.regs.(matched := 0, contentLength := 0),
                     log := s.log + [Notify(ChunkComplete)]), rest)
  {
    assert CRLF + rest == [CR] + ([LF] + rest);
    Reads(s, CR, [LF] + rest);
    Reads(To(s, Body(ChunkDataAlmostDoneSkip)), LF, rest);
    var t := To(s, Body(OnChunkComplete));
    Invokes(t, rest);
    Invokes(t.(current := Body(UpdateContentLength), log := s.log + [Notify(ChunkComplete)]), rest);
  }

  lemma ChunkRuns(s: State<Label>, c: Chunk, rest: seq<Byte>)
    requires AtChunk(s) && IsChunk(c) && c.data != []
    ensures RunOn(s, RenderChunk(c) + rest) ==
            RunOn(s.(log := s.log + ChunkCalls(c)), rest)
  {
    var tail := c.data + (CRLF + rest);
    assert RenderChunk(c) + rest == c.size + c.extension + CRLF + tail;
    SizeLineRuns(s, c, tail);
    var t := s.(current := Body(OnChunkHeader), regs := s.regs.(matched := 0, contentLength := |c.data|));
    DataRuns(t, c.data, CRLF + rest);
    ChunkEndRuns(t.(current := Body(ChunkDataAlmostDone), regs := t.regs.(contentLength := 0),
                    log := t.log + [Notify(ChunkHeader), Data(OnBody, c.data)]), rest);
    assert s.log + [Notify(ChunkHeader), Data(OnBody, c.data)] + [Notify(ChunkComplete)] == s.log + ChunkCalls(c);
  }

  lemma {:induction false} ChunksRun(s: State<Label>, chunks: seq<Chunk>, rest: seq<Byte>)
    requires AtChunk(s) && AreChunks(chunks)
    ensures RunOn(s, RenderAll(chunks) + rest) == RunOn(s.(log := s.log + CallsOf(chunks)), rest)
    decreases |chunks|
  {
    if chunks == [] {
      assert RenderAll(chunks) + rest == rest && s.log + [] == s.log;
    } else {
      var c, tail := chunks[0], RenderAll(chunks[1..]) + rest;
      assert RenderAll(chunks) + rest == RenderChunk(c) + tail by {
        Associates(RenderChunk(c), RenderAll(chunks[1..]), rest);
      }
      assert s.log + ChunkCalls(c) + CallsOf(chunks[1..]) == s.log + CallsOf(chunks)
      by { Associates(s.log, ChunkCalls(c), CallsOf(chunks[1..])); }
      ChunkRuns(s, c, tail);
      ChunksRun(s.(log := s.log + ChunkCalls(c)), chunks[1..], rest);
    }
  }

  /** The registers of s when its chunked body ends: trailing is set, no length is left. */
  function Ended(r: Registers): Registers {
    r.(matched := 0, contentLength := 0, flags := r.flags.(trailing := true))
  }

  /** The state when the last chunk's line is read. */
  function Trailing(s: State<Label>): State<Label> {
    s.(current := Name(HeaderFieldStart), regs := Ended(s.regs), log := s.log + [Notify(ChunkHeader)])
  }

  /** The last chunk's line, the trailers and the empty line. */
  function RenderEnd(last: Chunk, trailers: seq<Field>): seq<Byte> {
    last.size + last.extension + CRLF + (RenderFields(trailers) + CRLF)
  }

  lemma LastLineRuns(s: State<Label>, last: Chunk, rest: seq<Byte>)
    requires AtChunk(s) && IsChunk(last) && last.data == []
    ensures RunOn(s, last.size + last.extension + CRLF + rest) == RunOn(Trailing(s), rest)
  {
    SizeLineRuns(s, last, rest);
    Invokes(s.(current := Body(OnChunkHeader), regs := s.regs.(matched := 0, contentLength := 0)), rest);
  }

  /** Where a chunked body leaves the parser: what is left of the trailers is r. */
  function AfterTrailers(s: State<Label>, trailers: seq<Field>, r: Registers): State<Label> {
    s.(regs := r.(matched := 0), log := s.log + EndCalls(trailers))
  }

  lemma EndLog(log: seq<Call>, trailers: seq<Field>)
    ensures log + [Notify(ChunkHeader)] + CallsOfFields(trailers) + [Notify(ChunkComplete)] == log + EndCalls(trailers)
  {
    Associates(log + [Notify(ChunkHeader)], CallsOfFields(trailers), [Notify(ChunkComplete)]);
    Associates(log, [Notify(ChunkHeader)], CallsOfFields(trailers) + [Notify(ChunkComplete)]);
  }

  lemma EndApart(last: Chunk, trailers: seq<Field>, rest: seq<Byte>)
    ensures RenderEnd(last, trailers) + rest ==
            last.size + last.extension + CRLF + (RenderFields(trailers) + (CRLF + rest))
  {
    Associates(RenderFields(trailers), CRLF, rest);
    Associates(last.size + last.extension + CRLF, RenderFields(trailers) + CRLF, rest);
  }

  lemma TrailersRun(s: State<Label>, trailers: seq<Field>, r: Registers, rest: seq<Byte>)
    requires AtChunk(s) && AreFields(trailers) && ApplyFields(Ended(s.regs), trailers) == Accepted(r)
    ensures RunsOnTo(Trailing(s), RenderFields(trailers) + (CRLF + rest),
                     Completed(AfterTrailers(s, trailers, r)), rest)
  {
    var t := Trailing(s);
    FieldsRun(t, trailers, rest);
    FieldsMean(Ended(s.regs), trailers);
    TrailersEnd(FieldsTold(t, trailers).(regs := r), rest);
    EndLog(s.log, trailers);
  }

  lemma EndRuns(s: State<Label>, last: Chunk, trailers: seq<Field>, r: Registers, rest: seq<Byte>)
    requires AtChunk(s) && IsChunk(last) && last.data == []
    requires AreFields(trailers) && ApplyFields(Ended(s.regs), trailers) == Accepted(r)
    ensures RunsOnTo(s, RenderEnd(last, trailers) + rest, Completed(AfterTrailers(s, trailers, r)), rest)
  {
    EndApart(last, trailers, rest);
    LastLineRuns(s, last, RenderFields(trailers) + (CRLF + rest));
    TrailersRun(s, trailers, r, rest);
  }

  /** Trailers can be refused, for the Content-Length fields among them. */
  lemma EndFails(s: State<Label>, last: Chunk, trailers: seq<Field>, code: Errno, rest: seq<Byte>)
    requires AtChunk(s) && IsChunk(last) && last.data == []
    requires AreFields(trailers) && ApplyFields(Ended(s.regs), trailers) == Refused(code)
    ensures RunOn(s, RenderEnd(last, trailers) + rest).error == code
  {
    EndApart(last, trailers, rest);
    LastLineRuns(s, last, RenderFields(trailers) + (CRLF + rest));
    FieldsRun(Trailing(s), trailers, rest);
  }

  // ---------------------------------------------------------------- what callbacks are told

  lemma NormOfThree(x: Call, y: Call, z: Call)
    ensures Norm([x, y, z]) == Atoms(x) + Atoms(y) + Atoms(z)
  {
    assert [x, y, z] == [] + [x] + [y] + [z];
    NormSnoc([], x);
    NormSnoc([] + [x], y);
    NormSnoc([] + [x] + [y], z);
  }

  lemma ToldOfChunk(c: Chunk)
    ensures BodyOf(Norm(ChunkCalls(c))) == c.data && CountOf(MessageComplete, Norm(ChunkCalls(c))) == 0
  {
    var header, data, end := [Tick(ChunkHeader)], Octets(OnBody, c.data), [Tick(ChunkComplete)];
    NormOfThree(Notify(ChunkHeader), Data(OnBody, c.data), Notify(ChunkComplete));
    ToldOfOctets(MessageComplete, OnBody, c.data);
    ToldOfOne(Tick(ChunkHeader));
    ToldOfOne(Tick(ChunkComplete));
    BodyOfConcat(header, data);
    BodyOfConcat(header + data, end);
    CountOfConcat(MessageComplete, header, data);
    CountOfConcat(MessageComplete, header + data, end);
  }

  lemma {:induction false} ToldOfChunks(chunks: seq<Chunk>)
    ensures BodyOf(Norm(CallsOf(chunks))) == DataOf(chunks) && CountOf(MessageComplete, Norm(CallsOf(chunks))) == 0
    decreases |chunks|
  {
    if chunks != [] {
      ToldOfChunk(chunks[0]);
      ToldOfChunks(chunks[1..]);
      NormConcat(ChunkCalls(chunks[0]), CallsOf(chunks[1..]));
      BodyOfConcat(Norm(ChunkCalls(chunks[0])), Norm(CallsOf(chunks[1..])));
      CountOfConcat(MessageComplete, Norm(ChunkCalls(chunks[0])), Norm(CallsOf(chunks[1..])));
    }
  }

  lemma EndIsQuiet(trailers: seq<Field>)
    ensures Quiet(EndCalls(trailers))
  {
    FieldsAreQuiet(trailers);
    QuietThen(CallsOfFields(trailers), Notify(ChunkComplete));
    QuietThen([], Notify(ChunkHeader));
    assert [] + [Notify(ChunkHeader)] == [Notify(ChunkHeader)];
    QuietTogether([Notify(ChunkHeader)], CallsOfFields(trailers) + [Notify(ChunkComplete)]);
  }

  /** What the callbacks are told of a chunked body. */
  function BodyCalls(chunks: seq<Chunk>, trailers: seq<Field>): seq<Call> {
    CallsOf(chunks) + EndCalls(trailers)
  }

  /** Of this, the data is the body, and no message is complete yet. */
  lemma ToldOfBody(chunks: seq<Chunk>, trailers: seq<Field>)
    ensures var told := Norm(BodyCalls(chunks, trailers));
            BodyOf(told) == DataOf(chunks) && CountOf(MessageComplete, told) == 0
  {
    ToldOfChunks(chunks);
    EndIsQuiet(trailers);
    ToldOfBoth(CallsOf(chunks), EndCalls(trailers));
    assert DataOf(chunks) + [] == DataOf(chunks);
  }

  // ---------------------------------------------------------------- the whole body

  function RenderBody(chunks: seq<Chunk>, last: Chunk, trailers: seq<Field>): seq<Byte> {
    RenderAll(chunks) + RenderEnd(last, trailers)
  }

  /** The state in which the last of the body has been told; r is what the trailers leave. */
  function AfterBody(s: State<Label>, chunks: seq<Chunk>, trailers: seq<Field>, r: Registers): State<Label> {
    s.(regs := r.(matched := 0), log := s.log + BodyCalls(chunks, trailers))
  }

  ghost predicate IsBody(chunks: seq<Chunk>, last: Chunk, trailers: seq<Field>) {
    AreChunks(chunks) && IsChunk(last) && last.data == [] && AreFields(trailers)
  }

  lemma BodyRuns(s: State<Label>, chunks: seq<Chunk>, last: Chunk, trailers: seq<Field>, r: Registers, rest: seq<Byte>)
    requires AtChunk(s) && IsBody(chunks, last, trailers) && ApplyFields(Ended(s.regs), trailers) == Accepted(r)
    ensures RunsOnTo(s, RenderBody(chunks, last, trailers) + rest, Completed(AfterBody(s, chunks, trailers, r)), rest)
  {
    var m := s.(log := s.log + CallsOf(chunks));
    Associates(RenderAll(chunks), RenderEnd(last, trailers), rest);
    ChunksRun(s, chunks, RenderEnd(last, trailers) + rest);
    EndRuns(m, last, trailers, r, rest);
    Associates(s.log, CallsOf(chunks), EndCalls(trailers));
  }

  lemma BodyFails(s: State<Label>, chunks: seq<Chunk>, last: Chunk, trailers: seq<Field>, code: Errno, rest: seq<Byte>)
    requires AtChunk(s) && IsBody(chunks, last, trailers) && ApplyFields(Ended(s.regs), trailers) == Refused(code)
    ensures RunOn(s, RenderBody(chunks, last, trailers) + rest).error == code
  {
    Associates(RenderAll(chunks), RenderEnd(last, trailers), rest);
    ChunksRun(s, chunks, RenderEnd(last, trailers) + rest);
    EndFails(s.(log := s.log + CallsOf(chunks)), last, trailers, code, rest);
  }

  /** Any list of non-empty chunks, any spelling of their sizes, any extensions, any trailers, cut into
      buffers anywhere: the callbacks get exactly the data, then one complete message, and the parser
      stops before an upgrade or waits for what the connection may bring next.  Only the Content-Length
      fields of the trailers can make it fail. */
  lemma ChunkedRoundTrip(s: State<Label>, chunks: seq<Chunk>, last: Chunk, trailers: seq<Field>, pieces: seq<seq<Byte>>)
    requires AtChunk(s) && IsBody(chunks, last, trailers)
    requires Concat(pieces) == RenderBody(chunks, last, trailers)
    ensures var left := ApplyFields(Ended(s.regs), trailers);
            if left.Refused? then Feed(s, pieces).error == left.code
            else DeliversOnce(s, pieces, AfterBody(s, chunks, trailers, left.regs), BodyCalls(chunks, trailers),
                              DataOf(chunks))
  {
    OneBuffer(s, Concat(pieces));
    AnyCutting(s, pieces);
    var input := RenderBody(chunks, last, trailers);
    assert input + [] == input;
    match ApplyFields(Ended(s.regs), trailers) {
      case Refused(code) => BodyFails(s, chunks, last, trailers, code, []);
      case Accepted(r) =>
        BodyRuns(s, chunks, last, trailers, r, []);
        ToldOfBody(chunks, trailers);
        CompletesOnce(s, pieces, BodyCalls(chunks, trailers), AfterBody(s, chunks, trailers, r), DataOf(chunks));
    }
  }
}
