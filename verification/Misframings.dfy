/** Inputs with which the parser goes its own way, byte by byte from its first state. */
module Misframings {
  import opened Bytes
  import opened Llparse
  import opened HttpGlue
  import opened Digits
  import opened Llhttp
  import opened LlhttpSteps
  import opened HeaderNames
  import opened TransferEncoding
  import opened ContentLengthValue
  import opened HeaderFields
  import opened HeaderBlock
  import opened StartLine
  import opened ChunkedBody
  import opened Messages
  import opened BodyLength
  import opened CodingList

  // "POST / HTTP/1.1" and "HTTP/1.1 304 "
  const POST_LINE: Line := RequestLine(Post, [0x2f], 0x31, 0x31)
  const NOT_MODIFIED: Line := StatusLine(0x31, 0x31, [0x33, 0x30, 0x34], [])

  // "content-length: 5", "content-length: 3", "transfer-encoding: chunked", "transfer-encoding: chunkedchunked"
  const LENGTH_5: Field := Field(CONTENT_LENGTH, [SP], [], [0x35], [])
  const LENGTH_3: Field := Field(CONTENT_LENGTH, [SP], [], [0x33], [])
  const CODED: Field := Field(TRANSFER_ENCODING, [SP], [], CHUNKED, [])
  const DOUBLED: Field := Field(TRANSFER_ENCODING, [SP], [], CHUNKED + CHUNKED, [])

  // "transfer-encoding: chunked", and on a second line " , gzip"
  const GZIP: seq<Byte> := [0x67, 0x7a, 0x69, 0x70]
  const FOLD: seq<Byte> := [SP, COMMA, SP] + GZIP
  const FOLDED: Field := Field(TRANSFER_ENCODING, [SP], [], CHUNKED, [FOLD])

  // ---------------------------------------------------------------- the fields

  lemma KindsOfNames()
    ensures KindOf(CONTENT_LENGTH) == H_CONTENT_LENGTH && KindOf(TRANSFER_ENCODING) == H_TRANSFER_ENCODING
  {
    SpellsItself(CONTENT_LENGTH);
    SpellsItself(TRANSFER_ENCODING);
    KindByLetter(CONTENT_LENGTH);
    KindByLetter(TRANSFER_ENCODING);
    assert |CONTENT_LENGTH| == 14 && |TRANSFER_ENCODING| == 17 && |CONNECTION| == 10 && |PROXY_CONNECTION| == 16;
  }

  lemma LengthFields()
    ensures IsField(LENGTH_5) && IsField(LENGTH_3)
  {}

  lemma CodingNames()
    ensures IsToken(TRANSFER_ENCODING)
  {}

  lemma CodingValues()
    ensures IsValue(CHUNKED)
  {}

  lemma CodingFields()
    ensures IsField(CODED) && IsField(DOUBLED)
  {
    CodingNames();
    CodingValues();
    assert forall b | b in CHUNKED + CHUNKED :: b in CHUNKED;
  }

  lemma DigitIs(b: Byte, c: nat)
    requires IsDigit(b)
    ensures Declared([b]) == Some(DecimalValue(b)) && ReadOn(c, [b]) == 10 * c + DecimalValue(b)
  {
    var d := DecimalValue(b);
    assert [b][1..] == [];
    assert DigitsOf([b]) == [b];
    assert DecimalValues([b]) == [d];
    assert [d] == [d] + [];
    FromFirst(c, d, []);
    FromFirst(0, d, []);
    NumberIsNumberFrom(10, [d]);
  }

  lemma OneLength(f: Field)
    requires f.name == CONTENT_LENGTH
    ensures Lengths([f]) == [Written(f.value, f.folds)] && Codings([f]) == [] && Upgrades([f]) == []
  {
    KindsOfNames();
    OneField(f);
  }

  lemma OneCodingField(f: Field)
    requires f.name == TRANSFER_ENCODING && f.value != []
    ensures Lengths([f]) == [] && Codings([f]) == [Written(f.value, f.folds)]
    ensures Upgrades([f]) == [] && ConnectionOptions([f]) == {}
  {
    KindsOfNames();
    OneField(f);
  }

  lemma NoFold(f: Field)
    requires f.leads == [] && f.folds == []
    ensures !HasFold([f])
  {
    assert forall x | x in [f] :: x == f;
  }

  lemma OneLineUnfolds(v: seq<Byte>)
    ensures Unfold(Written(v, [])) == v && OnOneLine(v)[0] == Written(v, [])
  {}

  /** The first message. */
  lemma FirstDecides(kind: nat, lenient: Lenient, line: Line, fields: seq<Field>, pieces: seq<seq<Byte>>)
    requires IsLine(line) && AreFields(fields) && Expects(kind, line)
    requires Concat(pieces) == RenderLine(line) + (RenderFields(fields) + CRLF)
    ensures FramingOf(Feed(Init(kind, lenient), pieces)) ==
            DecidedFor(MessageOf(line, fields), lenient.chunkedLength, 0)
  {
    InitIsAtStart(kind, lenient);
    HeadDecides(Init(kind, lenient), line, fields, pieces);
  }

  // ---------------------------------------------------------------- 304

  lemma NotModifiedLine()
    ensures IsLine(NOT_MODIFIED) && StatusOf(NOT_MODIFIED.code) == 304
  {
    var code := NOT_MODIFIED.code;
    assert code[1..] == [0x30, 0x34] && code[1..][1..] == [0x34] && code[1..][1..][1..] == [];
    assert DecimalValues(code) == [3, 0, 4];
    assert [3, 0, 4][..2] == [3, 0] && [3, 0][..1] == [3] && [3][..0] == [];
    assert Number(10, [3]) == 3;
    assert Number(10, [3, 0]) == 30;
    assert Number(10, [3, 0, 4]) == 304;
  }

  lemma NotModifiedMessage()
    ensures IsLine(NOT_MODIFIED)
    ensures MessageOf(NOT_MODIFIED, [LENGTH_5]) == Message(false, 304, false, false, false, [], OnOneLine([0x35]))
  {
    NotModifiedLine();
    OneLength(LENGTH_5);
    NoFold(LENGTH_5);
  }

  lemma NotModifiedDecided(lenient: bool)
    ensures DecidedFor(Message(false, 304, false, false, false, [], OnOneLine([0x35])), lenient, 0) == OfLength(5)
    ensures forall f ::
            Allowed(Message(false, 304, false, false, false, [], OnOneLine([0x35])), f) <==> f == OfLength(0)
  {
    DigitIs(0x35, 0);
    ReadLengthIff(0, [0x35]);
    OneLineUnfolds([0x35]);
  }

  /** 304 Not Modified with the length of the body that is not sent again: the parser waits for five bytes
      where there are none. */
  lemma NotModifiedIsCounted(lenient: Lenient, pieces: seq<seq<Byte>>)
    requires Concat(pieces) == RenderLine(NOT_MODIFIED) + (RenderFields([LENGTH_5]) + CRLF)
    ensures FramingOf(Feed(Init(HTTP_RESPONSE, lenient), pieces)) == OfLength(5)
    ensures IsLine(NOT_MODIFIED) && forall f :: Allowed(MessageOf(NOT_MODIFIED, [LENGTH_5]), f) <==> f == OfLength(0)
  {
    NotModifiedMessage();
    NotModifiedDecided(lenient.chunkedLength);
    LengthFields();
    FirstDecides(HTTP_RESPONSE, lenient, NOT_MODIFIED, [LENGTH_5], pieces);
  }

  // ---------------------------------------------------------------- chunkedchunked

  lemma PostLine()
    ensures IsLine(POST_LINE)
  {}

  lemma DoubledIsTrimmed()
    ensures var v := CHUNKED + CHUNKED; Trim(v) == v && !Named(v, CHUNKED) && v[0] != SP && v[0] != HT
  {}

  lemma DoubledIsNotChunked()
    ensures var codings := OnOneLine(CHUNKED + CHUNKED); LastIsRun(codings) && !LastIsChunked(codings)
  {
    var v := CHUNKED + CHUNKED;
    var codings := OnOneLine(v);
    DoubledTokenIsRun();
    DoubledIsTrimmed();
    OneLineUnfolds(v);
    assert codings[|codings| - 1] == Written(v, []);
    LastOfValues(codings);
  }

  lemma DoubledDecided(lenient: bool)
    ensures IsLine(POST_LINE) && IsField(DOUBLED)
    ensures DecidedFor(MessageOf(POST_LINE, [DOUBLED]), lenient, 0) == Framing.InChunks
    ensures forall f :: Allowed(MessageOf(POST_LINE, [DOUBLED]), f) <==> f == TurnedAway
  {
    PostLine();
    CodingFields();
    OneCodingField(DOUBLED);
    NoFold(DOUBLED);
    DoubledIsNotChunked();
  }

  /** A coding that is not chunked, last in the list of a request: the parser goes on as if it were, where
      the request should be turned away. */
  lemma DoubledIsFramedAsChunks(lenient: Lenient, pieces: seq<seq<Byte>>)
    requires Concat(pieces) == RenderLine(POST_LINE) + (RenderFields([DOUBLED]) + CRLF)
    ensures FramingOf(Feed(Init(HTTP_REQUEST, lenient), pieces)) == Framing.InChunks
    ensures IsLine(POST_LINE) && forall f :: Allowed(MessageOf(POST_LINE, [DOUBLED]), f) <==> f == TurnedAway
  {
    DoubledDecided(lenient.chunkedLength);
    FirstDecides(HTTP_REQUEST, lenient, POST_LINE, [DOUBLED], pieces);
  }

  // ---------------------------------------------------------------- a coding on a second line

  lemma FoldIsFold()
    ensures IsFold(FOLD)
  {
    assert FOLD == [SP, COMMA, SP, 0x67, 0x7a, 0x69, 0x70];
  }

  lemma FoldedField()
    ensures IsField(FOLDED)
  {
    CodingNames();
    CodingValues();
    FoldIsFold();
    assert forall line | line in FOLDED.folds :: line == FOLD;
  }

  lemma FoldUnfolds()
    ensures UnfoldAll([FOLD]) == [SP, COMMA, SP] + GZIP && LastItem(UnfoldAll([FOLD])) == GZIP
  {
    var list := [COMMA, SP] + GZIP;
    assert FOLD == [SP] + list && FOLD[1..] == list && DropBlanks(FOLD) == list;
    assert [FOLD][1..] == [];
    assert UnfoldAll([FOLD]) == [SP] + list + [];
    SameAfterComma([SP], list);
    assert list[1..] == [SP] + GZIP && AfterComma(list) == [SP] + GZIP;
    assert ([SP] + GZIP)[1..] == GZIP && DropBlanks([SP] + GZIP) == GZIP;
    assert COMMA !in GZIP && COMMA in [SP] + list;
  }

  lemma GzipIsNotChunked()
    ensures Trim(GZIP) == GZIP && !Named(GZIP, CHUNKED)
  {}

  lemma FoldedIsNotChunked()
    ensures var codings := [Written(CHUNKED, [FOLD])]; LastIsRun(codings) && !LastIsChunked(codings)
  {
    var codings := [Written(CHUNKED, [FOLD])];
    assert codings[|codings| - 1] == Written(CHUNKED, [FOLD]);
    OneTokenIsRun();
    FoldUnfolds();
    GzipIsNotChunked();
    ItemIsNew(CHUNKED, UnfoldAll([FOLD]));
    LastOfValues(codings);
  }

  lemma FoldedDecided(lenient: bool)
    ensures IsLine(POST_LINE) && IsField(FOLDED)
    ensures DecidedFor(MessageOf(POST_LINE, [FOLDED]), lenient, 0) == Framing.InChunks
    ensures forall f :: Allowed(MessageOf(POST_LINE, [FOLDED]), f) <==> f == TurnedAway
  {
    PostLine();
    FoldedField();
    OneCodingField(FOLDED);
    FoldedIsNotChunked();
  }

  /** The last coding on a second line, and not chunked: the parser takes the first line for all there is
      and goes on as if the body came in chunks, where the request should be turned away, for its coding
      or for the fold. */
  lemma FoldedCodingIsIgnored(lenient: Lenient, pieces: seq<seq<Byte>>)
    requires Concat(pieces) == RenderLine(POST_LINE) + (RenderFields([FOLDED]) + CRLF)
    ensures FramingOf(Feed(Init(HTTP_REQUEST, lenient), pieces)) == Framing.InChunks
    ensures IsLine(POST_LINE) && forall f :: Allowed(MessageOf(POST_LINE, [FOLDED]), f) <==> f == TurnedAway
  {
    FoldedDecided(lenient.chunkedLength);
    FirstDecides(HTTP_REQUEST, lenient, POST_LINE, [FOLDED], pieces);
  }

  // ---------------------------------------------------------------- a length in the trailers

  /** The last chunk, "0". */
  const LAST: Chunk := Chunk([0x30], [], [])

  /** A request without data, sent in chunks, whose trailers hold a Content-Length. */
  const FIRST: Sent := Sent(POST_LINE, [CODED], Split([], LAST, [LENGTH_5]))

  lemma LastIsLast()
    ensures IsChunk(LAST)
  {
    assert [0x30][1..] == [];
    assert HexValues([0x30]) == [0];
    assert [0][..0] == [];
  }

  lemma OneTokenIsRun()
    ensures LastIsRun(OnOneLine(CHUNKED)) && IsChunkedRun(LastItem(CHUNKED))
  {
    var codings := OnOneLine(CHUNKED);
    SpellsItself(CHUNKED);
    assert CHUNKED + [] == CHUNKED;
    ChunkedTokenIsRun(CHUNKED, []);
    assert codings[|codings| - 1] == Written(CHUNKED, []);
  }

  lemma FirstIsCoded()
    ensures Codings([CODED]) == OnOneLine(CHUNKED) && Lengths([CODED]) == [] && LastIsRun(OnOneLine(CHUNKED))
    ensures Upgrades([CODED]) == [] && ConnectionOptions([CODED]) == {}
  {
    OneCodingField(CODED);
    OneTokenIsRun();
  }

  lemma TrailerLength()
    ensures Lengths([LENGTH_5]) == OnOneLine([0x35]) && Codings([LENGTH_5]) == [] && ConnectionOptions([LENGTH_5]) == {}
    ensures ReadLength(0, [0x35]) == Some(5)
  {
    KindsOfNames();
    OneField(LENGTH_5);
    DigitIs(0x35, 0);
    ReadLengthIff(0, [0x35]);
  }

  lemma FirstIsSent()
    ensures IsSent(FIRST) && Lasts(FIRST) && LeftOver(FIRST) == Some(5)
  {
    PostLine();
    CodingFields();
    LengthFields();
    LastIsLast();
    FirstIsCoded();
    TrailerLength();
  }

  lemma ThreeBehindFive()
    ensures ReadLength(5, [0x33]) == Some(53) && Declared([0x33]) == Some(3)
  {
    DigitIs(0x33, 5);
    ReadLengthIff(5, [0x33]);
  }

  lemma SecondMessage()
    ensures IsLine(POST_LINE)
    ensures MessageOf(POST_LINE, [LENGTH_3]) == Message(true, 0, false, false, false, [], OnOneLine([0x33]))
  {
    PostLine();
    OneLength(LENGTH_3);
    NoFold(LENGTH_3);
  }

  lemma SecondDecided()
    ensures DecidedFor(Message(true, 0, false, false, false, [], OnOneLine([0x33])), false, 5) == OfLength(53)
    ensures DecidedFor(Message(true, 0, false, false, false, [], OnOneLine([0x33])), true, 5) == OfLength(53)
    ensures forall f :: Allowed(Message(true, 0, false, false, false, [], OnOneLine([0x33])), f) <==> f == OfLength(3)
  {
    ThreeBehindFive();
    OneLineUnfolds([0x33]);
  }

  /** Where the second request begins, content_length holds the number in the trailers of the first. */
  lemma FirstLeavesFive(lenient: Lenient, rest: seq<Byte>) returns (u: State<Label>)
    ensures RunOn(Init(HTTP_REQUEST, lenient), Render(FIRST) + rest) == RunOn(u, rest)
    ensures AtAnyStart(u) && u.regs.contentLength == 5 && u.regs.kind != HTTP_RESPONSE
  {
    FirstIsSent();
    u := MessageIsFollowed(Init(HTTP_REQUEST, lenient), FIRST, true, rest);
  }

  /** The request after it, which says that it has three bytes, is taken to have fifty-three. */
  lemma TrailerLengthIsCounted(lenient: Lenient, pieces: seq<seq<Byte>>)
    requires Concat(pieces) == Render(FIRST) + (RenderLine(POST_LINE) + (RenderFields([LENGTH_3]) + CRLF))
    ensures FramingOf(Feed(Init(HTTP_REQUEST, lenient), pieces)) == OfLength(53)
    ensures IsLine(POST_LINE) && forall f :: Allowed(MessageOf(POST_LINE, [LENGTH_3]), f) <==> f == OfLength(3)
  {
    var s := Init(HTTP_REQUEST, lenient);
    SecondMessage();
    SecondDecided();
    LengthFields();
    var u := FirstLeavesFive(lenient, RenderLine(POST_LINE) + (RenderFields([LENGTH_3]) + CRLF));
    HeadIsRead(u, POST_LINE, [LENGTH_3]);
    FeedSettles(s, pieces, OfLength(53));
  }
}
