/** Which options the parser finds in the value of Connection. */
module ConnectionValue {
  import opened Bytes
  import opened Llparse
  import opened Llhttp
  import opened LlhttpSteps
  import opened TransferEncoding
  import opened HeaderNames

  const CLOSE: seq<Byte> := [0x63] + LOSE
  const KEEP_ALIVE: seq<Byte> := [0x6b] + EEP_ALIVE
  const LOSE: seq<Byte> := [0x6c, 0x6f, 0x73, 0x65]
  const EEP_ALIVE: seq<Byte> := [0x65, 0x65, 0x70, 0x2d, 0x61, 0x6c, 0x69, 0x76, 0x65]

  /** What comes before the first comma. */
  function BeforeComma(v: seq<Byte>): seq<Byte> {
    if v == [] || v[0] == COMMA then [] else [v[0]] + BeforeComma(v[1..])
  }

  /** v begins with the word, in any case. */
  predicate Begins(v: seq<Byte>, word: seq<Byte>) {
    |v| >= |word| && Spells(ToLower, v[..|word|], word)
  }

  /** An item of the list that is the word, and spaces. */
  predicate IsOption(item: seq<Byte>, word: seq<Byte>) {
    Begins(item, word) && DropSpaces(item[|word|..]) == []
  }

  /** The options of a comma-separated list, by the header_state the parser has for them; GENERAL for
      those it does not know. */
  function OptionOf(item: seq<Byte>): nat {
    if IsOption(item, CLOSE) then H_CLOSE
    else if IsOption(item, KEEP_ALIVE) then H_KEEP_ALIVE
    else if IsOption(item, UPGRADE) then H_CONNECTION_UPGRADE
    else H_GENERAL
  }

  function OptionsIn(v: seq<Byte>): set<nat>
    decreases |v|
  {
    {OptionOf(DropBlanks(BeforeComma(v)))} + if COMMA in v then OptionsIn(AfterComma(v)) else {}
  }

  function Flagged(f: Flags, options: set<nat>): Flags {
    f.(close := f.close || H_CLOSE in options, keepAlive := f.keepAlive || H_KEEP_ALIVE in options,
       connectionUpgrade := f.connectionUpgrade || H_CONNECTION_UPGRADE in options)
  }

  // ---------------------------------------------------------------- what the control states do

  /** The word v begins with, by its header_state. */
  function WordAt(v: seq<Byte>): nat {
    if Begins(v, CLOSE) then H_CLOSE
    else if Begins(v, KEEP_ALIVE) then H_KEEP_ALIVE
    else if Begins(v, UPGRADE) then H_CONNECTION_UPGRADE
    else H_GENERAL
  }

  function WordOf(kind: nat): seq<Byte> {
    if kind == H_CLOSE then CLOSE else if kind == H_KEEP_ALIVE then KEEP_ALIVE
    else if kind == H_CONNECTION_UPGRADE then UPGRADE else []
  }

  /** From header_value_connection, header_value_connection_ws and header_value_connection_token. */
  function AtItem(r: Registers, v: seq<Byte>): Registers
    decreases |v|, 2
  {
    if v != [] && (v[0] == SP || v[0] == HT) then AtItem(r, v[1..])
    else if WordAt(v) != H_GENERAL then AfterWord(r.(headerState := WordAt(v)), v[|WordOf(WordAt(v))|..])
    else InToken(r, v)
  }

  function AfterWord(r: Registers, v: seq<Byte>): Registers
    decreases |v|, 1
  {
    if v == [] then r
    else if v[0] == SP then AfterWord(r, v[1..])
    else if v[0] == COMMA then AtItem(ApplyHeaderState(r), v[1..])
    else InToken(r.(headerState := H_GENERAL), v)
  }

  function InToken(r: Registers, v: seq<Byte>): Registers
    decreases |v|, 0
  {
    if v == [] then r else if v[0] == COMMA then AtItem(r, v[1..]) else InToken(r, v[1..])
  }

  // ---------------------------------------------------------------- the run over the value

  function In(s: State<Label>, l: ConnectionState, r: Registers, held: seq<Byte>): State<Label> {
    s.(current := Connection(l), span := Some(OnHeaderValue), held := held, index := 0, regs := r.(matched := 0))
  }

  function ValueRead(s: State<Label>, r: Registers, held: seq<Byte>): State<Label> {
    s.(current := Value(HeaderValueOtherwise), span := Some(OnHeaderValue), held := held, index := 0,
       regs := r.(matched := 0))
  }

  /** From one of the states, the run over v ends at the line end with registers r'. */
  ghost predicate Ends(s: State<Label>, l: ConnectionState, r: Registers, held: seq<Byte>, v: seq<Byte>, end: seq<Byte>,
                       r': Registers) {
    RunOn(In(s, l, r, held), v + (CRLF + end)) == RunOn(ValueRead(s, r', held + v), CRLF + end)
  }

  lemma ByteApart(held: seq<Byte>, v: seq<Byte>, end: seq<Byte>)
    requires v != [] && IsValue(v)
    ensures v + (CRLF + end) == [v[0]] + (v[1..] + (CRLF + end)) && held + [v[0]] + v[1..] == held + v
    ensures IsValue(v[1..]) && IsHeaderValueByte(v[0])
  {
    assert v == [v[0]] + v[1..] && v[0] in v;
    PartsAreValues([v[0]], v[1..]);
    Associates(held, [v[0]], v[1..]);
  }

  /** A byte is read on the way. */
  lemma ByteThen(s: State<Label>, l: ConnectionState, next: ConnectionState, r: Registers, held: seq<Byte>,
                 v: seq<Byte>, end: seq<Byte>, r': Registers)
    requires v != [] && IsValue(v) && NodeOf(Connection(l)) == Switch &&
             ConnectionEdge(l, v[0]) == Read(Connection(next))
    requires Ends(s, next, r, held + [v[0]], v[1..], end, r')
    ensures Ends(s, l, r, held, v, end, r')
  {
    ByteApart(held, v, end);
    Reads(In(s, l, r, held), v[0], v[1..] + (CRLF + end));
  }

  /** The control state changes without reading. */
  lemma JumpThen(s: State<Label>, l: ConnectionState, next: ConnectionState, r: Registers, held: seq<Byte>,
                 v: seq<Byte>, end: seq<Byte>, r': Registers)
    requires NodeOf(Connection(l)) == Switch
    requires ConnectionEdge(l, if v == [] then CR else v[0]) == Peek(Connection(next))
    requires Ends(s, next, r, held, v, end, r')
    ensures Ends(s, l, r, held, v, end, r')
  {
    var input := v + (CRLF + end);
    assert input == [input[0]] + input[1..];
    Peeks(In(s, l, r, held), input[0], input[1..]);
  }

  lemma InvokeThen(s: State<Label>, l: ConnectionState, next: ConnectionState, r: Registers, r0: Registers,
                   held: seq<Byte>, v: seq<Byte>, end: seq<Byte>, r': Registers)
    requires NodeOf(Connection(l)) == Invoke(None)
    requires ConnectionRun(l, r.(matched := 0)) == (r0.(matched := 0), Connection(next))
    requires Ends(s, next, r0, held, v, end, r')
    ensures Ends(s, l, r, held, v, end, r')
  {
    Invokes(In(s, l, r, held), v + (CRLF + end));
  }

  lemma LineEnds(s: State<Label>, l: ConnectionState, r: Registers, held: seq<Byte>, end: seq<Byte>)
    requires l.HeaderValueConnectionToken? || l.HeaderValueConnectionWs?
    ensures Ends(s, l, r, held, [], end, r)
  {
    assert [] + (CRLF + end) == [CR] + ([LF] + end) == CRLF + end && held + [] == held;
    Peeks(In(s, l, r, held), CR, [LF] + end);
  }

  /** A matcher of a word gives up at the line end at the latest, and reads no comma. */
  lemma {:induction false} LineEndStops(blob: seq<Byte>, index: nat, v: seq<Byte>, end: seq<Byte>)
    requires index < |blob| && forall b | b in blob :: b >= 0x2d
    ensures var m := Match(ToLower, blob, index, v + (CRLF + end));
            (m.MatchMismatch? && m.p <= |v| && COMMA !in v[..m.p]) || (m.MatchComplete? && m.p < |v|)
    decreases |v|
  {
    var input := v + (CRLF + end);
    assert blob[index] in blob;
    if v == [] {
      assert input[0] == CR;
    } else {
      assert input[1..] == v[1..] + (CRLF + end);
      if index + 1 < |blob| {
        LineEndStops(blob, index + 1, v[1..], end);
        var m := Match(ToLower, blob, index, input);
        if m.MatchMismatch? && m.p > 0 {
          assert v[..m.p] == [v[0]] + v[1..][..m.p - 1];
        }
      }
    }
  }

  /** Where a matcher goes. */
  lemma WhereWordEnds(blob: seq<Byte>, v: seq<Byte>, end: seq<Byte>) returns (a: seq<Byte>, b: seq<Byte>)
    requires blob != [] && (forall x | x in blob :: x >= 0x2d) && IsValue(v)
    ensures v == a + b && IsValue(b) && v + (CRLF + end) == a + (b + (CRLF + end))
    ensures if Begins(v, blob) then |a| == |blob| && Spells(ToLower, a, blob) && b == v[|blob|..]
            else Match(ToLower, blob, 0, a + (b + (CRLF + end))) == MatchMismatch(|a|) && COMMA !in a
  {
    var input := v + (CRLF + end);
    var m := Match(ToLower, blob, 0, input);
    MatchIsSpelling(ToLower, blob, 0, input);
    LineEndStops(blob, 0, v, end);
    assert blob[0..] == blob && (|v| >= |blob| ==> input[..|blob|] == v[..|blob|]);
    var p := if m.MatchMismatch? then m.p else |blob|;
    a, b := v[..p], v[p..];
    assert v == a + b;
    PartsAreValues(a, b);
    Associates(a, b, CRLF + end);
  }

  predicate IsWordKind(kind: nat) {
    kind == H_CLOSE || kind == H_KEEP_ALIVE || kind == H_CONNECTION_UPGRADE
  }

  /** The first letter of a word and the rest of it, the state that matches the rest, and the state that
      stores what was found. */
  function LetterOf(kind: nat): Byte {
    if kind == H_CLOSE then 'c' as int else if kind == H_KEEP_ALIVE then 'k' as int else 'u' as int
  }

  function PartOf(kind: nat): seq<Byte> {
    if kind == H_CLOSE then LOSE else if kind == H_KEEP_ALIVE then EEP_ALIVE else PGRADE
  }

  function MatcherOf(kind: nat): ConnectionState {
    if kind == H_CLOSE then HeaderValueConnection1
    else if kind == H_KEEP_ALIVE then HeaderValueConnection2
    else HeaderValueConnection3
  }

  function SawOf(kind: nat): ConnectionState {
    if kind == H_CLOSE then SawClose else if kind == H_KEEP_ALIVE then SawKeepAlive else SawUpgrade
  }

  lemma PartBytes(kind: nat)
    ensures PartOf(kind) != [] && forall x | x in PartOf(kind) :: x >= 0x2d
  {}

  lemma MatcherNode(kind: nat)
    ensures NodeOf(Connection(MatcherOf(kind))) ==
            Sequence(ToLower, PartOf(kind), 0, Connection(SawOf(kind)), Connection(HeaderValueConnectionToken))
    ensures NodeOf(Connection(SawOf(kind))) == Invoke(None)
  {}

  lemma SawRun(kind: nat, r: Registers)
    requires IsWordKind(kind)
    ensures ConnectionRun(SawOf(kind), r) == (r.(headerState := kind), Connection(HeaderValueConnectionWs))
  {}

  lemma {:induction false} NoCommaInToken(r: Registers, a: seq<Byte>, b: seq<Byte>)
    requires COMMA !in a
    ensures InToken(r, a + b) == InToken(r, b)
    decreases |a|
  {
    if a == [] {
      assert a + b == b;
    } else {
      assert a[0] in a && (a + b)[1..] == a[1..] + b && forall x | x in a[1..] :: x in a;
      NoCommaInToken(r, a[1..], b);
    }
  }

  lemma FoundRuns(s: State<Label>, kind: nat, r: Registers, held: seq<Byte>, a: seq<Byte>, b: seq<Byte>, end: seq<Byte>,
                  r': Registers)
    requires IsWordKind(kind) && Spells(ToLower, a, PartOf(kind))
    requires Ends(s, HeaderValueConnectionWs, r.(headerState := kind), held + a, b, end, r')
    ensures RunOn(In(s, MatcherOf(kind), r, held), a + (b + (CRLF + end))) ==
            RunOn(ValueRead(s, r', held + a + b), CRLF + end)
  {
    MatcherNode(kind);
    PartBytes(kind);
    Spelled(In(s, MatcherOf(kind), r, held), a, b + (CRLF + end));
    SawRun(kind, r.(matched := 0));
    InvokeThen(s, SawOf(kind), HeaderValueConnectionWs, r, r.(headerState := kind), held + a, b, end, r');
  }

  lemma NotFoundRuns(s: State<Label>, kind: nat, r: Registers, held: seq<Byte>, a: seq<Byte>, b: seq<Byte>,
                     end: seq<Byte>, r': Registers)
    requires Match(ToLower, PartOf(kind), 0, a + (b + (CRLF + end))) == MatchMismatch(|a|)
    requires Ends(s, HeaderValueConnectionToken, r, held + a, b, end, r')
    ensures RunOn(In(s, MatcherOf(kind), r, held), a + (b + (CRLF + end))) ==
            RunOn(ValueRead(s, r', held + a + b), CRLF + end)
  {
    var tail := b + (CRLF + end);
    assert (a + tail)[..|a|] == a && (a + tail)[|a|..] == tail;
    MatcherNode(kind);
    Misspelled(In(s, MatcherOf(kind), r, held), a + tail);
  }

  /** From the matcher of a word, before what is left of the value. */
  ghost function FromWord(r: Registers, kind: nat, v: seq<Byte>): Registers {
    var part := PartOf(kind);
    if Begins(v, part) then AfterWord(r.(headerState := kind), v[|part|..]) else InToken(r, v)
  }

  lemma {:induction false} WordRuns(s: State<Label>, kind: nat, r: Registers, held: seq<Byte>, v: seq<Byte>,
                                    end: seq<Byte>)
    requires IsWordKind(kind) && IsValue(v)
    ensures Ends(s, MatcherOf(kind), r, held, v, end, FromWord(r, kind, v))
    decreases |v|, 3
  {
    PartBytes(kind);
    var a, b := WhereWordEnds(PartOf(kind), v, end);
    Associates(held, a, b);
    if Begins(v, PartOf(kind)) {
      AfterWordRuns(s, r.(headerState := kind), held + a, b, end);
      FoundRuns(s, kind, r, held, a, b, end, AfterWord(r.(headerState := kind), b));
    } else {
      TokenRuns(s, r, held + a, b, end);
      NoCommaInToken(r, a, b);
      NotFoundRuns(s, kind, r, held, a, b, end, InToken(r, b));
    }
  }

  lemma BeginsLater(v: seq<Byte>, letter: Byte, blob: seq<Byte>)
    ensures Begins(v, [letter] + blob) <==> v != [] && FoldByte(ToLower, v[0]) == letter && Begins(v[1..], blob)
    ensures Begins(v, [letter] + blob) ==> v[|[letter] + blob|..] == v[1..][|blob|..]
  {
    var n := |blob| + 1;
    assert ([letter] + blob)[1..] == blob;
    if |v| >= n {
      assert v[..n][1..] == v[1..][..n - 1] && v[..n][0] == v[0];
    }
  }

  lemma WordByLetter(v: seq<Byte>)
    ensures Begins(v, CLOSE) <==> v != [] && FoldByte(ToLower, v[0]) == 'c' as int && Begins(v[1..], LOSE)
    ensures Begins(v, KEEP_ALIVE) <==> v != [] && FoldByte(ToLower, v[0]) == 'k' as int && Begins(v[1..], EEP_ALIVE)
    ensures Begins(v, UPGRADE) <==> v != [] && FoldByte(ToLower, v[0]) == 'u' as int && Begins(v[1..], PGRADE)
    ensures WordAt(v) != H_GENERAL ==> v[|WordOf(WordAt(v))|..] == v[1..][|WordOf(WordAt(v))| - 1..]
  {
    BeginsLater(v, 'c' as int, LOSE);
    BeginsLater(v, 'k' as int, EEP_ALIVE);
    BeginsLater(v, 'u' as int, PGRADE);
  }

  predicate IsLetter(b: Byte) {
    FoldByte(ToLower, b) == 'c' as int || FoldByte(ToLower, b) == 'k' as int || FoldByte(ToLower, b) == 'u' as int
  }

  /** The word that can begin with this letter. */
  function WordBy(b: Byte): (kind: nat)
    requires IsLetter(b)
    ensures IsWordKind(kind) && FoldByte(ToLower, b) == LetterOf(kind)
  {
    var c := FoldByte(ToLower, b);
    if c == 'c' as int then H_CLOSE else if c == 'k' as int then H_KEEP_ALIVE else H_CONNECTION_UPGRADE
  }

  lemma AtLetter(r: Registers, v: seq<Byte>, kind: nat)
    requires v != [] && IsWordKind(kind) && FoldByte(ToLower, v[0]) == LetterOf(kind)
    ensures AtItem(r, v) == FromWord(r, kind, v[1..])
  {
    WordByLetter(v);
    if WordAt(v) == H_GENERAL {
      assert InToken(r, v) == InToken(r, v[1..]);
    } else {
      assert v[|WordOf(kind)|..] == v[1..][|PartOf(kind)|..];
    }
  }

  lemma LetterEdge(b: Byte)
    requires IsLetter(b)
    ensures ConnectionEdge(HeaderValueConnection, b) == Read(Connection(MatcherOf(WordBy(b))))
  {}

  lemma {:induction false} WordLetterRuns(s: State<Label>, r: Registers, held: seq<Byte>, v: seq<Byte>, end: seq<Byte>)
    requires v != [] && IsValue(v) && IsLetter(v[0])
    ensures Ends(s, HeaderValueConnection, r, held, v, end, AtItem(r, v))
    decreases |v|, 1
  {
    var kind := WordBy(v[0]);
    ByteApart(held, v, end);
    LetterEdge(v[0]);
    AtLetter(r, v, kind);
    WordRuns(s, kind, r, held + [v[0]], v[1..], end);
    ByteThen(s, HeaderValueConnection, MatcherOf(kind), r, held, v, end, AtItem(r, v));
  }

  lemma AtOther(r: Registers, v: seq<Byte>)
    requires v == [] || (!IsLetter(v[0]) && v[0] != SP && v[0] != HT)
    ensures AtItem(r, v) == InToken(r, v)
  {
    WordByLetter(v);
  }

  lemma {:induction false} ItemRuns(s: State<Label>, r: Registers, held: seq<Byte>, v: seq<Byte>, end: seq<Byte>)
    requires IsValue(v)
    ensures Ends(s, HeaderValueConnection, r, held, v, end, AtItem(r, v))
    decreases |v|, 2
  {
    if v != [] && (v[0] == SP || v[0] == HT) {
      ByteApart(held, v, end);
      ItemRuns(s, r, held + [v[0]], v[1..], end);
      ByteThen(s, HeaderValueConnection, HeaderValueConnection, r, held, v, end, AtItem(r, v[1..]));
    } else if v != [] && IsLetter(v[0]) {
      WordLetterRuns(s, r, held, v, end);
    } else {
      AtOther(r, v);
      TokenRuns(s, r, held, v, end);
      JumpThen(s, HeaderValueConnection, HeaderValueConnectionToken, r, held, v, end, InToken(r, v));
    }
  }

  lemma {:induction false} CommaRuns(s: State<Label>, r: Registers, held: seq<Byte>, v: seq<Byte>, end: seq<Byte>)
    requires IsValue(v) && v != [] && v[0] == COMMA
    ensures Ends(s, HeaderValueConnectionWs, r, held, v, end, AtItem(ApplyHeaderState(r), v[1..]))
    decreases |v|, 0
  {
    var r0 := ApplyHeaderState(r);
    var t := AtItem(r0, v[1..]);
    ByteApart(held, v, end);
    ItemRuns(s, r0, held + [COMMA], v[1..], end);
    assert ApplyHeaderState(r.(matched := 0)) == r0.(matched := 0);
    InvokeThen(s, EndConnectionToken, HeaderValueConnection, r, r0, held + [COMMA], v[1..], end, t);
    ByteThen(s, HeaderValueConnectionWs, EndConnectionToken, r, held, v, end, t);
  }

  lemma {:induction false} JunkRuns(s: State<Label>, r: Registers, held: seq<Byte>, v: seq<Byte>, end: seq<Byte>)
    requires IsValue(v) && v != [] && v[0] != COMMA && v[0] != SP
    ensures Ends(s, HeaderValueConnectionWs, r, held, v, end, InToken(r.(headerState := H_GENERAL), v))
    decreases |v|, 1
  {
    var r0 := r.(headerState := H_GENERAL);
    assert v[0] in v;
    TokenRuns(s, r0, held, v, end);
    InvokeThen(s, NoConnectionToken, HeaderValueConnectionToken, r, r0, held, v, end, InToken(r0, v));
    JumpThen(s, HeaderValueConnectionWs, NoConnectionToken, r, held, v, end, InToken(r0, v));
  }

  lemma {:induction false} AfterWordRuns(s: State<Label>, r: Registers, held: seq<Byte>, v: seq<Byte>, end: seq<Byte>)
    requires IsValue(v)
    ensures Ends(s, HeaderValueConnectionWs, r, held, v, end, AfterWord(r, v))
    decreases |v|, 2
  {
    if v == [] {
      LineEnds(s, HeaderValueConnectionWs, r, held, end);
    } else if v[0] == SP {
      ByteApart(held, v, end);
      AfterWordRuns(s, r, held + [SP], v[1..], end);
      ByteThen(s, HeaderValueConnectionWs, HeaderValueConnectionWs, r, held, v, end, AfterWord(r, v[1..]));
    } else if v[0] == COMMA {
      CommaRuns(s, r, held, v, end);
    } else {
      JunkRuns(s, r, held, v, end);
    }
  }

  lemma {:induction false} TokenRuns(s: State<Label>, r: Registers, held: seq<Byte>, v: seq<Byte>, end: seq<Byte>)
    requires IsValue(v)
    ensures Ends(s, HeaderValueConnectionToken, r, held, v, end, InToken(r, v))
    decreases |v|, 0
  {
    if v == [] {
      LineEnds(s, HeaderValueConnectionToken, r, held, end);
    } else {
      ByteApart(held, v, end);
      if v[0] == COMMA {
        ItemRuns(s, r, held + [COMMA], v[1..], end);
        ByteThen(s, HeaderValueConnectionToken, HeaderValueConnection, r, held, v, end, AtItem(r, v[1..]));
      } else {
        TokenRuns(s, r, held + [v[0]], v[1..], end);
        ByteThen(s, HeaderValueConnectionToken, HeaderValueConnectionToken, r, held, v, end, InToken(r, v[1..]));
      }
    }
  }

  // ---------------------------------------------------------------- what it means

  /** From r the value leaves these flags, once the last option is applied, and nothing else. */
  ghost predicate Leaves(r: Registers, r': Registers, flags: Flags) {
    var a := ApplyHeaderState(r');
    a == r.(flags := flags, headerState := a.headerState) && a.headerState <= H_CONNECTION
  }

  /** The flags when the list goes on behind the first comma of v. */
  ghost function Later(f: Flags, v: seq<Byte>): Flags {
    if COMMA in v then Flagged(f, OptionsIn(AfterComma(v))) else f
  }

  lemma FlaggedTwice(f: Flags, a: set<nat>, b: set<nat>)
    ensures Flagged(Flagged(f, a), b) == Flagged(f, a + b)
  {}

  lemma OptionsOf(f: Flags, v: seq<Byte>)
    ensures Flagged(f, OptionsIn(v)) == Later(Flagged(f, {OptionOf(DropBlanks(BeforeComma(v)))}), v)
  {
    var item := {OptionOf(DropBlanks(BeforeComma(v)))};
    if COMMA in v {
      FlaggedTwice(f, item, OptionsIn(AfterComma(v)));
    } else {
      assert item + {} == item;
    }
  }

  lemma {:induction false} NoCommaBefore(a: seq<Byte>, b: seq<Byte>)
    requires COMMA !in a
    ensures BeforeComma(a + b) == a + BeforeComma(b) && (COMMA in a + b <==> COMMA in b) &&
            AfterComma(a + b) == AfterComma(b)
    decreases |a|
  {
    SameAfterComma(a, b);
    if a == [] {
      assert a + b == b;
    } else {
      assert a[0] in a && (a + b)[1..] == a[1..] + b && forall x | x in a[1..] :: x in a;
      NoCommaBefore(a[1..], b);
      assert a == [a[0]] + a[1..];
      Associates([a[0]], a[1..], BeforeComma(b));
    }
  }

  lemma {:induction false} BeforeIsPrefix(v: seq<Byte>)
    ensures BeforeComma(v) <= v
  {
    if v != [] && v[0] != COMMA {
      BeforeIsPrefix(v[1..]);
    }
  }

  lemma {:induction false} SpelledWithoutComma(bytes: seq<Byte>, word: seq<Byte>)
    requires Spells(ToLower, bytes, word) && forall x | x in word :: x >= 0x2d
    ensures COMMA !in bytes
    decreases |bytes|
  {
    if bytes != [] {
      assert word[0] in word && forall x | x in word[1..] :: x in word;
      SpelledWithoutComma(bytes[1..], word[1..]);
      assert forall x | x in bytes :: x == bytes[0] || x in bytes[1..];
    }
  }

  /** An item begins with a word just if the list does. */
  lemma ItemBegins(v: seq<Byte>, word: seq<Byte>)
    requires forall x | x in word :: x >= 0x2d
    ensures Begins(BeforeComma(v), word) <==> Begins(v, word)
    ensures Begins(v, word) ==> var u := v[|word|..];
              BeforeComma(v)[|word|..] == BeforeComma(u) && (COMMA in v <==> COMMA in u) &&
                AfterComma(v) == AfterComma(u)
  {
    BeforeIsPrefix(v);
    var n := |word|;
    if |BeforeComma(v)| >= n {
      assert BeforeComma(v)[..n] == v[..n];
    }
    if Begins(v, word) {
      assert v == v[..n] + v[n..];
      SpelledWithoutComma(v[..n], word);
      NoCommaBefore(v[..n], v[n..]);
      assert (v[..n] + BeforeComma(v[n..]))[n..] == BeforeComma(v[n..]) &&
             (v[..n] + BeforeComma(v[n..]))[..n] == v[..n];
    }
  }

  lemma WordBytes()
    ensures forall x | x in CLOSE :: x >= 0x2d
    ensures forall x | x in KEEP_ALIVE :: x >= 0x2d
    ensures forall x | x in UPGRADE :: x >= 0x2d
  {}

  /** No two words begin alike. */
  lemma OneWord(v: seq<Byte>, kind: nat)
    requires IsWordKind(kind)
    ensures WordAt(v) == kind <==> Begins(v, WordOf(kind))
  {
    WordByLetter(v);
  }

  lemma OptionWithWord(v: seq<Byte>)
    requires IsWordKind(WordAt(v))
    ensures var kind := WordAt(v);
            OptionOf(BeforeComma(v)) ==
            if DropSpaces(BeforeComma(v[|WordOf(kind)|..])) == [] then kind else H_GENERAL
  {
    WordBytes();
    ItemBegins(v, CLOSE);
    ItemBegins(v, KEEP_ALIVE);
    ItemBegins(v, UPGRADE);
    OneWord(v, H_CLOSE);
    OneWord(v, H_KEEP_ALIVE);
    OneWord(v, H_CONNECTION_UPGRADE);
  }

  lemma OptionWithoutWord(v: seq<Byte>)
    requires WordAt(v) == H_GENERAL
    ensures OptionOf(BeforeComma(v)) == H_GENERAL
  {
    WordBytes();
    ItemBegins(v, CLOSE);
    ItemBegins(v, KEEP_ALIVE);
    ItemBegins(v, UPGRADE);
  }

  lemma BlankFirst(v: seq<Byte>)
    requires v != [] && (v[0] == SP || v[0] == HT)
    ensures OptionsIn(v) == OptionsIn(v[1..])
  {
    assert v == [v[0]] + v[1..];
    assert BeforeComma(v)[1..] == BeforeComma(v[1..]);
    NoCommaBefore([v[0]], v[1..]);
  }

  lemma NoBlankFirst(v: seq<Byte>)
    requires v == [] || (v[0] != SP && v[0] != HT)
    ensures DropBlanks(BeforeComma(v)) == BeforeComma(v)
  {
    BeforeIsPrefix(v);
  }

  lemma {:induction false} InTokenMeans(r: Registers, v: seq<Byte>)
    requires r.headerState <= H_CONNECTION
    ensures Leaves(r, InToken(r, v), Later(r.flags, v))
    decreases |v|, 0
  {
    if v != [] {
      assert v == [v[0]] + v[1..];
      if v[0] == COMMA {
        AtItemMeans(r, v[1..]);
      } else {
        NoCommaBefore([v[0]], v[1..]);
        InTokenMeans(r, v[1..]);
      }
    }
  }

  lemma {:induction false} AfterWordMeans(r: Registers, kind: nat, v: seq<Byte>)
    requires r.headerState == kind && IsWordKind(kind)
    ensures Leaves(r, AfterWord(r, v),
                   Later(Flagged(r.flags, {if DropSpaces(BeforeComma(v)) == [] then kind else H_GENERAL}), v))
    decreases |v|, 1
  {
    if v != [] {
      assert v == [v[0]] + v[1..];
      if v[0] == SP {
        NoCommaBefore([v[0]], v[1..]);
        assert BeforeComma(v)[1..] == BeforeComma(v[1..]);
        AfterWordMeans(r, kind, v[1..]);
      } else if v[0] == COMMA {
        AtItemMeans(ApplyHeaderState(r), v[1..]);
      } else {
        assert DropSpaces(BeforeComma(v)) != [];
        InTokenMeans(r.(headerState := H_GENERAL), v);
      }
    }
  }

  /** The options of the list, and nothing else, are flagged when the value has been applied. */
  lemma {:induction false} AtItemMeans(r: Registers, v: seq<Byte>)
    requires r.headerState <= H_CONNECTION
    ensures Leaves(r, AtItem(r, v), Flagged(r.flags, OptionsIn(v)))
    decreases |v|, 2
  {
    if v != [] && (v[0] == SP || v[0] == HT) {
      BlankFirst(v);
      AtItemMeans(r, v[1..]);
    } else {
      NoBlankFirst(v);
      OptionsOf(r.flags, v);
      var kind := WordAt(v);
      if kind != H_GENERAL {
        OptionWithWord(v);
        WordBytes();
        ItemBegins(v, WordOf(kind));
        AfterWordMeans(r.(headerState := kind), kind, v[|WordOf(kind)|..]);
      } else {
        OptionWithoutWord(v);
        InTokenMeans(r, v);
      }
    }
  }

  // ---------------------------------------------------------------- where a value ends

  /** The header_state a list leaves behind depends on nothing in the registers but the one before. */
  lemma {:induction false} InTokenState(r: Registers, a: Registers, v: seq<Byte>)
    requires r.headerState == a.headerState
    ensures InToken(r, v).headerState == InToken(a, v).headerState
    decreases |v|, 0
  {
    if v != [] {
      if v[0] == COMMA {
        AtItemState(r, a, v[1..]);
      } else {
        InTokenState(r, a, v[1..]);
      }
    }
  }

  lemma {:induction false} AfterWordState(r: Registers, a: Registers, v: seq<Byte>)
    requires r.headerState == a.headerState
    ensures AfterWord(r, v).headerState == AfterWord(a, v).headerState
    decreases |v|, 1
  {
    if v != [] {
      if v[0] == SP {
        AfterWordState(r, a, v[1..]);
      } else if v[0] == COMMA {
        AtItemState(ApplyHeaderState(r), ApplyHeaderState(a), v[1..]);
      } else {
        InTokenState(r.(headerState := H_GENERAL), a.(headerState := H_GENERAL), v);
      }
    }
  }

  lemma {:induction false} AtItemState(r: Registers, a: Registers, v: seq<Byte>)
    requires r.headerState == a.headerState
    ensures AtItem(r, v).headerState == AtItem(a, v).headerState
    decreases |v|, 2
  {
    if v != [] && (v[0] == SP || v[0] == HT) {
      AtItemState(r, a, v[1..]);
    } else if WordAt(v) != H_GENERAL {
      AfterWordState(r.(headerState := WordAt(v)), a.(headerState := WordAt(v)), v[|WordOf(WordAt(v))|..]);
    } else {
      InTokenState(r, a, v);
    }
  }
}
