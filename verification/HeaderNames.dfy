/** Which header names the parser looks up. */
module HeaderNames {
  import opened Bytes
  import opened Llparse
  import opened Llhttp
  import opened LlhttpSteps

  const COLON: Byte := 0x3a

  const C: seq<Byte> := [0x63]
  const N: seq<Byte> := [0x6e]
  const P: seq<Byte> := [0x70]
  const T: seq<Byte> := [0x74]
  const U: seq<Byte> := [0x75]
  const ON: seq<Byte> := [0x6f, 0x6e]
  const ECTION: seq<Byte> := [0x65, 0x63, 0x74, 0x69, 0x6f, 0x6e]
  const ROXY_CONNECTION: seq<Byte> :=
    [0x72, 0x6f, 0x78, 0x79, 0x2d, 0x63, 0x6f, 0x6e, 0x6e, 0x65, 0x63, 0x74, 0x69, 0x6f, 0x6e]
  const RANSFER_ENCODING: seq<Byte> :=
    [0x72, 0x61, 0x6e, 0x73, 0x66, 0x65, 0x72, 0x2d, 0x65, 0x6e, 0x63, 0x6f, 0x64, 0x69, 0x6e, 0x67]
  const PGRADE: seq<Byte> := [0x70, 0x67, 0x72, 0x61, 0x64, 0x65]

  const CONNECTION: seq<Byte> := C + (ON + (N + ECTION))
  const CONTENT_LENGTH: seq<Byte> := C + (ON + (T + ENT_LENGTH))
  const PROXY_CONNECTION: seq<Byte> := P + ROXY_CONNECTION
  const TRANSFER_ENCODING: seq<Byte> := T + RANSFER_ENCODING
  const UPGRADE: seq<Byte> := U + PGRADE

  /** The same word, in any case. */
  ghost predicate Named(name: seq<Byte>, word: seq<Byte>) {
    Spells(ToLower, name, word)
  }

  /** What the parser takes a header name for. */
  ghost function KindOf(name: seq<Byte>): (kind: nat)
    ensures kind <= H_UPGRADE
  {
    if Named(name, CONNECTION) || Named(name, PROXY_CONNECTION) then H_CONNECTION
    else if Named(name, CONTENT_LENGTH) then H_CONTENT_LENGTH
    else if Named(name, TRANSFER_ENCODING) then H_TRANSFER_ENCODING
    else if Named(name, UPGRADE) then H_UPGRADE
    else H_GENERAL
  }

  /** A token of section 3.2.6 of RFC 7230. */
  predicate IsTokenByte(b: Byte) { IsHeaderNameByte(b) && b != SP }

  ghost predicate IsToken(name: seq<Byte>) {
    forall b | b in name :: IsTokenByte(b)
  }

  lemma PartsAreTokens(a: seq<Byte>, b: seq<Byte>)
    requires IsToken(a + b)
    ensures IsToken(a) && IsToken(b)
  {
    assert forall x | x in a :: x in a + b;
    assert forall x | x in b :: x in a + b;
  }

  lemma FirstApart(held: seq<Byte>, name: seq<Byte>, e: Byte, rest: seq<Byte>)
    requires name != [] && IsToken(name)
    ensures name + ([e] + rest) == [name[0]] + (name[1..] + ([e] + rest)) && IsToken(name[1..])
    ensures held + [name[0]] + name[1..] == held + name && IsTokenByte(name[0])
  {
    assert name == [name[0]] + name[1..] && name[0] in name;
    PartsAreTokens([name[0]], name[1..]);
    Associates(held, [name[0]], name[1..]);
  }

  // ---------------------------------------------------------------- the run over a name

  function InField(s: State<Label>, n: NameState, matched: nat, held: seq<Byte>): State<Label> {
    s.(current := Name(n), span := Some(OnHeaderField), held := held, regs := s.regs.(matched := matched))
  }

  /** The parser behind the colon. */
  function AfterName(s: State<Label>, name: seq<Byte>, kind: nat): State<Label> {
    s.(current := Value(HeaderValueDiscardWs), span := None, held := [],
       regs := s.regs.(matched := 0, headerState := kind),
       log := s.log + [Data(OnHeaderField, name), Notify(HeaderFieldComplete)])
  }

  lemma ColonEnds(s: State<Label>, name: seq<Byte>, rest: seq<Byte>)
    requires s.current == Name(SpanEndHeaderField) && s.span == Some(OnHeaderField) && s.held == name &&
             s.regs.matched == 0
    ensures RunOn(s, [COLON] + rest) == RunOn(AfterName(s, name, s.regs.headerState), rest)
  {
    var t :=
      s.(current := Name(OnHeaderFieldComplete), span := None, held := [], log := s.log + [Data(OnHeaderField, name)]);
    assert ([COLON] + rest)[1..] == rest;
    EndsSpan(s, [COLON] + rest);
    Invokes(t, rest);
    assert t.log + [Notify(HeaderFieldComplete)] == s.log + [Data(OnHeaderField, name), Notify(HeaderFieldComplete)];
  }

  /** The parser behind a name and a space. */
  function Spaced(s: State<Label>, name: seq<Byte>, kind: nat): State<Label> {
    s.(current := Name(if kind == H_GENERAL then HeaderFieldGeneral else HeaderFieldColon), span := Some(OnHeaderField),
       held := name + [SP], regs := s.regs.(matched := 0, headerState := kind))
  }

  /** Behind a name: the colon ends it, a space is read, and any other byte that no name has is refused. */
  ghost predicate NameEnds(t: State<Label>, s: State<Label>, name: seq<Byte>, kind: nat, e: Byte, rest: seq<Byte>) {
    if e == COLON then t == RunOn(AfterName(s, name, kind), rest)
    else if e == SP then t == RunOn(Spaced(s, name, kind), rest)
    else t.error == INVALID_HEADER_TOKEN
  }

  /** No name goes on with this byte. */
  lemma GeneralStops(s: State<Label>, held: seq<Byte>, e: Byte, rest: seq<Byte>)
    requires !IsHeaderNameByte(e)
    ensures NameEnds(RunOn(InField(s, HeaderFieldGeneral, 0, held), [e] + rest), s, held, s.regs.headerState, e, rest)
  {
    Peeks(InField(s, HeaderFieldGeneral, 0, held), e, rest);
    Peeks(InField(s, HeaderFieldGeneralOtherwise, 0, held), e, rest);
    if e == COLON {
      ColonEnds(InField(s, SpanEndHeaderField, 0, held), held, rest);
    } else {
      Fails(To(InField(s, HeaderFieldGeneral, 0, held), Failing(INVALID_HEADER_TOKEN)), [e] + rest);
    }
  }

  lemma GeneralEnds(s: State<Label>, held: seq<Byte>, e: Byte, rest: seq<Byte>)
    requires !IsTokenByte(e) && s.regs.headerState == H_GENERAL
    ensures NameEnds(RunOn(InField(s, HeaderFieldGeneral, 0, held), [e] + rest), s, held, H_GENERAL, e, rest)
  {
    if e == SP {
      Reads(InField(s, HeaderFieldGeneral, 0, held), SP, rest);
    } else {
      GeneralStops(s, held, e, rest);
    }
  }

  lemma {:induction false} GeneralRuns(s: State<Label>, held: seq<Byte>, name: seq<Byte>, e: Byte, rest: seq<Byte>)
    requires !IsTokenByte(e)
    requires IsToken(name) && s.regs.headerState == H_GENERAL
    ensures NameEnds(RunOn(InField(s, HeaderFieldGeneral, 0, held), name + ([e] + rest)),
                     s, held + name, H_GENERAL, e, rest)
    decreases |name|
  {
    if name == [] {
      assert name + ([e] + rest) == [e] + rest && held + name == held;
      GeneralEnds(s, held, e, rest);
    } else {
      FirstApart(held, name, e, rest);
      Reads(InField(s, HeaderFieldGeneral, 0, held), name[0], name[1..] + ([e] + rest));
      GeneralRuns(s, held + [name[0]], name[1..], e, rest);
    }
  }

  /** The lookup gives up: the rest of the name is read as any name. */
  lemma ClearRuns(s: State<Label>, held: seq<Byte>, name: seq<Byte>, e: Byte, rest: seq<Byte>)
    requires !IsTokenByte(e)
    requires IsToken(name)
    ensures NameEnds(RunOn(InField(s, ClearHeaderState, 0, held), name + ([e] + rest)),
                     s, held + name, H_GENERAL, e, rest)
  {
    var t := s.(regs := s.regs.(headerState := H_GENERAL));
    Invokes(InField(s, ClearHeaderState, 0, held), name + ([e] + rest));
    GeneralRuns(t, held, name, e, rest);
  }

  /** A word is found; it is the name only if nothing follows. */
  lemma StoreRuns(s: State<Label>, kind: nat, held: seq<Byte>, name: seq<Byte>, e: Byte, rest: seq<Byte>)
    requires kind != H_GENERAL && !IsTokenByte(e) && IsToken(name)
    ensures NameEnds(RunOn(InField(s, StoreHeaderState, kind, held), name + ([e] + rest)),
                     s, held + name, if name == [] then kind else H_GENERAL, e, rest)
  {
    var t := s.(regs := s.regs.(headerState := kind));
    Invokes(InField(s, StoreHeaderState, kind, held), name + ([e] + rest));
    if name == [] && (e == COLON || e == SP) {
      assert name + ([e] + rest) == [e] + rest && held + name == held;
      WordEnds(t, kind, held, e, rest);
    } else {
      NotTheWord(t, kind, held, name, e, rest);
    }
  }

  lemma NotTheWord(s: State<Label>, kind: nat, held: seq<Byte>, name: seq<Byte>, e: Byte, rest: seq<Byte>)
    requires !IsTokenByte(e) && IsToken(name) && (name == [] ==> e != COLON && e != SP)
    ensures NameEnds(RunOn(InField(s, HeaderFieldColon, kind, held), name + ([e] + rest)),
                     s, held + name, H_GENERAL, e, rest)
  {
    var input := name + ([e] + rest);
    assert input == [input[0]] + input[1..] && input[0] == (if name == [] then e else name[0]);
    assert name != [] ==> name[0] in name;
    Peeks(InField(s, HeaderFieldColon, kind, held), input[0], input[1..]);
    ClearRuns(s, held, name, e, rest);
  }

  lemma WordEnds(s: State<Label>, kind: nat, held: seq<Byte>, e: Byte, rest: seq<Byte>)
    requires (e == COLON || e == SP) && s.regs.headerState == kind && kind != H_GENERAL
    ensures NameEnds(RunOn(InField(s, HeaderFieldColon, kind, held), [e] + rest), s, held, kind, e, rest)
  {
    if e == SP {
      Reads(InField(s, HeaderFieldColon, kind, held), SP, rest);
    } else {
      Peeks(InField(s, HeaderFieldColon, kind, held), COLON, rest);
      ColonEnds(InField(s, SpanEndHeaderField, 0, held), held, rest);
    }
  }

  /** A matcher of a word ends, either way, at a byte that no name has at the latest. */
  lemma {:induction false} NoByteMatches(blob: seq<Byte>, index: nat, name: seq<Byte>, e: Byte, rest: seq<Byte>)
    requires !IsTokenByte(e)
    requires index < |blob| && IsToken(blob)
    ensures var m := Match(ToLower, blob, index, name + ([e] + rest));
            (m.MatchMismatch? && m.p <= |name|) || (m.MatchComplete? && m.p < |name|)
    decreases |name|
  {
    var input := name + ([e] + rest);
    assert blob[index] in blob;
    if name == [] {
      assert input[0] == e;
    } else {
      assert input[1..] == name[1..] + ([e] + rest);
      if index + 1 < |blob| {
        NoByteMatches(blob, index + 1, name[1..], e, rest);
      }
    }
  }

  /** Where a matcher goes over what is left of a name: past its word, or to the first wrong byte. */
  lemma WhereMatchEnds(blob: seq<Byte>, name: seq<Byte>, e: Byte, rest: seq<Byte>) returns (a: seq<Byte>, b: seq<Byte>)
    requires !IsTokenByte(e)
    requires blob != [] && IsToken(blob) && IsToken(name)
    ensures name == a + b && IsToken(b) && name + ([e] + rest) == a + (b + ([e] + rest))
    ensures Spells(ToLower, a, blob) || Match(ToLower, blob, 0, a + (b + ([e] + rest))) == MatchMismatch(|a|)
    ensures Spells(ToLower, name, blob) <==> Spells(ToLower, a, blob) && b == []
  {
    var input := name + ([e] + rest);
    var m := Match(ToLower, blob, 0, input);
    MatchIsSpelling(ToLower, blob, 0, input);
    NoByteMatches(blob, 0, name, e, rest);
    assert blob[0..] == blob && (|name| >= |blob| ==> input[..|blob|] == name[..|blob|]);
    var p := if m.MatchMismatch? then m.p else |blob|;
    a, b := name[..p], name[p..];
    assert name == a + b;
    PartsAreTokens(a, b);
    Associates(a, b, [e] + rest);
    assert |name| == |blob| ==> name[..|blob|] == name;
  }

  /** The matcher of the last part of a word. */
  ghost predicate IsLastPart(n: NameState, blob: seq<Byte>, kind: nat) {
    && NodeOf(Name(n)) == Sequence(ToLower, blob, kind, Name(StoreHeaderState), Name(ClearHeaderState))
    && blob != [] && IsToken(blob) && kind != H_GENERAL
  }

  lemma WordRuns(s: State<Label>, n: NameState, blob: seq<Byte>, kind: nat,
                 held: seq<Byte>, a: seq<Byte>, b: seq<Byte>, e: Byte, rest: seq<Byte>)
    requires !IsTokenByte(e)
    requires IsLastPart(n, blob, kind) && IsToken(b) && s.index == 0 && Spells(ToLower, a, blob)
    ensures NameEnds(RunOn(InField(s, n, 0, held), a + (b + ([e] + rest))),
                     s, held + a + b, if b == [] then kind else H_GENERAL, e, rest)
  {
    Spelled(InField(s, n, 0, held), a, b + ([e] + rest));
    StoreRuns(s, kind, held + a, b, e, rest);
  }

  lemma NoWordRuns(s: State<Label>, n: NameState, fold: Fold, blob: seq<Byte>, matched: nat, complete: Label,
                   held: seq<Byte>, a: seq<Byte>, b: seq<Byte>, e: Byte, rest: seq<Byte>)
    requires !IsTokenByte(e)
    requires NodeOf(Name(n)) == Sequence(fold, blob, matched, complete, Name(ClearHeaderState))
    requires IsToken(b) && s.index == 0 && Match(fold, blob, 0, a + (b + ([e] + rest))) == MatchMismatch(|a|)
    ensures NameEnds(RunOn(InField(s, n, 0, held), a + (b + ([e] + rest))),
                     s, held + a + b, H_GENERAL, e, rest)
  {
    var tail := b + ([e] + rest);
    assert (a + tail)[..|a|] == a && (a + tail)[|a|..] == tail;
    Misspelled(InField(s, n, 0, held), a + tail);
    ClearRuns(s, held + a, b, e, rest);
  }

  /** name is what is left. */
  lemma LastPartRuns(s: State<Label>, n: NameState, blob: seq<Byte>, kind: nat,
                     held: seq<Byte>, name: seq<Byte>, e: Byte, rest: seq<Byte>)
    requires !IsTokenByte(e)
    requires IsLastPart(n, blob, kind) && IsToken(name) && s.index == 0
    ensures NameEnds(RunOn(InField(s, n, 0, held), name + ([e] + rest)),
                     s, held + name, if Spells(ToLower, name, blob) then kind else H_GENERAL, e, rest)
  {
    var a, b := WhereMatchEnds(blob, name, e, rest);
    Associates(held, a, b);
    if Spells(ToLower, a, blob) {
      WordRuns(s, n, blob, kind, held, a, b, e, rest);
    } else {
      NoWordRuns(s, n, ToLower, blob, kind, Name(StoreHeaderState), held, a, b, e, rest);
    }
  }

  lemma SpellsLater(name: seq<Byte>, blob: seq<Byte>)
    requires name != [] && blob != []
    ensures Spells(ToLower, name, blob) <==>
            FoldByte(ToLower, name[0]) == blob[0] && Spells(ToLower, name[1..], blob[1..])
  {}

  lemma SpellsLetter(name: seq<Byte>, letter: Byte, blob: seq<Byte>)
    requires name != [] && FoldByte(ToLower, name[0]) == letter
    ensures Spells(ToLower, name, [letter] + blob) <==> Spells(ToLower, name[1..], blob)
  {
    assert ([letter] + blob)[1..] == blob;
    SpellsLater(name, [letter] + blob);
  }

  lemma ReadsLetter(s: State<Label>, n: NameState, next: NameState, held: seq<Byte>, name: seq<Byte>, e: Byte,
                    rest: seq<Byte>)
    requires name != [] && IsToken(name) && NodeOf(Name(n)) == Switch && NameEdge(n, name[0]) == Read(Name(next))
    ensures RunOn(InField(s, n, 0, held), name + ([e] + rest)) ==
            RunOn(InField(s, next, 0, held + [name[0]]), name[1..] + ([e] + rest))
  {
    FirstApart(held, name, e, rest);
    Reads(InField(s, n, 0, held), name[0], name[1..] + ([e] + rest));
  }

  /** Letters and hyphens. */
  predicate IsLower(b: Byte) { b == 0x2d || 0x61 <= b <= 0x7a }

  lemma LowerIsToken(v: seq<Byte>)
    requires forall i | 0 <= i < |v| :: IsLower(v[i])
    ensures IsToken(v)
  {
    assert forall b | b in v :: IsLower(b);
  }

  lemma RansferIsToken()
    ensures IsToken(RANSFER_ENCODING)
  {
    LowerIsToken(RANSFER_ENCODING);
  }

  lemma RoxyIsToken()
    ensures IsToken(ROXY_CONNECTION)
  {
    LowerIsToken(ROXY_CONNECTION);
  }

  lemma LengthIsToken()
    ensures IsToken(ENT_LENGTH)
  {
    LowerIsToken(ENT_LENGTH);
  }

  /** A letter, then the last part of a word. */
  lemma LetterRuns(s: State<Label>, n: NameState, next: NameState, letter: Byte, blob: seq<Byte>, kind: nat,
                   held: seq<Byte>, name: seq<Byte>, e: Byte, rest: seq<Byte>)
    requires !IsTokenByte(e)
    requires name != [] && IsToken(name) && s.index == 0 && FoldByte(ToLower, name[0]) == letter
    requires NodeOf(Name(n)) == Switch && NameEdge(n, name[0]) == Read(Name(next)) && IsLastPart(next, blob, kind)
    ensures NameEnds(RunOn(InField(s, n, 0, held), name + ([e] + rest)),
                     s, held + name, if Spells(ToLower, name, [letter] + blob) then kind else H_GENERAL, e, rest)
  {
    ReadsLetter(s, n, next, held, name, e, rest);
    FirstApart(held, name, e, rest);
    SpellsLetter(name, letter, blob);
    LastPartRuns(s, next, blob, kind, held + [name[0]], name[1..], e, rest);
  }

  /** No word begins like this. */
  lemma OtherLetterRuns(s: State<Label>, n: NameState, held: seq<Byte>, name: seq<Byte>, e: Byte, rest: seq<Byte>)
    requires !IsTokenByte(e)
    requires IsToken(name) && s.index == 0 && NodeOf(Name(n)) == Switch
    requires NameEdge(n, (name + [e])[0]) == Peek(Name(ClearHeaderState))
    ensures NameEnds(RunOn(InField(s, n, 0, held), name + ([e] + rest)),
                     s, held + name, H_GENERAL, e, rest)
  {
    var input := name + ([e] + rest);
    assert input == [input[0]] + input[1..] && input[0] == (name + [e])[0];
    Peeks(InField(s, n, 0, held), input[0], input[1..]);
    ClearRuns(s, held, name, e, rest);
  }

  /** After "con". */
  ghost function KindAfterCo(name: seq<Byte>): nat {
    if Spells(ToLower, name, N + ECTION) then H_CONNECTION
    else if Spells(ToLower, name, T + ENT_LENGTH) then H_CONTENT_LENGTH else H_GENERAL
  }

  lemma NotSpelled(name: seq<Byte>, letter: Byte, blob: seq<Byte>)
    requires name == [] || FoldByte(ToLower, name[0]) != letter
    ensures !Spells(ToLower, name, [letter] + blob)
  {}

  lemma AfterConRuns(s: State<Label>, held: seq<Byte>, name: seq<Byte>, e: Byte, rest: seq<Byte>)
    requires !IsTokenByte(e)
    requires IsToken(name) && s.index == 0
    ensures NameEnds(RunOn(InField(s, HeaderField2, 0, held), name + ([e] + rest)),
                     s, held + name, KindAfterCo(name), e, rest)
  {
    if name != [] && FoldByte(ToLower, name[0]) == 'n' as int {
      NotSpelled(name, 't' as int, ENT_LENGTH);
      LetterRuns(s, HeaderField2, HeaderField3, 'n' as int, ECTION, H_CONNECTION, held, name, e, rest);
    } else if name != [] && FoldByte(ToLower, name[0]) == 't' as int {
      NotSpelled(name, 'n' as int, ECTION);
      LengthIsToken();
      LetterRuns(s, HeaderField2, HeaderField4, 't' as int, ENT_LENGTH, H_CONTENT_LENGTH, held, name, e, rest);
    } else {
      NotSpelled(name, 't' as int, ENT_LENGTH);
      NotSpelled(name, 'n' as int, ECTION);
      OtherLetterRuns(s, HeaderField2, held, name, e, rest);
    }
  }

  /** After "c": "on", then the rest of one of two words. */
  ghost function KindAfterC(name: seq<Byte>): nat {
    if Spells(ToLower, name, ON + (N + ECTION)) then H_CONNECTION
    else if Spells(ToLower, name, ON + (T + ENT_LENGTH)) then H_CONTENT_LENGTH else H_GENERAL
  }

  lemma OnThen(a: seq<Byte>, b: seq<Byte>)
    requires Spells(ToLower, a, ON)
    ensures KindAfterC(a + b) == KindAfterCo(b)
  {
    SpellsParts(ToLower, a, b, ON, N + ECTION);
    SpellsParts(ToLower, a, b, ON, T + ENT_LENGTH);
  }

  lemma NotOn(name: seq<Byte>, word: seq<Byte>)
    requires Spells(ToLower, name, ON + word)
    ensures |name| >= 2 && Spells(ToLower, name[..2], ON)
  {
    assert name == name[..2] + name[2..];
    SpellsParts(ToLower, name[..2], name[2..], ON, word);
  }

  /** "on" is all there is to match before the words part. */
  lemma WhereOnEnds(name: seq<Byte>, e: Byte, rest: seq<Byte>) returns (a: seq<Byte>, b: seq<Byte>)
    requires !IsTokenByte(e)
    requires IsToken(name)
    ensures name == a + b && IsToken(b) && name + ([e] + rest) == a + (b + ([e] + rest))
    ensures if Spells(ToLower, a, ON) then KindAfterC(name) == KindAfterCo(b)
            else Match(ToLower, ON, 0, a + (b + ([e] + rest))) == MatchMismatch(|a|) &&
                 KindAfterC(name) == H_GENERAL
  {
    a, b := WhereMatchEnds(ON, name, e, rest);
    if Spells(ToLower, a, ON) {
      OnThen(a, b);
    } else {
      var input := name + ([e] + rest);
      MatchIsSpelling(ToLower, ON, 0, input);
      assert ON[0..] == ON && (|name| >= 2 ==> input[..2] == name[..2]);
      if Spells(ToLower, name, ON + (N + ECTION)) {
        NotOn(name, N + ECTION);
      }
      if Spells(ToLower, name, ON + (T + ENT_LENGTH)) {
        NotOn(name, T + ENT_LENGTH);
      }
    }
  }

  lemma AfterCRuns(s: State<Label>, held: seq<Byte>, name: seq<Byte>, e: Byte, rest: seq<Byte>)
    requires !IsTokenByte(e)
    requires IsToken(name) && s.index == 0
    ensures NameEnds(RunOn(InField(s, HeaderField1, 0, held), name + ([e] + rest)),
                     s, held + name, KindAfterC(name), e, rest)
  {
    var a, b := WhereOnEnds(name, e, rest);
    Associates(held, a, b);
    if Spells(ToLower, a, ON) {
      Spelled(InField(s, HeaderField1, 0, held), a, b + ([e] + rest));
      AfterConRuns(s, held + a, b, e, rest);
    } else {
      NoWordRuns(s, HeaderField1, ToLower, ON, 0, Name(HeaderField2), held, a, b, e, rest);
    }
  }

  /** The first letter tells the words apart. */
  lemma KindByLetter(name: seq<Byte>)
    requires name != []
    ensures var c := FoldByte(ToLower, name[0]);
            KindOf(name) ==
            if c == 'c' as int then KindAfterC(name[1..])
            else if c == 'p' as int then
                 (if Spells(ToLower, name, P + ROXY_CONNECTION) then H_CONNECTION else H_GENERAL)
            else if c == 't' as int then
                 (if Spells(ToLower, name, T + RANSFER_ENCODING) then H_TRANSFER_ENCODING else H_GENERAL)
            else if c == 'u' as int then (if Spells(ToLower, name, U + PGRADE) then H_UPGRADE else H_GENERAL)
            else H_GENERAL
  {
    assert CONNECTION[1..] == ON + (N + ECTION) && CONTENT_LENGTH[1..] == ON + (T + ENT_LENGTH);
    SpellsLater(name, CONNECTION);
    SpellsLater(name, CONTENT_LENGTH);
    SpellsLater(name, PROXY_CONNECTION);
    SpellsLater(name, TRANSFER_ENCODING);
    SpellsLater(name, UPGRADE);
  }

  lemma CRuns(s: State<Label>, name: seq<Byte>, e: Byte, rest: seq<Byte>)
    requires !IsTokenByte(e)
    requires name != [] && IsToken(name) && s.index == 0 && FoldByte(ToLower, name[0]) == 'c' as int
    ensures NameEnds(RunOn(InField(s, HeaderField, 0, []), name + ([e] + rest)),
                     s, name, KindAfterC(name[1..]), e, rest)
  {
    ReadsLetter(s, HeaderField, HeaderField1, [], name, e, rest);
    FirstApart([], name, e, rest);
    assert [] + name == name;
    AfterCRuns(s, [] + [name[0]], name[1..], e, rest);
  }

  lemma PRuns(s: State<Label>, name: seq<Byte>, e: Byte, rest: seq<Byte>)
    requires !IsTokenByte(e)
    requires name != [] && IsToken(name) && s.index == 0 && FoldByte(ToLower, name[0]) == 'p' as int
    ensures NameEnds(RunOn(InField(s, HeaderField, 0, []), name + ([e] + rest)),
                     s, name, if Spells(ToLower, name, P + ROXY_CONNECTION) then H_CONNECTION else H_GENERAL, e, rest)
  {
    assert [] + name == name;
    RoxyIsToken();
    LetterRuns(s, HeaderField, HeaderField5, 'p' as int, ROXY_CONNECTION, H_CONNECTION, [], name, e, rest);
  }

  lemma TRuns(s: State<Label>, name: seq<Byte>, e: Byte, rest: seq<Byte>)
    requires !IsTokenByte(e)
    requires name != [] && IsToken(name) && s.index == 0 && FoldByte(ToLower, name[0]) == 't' as int
    ensures NameEnds(RunOn(InField(s, HeaderField, 0, []), name + ([e] + rest)),
                     s, name,
                     if Spells(ToLower, name, T + RANSFER_ENCODING) then H_TRANSFER_ENCODING else H_GENERAL, e, rest)
  {
    assert [] + name == name;
    RansferIsToken();
    LetterRuns(s, HeaderField, HeaderField6, 't' as int, RANSFER_ENCODING, H_TRANSFER_ENCODING, [], name, e, rest);
  }

  lemma URuns(s: State<Label>, name: seq<Byte>, e: Byte, rest: seq<Byte>)
    requires !IsTokenByte(e)
    requires name != [] && IsToken(name) && s.index == 0 && FoldByte(ToLower, name[0]) == 'u' as int
    ensures NameEnds(RunOn(InField(s, HeaderField, 0, []), name + ([e] + rest)),
                     s, name, if Spells(ToLower, name, U + PGRADE) then H_UPGRADE else H_GENERAL, e, rest)
  {
    assert [] + name == name;
    LetterRuns(s, HeaderField, HeaderField7, 'u' as int, PGRADE, H_UPGRADE, [], name, e, rest);
  }

  lemma OtherRuns(s: State<Label>, name: seq<Byte>, e: Byte, rest: seq<Byte>)
    requires !IsTokenByte(e)
    requires name != [] && IsToken(name) && s.index == 0
    requires NameEdge(HeaderField, name[0]) == Peek(Name(ClearHeaderState))
    ensures NameEnds(RunOn(InField(s, HeaderField, 0, []), name + ([e] + rest)),
                     s, name, H_GENERAL, e, rest)
  {
    assert [] + name == name && (name + [e])[0] == name[0];
    OtherLetterRuns(s, HeaderField, [], name, e, rest);
  }

  lemma FirstLetterRuns(s: State<Label>, name: seq<Byte>, e: Byte, rest: seq<Byte>)
    requires !IsTokenByte(e)
    requires name != [] && IsToken(name) && s.index == 0
    ensures NameEnds(RunOn(InField(s, HeaderField, 0, []), name + ([e] + rest)),
                     s, name, KindOf(name), e, rest)
  {
    var c := FoldByte(ToLower, name[0]);
    KindByLetter(name);
    if c == 'c' as int {
      CRuns(s, name, e, rest);
    } else if c == 'p' as int {
      PRuns(s, name, e, rest);
    } else if c == 't' as int {
      TRuns(s, name, e, rest);
    } else if c == 'u' as int {
      URuns(s, name, e, rest);
    } else {
      OtherRuns(s, name, e, rest);
    }
  }

  lemma NameStarts(s: State<Label>, b: Byte, rest: seq<Byte>)
    requires s.current == Name(HeaderFieldStart) && s.span == None && s.held == [] && b != CR && b != LF
    ensures RunOn(s, [b] + rest) == RunOn(InField(s, HeaderField, 0, []), [b] + rest)
  {
    Peeks(s, b, rest);
    StartsSpan(s.(current := Name(SpanStartHeaderField), regs := s.regs.(matched := 0)), [b] + rest);
  }

  /** Any header name is told as it is written, and taken for what it says in any case. */
  lemma NameIsRead(s: State<Label>, name: seq<Byte>, rest: seq<Byte>)
    requires s.current == Name(HeaderFieldStart) && Between(s) && name != [] && IsToken(name)
    ensures RunOn(s, name + ([COLON] + rest)) == RunOn(AfterName(s, name, KindOf(name)), rest)
  {
    AnyNameRuns(s, name, COLON, rest);
  }

  /** Behind any name: a byte that no name has, and not the colon, is refused. */
  lemma NameIsRefused(s: State<Label>, name: seq<Byte>, e: Byte, rest: seq<Byte>)
    requires s.current == Name(HeaderFieldStart) && Between(s) && name != [] && IsToken(name)
    requires !IsHeaderNameByte(e) && e != COLON
    ensures RunOn(s, name + ([e] + rest)).error == INVALID_HEADER_TOKEN
  {
    AnyNameRuns(s, name, e, rest);
  }

  lemma AnyNameRuns(s: State<Label>, name: seq<Byte>, e: Byte, rest: seq<Byte>)
    requires s.current == Name(HeaderFieldStart) && Between(s) && name != [] && IsToken(name) && !IsTokenByte(e)
    ensures NameEnds(RunOn(s, name + ([e] + rest)), s, name, KindOf(name), e, rest)
  {
    var more := name[1..] + ([e] + rest);
    assert name[0] in name && name + ([e] + rest) == [name[0]] + more;
    NameStarts(s, name[0], more);
    FirstLetterRuns(s, name, e, rest);
  }

  lemma {:induction false} SpacesRun(s: State<Label>, kind: nat, name: seq<Byte>, spaces: seq<Byte>, rest: seq<Byte>)
    requires s.held == [] && s.span == None && forall b | b in spaces :: b == SP
    ensures RunOn(Spaced(s, name, kind), spaces + ([COLON] + rest)) ==
            RunOn(AfterName(s, name + [SP] + spaces, kind), rest)
    decreases |spaces|
  {
    var t := Spaced(s, name, kind);
    if spaces == [] {
      assert spaces + ([COLON] + rest) == [COLON] + rest && name + [SP] + spaces == name + [SP];
      Peeks(t, COLON, rest);
      if kind == H_GENERAL {
        Peeks(t.(current := Name(HeaderFieldGeneralOtherwise)), COLON, rest);
      }
      ColonEnds(t.(current := Name(SpanEndHeaderField)), name + [SP], rest);
    } else {
      assert spaces[0] in spaces && forall b | b in spaces[1..] :: b in spaces;
      assert spaces + ([COLON] + rest) == [SP] + (spaces[1..] + ([COLON] + rest));
      assert name + [SP] + [SP] + spaces[1..] == name + [SP] + spaces;
      Reads(t, SP, spaces[1..] + ([COLON] + rest));
      SpacesRun(s, kind, name + [SP], spaces[1..], rest);
    }
  }

  lemma NameThenSpace(s: State<Label>, name: seq<Byte>, rest: seq<Byte>)
    requires s.current == Name(HeaderFieldStart) && Between(s) && name != [] && IsToken(name)
    ensures RunOn(s, name + ([SP] + rest)) == RunOn(Spaced(s, name, KindOf(name)), rest)
  {
    AnyNameRuns(s, name, SP, rest);
  }

  lemma FirstSpace(spaces: seq<Byte>, rest: seq<Byte>)
    requires spaces != [] && forall b | b in spaces :: b == SP
    ensures spaces == [SP] + spaces[1..] && spaces + ([COLON] + rest) == [SP] + (spaces[1..] + ([COLON] + rest))
    ensures forall b | b in spaces[1..] :: b == SP
  {
    assert spaces[0] in spaces && forall b | b in spaces[1..] :: b in spaces;
  }

  /** Spaces before the colon are told with the name, and it is taken for the same. */
  lemma SpacedNameIsRead(s: State<Label>, name: seq<Byte>, spaces: seq<Byte>, rest: seq<Byte>)
    requires s.current == Name(HeaderFieldStart) && Between(s) && name != [] && IsToken(name)
    requires spaces != [] && forall b | b in spaces :: b == SP
    ensures RunOn(s, name + (spaces + ([COLON] + rest))) == RunOn(AfterName(s, name + spaces, KindOf(name)), rest)
  {
    FirstSpace(spaces, rest);
    NameThenSpace(s, name, spaces[1..] + ([COLON] + rest));
    SpacesRun(s, KindOf(name), name, spaces[1..], rest);
    Associates(name, [SP], spaces[1..]);
  }
}
