/** What the parser makes of the value of Content-Length: a number that is read on from the one the
    content_length register already holds. */
module ContentLengthValue {
  import opened Bytes
  import opened Llparse
  import opened Digits
  import opened Llhttp
  import opened LlhttpSteps
  import opened TransferEncoding

  ghost predicate IsBlank(ws: seq<Byte>) {
    forall b | b in ws :: b == SP || b == HT
  }

  ghost predicate IsDigits(digits: seq<Byte>) {
    forall b | b in digits :: IsDigit(b)
  }

  ghost function DecimalValues(digits: seq<Byte>): seq<nat>
    requires IsDigits(digits)
  {
    if digits == [] then [] else [DecimalValue(digits[0])] + DecimalValues(digits[1..])
  }

  /** The digits v begins with. */
  ghost function DigitsOf(v: seq<Byte>): (digits: seq<Byte>)
    ensures digits <= v && IsDigits(digits)
  {
    if v != [] && IsDigit(v[0]) then [v[0]] + DigitsOf(v[1..]) else []
  }

  /** The number a Content-Length value stands for: digits, then blanks. */
  ghost function Declared(v: seq<Byte>): Option<nat> {
    var digits := DigitsOf(v);
    if digits != [] && IsBlank(v[|digits|..]) then Some(Number(10, DecimalValues(digits))) else None
  }

  /** The number v's digits make when they are written behind those of c. */
  ghost function ReadOn(c: nat, v: seq<Byte>): nat {
    NumberFrom(10, c, DecimalValues(DigitsOf(v)))
  }

  /** What the control states do with a value: digits are folded into the register, spaces may follow. */
  function ReadLength(c: UInt64, v: seq<Byte>): Option<UInt64>
    decreases |v|
  {
    if v != [] && IsDigit(v[0]) then
      var f := MulAdd(10, c, DecimalValue(v[0]));
      if f.overflow then None else ReadLength(f.value, v[1..])
    else if DropSpaces(v) == [] then Some(c)
    else None
  }

  // ---------------------------------------------------------------- what it stands for

  lemma {:induction false} OnlySpaces(v: seq<Byte>)
    ensures DropSpaces(v) == [] <==> IsBlank(v) && HT !in v
    decreases |v|
  {
    if v != [] {
      assert v[0] in v && forall b | b in v[1..] :: b in v;
      assert forall b | b in v :: b == v[0] || b in v[1..];
      OnlySpaces(v[1..]);
    }
  }

  lemma ValuesFirst(b: Byte, digits: seq<Byte>)
    requires IsDigit(b) && IsDigits(digits) && IsDigits([b] + digits)
    ensures DecimalValues([b] + digits) == [DecimalValue(b)] + DecimalValues(digits)
  {
    assert ([b] + digits)[1..] == digits;
  }

  lemma FromFirst(c: nat, d: nat, digits: seq<nat>)
    ensures NumberFrom(10, c, [d] + digits) == NumberFrom(10, 10 * c + d, digits)
  {
    assert ([d] + digits)[1..] == digits;
  }

  /** After a digit, the rest. */
  lemma DigitFirst(v: seq<Byte>)
    requires v != [] && IsDigit(v[0])
    ensures DigitsOf(v) == [v[0]] + DigitsOf(v[1..])
  {}

  lemma RestAfterDigit(v: seq<Byte>, n: nat)
    requires n < |v|
    ensures v[n + 1..] == v[1..][n..]
  {}

  lemma ReadOnFirst(c: nat, v: seq<Byte>)
    requires v != [] && IsDigit(v[0])
    ensures ReadOn(c, v) == ReadOn(10 * c + DecimalValue(v[0]), v[1..])
  {
    var digits := DigitsOf(v[1..]);
    DigitFirst(v);
    ValuesFirst(v[0], digits);
    FromFirst(c, DecimalValue(v[0]), DecimalValues(digits));
  }

  lemma {:induction false} ReadLengthFolds(c: UInt64, v: seq<Byte>)
    ensures ReadLength(c, v) ==
            if DropSpaces(v[|DigitsOf(v)|..]) == [] && ReadOn(c, v) <= MAX64 then Some(ReadOn(c, v)) else None
    decreases |v|
  {
    if v != [] && IsDigit(v[0]) {
      DigitFirst(v);
      RestAfterDigit(v, |DigitsOf(v[1..])|);
      ReadOnFirst(c, v);
      MulAddStep(10, c, DecimalValue(v[0]));
      var f := MulAdd(10, c, DecimalValue(v[0]));
      if f.overflow {
        NumberFromGrows(10, 10 * c + DecimalValue(v[0]), DecimalValues(DigitsOf(v[1..])));
      } else {
        ReadLengthFolds(f.value, v[1..]);
      }
    } else {
      assert v[0..] == v;
    }
  }

  /** A value is accepted if and only if it is a number written without tabs, which still fits 64 bits
      when its digits are read behind those of c. */
  lemma ReadLengthIff(c: UInt64, v: seq<Byte>)
    requires v != [] && v[0] != SP && v[0] != HT
    ensures ReadLength(c, v) ==
            if Declared(v).Some? && HT !in v && ReadOn(c, v) <= MAX64 then Some(ReadOn(c, v)) else None
  {
    var digits := DigitsOf(v);
    var tail := v[|digits|..];
    ReadLengthFolds(c, v);
    OnlySpaces(tail);
    assert v == digits + tail;
    assert HT in v <==> HT in tail;
    if digits == [] {
      assert tail == v && v[0] in v;
    }
  }

  lemma {:induction false} ReadOnGrows(c: nat, v: seq<Byte>)
    ensures ReadOn(c, v) >= ReadOn(0, v) && (c > 0 && DigitsOf(v) != [] ==> ReadOn(c, v) > ReadOn(0, v))
  {
    FromGrows(0, c, DecimalValues(DigitsOf(v)));
  }

  lemma {:induction false} FromGrows(b: nat, c: nat, digits: seq<nat>)
    requires b <= c
    ensures NumberFrom(10, c, digits) >= NumberFrom(10, b, digits) + (c - b)
    decreases |digits|
  {
    if digits != [] {
      FromGrows(10 * b + digits[0], 10 * c + digits[0], digits[1..]);
    }
  }

  /** A value is read as the number it stands for exactly if nothing is left in the register. */
  lemma ReadAsDeclaredIff(c: UInt64, v: seq<Byte>)
    requires v != [] && v[0] != SP && v[0] != HT && HT !in v && Declared(v).Some? && Declared(v).value <= MAX64
    ensures ReadLength(c, v) == Some(Declared(v).value) <==> c == 0
  {
    ReadLengthIff(c, v);
    ReadOnGrows(c, v);
    NumberIsNumberFrom(10, DecimalValues(DigitsOf(v)));
  }

  // ---------------------------------------------------------------- the run over it

  function InLength(s: State<Label>, l: LengthState, value: UInt64, matched: nat, held: seq<Byte>): State<Label> {
    s.(current := Length(l), span := Some(OnHeaderValue), held := held,
       regs := s.regs.(matched := matched, contentLength := value))
  }

  /** At the end of a value that was accepted: the flag is set. */
  function LengthRead(s: State<Label>, value: UInt64, held: seq<Byte>): State<Label> {
    s.(current := Value(HeaderValueOtherwise), span := Some(OnHeaderValue), held := held,
       regs := s.regs.(matched := 0, contentLength := value, flags := s.regs.flags.(contentLength := true)))
  }

  lemma DigitRuns(s: State<Label>, value: UInt64, matched: nat, held: seq<Byte>, b: Byte, rest: seq<Byte>)
    requires IsDigit(b)
    ensures var f := MulAdd(10, value, DecimalValue(b));
            RunOn(InLength(s, HeaderValueContentLength, value, matched, held), [b] + rest) ==
            RunOn(InLength(s, if f.overflow then SpanEndContentLength else HeaderValueContentLength,
                           f.value, DecimalValue(b), held + [b]), rest)
  {
    Reads(InLength(s, HeaderValueContentLength, value, matched, held), b, rest);
    Invokes(InLength(s, MulAddContentLength1, value, DecimalValue(b), held + [b]), rest);
  }

  lemma LengthFails(s: State<Label>, value: UInt64, matched: nat, held: seq<Byte>, rest: seq<Byte>)
    ensures RunOn(InLength(s, SpanEndContentLength, value, matched, held), rest).error == INVALID_CONTENT_LENGTH
  {
    var t := InLength(s, SpanEndContentLength, value, matched, held);
    EndsSpan(t, rest);
    Fails(CloseSpan(t).(current := Failing(INVALID_CONTENT_LENGTH)), rest);
  }

  lemma LengthEnds(s: State<Label>, value: UInt64, held: seq<Byte>, end: seq<Byte>)
    ensures RunOn(InLength(s, HeaderValueContentLengthWs, value, 0, held), CRLF + end) ==
            RunOn(LengthRead(s, value, held), CRLF + end)
  {
    assert CRLF + end == [CR] + ([LF] + end);
    Peeks(InLength(s, HeaderValueContentLengthWs, value, 0, held), CR, [LF] + end);
    Invokes(InLength(s, HaveContentLength, value, 0, held), CRLF + end);
  }

  /** What the run over a value comes to, from any of its states. */
  ghost predicate Comes(from: State<Label>, v: seq<Byte>, end: seq<Byte>, s: State<Label>, read: Option<UInt64>,
                        held: seq<Byte>) {
    var t := RunOn(from, v + (CRLF + end));
    if read.Some? then t == RunOn(LengthRead(s, read.value, held), CRLF + end) else t.error == INVALID_CONTENT_LENGTH
  }

  lemma {:induction false} BlanksEnd(s: State<Label>, value: UInt64, held: seq<Byte>, v: seq<Byte>, end: seq<Byte>)
    requires IsValue(v)
    ensures Comes(InLength(s, HeaderValueContentLengthWs, value, 0, held), v, end, s,
                  if DropSpaces(v) == [] then Some(value) else None, held + v)
    decreases |v|
  {
    if v == [] {
      assert v + (CRLF + end) == CRLF + end && held + v == held;
      LengthEnds(s, value, held, end);
    } else {
      var tail := v[1..] + (CRLF + end);
      assert v + (CRLF + end) == [v[0]] + tail && v == [v[0]] + v[1..] && v[0] in v;
      if v[0] == SP {
        PartsAreValues([v[0]], v[1..]);
        Reads(InLength(s, HeaderValueContentLengthWs, value, 0, held), v[0], tail);
        BlanksEnd(s, value, held + [v[0]], v[1..], end);
        Associates(held, [v[0]], v[1..]);
      } else {
        Peeks(InLength(s, HeaderValueContentLengthWs, value, 0, held), v[0], tail);
        LengthFails(s, value, 0, held, [v[0]] + tail);
      }
    }
  }

  lemma DigitsEnd(s: State<Label>, value: UInt64, matched: nat, held: seq<Byte>, v: seq<Byte>, end: seq<Byte>)
    requires IsValue(v) && (v != [] ==> !IsDigit(v[0]))
    ensures Comes(InLength(s, HeaderValueContentLength, value, matched, held), v, end, s,
                  if DropSpaces(v) == [] then Some(value) else None, held + v)
  {
    var input := v + (CRLF + end);
    assert input == [input[0]] + input[1..];
    Peeks(InLength(s, HeaderValueContentLength, value, matched, held), input[0], input[1..]);
    BlanksEnd(s, value, held, v, end);
  }

  /** The digits are folded in, up to the first that overflows; then come spaces, or an error. */
  lemma {:induction false} LengthIsRead(s: State<Label>, value: UInt64, matched: nat, held: seq<Byte>, v: seq<Byte>,
                                        end: seq<Byte>)
    requires IsValue(v)
    ensures Comes(InLength(s, HeaderValueContentLength, value, matched, held), v, end, s,
                  ReadLength(value, v), held + v)
    decreases |v|
  {
    if v != [] && IsDigit(v[0]) {
      var tail := v[1..] + (CRLF + end);
      var f := MulAdd(10, value, DecimalValue(v[0]));
      assert v + (CRLF + end) == [v[0]] + tail && v == [v[0]] + v[1..];
      PartsAreValues([v[0]], v[1..]);
      DigitRuns(s, value, matched, held, v[0], tail);
      if f.overflow {
        LengthFails(s, f.value, DecimalValue(v[0]), held + [v[0]], tail);
      } else {
        LengthIsRead(s, f.value, DecimalValue(v[0]), held + [v[0]], v[1..], end);
        Associates(held, [v[0]], v[1..]);
      }
    } else {
      DigitsEnd(s, value, matched, held, v, end);
    }
  }
}
