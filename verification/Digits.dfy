/** The digit accumulators `c_mul_add_content_length`, `_1` and `c_mul_add_status_code`, and the
    numbers they stand for. */
module Digits {
  import opened Bytes
  import opened Llparse

  const MAX64 := 0xffff_ffff_ffff_ffff

  predicate IsDigit(b: Byte) { '0' as int <= b <= '9' as int }

  predicate IsHexDigit(b: Byte) {
    IsDigit(b) || 'A' as int <= b <= 'F' as int || 'a' as int <= b <= 'f' as int
  }

  function HexValue(b: Byte): nat
    requires IsHexDigit(b)
  {
    if IsDigit(b) then b - '0' as int else if b <= 'F' as int then b - 'A' as int + 10 else b - 'a' as int + 10
  }

  function DecimalValue(b: Byte): nat
    requires IsDigit(b)
  {
    b - '0' as int
  }

  datatype Fold64 = Fold64(value: UInt64, overflow: bool)

  /** Base 16 and base 10.  An overflow of the addition leaves the multiplied value behind. */
  function MulAdd(base: nat, value: UInt64, digit: nat): Fold64
    requires 0 < base
  {
    if value > MAX64 / base then Fold64(value, true)
    else if base * value > MAX64 - digit then Fold64(Wrap(base * value), true)
    else Fold64(Wrap(base * value + digit), false)
  }

  /** uint64_t arithmetic. */
  function Wrap(n: nat): UInt64 { n % 0x1_0000_0000_0000_0000 }

  datatype FoldStatusCode = FoldStatusCode(value: nat, overflow: bool)

  function FoldStatus(value: nat, digit: nat): FoldStatusCode {
    if value > 0xffff / 10 then FoldStatusCode(value, true)
    else if 10 * value > 0xffff - digit then FoldStatusCode(10 * value, true)
    else FoldStatusCode(10 * value + digit, 10 * value + digit > 999)
  }

  /** The number a string of digit values denotes. */
  function Number(base: nat, digits: seq<nat>): nat {
    if digits == [] then 0 else base * Number(base, digits[..|digits| - 1]) + digits[|digits| - 1]
  }

  /** The accumulator run over a digit string, stopping at the first overflow. */
  function MulAddAll(base: nat, value: UInt64, digits: seq<nat>): Fold64
    requires 0 < base
    decreases |digits|
  {
    if digits == [] then Fold64(value, false) else
      var f := MulAdd(base, value, digits[0]);
      if f.overflow then f else MulAddAll(base, f.value, digits[1..])
  }

  function FoldStatusAll(value: nat, digits: seq<nat>): FoldStatusCode
    decreases |digits|
  {
    if digits == [] then FoldStatusCode(value, false) else
      var f := FoldStatus(value, digits[0]);
      if f.overflow then f else FoldStatusAll(f.value, digits[1..])
  }

  /** The number denoted by the digits of value followed by digits. */
  function NumberFrom(base: nat, value: nat, digits: seq<nat>): nat
    decreases |digits|
  {
    if digits == [] then value else NumberFrom(base, base * value + digits[0], digits[1..])
  }

  lemma {:induction false} NumberFromSnoc(base: nat, value: nat, digits: seq<nat>, d: nat)
    ensures NumberFrom(base, value, digits + [d]) == base * NumberFrom(base, value, digits) + d
    decreases |digits|
  {
    if digits == [] {
      assert (digits + [d])[1..] == [];
    } else {
      assert (digits + [d])[1..] == digits[1..] + [d];
      NumberFromSnoc(base, base * value + digits[0], digits[1..], d);
    }
  }

  lemma {:induction false} NumberIsNumberFrom(base: nat, digits: seq<nat>)
    ensures Number(base, digits) == NumberFrom(base, 0, digits)
    decreases |digits|
  {
    if digits != [] {
      var init, d := digits[..|digits| - 1], digits[|digits| - 1];
      assert digits == init + [d];
      NumberFromSnoc(base, 0, init, d);
      NumberIsNumberFrom(base, init);
    }
  }

  lemma TimesGrows(base: nat, a: nat, b: nat)
    requires a <= b
    ensures base * a <= base * b
  {
    assert base * (b - a) >= 0;
  }

  lemma DivBounds(n: nat, d: nat)
    requires 0 < d
    ensures d * (n / d) <= n < d * (n / d + 1)
  {}

  lemma MulAddStep(base: nat, value: UInt64, digit: nat)
    requires 0 < base <= 16
    ensures var f := MulAdd(base, value, digit);
            f.overflow == (base * value + digit > MAX64) && (!f.overflow ==> f.value == base * value + digit)
  {
    DivBounds(MAX64, base);
    if value > MAX64 / base {
      TimesGrows(base, MAX64 / base + 1, value);
    } else {
      TimesGrows(base, value, MAX64 / base);
    }
  }

  lemma {:induction false} NumberFromGrows(base: nat, value: nat, digits: seq<nat>)
    requires 0 < base
    ensures NumberFrom(base, value, digits) >= value
    decreases |digits|
  {
    if digits != [] {
      NumberFromGrows(base, base * value + digits[0], digits[1..]);
      assert base * value >= value;
    }
  }

  lemma {:induction false} MulAddAllFrom(base: nat, value: UInt64, digits: seq<nat>)
    requires 0 < base <= 16
    ensures var f, n := MulAddAll(base, value, digits), NumberFrom(base, value, digits);
            f.overflow == (n > MAX64) && (!f.overflow ==> f.value == n)
    decreases |digits|
  {
    if digits != [] {
      MulAddStep(base, value, digits[0]);
      var f := MulAdd(base, value, digits[0]);
      if f.overflow {
        NumberFromGrows(base, base * value + digits[0], digits[1..]);
      } else {
        MulAddAllFrom(base, f.value, digits[1..]);
      }
    }
  }

  /** The hexadecimal and the decimal accumulator compute the number denoted by any digit string,
      and report an overflow exactly when it does not fit 64 bits. */
  lemma MulAddAllIsExact(base: nat, digits: seq<nat>)
    requires base == 10 || base == 16
    ensures var f := MulAddAll(base, 0, digits);
            f.overflow == (Number(base, digits) > MAX64) && (!f.overflow ==> f.value == Number(base, digits))
  {
    MulAddAllFrom(base, 0, digits);
    NumberIsNumberFrom(base, digits);
  }

  lemma {:induction false} FoldStatusFrom(value: nat, digits: seq<nat>)
    requires value <= 999 && forall d | d in digits :: d <= 9
    ensures var f, n := FoldStatusAll(value, digits), NumberFrom(10, value, digits);
            f.overflow == (n > 999) && (!f.overflow ==> f.value == n)
    decreases |digits|
  {
    if digits != [] {
      assert digits[0] in digits;
      var f := FoldStatus(value, digits[0]);
      if f.overflow {
        NumberFromGrows(10, 10 * value + digits[0], digits[1..]);
      } else {
        assert forall d | d in digits[1..] :: d in digits;
        FoldStatusFrom(f.value, digits[1..]);
      }
    }
  }

  /** The status code fold accepts exactly the digit strings of value at most 999, however many
      leading zeros they have, and computes their value. */
  lemma FoldStatusIsExact(digits: seq<nat>)
    requires forall d | d in digits :: d <= 9
    ensures var f := FoldStatusAll(0, digits);
            f.overflow == (Number(10, digits) > 999) && (!f.overflow ==> f.value == Number(10, digits))
  {
    FoldStatusFrom(0, digits);
    NumberIsNumberFrom(10, digits);
  }
}
