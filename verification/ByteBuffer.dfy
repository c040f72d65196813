/** bytebuffer.hpp in LITTLE mode: integers to bytes and back. */
module ByteBuffer {
  import opened Bytes

  function Power256(size: nat): (p: nat)
    ensures p > 0
  {
    if size == 0 then 1 else 0x100 * Power256(size - 1)
  }

  /** The size low bytes of n, lowest first; and the number bytes stand for. */
  function LittleEndian(n: nat, size: nat): (bytes: seq<Byte>)
    ensures |bytes| == size
  {
    if size == 0 then [] else [n % 0x100] + LittleEndian(n / 0x100, size - 1)
  }

  function FromLittleEndian(bytes: seq<Byte>): nat {
    if bytes == [] then 0 else bytes[0] + 0x100 * FromLittleEndian(bytes[1..])
  }

  lemma {:induction false} BytesOfNumber(n: nat, size: nat)
    requires n < Power256(size)
    ensures FromLittleEndian(LittleEndian(n, size)) == n
    decreases size
  {
    if size > 0 {
      BytesOfNumber(n / 0x100, size - 1);
      assert LittleEndian(n, size)[1..] == LittleEndian(n / 0x100, size - 1);
    }
  }

  /** The lowest byte is first. */
  lemma {:induction false} ByteOfNumber(n: nat, size: nat, i: nat)
    requires i < size
    ensures LittleEndian(n, size)[i] == n / Power256(i) % 0x100
    decreases i
  {
    if i > 0 {
      ByteOfNumber(n / 0x100, size - 1, i - 1);
      DivTwice(n, Power256(i - 1));
    }
  }

  lemma DivTwice(n: nat, p: nat)
    requires p > 0
    ensures n / 0x100 / p == n / (0x100 * p)
  {
    var q, r := n / 0x100 / p, n / 0x100 % p;
    assert n / 0x100 == q * p + r;
    assert n == 0x100 * (q * p + r) + n % 0x100;
    assert 0x100 * (q * p) == q * (0x100 * p);
    var rest := 0x100 * r + n % 0x100;
    assert n == q * (0x100 * p) + rest && 0 <= rest < 0x100 * p;
    Quotient(n, 0x100 * p, q, rest);
  }

  lemma Quotient(n: nat, d: nat, q: nat, rest: nat)
    requires d > 0 && n == q * d + rest && rest < d
    ensures n / d == q
  {
    var k := n / d - q;
    assert n == (n / d) * d + n % d;
    assert k * d == rest - n % d;
    FarFromZero(k, d);
  }

  lemma FarFromZero(k: int, d: nat)
    ensures k >= 1 ==> k * d >= d
    ensures k <= -1 ==> k * d + d <= 0
  {
    if k >= 1 {
      assert (k - 1) * d >= 0;
    } else if k <= -1 {
      assert (-k - 1) * d >= 0;
    }
  }

  lemma {:induction false} NumberOfBytes(bytes: seq<Byte>)
    ensures FromLittleEndian(bytes) < Power256(|bytes|)
    ensures LittleEndian(FromLittleEndian(bytes), |bytes|) == bytes
  {
    if bytes != [] {
      var rest := FromLittleEndian(bytes[1..]);
      NumberOfBytes(bytes[1..]);
      LowAndHigh(bytes[0], rest);
      calc {
        LittleEndian(bytes[0] + 0x100 * rest, |bytes|);
        [bytes[0]] + LittleEndian(rest, |bytes| - 1);
        bytes;
      }
    }
  }

  lemma LowAndHigh(low: Byte, high: nat)
    ensures (low + 0x100 * high) % 0x100 == low && (low + 0x100 * high) / 0x100 == high
  {}

  /** `int_to_bytes`: the loop takes the low byte and shifts. */
  method IntToBytes(value: nat, buffer: array<Byte>, size: nat)
    requires size <= buffer.Length
    modifies buffer
    ensures buffer[..size] == LittleEndian(value, size) && buffer[size..] == old(buffer[size..])
  {
    var integer := value;
    for pos := 0 to size
      invariant buffer[..pos] + LittleEndian(integer, size - pos) == LittleEndian(value, size)
      invariant buffer[size..] == old(buffer[size..])
    {
      ghost var done := buffer[..pos];
      buffer[pos] := integer % 0x100;
      assert buffer[..pos + 1] == done + [integer % 0x100];
      Associates(done, [integer % 0x100], LittleEndian(integer / 0x100, size - pos - 1));
      integer := integer / 0x100;
    }
  }

  lemma FromLast(bytes: seq<Byte>, pos: nat)
    requires 0 < pos <= |bytes|
    ensures FromLittleEndian(bytes[pos - 1..]) == bytes[pos - 1] + 0x100 * FromLittleEndian(bytes[pos..])
  {
    assert bytes[pos - 1..][1..] == bytes[pos..];
  }

  /** `bytes_to_int`: the loop starts at the last byte and shifts the others in. */
  method BytesToInt(bytes: seq<Byte>) returns (value: nat)
    requires bytes != []
    ensures value == FromLittleEndian(bytes)
  {
    var pos := |bytes| - 1;
    value := bytes[pos];
    FromLast(bytes, |bytes|);
    while pos != 0
      invariant 0 <= pos < |bytes| && value == FromLittleEndian(bytes[pos..])
    {
      pos := pos - 1;
      FromLast(bytes, pos + 1);
      value := value * 0x100 + bytes[pos];
    }
    assert bytes[0..] == bytes;
  }

  /** `BufferReader`: `read` takes the next integer and moves on. */
  class BufferReader {
    const buffer: seq<Byte>
    var offset: nat

    constructor (buffer: seq<Byte>)
      ensures this.buffer == buffer && offset == 0
    {
      this.buffer, offset := buffer, 0;
    }

    method Read(size: nat) returns (value: nat)
      requires 0 < size && offset + size <= |buffer|
      modifies this`offset
      ensures offset == old(offset) + size && value == FromLittleEndian(buffer[old(offset)..offset])
    {
      value := BytesToInt(buffer[offset..offset + size]);
      offset := offset + size;
    }
  }
}
