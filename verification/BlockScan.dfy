/** The three states that, on machines with SSE4.2, skip sixteen bytes at a time: url_path,
    header_field_general and header_value. */
module BlockScan {
  import opened Bytes
  import opened Llhttp

  datatype Table = UrlPath | HeaderNames | HeaderValues
  datatype Range = Range(lo: Byte, hi: Byte)

  /** `lookup_table`. */
  predicate Accepts(t: Table, b: Byte) {
    match t
    case UrlPath => b == 9 || b == 0xc || b == 0x21 || b == 0x22 || 0x24 <= b <= 0x3e || 0x40 <= b <= 0x7e || b >= 0x80
    case HeaderNames => IsHeaderNameByte(b)
    case HeaderValues => IsHeaderValueByte(b)
  }

  /** llparse_blob0, llparse_blob8 and llparse_blob9, llparse_blob7; the second set is tried when the
      block's first byte is in none of the first's ranges. */
  function FirstRanges(t: Table): seq<Range> {
    match t
    case UrlPath => [Range(9, 9), Range(0xc, 0xc), Range('!' as int, '"' as int), Range('$' as int, '>' as int),
                     Range('@' as int, '~' as int), Range(0x80, 0xff)]
    case HeaderNames => [Range(' ' as int, '!' as int), Range('#' as int, '\'' as int), Range('*' as int, '+' as int),
                        Range('-' as int, '.' as int), Range('0' as int, '9' as int), Range('A' as int, 'Z' as int),
                        Range('^' as int, 'z' as int), Range('|' as int, '|' as int)]
    case HeaderValues => [Range(9, 9), Range(' ' as int, '~' as int), Range(0x80, 0xff)]
  }

  function SecondRanges(t: Table): seq<Range> {
    match t
    case HeaderNames => [Range('~' as int, '~' as int)]
    case _ => []
  }

  predicate InRange(r: Range, b: Byte) { r.lo <= b <= r.hi }

  predicate InSome(ranges: seq<Range>, from: nat, b: Byte)
    decreases |ranges| - from
  {
    from < |ranges| && (InRange(ranges[from], b) || InSome(ranges, from + 1, b))
  }

  /** `_mm_cmpestri` with ranges and negative polarity: the first byte in no range, or the end. */
  function FirstOutside(ranges: seq<Range>, data: seq<Byte>, p: nat, end: nat): (q: nat)
    requires p <= end <= |data|
    ensures p <= q <= end && (q < end ==> !InSome(ranges, 0, data[q]))
    ensures forall i | p <= i < q :: InSome(ranges, 0, data[i])
    decreases end - p
  {
    if p == end || !InSome(ranges, 0, data[p]) then p else FirstOutside(ranges, data, p + 1, end)
  }

  /** Where the one-byte loop over the lookup table stops. */
  function StopOf(t: Table, data: seq<Byte>, p: nat): (q: nat)
    requires p <= |data|
    ensures p <= q <= |data| && (q < |data| ==> !Accepts(t, data[q]))
    ensures forall i | p <= i < q :: Accepts(t, data[i])
    decreases |data| - p
  {
    if p < |data| && Accepts(t, data[p]) then StopOf(t, data, p + 1) else p
  }

  lemma UrlPathRanges(b: Byte)
    ensures InSome(FirstRanges(UrlPath), 0, b) <==> Accepts(UrlPath, b)
  {
    var r := FirstRanges(UrlPath);
    assert InSome(r, 4, b) <==> InRange(r[4], b) || InRange(r[5], b);
    assert InSome(r, 2, b) <==> InRange(r[2], b) || InRange(r[3], b) || InSome(r, 4, b);
  }

  lemma HeaderNameRanges(b: Byte)
    ensures InSome(FirstRanges(HeaderNames), 0, b) || InSome(SecondRanges(HeaderNames), 0, b) <==>
            Accepts(HeaderNames, b)
  {
    var r := FirstRanges(HeaderNames);
    assert InSome(r, 6, b) <==> InRange(r[6], b) || InRange(r[7], b);
    assert InSome(r, 4, b) <==> InRange(r[4], b) || InRange(r[5], b) || InSome(r, 6, b);
    assert InSome(r, 2, b) <==> InRange(r[2], b) || InRange(r[3], b) || InSome(r, 4, b);
  }

  lemma HeaderValueRanges(b: Byte)
    ensures InSome(FirstRanges(HeaderValues), 0, b) <==> Accepts(HeaderValues, b)
  {
    var r := FirstRanges(HeaderValues);
    assert InSome(r, 1, b) <==> InRange(r[1], b) || InRange(r[2], b);
  }

  /** Together, the ranges of a table are its lookup table. */
  lemma RangesAreTable(t: Table, b: Byte)
    ensures InSome(FirstRanges(t), 0, b) || InSome(SecondRanges(t), 0, b) <==> Accepts(t, b)
  {
    match t
    case UrlPath => UrlPathRanges(b);
    case HeaderNames => HeaderNameRanges(b);
    case HeaderValues => HeaderValueRanges(b);
  }

  /** The scan with blocks stops at the same byte, for every buffer and every position in it. */
  method ScanBlocks(t: Table, data: seq<Byte>, from: nat) returns (p: nat)
    requires from <= |data|
    ensures p == StopOf(t, data, from)
  {
    p := from;
    while p < |data|
      invariant from <= p <= |data| && StopOf(t, data, p) == StopOf(t, data, from)
      decreases |data| - p
    {
      if |data| - p >= 16 {
        var q := FirstOutside(FirstRanges(t), data, p, p + 16);
        if q == p && SecondRanges(t) != [] {
          q := FirstOutside(SecondRanges(t), data, p, p + 16);
        }
        forall i | p <= i < q ensures Accepts(t, data[i]) {
          RangesAreTable(t, data[i]);
        }
        SkipAccepted(t, data, p, q);
        if q == p {
          RangesAreTable(t, data[p]);
          return;
        }
        p := q;
      } else if Accepts(t, data[p]) {
        p := p + 1;
      } else {
        return;
      }
    }
  }

  lemma {:induction false} SkipAccepted(t: Table, data: seq<Byte>, p: nat, q: nat)
    requires p <= q <= |data| && forall i | p <= i < q :: Accepts(t, data[i])
    ensures StopOf(t, data, p) == StopOf(t, data, q)
    decreases q - p
  {
    if p < q {
      assert Accepts(t, data[p]);
      SkipAccepted(t, data, p + 1, q);
    }
  }
}
