/** When the parser's reading of a list of transfer codings is not that of section 3.3.3 of RFC 7230. */
module CodingList {
  import opened Bytes
  import opened Llhttp
  import opened HeaderNames
  import opened TransferEncoding
  import opened ContentLengthValue
  import opened ConnectionValue
  import opened HeaderBlock
  import opened BodyLength

  // ---------------------------------------------------------------- white space

  lemma {:induction false} DropLastSplits(v: seq<Byte>)
    ensures DropLast(v) <= v && IsBlank(v[|DropLast(v)|..])
    decreases |v|
  {
    if v != [] && (v[|v| - 1] == SP || v[|v| - 1] == HT) {
      var init := v[..|v| - 1];
      DropLastSplits(init);
      var n := |DropLast(init)|;
      assert v[n..] == init[n..] + [v[|v| - 1]];
    }
  }

  lemma BlankFirstDrops(b: Byte, v: seq<Byte>)
    requires b == SP || b == HT
    ensures DropBlanks([b] + v) == DropBlanks(v)
  {
    assert ([b] + v)[1..] == v;
  }

  /** A blank before a list is not part of it. */
  lemma BlankCodings(b: Byte, v: seq<Byte>)
    requires b == SP || b == HT
    ensures CodingsOf([b] + v) == CodingsOf(v)
  {
    NoCommaBefore([b], v);
    BlankFirstDrops(b, BeforeComma(v));
  }

  lemma {:induction false} BlanksCodings(v: seq<Byte>)
    ensures CodingsOf(DropBlanks(v)) == CodingsOf(v)
    decreases |v|
  {
    if v != [] && (v[0] == SP || v[0] == HT) {
      assert v == [v[0]] + v[1..];
      BlankCodings(v[0], v[1..]);
      BlanksCodings(v[1..]);
    }
  }

  // ---------------------------------------------------------------- the last coding

  lemma {:induction false} NoCommaAtAll(v: seq<Byte>)
    requires COMMA !in v
    ensures BeforeComma(v) == v
    decreases |v|
  {
    if v != [] {
      assert v[0] in v && forall b | b in v[1..] :: b in v;
      NoCommaAtAll(v[1..]);
      assert v == [v[0]] + v[1..];
    }
  }

  lemma OneCoding(v: seq<Byte>)
    requires COMMA !in v
    ensures CodingsOf(v) == if Trim(v) == [] then [] else [Trim(v)]
  {
    NoCommaAtAll(v);
  }

  /** The last item, if it is not blank, is the last coding. */
  lemma {:induction false} LastOfList(v: seq<Byte>)
    requires Trim(LastItem(v)) != []
    ensures CodingsOf(v) != [] && CodingsOf(v)[|CodingsOf(v)| - 1] == Trim(LastItem(v))
    decreases |v|
  {
    if COMMA in v {
      var w := AfterComma(v);
      LastOfList(DropBlanks(w));
      BlanksCodings(w);
    } else {
      OneCoding(v);
    }
  }

  lemma {:induction false} MoreCodings(values: seq<Written>, w: Written)
    ensures AllCodings(values + [w]) == AllCodings(values) + CodingsOf(Unfold(w))
    decreases |values|
  {
    if values == [] {
      assert [] + [w] == [w] && [w][1..] == [];
      assert AllCodings([w]) == CodingsOf(Unfold(w)) + [];
    } else {
      assert (values + [w])[1..] == values[1..] + [w];
      MoreCodings(values[1..], w);
    }
  }

  lemma LastOfValues(values: seq<Written>)
    requires values != [] && Trim(LastItem(Unfold(values[|values| - 1]))) != []
    ensures LastIsChunked(values) <==> Named(Trim(LastItem(Unfold(values[|values| - 1]))), CHUNKED)
  {
    var init, w := values[..|values| - 1], values[|values| - 1];
    assert values == init + [w];
    MoreCodings(init, w);
    LastOfList(Unfold(w));
  }

  /** The last item begins with no blank. */
  lemma {:induction false} LastItemBegins(v: seq<Byte>)
    requires v == [] || (v[0] != SP && v[0] != HT)
    ensures LastItem(v) == [] || (LastItem(v)[0] != SP && LastItem(v)[0] != HT)
    decreases |v|
  {
    if COMMA in v {
      BlanksAreGone(AfterComma(v));
      LastItemBegins(DropBlanks(AfterComma(v)));
    }
  }

  lemma {:induction false} BlanksAreGone(v: seq<Byte>)
    ensures DropBlanks(v) == [] || (DropBlanks(v)[0] != SP && DropBlanks(v)[0] != HT)
    decreases |v|
  {
    if v != [] {
      BlanksAreGone(v[1..]);
    }
  }

  // ---------------------------------------------------------------- where the readings differ

  /** The item is "chunked" said more than once. */
  ghost predicate IsRepeated(item: seq<Byte>) {
    IsChunkedRun(item) && !Named(Trim(item), CHUNKED)
  }

  /** "chunked" with a tab behind it. */
  ghost predicate IsTabbed(item: seq<Byte>) {
    Named(Trim(item), CHUNKED) && HT in item
  }

  lemma RunBegins(v: seq<Byte>)
    requires v == [] || v[0] == SP || v[0] == HT
    ensures !IsChunkedRun(v)
  {
    if |v| >= 7 {
      assert v[..7][0] == v[0];
    }
  }

  lemma {:induction false} BlanksStartBlank(v: seq<Byte>)
    requires IsBlank(v)
    ensures DropSpaces(v) == [] || DropSpaces(v)[0] == HT
    decreases |v|
  {
    if v != [] {
      assert v[0] in v && forall b | b in v[1..] :: b in v;
      BlanksStartBlank(v[1..]);
    }
  }

  /** The word and blanks are read as chunked just if none of the blanks is a tab. */
  lemma TokenIsRunIff(token: seq<Byte>, blanks: seq<Byte>)
    requires Named(token, CHUNKED) && IsBlank(blanks)
    ensures IsChunkedRun(token + blanks) <==> HT !in blanks
  {
    var item := token + blanks;
    assert item[..7] == token && item[7..] == blanks;
    LowerIsUnsafe(token, CHUNKED);
    OnlySpaces(blanks);
    BlanksStartBlank(blanks);
    if DropSpaces(blanks) != [] {
      RunBegins(DropSpaces(blanks));
    }
  }

  lemma {:induction false} NoTabInWord(token: seq<Byte>, word: seq<Byte>)
    requires Named(token, word) && forall b | b in word :: b >= 0x61
    ensures HT !in token
    decreases |token|
  {
    if token != [] {
      assert word[0] in word && forall b | b in word[1..] :: b in word;
      NoTabInWord(token[1..], word[1..]);
      assert forall b | b in token :: b == token[0] || b in token[1..];
    }
  }

  lemma NamedItemIff(item: seq<Byte>)
    requires item != [] && item[0] != SP && item[0] != HT && Named(Trim(item), CHUNKED)
    ensures IsChunkedRun(item) <==> HT !in item
  {
    var token := Trim(item);
    DropLastSplits(item);
    var blanks := item[|token|..];
    assert item == token + blanks;
    TokenIsRunIff(token, blanks);
    NoTabInWord(token, CHUNKED);
    assert HT in item <==> HT in blanks;
  }

  lemma {:induction false} BeginningStays(v: seq<Byte>)
    requires v != [] && v[0] != SP && v[0] != HT
    ensures DropLast(v) != []
    decreases |v|
  {
    if v[|v| - 1] == SP || v[|v| - 1] == HT {
      BeginningStays(v[..|v| - 1]);
    }
  }

  lemma TrimmedAwayIff(item: seq<Byte>)
    requires item == [] || (item[0] != SP && item[0] != HT)
    ensures Trim(item) == [] <==> item == []
  {
    if item != [] {
      BeginningStays(item);
    }
  }

  /** "chunked" comes last but for empty items, or is said more than once there, or has a tab behind it. */
  ghost predicate MisreadItem(codings: seq<Written>, item: seq<Byte>) {
    (item == [] && LastIsChunked(codings)) || IsRepeated(item) || IsTabbed(item)
  }

  lemma OneLineMisreadIff(codings: seq<Written>)
    requires codings != [] && AreValues(codings) && codings[|codings| - 1].folds == []
    ensures Misread(codings) <==> MisreadItem(codings, LastItem(codings[|codings| - 1].first))
  {
    var w := codings[|codings| - 1];
    var item := LastItem(w.first);
    assert w in codings && Unfold(w) == w.first;
    LastItemBegins(w.first);
    TrimmedAwayIff(item);
    if item != [] {
      LastOfValues(codings);
      if Named(Trim(item), CHUNKED) {
        NamedItemIff(item);
      }
    }
  }

  // ---------------------------------------------------------------- what a fold adds

  lemma {:induction false} SplitAtComma(v: seq<Byte>)
    requires COMMA in v
    ensures v == BeforeComma(v) + ([COMMA] + AfterComma(v)) && COMMA !in BeforeComma(v)
    decreases |v|
  {
    assert v == [v[0]] + v[1..];
    if v[0] != COMMA {
      SplitAtComma(v[1..]);
    }
  }

  /** What comes behind a comma does not change what is before it. */
  lemma BehindComma(v: seq<Byte>, more: seq<Byte>)
    requires COMMA in v
    ensures COMMA in v + more && BeforeComma(v + more) == BeforeComma(v) && AfterComma(v + more) == AfterComma(v) + more
  {
    var before, tail := BeforeComma(v), [COMMA] + (AfterComma(v) + more);
    SplitAtComma(v);
    assert v + more == before + tail;
    NoCommaBefore(before, tail);
    assert tail[1..] == AfterComma(v) + more && BeforeComma(tail) == [] && before + [] == before;
  }

  lemma {:induction false} BlanksDropFirst(v: seq<Byte>, more: seq<Byte>)
    ensures DropBlanks(v + more) == if DropBlanks(v) == [] then DropBlanks(more) else DropBlanks(v) + more
    decreases |v|
  {
    if v == [] {
      assert v + more == more;
    } else if v[0] == SP || v[0] == HT {
      assert (v + more)[1..] == v[1..] + more;
      BlanksDropFirst(v[1..], more);
    }
  }

  lemma {:induction false} BlankDropsAway(ws: seq<Byte>)
    ensures IsBlank(ws) <==> DropBlanks(ws) == []
    decreases |ws|
  {
    if ws != [] {
      assert ws[0] in ws && forall b | b in ws[1..] :: b in ws;
      assert forall b | b in ws :: b == ws[0] || b in ws[1..];
      BlankDropsAway(ws[1..]);
    }
  }

  lemma {:induction false} LastDropsBlanks(v: seq<Byte>, ws: seq<Byte>)
    requires IsBlank(ws)
    ensures DropLast(v + ws) == DropLast(v)
    decreases |ws|
  {
    if ws == [] {
      assert v + ws == v;
    } else {
      var init := ws[..|ws| - 1];
      assert (v + ws)[..|v + ws| - 1] == v + init && ws[|ws| - 1] in ws && forall b | b in init :: b in ws;
      LastDropsBlanks(v, init);
    }
  }

  lemma BlankIsTrimmed(v: seq<Byte>, ws: seq<Byte>)
    requires IsBlank(ws)
    ensures Trim(v + ws) == Trim(v)
  {
    BlanksDropFirst(v, ws);
    BlankDropsAway(ws);
    if DropBlanks(v) != [] {
      LastDropsBlanks(DropBlanks(v), ws);
    }
  }

  lemma NoCommaInBlank(v: seq<Byte>, ws: seq<Byte>)
    requires IsBlank(ws)
    ensures COMMA in v + ws <==> COMMA in v
  {
    assert forall b | b in v + ws :: b in v || b in ws;
    assert forall b | b in v :: b in v + ws;
  }

  /** Blanks behind a list are not part of it. */
  lemma {:induction false} BlankAddsNothing(v: seq<Byte>, ws: seq<Byte>)
    requires IsBlank(ws)
    ensures CodingsOf(v + ws) == CodingsOf(v)
    decreases |v|
  {
    NoCommaInBlank(v, ws);
    if COMMA in v {
      BehindComma(v, ws);
      BlankAddsNothing(AfterComma(v), ws);
    } else {
      BlankIsTrimmed(v, ws);
      OneCoding(v);
      OneCoding(v + ws);
    }
  }

  lemma {:induction false} DropBlanksTwice(v: seq<Byte>)
    ensures DropBlanks(DropBlanks(v)) == DropBlanks(v)
    decreases |v|
  {
    if v != [] {
      DropBlanksTwice(v[1..]);
    }
  }

  /** Without a comma it belongs to the last item. */
  lemma {:induction false} ItemGoesOn(v: seq<Byte>, more: seq<Byte>)
    requires COMMA !in more
    ensures Trim(LastItem(v + more)) == Trim(LastItem(v) + more)
    decreases |v|
  {
    if COMMA in v {
      var a := AfterComma(v);
      BehindComma(v, more);
      BlanksDropFirst(a, more);
      if DropBlanks(a) != [] {
        ItemGoesOn(DropBlanks(a), more);
      } else {
        NoCommaDropped(more);
        DropBlanksTwice(more);
        assert [] + more == more;
      }
    } else {
      assert COMMA !in v + more;
    }
  }

  lemma {:induction false} NoCommaDropped(v: seq<Byte>)
    ensures COMMA in DropBlanks(v) <==> COMMA in v
    decreases |v|
  {
    if v != [] {
      assert forall b | b in v :: b == v[0] || b in v[1..];
      NoCommaDropped(v[1..]);
    }
  }

  /** A comma begins a new one. */
  lemma {:induction false} ItemIsNew(v: seq<Byte>, more: seq<Byte>)
    requires COMMA in more
    ensures LastItem(v + more) == LastItem(more)
    decreases |v|
  {
    if COMMA in v {
      var a := AfterComma(v);
      BehindComma(v, more);
      BlanksDropFirst(a, more);
      if DropBlanks(a) != [] {
        ItemIsNew(DropBlanks(a), more);
      } else {
        BlanksBeforeList(more);
      }
    } else {
      NoCommaBefore(v, more);
    }
  }

  lemma {:induction false} BlanksBeforeList(v: seq<Byte>)
    requires COMMA in v
    ensures LastItem(DropBlanks(v)) == LastItem(v)
    decreases |v|
  {
    if v[0] == SP || v[0] == HT {
      assert v == [v[0]] + v[1..];
      NoCommaBefore([v[0]], v[1..]);
      BlanksBeforeList(v[1..]);
    }
  }

  /** Two words with a blank between them are not one. */
  lemma TwoWords(item: seq<Byte>, more: seq<Byte>)
    requires item != [] && item[0] != SP && item[0] != HT && more != [] && more[0] == SP && !IsBlank(more)
    ensures Trim(item + more) != [] && !Named(Trim(item + more), CHUNKED)
  {
    var v := item + more;
    LastDropsWhole(item, more);
    assert v[0] == item[0] && SP == v[|item|] == DropLast(v)[|item|] && SP in DropLast(v);
    if Named(DropLast(v), CHUNKED) {
      NoSpaceInWord(DropLast(v), CHUNKED);
    }
  }

  lemma {:induction false} LastDropsWhole(v: seq<Byte>, more: seq<Byte>)
    requires !IsBlank(more)
    ensures |v| < |DropLast(v + more)| && DropLast(v + more) <= v + more
    decreases |more|
  {
    var init := more[..|more| - 1];
    assert more == init + [more[|more| - 1]];
    if more[|more| - 1] == SP || more[|more| - 1] == HT {
      assert (v + more)[..|v + more| - 1] == v + init;
      LastDropsWhole(v, init);
    }
  }

  lemma {:induction false} NoSpaceInWord(token: seq<Byte>, word: seq<Byte>)
    requires Named(token, word) && forall b | b in word :: b >= 0x61
    ensures SP !in token
    decreases |token|
  {
    if token != [] {
      assert word[0] in word && forall b | b in word[1..] :: b in word;
      NoSpaceInWord(token[1..], word[1..]);
      assert forall b | b in token :: b == token[0] || b in token[1..];
    }
  }

  lemma FoldsBeginBlank(folds: seq<seq<Byte>>)
    ensures UnfoldAll(folds) == [] <==> folds == []
    ensures folds != [] ==> UnfoldAll(folds)[0] == SP
  {}

  /** The value without what its folds add, which is nothing. */
  lemma BlankFoldsAddNothing(init: seq<Written>, w: Written)
    requires IsBlank(UnfoldAll(w.folds))
    ensures AllCodings(init + [w]) == AllCodings(init + [Written(w.first, [])])
  {
    var line := Written(w.first, []);
    MoreCodings(init, w);
    MoreCodings(init, line);
    assert Unfold(line) == w.first;
    BlankAddsNothing(w.first, UnfoldAll(w.folds));
  }

  lemma FirstLineMisreadIff(init: seq<Written>, first: seq<Byte>)
    requires AreValues(init + [Written(first, [])])
    ensures var codings := init + [Written(first, [])];
            Misread(codings) <==> MisreadItem(codings, LastItem(first))
  {
    OneLineMisreadIff(init + [Written(first, [])]);
  }

  lemma BlankFoldsMisreadIff(codings: seq<Written>)
    requires codings != [] && AreValues(codings) && IsBlank(UnfoldAll(codings[|codings| - 1].folds))
    ensures Misread(codings) <==> MisreadItem(codings, LastItem(codings[|codings| - 1].first))
  {
    var init, w := codings[..|codings| - 1], codings[|codings| - 1];
    assert codings == init + [w] && w in codings && forall x | x in init :: x in codings;
    BlankFoldsAddNothing(init, w);
    FirstLineMisreadIff(init, w.first);
  }

  lemma LongerItemMisreadIff(codings: seq<Written>)
    requires codings != [] && AreValues(codings)
    requires var more := UnfoldAll(codings[|codings| - 1].folds); !IsBlank(more) && COMMA !in more
    ensures var w := codings[|codings| - 1];
            var item, more := LastItem(w.first), UnfoldAll(w.folds);
            Misread(codings) <==> IsChunkedRun(item) || (item == [] && Named(Trim(more), CHUNKED))
  {
    var w := codings[|codings| - 1];
    var item, more := LastItem(w.first), UnfoldAll(w.folds);
    assert w in codings;
    LastItemBegins(w.first);
    ItemGoesOn(w.first, more);
    FoldsBeginBlank(w.folds);
    RunBegins([]);
    if item == [] {
      assert item + more == more;
      BlankIsNotTrimmedAway(more);
    } else {
      TwoWords(item, more);
    }
    LastOfValues(codings);
  }

  lemma BlankIsNotTrimmedAway(v: seq<Byte>)
    requires !IsBlank(v)
    ensures Trim(v) != []
  {
    BlankDropsAway(v);
    BlanksAreGone(v);
    TrimmedAwayIff(DropBlanks(v));
    DropBlanksTwice(v);
  }

  /** The two readings of a list differ if and only if its last line says the wrong thing.  On one line:
      "chunked" comes last but for empty items, or is said more than once there, or has a tab behind it.
      Folded, the parser stops at the first line: it takes "chunked" at the end of that for the last
      coding though the item goes on, or does not see the "chunked" that goes on behind its comma; and of
      a list that goes on, it does not see the last coding. */
  lemma MisreadIff(codings: seq<Written>)
    requires codings != [] && AreValues(codings)
    ensures var w := codings[|codings| - 1];
            var item, more := LastItem(w.first), UnfoldAll(w.folds);
            && (IsBlank(more) ==> (Misread(codings) <==> MisreadItem(codings, item)))
            && (!IsBlank(more) && COMMA !in more ==>
                (Misread(codings) <==> IsChunkedRun(item) || (item == [] && Named(Trim(more), CHUNKED))))
            && (COMMA in more && Trim(LastItem(more)) != [] ==>
                (Misread(codings) <==> IsChunkedRun(item) != Named(Trim(LastItem(more)), CHUNKED)))
            && (COMMA in more && Trim(LastItem(more)) == [] ==>
                (Misread(codings) <==> IsChunkedRun(item) != LastIsChunked(codings)))
  {
    var w := codings[|codings| - 1];
    var more := UnfoldAll(w.folds);
    if IsBlank(more) {
      BlankFoldsMisreadIff(codings);
    } else if COMMA !in more {
      LongerItemMisreadIff(codings);
    } else if Trim(LastItem(more)) != [] {
      ItemIsNew(w.first, more);
      LastOfValues(codings);
    }
  }
}
