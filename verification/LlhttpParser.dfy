/** The parser object: `llhttp_t` updated in place by `llhttp_execute`, one goto at a time. */
module LlhttpParser {
  import opened Bytes
  import opened Llparse
  import opened HttpGlue
  import opened Llhttp
  import opened LlhttpSteps
  import opened ReachableStates

  lemma SliceGrows(data: seq<Byte>, start: nat, p: nat, q: nat)
    requires start <= p <= q <= |data|
    ensures data[start..q] == data[start..p] + data[p..][..q - p]
  {}

  class Parser {
    var current: Label
    var index: nat
    var regs: Registers
    var span: Option<Span>   // `_span_cb0`, while `_span_pos0` is set
    var error: nat
    var log: seq<Call>       // what the callbacks have been called with; they all return 0

    /** `llhttp_init`. */
    constructor (kind: nat, lenient: Lenient)
      ensures Saved() == Init(kind, lenient)
    {
      current := Begin(Start);
      index, span, error, log := 0, None, 0, [];
      regs := Registers(0, 0, kind, 0, 0, 0, 0, lenient, false, FINISH_SAFE, NO_FLAGS, 0);
    }

    /** The state between two calls. */
    ghost function Saved(): State<Label>
      reads this
    {
      State(current, index, regs, span, [], error, log)
    }

    /** The state at p, the open span having started at start. */
    ghost function Running(data: seq<Byte>, start: nat, p: nat): State<Label>
      requires start <= p <= |data|
      reads this
    {
      State(current, index, regs, span, if span.Some? then data[start..p] else [], error, log)
    }

    method MatchSequence(fold: Fold, blob: seq<Byte>, data: seq<Byte>, from: nat) returns (status: MatchResult, p: nat)
      requires from <= |data|
      modifies this`index
      ensures status == Match(fold, blob, old(index), data[from..])
      ensures p == if status.MatchPause? then |data| else from + status.p
      ensures index == if status.MatchPause? then status.index else 0
    {
      var i: nat := index;
      p := from;
      while p < |data|
        invariant from <= p <= |data| && index == old(index)
        invariant Match(fold, blob, index, data[from..]) == Later(Match(fold, blob, i, data[p..]), p - from)
      {
        assert data[p..][0] == data[p] && data[p..][1..] == data[p + 1..];
        if i < |blob| && FoldByte(fold, data[p]) == blob[i] {
          i := i + 1;
          if i == |blob| {
            index := 0;
            return MatchComplete(p - from), p;
          }
        } else {
          index := 0;
          return MatchMismatch(p - from), p;
        }
        p := p + 1;
      }
      index := i;
      status := MatchPause(i);
    }

    /** From s, the fields are where the node's outcome says, at the next node or stopped; q - p is
        what the node has read. */
    ghost predicate Followed(s: State<Label>, data: seq<Byte>, begun: nat, p: nat, q: nat, going: bool)
      requires begun <= q <= |data| && p <= q
      reads this
    {
      var o := Step(Table(), s, data[p..]);
      Running(data, begun, q) == o.s && going == o.Goto? && q - p == NodeReads(Table(), s, data[p..])
    }

    method RunSwitch(data: seq<Byte>, start: nat, p: nat) returns (going: bool, q: nat, begun: nat)
      requires start <= p <= |data| && error == 0 && NodeOf(current) == Switch
      modifies this
      ensures p <= q <= |data| && begun <= q
      ensures Followed(old(Running(data, start, p)), data, begun, p, q, going)
    {
      going, q, begun := false, p, start;
      TableFields(current);
      if p < |data| {
        TableEdges(current, data[p]);
        var e := EdgeOf(current, data[p]);
        current, regs := e.next, regs.(matched := e.matched);
        going, q := true, if e.advance then p + 1 else p;
        assert data[p..][0] == data[p] && data[p..][..1] == [data[p]];
        assert data[start..p + 1] == data[start..p] + [data[p]];
      }
    }

    /** Goes the way of a matcher's result. */
    method FollowMatch(m: MatchResult, matched: nat, complete: Label, mismatch: Label,
                       data: seq<Byte>, start: nat, p: nat, end: nat) returns (q: nat)
      requires start <= p <= end <= |data| && error == 0 && (m.MatchComplete? ==> end < |data|)
      requires index == if m.MatchPause? then m.index else 0
      modifies this`current, this`regs
      ensures q == if m.MatchComplete? then end + 1 else end
      ensures Running(data, start, q) ==
              Hold(AfterMatch(old(Running(data, start, p)), m, matched, complete, mismatch), data[p..][..q - p])
    {
      q := end;
      match m
      case MatchComplete(_) =>
        q := q + 1;
        current, regs := complete, regs.(matched := matched);
      case MatchPause(_) =>
      case MatchMismatch(_) =>
        current := mismatch;
      SliceGrows(data, start, p, q);
    }

    method RunSequence(data: seq<Byte>, start: nat, p: nat) returns (going: bool, q: nat)
      requires start <= p < |data| && error == 0 && NodeOf(current).Sequence?
      modifies this
      ensures p <= q <= |data| && error == 0
      ensures var n, s := NodeOf(old(current)), old(Running(data, start, p));
              var m := Match(n.fold, n.blob, s.index, data[p..]);
              && Running(data, start, q) ==
                 Hold(AfterMatch(s, m, n.matched, n.complete, n.mismatch), data[p..][..q - p])
              && going == !m.MatchPause?
              && q - p == (if m.MatchPause? then |data[p..]| else if m.MatchComplete? then m.p + 1 else m.p)
    {
      var n := NodeOf(current);
      var status;
      status, q := MatchSequence(n.fold, n.blob, data, p);
      going := !status.MatchPause?;
      q := FollowMatch(status, n.matched, n.complete, n.mismatch, data, start, p, q);
    }

    method RunSpanStart(data: seq<Byte>, start: nat, p: nat) returns (going: bool, q: nat, begun: nat)
      requires start <= p <= |data| && error == 0 && NodeOf(current).SpanStart?
      modifies this
      ensures p <= q <= |data| && begun <= q
      ensures Followed(old(Running(data, start, p)), data, begun, p, q, going)
    {
      going, q, begun := false, p, start;
      TableFields(current);
      if p < |data| {
        going, begun := true, p;
        span, current := Some(NodeOf(current).span), NodeOf(current).next;
      }
    }

    method RunSpanEnd(data: seq<Byte>, start: nat, p: nat) returns (going: bool, q: nat, begun: nat)
      requires start <= p <= |data| && error == 0 && NodeOf(current).SpanEnd?
      modifies this
      ensures p <= q <= |data| && begun <= q
      ensures Followed(old(Running(data, start, p)), data, begun, p, q, going)
    {
      going, q, begun := false, p, start;
      TableFields(current);
      if !(NodeOf(current).advance && p == |data|) {
        if span.Some? {
          log := log + [Data(span.value, data[start..p])];
        }
        going, q, span := true, if NodeOf(current).advance then p + 1 else p, None;
        current := NodeOf(current).next;
      }
    }

    method RunConsume(data: seq<Byte>, start: nat, p: nat) returns (going: bool, q: nat, begun: nat)
      requires start <= p <= |data| && error == 0 && NodeOf(current).Consume?
      modifies this
      ensures p <= q <= |data| && begun <= q
      ensures Followed(old(Running(data, start, p)), data, begun, p, q, going)
    {
      begun := start;
      TableFields(current);
      var avail, need := |data| - p, regs.contentLength;
      if avail >= need {
        going, q := true, p + need;
        current, regs := NodeOf(current).next, regs.(contentLength := 0);
      } else {
        going, q := false, |data|;
        regs := regs.(contentLength := need - avail);
      }
      assert data[p..][..q - p] == data[p..q];
      assert data[start..q] == data[start..p] + data[p..q];
    }

    method RunInvoke(data: seq<Byte>, start: nat, p: nat) returns (going: bool, q: nat, begun: nat)
      requires start <= p <= |data| && error == 0 && NodeOf(current).Invoke?
      modifies this
      ensures p <= q <= |data| && begun <= q
      ensures Followed(old(Running(data, start, p)), data, begun, p, q, going)
    {
      going, q, begun := true, p, start;
      TableFields(current);
      TableRuns(current, regs);
      var call := NodeOf(current).call;
      if call.Some? {
        log := log + [Notify(call.value)];
      }
      var r := RunOf(current, regs);
      regs, current := r.0, r.1;
    }

    method RunPause(data: seq<Byte>, start: nat, p: nat) returns (going: bool, q: nat, begun: nat)
      requires start <= p <= |data| && error == 0 && NodeOf(current).Pause?
      modifies this
      ensures p <= q <= |data| && begun <= q
      ensures Followed(old(Running(data, start, p)), data, begun, p, q, going)
    {
      going, q, begun := false, p, start;
      TableFields(current);
      error, current := NodeOf(current).code, NodeOf(current).resume;
    }

    method RunNode(data: seq<Byte>, start: nat, p: nat) returns (going: bool, q: nat, begun: nat)
      requires start <= p <= |data| && error == 0
      modifies this
      ensures p <= q <= |data| && begun <= q
      ensures Followed(old(Running(data, start, p)), data, begun, p, q, going)
    {
      match NodeOf(current)
      case Switch => going, q, begun := RunSwitch(data, start, p);
      case Sequence(_, _, _, _, _) =>
        if p == |data| {
          TableFields(current);
          going, q, begun := false, p, start;
        } else {
          SequenceStep(Running(data, start, p), data[p..]);
          begun := start;
          going, q := RunSequence(data, start, p);
        }
      case SpanStart(_, _) => going, q, begun := RunSpanStart(data, start, p);
      case SpanEnd(_, _) => going, q, begun := RunSpanEnd(data, start, p);
      case Consume(_) => going, q, begun := RunConsume(data, start, p);
      case Invoke(_) => going, q, begun := RunInvoke(data, start, p);
      case Pause(_, _) => going, q, begun := RunPause(data, start, p);
    }

    /** `llhttp_execute`; read is how far p got. */
    method Execute(data: seq<Byte>) returns (err: nat, ghost read: nat)
      modifies this
      ensures Saved() == ExecuteOn(old(Saved()), data) && err == error
      ensures old(error) == 0 ==> read == BytesReadOn(old(Saved()), data)
      ensures err == 0 ==> read == |data|   // nothing is left over
    {
      if error != 0 {
        return error, 0;
      }
      var p: nat, start: nat, going := 0, 0, true;
      assert data[0..] == data && data[0..0] == [];
      while going
        invariant start <= p <= |data|
        invariant going ==> error == 0 && RunOn(Running(data, start, p), data[p..]) == RunOn(old(Saved()), data)
        invariant !going ==> Running(data, start, p) == RunOn(old(Saved()), data) && (error == 0 ==> p == |data|)
        invariant BytesReadOn(old(Saved()), data) ==
                  if going then p + BytesReadOn(Running(data, start, p), data[p..]) else p
        decreases going, |data| - p, RankOf(current)
      {
        Goes(Running(data, start, p), data[p..]);
        Descends(Running(data, start, p), data[p..]);
        GoesReading(Running(data, start, p), data[p..]);
        var q, begun;
        going, q, begun := RunNode(data, start, p);
        assert going ==> data[p..][q - p..] == data[q..];
        p, start := q, begun;
      }
      if error == 0 && span.Some? {
        log := log + [Data(span.value, data[start..])];
        assert data[start..p] == data[start..];
      }
      err, read := error, p;
    }

    /** `llhttp_finish`. */
    method EndOfInput() returns (err: nat)
      modifies this`log
      ensures (err, log) == Finish(old(Saved()))
    {
      if error != 0 {
        return 0;
      }
      if regs.finish == FINISH_SAFE_WITH_CB {
        log := log + [Notify(MessageComplete)];
        err := 0;
      } else if regs.finish == FINISH_SAFE {
        err := 0;
      } else {
        err := INVALID_EOF_STATE;
      }
    }
  }
}
