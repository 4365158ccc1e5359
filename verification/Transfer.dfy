/** The transfer loop: buffered_sequence (source/sio/sequence/buffered_sequence.hpp) offers what is
    left of its buffers to partial reads or writes until nothing is left; scan adds up the bytes
    moved, last keeps the final result, reduce is last of scan. */
module TransferProtocol {
  import opened Sequences
  import opened Wrappers

  // ----- Buffers -----------------------------------------------------------------------------

  /** One buffer, or a span of buffers. */
  datatype Buffers<T> = Single(data: seq<T>) | Span(buffers: seq<seq<T>>)

  function Bytes<T>(b: Buffers<T>): seq<T>
  {
    if b.Single? then b.data else Concat(b.buffers)
  }

  /** data().empty(): of a span, whether any buffer is left, empty ones included. */
  predicate Empty<T>(b: Buffers<T>)
  {
    if b.Single? then b.data == [] else b.buffers == []
  }

  function Min(a: nat, b: nat): nat
  {
    if a < b then a else b
  }

  /** advance() of a span: the buffers left, and what is left of n when the loop ends. */
  function AdvanceSpan<T>(buffers: seq<seq<T>>, n: nat): (seq<seq<T>>, nat)
  {
    if buffers == [] || n == 0 then (buffers, n)
    else if n < |buffers[0]| then ([buffers[0][n..]] + buffers[1..], n)
    else AdvanceSpan(buffers[1..], n - |buffers[0]|)
  }

  function Advance<T>(b: Buffers<T>, n: nat): Buffers<T>
  {
    if b.Single? then Single(b.data[Min(n, |b.data|)..]) else Span(AdvanceSpan(b.buffers, n).0)
  }

  /** What advance() adds to an offset other than -1. */
  function OffsetStep<T>(b: Buffers<T>, n: nat): nat
  {
    if b.Single? then n else AdvanceSpan(b.buffers, n).1
  }

  // ----- State -------------------------------------------------------------------------------

  datatype Outcome<E> = Moved(n: nat) | Failed(error: E) | Cancelled

  datatype Result<E> = Value(total: nat) | Error(error: E) | Stopped

  /** A completed transfer: the bytes moved and the offset they were moved at. */
  datatype Chunk<T> = Chunk(bytes: seq<T>, offset: int)

  datatype State<T, E> = State(
    buffers: Buffers<T>,
    offset: int,
    sum: nat,                       // scan's value_
    kept: Option<Result<E>>,        // last's result_
    finished: Option<Result<E>>,    // the completion of the whole
    log: seq<Chunk<T>>)             // history: the transfers made

  function Init<T, E>(buffers: Buffers<T>, offset: int): State<T, E>
  {
    State(buffers, offset, 0, None, None, [])
  }

  /** One round: the transfer under way completes with o; `stop` says whether a stop of the whole
      operation has been requested by then. */
  datatype Round<E> = Round(o: Outcome<E>, stop: bool)

  function Take<T>(s: seq<T>, n: nat): seq<T>
  {
    s[..Min(n, |s|)]
  }

  function Step<T, E>(s: State<T, E>, r: Round<E>): State<T, E>
  {
    match r.o
    case Moved(n) =>
      var s1 := s.(buffers := Advance(s.buffers, n),
                   offset := if s.offset == -1 then -1 else s.offset + OffsetStep(s.buffers, n),
                   sum := s.sum + n,
                   kept := Some(Value(s.sum + n)),
                   log := s.log + [Chunk(Take(Bytes(s.buffers), n), s.offset)]);
      if Empty(s1.buffers) then s1.(finished := s1.kept, kept := None) else s1
    case Failed(e) => Abandon(s, Error(e), r.stop)
    case Cancelled => Abandon(s, Stopped, r.stop)
  }

  /** The item completes stopped, the sequence with a value unless a stop was requested; only in the
      first case does last deliver the result it keeps. */
  function Abandon<T, E>(s: State<T, E>, result: Result<E>, stop: bool): State<T, E>
  {
    if stop then s.(kept := Some(result), finished := Some(Stopped))
    else s.(kept := None, finished := Some(result))
  }

  /** A transfer moves no more than it was offered; it may move nothing, as a read at the end of a file. */
  predicate Honest<T, E>(s: State<T, E>, r: Round<E>)
  {
    r.o.Moved? ==> r.o.n <= |Bytes(s.buffers)|
  }

  ghost predicate Run<T, E>(s: State<T, E>, rs: seq<Round<E>>, t: State<T, E>)
    decreases |rs|
  {
    if rs == [] then s == t
    else s.finished == None && Honest(s, rs[0]) && Run(Step(s, rs[0]), rs[1..], t)
  }

  /** No transfer of the run moves nothing while there is anything to move. */
  ghost predicate Progresses<T, E>(s: State<T, E>, rs: seq<Round<E>>)
    decreases |rs|
  {
    rs == [] || (Eager(rs[0], Bytes(s.buffers)) && Progresses(Step(s, rs[0]), rs[1..]))
  }

  ghost predicate Eager<T, E>(r: Round<E>, bytes: seq<T>)
  {
    r.o.Moved? && bytes != [] ==> r.o.n > 0
  }

  lemma {:induction false} RunOneMore<T, E>(s: State<T, E>, rs: seq<Round<E>>, t: State<T, E>, r: Round<E>)
    requires Run(s, rs, t) && t.finished == None && Honest(t, r)
    ensures Run(s, rs + [r], Step(t, r))
    decreases |rs|
  {
    if rs == [] {
      assert (rs + [r])[1..] == [];
    } else {
      RunOneMore(Step(s, rs[0]), rs[1..], t, r);
      assert (rs + [r])[1..] == rs[1..] + [r];
    }
  }

  lemma {:induction false} ProgressOneMore<T, E>(s: State<T, E>, rs: seq<Round<E>>, t: State<T, E>, r: Round<E>)
    requires Run(s, rs, t) && Progresses(s, rs) && Eager(r, Bytes(t.buffers))
    ensures Progresses(s, rs + [r])
    decreases |rs|
  {
    if rs == [] {
      assert (rs + [r])[1..] == [];
    } else {
      ProgressOneMore(Step(s, rs[0]), rs[1..], t, r);
      assert (rs + [r])[1..] == rs[1..] + [r];
    }
  }

  // ----- Advancing ---------------------------------------------------------------------------

  /** advance() drops exactly the bytes transferred, from one buffer or from a span. */
  lemma {:induction false} AdvanceSpanDrops<T>(buffers: seq<seq<T>>, n: nat)
    ensures Concat(AdvanceSpan(buffers, n).0) == Concat(buffers)[Min(n, |Concat(buffers)|)..]
    decreases |buffers|
  {
    if buffers != [] && n > 0 {
      if n >= |buffers[0]| {
        AdvanceSpanDrops(buffers[1..], n - |buffers[0]|);
      } else {
        assert ([buffers[0][n..]] + buffers[1..])[1..] == buffers[1..];
      }
    }
  }

  lemma AdvanceDrops<T>(b: Buffers<T>, n: nat)
    ensures Bytes(Advance(b, n)) == Bytes(b)[Min(n, |Bytes(b)|)..]
  {
    if b.Span? { AdvanceSpanDrops(b.buffers, n); }
  }

  /** The size of the first buffer that is not empty. */
  function FrontSize<T>(buffers: seq<seq<T>>): nat
  {
    if buffers == [] then 0 else if buffers[0] != [] then |buffers[0]| else FrontSize(buffers[1..])
  }

  /** advance() moves the offset of a span by n if and only if no byte is dropped with its whole
      buffer: the offset is short by the bytes of all buffers used up. */
  lemma {:induction false} SpanOffsetIff<T>(buffers: seq<seq<T>>, n: nat)
    ensures AdvanceSpan(buffers, n).1 <= n
    ensures AdvanceSpan(buffers, n).1 == n <==> n == 0 || Concat(buffers) == [] || n < FrontSize(buffers)
    decreases |buffers|
  {
    if buffers != [] && n > 0 && n >= |buffers[0]| {
      SpanOffsetIff(buffers[1..], n - |buffers[0]|);
    }
  }

  /** What advance() adds to the offset of a span: n less the bytes of the buffers used up. */
  lemma {:induction false} SpanOffsetExactly<T>(buffers: seq<seq<T>>, n: nat)
    ensures var (left, step) := AdvanceSpan(buffers, n);
            |left| <= |buffers| && step + |Concat(buffers[..|buffers| - |left|])| == n
    decreases |buffers|
  {
    if buffers != [] && n > 0 && n >= |buffers[0]| {
      SpanOffsetExactly(buffers[1..], n - |buffers[0]|);
      var left := AdvanceSpan(buffers[1..], n - |buffers[0]|).0;
      var used := buffers[..|buffers| - |left|];
      assert used[0] == buffers[0] && used[1..] == buffers[1..][..|buffers| - 1 - |left|];
    }
  }

  /** Nothing after the last byte: no empty buffer at the end of a span. */
  predicate Tidy<T>(b: Buffers<T>)
  {
    b.Single? || b.buffers == [] || b.buffers[|b.buffers| - 1] != []
  }

  lemma {:induction false} SpanTidiness<T>(buffers: seq<seq<T>>, n: nat)
    requires n <= |Concat(buffers)|
    ensures Tidy(Span(AdvanceSpan(buffers, n).0)) <==> Tidy(Span(buffers))
    decreases |buffers|
  {
    if buffers != [] && n > 0 && n >= |buffers[0]| {
      SpanTidiness(buffers[1..], n - |buffers[0]|);
      if |buffers| > 1 { assert buffers[1..][|buffers| - 2] == buffers[|buffers| - 1]; }
    }
  }

  lemma {:induction false} TidyEndsEmpty<T>(b: Buffers<T>)
    requires Tidy(b)
    ensures Empty(b) <==> Bytes(b) == []
    decreases if b.Span? then |b.buffers| else 0
  {
    if b.Span? && |b.buffers| > 1 {
      assert b.buffers[1..][|b.buffers| - 2] == b.buffers[|b.buffers| - 1];
      TidyEndsEmpty(Span(b.buffers[1..]));
    }
  }

  // ----- What every run keeps ----------------------------------------------------------------

  /** All bytes moved, in order. */
  function Transferred<T>(log: seq<Chunk<T>>): seq<T>
  {
    if log == [] then [] else Transferred(log[..|log| - 1]) + log[|log| - 1].bytes
  }

  lemma TransferredOneMore<T>(log: seq<Chunk<T>>, c: Chunk<T>)
    ensures Transferred(log + [c]) == Transferred(log) + c.bytes
  {
    assert (log + [c])[..|log|] == log;
  }

  ghost predicate Conserved<T, E>(s: State<T, E>, data: seq<T>)
  {
    Transferred(s.log) + Bytes(s.buffers) == data && s.sum == |Transferred(s.log)|
  }

  /** Each chunk was moved at the offset where the previous one ended. */
  ghost predicate Contiguous<T>(log: seq<Chunk<T>>, start: int)
  {
    forall k | 0 <= k < |log| :: log[k].offset == start + |Transferred(log[..k])|
  }

  lemma MovedKeepsConserved<T, E>(s: State<T, E>, r: Round<E>, data: seq<T>)
    requires Conserved(s, data) && Honest(s, r) && r.o.Moved?
    ensures Conserved(Step(s, r), data) && |Bytes(Step(s, r).buffers)| == |Bytes(s.buffers)| - r.o.n
    ensures Step(s, r).sum == s.sum + r.o.n
  {
    var n, rest := r.o.n, Bytes(s.buffers);
    AdvanceDrops(s.buffers, n);
    TransferredOneMore(s.log, Chunk(Take(rest, n), s.offset));
    assert Transferred(s.log) + rest == (Transferred(s.log) + rest[..n]) + rest[n..];
  }

  lemma {:induction false} RunConserves<T, E>(s: State<T, E>, rs: seq<Round<E>>, t: State<T, E>, data: seq<T>)
    requires Run(s, rs, t) && Conserved(s, data)
    ensures Conserved(t, data)
    decreases |rs|
  {
    if rs != [] {
      if rs[0].o.Moved? { MovedKeepsConserved(s, rs[0], data); }
      RunConserves(Step(s, rs[0]), rs[1..], t, data);
    }
  }

  lemma {:induction false} NoOffsetEver<T, E>(s: State<T, E>, rs: seq<Round<E>>, t: State<T, E>)
    requires Run(s, rs, t) && s.offset == -1 && forall k | 0 <= k < |s.log| :: s.log[k].offset == -1
    ensures forall k | 0 <= k < |t.log| :: t.log[k].offset == -1
    decreases |rs|
  {
    if rs != [] { NoOffsetEver(Step(s, rs[0]), rs[1..], t); }
  }

  /** A transfer of n bytes uses up a whole buffer of a span. */
  predicate UsesUp<T>(b: Buffers<T>, n: nat)
  {
    b.Span? && n > 0 && n >= FrontSize(b.buffers)
  }

  /** No transfer of the run uses up a whole buffer. */
  ghost predicate KeepsOffset<T, E>(s: State<T, E>, rs: seq<Round<E>>)
    decreases |rs|
  {
    rs == []
    || ((rs[0].o.Moved? ==> !UsesUp(s.buffers, rs[0].o.n)) && KeepsOffset(Step(s, rs[0]), rs[1..]))
  }

  /** All chunks so far, and the next one, are where the previous one ended. */
  ghost predicate Placed<T, E>(s: State<T, E>, start: int)
  {
    s.offset == start + s.sum && Contiguous(s.log, start)
  }

  lemma MovedOffset<T, E>(s: State<T, E>, r: Round<E>, start: nat)
    requires Honest(s, r) && r.o.Moved? && 0 <= s.offset <= start + s.sum
    ensures 0 <= Step(s, r).offset <= start + Step(s, r).sum
    ensures Step(s, r).offset == start + Step(s, r).sum <==> s.offset == start + s.sum && !UsesUp(s.buffers, r.o.n)
  {
    if s.buffers.Span? { SpanOffsetIff(s.buffers.buffers, r.o.n); }
  }

  lemma MovedChunk<T, E>(s: State<T, E>, r: Round<E>, data: seq<T>, start: nat)
    requires Conserved(s, data) && Honest(s, r) && r.o.Moved? && Contiguous(s.log, start) && s.offset == start + s.sum
    ensures Contiguous(Step(s, r).log, start)
  {
    var s' := Step(s, r);
    forall k | 0 <= k < |s'.log| ensures s'.log[..k] == if k < |s.log| then s.log[..k] else s.log {}
  }

  /** An offset that has fallen behind stays behind. */
  lemma {:induction false} RunOffset<T, E>(s: State<T, E>, rs: seq<Round<E>>, t: State<T, E>, data: seq<T>, start: nat)
    requires Run(s, rs, t) && Conserved(s, data) && 0 <= s.offset <= start + s.sum
    ensures s.offset < start + s.sum ==> t.offset < start + t.sum
    ensures Placed(s, start) ==> (Placed(t, start) <==> KeepsOffset(s, rs))
    decreases |rs|
  {
    if rs != [] {
      var s1 := Step(s, rs[0]);
      if rs[0].o.Moved? {
        MovedKeepsConserved(s, rs[0], data);
        MovedOffset(s, rs[0], start);
        if Placed(s, start) { MovedChunk(s, rs[0], data, start); }
      }
      RunOffset(s1, rs[1..], t, data, start);
    }
  }

  lemma {:induction false} SingleKeepsOffset<T, E>(s: State<T, E>, rs: seq<Round<E>>)
    requires s.buffers.Single?
    ensures KeepsOffset(s, rs)
    decreases |rs|
  {
    if rs != [] { SingleKeepsOffset(Step(s, rs[0]), rs[1..]); }
  }

  /** How the last round decides the completion. */
  function Verdict<E>(r: Round<E>, total: nat): Result<E>
  {
    match r.o
    case Moved(_) => Value(total)
    case Failed(e) => if r.stop then Stopped else Error(e)
    case Cancelled => Stopped
  }

  lemma {:induction false} RunVerdict<T, E>(s: State<T, E>, rs: seq<Round<E>>, t: State<T, E>)
    requires Run(s, rs, t) && s.finished == None
    ensures forall k | 0 <= k < |rs| - 1 :: rs[k].o.Moved?
    ensures t.finished.Some? ==> rs != [] && t.finished.value == Verdict(rs[|rs| - 1], t.sum)
    ensures t.finished.Some? && t.finished.value.Value? ==> Empty(t.buffers)
    ensures rs != [] && !rs[|rs| - 1].o.Moved? ==> t.finished.Some?
    decreases |rs|
  {
    if rs != [] {
      var s1 := Step(s, rs[0]);
      if s1.finished == None {
        RunVerdict(s1, rs[1..], t);
        assert forall k | 0 < k < |rs| :: rs[k] == rs[1..][k - 1];
      }
    }
  }

  // ----- Main results ------------------------------------------------------------------------

  lemma EmptyMeansNothingLeft<T>(b: Buffers<T>)
    requires Empty(b)
    ensures Bytes(b) == []
  {}

  /** Nothing is lost, repeated or reordered: what was moved, followed by what is left, is the data at
      all times; a value completion means all of it was moved, and carries the total size. */
  lemma ChunksAreTheData<T, E>(b: Buffers<T>, offset: int, rs: seq<Round<E>>, t: State<T, E>)
    requires Run(Init(b, offset), rs, t)
    ensures Transferred(t.log) + Bytes(t.buffers) == Bytes(b)
    ensures t.finished.Some? && t.finished.value.Value? ==>
              Transferred(t.log) == Bytes(b) && t.finished.value.total == |Bytes(b)|
  {
    RunConserves(Init(b, offset), rs, t, Bytes(b));
    RunVerdict(Init(b, offset), rs, t);
    if t.finished.Some? && t.finished.value.Value? { EmptyMeansNothingLeft(t.buffers); }
  }

  /** Without a start offset none is ever passed.  With one, all transfers, the next included, are at
      contiguous offsets if and only if none used up a whole buffer of a span; so they always are when
      there is a single buffer. */
  lemma ChunksAreContiguousIff<T, E>(b: Buffers<T>, start: int, rs: seq<Round<E>>, t: State<T, E>)
    requires Run(Init(b, start), rs, t) && start >= -1
    ensures start == -1 ==> forall k | 0 <= k < |t.log| :: t.log[k].offset == -1
    ensures start >= 0 ==> (Placed(t, start) <==> KeepsOffset(Init(b, start), rs))
    ensures start >= 0 && b.Single? ==>
              forall k | 0 <= k < |t.log| :: t.log[k].offset == start + |Transferred(t.log[..k])|
  {
    var s := Init<T, E>(b, start);
    if start == -1 {
      NoOffsetEver(s, rs, t);
    } else {
      RunOffset(s, rs, t, Bytes(b), start);
      if b.Single? { SingleKeepsOffset(s, rs); }
    }
  }

  /** Only the last transfer of a run can fail, and then the loop ends: with that error, or as stopped
      when a stop was requested. */
  lemma FailureSurfaces<T, E>(b: Buffers<T>, offset: int, rs: seq<Round<E>>, t: State<T, E>, k: nat)
    requires Run(Init(b, offset), rs, t) && k < |rs| && !rs[k].o.Moved?
    ensures k == |rs| - 1
    ensures t.finished == Some(if rs[k].o.Failed? && !rs[k].stop then Error(rs[k].o.error) else Stopped)
  {
    RunVerdict(Init(b, offset), rs, t);
  }

  lemma {:induction false} RunAddsUp<T, E>(s: State<T, E>, rs: seq<Round<E>>, t: State<T, E>, data: seq<T>)
    requires Run(s, rs, t) && Conserved(s, data)
    ensures t.sum == s.sum + TotalMoved(rs)
    decreases |rs|
  {
    if rs != [] {
      if rs[0].o.Moved? { MovedKeepsConserved(s, rs[0], data); }
      RunAddsUp(Step(s, rs[0]), rs[1..], t, data);
    }
  }

  predicate AllMoved<E>(rs: seq<Round<E>>)
  {
    forall k | 0 <= k < |rs| :: rs[k].o.Moved?
  }

  /** The bytes moved by all transfers together. */
  function TotalMoved<E>(rs: seq<Round<E>>): nat
  {
    if rs == [] then 0 else (if rs[0].o.Moved? then rs[0].o.n else 0) + TotalMoved(rs[1..])
  }

  lemma {:induction false} UntidyLoopGoesOn<T, E>(s: State<T, E>, rs: seq<Round<E>>, t: State<T, E>)
    requires Run(s, rs, t) && AllMoved(rs) && !Tidy(s.buffers) && s.finished == None
    ensures t.finished == None
    decreases |rs|
  {
    if rs != [] {
      SpanTidiness(s.buffers.buffers, rs[0].o.n);
      UntidyLoopGoesOn(Step(s, rs[0]), rs[1..], t);
    }
  }

  lemma {:induction false} TidyLoopEndsIff<T, E>(s: State<T, E>, rs: seq<Round<E>>, t: State<T, E>, data: seq<T>)
    requires Run(s, rs, t) && AllMoved(rs) && Tidy(s.buffers) && Conserved(s, data) && rs != []
    ensures TotalMoved(rs) <= |Bytes(s.buffers)|
    ensures t.finished.Some? <==> TotalMoved(rs) == |Bytes(s.buffers)|
    decreases |rs|
  {
    var s1 := Step(s, rs[0]);
    MovedKeepsConserved(s, rs[0], data);
    if s.buffers.Span? { SpanTidiness(s.buffers.buffers, rs[0].o.n); }
    TidyEndsEmpty(s1.buffers);
    if rs[1..] != [] { TidyLoopEndsIff(s1, rs[1..], t, data); }
  }

  /** When the loop has ended, for any transfers: when the last one failed, or when all bytes have been
      moved and no empty buffer ends the span.  An empty last buffer is offered for ever, and so is what
      is left while transfers move nothing. */
  lemma LoopEndsIff<T, E>(b: Buffers<T>, offset: int, rs: seq<Round<E>>, t: State<T, E>)
    requires Run(Init(b, offset), rs, t) && rs != []
    ensures t.finished.Some? <==> !rs[|rs| - 1].o.Moved? || (Tidy(b) && TotalMoved(rs) == |Bytes(b)|)
  {
    var s := Init<T, E>(b, offset);
    RunVerdict(s, rs, t);
    if rs[|rs| - 1].o.Moved? {
      if Tidy(b) { TidyLoopEndsIff(s, rs, t, Bytes(b)); } else { UntidyLoopGoesOn(s, rs, t); }
    }
  }

  lemma {:induction false} ProgressEnds<T, E>(s: State<T, E>, rs: seq<Round<E>>, t: State<T, E>, data: seq<T>)
    requires Run(s, rs, t) && Progresses(s, rs) && Tidy(s.buffers) && Conserved(s, data) && rs != []
    ensures |rs| <= 1 || |rs| <= |Bytes(s.buffers)|
    ensures |rs| >= |Bytes(s.buffers)| ==> t.finished.Some?
    decreases |rs|
  {
    if rs[0].o.Moved? {
      var s1 := Step(s, rs[0]);
      MovedKeepsConserved(s, rs[0], data);
      if s.buffers.Span? { SpanTidiness(s.buffers.buffers, rs[0].o.n); }
      TidyEndsEmpty(s1.buffers);
      if rs[1..] != [] { ProgressEnds(s1, rs[1..], t, data); }
    }
  }

  /** Termination: if every transfer moves something, a single buffer or a span that does not end with an
      empty buffer takes no more transfers than it has bytes, or one, and after that many the loop is over. */
  lemma TidyLoopEnds<T, E>(b: Buffers<T>, offset: int, rs: seq<Round<E>>, t: State<T, E>)
    requires Run(Init(b, offset), rs, t) && Progresses(Init(b, offset), rs) && Tidy(b) && rs != []
    ensures |rs| <= 1 || |rs| <= |Bytes(b)|
    ensures |rs| >= |Bytes(b)| ==> t.finished.Some?
  {
    ProgressEnds(Init(b, offset), rs, t, Bytes(b));
  }

  /** An empty last buffer: after the one byte there is, transfers go on for any number of rounds though
      none fails to move what there is. */
  lemma {:induction false} EmptyLastBufferGoesOn(k: nat) returns (rs: seq<Round<bool>>, t: State<int, bool>)
    ensures Run(Init(Span([[1], []]), -1), rs, t) && |rs| == k && AllMoved(rs) && t.finished == None
    ensures Progresses(Init(Span([[1], []]), -1), rs)
    ensures t.buffers == if k == 0 then Span([[1], []]) else Span([[]])
  {
    if k == 0 {
      rs, t := [], Init(Span([[1], []]), -1);
    } else {
      rs, t := EmptyLastBufferGoesOn(k - 1);
      var r := Round(Moved(if k == 1 then 1 else 0), false);
      assert k == 1 ==> AdvanceSpan([[1], []], 1).0 == AdvanceSpan([[]], 0).0;
      RunOneMore(Init(Span([[1], []]), -1), rs, t, r);
      ProgressOneMore(Init(Span([[1], []]), -1), rs, t, r);
      rs, t := rs + [r], Step(t, r);
    }
  }

  /** Two bytes moved, one of them a whole buffer: the offset moves by one. */
  lemma OffsetFallsBehind()
    ensures AdvanceSpan([[1], [2, 3]], 2) == ([[3]], 1)
    ensures UsesUp(Span([[1], [2, 3]]), 2) && OffsetStep(Span([[1], [2, 3]]), 2) == 1
  {
    assert [[1], [2, 3]][1..] == [[2, 3]];
    assert [2, 3][1..] == [3];
    assert AdvanceSpan([[2, 3]], 1).0 == [[3]];
  }

  /** Transfers of nothing while there are bytes left: for any number of rounds the same bytes are offered
      again, at the same offset, and the loop does not end. */
  lemma {:induction false} StalledLoopGoesOn<T, E>(s: State<T, E>, k: nat) returns (rs: seq<Round<E>>, t: State<T, E>)
    requires s.finished == None && Bytes(s.buffers) != []
    ensures Run(s, rs, t) && |rs| == k && AllMoved(rs) && TotalMoved(rs) == 0
    ensures t.buffers == s.buffers && t.offset == s.offset && t.sum == s.sum && t.finished == None
    decreases k
  {
    if k == 0 {
      rs, t := [], s;
    } else {
      var r := Round(Moved(0), false);
      var s1 := Step(s, r);
      var more;
      more, t := StalledLoopGoesOn(s1, k - 1);
      rs := [r] + more;
      assert rs[1..] == more;
    }
  }
}

/** The objects of the transfer loop, updated in place. */
module TransferLoop {
  import opened Sequences
  import opened TransferProtocol
  import opened Wrappers

  /** buffer_span of one buffer. */
  class SingleBuffer<T> {
    var buffer: seq<T>
    var offset: int

    constructor (buffer: seq<T>, offset: int)
      ensures this.buffer == buffer && this.offset == offset
    {
      this.buffer, this.offset := buffer, offset;
    }

    method Advance(n: nat)
      modifies this
      ensures Single(buffer) == TransferProtocol.Advance(Single(old(buffer)), n)
      ensures offset == if old(offset) == -1 then -1 else old(offset) + n
    {
      if n >= |buffer| {
        buffer := [];
      } else {
        buffer := buffer[n..];
      }
      if offset != -1 {
        offset := offset + n;
      }
    }
  }

  /** buffer_span of a span: a window, from `first` on, into an array of buffers the caller owns. */
  class BufferSpan<T> {
    const buffers: array<seq<T>>
    var first: nat
    var offset: int

    ghost predicate Valid()
      reads this
    {
      first <= buffers.Length
    }

    ghost function Left(): seq<seq<T>>
      requires Valid()
      reads this, buffers
    {
      buffers[first..]
    }

    constructor (buffers: array<seq<T>>, offset: int)
      ensures Valid() && this.buffers == buffers && Left() == buffers[..] && this.offset == offset
    {
      this.buffers, this.first, this.offset := buffers, 0, offset;
    }

    /** Drops n bytes.  Of the caller's array at most one element changes: the buffer the window now
        starts with has lost its front. */
    method Advance(count: nat)
      requires Valid()
      modifies this, buffers
      ensures Valid() && Left() == AdvanceSpan(old(Left()), count).0
      ensures offset == if old(offset) == -1 then -1 else old(offset) + AdvanceSpan(old(Left()), count).1
      ensures old(first) <= first
      ensures forall k | 0 <= k < buffers.Length && k != first :: buffers[k] == old(buffers[k])
      ensures first < buffers.Length ==>
                |buffers[first]| <= |old(buffers[..])[first]|
                && buffers[first] == old(buffers[..])[first][|old(buffers[..])[first]| - |buffers[first]|..]
    {
      var n: nat := count;
      while first < buffers.Length && n > 0
        invariant Valid() && old(first) <= first && offset == old(offset)
        invariant buffers[..] == old(buffers[..])
        invariant AdvanceSpan(old(Left()), count) == AdvanceSpan(Left(), n)
        decreases buffers.Length - first
      {
        var buffer := buffers[first];
        assert Left()[0] == buffer && Left()[1..] == buffers[first + 1..];
        if n < |buffer| {
          ghost var was := Left();
          buffers[first] := buffer[n..];
          assert Left() == [buffer[n..]] + was[1..];
          break;
        } else {
          n := n - |buffer|;
          first := first + 1;
        }
      }
      if offset != -1 {
        offset := offset + n;
      }
    }
  }

  /** scan_data with std::plus. */
  class ScanData {
    var value: nat

    constructor (init: nat)
      ensures value == init
    {
      value := init;
    }

    method Emplace(n: nat) returns (r: nat)
      modifies this
      ensures r == value == old(value) + n
    {
      value := value + n;
      r := value;
    }
  }

  /** result_type: the final completion seen so far. */
  class LastResult<E> {
    var result: Option<Result<E>>

    constructor ()
      ensures result == None
    {
      result := None;
    }

    method Emplace(r: Result<E>)
      modifies this
      ensures result == Some(r)
    {
      result := Some(r);
    }

    /** Moves the result out and destroys it. */
    method VisitResult() returns (r: Result<E>)
      requires result.Some?
      modifies this
      ensures result == None && Some(r) == old(result)
    {
      r := result.value;
      result := None;
    }
  }

  /** reduce over a buffered sequence, on a span of buffers. */
  class SpanTransfer<T(!new), E> {
    const buffer: BufferSpan<T>
    const scan: ScanData
    const last: LastResult<E>
    var finished: Option<Result<E>>
    ghost var log: seq<Chunk<T>>

    ghost predicate Valid()
      reads this, buffer
    {
      buffer.Valid()
    }

    ghost function Model(): State<T, E>
      requires Valid()
      reads this, buffer, buffer.buffers, scan, last
    {
      State(Span(buffer.Left()), buffer.offset, scan.value, last.result, finished, log)
    }

    constructor (buffers: array<seq<T>>, offset: int)
      ensures Valid() && Model() == Init(Span(buffers[..]), offset)
      ensures fresh(buffer) && fresh(scan) && fresh(last) && buffer.buffers == buffers
    {
      buffer := new BufferSpan(buffers, offset);
      scan := new ScanData(0);
      last := new LastResult<E>();
      finished, log := None, [];
    }

    /** item_receiver and next_receiver: one transfer completes. */
    method Complete(r: Round<E>)
      requires Valid() && finished == None
      modifies this, buffer, buffer.buffers, scan, last
      ensures Valid() && Model() == Step(old(Model()), r)
    {
      match r.o
      case Moved(n) =>
        Move(n);
        if buffer.first == buffer.buffers.Length {
          var result := last.VisitResult();
          finished := Some(result);
        }
      case Failed(error) =>
        last.Emplace(Error(error));
        SetStopped(r.stop);
      case Cancelled =>
        last.Emplace(Stopped);
        SetStopped(r.stop);
    }

    /** The value of a transfer on its way through buffered_sequence, scan and last. */
    method Move(n: nat)
      requires Valid() && finished == None
      modifies this`log, buffer, buffer.buffers, scan, last
      ensures Valid() && log == old(log) + [Chunk(Take(Concat(old(buffer.Left())), n), old(buffer.offset))]
      ensures buffer.Left() == AdvanceSpan(old(buffer.Left()), n).0
      ensures buffer.offset ==
                if old(buffer.offset) == -1 then -1 else old(buffer.offset) + AdvanceSpan(old(buffer.Left()), n).1
      ensures scan.value == old(scan.value) + n && last.result == Some(Value(scan.value))
    {
      log := log + [Chunk(Take(Concat(buffer.Left()), n), buffer.offset)];
      buffer.Advance(n);
      var total := scan.Emplace(n);
      last.Emplace(Value(total));
    }

    /** next_receiver::set_stopped: a value completion of the sequence unless a stop was requested. */
    method SetStopped(stop: bool)
      requires last.result.Some?
      modifies this`finished, last
      ensures if stop then finished == Some(Stopped) && last.result == old(last.result)
              else finished == old(last.result) && last.result == None
    {
      if stop {
        finished := Some(Stopped);
      } else {
        var result := last.VisitResult();
        finished := Some(result);
      }
    }

    /** sequence_op::start and the rounds that follow, watched for a number of rounds.  `io` is the other
        side of the transfers: round k offers it bytes at an offset, and it answers how the transfer
        completed. */
    method Start(io: (nat, seq<T>, int) -> Round<E>, rounds: nat) returns (ghost rs: seq<Round<E>>)
      requires Valid() && finished == None && HonestPeer(io)
      modifies this, buffer, buffer.buffers, scan, last
      ensures Valid() && Run(old(Model()), rs, Model())
      ensures |rs| <= rounds && (finished == None ==> |rs| == rounds)
      ensures Answers(io, 0, old(Model()), rs)
      ensures EagerPeer(io) ==> Progresses(old(Model()), rs)
    {
      rs := [];
      ghost var s := Model();
      var k := 0;
      while finished == None && k < rounds
        invariant Valid() && Run(s, rs, Model()) && |rs| == k <= rounds
        invariant Answers(io, 0, s, rs)
        invariant EagerPeer(io) ==> Progresses(s, rs)
      {
        ghost var was := Model();
        var bytes := Concat(buffer.buffers[buffer.first..]);
        var r := io(k, bytes, buffer.offset);
        assert HonestIo(r, bytes) && bytes == Bytes(was.buffers);
        Complete(r);
        RunOneMore(s, rs, was, r);
        AnsweredOneMore(io, 0, s, rs, was, r);
        if EagerPeer(io) {
          assert Eager(r, bytes);
          ProgressOneMore(s, rs, was, r);
        }
        rs := rs + [r];
        k := k + 1;
      }
    }
  }

  /** The rounds are the answers of the peer, from its k-th on: each is asked for the bytes left, at the offset
      reached. */
  ghost predicate Answers<T, E>(io: (nat, seq<T>, int) -> Round<E>, k: nat, s: State<T, E>, rs: seq<Round<E>>)
    decreases |rs|
  {
    rs == [] || (rs[0] == io(k, Bytes(s.buffers), s.offset) && Answers(io, k + 1, Step(s, rs[0]), rs[1..]))
  }

  lemma {:induction false} AnsweredOneMore<T, E>(
      io: (nat, seq<T>, int) -> Round<E>, k: nat, s: State<T, E>, rs: seq<Round<E>>, t: State<T, E>, r: Round<E>)
    requires Run(s, rs, t) && Answers(io, k, s, rs) && r == io(k + |rs|, Bytes(t.buffers), t.offset)
    ensures Answers(io, k, s, rs + [r])
    decreases |rs|
  {
    if rs == [] {
      assert (rs + [r])[1..] == [];
    } else {
      AnsweredOneMore(io, k + 1, Step(s, rs[0]), rs[1..], t, r);
      assert (rs + [r])[1..] == rs[1..] + [r];
    }
  }

  /** Two runs that a peer answers are the same as far as both go. */
  lemma {:induction false} AnswersAreUnique<T, E>(
      io: (nat, seq<T>, int) -> Round<E>, k: nat, s: State<T, E>, rs: seq<Round<E>>, more: seq<Round<E>>)
    requires Answers(io, k, s, rs) && Answers(io, k, s, more) && |rs| <= |more|
    ensures rs == more[..|rs|]
    decreases |rs|
  {
    if rs != [] {
      AnswersAreUnique(io, k + 1, Step(s, rs[0]), rs[1..], more[1..]);
      assert more[..|rs|] == [more[0]] + more[1..][..|rs| - 1];
    }
  }

  ghost predicate HonestIo<T, E>(r: Round<E>, bytes: seq<T>)
  {
    r.o.Moved? ==> r.o.n <= |bytes|
  }

  ghost predicate HonestPeer<T(!new), E>(io: (nat, seq<T>, int) -> Round<E>)
  {
    forall k, bytes, offset :: HonestIo(io(k, bytes, offset), bytes)
  }

  /** The peer moves something whenever there is anything to move. */
  ghost predicate EagerPeer<T(!new), E>(io: (nat, seq<T>, int) -> Round<E>)
  {
    forall k, bytes, offset :: Eager(io(k, bytes, offset), bytes)
  }

  /** reduce(buffered_sequence(io, buffers), 0), watched for a number of rounds: all bytes of the span, in
      order, or what went wrong, or no result yet.  No span that ends with an empty buffer ever completes by
      value; any other has its result after as many rounds as it has bytes if the peer always moves some. */
  method Reduce<T(!new), E>(buffers: array<seq<T>>, offset: int, io: (nat, seq<T>, int) -> Round<E>, rounds: nat)
    returns (result: Option<Result<E>>, ghost log: seq<Chunk<T>>, ghost rs: seq<Round<E>>)
    requires HonestPeer(io)
    modifies buffers
    ensures Answers(io, 0, Init(Span(old(buffers[..])), offset), rs) && |rs| <= rounds
    ensures result == None ==> |rs| == rounds
    ensures result.Some? ==> rs != [] && result.value == Verdict(rs[|rs| - 1], TotalMoved(rs))
    ensures result.Some? <==>
              rs != [] && (!rs[|rs| - 1].o.Moved?
                           || (Tidy(Span(old(buffers[..]))) && TotalMoved(rs) == |Concat(old(buffers[..]))|))
    ensures Transferred(log) == Take(Concat(old(buffers[..])), TotalMoved(rs)) && |Transferred(log)| == TotalMoved(rs)
    ensures EagerPeer(io) && Tidy(Span(old(buffers[..]))) && rounds > 0 && rounds >= |Concat(old(buffers[..]))| ==>
              result.Some?
  {
    ghost var data := buffers[..];
    var op := new SpanTransfer<T, E>(buffers, offset);
    rs := op.Start(io, rounds);
    result, log := op.finished, op.log;
    ReducesToTheData(data, offset, rs, op.Model());
  }

  lemma ReducesToTheData<T, E>(data: seq<seq<T>>, offset: int, rs: seq<Round<E>>, t: State<T, E>)
    requires Run(Init(Span(data), offset), rs, t)
    ensures Transferred(t.log) == Take(Concat(data), TotalMoved(rs)) && |Transferred(t.log)| == TotalMoved(rs)
    ensures t.finished.Some? ==> rs != [] && t.finished.value == Verdict(rs[|rs| - 1], TotalMoved(rs))
    ensures t.finished.Some? <==>
              rs != [] && (!rs[|rs| - 1].o.Moved? || (Tidy(Span(data)) && TotalMoved(rs) == |Concat(data)|))
    ensures Progresses(Init(Span(data), offset), rs) && Tidy(Span(data)) && |rs| > 0 && |rs| >= |Concat(data)| ==>
              t.finished.Some?
  {
    var s := Init<T, E>(Span(data), offset);
    ChunksAreTheData(Span(data), offset, rs, t);
    RunConserves(s, rs, t, Concat(data));
    RunAddsUp(s, rs, t, Concat(data));
    RunVerdict(s, rs, t);
    if rs != [] { LoopEndsIff(Span(data), offset, rs, t); }
    if Progresses(s, rs) && Tidy(Span(data)) && |rs| > 0 { TidyLoopEnds(Span(data), offset, rs, t); }
  }
}
