/** Scatter/gather slicing: const_buffer_subspan of source/sio/const_buffer_span.cpp.

    The functions look at buffers only through their sizes.  A subspan denotes an interval of the
    bytes of all buffers laid end to end; ViewIsInterval says what that means for their contents. */
module Subspan {
  import opened Sequences
  import opened Wrappers

  /** std::size_t. */
  const WORD: nat := 0x1_0000_0000_0000_0000

  /** `size` buffers from `start` on, from byte i0 of the first to byte iN of the last. */
  datatype Subspan = Subspan(start: nat, size: nat, i0: nat, iN: nat)

  predicate Valid(sizes: seq<nat>, s: Subspan)
  {
    s.size > 0 ==>
      && s.start + s.size <= |sizes|
      && s.i0 <= sizes[s.start]
      && s.iN <= sizes[s.start + s.size - 1]
      && (s.size == 1 ==> s.i0 <= s.iN)
  }

  /** The private constructor: nothing of one buffer is the empty subspan. */
  function Make(start: nat, size: nat, i0: nat, iN: nat): Subspan
  {
    if size == 1 && i0 == iN then Subspan(0, 0, i0, iN) else Subspan(start, size, i0, iN)
  }

  /** The subspan of a whole span. */
  function Whole(sizes: seq<nat>): Subspan
  {
    Subspan(0, |sizes|, 0, if sizes == [] then 0 else sizes[|sizes| - 1])
  }

  // ----- What a subspan denotes --------------------------------------------------------------

  /** The bytes in the first k buffers. */
  function Before(sizes: seq<nat>, k: nat): nat
    requires k <= |sizes|
  {
    if k == 0 then 0 else Before(sizes, k - 1) + sizes[k - 1]
  }

  function Lo(sizes: seq<nat>, s: Subspan): nat
    requires Valid(sizes, s)
  {
    if s.size == 0 then 0 else Before(sizes, s.start) + s.i0
  }

  function Hi(sizes: seq<nat>, s: Subspan): nat
    requires Valid(sizes, s)
  {
    if s.size == 0 then 0 else Before(sizes, s.start + s.size - 1) + s.iN
  }

  function Length(sizes: seq<nat>, s: Subspan): int
    requires Valid(sizes, s)
  {
    Hi(sizes, s) - Lo(sizes, s)
  }

  /** r stands for the bytes from lo to hi. */
  predicate Denotes(sizes: seq<nat>, r: Subspan, lo: int, hi: int)
  {
    Valid(sizes, r) && if lo == hi then Lo(sizes, r) == Hi(sizes, r) else Lo(sizes, r) == lo && Hi(sizes, r) == hi
  }

  lemma WholeDenotesAll(sizes: seq<nat>)
    ensures Denotes(sizes, Whole(sizes), 0, Before(sizes, |sizes|))
  {}

  function Min(a: int, b: int): int
  {
    if a < b then a else b
  }

  lemma {:induction false} BeforeMonotone(sizes: seq<nat>, j: nat, k: nat)
    requires j <= k <= |sizes|
    ensures Before(sizes, j) <= Before(sizes, k)
    ensures j < k ==> Before(sizes, j) + sizes[j] <= Before(sizes, k)
    decreases k
  {
    if j < k - 1 { BeforeMonotone(sizes, j, k - 1); }
  }

  lemma Ordered(sizes: seq<nat>, s: Subspan)
    requires Valid(sizes, s)
    ensures Lo(sizes, s) <= Hi(sizes, s)
    ensures s.size > 1 ==> sizes[s.start] - s.i0 + s.iN <= Length(sizes, s)
  {
    if s.size > 1 { BeforeMonotone(sizes, s.start, s.start + s.size - 1); }
  }

  // ----- buffer_size -------------------------------------------------------------------------

  method BufferSize(sizes: seq<nat>, s: Subspan) returns (size: nat)
    requires Valid(sizes, s)
    ensures size == Length(sizes, s)
  {
    if s.size == 0 {
      return 0;
    }
    if s.size == 1 {
      return s.iN - s.i0;
    }
    size := sizes[s.start] - s.i0;
    for k := 0 to s.size - 2
      invariant size == Before(sizes, s.start + 1 + k) - Before(sizes, s.start) - s.i0
    {
      size := size + sizes[s.start + 1 + k];
    }
    size := size + s.iN;
  }

  // ----- prefix ------------------------------------------------------------------------------

  /** Among the buffers from j to end: the one in which n bytes end, and how many of them it holds. */
  function FindFrom(sizes: seq<nat>, j: nat, end: nat, n: nat): (r: (nat, nat))
    requires j < end <= |sizes|
    ensures j <= r.0 < end && r.1 <= sizes[r.0]
    decreases end - j
  {
    if n <= sizes[j] then (j, n)
    else if j + 1 == end then (j, sizes[j])
    else FindFrom(sizes, j + 1, end, n - sizes[j])
  }

  /** find_buffer_index_for_n; None where the source reads the last of no buffers. */
  method FindBufferIndexForN(sizes: seq<nat>, first: nat, count: nat, bytes: nat) returns (r: Option<(nat, nat)>)
    requires first + count <= |sizes|
    ensures count == 0 ==> r == None
    ensures count > 0 ==> r.Some? && (first + r.value.0, r.value.1) == FindFrom(sizes, first, first + count, bytes)
    ensures r.Some? ==>
              var (i, rest) := r.value;
              && i < count && rest <= sizes[first + i]
              && Before(sizes, first + i) + rest == Min(Before(sizes, first) + bytes, Before(sizes, first + count))
              && (i > 0 ==> Before(sizes, first + i) < Before(sizes, first) + bytes)
  {
    if count > 0 { FindStopsAt(sizes, first, first + count, bytes); }
    var n := bytes;
    var i := 0;
    while i < count
      invariant i <= count
      invariant i < count ==>
                  FindFrom(sizes, first, first + count, bytes) == FindFrom(sizes, first + i, first + count, n)
      invariant i > 0 && i == count ==>
                  FindFrom(sizes, first, first + count, bytes) == (first + i - 1, sizes[first + i - 1])
    {
      if n <= sizes[first + i] {
        return Some((i, n));
      }
      n := n - sizes[first + i];
      i := i + 1;
    }
    if count == 0 {
      return None;
    }
    return Some((i - 1, sizes[first + count - 1]));
  }

  method Prefix(sizes: seq<nat>, s: Subspan, bytes: nat) returns (r: Option<Subspan>)
    requires Valid(sizes, s)
    ensures r == PrefixOf(sizes, s, bytes)
  {
    if s.size == 0 {
      return Some(s);
    }
    var firstLength := sizes[s.start] - s.i0;
    if bytes <= firstLength {
      return Some(Make(s.start, 1, s.i0, bytes + s.i0));
    }
    var found := FindBufferIndexForN(sizes, s.start + 1, s.size - 1, bytes - firstLength);
    if found == None {
      return None;
    }
    return Some(Make(s.start, found.value.0 + 2, s.i0, found.value.1));
  }

  function PrefixOf(sizes: seq<nat>, s: Subspan, n: nat): Option<Subspan>
    requires Valid(sizes, s)
  {
    if s.size == 0 then Some(s)
    else if n <= sizes[s.start] - s.i0 then Some(Make(s.start, 1, s.i0, n + s.i0))
    else if s.size == 1 then None
    else
      var (j, rest) := FindFrom(sizes, s.start + 1, s.start + s.size, n - (sizes[s.start] - s.i0));
      Some(Make(s.start, j - s.start + 1, s.i0, rest))
  }

  lemma {:induction false} FindStopsAt(sizes: seq<nat>, j: nat, end: nat, n: nat)
    requires j < end <= |sizes|
    ensures var (k, rest) := FindFrom(sizes, j, end, n);
            Before(sizes, k) + rest == Min(Before(sizes, j) + n, Before(sizes, end))
            && (k > j ==> Before(sizes, k) < Before(sizes, j) + n)
    decreases end - j
  {
    BeforeMonotone(sizes, j, end);
    if n > sizes[j] && j + 1 < end { FindStopsAt(sizes, j + 1, end, n - sizes[j]); }
  }

  /** r denotes the first n bytes of s, or all of s. */
  predicate IsPrefix(sizes: seq<nat>, s: Subspan, n: nat, r: Option<Subspan>)
    requires Valid(sizes, s)
  {
    r.Some? && Denotes(sizes, r.value, Lo(sizes, s), Lo(sizes, s) + Min(n, Length(sizes, s)))
  }

  /** prefix(n) denotes the first n bytes, or all of them when there are fewer, if and only if n is no
      more than the subspan's size, or the subspan has at least two buffers and uses all of the last. */
  lemma PrefixIff(sizes: seq<nat>, s: Subspan, n: nat)
    requires Valid(sizes, s)
    ensures IsPrefix(sizes, s, n, PrefixOf(sizes, s, n)) <==>
              s.size == 0 || n <= Length(sizes, s) || (s.size >= 2 && s.iN == sizes[s.start + s.size - 1])
  {
    if s.size >= 2 { PrefixOfMany(sizes, s, n); }
  }

  lemma PrefixOfMany(sizes: seq<nat>, s: Subspan, n: nat)
    requires Valid(sizes, s) && s.size >= 2
    ensures IsPrefix(sizes, s, n, PrefixOf(sizes, s, n)) <==>
              n <= Length(sizes, s) || s.iN == sizes[s.start + s.size - 1]
  {
    Ordered(sizes, s);
    if n > sizes[s.start] - s.i0 { PrefixPastTheFirst(sizes, s, n); }
  }

  lemma PrefixPastTheFirst(sizes: seq<nat>, s: Subspan, n: nat)
    requires Valid(sizes, s) && s.size >= 2 && n > sizes[s.start] - s.i0
    ensures PrefixOf(sizes, s, n).Some? && Valid(sizes, PrefixOf(sizes, s, n).value)
    ensures var p := PrefixOf(sizes, s, n).value;
            p.size > 0 && Lo(sizes, p) == Lo(sizes, s)
            && Hi(sizes, p) == Min(Lo(sizes, s) + n, Before(sizes, s.start + s.size))
  {
    var end, rest := s.start + s.size, n - (sizes[s.start] - s.i0);
    FindStopsAt(sizes, s.start + 1, end, rest);
  }

  /** What prefix(n) denotes, for any n.  It reads the last of no buffers just when n runs past the only buffer;
      otherwise it denotes n bytes from the beginning, as far as the last buffer goes, beyond the subspan if need be.
      The last buffer it uses is needed, and one buffer with nothing of it is never used. */
  lemma PrefixExactly(sizes: seq<nat>, s: Subspan, n: nat)
    requires Valid(sizes, s) && s.size > 0
    ensures PrefixOf(sizes, s, n) == None <==> s.size == 1 && n > sizes[s.start] - s.i0
    ensures PrefixOf(sizes, s, n).Some? ==>
              var p := PrefixOf(sizes, s, n).value;
              && Denotes(sizes, p, Lo(sizes, s), Min(Lo(sizes, s) + n, Before(sizes, s.start + s.size)))
              && (p.size == 1 ==> p.i0 < p.iN)
              && (p.size > 1 ==> Before(sizes, p.start + p.size - 1) < Lo(sizes, s) + n)
  {
    BeforeMonotone(sizes, s.start + 1, s.start + s.size);
    if s.size > 1 && n > sizes[s.start] - s.i0 {
      PrefixPastTheFirst(sizes, s, n);
      FindStopsAt(sizes, s.start + 1, s.start + s.size, n - (sizes[s.start] - s.i0));
    }
  }

  /** Beyond its own size a subspan of one buffer gives away bytes that follow it, and past the end of
      the buffer the search runs over no buffers at all. */
  lemma PrefixBeyondTheSubspan()
    ensures PrefixOf([8], Subspan(0, 1, 0, 4), 6) == Some(Subspan(0, 1, 0, 6))
    ensures PrefixOf([8], Subspan(0, 1, 0, 4), 9) == None
    ensures Length([8], Subspan(0, 1, 0, 4)) == 4
  {}

  // ----- suffix ------------------------------------------------------------------------------

  /** Subtraction of machine words. */
  function Sub(a: nat, b: nat): (r: nat)
    ensures a >= b && a < WORD ==> r == a - b
    ensures r < WORD
  {
    (a - b) % WORD
  }

  /** The rest of suffix once n bytes are wanted from the buffers up to the i-th. */
  function SuffixFrom(sizes: seq<nat>, s: Subspan, i: nat, n: nat): Subspan
    requires Valid(sizes, s) && i < s.size
    decreases i
  {
    if i == 0 then
      var firstLength := sizes[s.start] - s.i0;
      if n <= firstLength then Make(s.start, s.size, s.i0 + firstLength - n, s.iN) else s
    else
      var length := sizes[s.start];
      if n <= length then Make(s.start + i, s.size - i, length - n, length)
      else SuffixFrom(sizes, s, i - 1, Sub(n, sizes[s.start + i]))
  }

  function SuffixOf(sizes: seq<nat>, s: Subspan, n: nat): Subspan
    requires Valid(sizes, s)
  {
    if s.size == 0 then s
    else if s.size == 1 then
      var length := s.iN - s.i0;
      if n <= length then Make(s.start, 1, s.i0 + length - n, s.iN) else Make(s.start, 1, s.i0, s.iN)
    else if n <= s.iN then Make(s.start + s.size - 1, 1, s.iN - n, s.iN)
    else SuffixFrom(sizes, s, s.size - 2, n - s.iN)
  }

  method Suffix(sizes: seq<nat>, s: Subspan, bytes: nat) returns (r: Subspan)
    requires Valid(sizes, s) && bytes < WORD
    ensures r == SuffixOf(sizes, s, bytes)
  {
    if s.size == 0 {
      return s;
    }
    if s.size == 1 {
      var length := s.iN - s.i0;
      if bytes <= length {
        return Make(s.start, 1, s.i0 + length - bytes, s.iN);
      }
      return Make(s.start, 1, s.i0, s.iN);
    }
    if bytes <= s.iN {
      return Make(s.start + s.size - 1, 1, s.iN - bytes, s.iN);
    }
    var n: nat := bytes - s.iN;
    var i := s.size - 2;
    while i > 0
      invariant 0 <= i < s.size
      invariant SuffixOf(sizes, s, bytes) == SuffixFrom(sizes, s, i, n)
    {
      var length := sizes[s.start];
      if n <= length {
        return Make(s.start + i, s.size - i, length - n, length);
      }
      n := Sub(n, sizes[s.start + i]);
      i := i - 1;
    }
    var firstLength := sizes[s.start] - s.i0;
    if n <= firstLength {
      return Make(s.start, s.size, s.i0 + firstLength - n, s.iN);
    }
    return s;
  }

  /** The shape suffix is written for: every buffer between the first and the last is as long as the
      first, and so is what is used of the last. */
  predicate Even(sizes: seq<nat>, s: Subspan)
    requires Valid(sizes, s)
  {
    s.size > 0 ==>
      && s.iN == sizes[s.start]
      && forall j | s.start < j < s.start + s.size - 1 :: sizes[j] == sizes[s.start]
  }

  /** r denotes the last n bytes of s, or all of s. */
  predicate IsSuffix(sizes: seq<nat>, s: Subspan, n: nat, r: Subspan)
    requires Valid(sizes, s)
  {
    Denotes(sizes, r, Hi(sizes, s) - Min(n, Length(sizes, s)), Hi(sizes, s))
  }

  /** Where a suffix begins that takes n bytes from the buffers up to the i-th, or all of them. */
  function BeginsAt(sizes: seq<nat>, s: Subspan, i: nat, n: nat): int
    requires Valid(sizes, s) && i < s.size
  {
    var end := Before(sizes, s.start + i + 1);
    if n <= end - Lo(sizes, s) then end - n else Lo(sizes, s)
  }

  lemma FirstBufferRight(sizes: seq<nat>, s: Subspan, n: nat)
    requires Valid(sizes, s) && s.size >= 2
    ensures Denotes(sizes, SuffixFrom(sizes, s, 0, n), BeginsAt(sizes, s, 0, n), Hi(sizes, s))
  {
    Ordered(sizes, s);
    BeforeMonotone(sizes, s.start + 1, s.start + s.size - 1);
  }

  lemma MiddleBufferRight(sizes: seq<nat>, s: Subspan, i: nat, n: nat)
    requires Valid(sizes, s) && 0 < i < s.size - 1 && n <= sizes[s.start]
    requires sizes[s.start + i] == sizes[s.start] == s.iN
    ensures Denotes(sizes, SuffixFrom(sizes, s, i, n), BeginsAt(sizes, s, i, n), Hi(sizes, s))
  {
    BeforeMonotone(sizes, s.start, s.start + i);
    BeforeMonotone(sizes, s.start + i + 1, s.start + s.size - 1);
  }

  lemma NextBuffer(sizes: seq<nat>, s: Subspan, i: nat, n: nat)
    requires Valid(sizes, s) && 0 < i < s.size - 1 && sizes[s.start] < n < WORD && sizes[s.start + i] <= n
    ensures SuffixFrom(sizes, s, i, n) == SuffixFrom(sizes, s, i - 1, n - sizes[s.start + i])
    ensures BeginsAt(sizes, s, i, n) == BeginsAt(sizes, s, i - 1, n - sizes[s.start + i])
  {}

  /** In the loop: n bytes are still wanted from the buffers up to the i-th. */
  lemma {:induction false} SuffixFromRight(sizes: seq<nat>, s: Subspan, i: nat, n: nat)
    requires Valid(sizes, s) && s.size >= 2 && i < s.size - 1 && n < WORD && (i > 0 ==> Even(sizes, s))
    ensures Denotes(sizes, SuffixFrom(sizes, s, i, n), BeginsAt(sizes, s, i, n), Hi(sizes, s))
    decreases i
  {
    if i == 0 {
      FirstBufferRight(sizes, s, n);
    } else if n <= sizes[s.start] {
      MiddleBufferRight(sizes, s, i, n);
    } else {
      NextBuffer(sizes, s, i, n);
      SuffixFromRight(sizes, s, i - 1, n - sizes[s.start]);
    }
  }

  /** suffix(n) denotes the last n bytes, or all, for any n if there are at most two buffers, and for
      any number of buffers of the even shape. */
  lemma SuffixRight(sizes: seq<nat>, s: Subspan, n: nat)
    requires Valid(sizes, s) && n < WORD && (s.size <= 2 || Even(sizes, s))
    ensures IsSuffix(sizes, s, n, SuffixOf(sizes, s, n))
  {
    if s.size >= 2 { SuffixOfMany(sizes, s, n); }
  }

  lemma SuffixOfMany(sizes: seq<nat>, s: Subspan, n: nat)
    requires Valid(sizes, s) && n < WORD && s.size >= 2 && (s.size == 2 || Even(sizes, s))
    ensures IsSuffix(sizes, s, n, SuffixOf(sizes, s, n))
  {
    Ordered(sizes, s);
    if n > s.iN { SuffixFromRight(sizes, s, s.size - 2, n - s.iN); }
  }

  // ----- suffix of three or more buffers, exactly ----------------------------------------------

  /** How many bytes s shows of the buffers up to the j-th. */
  function ShownTo(sizes: seq<nat>, s: Subspan, j: nat): int
    requires Valid(sizes, s) && s.size > 0 && s.start <= j < s.start + s.size - 1
  {
    Before(sizes, j + 1) - Lo(sizes, s)
  }

  /** The shape for a first buffer that is not empty: wherever there is a byte to show, the buffer is as
      long as the first, and so is what is used of the last. */
  predicate EvenWhereShown(sizes: seq<nat>, s: Subspan)
    requires Valid(sizes, s) && s.size >= 3
  {
    && (ShownTo(sizes, s, s.start + s.size - 2) > 0 ==> s.iN == sizes[s.start])
    && (forall j | s.start < j < s.start + s.size - 1 :: ShownTo(sizes, s, j) > 0 ==> sizes[j] == sizes[s.start])
  }

  /** The shape for an empty first buffer: no buffer between longer than one byte, and one that has a byte,
      except the first of them, is preceded by an empty one and nothing of the last buffer is used. */
  predicate OnesAtMost(sizes: seq<nat>, s: Subspan)
    requires Valid(sizes, s) && s.size >= 3
  {
    forall j | s.start < j < s.start + s.size - 1 ::
      sizes[j] <= 1 && (sizes[j] == 1 && j > s.start + 1 ==> s.iN == 0 && sizes[j - 1] == 0)
  }

  /** The exact shape suffix is right for. */
  predicate SuffixShape(sizes: seq<nat>, s: Subspan)
    requires Valid(sizes, s) && s.size >= 3
  {
    if sizes[s.start] > 0 then EvenWhereShown(sizes, s) else OnesAtMost(sizes, s)
  }

  lemma ShownAt(sizes: seq<nat>, s: Subspan, i: nat, n: nat)
    requires Valid(sizes, s) && s.size >= 3 && 0 < i < s.size - 1 && EvenWhereShown(sizes, s)
    requires 0 < n <= ShownTo(sizes, s, s.start + i)
    ensures sizes[s.start + i] == sizes[s.start] == s.iN
    ensures n - sizes[s.start + i] <= ShownTo(sizes, s, s.start + i - 1)
  {
    BeforeMonotone(sizes, s.start + i + 1, s.start + s.size - 1);
  }

  lemma {:induction false} EvenWhereShownRight(sizes: seq<nat>, s: Subspan, i: nat, n: nat)
    requires Valid(sizes, s) && s.size >= 3 && i < s.size - 1 && EvenWhereShown(sizes, s)
    requires 0 < n <= ShownTo(sizes, s, s.start + i) && n < WORD
    ensures Denotes(sizes, SuffixFrom(sizes, s, i, n), BeginsAt(sizes, s, i, n), Hi(sizes, s))
    decreases i
  {
    if i == 0 {
      FirstBufferRight(sizes, s, n);
    } else {
      var length := sizes[s.start + i];
      ShownAt(sizes, s, i, n);
      if n <= length {
        MiddleBufferRight(sizes, s, i, n);
      } else {
        NextBuffer(sizes, s, i, n);
        EvenWhereShownRight(sizes, s, i - 1, n - length);
      }
    }
  }

  lemma {:induction false} OnesAtMostRight(sizes: seq<nat>, s: Subspan, i: nat, n: nat)
    requires Valid(sizes, s) && s.size >= 3 && i < s.size - 1 && OnesAtMost(sizes, s) && sizes[s.start] == 0
    requires 0 < n <= ShownTo(sizes, s, s.start + i) && n < WORD
    ensures Denotes(sizes, SuffixFrom(sizes, s, i, n), BeginsAt(sizes, s, i, n), Hi(sizes, s))
    decreases i
  {
    assert i > 0 && sizes[s.start + i] <= 1;
    NextBuffer(sizes, s, i, n);
    if n > sizes[s.start + i] {
      OnesAtMostRight(sizes, s, i - 1, n - sizes[s.start + i]);
    } else if i == 1 {
      FirstBufferRight(sizes, s, 0);
    } else {
      NothingLeftRight(sizes, s, i - 1);
    }
  }

  /** In an empty buffer before a last one of which nothing is used. */
  lemma NothingLeftRight(sizes: seq<nat>, s: Subspan, i: nat)
    requires Valid(sizes, s) && 0 < i < s.size - 1 && sizes[s.start] == sizes[s.start + i] == s.iN == 0
    ensures Denotes(sizes, SuffixFrom(sizes, s, i, 0), BeginsAt(sizes, s, i, 0), Hi(sizes, s))
  {
    MiddleBufferRight(sizes, s, i, 0);
  }

  /** While the buffers after the i-th are as long as the first, the loop walks on to the i-th. */
  lemma {:induction false} WalksTo(sizes: seq<nat>, s: Subspan, i: nat, k: nat, n: nat)
    requires Valid(sizes, s) && i <= k < s.size - 1 && n < WORD
    requires forall j | s.start + i < j <= s.start + k :: sizes[j] == sizes[s.start]
    requires n == Before(sizes, s.start + k + 1) - Before(sizes, s.start + i + 1) + 1
    ensures SuffixFrom(sizes, s, k, n) == SuffixFrom(sizes, s, i, 1)
    decreases k
  {
    if k > i {
      BeforeMonotone(sizes, s.start + i + 1, s.start + k);
      WalksTo(sizes, s, i, k - 1, n - sizes[s.start]);
    }
  }

  /** The shortest suffix that reaches into buffer i. */
  function Reach(sizes: seq<nat>, s: Subspan, i: nat): nat
    requires Valid(sizes, s) && 0 < i < s.size - 1
  {
    BeforeMonotone(sizes, s.start + i + 1, s.start + s.size - 1);
    s.iN + Before(sizes, s.start + s.size - 1) - Before(sizes, s.start + i + 1) + 1
  }

  lemma ReachInBounds(sizes: seq<nat>, s: Subspan, i: nat)
    requires Valid(sizes, s) && 0 < i < s.size - 1 && ShownTo(sizes, s, s.start + i) > 0
    ensures s.iN < Reach(sizes, s, i) <= Length(sizes, s)
  {
    BeforeMonotone(sizes, s.start + i + 1, s.start + s.size - 1);
  }

  predicate AlwaysRight(sizes: seq<nat>, s: Subspan)
    requires Valid(sizes, s)
  {
    forall n: nat | n <= Length(sizes, s) :: IsSuffix(sizes, s, n, SuffixOf(sizes, s, n))
  }

  /** With a first buffer that is not empty. */
  lemma NeedsTheMiddle(sizes: seq<nat>, s: Subspan, i: nat)
    requires Valid(sizes, s) && 0 < i < s.size - 1 && sizes[s.start] > 0
    requires ShownTo(sizes, s, s.start + i) > 0 && Length(sizes, s) < WORD && AlwaysRight(sizes, s)
    requires forall j | s.start + i < j < s.start + s.size - 1 :: sizes[j] == sizes[s.start]
    ensures sizes[s.start + i] == sizes[s.start] == s.iN
  {
    var n := Reach(sizes, s, i);
    ReachInBounds(sizes, s, i);
    WalksTo(sizes, s, i, s.size - 2, n - s.iN);
    assert SuffixOf(sizes, s, n) == SuffixFrom(sizes, s, i, 1);
    assert IsSuffix(sizes, s, n, SuffixFrom(sizes, s, i, 1));
  }

  lemma {:induction false} NeedsEveryMiddle(sizes: seq<nat>, s: Subspan, i: nat)
    requires Valid(sizes, s) && 0 < i < s.size - 1 && Length(sizes, s) < WORD && sizes[s.start] > 0
    requires AlwaysRight(sizes, s)
    ensures forall j | s.start + i <= j < s.start + s.size - 1 ::
              ShownTo(sizes, s, j) > 0 ==> sizes[j] == sizes[s.start] == s.iN
    decreases s.size - i
  {
    if i < s.size - 2 { NeedsEveryMiddle(sizes, s, i + 1); }
    if ShownTo(sizes, s, s.start + i) > 0 {
      forall j | s.start + i < j < s.start + s.size - 1 ensures sizes[j] == sizes[s.start] {
        BeforeMonotone(sizes, s.start + i + 1, j + 1);
        assert ShownTo(sizes, s, j) > 0;
      }
      NeedsTheMiddle(sizes, s, i);
    }
  }

  /** With an empty first buffer the loop walks on to the i-th without a condition. */
  lemma {:induction false} WalksOver(sizes: seq<nat>, s: Subspan, i: nat, k: nat, n: nat)
    requires Valid(sizes, s) && i <= k < s.size - 1 && n < WORD && sizes[s.start] == 0
    requires n == Before(sizes, s.start + k + 1) - Before(sizes, s.start + i + 1) + 1
    ensures SuffixFrom(sizes, s, k, n) == SuffixFrom(sizes, s, i, 1)
    decreases k
  {
    if k > i {
      BeforeMonotone(sizes, s.start + i + 1, s.start + k);
      WalksOver(sizes, s, i, k - 1, n - sizes[s.start + k]);
    }
  }

  /** A count that has wrapped is never met, and the whole subspan is returned. */
  lemma {:induction false} FallsThrough(sizes: seq<nat>, s: Subspan, i: nat, n: nat)
    requires Valid(sizes, s) && i < s.size && sizes[s.start] == 0
    requires Before(sizes, s.start + i + 1) - Before(sizes, s.start) < n < WORD
    ensures SuffixFrom(sizes, s, i, n) == s
    decreases i
  {
    if i > 0 {
      BeforeMonotone(sizes, s.start, s.start + i);
      FallsThrough(sizes, s, i - 1, n - sizes[s.start + i]);
    }
  }

  lemma TooLongFails(sizes: seq<nat>, s: Subspan, i: nat)
    requires Valid(sizes, s) && 0 < i < s.size - 1 && sizes[s.start] == 0 && Length(sizes, s) < WORD
    requires sizes[s.start + i] > 1
    ensures SuffixFrom(sizes, s, i, 1) == s && !IsSuffix(sizes, s, Reach(sizes, s, i), s)
  {
    var huge := Sub(1, sizes[s.start + i]);
    BeforeMonotone(sizes, s.start, s.start + i);
    BeforeMonotone(sizes, s.start + i + 1, s.start + s.size - 1);
    assert huge == WORD + 1 - sizes[s.start + i];
    FallsThrough(sizes, s, i - 1, huge);
  }

  lemma OneNeedsNothing(sizes: seq<nat>, s: Subspan, i: nat)
    requires Valid(sizes, s) && 1 < i < s.size - 1 && sizes[s.start] == 0 && sizes[s.start + i] == 1
    requires IsSuffix(sizes, s, Reach(sizes, s, i), SuffixFrom(sizes, s, i, 1))
    ensures s.iN == 0 && sizes[s.start + i - 1] == 0
  {
    BeforeMonotone(sizes, s.start, s.start + i);
    BeforeMonotone(sizes, s.start + i + 1, s.start + s.size - 1);
    assert SuffixFrom(sizes, s, i, 1) == SuffixFrom(sizes, s, i - 1, 0);
  }

  lemma NeedsOnes(sizes: seq<nat>, s: Subspan, j: nat)
    requires Valid(sizes, s) && s.start < j < s.start + s.size - 1 && sizes[s.start] == 0
    requires Length(sizes, s) < WORD && AlwaysRight(sizes, s)
    ensures sizes[j] <= 1 && (sizes[j] == 1 && j > s.start + 1 ==> s.iN == 0 && sizes[j - 1] == 0)
  {
    if sizes[j] > 0 {
      var i := j - s.start;
      var n := Reach(sizes, s, i);
      BeforeMonotone(sizes, s.start, j);
      ReachInBounds(sizes, s, i);
      WalksOver(sizes, s, i, s.size - 2, n - s.iN);
      assert SuffixOf(sizes, s, n) == SuffixFrom(sizes, s, i, 1);
      if sizes[j] > 1 { TooLongFails(sizes, s, i); }
      else if i > 1 { OneNeedsNothing(sizes, s, i); }
    }
  }

  lemma ShapeIsRight(sizes: seq<nat>, s: Subspan, n: nat)
    requires Valid(sizes, s) && s.size >= 3 && n <= Length(sizes, s) < WORD && SuffixShape(sizes, s)
    ensures IsSuffix(sizes, s, n, SuffixOf(sizes, s, n))
  {
    Ordered(sizes, s);
    if n > s.iN {
      if sizes[s.start] > 0 { EvenWhereShownRight(sizes, s, s.size - 2, n - s.iN); }
      else { OnesAtMostRight(sizes, s, s.size - 2, n - s.iN); }
    }
  }

  /** Of three or more buffers suffix(n) denotes the last n bytes for every n up to the size of the
      subspan if and only if they have the suffix shape. */
  lemma SuffixRightIff(sizes: seq<nat>, s: Subspan)
    requires Valid(sizes, s) && s.size >= 3 && Length(sizes, s) < WORD
    ensures AlwaysRight(sizes, s) <==> SuffixShape(sizes, s)
  {
    if SuffixShape(sizes, s) {
      forall n: nat | n <= Length(sizes, s) { ShapeIsRight(sizes, s, n); }
    }
    if AlwaysRight(sizes, s) {
      if sizes[s.start] > 0 {
        NeedsEveryMiddle(sizes, s, 1);
      } else {
        forall j | s.start < j < s.start + s.size - 1 { NeedsOnes(sizes, s, j); }
      }
    }
  }

  /** When none of the buffers but the last is empty, that is the even shape. */
  lemma ShapeOfNonEmpty(sizes: seq<nat>, s: Subspan)
    requires Valid(sizes, s) && s.size >= 3
    requires forall j | s.start <= j < s.start + s.size - 1 :: sizes[j] > 0
    ensures SuffixShape(sizes, s) <==> Even(sizes, s)
  {
    forall j | s.start < j < s.start + s.size - 1 ensures ShownTo(sizes, s, j) > 0 {
      BeforeMonotone(sizes, s.start + 1, j);
    }
  }

  /** How many bytes the loop of suffix still wants when it comes to the i-th buffer, in a machine word. */
  function Wanted(sizes: seq<nat>, s: Subspan, n: nat, i: nat): nat
    requires Valid(sizes, s) && s.size >= 2 && i < s.size - 1
  {
    (n - s.iN - (Before(sizes, s.start + s.size - 1) - Before(sizes, s.start + i + 1))) % WORD
  }

  lemma WantedNext(sizes: seq<nat>, s: Subspan, n: nat, i: nat)
    requires Valid(sizes, s) && s.size >= 2 && 0 < i < s.size - 1
    ensures Wanted(sizes, s, n, i - 1) == Sub(Wanted(sizes, s, n, i), sizes[s.start + i])
  {
    SubOfRest(n - s.iN - (Before(sizes, s.start + s.size - 1) - Before(sizes, s.start + i + 1)), sizes[s.start + i]);
  }

  lemma SubOfRest(a: int, b: nat)
    ensures (a - b) % WORD == (a % WORD - b) % WORD
  {}

  lemma {:induction false} LoopStopsAt(sizes: seq<nat>, s: Subspan, n: nat, i: nat, j: nat)
    requires Valid(sizes, s) && s.size >= 2 && j <= i < s.size - 1
    requires j > 0 ==> Wanted(sizes, s, n, j) <= sizes[s.start]
    requires forall k | j < k <= i :: Wanted(sizes, s, n, k) > sizes[s.start]
    ensures SuffixFrom(sizes, s, i, Wanted(sizes, s, n, i)) == SuffixFrom(sizes, s, j, Wanted(sizes, s, n, j))
    decreases i
  {
    if i > j {
      assert Wanted(sizes, s, n, i) > sizes[s.start];
      WantedNext(sizes, s, n, i);
      LoopStopsAt(sizes, s, n, i - 1, j);
    }
  }

  /** What suffix(n) is for any buffers, right or wrong, when n bytes are more than is used of the last: the loop
      stops at the last buffer j for which no more is wanted than the FIRST buffer is long, or at the first. */
  lemma SuffixExactly(sizes: seq<nat>, s: Subspan, n: nat, j: nat)
    requires Valid(sizes, s) && s.size >= 2 && s.iN < n < WORD && j < s.size - 1
    requires j > 0 ==> Wanted(sizes, s, n, j) <= sizes[s.start]
    requires forall k | j < k < s.size - 1 :: Wanted(sizes, s, n, k) > sizes[s.start]
    ensures var first, wanted := sizes[s.start], Wanted(sizes, s, n, j);
            SuffixOf(sizes, s, n) == if j > 0 then Make(s.start + j, s.size - j, first - wanted, first)
                                     else if wanted <= first - s.i0 then Make(s.start, s.size, first - wanted, s.iN)
                                     else s
  {
    assert Wanted(sizes, s, n, s.size - 2) == n - s.iN;
    LoopStopsAt(sizes, s, n, s.size - 2, j);
  }

  /** Three buffers of 2, 3 and 3 bytes: the last 4 bytes are taken for bytes 1.. of the second buffer
      and the first 2 of the third. */
  lemma UnevenSuffixFails()
    ensures SuffixOf([2, 3, 3], Whole([2, 3, 3]), 4) == Subspan(1, 2, 1, 2)
    ensures !IsSuffix([2, 3, 3], Whole([2, 3, 3]), 4, SuffixOf([2, 3, 3], Whole([2, 3, 3]), 4))
  {
    assert Before([2, 3, 3], 1) == 2;
    assert Before([2, 3, 3], 2) == 5;
  }

  // ----- The bytes themselves ----------------------------------------------------------------

  predicate AreSizes<T>(buffers: seq<seq<T>>, sizes: seq<nat>)
  {
    |sizes| == |buffers| && forall k | 0 <= k < |buffers| :: sizes[k] == |buffers[k]|
  }

  /** The bytes a subspan shows, read buffer by buffer. */
  function View<T>(buffers: seq<seq<T>>, sizes: seq<nat>, s: Subspan): seq<T>
    requires AreSizes(buffers, sizes) && Valid(sizes, s)
  {
    if s.size == 0 then [] else Read(buffers, sizes, s.start, s.start + s.size - 1, s.i0, s.iN)
  }

  function Read<T>(buffers: seq<seq<T>>, sizes: seq<nat>, first: nat, last: nat, i: nat, j: nat): seq<T>
    requires AreSizes(buffers, sizes) && first <= last < |sizes| && i <= sizes[first] && j <= sizes[last]
    requires first == last ==> i <= j
    decreases last - first
  {
    if first == last then buffers[first][i..j]
    else buffers[first][i..sizes[first]] + Read(buffers, sizes, first + 1, last, 0, j)
  }

  /** The bytes from lo to hi of all buffers laid end to end. */
  ghost predicate Interval<T>(bytes: seq<T>, flat: seq<T>, lo: int, hi: int)
  {
    0 <= lo <= hi <= |flat| && bytes == Piece(flat, lo, hi)
  }

  lemma SliceOfSlice<T>(flat: seq<T>, a: nat, b: nat, i: nat, j: nat)
    requires a <= b <= |flat| && i <= j <= b - a
    ensures flat[a..b][i..j] == flat[a + i..a + j]
  {
    var part := flat[a..b];
    assert forall k | 0 <= k < j - i :: part[i..j][k] == part[i + k] == flat[a + i + k] == flat[a + i..a + j][k];
  }

  lemma MiddleOfThree<T>(a: seq<T>, b: seq<T>, c: seq<T>)
    ensures Interval(b, a + b + c, |a|, |a| + |b|)
  {}

  lemma {:induction false} BeforeIsLength<T>(buffers: seq<seq<T>>, sizes: seq<nat>, k: nat)
    requires AreSizes(buffers, sizes) && k <= |buffers|
    ensures |Concat(buffers[..k])| == Before(sizes, k)
  {
    if k > 0 {
      BeforeIsLength(buffers, sizes, k - 1);
      ConcatSplit(buffers[..k], k - 1);
      assert buffers[..k][..k - 1] == buffers[..k - 1];
      assert buffers[..k][k - 1..] == [buffers[k - 1]];
      ConcatOne(buffers[k - 1]);
    }
  }

  /** A buffer is an interval of all the bytes. */
  lemma WholeBuffer<T>(buffers: seq<seq<T>>, sizes: seq<nat>, k: nat)
    requires AreSizes(buffers, sizes) && k < |buffers|
    ensures Interval(buffers[k], Concat(buffers), Before(sizes, k), Before(sizes, k + 1))
  {
    var tail := buffers[k..];
    BeforeIsLength(buffers, sizes, k);
    ConcatSplit(buffers, k);
    assert Concat(tail) == buffers[k] + Concat(tail[1..]);
    MiddleOfThree(Concat(buffers[..k]), buffers[k], Concat(tail[1..]));
    assert Concat(buffers) == Concat(buffers[..k]) + buffers[k] + Concat(tail[1..]);
  }

  /** So is part of a buffer. */
  lemma PartOfBuffer<T>(buffers: seq<seq<T>>, sizes: seq<nat>, k: nat, i: nat, j: nat)
    requires AreSizes(buffers, sizes) && k < |buffers| && i <= j <= sizes[k]
    ensures Interval(buffers[k][i..j], Concat(buffers), Before(sizes, k) + i, Before(sizes, k) + j)
  {
    var buffer := buffers[k];
    WholeBuffer(buffers, sizes, k);
    PartOfInterval(buffer, Concat(buffers), Before(sizes, k), Before(sizes, k + 1), i, j);
  }

  lemma ConcatOne<T>(part: seq<T>)
    ensures Concat([part]) == part
  {
    assert [part][1..] == [];
  }

  lemma PartOfInterval<T>(whole: seq<T>, flat: seq<T>, lo: int, hi: int, i: nat, j: nat)
    requires Interval(whole, flat, lo, hi) && i <= j <= hi - lo
    ensures Interval(whole[i..j], flat, lo + i, lo + j)
  {
    SliceOfSlice(flat, lo, hi, i, j);
  }

  /** The bytes from lo to hi. */
  function Piece<T>(flat: seq<T>, lo: int, hi: int): seq<T>
    requires 0 <= lo <= hi <= |flat|
  {
    flat[lo..hi]
  }

  lemma TwoInARow<T>(whole: seq<T>, x: seq<T>, y: seq<T>, flat: seq<T>, a: int, b: int, c: int)
    requires whole == x + y && Interval(x, flat, a, b) && Interval(y, flat, b, c)
    ensures Interval(whole, flat, a, c)
  {}

  lemma {:induction false} ReadIsInterval<T>(
      buffers: seq<seq<T>>, sizes: seq<nat>, first: nat, last: nat, i: nat, j: nat)
    requires AreSizes(buffers, sizes) && first <= last < |sizes| && i <= sizes[first] && j <= sizes[last]
    requires first == last ==> i <= j
    ensures Interval(Read(buffers, sizes, first, last, i, j), Concat(buffers),
                     Before(sizes, first) + i, Before(sizes, last) + j)
    decreases last - first
  {
    if first == last {
      PartOfBuffer(buffers, sizes, first, i, j);
    } else {
      ReadIsInterval(buffers, sizes, first + 1, last, 0, j);
      ReadOneMore(buffers, sizes, first, last, i, j, Concat(buffers));
    }
  }

  lemma ReadOneMore<T>(
      buffers: seq<seq<T>>, sizes: seq<nat>, first: nat, last: nat, i: nat, j: nat, flat: seq<T>)
    requires AreSizes(buffers, sizes) && first < last < |sizes| && i <= sizes[first] && j <= sizes[last]
    requires flat == Concat(buffers)
    requires Interval(Read(buffers, sizes, first + 1, last, 0, j), flat, Before(sizes, first + 1), Before(sizes, last) + j)
    ensures Interval(Read(buffers, sizes, first, last, i, j), flat, Before(sizes, first) + i, Before(sizes, last) + j)
  {
    PartOfBuffer(buffers, sizes, first, i, sizes[first]);
    TwoInARow(Read(buffers, sizes, first, last, i, j), buffers[first][i..sizes[first]],
      Read(buffers, sizes, first + 1, last, 0, j), flat,
      Before(sizes, first) + i, Before(sizes, first + 1), Before(sizes, last) + j);
  }

  /** Reading a subspan buffer by buffer gives the interval it denotes. */
  lemma ViewIsInterval<T>(buffers: seq<seq<T>>, sizes: seq<nat>, s: Subspan)
    requires AreSizes(buffers, sizes) && Valid(sizes, s)
    ensures Interval(View(buffers, sizes, s), Concat(buffers), Lo(sizes, s), Hi(sizes, s))
  {
    if s.size > 0 { ReadIsInterval(buffers, sizes, s.start, s.start + s.size - 1, s.i0, s.iN); }
  }

  lemma IntervalOfInterval<T>(whole: seq<T>, part: seq<T>, flat: seq<T>, lo: int, hi: int, j: nat, k: nat)
    requires Interval(whole, flat, lo, hi) && j <= k <= hi - lo
    requires if j == k then part == [] else Interval(part, flat, lo + j, lo + k)
    ensures |whole| == hi - lo && part == whole[j..k]
  {
    SliceOfSlice(flat, lo, hi, j, k);
  }

  lemma DenotedView<T>(buffers: seq<seq<T>>, sizes: seq<nat>, s: Subspan, r: Subspan, j: nat, k: nat)
    requires AreSizes(buffers, sizes) && Valid(sizes, s) && j <= k <= Length(sizes, s)
    requires Denotes(sizes, r, Lo(sizes, s) + j, Lo(sizes, s) + k)
    ensures |View(buffers, sizes, s)| == Length(sizes, s)
    ensures View(buffers, sizes, r) == View(buffers, sizes, s)[j..k]
  {
    ViewIsInterval(buffers, sizes, s);
    ViewIsInterval(buffers, sizes, r);
    var whole, part := View(buffers, sizes, s), View(buffers, sizes, r);
    IntervalOfInterval(whole, part, Concat(buffers), Lo(sizes, s), Hi(sizes, s), j, k);
  }

  /** prefix(n) shows the first n bytes, for any buffers and any n up to the size. */
  lemma PrefixIsTake<T>(buffers: seq<seq<T>>, sizes: seq<nat>, s: Subspan, n: nat)
    requires AreSizes(buffers, sizes) && Valid(sizes, s) && n <= Length(sizes, s)
    ensures |View(buffers, sizes, s)| == Length(sizes, s)
    ensures var p := PrefixOf(sizes, s, n);
            p.Some? && Valid(sizes, p.value) && View(buffers, sizes, p.value) == View(buffers, sizes, s)[..n]
  {
    PrefixIff(sizes, s, n);
    DenotedView(buffers, sizes, s, PrefixOf(sizes, s, n).value, 0, n);
  }

  predicate InShape(sizes: seq<nat>, s: Subspan)
    requires Valid(sizes, s)
  {
    s.size <= 2 || SuffixShape(sizes, s)
  }

  /** suffix(n) shows the last n bytes, for two buffers or less and for the suffix shape. */
  lemma SuffixIsDrop<T>(buffers: seq<seq<T>>, sizes: seq<nat>, s: Subspan, n: nat)
    requires AreSizes(buffers, sizes) && Valid(sizes, s) && n <= Length(sizes, s) < WORD && InShape(sizes, s)
    ensures |View(buffers, sizes, s)| == Length(sizes, s)
    ensures var q := SuffixOf(sizes, s, n);
            Valid(sizes, q) && View(buffers, sizes, q) == View(buffers, sizes, s)[Length(sizes, s) - n..]
  {
    var total := Length(sizes, s);
    if s.size <= 2 { SuffixRight(sizes, s, n); } else { ShapeIsRight(sizes, s, n); }
    DenotedView(buffers, sizes, s, SuffixOf(sizes, s, n), total - n, total);
  }

  /** prefix(k) followed by suffix(total - k) is the whole. */
  lemma PrefixThenSuffix<T>(buffers: seq<seq<T>>, sizes: seq<nat>, s: Subspan, k: nat)
    requires AreSizes(buffers, sizes) && Valid(sizes, s) && k <= Length(sizes, s) < WORD && InShape(sizes, s)
    ensures var p := PrefixOf(sizes, s, k);
            var q := SuffixOf(sizes, s, Length(sizes, s) - k);
            && p.Some? && Valid(sizes, p.value) && Valid(sizes, q)
            && View(buffers, sizes, p.value) + View(buffers, sizes, q) == View(buffers, sizes, s)
  {
    PrefixIsTake(buffers, sizes, s, k);
    SuffixIsDrop(buffers, sizes, s, Length(sizes, s) - k);
    TakeThenDrop(View(buffers, sizes, s), k);
  }

  lemma TakeThenDrop<T>(v: seq<T>, k: nat)
    requires k <= |v|
    ensures v[..k] + v[k..] == v
  {}
}
