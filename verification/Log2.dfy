/** log2_64 of source/sio/memory_pool.cpp: bit smear, De Bruijn multiplication and a table of 64
    entries, proved equal to the floor of the binary logarithm.  uint64_t is bv64. */
module Log2 {
  const MAGIC: bv64 := 0x07EDD5E59A4E28C2

  const TAB64: seq<nat> :=
    [63, 0, 58, 1, 59, 47, 53, 2, 60, 39, 48, 27, 54, 33, 42, 3, 61, 51, 37, 40, 49, 18] +
    [28, 20, 55, 30, 34, 11, 43, 14, 22, 4, 62, 57, 46, 52, 38, 26, 32, 41, 50, 36, 17, 19] +
    [29, 10, 13, 21, 56, 45, 25, 31, 35, 16, 9, 12, 44, 24, 15, 8, 23, 7, 6, 5]

  // ----- The program -------------------------------------------------------------------------

  /** s is a run of ones from its top bit down to bit 0. */
  predicate Run(s: bv64)
  {
    s & 1 == 1 && s & (s >> 1) == s >> 1
  }

  /** s is the run of ones from the highest bit of value down to bit 0. */
  predicate Covers(s: bv64, value: bv64)
  {
    Run(s) && value & s == value && value & (s ^ (s >> 1)) != 0
  }

  method SmearDown(value: bv64) returns (v: bv64)
    ensures value != 0 ==> Covers(v, value)
    ensures value == 0 ==> v == 0
  {
    v := value;
    v := v | (v >> 1);
    v := v | (v >> 2);
    v := v | (v >> 4);
    v := v | (v >> 8);
    v := v | (v >> 16);
    v := v | (v >> 32);
  }

  function Slot(p: bv64): (i: bv64)
    ensures i < 64
  {
    (p * MAGIC) >> 58
  }

  function Exponent(p: bv64): nat
  {
    TAB64[Slot(p) as int]
  }

  method LookUp(top: bv64) returns (r: nat)
    requires top == 0 || OneHot(top)
    ensures OneHot(top) ==> r == FloorLog2(top)
    ensures top == 0 ==> r == 63
  {
    r := TAB64[Slot(top) as int];
    if top == 0 {
      SlotOfZero();
    } else {
      FloorOfPower(top);
    }
  }

  lemma SlotOfZero()
    ensures Exponent(0) == 63
  {}

  method Log2Of64(value: bv64) returns (r: nat)
    ensures value != 0 ==> r == FloorLog2(value)
    ensures value == 0 ==> r == 63
  {
    var v := SmearDown(value);
    if value != 0 { TopOfRun(v); }
    r := LookUp(v - (v >> 1));
    if value != 0 { SameFloor(v, value); }
  }

  // ----- The reference -----------------------------------------------------------------------

  function FloorLog2(v: bv64): nat
    decreases v
  {
    if v <= 1 then 0 else Halves(v); 1 + FloorLog2(v >> 1)
  }

  lemma Halves(v: bv64)
    requires v > 1
    ensures 0 < v >> 1 < v
  {}

  // ----- The smear isolates the top bit ------------------------------------------------------

  predicate OneHot(q: bv64)
  {
    q != 0 && q & (q - 1) == 0
  }

  lemma TopOfRun(s: bv64)
    requires Run(s)
    ensures s - (s >> 1) == s ^ (s >> 1) && OneHot(s ^ (s >> 1))
  {}

  lemma RunLow(s: bv64)
    requires Run(s) && s != 1
    ensures s & 2 == 2 && Run(s >> 1)
  {}

  lemma ShiftXor(s: bv64)
    ensures (s >> 1) ^ (s >> 1 >> 1) == (s ^ (s >> 1)) >> 1
  {}

  lemma HalveCovered(s: bv64, value: bv64)
    requires value & s == value && value & (s ^ (s >> 1)) != 0 && s & 3 == 3
    ensures (value >> 1) & (s >> 1) == value >> 1 && (value >> 1) & ((s ^ (s >> 1)) >> 1) != 0
  {}

  lemma MoreThanOne(s: bv64, value: bv64)
    requires value & (s ^ (s >> 1)) != 0 && s & 3 == 3
    ensures value > 1 && s ^ (s >> 1) > 1
  {}

  lemma HalveRun(s: bv64, value: bv64)
    requires Covers(s, value) && s != 1
    ensures Covers(s >> 1, value >> 1) && value > 1 && s ^ (s >> 1) > 1
    ensures (s >> 1) ^ (s >> 1 >> 1) == (s ^ (s >> 1)) >> 1
  {
    RunLow(s);
    LowBits(s);
    ShiftXor(s);
    HalveCovered(s, value);
    MoreThanOne(s, value);
  }

  lemma LowBits(s: bv64)
    requires s & 1 == 1 && s & 2 == 2
    ensures s & 3 == 3
  {}

  lemma HalveOne(s: bv64, value: bv64)
    requires Covers(s, value) && s == 1
    ensures value == s ^ (s >> 1) == 1
  {}

  lemma {:induction false} SameFloor(s: bv64, value: bv64)
    requires Covers(s, value)
    ensures FloorLog2(value) == FloorLog2(s ^ (s >> 1))
    decreases value
  {
    if s == 1 {
      HalveOne(s, value);
    } else {
      HalveRun(s, value);
      Halves(value);
      var s', value' := s >> 1, value >> 1;
      SameFloor(s', value');
    }
  }

  // ----- The table ---------------------------------------------------------------------------

  /** f maps the four powers of two from b = 2^(4k) on to their exponents. */
  predicate RowOfTable(f: bv64 -> nat, k: nat, b: bv64)
  {
    f(b) == 4 * k && f(b << 1) == 4 * k + 1 && f(b << 2) == 4 * k + 2 && f(b << 3) == 4 * k + 3
  }

  lemma Row0() ensures RowOfTable(Exponent, 0, 0x1) {}
  lemma Row1() ensures RowOfTable(Exponent, 1, 0x10) {}
  lemma Row2() ensures RowOfTable(Exponent, 2, 0x100) {}
  lemma Row3() ensures RowOfTable(Exponent, 3, 0x1000) {}
  lemma Row4() ensures RowOfTable(Exponent, 4, 0x1_0000) {}
  lemma Row5() ensures RowOfTable(Exponent, 5, 0x10_0000) {}
  lemma Row6() ensures RowOfTable(Exponent, 6, 0x100_0000) {}
  lemma Row7() ensures RowOfTable(Exponent, 7, 0x1000_0000) {}
  lemma Row8() ensures RowOfTable(Exponent, 8, 0x1_0000_0000) {}
  lemma Row9() ensures RowOfTable(Exponent, 9, 0x10_0000_0000) {}
  lemma Row10() ensures RowOfTable(Exponent, 10, 0x100_0000_0000) {}
  lemma Row11() ensures RowOfTable(Exponent, 11, 0x1000_0000_0000) {}
  lemma Row12() ensures RowOfTable(Exponent, 12, 0x1_0000_0000_0000) {}
  lemma Row13() ensures RowOfTable(Exponent, 13, 0x10_0000_0000_0000) {}
  lemma Row14() ensures RowOfTable(Exponent, 14, 0x100_0000_0000_0000) {}
  lemma Row15() ensures RowOfTable(Exponent, 15, 0x1000_0000_0000_0000) {}

  predicate WholeTable(f: bv64 -> nat)
  {
    && RowOfTable(f, 0, 0x1)
    && RowOfTable(f, 1, 0x10)
    && RowOfTable(f, 2, 0x100)
    && RowOfTable(f, 3, 0x1000)
    && RowOfTable(f, 4, 0x1_0000)
    && RowOfTable(f, 5, 0x10_0000)
    && RowOfTable(f, 6, 0x100_0000)
    && RowOfTable(f, 7, 0x1000_0000)
    && RowOfTable(f, 8, 0x1_0000_0000)
    && RowOfTable(f, 9, 0x10_0000_0000)
    && RowOfTable(f, 10, 0x100_0000_0000)
    && RowOfTable(f, 11, 0x1000_0000_0000)
    && RowOfTable(f, 12, 0x1_0000_0000_0000)
    && RowOfTable(f, 13, 0x10_0000_0000_0000)
    && RowOfTable(f, 14, 0x100_0000_0000_0000)
    && RowOfTable(f, 15, 0x1000_0000_0000_0000)
  }

  predicate InRow(q: bv64, b: bv64)
  {
    q == b || q == b << 1 || q == b << 2 || q == b << 3
  }

  lemma OneHotIsInSomeRow(q: bv64)
    requires OneHot(q)
    ensures
    || InRow(q, 0x1)
    || InRow(q, 0x10)
    || InRow(q, 0x100)
    || InRow(q, 0x1000)
    || InRow(q, 0x1_0000)
    || InRow(q, 0x10_0000)
    || InRow(q, 0x100_0000)
    || InRow(q, 0x1000_0000)
    || InRow(q, 0x1_0000_0000)
    || InRow(q, 0x10_0000_0000)
    || InRow(q, 0x100_0000_0000)
    || InRow(q, 0x1000_0000_0000)
    || InRow(q, 0x1_0000_0000_0000)
    || InRow(q, 0x10_0000_0000_0000)
    || InRow(q, 0x100_0000_0000_0000)
    || InRow(q, 0x1000_0000_0000_0000)
  {}

  lemma DoublingAddsOne(f: bv64 -> nat, q: bv64)
    requires WholeTable(f) && OneHot(q) && q != 0x8000_0000_0000_0000
    ensures f(q << 1) == f(q) + 1
  {
    OneHotIsInSomeRow(q);
  }

  lemma ExponentIsTable()
    ensures WholeTable(Exponent)
  {
    Row0(); Row1(); Row2(); Row3(); Row4(); Row5(); Row6(); Row7();
    Row8(); Row9(); Row10(); Row11(); Row12(); Row13(); Row14(); Row15();
  }

  lemma HalveOneHot(q: bv64)
    requires OneHot(q) && q != 1
    ensures OneHot(q >> 1) && q >> 1 != 0x8000_0000_0000_0000 && (q >> 1) << 1 == q && q > 1
  {}

  lemma FloorAtDouble(f: bv64 -> nat, h: bv64, q: bv64)
    requires q > 1 && q >> 1 == h && f(q) == f(h) + 1 && f(h) == FloorLog2(h)
    ensures f(q) == FloorLog2(q)
  {}

  lemma {:induction false} TableIsFloor(f: bv64 -> nat, q: bv64)
    requires WholeTable(f) && OneHot(q)
    ensures f(q) == FloorLog2(q)
    decreases q
  {
    if q != 1 {
      var h := q >> 1;
      HalveOneHot(q);
      Halves(q);
      DoublingAddsOne(f, h);
      TableIsFloor(f, h);
      FloorAtDouble(f, h, q);
    }
  }

  /** The table and the multiplier give the exponent of every power of two. */
  lemma FloorOfPower(q: bv64)
    requires OneHot(q)
    ensures Exponent(q) == FloorLog2(q)
  {
    ExponentIsTable();
    TableIsFloor(Exponent, q);
  }

  // ----- In numbers --------------------------------------------------------------------------

  /** The number a word stands for. */
  function Number(v: bv64): nat
    decreases v
  {
    if v <= 1 then (if v == 0 then 0 else 1) else Halves(v); 2 * Number(v >> 1) + Number(v & 1)
  }

  function Pow2(k: nat): nat
  {
    if k == 0 then 1 else 2 * Pow2(k - 1)
  }

  lemma LowBit(v: bv64)
    ensures v & 1 == 0 || v & 1 == 1
  {}

  /** The floor of the logarithm, in numbers. */
  lemma {:induction false} FloorInNumbers(v: bv64)
    requires v != 0
    ensures Pow2(FloorLog2(v)) <= Number(v) < Pow2(FloorLog2(v) + 1)
    decreases v
  {
    LowBit(v);
    if v > 1 {
      Halves(v);
      FloorInNumbers(v >> 1);
    }
  }
}

/** Counting in words of any kind: half drops the low bit, odd reads it, inc adds one. */
module WordArithmetic {
  /** f reads a word as a binary numeral. */
  ghost predicate Reads<W(!new)>(f: W -> nat, half: W -> W, odd: W -> bool)
  {
    forall v :: f(v) == 2 * f(half(v)) + if odd(v) then 1 else 0
  }

  /** inc turns a low 0 into 1, and a low 1 into 0 with a carry; max has no successor. */
  ghost predicate Increments<W(!new)>(half: W -> W, odd: W -> bool, inc: W -> W, max: W)
  {
    && (forall v :: !odd(v) ==> half(inc(v)) == half(v) && odd(inc(v)))
    && (forall v :: odd(v) && v != max ==> half(inc(v)) == inc(half(v)) && !odd(inc(v)) && half(v) != max)
  }

  lemma {:induction false} IncrementAddsOne<W(!new)>(
      f: W -> nat, half: W -> W, odd: W -> bool, inc: W -> W, max: W, w: W)
    requires Reads(f, half, odd) && Increments(half, odd, inc, max) && w != max
    ensures f(inc(w)) == f(w) + 1
    decreases f(w)
  {
    assert f(w) == 2 * f(half(w)) + if odd(w) then 1 else 0;
    assert f(inc(w)) == 2 * f(half(inc(w))) + if odd(inc(w)) then 1 else 0;
    if odd(w) {
      IncrementAddsOne(f, half, odd, inc, max, half(w));
    }
  }
}

/** The size classes of memory_pool: a request of `size` bytes, with its header of two words, gets a
    block of 2^(index+1) bytes, index = log2_64(size + header). */
module SizeClass {
  import opened Log2
  import opened WordArithmetic
  import opened Wrappers

  const HEADER: bv64 := 16
  const CLASSES: nat := 32
  const TOP: bv64 := 0xFFFF_FFFF_FFFF_FFFF
  const LARGEST: bv64 := 0xFFFF_FFFF_FFFF_FFEF   // the largest size whose sum with HEADER fits a word

  /** memory_pool::allocate: the class of a request, or None where the source throws. */
  method ClassOf(size: bv64) returns (index: Option<nat>)
    ensures index == Class(size)
  {
    var i := Log2Of64(size + HEADER);
    if i >= CLASSES {
      return None;
    }
    return Some(i);
  }

  function Class(size: bv64): Option<nat>
  {
    if size + HEADER == 0 || FloorLog2(size + HEADER) >= CLASSES then None else Some(FloorLog2(size + HEADER))
  }

  /** The bytes asked for a block of a class, `1 << (index + 1)`: a 32-bit signed shift, sign-extended
      to 64 bits.  Class 30 reaches the sign bit; the shift of class 31 is not defined. */
  function BlockBytes(index: nat): Option<nat>
  {
    if index <= 29 then Some(Pow2(index + 1))
    else if index == 30 then Some(0xFFFF_FFFF_8000_0000)
    else None
  }

  function Half(v: bv64): bv64
  {
    v >> 1
  }

  predicate Odd(v: bv64)
  {
    v & 1 == 1
  }

  function Inc(v: bv64): bv64
  {
    v + 1
  }

  lemma NumberReads()
    ensures Reads(Number, Half, Odd)
  {
    forall v ensures Number(v) == 2 * Number(Half(v)) + if Odd(v) then 1 else 0 { NumberAt(v); }
  }

  lemma NumberAt(v: bv64)
    ensures Number(v) == 2 * Number(v >> 1) + if v & 1 == 1 then 1 else 0
  {
    LowBit(v);
    if v <= 1 { assert v == 0 || v == 1; }
  }

  lemma IncIncrements()
    ensures Increments(Half, Odd, Inc, TOP)
  {
    forall v | !Odd(v) ensures Half(Inc(v)) == Half(v) && Odd(Inc(v)) { IncEven(v); }
    forall v | Odd(v) && v != TOP ensures Half(Inc(v)) == Inc(Half(v)) && !Odd(Inc(v)) && Half(v) != TOP { IncOdd(v); }
  }

  lemma IncEven(v: bv64)
    requires v & 1 != 1
    ensures (v + 1) >> 1 == v >> 1 && (v + 1) & 1 == 1
  {}

  lemma IncOdd(v: bv64)
    requires v & 1 == 1 && v != TOP
    ensures (v + 1) >> 1 == (v >> 1) + 1 && (v + 1) & 1 != 1 && v >> 1 != TOP
  {}

  lemma PlusOne(v: bv64)
    requires v != TOP
    ensures Number(v + 1) == Number(v) + 1
  {
    NumberReads();
    IncIncrements();
    IncrementAddsOne(Number, Half, Odd, Inc, TOP, v);
  }

  lemma PlusTwo(v: bv64)
    requires v <= TOP - 2
    ensures Number(v + 2) == Number(v) + 2
  {
    PlusOne(v);
    PlusOne(v + 1);
  }

  lemma PlusFour(v: bv64)
    requires v <= TOP - 4
    ensures Number(v + 4) == Number(v) + 4
  {
    PlusTwo(v);
    PlusTwo(v + 2);
  }

  lemma PlusEight(v: bv64)
    requires v <= TOP - 8
    ensures Number(v + 8) == Number(v) + 8
  {
    PlusFour(v);
    PlusFour(v + 4);
  }

  lemma PlusHeader(v: bv64)
    requires v <= LARGEST
    ensures Number(v + HEADER) == Number(v) + 16
  {
    PlusEight(v);
    PlusEight(v + 8);
  }

  lemma Wraps(v: bv64)
    requires v > LARGEST
    ensures v + HEADER < 16
  {}

  /** A request gets a block that strictly covers size and header, and is at most twice that sum, if
      and only if the sum fits a machine word and the class is at most 29. */
  lemma BlockCoversRequestIff(size: bv64, index: nat)
    requires Class(size) == Some(index)
    ensures Fits(BlockBytes(index), Number(size) + 16) <==> size <= LARGEST && index <= 29
  {
    var n, sum, whole := Number(size), Number(size + HEADER), size <= LARGEST;
    ClassInNumbers(size, index);
    SumInNumbers(size);
    FitsIffNamed(size, n, sum, whole, index);
  }

  lemma FitsIffNamed(size: bv64, n: nat, sum: nat, whole: bool, index: nat)
    requires InClass(sum, index) && if whole then sum == n + 16 else sum < 16
    requires n == Number(size) && (whole <==> size <= LARGEST)
    ensures Fits(BlockBytes(index), Number(size) + 16) <==> size <= LARGEST && index <= 29
  {
    FitsIff(n, sum, whole, index);
  }

  predicate InClass(n: nat, index: nat)
  {
    index < CLASSES && Pow2(index) <= n < Pow2(index + 1)
  }

  lemma ClassInNumbers(size: bv64, index: nat)
    requires Class(size) == Some(index)
    ensures InClass(Number(size + HEADER), index)
  {
    FloorInNumbers(size + HEADER);
  }

  /** The word that holds the sum: the sum itself, or one below 16 when it wraps. */
  lemma SumInNumbers(size: bv64)
    ensures if size <= LARGEST then Number(size + HEADER) == Number(size) + 16 else Number(size + HEADER) < 16
  {
    if size <= LARGEST {
      PlusHeader(size);
    } else {
      Wraps(size);
      BelowSixteen(size + HEADER);
    }
  }

  lemma BelowEight(v: bv64)
    requires v < 8
    ensures Number(v) < 8
  {
    NumberAt(v);
    NumberAt(v >> 1);
    NumberAt(v >> 1 >> 1);
    assert v >> 1 >> 1 >> 1 == 0;
  }

  lemma BelowSixteen(v: bv64)
    requires v < 16
    ensures Number(v) < 16
  {
    NumberAt(v);
    BelowEight(v >> 1);
  }

  lemma FitsIff(n: nat, sum: nat, whole: bool, index: nat)
    requires InClass(sum, index) && if whole then sum == n + 16 else sum < 16
    ensures Fits(BlockBytes(index), n + 16) <==> whole && index <= 29
  {
    if whole { FittingSum(sum, index); } else { WrappedSum(sum, index); }
  }

  /** The block is larger than n bytes, and at most twice as large. */
  predicate Fits(block: Option<nat>, n: nat)
  {
    block.Some? && n < block.value <= 2 * n
  }

  /** A sum that wraps gets a block of at most 16 bytes, which does not even hold the header. */
  lemma WrappedSum(sum: nat, index: nat)
    requires InClass(sum, index) && sum < 16
    ensures BlockBytes(index).Some? && BlockBytes(index).value <= 16
  {
    assert Pow2(4) == 16;
    if index >= 4 { Pow2Monotone(4, index); } else { Pow2Monotone(index + 1, 4); }
  }

  lemma FittingSum(n: nat, index: nat)
    requires InClass(n, index)
    ensures Fits(BlockBytes(index), n) <==> index <= 29
  {
    if index == 30 { assert Pow2(31) == 0x8000_0000 by { Pow2Of31(); } }
  }

  lemma Pow2Of31()
    ensures Pow2(31) == 0x8000_0000
  {
    assert Pow2(8) == 0x100;
    assert Pow2(16) == 0x1_0000;
    assert Pow2(24) == 0x100_0000;
  }

  /** A request of 2^64 - 8 bytes: the sum wraps to 8 and gets a block of 16 bytes. */
  lemma WrappedRequest()
    ensures Class(0xFFFF_FFFF_FFFF_FFF8) == Some(3) && BlockBytes(3) == Some(16)
    ensures !Fits(BlockBytes(3), Number(0xFFFF_FFFF_FFFF_FFF8) + 16)
  {
    FloorOfPower(0x8);
    assert Exponent(0x8) == 3;
    assert 0xFFFF_FFFF_FFFF_FFF8 + HEADER == 0x8;
    BlockCoversRequestIff(0xFFFF_FFFF_FFFF_FFF8, 3);
  }

  /** A request of 2^30 - 16 bytes: class 30, for which a block of 2^64 - 2^31 bytes is asked. */
  lemma ClassThirtyRequest()
    ensures Class(0x3FFF_FFF0) == Some(30) && BlockBytes(30) == Some(0xFFFF_FFFF_8000_0000)
    ensures !Fits(BlockBytes(30), Number(0x3FFF_FFF0) + 16)
  {
    FloorOfPower(0x4000_0000);
    assert Exponent(0x4000_0000) == 30;
    assert 0x3FFF_FFF0 + HEADER == 0x4000_0000;
    BlockCoversRequestIff(0x3FFF_FFF0, 30);
  }

  /** allocate accepts a size if and only if its sum with the header, taken in a machine word, is
      neither 0 nor 2^32 or more. */
  lemma AcceptedIff(size: bv64)
    ensures Class(size).Some? <==> 0 < Number(size + HEADER) < Pow2(32)
  {
    ZeroOnly(size + HEADER);
    if size + HEADER != 0 {
      FloorInNumbers(size + HEADER);
      BelowIff(FloorLog2(size + HEADER), Number(size + HEADER));
    }
  }

  lemma BelowIff(k: nat, n: nat)
    requires Pow2(k) <= n < Pow2(k + 1)
    ensures k < 32 <==> n < Pow2(32)
  {
    if k >= 32 { Pow2Monotone(32, k); } else { Pow2Monotone(k + 1, 32); }
  }

  lemma {:induction false} ZeroOnly(v: bv64)
    ensures Number(v) == 0 <==> v == 0
    decreases v
  {
    if v > 1 { Halves(v); ZeroOnly(v >> 1); }
  }

  lemma {:induction false} Pow2Monotone(a: nat, b: nat)
    requires a <= b
    ensures 0 < Pow2(a) <= Pow2(b)
    decreases b
  {
    if a < b { Pow2Monotone(a, b - 1); } else if b > 0 { Pow2Monotone(a - 1, b - 1); }
  }
}
