/**
 * The table-driven CRC-32 of the ZIP writer against the bit-at-a-time one: a reflected shift
 * register with polynomial 0xEDB88320, fed each byte from its low bit (section 8 of RFC 1952).
 */
module Crc32 {
  type Byte = bv8

  const POLY: bv32 := 0xEDB8_8320
  const ONES: bv32 := 0xFFFF_FFFF

  // ---- the definition, one bit at a time ----

  /** Feeds one bit: what leaves the register differs from it exactly when the polynomial is added. */
  function FeedBit(c: bv32, bit: bool): bv32 {
    if (c & 1 == 1) != bit then POLY ^ (c >> 1) else c >> 1
  }

  function LowBit(b: Byte): bool { b & 1 == 1 }

  function Half(b: Byte): Byte { b >> 1 }

  /** The first `n` bits of anything that has a low bit and the rest. */
  function BitsOf<B>(low: B -> bool, half: B -> B, b: B, n: nat): seq<bool>
    decreases n
  {
    if n == 0 then [] else [low(b)] + BitsOf(low, half, half(b), n - 1)
  }

  function FeedAll<S>(feed: (S, bool) -> S, c: S, bits: seq<bool>): S
    decreases bits
  {
    if bits == [] then c else FeedAll(feed, feed(c, bits[0]), bits[1..])
  }

  /** A byte fed lowest bit first. */
  function FeedBits(c: bv32, b: Byte): bv32 {
    FeedAll(FeedBit, c, BitsOf(LowBit, Half, b, 8))
  }

  function FeedBytes(c: bv32, data: seq<Byte>): bv32
    decreases data
  {
    if data == [] then c else FeedBytes(FeedBits(c, data[0]), data[1..])
  }

  function Crc(data: seq<Byte>): bv32 {
    FeedBytes(ONES, data) ^ ONES
  }

  // ---- linearity, of any additive step ----

  function Iterate<T>(f: T -> T, c: T, n: nat): T
    decreases n
  {
    if n == 0 then c else Iterate(f, f(c), n - 1)
  }

  ghost predicate Additive<T(!new)>(f: T -> T, plus: (T, T) -> T) {
    forall a, b :: f(plus(a, b)) == plus(f(a), f(b))
  }

  lemma {:induction false} IterateAdditive<T(!new)>(f: T -> T, plus: (T, T) -> T, a: T, b: T, n: nat)
    requires Additive(f, plus)
    ensures Iterate(f, plus(a, b), n) == plus(Iterate(f, a, n), Iterate(f, b, n))
    decreases n
  {
    if n > 0 {
      IterateAdditive(f, plus, f(a), f(b), n - 1);
    }
  }

  // ---- the shift step ----

  function Xor(a: bv32, b: bv32): bv32 { a ^ b }

  function Shift(c: bv32): bv32 {
    if c & 1 == 1 then POLY ^ (c >> 1) else c >> 1
  }

  lemma HalvesOfXor(a: bv32, b: bv32)
    ensures (a ^ b) >> 1 == (a >> 1) ^ (b >> 1)
    ensures (a ^ b) & 1 == (a & 1) ^ (b & 1)
    ensures (a & 1 == 0 || a & 1 == 1) && (b & 1 == 0 || b & 1 == 1)
  {
  }

  lemma XorMoves(p: bv32, a: bv32, b: bv32)
    ensures (p ^ a) ^ b == p ^ (a ^ b) && a ^ (p ^ b) == p ^ (a ^ b) && (p ^ a) ^ (p ^ b) == a ^ b
  {
  }

  lemma ShiftOfXor(a: bv32, b: bv32)
    ensures Shift(a ^ b) == Shift(a) ^ Shift(b)
  {
    HalvesOfXor(a, b);
    XorMoves(POLY, a >> 1, b >> 1);
  }

  lemma ShiftAdditive()
    ensures Additive(Shift, Xor)
  {
    forall a, b ensures Shift(Xor(a, b)) == Xor(Shift(a), Shift(b)) {
      ShiftOfXor(a, b);
    }
  }

  // ---- a byte at a time ----

  lemma LowBitsClear(c: bv32)
    requires c & 0xFF == 0
    ensures c & 1 == 0 && (c >> 1) & 1 == 0 && (c >> 2) & 1 == 0 && (c >> 3) & 1 == 0
    ensures (c >> 4) & 1 == 0 && (c >> 5) & 1 == 0 && (c >> 6) & 1 == 0 && (c >> 7) & 1 == 0
  {
  }

  lemma ShiftsCompose(c: bv32)
    ensures (c >> 1) >> 1 == c >> 2 && (c >> 2) >> 1 == c >> 3 && (c >> 3) >> 1 == c >> 4 && (c >> 4) >> 1 == c >> 5
    ensures (c >> 5) >> 1 == c >> 6 && (c >> 6) >> 1 == c >> 7 && (c >> 7) >> 1 == c >> 8
  {
  }

  lemma ShiftsClearBit(c: bv32)
    requires c & 1 == 0
    ensures Shift(c) == c >> 1
  {
  }

  /** Eight steps of any function along a chain of values. */
  lemma EightSteps<T>(f: T -> T, x: seq<T>)
    requires |x| == 9 && forall i :: 0 <= i < 8 ==> f(x[i]) == x[i + 1]
    ensures Iterate(f, x[0], 8) == x[8]
  {
    StepsAlong(f, x, 0);
  }

  lemma {:induction false} StepsAlong<T>(f: T -> T, x: seq<T>, i: nat)
    requires i < |x| && forall j :: 0 <= j < |x| - 1 ==> f(x[j]) == x[j + 1]
    ensures Iterate(f, x[i], |x| - 1 - i) == x[|x| - 1]
    decreases |x| - i
  {
    if i < |x| - 1 {
      StepsAlong(f, x, i + 1);
    }
  }

  /** Low bits that are all zero are shifted out one by one. */
  lemma HighBitsShiftDown(c: bv32)
    requires c & 0xFF == 0
    ensures Iterate(Shift, c, 8) == c >> 8
  {
    LowBitsClear(c);
    ShiftsCompose(c);
    ShiftsClearBit(c);
    ShiftsClearBit(c >> 1);
    ShiftsClearBit(c >> 2);
    ShiftsClearBit(c >> 3);
    ShiftsClearBit(c >> 4);
    ShiftsClearBit(c >> 5);
    ShiftsClearBit(c >> 6);
    ShiftsClearBit(c >> 7);
    EightSteps(Shift, [c, c >> 1, c >> 2, c >> 3, c >> 4, c >> 5, c >> 6, c >> 7, c >> 8]);
  }

  lemma ShiftSum(low: bv32, high: bv32, x: bv32, r: bv32, n: nat)
    requires x == Xor(low, high) && Iterate(Shift, high, n) == r
    ensures Iterate(Shift, x, n) == Xor(Iterate(Shift, low, n), r)
  {
    ShiftAdditive();
    IterateAdditive(Shift, Xor, low, high, n);
  }

  /** Eight shifts of a register look up its low byte and move the rest down. */
  lemma ShiftByte(x: bv32)
    ensures Iterate(Shift, x, 8) == Xor(Iterate(Shift, x & 0xFF, 8), x >> 8)
  {
    SplitByte(x);
    HighBitsShiftDown(x & 0xFFFF_FF00);
    ShiftSum(x & 0xFF, x & 0xFFFF_FF00, x, x >> 8, 8);
  }

  lemma SplitByte(x: bv32)
    ensures Xor(x & 0xFF, x & 0xFFFF_FF00) == x && (x & 0xFFFF_FF00) & 0xFF == 0 && (x & 0xFFFF_FF00) >> 8 == x >> 8
  {
  }

  function Widen(b: Byte): bv32 { b as bv32 }

  /** Feeding a bit is shifting once with that bit added, the byte's other bits moving up behind it. */
  lemma FeedBitIsShift(c: bv32, b: Byte)
    ensures Shift(c ^ Widen(b)) == FeedBit(c, b & 1 == 1) ^ Widen(b >> 1)
  {
    HalvesOfXor(c, Widen(b));
    assert Widen(b) >> 1 == Widen(b >> 1);
    assert Widen(b) & 1 == 1 <==> b & 1 == 1;
    XorMoves(POLY, c >> 1, Widen(b >> 1));
  }

  /** A register with a byte waiting to be fed. */
  function Plus(c: bv32, b: Byte): bv32 { c ^ Widen(b) }

  lemma FeedLaw()
    ensures forall c, b :: Shift(Plus(c, b)) == Plus(FeedBit(c, LowBit(b)), Half(b))
  {
    hide Shift, FeedBit, Widen;
    forall c, b ensures Shift(Plus(c, b)) == Plus(FeedBit(c, LowBit(b)), Half(b)) {
      FeedBitIsShift(c, b);
    }
  }

  /** Any step that obeys the feeding law, taken once per bit, feeds the bits. */
  lemma {:induction false} StepsFeed<S(!new), B(!new)>(f: S -> S, plus: (S, B) -> S, feed: (S, bool) -> S,
                                                      low: B -> bool, half: B -> B, c: S, b: B, n: nat)
    requires forall c, r :: f(plus(c, r)) == plus(feed(c, low(r)), half(r))
    ensures Iterate(f, plus(c, b), n) == plus(FeedAll(feed, c, BitsOf(low, half, b, n)), Iterate(half, b, n))
    decreases n
  {
    if n > 0 {
      StepsFeed(f, plus, feed, low, half, feed(c, low(b)), half(b), n - 1);
      assert BitsOf(low, half, b, n)[1..] == BitsOf(low, half, half(b), n - 1);
    }
  }

  lemma EightHalvesClear(b: Byte)
    ensures Iterate(Half, b, 8) == 0
  {
  }

  /** Feeding a byte's bits one at a time is adding the byte and shifting eight times. */
  lemma FeedByte(c: bv32, b: Byte)
    ensures FeedBits(c, b) == Iterate(Shift, Plus(c, b), 8)
  {
    FeedLaw();
    StepsFeed(Shift, Plus, FeedBit, LowBit, Half, c, b, 8);
    EightHalvesClear(b);
    PlusZero(FeedBits(c, b));
  }

  lemma PlusZero(c: bv32)
    ensures Plus(c, 0) == c
  {
  }

  // ---- the table ----

  predicate IsTable(t: seq<bv32>) {
    |t| == 256 && forall i :: 0 <= i < 256 ==> t[i] == Iterate(Shift, i as bv32, 8)
  }

  lemma TableEntry(t: seq<bv32>, x: bv32)
    requires IsTable(t)
    ensures (x & 0xFF) as int < 256 && t[(x & 0xFF) as int] == Iterate(Shift, x & 0xFF, 8)
  {
    LowByteBound(x);
    RoundTrip(x & 0xFF);
  }

  /** One table look-up and a move down shift a register eight times. */
  lemma LookUpShiftsByte(t: seq<bv32>, x: bv32)
    requires IsTable(t)
    ensures (x & 0xFF) as int < 256 && |t| == 256
    ensures Xor(t[(x & 0xFF) as int], x >> 8) == Iterate(Shift, x, 8)
  {
    hide Shift, Iterate, Xor;
    TableEntry(t, x);
    ShiftByte(x);
  }

  /** One table look-up feeds a whole byte. */
  lemma LookUpFeedsByte(t: seq<bv32>, c: bv32, b: Byte)
    requires IsTable(t)
    ensures var i := Plus(c, b) & 0xFF; i as int < 256 && Xor(t[i as int], c >> 8) == FeedBits(c, b)
  {
    hide Shift, Iterate, FeedBits, Plus, Xor, IsTable;
    LookUpShiftsByte(t, Plus(c, b));
    FeedByte(c, b);
    WidenedShiftsOut(c, b);
  }

  lemma WidenedShiftsOut(c: bv32, b: Byte)
    ensures Plus(c, b) >> 8 == c >> 8
  {
  }

  lemma RoundTrip(x: bv32)
    ensures (x as int) as bv32 == x
  {
  }

  lemma LowByteBound(x: bv32)
    ensures (x & 0xFF) as int < 256
  {
  }

  /** The source's CRC_TABLE initialiser. */
  method BuildTable() returns (t: array<bv32>)
    ensures IsTable(t[..])
  {
    t := ShiftTable(8);
  }

  method ShiftTable(rounds: nat) returns (t: array<bv32>)
    ensures t.Length == 256 && forall i :: 0 <= i < 256 ==> t[i] == Iterate(Shift, i as bv32, rounds)
  {
    t := new bv32[256];
    for n := 0 to 256
      invariant forall i :: 0 <= i < n ==> t[i] == Iterate(Shift, i as bv32, rounds)
    {
      t[n] := ShiftedTimes(n as bv32, rounds);
    }
  }

  /** The inner loop of the initialiser. */
  method ShiftedTimes(start: bv32, count: nat) returns (c: bv32)
    ensures c == Iterate(Shift, start, count)
  {
    c := start;
    for k := 0 to count
      invariant Iterate(Shift, c, count - k) == Iterate(Shift, start, count)
    {
      c := Shift(c);
    }
  }

  /** The table-driven CRC of a byte sequence is the bit-at-a-time one. */
  method Crc32(table: array<bv32>, buf: seq<Byte>) returns (crc: bv32)
    requires IsTable(table[..])
    ensures crc == Crc(buf)
  {
    var c: bv32 := ONES;
    for i := 0 to |buf|
      invariant FeedBytes(c, buf[i..]) == FeedBytes(ONES, buf)
    {
      LookUpFeedsByte(table[..], c, buf[i]);
      assert buf[i..][1..] == buf[i + 1..];
      c := Xor(table[(Plus(c, buf[i]) & 0xFF) as int], c >> 8);
    }
    crc := c ^ ONES;
  }
}
