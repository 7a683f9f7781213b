/**
 * Bit primitives shared by the attack generators.
 *
 * A bitboard is a 64-bit mask with one bit per square. Square 0 is A1; the
 * index grows left to right along a rank and then rank by rank upwards, so
 * the file of a square is its index mod 8 and its rank the index div 8.
 * Square indices are 8-bit values below 64, so that file and rank arithmetic
 * stays at the bit level together with the masks.
 */
module Bitboards {

  /** A square index, 0 = A1 ... 63 = H8. */
  type Position = p: bv8 | p < 64

  type Bitboard = bv64

  function File(p: Position): (f: bv8)
    ensures f < 8
  {
    p % 8
  }

  function Rank(p: Position): (r: bv8)
    ensures r < 8
  {
    p / 8
  }

  /** Distance between two files or two ranks. */
  function Dist(a: bv8, b: bv8): bv8 {
    if a < b then b - a else a - b
  }

  lemma DistSymmetric(a: bv8, b: bv8)
    ensures Dist(a, b) == Dist(b, a)
  {
  }

  function Max(a: bv8, b: bv8): bv8 {
    if a < b then b else a
  }

  /** The bitboard holding only square p (set_bit applied to the empty board). */
  function Bit(p: Position): Bitboard {
    1 << p
  }

  /** Whether square t is in bitboard b. */
  predicate IsSet(b: Bitboard, t: Position) {
    (b >> t) & 1 == 1
  }

  // File masks. Each "Not" mask holds every square outside the named files.
  const AFile: Bitboard := 0x0101_0101_0101_0101
  const HFile: Bitboard := 0x8080_8080_8080_8080
  const NotAFile: Bitboard := !AFile
  const NotHFile: Bitboard := !HFile
  const NotABFile: Bitboard := !0x0303_0303_0303_0303
  const NotGHFile: Bitboard := !0xC0C0_C0C0_C0C0_C0C0

  lemma FileMasks(t: Position)
    ensures IsSet(AFile, t) <==> File(t) == 0
    ensures IsSet(HFile, t) <==> File(t) == 7
    ensures IsSet(NotAFile, t) <==> File(t) != 0
    ensures IsSet(NotHFile, t) <==> File(t) != 7
    ensures IsSet(NotABFile, t) <==> File(t) >= 2
    ensures IsSet(NotGHFile, t) <==> File(t) <= 5
  {
  }

  function Indicator(c: bool): nat {
    if c then 1 else 0
  }

  /**
   * The number of squares of b below index n. The board is part of the
   * termination measure only so that the verifier unfolds the count by
   * itself just when both arguments are literals.
   */
  function CountBelow(b: Bitboard, n: bv8): nat
    requires n <= 64
    decreases n, b
  {
    if n == 0 then 0 else CountBelow(b, n - 1) + Indicator(IsSet(b, n - 1))
  }

  /** Population count: the number of squares in b. */
  function BitCount(b: Bitboard): nat {
    CountBelow(b, 64)
  }

  lemma OrAt(a: Bitboard, b: Bitboard, t: Position)
    ensures IsSet(a | b, t) <==> IsSet(a, t) || IsSet(b, t)
  {
  }

  lemma AndAt(a: Bitboard, b: Bitboard, t: Position)
    ensures IsSet(a & b, t) <==> IsSet(a, t) && IsSet(b, t)
  {
  }

  lemma DisjointAt(a: Bitboard, b: Bitboard, t: Position)
    requires a & b == 0
    ensures !(IsSet(a, t) && IsSet(b, t))
  {
    AndAt(a, b, t);
    EmptyAt(t);
  }

  lemma EmptyAt(t: Position)
    ensures !IsSet(0, t)
  {
  }

  lemma DisjointIndicator(a: Bitboard, b: Bitboard, t: Position)
    requires a & b == 0
    ensures Indicator(IsSet(a | b, t)) == Indicator(IsSet(a, t)) + Indicator(IsSet(b, t))
  {
    OrAt(a, b, t);
    DisjointAt(a, b, t);
  }

  lemma BitOf(u: Position, t: Position)
    ensures IsSet(Bit(u), t) <==> u == t
  {
  }

  /*
   * Union and disjointness are named so that the counting lemmas below talk
   * about whole bitboards rather than about their bits.
   */

  function Union(a: Bitboard, b: Bitboard): Bitboard {
    a | b
  }

  predicate Disjoint(a: Bitboard, b: Bitboard) {
    a & b == 0
  }

  lemma {:induction false} CountBelowOfBit(u: Position, n: bv8)
    requires n <= 64
    ensures CountBelow(Bit(u), n) == Indicator(u < n)
    decreases n
  {
    if n > 0 {
      BitOf(u, n - 1);
      CountBelowOfBit(u, n - 1);
    }
  }

  lemma {:induction false} CountBelowOfEmpty(n: bv8)
    requires n <= 64
    ensures CountBelow(0, n) == 0
    decreases n
  {
    if n > 0 {
      EmptyAt(n - 1);
      CountBelowOfEmpty(n - 1);
    }
  }

  lemma {:induction false} CountBelowDisjoint(a: Bitboard, b: Bitboard, n: bv8)
    requires n <= 64
    requires a & b == 0
    ensures CountBelow(a | b, n) == CountBelow(a, n) + CountBelow(b, n)
    decreases n
  {
    if n > 0 {
      DisjointIndicator(a, b, n - 1);
      CountBelowDisjoint(a, b, n - 1);
    }
  }

  lemma {:induction false} CountBelowAnd(a: Bitboard, b: Bitboard, n: bv8)
    requires n <= 64
    ensures CountBelow(a & b, n) <= CountBelow(a, n)
    ensures CountBelow(a & b, n) <= CountBelow(b, n)
    decreases n
  {
    if n > 0 {
      AndAt(a, b, n - 1);
      CountBelowAnd(a, b, n - 1);
    }
  }

  lemma BitCountOfBit(u: Position)
    ensures BitCount(Bit(u)) == 1
  {
    CountBelowOfBit(u, 64);
  }

  lemma BitCountOfEmpty()
    ensures BitCount(0) == 0
  {
    CountBelowOfEmpty(64);
  }

  /** Counts of disjoint bitboards add up. */
  lemma BitCountDisjoint(a: Bitboard, b: Bitboard)
    requires Disjoint(a, b)
    ensures BitCount(Union(a, b)) == BitCount(a) + BitCount(b)
  {
    CountBelowDisjoint(a, b, 64);
  }

  /** Clearing squares never raises the count. */
  lemma BitCountAnd(a: Bitboard, b: Bitboard)
    ensures BitCount(a & b) <= BitCount(a)
    ensures BitCount(a & b) <= BitCount(b)
  {
    CountBelowAnd(a, b, 64);
  }

  /** Square u when c holds, otherwise the empty board. */
  function OptionalBit(c: bool, u: bv8): Bitboard
    requires c ==> u < 64
  {
    if c then Bit(u) else 0
  }

  /** The count of a bit that is present exactly when c holds. */
  lemma BitCountOfOptionalBit(c: bool, u: bv8)
    requires c ==> u < 64
    ensures BitCount(OptionalBit(c, u)) == Indicator(c)
  {
    if c {
      BitCountOfBit(u);
    } else {
      BitCountOfEmpty();
    }
  }

  /** The count of eight bitboards, each disjoint from the union of those after it. */
  lemma BitCountOfUnion8(t1: Bitboard, t2: Bitboard, t3: Bitboard, t4: Bitboard,
                         t5: Bitboard, t6: Bitboard, t7: Bitboard, t8: Bitboard)
    requires Disjoint(t7, t8)
    requires Disjoint(t6, Union(t7, t8))
    requires Disjoint(t5, Union(t6, Union(t7, t8)))
    requires Disjoint(t4, Union(t5, Union(t6, Union(t7, t8))))
    requires Disjoint(t3, Union(t4, Union(t5, Union(t6, Union(t7, t8)))))
    requires Disjoint(t2, Union(t3, Union(t4, Union(t5, Union(t6, Union(t7, t8))))))
    requires Disjoint(t1, Union(t2, Union(t3, Union(t4, Union(t5, Union(t6, Union(t7, t8)))))))
    ensures BitCount(Union(t1, Union(t2, Union(t3, Union(t4, Union(t5, Union(t6, Union(t7, t8)))))))) ==
            BitCount(t1) + BitCount(t2) + BitCount(t3) + BitCount(t4) +
            BitCount(t5) + BitCount(t6) + BitCount(t7) + BitCount(t8)
  {
    BitCountDisjoint(t7, t8);
    BitCountDisjoint(t6, Union(t7, t8));
    BitCountDisjoint(t5, Union(t6, Union(t7, t8)));
    BitCountDisjoint(t4, Union(t5, Union(t6, Union(t7, t8))));
    BitCountDisjoint(t3, Union(t4, Union(t5, Union(t6, Union(t7, t8)))));
    BitCountDisjoint(t2, Union(t3, Union(t4, Union(t5, Union(t6, Union(t7, t8))))));
    BitCountDisjoint(t1, Union(t2, Union(t3, Union(t4, Union(t5, Union(t6, Union(t7, t8)))))));
  }

  /**
   * Eight optional squares, each disjoint from the union of those after it,
   * count one for each that is present.
   */
  lemma BitCountOfOptionalBits(c1: bool, c2: bool, c3: bool, c4: bool, c5: bool, c6: bool, c7: bool, c8: bool,
                               u1: bv8, u2: bv8, u3: bv8, u4: bv8, u5: bv8, u6: bv8, u7: bv8, u8: bv8)
    requires (c1 ==> u1 < 64) && (c2 ==> u2 < 64) && (c3 ==> u3 < 64) && (c4 ==> u4 < 64)
    requires (c5 ==> u5 < 64) && (c6 ==> u6 < 64) && (c7 ==> u7 < 64) && (c8 ==> u8 < 64)
    requires var t1, t2, t3, t4 := OptionalBit(c1, u1), OptionalBit(c2, u2), OptionalBit(c3, u3), OptionalBit(c4, u4);
             var t5, t6, t7, t8 := OptionalBit(c5, u5), OptionalBit(c6, u6), OptionalBit(c7, u7), OptionalBit(c8, u8);
      Disjoint(t7, t8) && Disjoint(t6, Union(t7, t8)) && Disjoint(t5, Union(t6, Union(t7, t8))) &&
      Disjoint(t4, Union(t5, Union(t6, Union(t7, t8)))) &&
      Disjoint(t3, Union(t4, Union(t5, Union(t6, Union(t7, t8))))) &&
      Disjoint(t2, Union(t3, Union(t4, Union(t5, Union(t6, Union(t7, t8)))))) &&
      Disjoint(t1, Union(t2, Union(t3, Union(t4, Union(t5, Union(t6, Union(t7, t8)))))))
    ensures BitCount(Union(OptionalBit(c1, u1), Union(OptionalBit(c2, u2), Union(OptionalBit(c3, u3),
              Union(OptionalBit(c4, u4), Union(OptionalBit(c5, u5), Union(OptionalBit(c6, u6),
              Union(OptionalBit(c7, u7), OptionalBit(c8, u8))))))))) ==
            Indicator(c1) + Indicator(c2) + Indicator(c3) + Indicator(c4) +
            Indicator(c5) + Indicator(c6) + Indicator(c7) + Indicator(c8)
  {
    BitCountOfUnion8(OptionalBit(c1, u1), OptionalBit(c2, u2), OptionalBit(c3, u3), OptionalBit(c4, u4),
                     OptionalBit(c5, u5), OptionalBit(c6, u6), OptionalBit(c7, u7), OptionalBit(c8, u8));
    BitCountOfOptionalBit(c1, u1);
    BitCountOfOptionalBit(c2, u2);
    BitCountOfOptionalBit(c3, u3);
    BitCountOfOptionalBit(c4, u4);
    BitCountOfOptionalBit(c5, u5);
    BitCountOfOptionalBit(c6, u6);
    BitCountOfOptionalBit(c7, u7);
    BitCountOfOptionalBit(c8, u8);
  }
}
