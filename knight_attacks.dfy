/**
 * The closed-form knight-attack generator and the table test that checks a
 * knight table against it.
 */
module KnightAttacks {
  import opened Bitboards

  /** t is one knight move away from p: one file and two ranks, or two files and one rank. */
  predicate IsKnightMove(p: Position, t: Position) {
    (Dist(File(p), File(t)) == 1 && Dist(Rank(p), Rank(t)) == 2) ||
    (Dist(File(p), File(t)) == 2 && Dist(Rank(p), Rank(t)) == 1)
  }

  /**
   * The generator as a single expression: the origin bit shifted by each of
   * the eight knight offsets, each copy masked so that no move wraps around
   * the A or H edge. Left shifts past bit 63 and right shifts below bit 0
   * drop the bit.
   */
  function KnightAttackSet(p: Position): (r: Bitboard)
    ensures forall t: Position :: IsSet(r, t) <==> IsKnightMove(p, t)
  {
    var b := Bit(p);
    ((b >> 17) & NotHFile) | ((b >> 15) & NotAFile) | ((b >> 6) & NotABFile) | ((b >> 10) & NotGHFile) |
    ((b << 17) & NotAFile) | ((b << 15) & NotHFile) | ((b << 6) & NotGHFile) | ((b << 10) & NotABFile)
  }

  /** The generator with a local accumulator, eight `|=` updates. */
  method CreateKnightAttacks(position: Position) returns (attacks: Bitboard)
    ensures attacks == KnightAttackSet(position)
    ensures forall t: Position :: IsSet(attacks, t) <==> IsKnightMove(position, t)
  {
    attacks := 0;
    var bitboard := Bit(position);

    attacks := attacks | ((bitboard >> 17) & NotHFile);
    attacks := attacks | ((bitboard >> 15) & NotAFile);
    attacks := attacks | ((bitboard >> 6) & NotABFile);
    attacks := attacks | ((bitboard >> 10) & NotGHFile);

    attacks := attacks | ((bitboard << 17) & NotAFile);
    attacks := attacks | ((bitboard << 15) & NotHFile);
    attacks := attacks | ((bitboard << 6) & NotGHFile);
    attacks := attacks | ((bitboard << 10) & NotABFile);
  }

  /**
   * The test loop over all 64 positions: it stops at the first position
   * whose table entry differs from the generator.
   */
  method KnightAttacksTest(table: seq<Bitboard>) returns (passed: bool)
    requires |table| == 64
    ensures passed <==> forall p: Position :: table[p] == KnightAttackSet(p)
  {
    var position: bv8 := 0;
    while position < 64
      invariant position <= 64
      invariant forall q: Position :: q < position ==> table[q] == KnightAttackSet(q)
      decreases 64 - position
    {
      var attacks := CreateKnightAttacks(position);
      if table[position] != attacks {
        return false;
      }
      position := position + 1;
    }
    return true;
  }

  /** A table that passes the test holds exactly the knight moves of every square. */
  lemma PassingTableIsKnightMoves(table: seq<Bitboard>, p: Position, t: Position)
    requires |table| == 64
    requires forall q: Position :: table[q] == KnightAttackSet(q)
    ensures IsSet(table[p], t) <==> IsKnightMove(p, t)
  {
    assert table[p] == KnightAttackSet(p);
  }

  /** The origin square is never attacked: every offset is nonzero. */
  lemma KnightOriginNotSet(p: Position)
    ensures !IsSet(KnightAttackSet(p), p)
  {
  }

  /** Every attacked square lies at offset 6, 10, 15 or 17 above or below the origin. */
  lemma KnightOffsets(p: Position, t: Position)
    requires IsSet(KnightAttackSet(p), t)
    ensures t == p + 6 || t == p + 10 || t == p + 15 || t == p + 17 ||
            p == t + 6 || p == t + 10 || p == t + 15 || p == t + 17
  {
  }

  /** A knight attacks exactly the squares from which it is attacked. */
  lemma KnightSymmetric(p: Position, t: Position)
    ensures IsSet(KnightAttackSet(p), t) <==> IsSet(KnightAttackSet(t), p)
  {
    KnightMoveSymmetric(p, t);
  }

  lemma KnightMoveSymmetric(p: Position, t: Position)
    ensures IsKnightMove(p, t) <==> IsKnightMove(t, p)
  {
    DistSymmetric(File(p), File(t));
    DistSymmetric(Rank(p), Rank(t));
  }

  /** The number of the eight knight moves from p that stay on the board. */
  function KnightMoveCount(p: Position): (n: nat)
    ensures n <= 8
  {
    var f, r := File(p), Rank(p);
    Indicator(r >= 2 && f >= 1) + Indicator(r >= 2 && f <= 6) +
    Indicator(r >= 1 && f <= 5) + Indicator(r >= 1 && f >= 2) +
    Indicator(r <= 5 && f <= 6) + Indicator(r <= 5 && f >= 1) +
    Indicator(r <= 6 && f >= 2) + Indicator(r <= 6 && f <= 5)
  }

  /** Each masked shift of the origin bit is either empty or one target square. */
  lemma KnightTerms(p: Position)
    ensures (Bit(p) >> 17) & NotHFile == OptionalBit(Rank(p) >= 2 && File(p) >= 1, p - 17)
    ensures (Bit(p) >> 15) & NotAFile == OptionalBit(Rank(p) >= 2 && File(p) <= 6, p - 15)
    ensures (Bit(p) >> 6) & NotABFile == OptionalBit(Rank(p) >= 1 && File(p) <= 5, p - 6)
    ensures (Bit(p) >> 10) & NotGHFile == OptionalBit(Rank(p) >= 1 && File(p) >= 2, p - 10)
    ensures (Bit(p) << 17) & NotAFile == OptionalBit(Rank(p) <= 5 && File(p) <= 6, p + 17)
    ensures (Bit(p) << 15) & NotHFile == OptionalBit(Rank(p) <= 5 && File(p) >= 1, p + 15)
    ensures (Bit(p) << 6) & NotGHFile == OptionalBit(Rank(p) <= 6 && File(p) >= 2, p + 6)
    ensures (Bit(p) << 10) & NotABFile == OptionalBit(Rank(p) <= 6 && File(p) <= 5, p + 10)
  {
  }

  /** The generator as a union of eight optional target squares. */
  lemma KnightDecomposition(p: Position)
    ensures var f, r := File(p), Rank(p);
      KnightAttackSet(p) ==
        Union(OptionalBit(r >= 2 && f >= 1, p - 17), Union(OptionalBit(r >= 2 && f <= 6, p - 15),
        Union(OptionalBit(r >= 1 && f <= 5, p - 6), Union(OptionalBit(r >= 1 && f >= 2, p - 10),
        Union(OptionalBit(r <= 5 && f <= 6, p + 17), Union(OptionalBit(r <= 5 && f >= 1, p + 15),
        Union(OptionalBit(r <= 6 && f >= 2, p + 6), OptionalBit(r <= 6 && f <= 5, p + 10))))))))
  {
    KnightTerms(p);
  }

  /** The eight targets are distinct squares, so no term shares a square with those after it. */
  lemma KnightTermsDisjoint(p: Position)
    ensures var f, r := File(p), Rank(p);
      var t1, t2, t3, t4 := OptionalBit(r >= 2 && f >= 1, p - 17), OptionalBit(r >= 2 && f <= 6, p - 15),
                            OptionalBit(r >= 1 && f <= 5, p - 6), OptionalBit(r >= 1 && f >= 2, p - 10);
      var t5, t6, t7, t8 := OptionalBit(r <= 5 && f <= 6, p + 17), OptionalBit(r <= 5 && f >= 1, p + 15),
                            OptionalBit(r <= 6 && f >= 2, p + 6), OptionalBit(r <= 6 && f <= 5, p + 10);
      Disjoint(t7, t8) && Disjoint(t6, Union(t7, t8)) && Disjoint(t5, Union(t6, Union(t7, t8))) &&
      Disjoint(t4, Union(t5, Union(t6, Union(t7, t8)))) &&
      Disjoint(t3, Union(t4, Union(t5, Union(t6, Union(t7, t8))))) &&
      Disjoint(t2, Union(t3, Union(t4, Union(t5, Union(t6, Union(t7, t8)))))) &&
      Disjoint(t1, Union(t2, Union(t3, Union(t4, Union(t5, Union(t6, Union(t7, t8)))))))
  {
  }

  /** The count of the eight optional targets is the number of on-board knight moves. */
  lemma KnightTermsCount(p: Position)
    ensures var f, r := File(p), Rank(p);
      BitCount(
        Union(OptionalBit(r >= 2 && f >= 1, p - 17), Union(OptionalBit(r >= 2 && f <= 6, p - 15),
        Union(OptionalBit(r >= 1 && f <= 5, p - 6), Union(OptionalBit(r >= 1 && f >= 2, p - 10),
        Union(OptionalBit(r <= 5 && f <= 6, p + 17), Union(OptionalBit(r <= 5 && f >= 1, p + 15),
        Union(OptionalBit(r <= 6 && f >= 2, p + 6), OptionalBit(r <= 6 && f <= 5, p + 10))))))))) ==
      KnightMoveCount(p)
  {
    var f, r := File(p), Rank(p);
    KnightTermsDisjoint(p);
    BitCountOfOptionalBits(r >= 2 && f >= 1, r >= 2 && f <= 6, r >= 1 && f <= 5, r >= 1 && f >= 2,
                           r <= 5 && f <= 6, r <= 5 && f >= 1, r <= 6 && f >= 2, r <= 6 && f <= 5,
                           p - 17, p - 15, p - 6, p - 10, p + 17, p + 15, p + 6, p + 10);
  }

  /** The population count of the generator is the number of on-board knight moves. */
  lemma KnightAttackCount(p: Position)
    ensures BitCount(KnightAttackSet(p)) == KnightMoveCount(p)
  {
    KnightDecomposition(p);
    KnightTermsCount(p);
  }

  lemma KnightAttackCountAtMostEight(p: Position)
    ensures BitCount(KnightAttackSet(p)) <= 8
  {
    KnightAttackCount(p);
  }

  /** From A1 the knight reaches exactly C2 (bit 10) and B3 (bit 17). */
  lemma KnightFromA1()
    ensures KnightAttackSet(0) == Bit(10) | Bit(17)
    ensures BitCount(KnightAttackSet(0)) == 2
  {
    KnightAttackCount(0);
  }
}
