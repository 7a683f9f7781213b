/**
 * The precomputed king-attack lookup table, a closed form for the king's
 * neighbourhood, and the proof that every table entry equals it.
 */
module KingAttacks {
  import opened Bitboards

  /** t is one king step away from s: at most one file and one rank over, and not s itself. */
  predicate IsKingMove(s: Position, t: Position) {
    Max(Dist(File(s), File(t)), Dist(Rank(s), Rank(t))) == 1
  }

  /**
   * The neighbours of s computed from its bit: one rank up or down, and one
   * file left or right (straight or diagonal), each sideways copy masked so
   * that no step wraps around the A or H edge.
   */
  function KingNeighbours(s: Position): Bitboard {
    var b := Bit(s);
    (b << 8) | (b >> 8) | ((b << 1) & NotAFile) | ((b >> 1) & NotHFile) |
    ((b << 9) & NotAFile) | ((b << 7) & NotHFile) | ((b >> 7) & NotAFile) | ((b >> 9) & NotHFile)
  }

  /** The closed form holds exactly the king steps from s. */
  lemma KingNeighboursMoves(s: Position)
    ensures forall t: Position :: IsSet(KingNeighbours(s), t) <==> IsKingMove(s, t)
  {
  }

  // The table entries, one constant per rank of the board (squares A..H).
  const Rank1: seq<Bitboard> := [770, 1797, 3594, 7188, 14376, 28752, 57504, 49216]
  const Rank2: seq<Bitboard> := [197123, 460039, 920078, 1840156, 3680312, 7360624, 14721248, 12599488]
  const Rank3: seq<Bitboard> := [50463488, 117769984, 235539968, 471079936, 942159872, 1884319744, 3768639488, 3225468928]
  const Rank4: seq<Bitboard> := [12918652928, 30149115904, 60298231808, 120596463616, 241192927232, 482385854464, 964771708928, 825720045568]
  const Rank5: seq<Bitboard> := [3307175149568, 7718173671424, 15436347342848, 30872694685696, 61745389371392, 123490778742784, 246981557485568, 211384331665408]
  const Rank6: seq<Bitboard> := [846636838289408, 1975852459884544, 3951704919769088, 7903409839538176, 15806819679076352, 31613639358152704, 63227278716305408, 54114388906344448]
  const Rank7: seq<Bitboard> := [216739030602088448, 505818229730443264, 1011636459460886528, 2023272918921773056, 4046545837843546112, 8093091675687092224, 16186183351374184448, 13853283560024178688]
  const Rank8: seq<Bitboard> := [144959613005987840, 362258295026614272, 724516590053228544, 1449033180106457088, 2898066360212914176, 5796132720425828352, 11592265440851656704, 4665729213955833856]

  /** A table with one bitboard per square. */
  type SquareTable = t: seq<Bitboard> | |t| == 64 witness seq(64, _ => 0)

  /** The 64 table entries indexed by square, A1 first. */
  const KingTable: SquareTable := Rank1 + Rank2 + Rank3 + Rank4 + Rank5 + Rank6 + Rank7 + Rank8

  /** The table lookup: the attack set of a king on square s. */
  function KingTableAt(s: Position): Bitboard {
    KingTable[s]
  }

  /** The table agrees with the closed form on squares lo ..< hi. */
  predicate AgreesOn(lo: bv8, hi: bv8)
    requires lo <= hi <= 64
    decreases hi - lo
  {
    lo == hi || (KingTableAt(lo) == KingNeighbours(lo) && AgreesOn(lo + 1, hi))
  }

  lemma AgreesOnRank1() ensures AgreesOn(0, 8) {}
  lemma AgreesOnRank2() ensures AgreesOn(8, 16) {}
  lemma AgreesOnRank3() ensures AgreesOn(16, 24) {}
  lemma AgreesOnRank4() ensures AgreesOn(24, 32) {}
  lemma AgreesOnRank5() ensures AgreesOn(32, 40) {}
  lemma AgreesOnRank6() ensures AgreesOn(40, 48) {}
  lemma AgreesOnRank7() ensures AgreesOn(48, 56) {}
  lemma AgreesOnRank8() ensures AgreesOn(56, 64) {}

  lemma {:induction false} AgreesOnSplit(lo: bv8, mid: bv8, hi: bv8)
    requires lo <= mid <= hi <= 64
    requires AgreesOn(lo, mid) && AgreesOn(mid, hi)
    ensures AgreesOn(lo, hi)
    decreases mid - lo
  {
    if lo < mid {
      AgreesOnSplit(lo + 1, mid, hi);
    }
  }

  lemma {:induction false} AgreesOnAt(lo: bv8, hi: bv8, s: Position)
    requires lo <= s < hi <= 64
    requires AgreesOn(lo, hi)
    ensures KingTableAt(s) == KingNeighbours(s)
    decreases s - lo
  {
    if lo < s {
      AgreesOnAt(lo + 1, hi, s);
    }
  }

  /** Every table entry equals the closed form. */
  lemma TableIsNeighbours(s: Position)
    ensures KingTableAt(s) == KingNeighbours(s)
  {
    AgreesOnRank1();
    AgreesOnRank2();
    AgreesOnRank3();
    AgreesOnRank4();
    AgreesOnRank5();
    AgreesOnRank6();
    AgreesOnRank7();
    AgreesOnRank8();
    AgreesOnSplit(0, 8, 16);
    AgreesOnSplit(0, 16, 24);
    AgreesOnSplit(0, 24, 32);
    AgreesOnSplit(0, 32, 40);
    AgreesOnSplit(0, 40, 48);
    AgreesOnSplit(0, 48, 56);
    AgreesOnSplit(0, 56, 64);
    AgreesOnAt(0, 64, s);
  }

  /** Every table entry holds exactly the king steps from its square. */
  lemma KingAttacksMoves(s: Position)
    ensures forall t: Position :: IsSet(KingTableAt(s), t) <==> IsKingMove(s, t)
  {
    TableIsNeighbours(s);
    KingNeighboursMoves(s);
  }

  /** A king never attacks its own square. */
  lemma KingNoSelf(s: Position)
    ensures !IsSet(KingTableAt(s), s)
  {
    KingAttacksMoves(s);
  }

  /** A king on s attacks t exactly when a king on t attacks s. */
  lemma KingSymmetric(s: Position, t: Position)
    ensures IsSet(KingTableAt(s), t) <==> IsSet(KingTableAt(t), s)
  {
    KingAttacksMoves(s);
    KingAttacksMoves(t);
    DistSymmetric(File(s), File(t));
    DistSymmetric(Rank(s), Rank(t));
  }

  /**
   * Every attacked square is one of the eight neighbouring indices, and none
   * is reached by wrapping from the H file to the A file or back.
   */
  lemma KingOffsets(s: Position, t: Position)
    requires IsSet(KingTableAt(s), t)
    ensures t == s + 1 || t == s + 7 || t == s + 8 || t == s + 9 ||
            s == t + 1 || s == t + 7 || s == t + 8 || s == t + 9
    ensures File(s) == 7 ==> File(t) >= 6
    ensures File(s) == 0 ==> File(t) <= 1
  {
    KingAttacksMoves(s);
  }

  /** The number of the eight king steps from s that stay on the board. */
  function KingMoveCount(s: Position): (n: nat)
    ensures n <= 8
  {
    var f, r := File(s), Rank(s);
    Indicator(r <= 6) + Indicator(r >= 1) + Indicator(f <= 6) + Indicator(f >= 1) +
    Indicator(r <= 6 && f <= 6) + Indicator(r <= 6 && f >= 1) +
    Indicator(r >= 1 && f <= 6) + Indicator(r >= 1 && f >= 1)
  }

  /** Each shifted copy of the origin bit is either empty or one neighbouring square. */
  lemma KingTerms(s: Position)
    ensures Bit(s) << 8 == OptionalBit(Rank(s) <= 6, s + 8)
    ensures Bit(s) >> 8 == OptionalBit(Rank(s) >= 1, s - 8)
    ensures (Bit(s) << 1) & NotAFile == OptionalBit(File(s) <= 6, s + 1)
    ensures (Bit(s) >> 1) & NotHFile == OptionalBit(File(s) >= 1, s - 1)
    ensures (Bit(s) << 9) & NotAFile == OptionalBit(Rank(s) <= 6 && File(s) <= 6, s + 9)
    ensures (Bit(s) << 7) & NotHFile == OptionalBit(Rank(s) <= 6 && File(s) >= 1, s + 7)
    ensures (Bit(s) >> 7) & NotAFile == OptionalBit(Rank(s) >= 1 && File(s) <= 6, s - 7)
    ensures (Bit(s) >> 9) & NotHFile == OptionalBit(Rank(s) >= 1 && File(s) >= 1, s - 9)
  {
  }

  /** The closed form as a union of eight optional neighbours. */
  lemma KingDecomposition(s: Position)
    ensures var f, r := File(s), Rank(s);
      KingNeighbours(s) ==
        Union(OptionalBit(r <= 6, s + 8), Union(OptionalBit(r >= 1, s - 8),
        Union(OptionalBit(f <= 6, s + 1), Union(OptionalBit(f >= 1, s - 1),
        Union(OptionalBit(r <= 6 && f <= 6, s + 9), Union(OptionalBit(r <= 6 && f >= 1, s + 7),
        Union(OptionalBit(r >= 1 && f <= 6, s - 7), OptionalBit(r >= 1 && f >= 1, s - 9))))))))
  {
    KingTerms(s);
  }

  /** The eight neighbours are distinct squares, so no term shares a square with those after it. */
  lemma KingTermsDisjoint(s: Position)
    ensures var f, r := File(s), Rank(s);
      var t1, t2, t3, t4 := OptionalBit(r <= 6, s + 8), OptionalBit(r >= 1, s - 8),
                            OptionalBit(f <= 6, s + 1), OptionalBit(f >= 1, s - 1);
      var t5, t6, t7, t8 := OptionalBit(r <= 6 && f <= 6, s + 9), OptionalBit(r <= 6 && f >= 1, s + 7),
                            OptionalBit(r >= 1 && f <= 6, s - 7), OptionalBit(r >= 1 && f >= 1, s - 9);
      Disjoint(t7, t8) && Disjoint(t6, Union(t7, t8)) && Disjoint(t5, Union(t6, Union(t7, t8))) &&
      Disjoint(t4, Union(t5, Union(t6, Union(t7, t8)))) &&
      Disjoint(t3, Union(t4, Union(t5, Union(t6, Union(t7, t8))))) &&
      Disjoint(t2, Union(t3, Union(t4, Union(t5, Union(t6, Union(t7, t8)))))) &&
      Disjoint(t1, Union(t2, Union(t3, Union(t4, Union(t5, Union(t6, Union(t7, t8)))))))
  {
  }

  /** The population count of every table entry is the number of on-board king steps. */
  lemma KingAttackCount(s: Position)
    ensures BitCount(KingTableAt(s)) == KingMoveCount(s)
  {
    var f, r := File(s), Rank(s);
    TableIsNeighbours(s);
    KingDecomposition(s);
    KingTermsDisjoint(s);
    BitCountOfOptionalBits(r <= 6, r >= 1, f <= 6, f >= 1,
                           r <= 6 && f <= 6, r <= 6 && f >= 1, r >= 1 && f <= 6, r >= 1 && f >= 1,
                           s + 8, s - 8, s + 1, s - 1, s + 9, s + 7, s - 7, s - 9);
  }

  predicate OnEdge(s: Position) {
    File(s) == 0 || File(s) == 7 || Rank(s) == 0 || Rank(s) == 7
  }

  predicate InCorner(s: Position) {
    (File(s) == 0 || File(s) == 7) && (Rank(s) == 0 || Rank(s) == 7)
  }

  /** A king attacks three squares from a corner, five from the rest of the edge and eight elsewhere. */
  lemma KingAttackCountByRegion(s: Position)
    ensures InCorner(s) ==> BitCount(KingTableAt(s)) == 3
    ensures OnEdge(s) && !InCorner(s) ==> BitCount(KingTableAt(s)) == 5
    ensures !OnEdge(s) ==> BitCount(KingTableAt(s)) == 8
  {
    KingAttackCount(s);
  }

  /** From A1 the king reaches B1, A2 and B2. */
  lemma KingFromA1()
    ensures KingTableAt(0) == Bit(1) | Bit(8) | Bit(9)
  {
  }

  /** From B1 the king reaches A1, C1, A2, B2 and C2. */
  lemma KingFromB1()
    ensures KingTableAt(1) == Bit(0) | Bit(2) | Bit(8) | Bit(9) | Bit(10)
  {
  }

  /** From H1 the king reaches G1, G2 and H2. */
  lemma KingFromH1()
    ensures KingTableAt(7) == Bit(6) | Bit(14) | Bit(15)
  {
  }

  /** From B2 the king reaches all eight surrounding squares. */
  lemma KingFromB2()
    ensures KingTableAt(9) == Bit(0) | Bit(1) | Bit(2) | Bit(8) | Bit(10) | Bit(16) | Bit(17) | Bit(18)
    ensures BitCount(KingTableAt(9)) == 8
  {
    KingAttackCountByRegion(9);
  }

  /** From H8 the king reaches G7, H7 and G8. */
  lemma KingFromH8()
    ensures KingTableAt(63) == Bit(54) | Bit(55) | Bit(62)
  {
  }
}
