# Kangaroo bitboard leaper attacks and magic candidate filter, in Dafny

This project models three small pieces of the Kangaroo chess engine's
bitboard code and proves properties of them. A bitboard is a 64-bit mask
with one bit per square: square 0 is A1, and indices grow along a rank and
then rank by rank, so a square's file is its index mod 8 and its rank is its
index div 8.

- **Knight generator** (`knight_attacks.dfy`). `create_knight_attacks`
  shifts the origin bit by the eight knight offsets (17, 15, 6 and 10, in
  both directions) and masks each copy with a file mask so that no move
  wraps around the A or H edge. `CreateKnightAttacks` is the accumulator
  method as the test file writes it, proved equal to the single-expression
  function `KnightAttackSet`. That function has exactly the knight moves from
  its square. The test loop becomes `KnightAttacksTest`, which accepts a
  candidate table exactly when every entry equals the generator.
- **King table** (`king_attacks.dfy`). The source's 64 numeric literals sit
  in `KingTable`, stored as one constant per rank and joined. Every entry is
  proved equal to a closed form `KingNeighbours`, and hence equal to the set
  of squares one king step away. This gives absence of the own square,
  symmetry, offsets without wrap-around, and exact population counts: 3 in a
  corner, 5 on the rest of the edge and 8 elsewhere.
- **Magic candidate filter** (`magic_numbers.dfy`). `magic_candidate` draws
  three words from a `static` generator, ANDs them, and repeats until at
  least six of the top eight bits of `occupation * res` are set. Here `*` is
  64-bit multiplication, which wraps.
  - The generator is the class `Rng`: a fixed stream of words plus a
    position that persists between calls.
  - The loop is `FilterLoop`, written for any acceptance test. It is run
    with the source's test by `MagicCandidate`.
  - Both methods are proved against the recursive specification `Search`.
    Lemmas about `Search` show that the first passing attempt is the one
    returned, that every earlier attempt failed, and that an empty
    occupancy never passes.

`bitboards.dfy` holds the shared vocabulary:
- squares as 8-bit values below 64, bitboards as `bv64`;
- the four file masks;
- population count (`BitCount`) with its counting lemmas.

The file masks, `set_bit` and `Bitcount` come from `include/bitboard.h`,
which is not part of this model. They are defined here by their meaning:
- `not_a_file = ~0x0101010101010101`
- `not_h_file = ~0x8080808080808080`
- `not_ab_file = ~0x0303030303030303`
- `not_gh_file = ~0xC0C0C0C0C0C0C0C0`
- `set_bit(0, p) = 1 << p`
- `Bitcount` is the number of set bits.

## Model

| member | source | states |
|---|---|---|
| Bitboards.FileMasks | test/knight_attacks_tests.cpp:16-24 | each of the file masks used by the generator and the king step holds exactly the squares outside its named files (A, H, A and B, G and H) |
| KnightAttacks.KnightAttackSet | test/knight_attacks_tests.cpp:11-26 | bit t of the generator's result is set iff t is one knight move (one file and two ranks, or two files and one rank) from p: every on-board knight move is present, and no wrapped or off-board square is |
| KnightAttacks.CreateKnightAttacks | test/knight_attacks_tests.cpp:11-26 | the eight in-place `|=` updates of the accumulator end with exactly the single-expression generator, hence with exactly the knight moves |
| KnightAttacks.KnightAttacksTest | test/knight_attacks_tests.cpp:28-32 | the loop over all 64 positions returns true iff table[p] equals the generator for every position p |
| KnightAttacks.PassingTableIsKnightMoves | test/knight_attacks_tests.cpp:28-32 | a table that passes the test holds, at every square, exactly the knight moves from that square |
| KnightAttacks.KnightOriginNotSet | test/knight_attacks_tests.cpp:13-24 | the origin's own bit is never in the result |
| KnightAttacks.KnightOffsets | test/knight_attacks_tests.cpp:16-24 | every attacked square lies 6, 10, 15 or 17 above or below the origin |
| KnightAttacks.KnightSymmetric | test/knight_attacks_tests.cpp:11-26 | p attacks t iff t attacks p, for all squares |
| KnightAttacks.KnightMoveCount | test/knight_attacks_tests.cpp:16-24 | the number of on-board knight moves, one per offset whose edge condition holds, is at most 8 |
| KnightAttacks.KnightTerms | test/knight_attacks_tests.cpp:16-24 | each masked shift of the origin bit is either empty or the single square at that offset, and it is present exactly when the move stays on the board |
| KnightAttacks.KnightDecomposition | test/knight_attacks_tests.cpp:16-24 | the generator is the union of the eight optional target squares |
| KnightAttacks.KnightTermsDisjoint | test/knight_attacks_tests.cpp:16-24 | the eight optional targets are pairwise distinct squares |
| KnightAttacks.KnightTermsCount | test/knight_attacks_tests.cpp:16-24 | the population count of the union of the eight optional targets is the number of on-board knight moves |
| KnightAttacks.KnightAttackCount | test/knight_attacks_tests.cpp:16-24 | the population count of the generator equals the number of on-board knight moves |
| KnightAttacks.KnightAttackCountAtMostEight | test/knight_attacks_tests.cpp:16-24 | the population count of the generator is at most 8 for every square |
| KnightAttacks.KnightFromA1 | test/knight_attacks_tests.cpp:11-26 | from A1 the generator gives exactly C2 (bit 10) and B3 (bit 17), population count 2 |
| KingAttacks.KingNeighboursMoves | include/king_attacks.h:13-33 | the closed form has bit t set iff t is one king step from s (Chebyshev distance 1) |
| KingAttacks.AgreesOnRank1 | include/king_attacks.h:35-138 | the eight literals for A1..H1 equal the closed form |
| KingAttacks.AgreesOnRank2 | include/king_attacks.h:139-242 | the eight literals for A2..H2 equal the closed form |
| KingAttacks.AgreesOnRank3 | include/king_attacks.h:243-346 | the eight literals for A3..H3 equal the closed form |
| KingAttacks.AgreesOnRank4 | include/king_attacks.h:347-450 | the eight literals for A4..H4 equal the closed form |
| KingAttacks.AgreesOnRank5 | include/king_attacks.h:451-554 | the eight literals for A5..H5 equal the closed form |
| KingAttacks.AgreesOnRank6 | include/king_attacks.h:555-658 | the eight literals for A6..H6 equal the closed form |
| KingAttacks.AgreesOnRank7 | include/king_attacks.h:659-762 | the eight literals for A7..H7 equal the closed form |
| KingAttacks.AgreesOnRank8 | include/king_attacks.h:763-866 | the eight literals for A8..H8 equal the closed form |
| KingAttacks.TableIsNeighbours | include/king_attacks.h:34-867 | every one of the 64 table entries equals the closed form for its square |
| KingAttacks.KingAttacksMoves | include/king_attacks.h:13-33 | the documented contract: bit t of king_attacks[s] is set iff t is one king step from s |
| KingAttacks.KingNoSelf | include/king_attacks.h:13-33 | no entry contains its own square |
| KingAttacks.KingSymmetric | include/king_attacks.h:13-33 | bit t of entry s is set iff bit s of entry t is set |
| KingAttacks.KingOffsets | include/king_attacks.h:13-33 | every attacked square is 1, 7, 8 or 9 above or below s; an H-file entry has only G- and H-file squares; an A-file entry has only A- and B-file squares |
| KingAttacks.KingMoveCount | include/king_attacks.h:13-33 | the number of on-board king steps, one per direction whose edge condition holds, is at most 8 |
| KingAttacks.KingTerms | include/king_attacks.h:13-33 | each of the eight one-step shifts of the origin bit, masked against wrap-around, is either empty or the single neighbour in that direction, present exactly when the step stays on the board |
| KingAttacks.KingDecomposition | include/king_attacks.h:13-33 | the closed form is the union of the eight optional neighbours |
| KingAttacks.KingTermsDisjoint | include/king_attacks.h:13-33 | the eight optional neighbours are pairwise distinct squares |
| KingAttacks.KingAttackCount | include/king_attacks.h:34-867 | the population count of every entry equals the number of on-board king steps from its square |
| KingAttacks.KingAttackCountByRegion | include/king_attacks.h:34-867 | entries have 3 squares in a corner, 5 on the rest of the edge and 8 elsewhere |
| KingAttacks.KingFromA1 | include/king_attacks.h:35-47 | king_attacks[0] is exactly B1, A2 and B2 |
| KingAttacks.KingFromB1 | include/king_attacks.h:48-60 | king_attacks[1] is exactly A1, C1, A2, B2 and C2 |
| KingAttacks.KingFromH1 | include/king_attacks.h:126-138 | king_attacks[7] is exactly G1, G2 and H2 (no A-file square) |
| KingAttacks.KingFromB2 | include/king_attacks.h:152-164 | king_attacks[9] is exactly the eight squares around B2, population count 8 |
| KingAttacks.KingFromH8 | include/king_attacks.h:854-866 | king_attacks[63] is exactly G7, H7 and G8 |
| MagicNumbers.Rng.constructor | src/magic_numbers.cpp:12 | a fresh generator is at the start of its stream |
| MagicNumbers.Rng.Next | src/magic_numbers.cpp:18 | one `rng()` call returns the word at the current position and advances the position by one |
| MagicNumbers.Rng.NextCandidate | src/magic_numbers.cpp:18 | `rng() & rng() & rng()` consumes exactly three words and yields the candidate of the current attempt |
| MagicNumbers.Search | src/magic_numbers.cpp:17-19 | a bounded run makes at least one attempt when the bound allows; it ends found after one more attempt or exhausted after all of them |
| MagicNumbers.FilterLoop | src/magic_numbers.cpp:17-19 | the loop's result and the stream's new position are those of the specification run; a returned value passes the test |
| MagicNumbers.MagicCandidate | src/magic_numbers.cpp:11-22 | the returned candidate passes the top-byte test; the stream advances by three per attempt and by at least three when any attempt is allowed; with occupation 0 nothing is returned |
| MagicNumbers.SearchFoundAccepted | src/magic_numbers.cpp:19 | a found candidate passes the test and is the candidate of the last attempt made |
| MagicNumbers.FoundUsesLastDraws | src/magic_numbers.cpp:17-19 | a found candidate is the AND of the last three words the run consumed |
| MagicNumbers.SearchRejectsEarlier | src/magic_numbers.cpp:17-19 | every attempt before the found one failed the test |
| MagicNumbers.SearchExhaustedRejectsAll | src/magic_numbers.cpp:17-19 | when nothing is found, every attempt within the bound failed the test |
| MagicNumbers.SearchFindsFirst | src/magic_numbers.cpp:17-19 | the first passing attempt within the bound is the one found, and the run stops right after it |
| MagicNumbers.SearchMonotone | src/magic_numbers.cpp:17-19 | raising the bound never changes a found result |
| MagicNumbers.ZeroOccupationRejects | src/magic_numbers.cpp:19 | with occupation 0 the product is 0, so no candidate passes the test |
| MagicNumbers.ZeroOccupationNeverFound | src/magic_numbers.cpp:17-19 | with occupation 0 every bounded run is exhausted: the source's loop cannot terminate |
| MagicNumbers.CandidateWithinDraws | src/magic_numbers.cpp:18 | the candidate is bitwise a subset of each of its three draws |
| MagicNumbers.CandidateCountBound | src/magic_numbers.cpp:18 | the candidate's population count is at most that of each of its three draws |

## Left out

- `compute_magic_numbers` (src/magic_numbers.cpp:24-39) is not modelled. It is
  console output around `find_magic_number`, which lives in `magic_numbers.h`.
  That file, and the blocker-mask, ray-attack and table-building code behind
  it, are not part of this model.
- The internals of `std::mt19937_64` are left out, as is any claim about its
  distribution. The generator is an arbitrary stream of 64-bit words
  (`Rng.draws`) with a position.
- MagicCandidate: the do-while loop is unbounded in the source. The model
  stops after `fuel` attempts, and then returns `None` with the stream
  advanced by 3 × `fuel`. With `fuel` 0 the model makes no attempt, whereas
  the source's body always runs at least once.
  - Non-termination for occupation 0 is stated as "every bounded run is
    exhausted" (`ZeroOccupationNeverFound`).
- FilterLoop takes the acceptance test as a parameter. `MagicCandidate` is
  this loop with the source's fixed test, so both run the same loop.
- C++ leaves unspecified the order in which the three `rng()` operands are
  evaluated. The model draws them left to right. Because `&` is commutative
  and associative, every order yields the same candidate from the same three
  words.
- The Catch2 harness (`TEST_CASE`, `REQUIRE`) is left out. The test is the
  method `KnightAttacksTest`, whose result is the conjunction of the
  `REQUIRE`d equalities.
- KnightAttacksTest: the source iterates over `All_Positions`, which is defined in
  `include/bitboard.h` and is not part of this model. The model assumes it lists
  each of the 64 squares exactly once and iterates 0 to 63. The result does not
  depend on the order.
- The knight table data in `include/knight_attacks.h` is not part of this
  model. The test takes the table as a parameter, so only its relation to
  the generator is stated.
- The ASCII board drawings in the comments of `include/king_attacks.h` are
  documentation only. The numeric literals are the data.
- The king table is stored as eight rank constants joined into one sequence,
  rather than as one 64-element literal. The values and their order are
  those of the source.
- `Position` is an 8-bit value below 64. The source's own position type lives
  in `include/bitboard.h`, which is not part of this model.
- Move legality, the board representation and formatting are left out.
