/**
 * The magic-number candidate filter: draw three pseudo-random words, AND
 * them together, and retry until the candidate spreads the occupancy well
 * enough into the top byte of the wrapped product.
 */
module MagicNumbers {
  import opened Bitboards

  datatype Option<T> = None | Some(value: T)

  /** The top byte of a bitboard: squares A8 to H8. */
  const HighByte: Bitboard := 0xFF00_0000_0000_0000

  /**
   * The filter: at least six squares of the top byte are set in the product
   * of occupation and magic, taken modulo 2^64 as bv64 multiplication does.
   */
  predicate Accepted(occupation: Bitboard, magic: Bitboard) {
    BitCount((occupation * magic) & HighByte) >= 6
  }

  /** The candidate built from three draws: the squares set in all of them. */
  function Candidate(d1: Bitboard, d2: Bitboard, d3: Bitboard): Bitboard {
    d1 & d2 & d3
  }

  /**
   * The pseudo-random generator as an explicit stream of 64-bit words. Its
   * position persists from one call of the filter to the next, as the static
   * generator does.
   */
  class Rng {
    const draws: nat -> Bitboard
    var position: nat

    constructor (draws: nat -> Bitboard)
      ensures this.draws == draws
      ensures position == 0
    {
      this.draws := draws;
      position := 0;
    }

    /** The next word of the stream. */
    method Next() returns (d: Bitboard)
      modifies this
      ensures d == draws(old(position))
      ensures position == old(position) + 1
    {
      d := draws(position);
      position := position + 1;
    }

    /**
     * One attempt's candidate: the AND of the next three words. When the
     * stream is at attempt k of a run that started at index start, this is
     * that attempt's candidate.
     */
    method NextCandidate(ghost start: nat, ghost k: nat) returns (res: Bitboard)
      requires position == start + 3 * k
      modifies this
      ensures res == Attempts(draws, start)(k)
      ensures position == old(position) + 3
    {
      ghost var p := position;
      res := Next();
      var d2 := Next();
      var d3 := Next();
      res := res & d2 & d3;
      AttemptAt(draws, start, k, p);
    }
  }

  /**
   * The candidates of successive attempts when the first attempt starts at
   * stream index start: attempt k uses draws start + 3k to start + 3k + 2.
   */
  function Attempts(draws: nat -> Bitboard, start: nat): nat -> Bitboard {
    (k: nat) => Candidate(draws(start + 3 * k), draws(start + 3 * k + 1), draws(start + 3 * k + 2))
  }

  /** Attempt k reads the three draws from stream index start + 3k on. */
  lemma AttemptAt(draws: nat -> Bitboard, start: nat, k: nat, p: nat)
    requires p == start + 3 * k
    ensures Attempts(draws, start)(k) == Candidate(draws(p), draws(p + 1), draws(p + 2))
  {
  }

  /** The acceptance test of the filter for a given occupancy. */
  function Filter(occupation: Bitboard): Bitboard -> bool {
    magic => Accepted(occupation, magic)
  }

  /**
   * How a bounded run of the filter ends: with the accepted candidate, or
   * with every attempt rejected. In both cases count is the number of
   * attempts made.
   */
  datatype Outcome = Found(magic: Bitboard, count: nat) | Exhausted(count: nat)

  /**
   * The filter loop from attempt k on, with at most fuel attempts left, for
   * any acceptance test over any stream of candidates: the first accepted
   * candidate, or exhaustion of the bound.
   */
  function Search(accept: Bitboard -> bool, cands: nat -> Bitboard, k: nat, fuel: nat): (r: Outcome)
    ensures k <= r.count <= k + fuel
    ensures r.Found? ==> k < r.count
    ensures r.Exhausted? ==> r.count == k + fuel
    decreases fuel
  {
    if fuel == 0 then
      Exhausted(k)
    else if accept(cands(k)) then
      Found(cands(k), k + 1)
    else
      Search(accept, cands, k + 1, fuel - 1)
  }

  /**
   * The do-while loop of the filter for any acceptance test, cut off after
   * fuel attempts. Each attempt consumes three draws, and the loop stops at
   * the first accepted candidate.
   */
  method FilterLoop(accept: Bitboard -> bool, rng: Rng, fuel: nat) returns (r: Option<Bitboard>)
    modifies rng
    ensures var s := Search(accept, Attempts(rng.draws, old(rng.position)), 0, fuel);
      rng.position == old(rng.position) + 3 * s.count &&
      r == (if s.Found? then Some(s.magic) else None)
    ensures r.Some? ==> accept(r.value)
  {
    ghost var cands := Attempts(rng.draws, rng.position);
    var attempts: nat := 0;
    while attempts < fuel
      invariant attempts <= fuel
      invariant rng.position == old(rng.position) + 3 * attempts
      invariant Search(accept, cands, 0, fuel) == Search(accept, cands, attempts, fuel - attempts)
      decreases fuel - attempts
    {
      ghost var k := attempts;
      var res := rng.NextCandidate(old(rng.position), k);
      SearchStep(accept, cands, k, fuel - k);
      attempts := attempts + 1;
      if accept(res) {
        return Some(res);
      }
    }
    return None;
  }

  /**
   * The filter itself: the loop with the acceptance test on the top byte of
   * the product.
   */
  method MagicCandidate(occupation: Bitboard, rng: Rng, fuel: nat) returns (r: Option<Bitboard>)
    modifies rng
    ensures var s := Search(Filter(occupation), Attempts(rng.draws, old(rng.position)), 0, fuel);
      rng.position == old(rng.position) + 3 * s.count &&
      r == (if s.Found? then Some(s.magic) else None)
    ensures r.Some? ==> Accepted(occupation, r.value)
    ensures fuel > 0 ==> old(rng.position) + 3 <= rng.position
    ensures occupation == 0 ==> r == None && rng.position == old(rng.position) + 3 * fuel
  {
    ghost var start := rng.position;
    r := FilterLoop(Filter(occupation), rng, fuel);
    if occupation == 0 {
      ZeroOccupationNeverFound(Attempts(rng.draws, start), 0, fuel);
    }
  }

  /** A found candidate is the accepted one of the last attempt made. */
  lemma {:induction false} SearchFoundAccepted(accept: Bitboard -> bool, cands: nat -> Bitboard, k: nat, fuel: nat)
    requires Search(accept, cands, k, fuel).Found?
    ensures var r := Search(accept, cands, k, fuel); accept(r.magic) && r.magic == cands(r.count - 1)
    decreases fuel
  {
    if !accept(cands(k)) {
      SearchFoundAccepted(accept, cands, k + 1, fuel - 1);
    }
  }

  /**
   * A run over the stream that finds a candidate stops right after the
   * three draws it was built from.
   */
  lemma FoundUsesLastDraws(accept: Bitboard -> bool, draws: nat -> Bitboard, start: nat, fuel: nat)
    requires Search(accept, Attempts(draws, start), 0, fuel).Found?
    ensures var s := Search(accept, Attempts(draws, start), 0, fuel);
      var q := start + 3 * s.count;
      3 <= q && s.magic == Candidate(draws(q - 3), draws(q - 2), draws(q - 1))
  {
    var cands := Attempts(draws, start);
    var s := Search(accept, cands, 0, fuel);
    SearchFoundAccepted(accept, cands, 0, fuel);
    var p := start + 3 * (s.count - 1);
    assert s.magic == cands(s.count - 1);
    AttemptAt(draws, start, s.count - 1, p);
    assert start + 3 * s.count - 3 == p;
  }

  /** One attempt of the filter loop: accept and stop, or reject and go on. */
  lemma SearchStep(accept: Bitboard -> bool, cands: nat -> Bitboard, k: nat, fuel: nat)
    requires fuel > 0
    ensures accept(cands(k)) ==> Search(accept, cands, k, fuel) == Found(cands(k), k + 1)
    ensures !accept(cands(k)) ==> Search(accept, cands, k, fuel) == Search(accept, cands, k + 1, fuel - 1)
  {
  }

  /** Every attempt before the one that was accepted was rejected. */
  lemma {:induction false} SearchRejectsEarlier(accept: Bitboard -> bool, cands: nat -> Bitboard, k: nat, fuel: nat, j: nat)
    requires Search(accept, cands, k, fuel).Found?
    requires k <= j < Search(accept, cands, k, fuel).count - 1
    ensures !accept(cands(j))
    decreases fuel
  {
    if j > k {
      SearchRejectsEarlier(accept, cands, k + 1, fuel - 1, j);
    }
  }

  /** When no candidate is accepted, every attempt within the bound was rejected. */
  lemma {:induction false} SearchExhaustedRejectsAll(accept: Bitboard -> bool, cands: nat -> Bitboard, k: nat, fuel: nat, j: nat)
    requires Search(accept, cands, k, fuel).Exhausted?
    requires k <= j < k + fuel
    ensures !accept(cands(j))
    decreases fuel
  {
    if j > k {
      SearchExhaustedRejectsAll(accept, cands, k + 1, fuel - 1, j);
    }
  }

  /**
   * Conversely, the first accepted attempt within the bound is the one
   * found, and the run stops right after it.
   */
  lemma {:induction false} SearchFindsFirst(accept: Bitboard -> bool, cands: nat -> Bitboard, k: nat, fuel: nat, j: nat)
    requires k <= j < k + fuel
    requires accept(cands(j))
    requires forall i: nat :: k <= i < j ==> !accept(cands(i))
    ensures Search(accept, cands, k, fuel) == Found(cands(j), j + 1)
    decreases fuel
  {
    if j > k {
      SearchFindsFirst(accept, cands, k + 1, fuel - 1, j);
    }
  }

  /** A larger bound never changes a result that was found. */
  lemma {:induction false} SearchMonotone(accept: Bitboard -> bool, cands: nat -> Bitboard, k: nat, fuel: nat, more: nat)
    requires fuel <= more
    requires Search(accept, cands, k, fuel).Found?
    ensures Search(accept, cands, k, more) == Search(accept, cands, k, fuel)
    decreases fuel
  {
    if !accept(cands(k)) {
      SearchMonotone(accept, cands, k + 1, fuel - 1, more - 1);
    }
  }

  /** With an empty occupancy the product is zero, so no candidate is ever accepted. */
  lemma ZeroOccupationRejects(magic: Bitboard)
    ensures !Accepted(0, magic)
  {
    assert (0 * magic) & HighByte == 0;
    BitCountOfEmpty();
  }

  /** With an empty occupancy the search never finds a candidate, whatever the bound. */
  lemma {:induction false} ZeroOccupationNeverFound(cands: nat -> Bitboard, k: nat, fuel: nat)
    ensures Search(Filter(0), cands, k, fuel) == Exhausted(k + fuel)
    decreases fuel
  {
    if fuel > 0 {
      ZeroOccupationRejects(cands(k));
      ZeroOccupationNeverFound(cands, k + 1, fuel - 1);
    }
  }

  /** A candidate holds only squares present in each of its three draws. */
  lemma CandidateWithinDraws(d1: Bitboard, d2: Bitboard, d3: Bitboard, d: Bitboard)
    requires d == d1 || d == d2 || d == d3
    ensures Candidate(d1, d2, d3) & d == Candidate(d1, d2, d3)
  {
  }

  /** Hence it has no more squares than any of the three draws. */
  lemma CandidateCountBound(d1: Bitboard, d2: Bitboard, d3: Bitboard)
    ensures BitCount(Candidate(d1, d2, d3)) <= BitCount(d1)
    ensures BitCount(Candidate(d1, d2, d3)) <= BitCount(d2)
    ensures BitCount(Candidate(d1, d2, d3)) <= BitCount(d3)
  {
    BitCountAnd(d1 & d2, d3);
    BitCountAnd(d1, d2);
  }
}
