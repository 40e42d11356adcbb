/**
 * Counting occurrences, and the "most frequent move" that both strategy
 * packages compute with `groupingBy(identity(), counting())` followed by
 * `max` over the counts.
 */
module Tally {
  import opened Moves

  /** Number of occurrences of `x` in `xs`, counted from the back. */
  function Count<T(==)>(xs: seq<T>, x: T): (n: nat)
    ensures n <= |xs|
  {
    if xs == [] then 0
    else Count(xs[..|xs| - 1], x) + (if xs[|xs| - 1] == x then 1 else 0)
  }

  /** Counting over a list with one more element at the end. */
  lemma CountSnoc<T>(xs: seq<T>, y: T, x: T)
    ensures Count(xs + [y], x) == Count(xs, x) + (if y == x then 1 else 0)
  {
    assert (xs + [y])[..|xs|] == xs;
  }

  /** `Count` is the multiplicity of the value in the list's multiset. */
  lemma {:induction false} CountIsMultiplicity<T>(xs: seq<T>, x: T)
    ensures Count(xs, x) == multiset(xs)[x]
  {
    if xs != [] {
      var init := xs[..|xs| - 1];
      CountIsMultiplicity(init, x);
      assert xs == init + [xs[|xs| - 1]];
    }
  }

  /** A value is counted at least once exactly when it occurs. */
  lemma {:induction false} CountPositiveIffIn<T>(xs: seq<T>, x: T)
    ensures Count(xs, x) > 0 <==> x in xs
  {
    if xs != [] {
      var init := xs[..|xs| - 1];
      CountPositiveIffIn(init, x);
      assert xs == init + [xs[|xs| - 1]];
    }
  }

  /** The three move counts partition the list. */
  lemma {:induction false} MoveCountsSum(moves: seq<Move>)
    ensures Count(moves, ROCK) + Count(moves, PAPER) + Count(moves, SCISSORS) == |moves|
  {
    if moves != [] {
      var init, last := moves[..|moves| - 1], moves[|moves| - 1];
      MoveCountsSum(init);
      assert Count(moves, ROCK) == Count(init, ROCK) + (if last == ROCK then 1 else 0);
      assert Count(moves, PAPER) == Count(init, PAPER) + (if last == PAPER then 1 else 0);
      assert Count(moves, SCISSORS) == Count(init, SCISSORS) + (if last == SCISSORS then 1 else 0);
    }
  }

  /** A move counted at least as often as each of the three moves is counted at least as often as any. */
  lemma DominatesAll(moves: seq<Move>, m: Move)
    requires Count(moves, ROCK) <= Count(moves, m)
    requires Count(moves, PAPER) <= Count(moves, m)
    requires Count(moves, SCISSORS) <= Count(moves, m)
    ensures forall k :: Count(moves, k) <= Count(moves, m)
  {
    forall k: Move
      ensures Count(moves, k) <= Count(moves, m)
    {
      match k
      case ROCK =>
      case PAPER =>
      case SCISSORS =>
    }
  }

  /**
   * A move of maximal count among the moves that occur (only those become
   * keys of the grouping map). The source breaks ties by the grouping map's
   * iteration order, which is unspecified; this model takes the first of
   * ROCK, PAPER, SCISSORS, and the contract promises only "some mode".
   */
  function MostFrequent(moves: seq<Move>): (m: Move)
    requires |moves| > 0
    ensures m in moves
    ensures forall k :: Count(moves, k) <= Count(moves, m)
  {
    MoveCountsSum(moves);
    var r, p, s := Count(moves, ROCK), Count(moves, PAPER), Count(moves, SCISSORS);
    var m := if r >= p && r >= s then ROCK else if p >= s then PAPER else SCISSORS;
    CountPositiveIffIn(moves, m);
    DominatesAll(moves, m);
    m
  }
}
