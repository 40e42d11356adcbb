/**
 * The histories and generators of the strategy tests of both packages,
 * worked through the model. The history `MOVES` is R, P, S, P, P.
 */
module StrategyExamples {
  import opened Moves
  import opened Tally
  import opened Transitions
  import opened Strategies
  import L = LegacyStrategies

  const MOVES: seq<Move> := [ROCK, PAPER, SCISSORS, PAPER, PAPER]
  const SIX_ROCKS: seq<Move> := [ROCK, ROCK, ROCK, ROCK, ROCK, ROCK]

  /** The generator that always answers 0 ("always take first"). */
  function Zero(n: int): int { 0 }

  /** Constant, random, echo and last-lost strategies on the tested histories. */
  lemma SimpleStrategiesOnTestedHistories()
    ensures MakeMove(ALWAYS_ROCK, MOVES) == ROCK
    ensures MakeMove(ALWAYS_PAPER, MOVES) == PAPER
    ensures MakeMove(ALWAYS_SCISSORS, MOVES) == SCISSORS
    ensures MakeMove(Random(Zero), []) == ROCK
    ensures MakeMove(Echo(ALWAYS_ROCK), []) == ROCK
    ensures MakeMove(Echo(ALWAYS_ROCK), MOVES) == PAPER
    ensures MakeMove(Echo(ALWAYS_ROCK), [ROCK, PAPER]) == PAPER
    ensures MakeMove(LastLost(ALWAYS_PAPER), []) == PAPER
    ensures MakeMove(LastLost(ALWAYS_PAPER), MOVES) == ROCK
  {
  }

  /** The combinators on the tested histories. */
  lemma CombinatorsOnTestedHistories()
    ensures MakeMove(Toss(ALWAYS_ROCK, ALWAYS_PAPER, Zero), MOVES) == ROCK
    ensures MakeMove(Toss(ALWAYS_ROCK, Echo(ALWAYS_ROCK), (n: int) => 1), MOVES) == PAPER
    ensures MakeMove(Alternate(ALWAYS_ROCK, ALWAYS_PAPER), []) == ROCK
    ensures MakeMove(Alternate(ALWAYS_ROCK, ALWAYS_PAPER), [ROCK]) == PAPER
    ensures MakeMove(Alternate(ALWAYS_ROCK, ALWAYS_PAPER), [ROCK, PAPER]) == ROCK
    ensures MakeMove(FirstThenOther(ALWAYS_ROCK, ALWAYS_SCISSORS), []) == ROCK
    ensures MakeMove(FirstThenOther(ALWAYS_ROCK, ALWAYS_SCISSORS), [ROCK]) == SCISSORS
    ensures MakeMove(FirstThenOther(ALWAYS_ROCK, ALWAYS_SCISSORS), [ROCK, PAPER]) == SCISSORS
  {
  }

  /** PAPER is played three times in `MOVES`, the others once each. */
  lemma MovesCounts()
    ensures Count(MOVES, ROCK) == 1 && Count(MOVES, PAPER) == 3 && Count(MOVES, SCISSORS) == 1
  {
    CountIsMultiplicity(MOVES, ROCK);
    CountIsMultiplicity(MOVES, PAPER);
    CountIsMultiplicity(MOVES, SCISSORS);
  }

  /** The mode of `MOVES` is PAPER, so the answer is SCISSORS. */
  lemma BeatMostFrequentOnMoves()
    ensures MakeMove(BeatMostFrequent(ALWAYS_ROCK), MOVES) == SCISSORS
  {
    MovesCounts();
  }

  /** After six ROCKs the only recorded successor of ROCK is ROCK, so any in-range generator gives PAPER. */
  lemma MarkovOnSixRocks(gen: Gen)
    requires Draws(gen, 3) && Draws(gen, 5)
    ensures MarkovReady(gen, SIX_ROCKS)
    ensures MakeMove(MarkovChain(ALWAYS_PAPER, gen), SIX_ROCKS) == PAPER
  {
    var possible := Successors(SIX_ROCKS, ROCK);
    SuccessorsLength(SIX_ROCKS, ROCK);
    var before := SIX_ROCKS[..5];
    CountPositiveIffIn(before, PAPER);
    CountPositiveIffIn(before, SCISSORS);
    MoveCountsSum(before);
    assert |possible| == 5;
    var predicted := possible[gen(5)];
    SuccessorsMembership(SIX_ROCKS, ROCK, predicted);
  }

  /** The successors of PAPER after R, P, S: one, SCISSORS. */
  lemma PaperSuccessorsAfterThree()
    ensures Successors([ROCK, PAPER, SCISSORS], PAPER) == [SCISSORS]
  {
    SuccessorsSnoc([ROCK], PAPER, PAPER);
    assert [ROCK] + [PAPER] == [ROCK, PAPER];
    SuccessorsSnoc([ROCK, PAPER], SCISSORS, PAPER);
    assert [ROCK, PAPER] + [SCISSORS] == [ROCK, PAPER, SCISSORS];
  }

  /** The successors of PAPER after R, P, S, P: still only SCISSORS. */
  lemma PaperSuccessorsAfterFour()
    ensures Successors([ROCK, PAPER, SCISSORS, PAPER], PAPER) == [SCISSORS]
  {
    PaperSuccessorsAfterThree();
    SuccessorsSnoc([ROCK, PAPER, SCISSORS], PAPER, PAPER);
    assert [ROCK, PAPER, SCISSORS] + [PAPER] == [ROCK, PAPER, SCISSORS, PAPER];
  }

  /** From `MOVES` the table records S, P after PAPER, in that order. */
  lemma PaperSuccessorsInMoves()
    ensures Successors(MOVES, PAPER) == [SCISSORS, PAPER]
  {
    PaperSuccessorsAfterFour();
    SuccessorsSnoc([ROCK, PAPER, SCISSORS, PAPER], PAPER, PAPER);
    assert [ROCK, PAPER, SCISSORS, PAPER] + [PAPER] == MOVES;
  }

  /** With the zero generator the Markov strategy predicts SCISSORS after `MOVES` and answers ROCK. */
  lemma MarkovOnMoves()
    ensures MarkovReady(Zero, MOVES)
    ensures MakeMove(MarkovChain(ALWAYS_PAPER, Zero), MOVES) == ROCK
  {
    PaperSuccessorsInMoves();
    assert MOVES[|MOVES| - 1] == PAPER;
  }

  /** The table after R, R, P: R -> [R, P], nothing else. */
  lemma DocumentedTableAfterThree(m: Move)
    ensures Successors([ROCK, ROCK, PAPER], m) == if m == ROCK then [ROCK, PAPER] else []
  {
    SuccessorsSnoc([ROCK], ROCK, m);
    assert [ROCK] + [ROCK] == [ROCK, ROCK];
    SuccessorsSnoc([ROCK, ROCK], PAPER, m);
    assert [ROCK, ROCK] + [PAPER] == [ROCK, ROCK, PAPER];
  }

  /** The table after R, R, P, S: P -> [S] is added. */
  lemma DocumentedTableAfterFour(m: Move)
    ensures Successors([ROCK, ROCK, PAPER, SCISSORS], m)
         == match m case ROCK => [ROCK, PAPER] case PAPER => [SCISSORS] case SCISSORS => []
  {
    DocumentedTableAfterThree(m);
    SuccessorsSnoc([ROCK, ROCK, PAPER], SCISSORS, m);
    assert [ROCK, ROCK, PAPER] + [SCISSORS] == [ROCK, ROCK, PAPER, SCISSORS];
  }

  /** The table of the documentation's example R, R, P, S, R: R -> [R, P], P -> [S], S -> [R]. */
  lemma MarkovDocumentedTable()
    ensures Successors([ROCK, ROCK, PAPER, SCISSORS, ROCK], ROCK) == [ROCK, PAPER]
    ensures Successors([ROCK, ROCK, PAPER, SCISSORS, ROCK], PAPER) == [SCISSORS]
    ensures Successors([ROCK, ROCK, PAPER, SCISSORS, ROCK], SCISSORS) == [ROCK]
  {
    assert [ROCK, ROCK, PAPER, SCISSORS] + [ROCK] == [ROCK, ROCK, PAPER, SCISSORS, ROCK];
    forall m: Move
      ensures Successors([ROCK, ROCK, PAPER, SCISSORS, ROCK], m)
           == Successors([ROCK, ROCK, PAPER, SCISSORS], m) + (if m == SCISSORS then [ROCK] else [])
    {
      SuccessorsSnoc([ROCK, ROCK, PAPER, SCISSORS], ROCK, m);
    }
    DocumentedTableAfterFour(ROCK);
    DocumentedTableAfterFour(PAPER);
    DocumentedTableAfterFour(SCISSORS);
  }

  /** The tested histories of the older package. */
  lemma LegacyStrategiesOnTestedHistories()
    ensures L.MakeMove(L.ALWAYS_ROCK, MOVES) == ROCK
    ensures L.MakeMove(L.Echo(ROCK), []) == ROCK
    ensures L.MakeMove(L.Echo(ROCK), MOVES) == PAPER
    ensures L.MakeMove(L.LastLost(PAPER), []) == PAPER
    ensures L.MakeMove(L.LastLost(PAPER), MOVES) == ROCK
    ensures L.MakeMove(L.BeatMostFrequent(ROCK), MOVES) == SCISSORS
    ensures L.MakeMove(L.Alternate(L.ALWAYS_ROCK, L.ALWAYS_PAPER), []) == ROCK
    ensures L.MakeMove(L.Alternate(L.ALWAYS_ROCK, L.ALWAYS_PAPER), [ROCK]) == PAPER
    ensures L.MakeMove(L.Alternate(L.ALWAYS_ROCK, L.ALWAYS_PAPER), [ROCK, PAPER]) == ROCK
    ensures L.MakeMove(L.FirstThenOther(L.ALWAYS_ROCK, L.ALWAYS_SCISSORS), []) == ROCK
    ensures L.MakeMove(L.FirstThenOther(L.ALWAYS_ROCK, L.ALWAYS_SCISSORS), [ROCK]) == SCISSORS
    ensures L.MakeMove(L.FirstThenOther(L.ALWAYS_ROCK, L.ALWAYS_SCISSORS), [ROCK, PAPER]) == SCISSORS
  {
    MovesCounts();
  }
}
