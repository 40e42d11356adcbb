/**
 * The outcome table of the `rps` package: `evaluate(first, second)` reads
 * the row of `first` and the column of `second`, and the result is always
 * from the point of view of `first` (the human player in a session).
 */
module Rules {
  import opened Moves

  datatype Outcome = WIN | LOSS | DRAW

  /** `Outcome.values()`, in declaration order. */
  const AllOutcomes: seq<Outcome> := [WIN, LOSS, DRAW]

  /**
   * One row per first move, filled as `initRow(move, rock, paper, scissors)`:
   * ROCK -> DRAW LOSS WIN, PAPER -> WIN DRAW LOSS, SCISSORS -> LOSS WIN DRAW.
   * The result is characterised by the `Move` tables alone.
   */
  function Evaluate(first: Move, second: Move): (r: Outcome)
    ensures r == DRAW <==> first == second
    ensures r == WIN <==> second == Beats(first)
    ensures r == LOSS <==> second == LosesTo(first)
  {
    match first
    case ROCK => (match second case ROCK => DRAW case PAPER => LOSS case SCISSORS => WIN)
    case PAPER => (match second case ROCK => WIN case PAPER => DRAW case SCISSORS => LOSS)
    case SCISSORS => (match second case ROCK => LOSS case PAPER => WIN case SCISSORS => DRAW)
  }

  /** Swapping the arguments swaps WIN and LOSS. */
  lemma EvaluateAntisymmetric(a: Move, b: Move)
    ensures Evaluate(a, b) == WIN <==> Evaluate(b, a) == LOSS
    ensures Evaluate(a, b) == DRAW <==> Evaluate(b, a) == DRAW
  {
  }

  /** Each row of the table holds exactly one WIN, one LOSS and one DRAW. */
  lemma EvaluateRowIsPermutation(a: Move)
    ensures multiset{Evaluate(a, ROCK), Evaluate(a, PAPER), Evaluate(a, SCISSORS)}
         == multiset{WIN, LOSS, DRAW}
  {
  }

  /** The nine pairs the rules test enumerates. */
  lemma EvaluateTestedPairs()
    ensures Evaluate(ROCK, PAPER) == LOSS && Evaluate(ROCK, ROCK) == DRAW && Evaluate(ROCK, SCISSORS) == WIN
    ensures Evaluate(PAPER, SCISSORS) == LOSS && Evaluate(PAPER, PAPER) == DRAW && Evaluate(PAPER, ROCK) == WIN
    ensures Evaluate(SCISSORS, ROCK) == LOSS && Evaluate(SCISSORS, SCISSORS) == DRAW && Evaluate(SCISSORS, PAPER) == WIN
  {
  }
}
