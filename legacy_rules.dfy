/**
 * The outcome table of the older `max.rindon.domain` package. Its outcome
 * enum spells the player's defeat `LOSE`, and the lookup is called
 * `outcome`; the values agree entry for entry with the `rps` table.
 */
module LegacyRules {
  import opened Moves
  import R = Rules

  datatype Outcome = WIN | LOSE | DRAW

  /** `Outcome.values()`, in declaration order. */
  const AllOutcomes: seq<Outcome> := [WIN, LOSE, DRAW]

  /**
   * `Rules.outcome(first, second)`, rows ROCK -> DRAW LOSE WIN,
   * PAPER -> WIN DRAW LOSE, SCISSORS -> LOSE WIN DRAW.
   */
  function OutcomeOf(first: Move, second: Move): (r: Outcome)
    ensures r == DRAW <==> first == second
    ensures r == WIN <==> second == Beats(first)
    ensures r == LOSE <==> second == LosesTo(first)
  {
    match first
    case ROCK => (match second case ROCK => DRAW case PAPER => LOSE case SCISSORS => WIN)
    case PAPER => (match second case ROCK => WIN case PAPER => DRAW case SCISSORS => LOSE)
    case SCISSORS => (match second case ROCK => LOSE case PAPER => WIN case SCISSORS => DRAW)
  }

  /** The name-for-name correspondence between the two outcome enums. */
  function ToRps(o: Outcome): (r: R.Outcome)
    ensures o == WIN <==> r == R.WIN
    ensures o == LOSE <==> r == R.LOSS
    ensures o == DRAW <==> r == R.DRAW
  {
    match o
    case WIN => R.WIN
    case LOSE => R.LOSS
    case DRAW => R.DRAW
  }

  /** The old table agrees entry for entry with the `rps` one. */
  lemma OutcomeOfAgreesWithEvaluate(a: Move, b: Move)
    ensures ToRps(OutcomeOf(a, b)) == R.Evaluate(a, b)
  {
  }

  /** Swapping the arguments swaps WIN and LOSE. */
  lemma OutcomeOfAntisymmetric(a: Move, b: Move)
    ensures OutcomeOf(a, b) == WIN <==> OutcomeOf(b, a) == LOSE
    ensures OutcomeOf(a, a) == DRAW
  {
  }

  /** The move that defeats `m` wins against it. */
  lemma LosesToWins(m: Move)
    ensures OutcomeOf(LosesTo(m), m) == WIN
  {
  }
}
