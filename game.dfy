/**
 * The game session of the `rps` package (`RockPaperScissors`): the AI's
 * strategy, the append-only history of rounds, and one counter per outcome,
 * all from the human player's point of view.
 */
module Game {
  import opened Moves
  import opened Rules
  import opened Tally
  import opened Strategies

  /** One completed exchange; never changed once made. */
  datatype Round = Round(playerMove: Move, aiMove: Move, outcome: Outcome)

  /** `getPlayerMoves`: the player's moves of the rounds, in play order; never the AI's. */
  function PlayerMoves(history: seq<Round>): (moves: seq<Move>)
    ensures |moves| == |history|
    ensures forall i :: 0 <= i < |history| ==> moves[i] == history[i].playerMove
  {
    if history == [] then []
    else PlayerMoves(history[..|history| - 1]) + [history[|history| - 1].playerMove]
  }

  /** The outcomes of the rounds, in play order. */
  function Outcomes(history: seq<Round>): (outcomes: seq<Outcome>)
    ensures |outcomes| == |history|
    ensures forall i :: 0 <= i < |history| ==> outcomes[i] == history[i].outcome
  {
    if history == [] then []
    else Outcomes(history[..|history| - 1]) + [history[|history| - 1].outcome]
  }

  /** Playing one more round shows the strategy one more move: the player's. */
  lemma PlayerMovesSnoc(history: seq<Round>, round: Round)
    ensures PlayerMoves(history + [round]) == PlayerMoves(history) + [round.playerMove]
    ensures Outcomes(history + [round]) == Outcomes(history) + [round.outcome]
  {
    assert (history + [round])[..|history|] == history;
  }

  /** The three outcome counts partition the outcomes. */
  lemma {:induction false} OutcomeCountsSum(outcomes: seq<Outcome>)
    ensures Count(outcomes, WIN) + Count(outcomes, LOSS) + Count(outcomes, DRAW) == |outcomes|
  {
    if outcomes != [] {
      var init, last := outcomes[..|outcomes| - 1], outcomes[|outcomes| - 1];
      OutcomeCountsSum(init);
      assert Count(outcomes, WIN) == Count(init, WIN) + (if last == WIN then 1 else 0);
      assert Count(outcomes, LOSS) == Count(init, LOSS) + (if last == LOSS then 1 else 0);
      assert Count(outcomes, DRAW) == Count(init, DRAW) + (if last == DRAW then 1 else 0);
    }
  }

  /** The statistics hold a counter for every outcome, equal to the number of rounds with that outcome. */
  predicate Tallies(statistics: map<Outcome, int>, history: seq<Round>)
  {
    forall o: Outcome :: o in statistics && statistics[o] == Count(Outcomes(history), o)
  }

  /** Counting one more round adds one to its outcome's counter and keeps the others. */
  lemma TalliesSnoc(statistics: map<Outcome, int>, history: seq<Round>, round: Round)
    requires Tallies(statistics, history)
    ensures Tallies(statistics[round.outcome := statistics[round.outcome] + 1], history + [round])
  {
    PlayerMovesSnoc(history, round);
    forall o: Outcome
      ensures Count(Outcomes(history + [round]), o) == Count(Outcomes(history), o) + (if round.outcome == o then 1 else 0)
    {
      CountSnoc(Outcomes(history), round.outcome, o);
    }
  }

  /** Counters that tally a history add up to its length. */
  lemma TalliesSumToLength(statistics: map<Outcome, int>, history: seq<Round>)
    requires Tallies(statistics, history)
    ensures statistics[WIN] + statistics[LOSS] + statistics[DRAW] == |history|
  {
    OutcomeCountsSum(Outcomes(history));
  }

  /** `initStatistics`: a 0 counter for every outcome, filled in a loop over `Outcome.values()`. */
  method InitStatistics() returns (result: map<Outcome, int>)
    ensures forall o: Outcome :: o in result && result[o] == 0
    ensures Tallies(result, [])
  {
    result := map[];
    for i := 0 to |AllOutcomes|
      invariant forall j :: 0 <= j < i ==> AllOutcomes[j] in result
      invariant forall o :: o in result ==> result[o] == 0
    {
      result := result[AllOutcomes[i] := 0];
    }
    forall o: Outcome
      ensures o in result
    {
      match o
      case WIN => assert AllOutcomes[0] == o;
      case LOSS => assert AllOutcomes[1] == o;
      case DRAW => assert AllOutcomes[2] == o;
    }
  }

  class Session {
    const aiStrategy: Strategy
    var history: seq<Round>
    var statistics: map<Outcome, int>

    /** The counters always tally the history. */
    ghost predicate Valid()
      reads this
    {
      Tallies(statistics, history)
    }

    /** A new session: no rounds, every counter 0. */
    constructor (aiStrategy: Strategy)
      ensures Valid()
      ensures this.aiStrategy == aiStrategy
      ensures history == []
      ensures forall o: Outcome :: statistics[o] == 0
    {
      this.aiStrategy := aiStrategy;
      history := [];
      var initial := InitStatistics();
      statistics := initial;
    }

    /**
     * `playRound`: the strategy sees the player's earlier moves, the round is
     * judged from the player's side, appended, and its outcome's counter
     * goes up by one. The strategy must not throw on that history.
     */
    method PlayRound(playerMove: Move) returns (round: Round)
      requires Valid()
      requires Defined(aiStrategy, PlayerMoves(history))
      modifies this
      ensures Valid()
      ensures round.playerMove == playerMove
      ensures round.aiMove == MakeMove(aiStrategy, PlayerMoves(old(history)))
      ensures round.outcome == Evaluate(playerMove, round.aiMove)
      ensures history == old(history) + [round]
      ensures statistics == old(statistics)[round.outcome := old(statistics)[round.outcome] + 1]
    {
      var pastPlayerMoves := PlayerMoves(history);
      var aiMove := MakeMove(aiStrategy, pastPlayerMoves);
      var outcome := Evaluate(playerMove, aiMove);
      round := Round(playerMove, aiMove, outcome);
      TalliesSnoc(statistics, history, round);
      history := history + [round];
      statistics := statistics[outcome := statistics[outcome] + 1];
    }

    /** `getStatistics`: a read-only snapshot; it changes nothing, so two calls in a row agree. */
    method GetStatistics() returns (stats: map<Outcome, int>)
      requires Valid()
      ensures stats == statistics
      ensures Tallies(stats, history)
      ensures stats[WIN] + stats[LOSS] + stats[DRAW] == |history|
    {
      stats := statistics;
      TalliesSumToLength(stats, history);
    }
  }

  /**
   * The integration scenario: against ALWAYS_ROCK the player plays r, P, s,
   * drawing, winning and losing once each.
   */
  method ThreeRoundsAgainstRock() returns (rounds: seq<Round>, stats: map<Outcome, int>)
    ensures rounds == [Round(ROCK, ROCK, DRAW), Round(PAPER, ROCK, WIN), Round(SCISSORS, ROCK, LOSS)]
    ensures Tallies(stats, rounds)
    ensures stats[WIN] == 1 && stats[LOSS] == 1 && stats[DRAW] == 1
  {
    var game := new Session(ALWAYS_ROCK);
    var first := game.PlayRound(ROCK);
    assert first.aiMove == ROCK && first.outcome == DRAW;
    var second := game.PlayRound(PAPER);
    assert second.aiMove == ROCK && second.outcome == WIN;
    var third := game.PlayRound(SCISSORS);
    assert third.aiMove == ROCK && third.outcome == LOSS;
    rounds := game.history;
    assert rounds == [first, second, third];
    stats := game.GetStatistics();
  }
}
