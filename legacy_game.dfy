/**
 * The game session of the older `max.rindon.domain` package. It works as the
 * `rps` one does, with the older strategies (total, so every round can be
 * played) and the older outcome table (`Rules.outcome`, defeat spelled `LOSE`).
 */
module LegacyGame {
  import opened Moves
  import opened LegacyRules
  import opened Tally
  import opened LegacyStrategies

  /** One completed exchange; its fields are final. */
  datatype Round = Round(playerMove: Move, aiMove: Move, outcome: Outcome)

  /** The player's moves of the rounds, in play order, as `playRound` collects them. */
  function PastPlayerMoves(history: seq<Round>): (moves: seq<Move>)
    ensures |moves| == |history|
    ensures forall i :: 0 <= i < |history| ==> moves[i] == history[i].playerMove
  {
    if history == [] then []
    else PastPlayerMoves(history[..|history| - 1]) + [history[|history| - 1].playerMove]
  }

  /** The outcomes of the rounds, in play order. */
  function Outcomes(history: seq<Round>): (outcomes: seq<Outcome>)
    ensures |outcomes| == |history|
    ensures forall i :: 0 <= i < |history| ==> outcomes[i] == history[i].outcome
  {
    if history == [] then []
    else Outcomes(history[..|history| - 1]) + [history[|history| - 1].outcome]
  }

  /** One more round adds its player move and its outcome at the end. */
  lemma RoundSnoc(history: seq<Round>, round: Round)
    ensures PastPlayerMoves(history + [round]) == PastPlayerMoves(history) + [round.playerMove]
    ensures Outcomes(history + [round]) == Outcomes(history) + [round.outcome]
  {
    assert (history + [round])[..|history|] == history;
  }

  /** The three outcome counts partition the outcomes. */
  lemma {:induction false} OutcomeCountsSum(outcomes: seq<Outcome>)
    ensures Count(outcomes, WIN) + Count(outcomes, LOSE) + Count(outcomes, DRAW) == |outcomes|
  {
    if outcomes != [] {
      var init, last := outcomes[..|outcomes| - 1], outcomes[|outcomes| - 1];
      OutcomeCountsSum(init);
      assert Count(outcomes, WIN) == Count(init, WIN) + (if last == WIN then 1 else 0);
      assert Count(outcomes, LOSE) == Count(init, LOSE) + (if last == LOSE then 1 else 0);
      assert Count(outcomes, DRAW) == Count(init, DRAW) + (if last == DRAW then 1 else 0);
    }
  }

  /** A counter for every outcome, equal to the number of rounds with that outcome. */
  predicate Tallies(statistics: map<Outcome, int>, history: seq<Round>)
  {
    forall o: Outcome :: o in statistics && statistics[o] == Count(Outcomes(history), o)
  }

  /** Counting one more round adds one to its outcome's counter and keeps the others. */
  lemma TalliesSnoc(statistics: map<Outcome, int>, history: seq<Round>, round: Round)
    requires Tallies(statistics, history)
    ensures Tallies(statistics[round.outcome := statistics[round.outcome] + 1], history + [round])
  {
    RoundSnoc(history, round);
    forall o: Outcome
      ensures Count(Outcomes(history + [round]), o) == Count(Outcomes(history), o) + (if round.outcome == o then 1 else 0)
    {
      CountSnoc(Outcomes(history), round.outcome, o);
    }
  }

  /** Counters that tally a history add up to its length. */
  lemma TalliesSumToLength(statistics: map<Outcome, int>, history: seq<Round>)
    requires Tallies(statistics, history)
    ensures statistics[WIN] + statistics[LOSE] + statistics[DRAW] == |history|
  {
    OutcomeCountsSum(Outcomes(history));
  }

  /** `initStatistics`: a 0 counter for every outcome, filled in a loop over `Outcome.values()`. */
  method InitStatistics() returns (result: map<Outcome, int>)
    ensures forall o: Outcome :: o in result && result[o] == 0
    ensures Tallies(result, [])
  {
    result := map[];
    for i := 0 to |AllOutcomes|
      invariant forall j :: 0 <= j < i ==> AllOutcomes[j] in result
      invariant forall o :: o in result ==> result[o] == 0
    {
      result := result[AllOutcomes[i] := 0];
    }
    forall o: Outcome
      ensures o in result
    {
      match o
      case WIN => assert AllOutcomes[0] == o;
      case LOSE => assert AllOutcomes[1] == o;
      case DRAW => assert AllOutcomes[2] == o;
    }
  }

  class Session {
    const aiStrategy: Strategy
    var history: seq<Round>
    var statistics: map<Outcome, int>

    /** The counters always tally the history. */
    ghost predicate Valid()
      reads this
    {
      Tallies(statistics, history)
    }

    /** A new session: no rounds, every counter 0. */
    constructor (aiStrategy: Strategy)
      ensures Valid()
      ensures this.aiStrategy == aiStrategy
      ensures history == []
      ensures forall o: Outcome :: statistics[o] == 0
    {
      this.aiStrategy := aiStrategy;
      history := [];
      var initial := InitStatistics();
      statistics := initial;
    }

    /**
     * `playRound`: the strategy sees the player's earlier moves, the round is
     * judged with `Rules.outcome` from the player's side, appended, and its
     * outcome's counter goes up by one. Every older strategy is total, so
     * there is no precondition beyond the invariant.
     */
    method PlayRound(playerMove: Move) returns (round: Round)
      requires Valid()
      modifies this
      ensures Valid()
      ensures round.playerMove == playerMove
      ensures round.aiMove == MakeMove(aiStrategy, PastPlayerMoves(old(history)))
      ensures round.outcome == OutcomeOf(playerMove, round.aiMove)
      ensures history == old(history) + [round]
      ensures statistics == old(statistics)[round.outcome := old(statistics)[round.outcome] + 1]
    {
      var pastPlayerMoves := PastPlayerMoves(history);
      var aiMove := MakeMove(aiStrategy, pastPlayerMoves);
      var outcome := OutcomeOf(playerMove, aiMove);
      round := Round(playerMove, aiMove, outcome);
      TalliesSnoc(statistics, history, round);
      history := history + [round];
      statistics := statistics[outcome := statistics[outcome] + 1];
    }

    /** `getStatistics`: the counters; reading them changes nothing. */
    method GetStatistics() returns (stats: map<Outcome, int>)
      requires Valid()
      ensures stats == statistics
      ensures Tallies(stats, history)
      ensures stats[WIN] + stats[LOSE] + stats[DRAW] == |history|
    {
      stats := statistics;
      TalliesSumToLength(stats, history);
    }
  }

  /**
   * The integration scenario of the `rps` package played on this session:
   * against ALWAYS_ROCK the player's ROCK, PAPER, SCISSORS draw, win and
   * lose once each.
   */
  method ThreeRoundsAgainstRock() returns (rounds: seq<Round>, stats: map<Outcome, int>)
    ensures rounds == [Round(ROCK, ROCK, DRAW), Round(PAPER, ROCK, WIN), Round(SCISSORS, ROCK, LOSE)]
    ensures Tallies(stats, rounds)
    ensures stats[WIN] == 1 && stats[LOSE] == 1 && stats[DRAW] == 1
  {
    var game := new Session(ALWAYS_ROCK);
    var first := game.PlayRound(ROCK);
    assert first.aiMove == ROCK && first.outcome == DRAW;
    var second := game.PlayRound(PAPER);
    assert second.aiMove == ROCK && second.outcome == WIN;
    var third := game.PlayRound(SCISSORS);
    assert third.aiMove == ROCK && third.outcome == LOSE;
    rounds := game.history;
    assert rounds == [first, second, third];
    stats := game.GetStatistics();
  }
}
