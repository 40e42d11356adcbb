/**
 * The strategies of the older `max.rindon.ai` package. Here the
 * history-based strategies take a default move for the first turn instead
 * of a first-turn strategy, so every strategy is total. The coin of `toss`
 * is the value `RANDOM.nextInt(2)` drew at construction, passed in as `rand`.
 */
module LegacyStrategies {
  import opened Moves
  import opened Tally

  datatype Strategy =
    | Constant(move: Move)                                 // always(move)
    | EchoOr(defaultMove: Move)                            // echo(defaultMove)
    | LastLostOr(defaultMove: Move)                        // lastLost(defaultMove)
    | BeatMostFrequentOr(defaultMove: Move)                // beatMostFrequent(defaultMove)
    | Tossed(rand: int, first: Strategy, second: Strategy) // toss(first, second)
    | Alternating(first: Strategy, second: Strategy)       // alternate(first, second)
    | FirstThen(first: Strategy, other: Strategy)          // firstThenOther(first, other)

  /** `s.makeMove(moves)`. */
  function MakeMove(s: Strategy, moves: seq<Move>): Move
  {
    match s
    case Constant(move) => move
    case EchoOr(defaultMove) => if moves == [] then defaultMove else moves[|moves| - 1]
    case LastLostOr(defaultMove) => if moves == [] then defaultMove else Beats(moves[|moves| - 1])
    // an empty history groups into an empty map, whose `max` is empty: `orElse(defaultMove)`
    case BeatMostFrequentOr(defaultMove) => if moves == [] then defaultMove else LosesTo(MostFrequent(moves))
    case Tossed(rand, first, second) => if rand == 0 then MakeMove(first, moves) else MakeMove(second, moves)
    case Alternating(first, second) => if |moves| % 2 == 0 then MakeMove(first, moves) else MakeMove(second, moves)
    case FirstThen(first, other) => if |moves| == 0 then MakeMove(first, moves) else MakeMove(other, moves)
  }

  /** `always(move)`: ignores the history. */
  function Always(move: Move): (s: Strategy)
    ensures forall moves :: MakeMove(s, moves) == move
  {
    Constant(move)
  }

  const ALWAYS_ROCK: Strategy := Always(ROCK)
  const ALWAYS_PAPER: Strategy := Always(PAPER)
  const ALWAYS_SCISSORS: Strategy := Always(SCISSORS)

  /** `echo(defaultMove)`: the default on an empty history, otherwise the opponent's last move. */
  function Echo(defaultMove: Move): (s: Strategy)
    ensures MakeMove(s, []) == defaultMove
    ensures forall moves | moves != [] :: MakeMove(s, moves) == moves[|moves| - 1]
  {
    EchoOr(defaultMove)
  }

  /** `lastLost(defaultMove)`: the default on an empty history, otherwise the move the last one defeats. */
  function LastLost(defaultMove: Move): (s: Strategy)
    ensures MakeMove(s, []) == defaultMove
    ensures forall moves | moves != [] :: LosesTo(MakeMove(s, moves)) == moves[|moves| - 1]
  {
    LastLostOr(defaultMove)
  }

  /**
   * `beatMostFrequent(defaultMove)`: the default on an empty history (no
   * wrapper is needed), otherwise the move that defeats some move of maximal count.
   */
  function BeatMostFrequent(defaultMove: Move): (s: Strategy)
    ensures MakeMove(s, []) == defaultMove
    ensures forall moves | moves != [] ::
      Beats(MakeMove(s, moves)) in moves && forall k :: Count(moves, k) <= Count(moves, Beats(MakeMove(s, moves)))
  {
    BeatMostFrequentOr(defaultMove)
  }

  /**
   * `toss(first, second)`: the coin `rand` is fixed when the strategy is
   * built; every later history goes to `first` when it was 0 and to `second` otherwise.
   */
  function Toss(first: Strategy, second: Strategy, rand: int): (s: Strategy)
    ensures forall moves :: MakeMove(s, moves) == MakeMove(if rand == 0 then first else second, moves)
  {
    Tossed(rand, first, second)
  }

  /** `alternate(first, second)`: `first` on a history of even length, `second` on an odd one. */
  function Alternate(first: Strategy, second: Strategy): (s: Strategy)
    ensures forall moves :: MakeMove(s, moves) == MakeMove(if |moves| % 2 == 0 then first else second, moves)
  {
    Alternating(first, second)
  }

  /** `firstThenOther(first, other)`: `first` exactly on the empty history. */
  function FirstThenOther(first: Strategy, other: Strategy): (s: Strategy)
    ensures forall moves :: MakeMove(s, moves) == MakeMove(if moves == [] then first else other, moves)
  {
    FirstThen(first, other)
  }

  /**
   * Whatever the coin, a toss between two constant strategies keeps to one
   * of them for its whole lifetime: all its moves are equal, and equal to
   * one of the two constants.
   */
  lemma TossKeepsItsChoice(a: Move, b: Move, rand: int, h1: seq<Move>, h2: seq<Move>)
    ensures MakeMove(Toss(Always(a), Always(b), rand), h1) in {a, b}
    ensures MakeMove(Toss(Always(a), Always(b), rand), h1) == MakeMove(Toss(Always(a), Always(b), rand), h2)
  {
  }
}
