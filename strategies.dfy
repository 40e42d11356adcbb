/**
 * The strategies of the `rps` package. A strategy maps the opponent's past
 * moves, oldest first, to the next move. Each factory of `Strategies`
 * becomes a constructor of `Strategy`, interpreted by `MakeMove`; the
 * random-number source `Function<Integer, Integer>` is the parameter `gen`.
 * `Defined(s, moves)` says that `s.makeMove(moves)` does not throw.
 */
module Strategies {
  import opened Moves
  import opened Wrappers
  import opened Tally
  import opened Transitions
  import opened Lists

  /** The injected generator: asked with a bound `n`, it should answer an index below `n`. */
  type Gen = int -> int

  /** The generator's answer to `n` is a valid index below `n`. */
  predicate Draws(gen: Gen, n: int)
  {
    0 <= gen(n) < n
  }

  /** `randomMove(gen)`: `Move.values()[gen.apply(3)]`, which throws when the answer is out of range. */
  function RandomMove(gen: Gen): (m: Move)
    requires Draws(gen, |AllMoves|)
    ensures m == ROCK <==> gen(3) == 0
    ensures m == PAPER <==> gen(3) == 1
    ensures m == SCISSORS <==> gen(3) == 2
  {
    AllMoves[gen(|AllMoves|)]
  }

  /** `getRandomElement(xs, gen)`: empty for an empty list, otherwise the element at `gen(|xs|)`. */
  function GetRandomElement<T>(xs: seq<T>, gen: Gen): (r: Option<T>)
    requires xs != [] ==> Draws(gen, |xs|)
    ensures r.None? <==> xs == []
    ensures r.Some? ==> r.value in xs && r.value == xs[gen(|xs|)]
  {
    if xs == [] then None else Some(xs[gen(|xs|)])
  }

  datatype Strategy =
    | Constant(move: Move)                            // always(move)
    | Uniform(gen: Gen)                               // random(gen)
    | EchoLast                                        // the private echo()
    | LoserOfLast                                     // the private lastLost()
    | BeatMode                                        // the private beatMostFrequent()
    | Markov(gen: Gen)                                // new MarkovChainStrategy(gen)
    | Tossed(rand: int, first: Strategy, second: Strategy)  // toss, with the coin drawn at construction
    | Alternating(onEven: Strategy, onOdd: Strategy)  // alternate(onEven, onOdd)
    | FirstThen(onFirst: Strategy, onRemaining: Strategy)  // firstThenOther(onFirst, onRemaining)

  /**
   * The generator answers what the Markov strategy asks: `gen(3)` always,
   * because `orElse(randomMove(gen))` evaluates its argument eagerly, and
   * `gen(|possible|)` when some successor was recorded.
   */
  predicate MarkovReady(gen: Gen, moves: seq<Move>)
    requires |moves| > 0
  {
    var possible := Successors(moves, GetLast(moves));
    Draws(gen, |AllMoves|) && (possible != [] ==> Draws(gen, |possible|))
  }

  /** `s.makeMove(moves)` returns normally: no empty-history access, no out-of-range draw. */
  predicate Defined(s: Strategy, moves: seq<Move>)
  {
    match s
    case Constant(_) => true
    case Uniform(gen) => Draws(gen, |AllMoves|)
    case EchoLast => |moves| > 0
    case LoserOfLast => |moves| > 0
    case BeatMode => |moves| > 0
    case Markov(gen) => |moves| > 0 && MarkovReady(gen, moves)
    case Tossed(rand, first, second) => if rand == 0 then Defined(first, moves) else Defined(second, moves)
    case Alternating(onEven, onOdd) => if |moves| % 2 == 0 then Defined(onEven, moves) else Defined(onOdd, moves)
    case FirstThen(onFirst, onRemaining) => if |moves| == 0 then Defined(onFirst, moves) else Defined(onRemaining, moves)
  }

  /**
   * `MarkovChainStrategy.makeMove`: look up the moves that followed the
   * opponent's last move, pick one with `gen` (or a random move when there
   * is none) as the prediction, and play the move that defeats it.
   */
  function MarkovMove(gen: Gen, moves: seq<Move>): (m: Move)
    requires |moves| > 0 && MarkovReady(gen, moves)
    ensures var possible := Successors(moves, GetLast(moves));
            && (possible != [] ==> Beats(m) == possible[gen(|possible|)])
            && (possible == [] ==> Beats(m) == RandomMove(gen))
  {
    var possible := Successors(moves, GetLast(moves));
    var predicted := GetRandomElement(possible, gen).GetOr(RandomMove(gen));
    LosesTo(predicted)
  }

  /**
   * `MarkovChainStrategy.makeMove` as the source runs it: build the table
   * with the loop of `buildMarkovChain`, then predict from the last move's
   * list. It plays the move `MarkovMove` specifies.
   */
  method MarkovMakeMove(gen: Gen, moves: seq<Move>) returns (m: Move)
    requires |moves| > 0 && MarkovReady(gen, moves)
    ensures m == MarkovMove(gen, moves)
  {
    var markovChain := BuildMarkovChain(moves);
    var last := GetLast(moves);
    var possibleMoves := markovChain[last];
    var predictedMove := GetRandomElement(possibleMoves, gen).GetOr(RandomMove(gen));
    m := LosesTo(predictedMove);
  }

  /** `s.makeMove(moves)`. */
  function MakeMove(s: Strategy, moves: seq<Move>): Move
    requires Defined(s, moves)
  {
    match s
    case Constant(move) => move
    case Uniform(gen) => RandomMove(gen)
    case EchoLast => moves[|moves| - 1]
    case LoserOfLast => Beats(GetLast(moves))
    case BeatMode => LosesTo(MostFrequent(moves))
    case Markov(gen) => MarkovMove(gen, moves)
    case Tossed(rand, first, second) => if rand == 0 then MakeMove(first, moves) else MakeMove(second, moves)
    case Alternating(onEven, onOdd) => if |moves| % 2 == 0 then MakeMove(onEven, moves) else MakeMove(onOdd, moves)
    case FirstThen(onFirst, onRemaining) => if |moves| == 0 then MakeMove(onFirst, moves) else MakeMove(onRemaining, moves)
  }

  /** `always(move)`: the move, for every history including the empty one. */
  function Always(move: Move): (s: Strategy)
    ensures forall moves :: Defined(s, moves) && MakeMove(s, moves) == move
  {
    Constant(move)
  }

  const ALWAYS_ROCK: Strategy := Always(ROCK)
  const ALWAYS_PAPER: Strategy := Always(PAPER)
  const ALWAYS_SCISSORS: Strategy := Always(SCISSORS)

  /** `random(gen)`: ignores the history and plays move number `gen(3)`. */
  function Random(gen: Gen): (s: Strategy)
    ensures forall moves :: Defined(s, moves) <==> Draws(gen, 3)
    ensures forall moves | Defined(s, moves) :: MakeMove(s, moves) == AllMoves[gen(3)]
  {
    Uniform(gen)
  }

  /** `firstThenOther(onFirst, onRemaining)`: `onFirst` exactly on the empty history. */
  function FirstThenOther(onFirst: Strategy, onRemaining: Strategy): (s: Strategy)
    ensures forall moves :: Defined(s, moves) <==> if moves == [] then Defined(onFirst, moves) else Defined(onRemaining, moves)
    ensures forall moves | Defined(s, moves) ::
      MakeMove(s, moves) == if moves == [] then MakeMove(onFirst, moves) else MakeMove(onRemaining, moves)
  {
    FirstThen(onFirst, onRemaining)
  }

  /** `echo(onFirst)`: the opponent's last move; `onFirst` on the first turn. Total once `onFirst` is defined on `[]`. */
  function Echo(onFirst: Strategy): (s: Strategy)
    ensures forall moves :: Defined(s, moves) <==> (moves == [] ==> Defined(onFirst, moves))
    ensures forall moves | Defined(s, moves) ::
      MakeMove(s, moves) == if moves == [] then MakeMove(onFirst, moves) else moves[|moves| - 1]
  {
    FirstThenOther(onFirst, EchoLast)
  }

  /** `lastLost(onFirst)`: the move the opponent's last move defeats; `onFirst` on the first turn. */
  function LastLost(onFirst: Strategy): (s: Strategy)
    ensures forall moves :: Defined(s, moves) <==> (moves == [] ==> Defined(onFirst, moves))
    ensures forall moves | Defined(s, moves) ::
      MakeMove(s, moves) == if moves == [] then MakeMove(onFirst, moves) else Beats(moves[|moves| - 1])
  {
    FirstThenOther(onFirst, LoserOfLast)
  }

  /**
   * `beatMostFrequent(onFirst)`: on a non-empty history it never throws and
   * plays the move that defeats some move of maximal count.
   */
  function BeatMostFrequent(onFirst: Strategy): (s: Strategy)
    ensures forall moves :: Defined(s, moves) <==> (moves == [] ==> Defined(onFirst, moves))
    ensures Defined(onFirst, []) ==> MakeMove(s, []) == MakeMove(onFirst, [])
    ensures forall moves | moves != [] ::
      Beats(MakeMove(s, moves)) in moves && forall k :: Count(moves, k) <= Count(moves, Beats(MakeMove(s, moves)))
  {
    FirstThenOther(onFirst, BeatMode)
  }

  /**
   * `markovChain(onFirst, gen)`: on a non-empty history it plays the move
   * that defeats the successor of the last move drawn with `gen`, or a
   * random move's defeater when no successor was recorded.
   */
  function MarkovChain(onFirst: Strategy, gen: Gen): (s: Strategy)
    ensures forall moves :: Defined(s, moves) <==> if moves == [] then Defined(onFirst, moves) else MarkovReady(gen, moves)
    ensures Defined(onFirst, []) ==> MakeMove(s, []) == MakeMove(onFirst, [])
    ensures forall moves | moves != [] && MarkovReady(gen, moves) ::
      var possible := Successors(moves, moves[|moves| - 1]);
      && (possible != [] ==> Beats(MakeMove(s, moves)) == possible[gen(|possible|)])
      && (possible == [] ==> Beats(MakeMove(s, moves)) == AllMoves[gen(3)])
  {
    FirstThenOther(onFirst, Markov(gen))
  }

  /**
   * `toss(first, second, gen)`: the coin `gen(2)` is drawn once, when the
   * strategy is built, although the documentation says "each turn". From
   * then on every history goes to `first` when the coin was 0 and to
   * `second` otherwise.
   */
  function Toss(first: Strategy, second: Strategy, gen: Gen): (s: Strategy)
    ensures forall moves :: Defined(s, moves) <==> Defined(if gen(2) == 0 then first else second, moves)
    ensures forall moves | Defined(s, moves) ::
      MakeMove(s, moves) == MakeMove(if gen(2) == 0 then first else second, moves)
  {
    var rand := gen(2);
    Tossed(rand, first, second)
  }

  /** `alternate(onEven, onOdd)`: `onEven` on a history of even length, `onOdd` on an odd one. */
  function Alternate(onEven: Strategy, onOdd: Strategy): (s: Strategy)
    ensures forall moves :: Defined(s, moves) <==> Defined(if |moves| % 2 == 0 then onEven else onOdd, moves)
    ensures forall moves | Defined(s, moves) ::
      MakeMove(s, moves) == MakeMove(if |moves| % 2 == 0 then onEven else onOdd, moves)
  {
    Alternating(onEven, onOdd)
  }
}
