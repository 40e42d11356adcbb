/**
 * The three moves and the fixed cyclic relation between them: the two
 * constant tables `BEATS` and `LOSES_TO` of the `Move` enum.
 */
module Moves {

  datatype Move = ROCK | PAPER | SCISSORS

  /** `Move.values()`, in declaration order. */
  const AllMoves: seq<Move> := [ROCK, PAPER, SCISSORS]

  /** The `BEATS` table: the move that `m` defeats. */
  function Beats(m: Move): (r: Move)
    ensures r != m
  {
    match m
    case PAPER => ROCK
    case SCISSORS => PAPER
    case ROCK => SCISSORS
  }

  /** The `LOSES_TO` table: the move that defeats `m`. */
  function LosesTo(m: Move): (r: Move)
    ensures r != m
    ensures Beats(r) == m
  {
    match m
    case ROCK => PAPER
    case PAPER => SCISSORS
    case SCISSORS => ROCK
  }

  /** Every move has an entry, in `AllMoves` exactly once. */
  lemma AllMovesComplete()
    ensures |AllMoves| == 3
    ensures forall m: Move :: m in AllMoves
    ensures forall i, j :: 0 <= i < j < |AllMoves| ==> AllMoves[i] != AllMoves[j]
  {
    forall m: Move
      ensures m in AllMoves
    {
      match m
      case ROCK => assert AllMoves[0] == m;
      case PAPER => assert AllMoves[1] == m;
      case SCISSORS => assert AllMoves[2] == m;
    }
  }

  /** The two tables are inverse to each other. */
  lemma BeatsLosesToInverse(m: Move)
    ensures Beats(LosesTo(m)) == m
    ensures LosesTo(Beats(m)) == m
  {
  }

  /** `LosesTo` walks the 3-cycle: three steps lead back, and going forward twice is going back once. */
  lemma LosesToCycle(m: Move)
    ensures LosesTo(LosesTo(LosesTo(m))) == m
    ensures LosesTo(m) == Beats(Beats(m))
    ensures Beats(m) == LosesTo(LosesTo(m))
  {
  }

  /** The relation "a beats b" is asymmetric: no two moves beat each other. */
  lemma BeatsAsymmetric(a: Move, b: Move)
    ensures Beats(a) == b ==> Beats(b) != a
  {
  }
}
