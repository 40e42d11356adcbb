/**
 * The transition table of the Markov-chain strategy: for each move, the
 * moves the opponent played right after it, in history order. `Successors`
 * defines the table directly on the history; `buildMarkovChain` computes it
 * by folding over the adjacent pairs of `Streams.sliding(moves, 2)`, and
 * `SlidingPairsFold` shows the two agree.
 */
module Transitions {
  import opened Moves
  import opened Streams
  import opened Tally

  /** The moves that followed `m` in `moves`, in history order. */
  function Successors(moves: seq<Move>, m: Move): (succ: seq<Move>)
    ensures |moves| <= 1 ==> succ == []
  {
    if |moves| <= 1 then []
    else
      var init := moves[..|moves| - 1];
      Successors(init, m) + (if init[|init| - 1] == m then [moves[|moves| - 1]] else [])
  }

  /**
   * One more move in the history records exactly one more successor: the
   * new move, in the list of the move that was last before it.
   */
  lemma SuccessorsSnoc(moves: seq<Move>, x: Move, m: Move)
    ensures Successors(moves + [x], m)
         == Successors(moves, m) + (if |moves| > 0 && moves[|moves| - 1] == m then [x] else [])
  {
    assert (moves + [x])[..|moves|] == moves;
  }

  /** Every window is a pair. */
  predicate ArePairs(pairs: seq<seq<Move>>)
  {
    forall i :: 0 <= i < |pairs| ==> |pairs[i]| == 2
  }

  /**
   * The successor list of `m` once every pair has been visited in order:
   * each pair `(fst, snd)` with `fst == m` adds `snd` at the end.
   */
  function SuccessorsIn(pairs: seq<seq<Move>>, m: Move): (succ: seq<Move>)
    requires ArePairs(pairs)
    ensures |succ| <= |pairs|
  {
    if pairs == [] then []
    else
      var pair := pairs[|pairs| - 1];
      var rest := SuccessorsIn(pairs[..|pairs| - 1], m);
      if pair[0] == m then rest + [pair[1]] else rest
  }

  /** Visiting one more pair adds its second move exactly when its first move is `m`. */
  lemma SuccessorsInSnoc(pairs: seq<seq<Move>>, pair: seq<Move>, m: Move)
    requires ArePairs(pairs) && |pair| == 2
    ensures ArePairs(pairs + [pair])
    ensures SuccessorsIn(pairs + [pair], m) == SuccessorsIn(pairs, m) + (if pair[0] == m then [pair[1]] else [])
  {
    assert (pairs + [pair])[..|pairs|] == pairs;
  }

  /** `pairs` lists the adjacent pairs of `moves`, left to right. */
  predicate AdjacentPairs(pairs: seq<seq<Move>>, moves: seq<Move>)
  {
    && |pairs| == (if |moves| <= 1 then 0 else |moves| - 1)
    && forall i :: 0 <= i < |pairs| ==> pairs[i] == [moves[i], moves[i + 1]]
  }

  /** Folding over the adjacent pairs of a history, in order, gives exactly its successors. */
  lemma {:induction false} AdjacentPairsFold(pairs: seq<seq<Move>>, moves: seq<Move>, m: Move)
    requires AdjacentPairs(pairs, moves)
    ensures ArePairs(pairs) && SuccessorsIn(pairs, m) == Successors(moves, m)
  {
    if |moves| > 1 {
      var init, x := moves[..|moves| - 1], moves[|moves| - 1];
      var front, pair := pairs[..|pairs| - 1], pairs[|pairs| - 1];
      assert front + [pair] == pairs;
      assert AdjacentPairs(front, init);
      AdjacentPairsFold(front, init, m);
      assert pair == [init[|init| - 1], x];
      SuccessorsInSnoc(front, pair, m);
    }
  }

  /** The windows of size 2 are the adjacent pairs, so folding over them gives the successors. */
  lemma SlidingPairsFold(moves: seq<Move>, m: Move)
    ensures ArePairs(Sliding(moves, 2))
    ensures SuccessorsIn(Sliding(moves, 2), m) == Successors(moves, m)
  {
    SlidingPairs(moves);
    AdjacentPairsFold(Sliding(moves, 2), moves, m);
  }

  /**
   * The number of successors recorded for `m` is the number of times `m`
   * was played before the last move.
   */
  lemma {:induction false} SuccessorsLength(moves: seq<Move>, m: Move)
    requires |moves| > 0
    ensures |Successors(moves, m)| == Count(moves[..|moves| - 1], m)
  {
    if |moves| > 1 {
      var init := moves[..|moves| - 1];
      SuccessorsLength(init, m);
      SuccessorsSnoc(init, moves[|moves| - 1], m);
      assert init + [moves[|moves| - 1]] == moves;
      CountSnoc(init[..|init| - 1], init[|init| - 1], m);
      assert init[..|init| - 1] + [init[|init| - 1]] == init;
    }
  }

  /** Altogether one successor is recorded per adjacent pair. */
  lemma SuccessorsTotal(moves: seq<Move>)
    requires |moves| > 0
    ensures |Successors(moves, ROCK)| + |Successors(moves, PAPER)| + |Successors(moves, SCISSORS)| == |moves| - 1
  {
    SuccessorsLength(moves, ROCK);
    SuccessorsLength(moves, PAPER);
    SuccessorsLength(moves, SCISSORS);
    MoveCountsSum(moves[..|moves| - 1]);
  }

  /** A recorded successor was once played right after `m`. */
  lemma {:induction false} SuccessorRecordedWasPlayed(moves: seq<Move>, m: Move, x: Move)
    requires x in Successors(moves, m)
    ensures exists i :: 0 <= i < |moves| - 1 && moves[i] == m && moves[i + 1] == x
  {
    var init, last := moves[..|moves| - 1], moves[|moves| - 1];
    SuccessorsSnoc(init, last, m);
    assert init + [last] == moves;
    if x in Successors(init, m) {
      SuccessorRecordedWasPlayed(init, m, x);
      var i :| 0 <= i < |init| - 1 && init[i] == m && init[i + 1] == x;
      assert moves[i] == m && moves[i + 1] == x;
    } else {
      assert moves[|init| - 1] == m && moves[|init|] == x;
    }
  }

  /** A move once played right after `m` is recorded as a successor of `m`. */
  lemma {:induction false} PlayedSuccessorIsRecorded(moves: seq<Move>, m: Move, x: Move, i: int)
    requires 0 <= i < |moves| - 1 && moves[i] == m && moves[i + 1] == x
    ensures x in Successors(moves, m)
  {
    var init, last := moves[..|moves| - 1], moves[|moves| - 1];
    SuccessorsSnoc(init, last, m);
    assert init + [last] == moves;
    if i < |init| - 1 {
      PlayedSuccessorIsRecorded(init, m, x, i);
    }
  }

  /** `x` is recorded as a successor of `m` exactly when `x` was once played right after `m`. */
  lemma SuccessorsMembership(moves: seq<Move>, m: Move, x: Move)
    ensures x in Successors(moves, m) <==> exists i :: 0 <= i < |moves| - 1 && moves[i] == m && moves[i + 1] == x
  {
    if x in Successors(moves, m) {
      SuccessorRecordedWasPlayed(moves, m, x);
    }
    if exists i :: 0 <= i < |moves| - 1 && moves[i] == m && moves[i + 1] == x {
      var i :| 0 <= i < |moves| - 1 && moves[i] == m && moves[i + 1] == x;
      PlayedSuccessorIsRecorded(moves, m, x, i);
    }
  }

  /** `emptyMarkovChain`: an empty successor list for every move, filled in a loop over `Move.values()`. */
  method EmptyMarkovChain() returns (chain: map<Move, seq<Move>>)
    ensures forall m: Move :: m in chain && chain[m] == []
  {
    chain := map[];
    for i := 0 to |AllMoves|
      invariant forall j :: 0 <= j < i ==> AllMoves[j] in chain
      invariant forall m :: m in chain ==> chain[m] == []
    {
      chain := chain[AllMoves[i] := []];
    }
    forall m: Move
      ensures m in chain
    {
      match m
      case ROCK => assert AllMoves[0] == m;
      case PAPER => assert AllMoves[1] == m;
      case SCISSORS => assert AllMoves[2] == m;
    }
  }

  /**
   * `buildMarkovChain`: walks the adjacent pairs in order and adds the second
   * move of each pair to the list of the first. The result is the table of
   * `Successors`.
   */
  method BuildMarkovChain(moves: seq<Move>) returns (chain: map<Move, seq<Move>>)
    ensures forall m: Move :: m in chain && chain[m] == Successors(moves, m)
  {
    chain := EmptyMarkovChain();
    var pairs := Sliding(moves, 2);
    for i := 0 to |pairs|
      invariant forall m: Move :: m in chain && chain[m] == SuccessorsIn(pairs[..i], m)
    {
      var fst, snd := pairs[i][0], pairs[i][1];
      chain := chain[fst := chain[fst] + [snd]];
      assert pairs[..i + 1][..i] == pairs[..i];
    }
    assert pairs[..|pairs|] == pairs;
    forall m: Move
      ensures chain[m] == Successors(moves, m)
    {
      SlidingPairsFold(moves, m);
    }
  }
}
