# Rock, paper, scissors: a verified model

This project models the core of a console rock-paper-scissors game written
in Java. Two generations of the game live side by side in the repository,
and both are modelled:

- the `max.rindon.rps` package: the move and outcome tables, the AI
  strategies and their combinators (including a Markov-chain predictor),
  the game session with its history and per-outcome counters, the
  `sliding` window helper and the text side of the user interface;
- the older `max.rindon` packages: their strategies (which take a default
  move instead of a first-turn strategy), outcome table, session, list
  helpers and user interface.

The moves and their `BEATS`/`LOSES_TO` tables (`Moves`) are shared by both.
Outcomes are always from the human player's side. Each strategy factory is
a constructor of a `Strategy` datatype, and `MakeMove` interprets it. The
random-number source `Function<Integer, Integer>` is a parameter `gen`. In
the `rps` package, `Defined(s, moves)` states when `s.makeMove(moves)`
returns normally: not on an empty history where the last move is read,
and not when an out-of-range draw is made. The sessions are classes whose
methods update `history` and `statistics` in place. They keep the
invariant that each counter equals the number of rounds with that outcome.
The Markov table is defined directly on the history by `Successors`.
`Transitions.BuildMarkovChain` fills the table in a loop over the
`sliding(moves, 2)` pairs, as the source does, and is proved to build
exactly that table.

| module | file | models |
|---|---|---|
| `Moves` | moves.dfy | `Move`, `beats`, `losesTo` |
| `Rules` | rules.dfy | `rps` `Outcome`, `Rules.evaluate` |
| `LegacyRules` | legacy_rules.dfy | older `Outcome`, `Rules.outcome` |
| `Lists` | lists.dfy | `Lists.append`, `getLast`, `getRandomElement` |
| `Streams` | streams.dfy | `Streams.sliding` |
| `Tally` | tally.dfy | counting and the most frequent move |
| `Transitions` | transitions.dfy | the Markov table, `emptyMarkovChain`, `buildMarkovChain` |
| `Strategies` | strategies.dfy | `rps` `Strategies` |
| `LegacyStrategies` | legacy_strategies.dfy | older `Strategies` |
| `StrategyExamples` | strategy_examples.dfy | the histories of the strategy tests |
| `Game` | game.dfy | `rps` `RockPaperScissors` |
| `LegacyGame` | legacy_game.dfy | older `RockPaperScissors` |
| `Text` | text.dfy | `String.valueOf(Integer)`, `String.join` |
| `UI` | ui.dfy | `rps` `UI` (parsing, messages, statistics) |
| `LegacyUI` | legacy_ui.dfy | older `UI` (parsing, messages) |
| `Wrappers` | wrappers.dfy | `Optional` |

## Model

| member | source | states |
|---|---|---|
| Moves.Beats | src/main/java/max/rindon/domain/Move.java:16-22 | the move `m` defeats; never `m` itself (no fixed point) |
| Moves.LosesTo | src/main/java/max/rindon/domain/Move.java:12-26 | the move that defeats `m`; never `m` itself, and `Beats` of it is `m` |
| Moves.AllMovesComplete | src/main/java/max/rindon/domain/Move.java:5-6 | `Move.values()` lists each of the three moves exactly once, so both tables are total |
| Moves.BeatsLosesToInverse | src/main/java/max/rindon/domain/Move.java:12-18 | `m.losesTo().beats() == m` and `m.beats().losesTo() == m` |
| Moves.LosesToCycle | src/main/java/max/rindon/domain/Move.java:12-18 | three `losesTo` steps return to `m`; `losesTo(m) == beats(beats(m))` |
| Moves.BeatsAsymmetric | src/main/java/max/rindon/domain/Move.java:16-18 | no two moves beat each other |
| Rules.Evaluate | src/main/java/max/rindon/rps/domain/Rules.java:12-26 | DRAW exactly on equal moves, WIN exactly when the second is the move the first beats, LOSS exactly when the second defeats the first |
| Rules.EvaluateAntisymmetric | src/main/java/max/rindon/rps/domain/Rules.java:12-14 | swapping the arguments swaps WIN and LOSS and keeps DRAW |
| Rules.EvaluateRowIsPermutation | src/main/java/max/rindon/rps/domain/Rules.java:12-14 | each row holds one WIN, one LOSS and one DRAW |
| Rules.EvaluateTestedPairs | src/test/java/max/rindon/rps/domain/RulesTest.java:25-37 | the nine tested pairs give the tested outcomes |
| LegacyRules.OutcomeOf | src/main/java/max/rindon/domain/Rules.java:15-29 | the older table: DRAW on equal moves, WIN when the second is the move the first beats, LOSE when it defeats the first |
| LegacyRules.ToRps | src/main/java/max/rindon/domain/Rules.java:15-17 | WIN, LOSE and DRAW correspond one to one to WIN, LOSS and DRAW |
| LegacyRules.OutcomeOfAgreesWithEvaluate | src/main/java/max/rindon/domain/Rules.java:15-17 | the older table agrees entry for entry with the `rps` one, LOSE read as LOSS |
| LegacyRules.OutcomeOfAntisymmetric | src/main/java/max/rindon/domain/Rules.java:15-17 | swapping the arguments swaps WIN and LOSE; equal moves draw |
| LegacyRules.LosesToWins | src/main/java/max/rindon/domain/Rules.java:15-17 | `outcome(m.losesTo(), m) == WIN` for every move |
| Lists.Append | src/main/java/max/rindon/util/Lists.java:13-17 | one longer, `xs` as prefix, `x` last |
| Lists.GetLast | src/main/java/max/rindon/util/Lists.java:19-21 | the element after the list without its last element; only for non-empty lists |
| Lists.GetRandomElement | src/main/java/max/rindon/util/Lists.java:23-25 | for a non-empty list and an index below its length, an element of the list |
| Lists.GetLastAppend | src/main/java/max/rindon/util/Lists.java:13-21 | `getLast(append(xs, x)) == x`, and the appended list keeps `xs` as prefix |
| Streams.Sliding | src/main/java/max/rindon/rps/util/Streams.java:12-19 | no window when `size` exceeds the list; otherwise `|list| - size + 1` windows, window `i` being `list[i..i + size]` |
| Streams.SlidingWindowLength | src/main/java/max/rindon/rps/util/Streams.java:16-17 | every window has `size` elements |
| Streams.SlidingOverlap | src/main/java/max/rindon/rps/util/Streams.java:16-17 | consecutive windows overlap in `size - 1` elements; the next adds the following list element |
| Streams.SlidingWhole | src/main/java/max/rindon/rps/util/Streams.java:13-17 | a window as long as the list is the list itself, alone |
| Streams.SlidingPairs | src/main/java/max/rindon/rps/util/Streams.java:16-17 | with size 2 the windows are exactly the adjacent pairs `[list[i], list[i + 1]]` |
| Streams.SlidingSnoc | src/main/java/max/rindon/rps/util/Streams.java:16-17 | one more list element adds exactly one window at the end and keeps the earlier ones |
| Tally.Count | src/main/java/max/rindon/rps/ai/Strategies.java:88 | the number of occurrences `counting()` gives a value, never more than the list's length |
| Tally.CountIsMultiplicity | src/main/java/max/rindon/rps/ai/Strategies.java:88 | the count is the value's multiplicity in the list's multiset |
| Tally.MostFrequent | src/main/java/max/rindon/rps/ai/Strategies.java:86-93 | for a non-empty history, a move that occurs and whose count is at least every move's count |
| Transitions.Successors | src/main/java/max/rindon/rps/ai/Strategies.java:189-197 | the table of the Markov strategy, defined on the history: no successors before two moves |
| Transitions.SuccessorsSnoc | src/main/java/max/rindon/rps/ai/Strategies.java:189-197 | one more move appends exactly that move to the list of the move before it, and to no other list |
| Transitions.SuccessorsLength | src/main/java/max/rindon/rps/ai/Strategies.java:189-197 | the list of `m` has one entry per occurrence of `m` before the last move |
| Transitions.SuccessorsTotal | src/main/java/max/rindon/rps/ai/Strategies.java:222-227 | the three lists hold one entry per adjacent pair altogether |
| Transitions.SuccessorRecordedWasPlayed | src/main/java/max/rindon/rps/ai/Strategies.java:189-190 | every recorded successor of `m` was once played right after `m` |
| Transitions.PlayedSuccessorIsRecorded | src/main/java/max/rindon/rps/ai/Strategies.java:189-190 | every move once played right after `m` is recorded for `m` |
| Transitions.SuccessorsMembership | src/main/java/max/rindon/rps/ai/Strategies.java:189-190 | `x` is in the list of `m` exactly when `x` once followed `m` |
| Transitions.SuccessorsInSnoc | src/main/java/max/rindon/rps/ai/Strategies.java:223-227 | visiting one more pair appends its second move to the list of its first move only |
| Transitions.AdjacentPairsFold | src/main/java/max/rindon/rps/ai/Strategies.java:222-227 | folding in order over the adjacent pairs of a history yields exactly its successor lists |
| Transitions.SlidingPairsFold | src/main/java/max/rindon/rps/ai/Strategies.java:222-227 | folding over `sliding(moves, 2)` yields exactly the successor lists |
| Transitions.EmptyMarkovChain | src/main/java/max/rindon/rps/ai/Strategies.java:231-237 | every move has an empty list |
| Transitions.BuildMarkovChain | src/main/java/max/rindon/rps/ai/Strategies.java:220-229 | every move has a list, equal to its successors in history order |
| Strategies.MakeMove | src/main/java/max/rindon/rps/ai/Strategy.java:10 | `s.makeMove(moves)`: the lambda bodies of all factories; no contract of its own, its behaviour is stated through the factory contracts below |
| Strategies.Defined | src/main/java/max/rindon/rps/ai/Strategies.java:57-249 | when `makeMove` returns normally: a non-empty history for echo, last-lost, beat-most-frequent and Markov, in-range draws for `randomMove` and `getRandomElement`; no contract of its own, the factory contracts state it for each factory |
| Strategies.RandomMove | src/main/java/max/rindon/rps/ai/Strategies.java:247-249 | ROCK, PAPER or SCISSORS exactly as `gen(3)` is 0, 1 or 2; only for an in-range draw |
| Strategies.GetRandomElement | src/main/java/max/rindon/rps/ai/Strategies.java:240-245 | empty exactly for an empty list, otherwise the element at `gen(|xs|)` |
| Strategies.MarkovMove | src/main/java/max/rindon/rps/ai/Strategies.java:211-217 | the move that defeats the recorded successor drawn by `gen`, or the defeater of a random move when the last move has no successor |
| Strategies.MarkovMakeMove | src/main/java/max/rindon/rps/ai/Strategies.java:211-229 | the loop that builds the table and predicts plays the move `MarkovMove` specifies |
| Strategies.Always | src/main/java/max/rindon/rps/ai/Strategies.java:36-38 | defined on every history, including the empty one, and always the given move |
| Strategies.Random | src/main/java/max/rindon/rps/ai/Strategies.java:45-47 | defined exactly when `gen(3)` is in range, and then move number `gen(3)` whatever the history |
| Strategies.FirstThenOther | src/main/java/max/rindon/rps/ai/Strategies.java:176-184 | the first strategy decides (and must be defined) exactly on the empty history, the other on every non-empty one |
| Strategies.Echo | src/main/java/max/rindon/rps/ai/Strategies.java:57-69 | the opponent's last move on a non-empty history; the fallback on the empty one |
| Strategies.LastLost | src/main/java/max/rindon/rps/ai/Strategies.java:72-84 | the move the opponent's last move defeats on a non-empty history; the fallback on the empty one |
| Strategies.BeatMostFrequent | src/main/java/max/rindon/rps/ai/Strategies.java:86-104 | never fails on a non-empty history and defeats a move that occurs with maximal count; the fallback on the empty one |
| Strategies.MarkovChain | src/main/java/max/rindon/rps/ai/Strategies.java:112-114 | defined on a non-empty history exactly when `gen` answers in range; plays the defeater of the drawn successor of the last move, or of move `gen(3)` when there is none |
| Strategies.Toss | src/main/java/max/rindon/rps/ai/Strategies.java:132-141 | the coin `gen(2)` is read once: every history goes to the first strategy when it was 0, to the second otherwise |
| Strategies.Alternate | src/main/java/max/rindon/rps/ai/Strategies.java:159-167 | the first strategy on histories of even length, the second on odd ones |
| LegacyStrategies.MakeMove | src/main/java/max/rindon/ai/Strategy.java:10 | `s.makeMove(moves)` of the older package, total: the lambda bodies of all factories; no contract of its own, its behaviour is stated through the factory contracts below |
| LegacyStrategies.Always | src/main/java/max/rindon/ai/Strategies.java:35-37 | always the given move |
| LegacyStrategies.Echo | src/main/java/max/rindon/ai/Strategies.java:54-60 | the default on the empty history, otherwise the last move |
| LegacyStrategies.LastLost | src/main/java/max/rindon/ai/Strategies.java:68-74 | the default on the empty history, otherwise the move the last one defeats |
| LegacyStrategies.BeatMostFrequent | src/main/java/max/rindon/ai/Strategies.java:82-90 | the default on the empty history, otherwise the defeater of a move that occurs with maximal count |
| LegacyStrategies.Toss | src/main/java/max/rindon/ai/Strategies.java:95-104 | every history goes to the strategy the coin chose when it was built |
| LegacyStrategies.Alternate | src/main/java/max/rindon/ai/Strategies.java:109-117 | the first strategy on even history lengths, the second on odd ones |
| LegacyStrategies.FirstThenOther | src/main/java/max/rindon/ai/Strategies.java:125-133 | the first strategy exactly on the empty history |
| LegacyStrategies.TossKeepsItsChoice | src/test/java/max/rindon/ai/StrategiesTest.java:72-81 | a toss between two constants keeps one of them for all histories |
| StrategyExamples.SimpleStrategiesOnTestedHistories | src/test/java/max/rindon/rps/ai/StrategiesTest.java:18-60 | the tested constant, random, echo and last-lost results |
| StrategyExamples.CombinatorsOnTestedHistories | src/test/java/max/rindon/rps/ai/StrategiesTest.java:62-96 | the tested toss, alternate and first-then-other results |
| StrategyExamples.MovesCounts | src/test/java/max/rindon/rps/ai/StrategiesTest.java:16 | in R, P, S, P, P, PAPER occurs three times, ROCK and SCISSORS once |
| StrategyExamples.BeatMostFrequentOnMoves | src/test/java/max/rindon/rps/ai/StrategiesTest.java:98-103 | beat-most-frequent answers R, P, S, P, P with SCISSORS |
| StrategyExamples.MarkovOnSixRocks | src/test/java/max/rindon/rps/ai/StrategiesTest.java:105-111 | after six ROCKs the Markov strategy plays PAPER for any in-range generator |
| StrategyExamples.PaperSuccessorsAfterThree | src/test/java/max/rindon/rps/ai/StrategiesTest.java:113-117 | after R, P, S the list of PAPER is [SCISSORS] |
| StrategyExamples.PaperSuccessorsAfterFour | src/test/java/max/rindon/rps/ai/StrategiesTest.java:113-117 | after R, P, S, P the list of PAPER is still [SCISSORS] |
| StrategyExamples.PaperSuccessorsInMoves | src/test/java/max/rindon/rps/ai/StrategiesTest.java:113-117 | after R, P, S, P, P the list of PAPER is [SCISSORS, PAPER] |
| StrategyExamples.MarkovOnMoves | src/test/java/max/rindon/rps/ai/StrategiesTest.java:105-118 | with the zero generator the Markov strategy answers R, P, S, P, P with ROCK |
| StrategyExamples.DocumentedTableAfterThree | src/main/java/max/rindon/rps/ai/Strategies.java:191-197 | after R, R, P only ROCK has successors, [ROCK, PAPER] |
| StrategyExamples.DocumentedTableAfterFour | src/main/java/max/rindon/rps/ai/Strategies.java:191-197 | after R, R, P, S the table is R -> [R, P], P -> [S], S -> [] |
| StrategyExamples.MarkovDocumentedTable | src/main/java/max/rindon/rps/ai/Strategies.java:191-197 | the documented example R, R, P, S, R gives R -> [R, P], P -> [S], S -> [R] |
| StrategyExamples.LegacyStrategiesOnTestedHistories | src/test/java/max/rindon/ai/StrategiesTest.java:22-112 | the tested results of the older strategies |
| Game.PlayerMoves | src/main/java/max/rindon/rps/domain/RockPaperScissors.java:32-36 | the player moves of the rounds, one per round, in play order |
| Game.Outcomes | src/main/java/max/rindon/rps/domain/RockPaperScissors.java:25-28 | the outcomes of the rounds, one per round, in play order |
| Game.PlayerMovesSnoc | src/main/java/max/rindon/rps/domain/RockPaperScissors.java:23-27 | a new round adds exactly its player move (never the AI's) and its outcome at the end |
| Game.OutcomeCountsSum | src/main/java/max/rindon/rps/domain/RockPaperScissors.java:28 | the three outcome counts add up to the number of outcomes |
| Game.TalliesSnoc | src/main/java/max/rindon/rps/domain/RockPaperScissors.java:27-28 | counting a new round raises its outcome's counter by one and keeps the counters equal to the outcome counts |
| Game.TalliesSumToLength | src/main/java/max/rindon/rps/domain/RockPaperScissors.java:27-28 | counters equal to the outcome counts add up to the number of rounds |
| Game.InitStatistics | src/main/java/max/rindon/rps/domain/RockPaperScissors.java:38-44 | a 0 counter for every outcome |
| Game.Session.constructor | src/main/java/max/rindon/rps/domain/RockPaperScissors.java:14-18 | the given strategy, an empty history, every counter 0 |
| Game.Session.PlayRound | src/main/java/max/rindon/rps/domain/RockPaperScissors.java:20-30 | the strategy sees the earlier player moves; the round holds the argument, the AI move and their evaluation; it is appended; only its outcome's counter rises, by one; counters keep equal to the outcome counts |
| Game.Session.GetStatistics | src/main/java/max/rindon/rps/domain/RockPaperScissors.java:46-48 | the counters, unchanged, equal to the outcome counts and summing to the number of rounds |
| Game.ThreeRoundsAgainstRock | src/test/java/max/rindon/rps/GameRunnerTest.java:74-96 | the moves ROCK, PAPER, SCISSORS (the parsed inputs r, P, s) against ALWAYS_ROCK give a draw, a win and a loss in that order, one of each |
| LegacyGame.PastPlayerMoves | src/main/java/max/rindon/domain/RockPaperScissors.java:23-25 | the player moves of the rounds, in play order |
| LegacyGame.Outcomes | src/main/java/max/rindon/domain/RockPaperScissors.java:28-31 | the outcomes of the rounds, in play order |
| LegacyGame.RoundSnoc | src/main/java/max/rindon/domain/RockPaperScissors.java:23-30 | a new round adds exactly its player move and its outcome at the end |
| LegacyGame.OutcomeCountsSum | src/main/java/max/rindon/domain/RockPaperScissors.java:31 | the three outcome counts add up to the number of outcomes |
| LegacyGame.TalliesSnoc | src/main/java/max/rindon/domain/RockPaperScissors.java:30-31 | counting a new round raises its outcome's counter by one and keeps the counters equal to the outcome counts |
| LegacyGame.TalliesSumToLength | src/main/java/max/rindon/domain/RockPaperScissors.java:30-31 | the counters add up to the number of rounds |
| LegacyGame.InitStatistics | src/main/java/max/rindon/domain/RockPaperScissors.java:35-41 | a 0 counter for every outcome |
| LegacyGame.Session.constructor | src/main/java/max/rindon/domain/RockPaperScissors.java:16-20 | the given strategy, an empty history, every counter 0 |
| LegacyGame.Session.PlayRound | src/main/java/max/rindon/domain/RockPaperScissors.java:22-33 | the strategy sees the earlier player moves; the outcome is `Rules.outcome` of the two moves; the round is appended; only its counter rises, by one |
| LegacyGame.Session.GetStatistics | src/main/java/max/rindon/domain/RockPaperScissors.java:44-46 | the counters, unchanged, summing to the number of rounds |
| LegacyGame.ThreeRoundsAgainstRock | src/test/java/max/rindon/rps/GameRunnerTest.java:74-96 | the `rps` integration scenario replayed on the older session: one draw, one win, one loss |
| Text.IntToString | src/main/java/max/rindon/rps/ui/UI.java:103-105 | a non-empty numeral, starting with '-' exactly for negatives |
| Text.NatToStringRoundTrip | src/main/java/max/rindon/rps/ui/UI.java:103-105 | reading the decimal digits of `n` gives back `n` |
| Text.IntToStringRoundTrip | src/main/java/max/rindon/rps/ui/UI.java:103-105 | reading a rendered counter gives it back |
| Text.IntToStringInjective | src/main/java/max/rindon/rps/ui/UI.java:103-105 | distinct counters render differently |
| Text.Join | src/main/java/max/rindon/rps/ui/UI.java:102-105 | `String.join`: empty for no parts, the part itself for one |
| Text.JoinThree | src/main/java/max/rindon/rps/ui/UI.java:102-105 | joining three parts puts the separator exactly between neighbours |
| Wrappers.Option.GetOr | src/main/java/max/rindon/rps/ai/Strategies.java:215 | `Optional.orElse`: the value when present, the default otherwise |
| UI.ParseMove | src/main/java/max/rindon/rps/ui/UI.java:80-82 | ROCK exactly on "r"/"R", PAPER on "p"/"P", SCISSORS on "s"/"S", empty on every other string |
| UI.ParseMoveToken | src/main/java/max/rindon/rps/ui/UI.java:48-55 | each prompted lower-case token and its upper-case form parse to their move |
| UI.ParseMoveRejects | src/main/java/max/rindon/rps/ui/UI.java:80-82 | "rock", "" and " r" are rejected |
| UI.ParseCommand | src/main/java/max/rindon/rps/ui/UI.java:84-86 | QUIT exactly on ":q", HELP on ":h", STATS on ":s", never PLAY |
| UI.TokensDisjoint | src/main/java/max/rindon/rps/ui/UI.java:48-61 | no string is both a move and a command |
| UI.Outcome2Message | src/main/java/max/rindon/rps/ui/UI.java:88-90 | a non-empty message for every outcome |
| UI.Outcome2MessageInjective | src/main/java/max/rindon/rps/ui/UI.java:63-67 | different outcomes get different messages |
| UI.RenderParseMoveError | src/main/java/max/rindon/rps/ui/UI.java:108-110 | the fixed apology followed by the input as typed |
| UI.RenderParseMoveErrorInjective | src/main/java/max/rindon/rps/ui/UI.java:108-110 | the input can be read back from the message |
| UI.Counter | src/main/java/max/rindon/rps/ui/UI.java:103-105 | the rendered counter, or "null" when the map lacks the outcome |
| UI.RenderStatistics | src/main/java/max/rindon/rps/ui/UI.java:101-106 | the lines "You: " wins, "AI: " losses, "Draw: " draws, in that order, between them the separator |
| UI.RenderStatisticsInjective | src/main/java/max/rindon/rps/ui/UI.java:101-106 | for complete statistics and a separator not starting with a numeral character, equal summaries mean equal counters |
| UI.RenderStatisticsOneEach | src/test/java/max/rindon/rps/GameRunnerTest.java:69-71 | one round of each outcome renders as "You: 1", "AI: 1", "Draw: 1" |
| LegacyUI.ParseMove | src/main/java/max/rindon/ui/UI.java:81-83 | ROCK exactly on "r"/"R", PAPER on "p"/"P", SCISSORS on "s"/"S", empty otherwise |
| LegacyUI.ParseCommand | src/main/java/max/rindon/ui/UI.java:85-87 | QUIT exactly on ":q", HELP on ":h", STATS on ":s", never CONTINUE |
| LegacyUI.TokensDisjoint | src/main/java/max/rindon/ui/UI.java:49-62 | no string is both a move and a command |
| LegacyUI.Outcome2Message | src/main/java/max/rindon/ui/UI.java:89-91 | a non-empty message for every outcome |
| LegacyUI.Outcome2MessageInjective | src/main/java/max/rindon/ui/UI.java:64-68 | different outcomes get different messages |
| LegacyUI.ToRps | src/main/java/max/rindon/temp/Main.java:31-45 | QUIT, HELP and STATS map to their namesakes, and the loop's fallback CONTINUE to the `rps` fallback PLAY, one to one |
| LegacyUI.ParseMoveAgreesWithRps | src/main/java/max/rindon/ui/UI.java:49-56 | both packages parse every string to the same move |
| LegacyUI.ParseCommandAgreesWithRps | src/main/java/max/rindon/ui/UI.java:58-62 | both packages accept the same command tokens, as corresponding commands, and their loops fall back to corresponding commands (CONTINUE, PLAY) on every other string |
| LegacyUI.Outcome2MessageAgreesWithRps | src/main/java/max/rindon/ui/UI.java:64-68 | corresponding outcomes get the same message in both packages |

## Left out

- Console I/O and the game loop (`GameRunner`, both `Main` classes, `ConsoleIO`, `IO`, `Temp`). They are glue around the modelled operations. `GameRunner` also depends on a `Game` class that is not part of this model.
- The global `java.util.Random` generators. Every draw is a value: `gen` is a pure function `int -> int`, the coin of the older `toss` is the parameter `rand`, and the index of `Lists.getRandomElement` is a parameter. Uniformity and the probabilistic tests of the older strategies are not modelled.
- The older `random()` strategy. It draws from the global generator on each call and has no deterministic reading beyond the `rps` `Strategies.Random`.
- Tally.MostFrequent: ties are broken ROCK, then PAPER, then SCISSORS. The source's tie-break is the unspecified iteration order of `groupingBy`'s `HashMap`, so every contract promises only "some move of maximal count".
- The ASCII-art renderings `renderRound`/`round2Message` and `HELP_MESSAGE`. The platform line separator is the parameter `sep` of `UI.RenderStatistics`.
- The older `statistics2Message`. It renders exactly as `UI.RenderStatistics` does.
- UI.RenderStatisticsInjective: it holds only for statistics that have all three counters, and for separators that do not begin with a digit or '-'. Otherwise "null" or the separator could run into a numeral.
- The `Maps` helpers and the `Round` classes' `equals`/`hashCode`/`toString`. `Round` is a datatype, and equality is structural.
- Java object identity: `Collections.unmodifiableList`/`unmodifiableMap` views and the live map that the older `getStatistics` returns. Statistics and histories are values.
- Game.Session.PlayRound: it requires `Defined(aiStrategy, PlayerMoves(history))`. When the strategy throws instead, the exception leaves `playRound` before the round is appended or counted, so the session is unchanged. The model does not state that exceptional path.
- Lists.Append: the `ArrayList` copy is a new sequence value, so the argument cannot change.
- Integer counters are unbounded. Java's `Integer` would wrap after 2^31 - 1 rounds.
- `Integer.toString` is modelled for the counters only, as decimal with an optional '-'.
- The older `RockPaperScissors.playRound` calls `Rules.evaluate`, but the older `Rules` names its lookup `outcome`. The model uses `LegacyRules.OutcomeOf`, which is that lookup.
- The older `UI` names the defeat outcome `LOSS`, but the older `Rules` table uses `LOSE`. The model reads it as `LOSE`.
- The older test of `markovChain(PAPER)` refers to a factory the older `Strategies` does not declare, so it has no counterpart.
- The older `Command` enum is not part of this model. Its four constants are read from their uses in the older game loop (`temp/Main.java`).
- The `Move` enum of the `rps` package is not part of this model. Its tests and uses agree with the older `Move.java` tables, which `Moves` models for both packages.
- The documentation of `toss` says the choice is made "each turn", but the code draws the coin once, at construction. The model follows the code.
