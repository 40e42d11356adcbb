/**
 * The text side of the `rps` package's `UI`: exact-match token parsers over
 * constant lookup tables, the outcome messages, the parse error, and the
 * statistics summary. The platform line separator is the parameter `sep`.
 */
module UI {
  import opened Moves
  import opened Rules
  import opened Wrappers
  import opened Text

  /** The console commands; `PLAY` is the runner's fallback and has no token. */
  datatype Command = QUIT | HELP | STATS | PLAY

  const PARSE_MOVE_MESSAGE: string := "Sorry, I didn't understand your move: "

  /** Exactly these six strings are moves; case is not folded. */
  const STRING_TO_MOVE: map<string, Move> :=
    map["s" := SCISSORS, "S" := SCISSORS, "r" := ROCK, "R" := ROCK, "p" := PAPER, "P" := PAPER]

  const STRING_TO_COMMAND: map<string, Command> :=
    map[":q" := QUIT, ":h" := HELP, ":s" := STATS]

  const OUTCOME_TO_MESSAGE: map<Outcome, string> :=
    map[WIN := "Greetings, you won!", LOSS := "Sorry, you lost. Maybe next time!", DRAW := "And it's a draw."]

  /** `parseMove`: the move a token names, or empty for any other string. */
  function ParseMove(moveString: string): (r: Option<Move>)
    ensures r == Some(ROCK) <==> moveString == "r" || moveString == "R"
    ensures r == Some(PAPER) <==> moveString == "p" || moveString == "P"
    ensures r == Some(SCISSORS) <==> moveString == "s" || moveString == "S"
    ensures r.None? <==> moveString !in {"r", "R", "p", "P", "s", "S"}
  {
    if moveString in STRING_TO_MOVE then Some(STRING_TO_MOVE[moveString]) else None
  }

  /** The lower-case token the move prompt "(r)ock, (p)aper, (s)cissors" offers for a move. */
  function MoveToken(m: Move): (token: string)
    ensures |token| == 1
  {
    match m
    case ROCK => "r"
    case PAPER => "p"
    case SCISSORS => "s"
  }

  /** Each prompted token parses to its move, and so does its upper-case form. */
  lemma ParseMoveToken(m: Move)
    ensures ParseMove(MoveToken(m)) == Some(m)
    ensures ParseMove([MoveToken(m)[0] - 'a' + 'A']) == Some(m)
  {
  }

  /** Strings that are not exactly a token are rejected, such as the word, the empty string, or a padded token. */
  lemma ParseMoveRejects()
    ensures ParseMove("rock") == None
    ensures ParseMove("") == None
    ensures ParseMove(" r") == None
  {
  }

  /** `parseCommand`: the command a token names, or empty for any other string. */
  function ParseCommand(commandString: string): (r: Option<Command>)
    ensures r == Some(QUIT) <==> commandString == ":q"
    ensures r == Some(HELP) <==> commandString == ":h"
    ensures r == Some(STATS) <==> commandString == ":s"
    ensures r != Some(PLAY)
  {
    if commandString in STRING_TO_COMMAND then Some(STRING_TO_COMMAND[commandString]) else None
  }

  /** No string is both a move and a command, so the runner's command check never hides a move. */
  lemma TokensDisjoint(s: string)
    ensures !(ParseMove(s).Some? && ParseCommand(s).Some?)
  {
  }

  /** `outcome2Message`: the line announcing a round's outcome, defined for every outcome. */
  function Outcome2Message(outcome: Outcome): (message: string)
    ensures |message| > 0
  {
    assert outcome == WIN || outcome == LOSS || outcome == DRAW;
    OUTCOME_TO_MESSAGE[outcome]
  }

  /** Different outcomes are announced differently. */
  lemma Outcome2MessageInjective(a: Outcome, b: Outcome)
    requires Outcome2Message(a) == Outcome2Message(b)
    ensures a == b
  {
  }

  /** `renderParseMoveError`: the fixed apology followed by the input as typed. */
  function RenderParseMoveError(playerInput: string): (message: string)
    ensures |message| == |PARSE_MOVE_MESSAGE| + |playerInput|
    ensures message[..|PARSE_MOVE_MESSAGE|] == PARSE_MOVE_MESSAGE
    ensures message[|PARSE_MOVE_MESSAGE|..] == playerInput
  {
    PARSE_MOVE_MESSAGE + playerInput
  }

  /** The input can be read back from its error message, so distinct inputs give distinct messages. */
  lemma RenderParseMoveErrorInjective(a: string, b: string)
    requires RenderParseMoveError(a) == RenderParseMoveError(b)
    ensures a == b
  {
    assert a == RenderParseMoveError(a)[|PARSE_MOVE_MESSAGE|..];
  }

  /** `"" + statistics.get(o)`: the counter, or "null" when the map has no entry. */
  function Counter(statistics: map<Outcome, int>, o: Outcome): (s: string)
    ensures o in statistics ==> s == IntToString(statistics[o])
    ensures o !in statistics ==> s == "null"
  {
    if o in statistics then IntToString(statistics[o]) else "null"
  }

  /** `renderStatistics`: the player's wins, the AI's wins and the draws, one line each. */
  function RenderStatistics(statistics: map<Outcome, int>, sep: string): (r: string)
    ensures r == "You: " + Counter(statistics, WIN) + sep
               + "AI: " + Counter(statistics, LOSS) + sep
               + "Draw: " + Counter(statistics, DRAW)
  {
    JoinThree(sep, "You: " + Counter(statistics, WIN), "AI: " + Counter(statistics, LOSS), "Draw: " + Counter(statistics, DRAW));
    Join(sep, ["You: " + Counter(statistics, WIN), "AI: " + Counter(statistics, LOSS), "Draw: " + Counter(statistics, DRAW)])
  }

  /** The summary of complete statistics, grouped as three labelled numerals. */
  lemma RenderStatisticsLabels(statistics: map<Outcome, int>, sep: string)
    requires WIN in statistics && LOSS in statistics && DRAW in statistics
    ensures RenderStatistics(statistics, sep)
         == "You: " + IntToString(statistics[WIN]) + (sep + "AI: ")
          + IntToString(statistics[LOSS]) + (sep + "Draw: ") + IntToString(statistics[DRAW])
  {
  }

  /**
   * The summary loses nothing: for complete statistics, and any separator
   * that does not begin with a digit or '-', equal summaries mean equal counters.
   */
  lemma RenderStatisticsInjective(s1: map<Outcome, int>, s2: map<Outcome, int>, sep: string)
    requires WIN in s1 && LOSS in s1 && DRAW in s1
    requires WIN in s2 && LOSS in s2 && DRAW in s2
    requires sep == [] || !IsNumeralChar(sep[0])
    requires RenderStatistics(s1, sep) == RenderStatistics(s2, sep)
    ensures s1[WIN] == s2[WIN] && s1[LOSS] == s2[LOSS] && s1[DRAW] == s2[DRAW]
  {
    RenderStatisticsLabels(s1, sep);
    RenderStatisticsLabels(s2, sep);
    var ai, draw := sep + "AI: ", sep + "Draw: ";
    assert ai[0] == (if sep == [] then 'A' else sep[0]);
    assert draw[0] == (if sep == [] then 'D' else sep[0]);
    LabelledNumeralsUnique("You: ", ai, draw,
      IntToString(s1[WIN]), IntToString(s1[LOSS]), IntToString(s1[DRAW]),
      IntToString(s2[WIN]), IntToString(s2[LOSS]), IntToString(s2[DRAW]));
    IntToStringInjective(s1[WIN], s2[WIN]);
    IntToStringInjective(s1[LOSS], s2[LOSS]);
    IntToStringInjective(s1[DRAW], s2[DRAW]);
  }

  /** The statistics after one round of each outcome, as the integration test expects them on a Unix line separator. */
  lemma RenderStatisticsOneEach()
    ensures RenderStatistics(map[WIN := 1, LOSS := 1, DRAW := 1], "\n") == "You: 1\nAI: 1\nDraw: 1"
  {
  }
}
