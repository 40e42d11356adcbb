/**
 * The token parsers and outcome messages of the older `max.rindon.ui.UI`.
 * Its tables are the same as the `rps` ones; its outcome table names the
 * player's defeat `LOSS`, read here as the older enum's `LOSE`.
 */
module LegacyUI {
  import opened Moves
  import opened LegacyRules
  import opened Wrappers
  import U = UI

  /** The older console commands; `CONTINUE` is the game loop's fallback and has no token. */
  datatype Command = QUIT | HELP | STATS | CONTINUE

  /** Exactly these six strings are moves, as the prompt "(Rr)ock, (Pp)aper, (Ss)cissors" lists them. */
  const STRING_TO_MOVE: map<string, Move> :=
    map["s" := SCISSORS, "S" := SCISSORS, "r" := ROCK, "R" := ROCK, "p" := PAPER, "P" := PAPER]

  const STRING_TO_COMMAND: map<string, Command> :=
    map[":q" := QUIT, ":h" := HELP, ":s" := STATS]

  const OUTCOME_TO_MESSAGE: map<Outcome, string> :=
    map[WIN := "Greetings, you won!", LOSE := "Sorry, you lost. Maybe next time!", DRAW := "And it's a draw."]

  /** `parseMove`: the move a token names, or empty for any other string. */
  function ParseMove(moveString: string): (r: Option<Move>)
    ensures r == Some(ROCK) <==> moveString == "r" || moveString == "R"
    ensures r == Some(PAPER) <==> moveString == "p" || moveString == "P"
    ensures r == Some(SCISSORS) <==> moveString == "s" || moveString == "S"
    ensures r.None? <==> moveString !in {"r", "R", "p", "P", "s", "S"}
  {
    if moveString in STRING_TO_MOVE then Some(STRING_TO_MOVE[moveString]) else None
  }

  /** `parseCommand`: the command a token names, or empty for any other string. */
  function ParseCommand(commandString: string): (r: Option<Command>)
    ensures r == Some(QUIT) <==> commandString == ":q"
    ensures r == Some(HELP) <==> commandString == ":h"
    ensures r == Some(STATS) <==> commandString == ":s"
    ensures r != Some(CONTINUE)
  {
    if commandString in STRING_TO_COMMAND then Some(STRING_TO_COMMAND[commandString]) else None
  }

  /** No string is both a move and a command. */
  lemma TokensDisjoint(s: string)
    ensures !(ParseMove(s).Some? && ParseCommand(s).Some?)
  {
  }

  /** `outcome2Message`: the line announcing a round's outcome, defined for every outcome. */
  function Outcome2Message(outcome: Outcome): (message: string)
    ensures |message| > 0
  {
    assert outcome == WIN || outcome == LOSE || outcome == DRAW;
    OUTCOME_TO_MESSAGE[outcome]
  }

  /** Different outcomes are announced differently. */
  lemma Outcome2MessageInjective(a: Outcome, b: Outcome)
    requires Outcome2Message(a) == Outcome2Message(b)
    ensures a == b
  {
  }

  /**
   * An older command's `rps` counterpart: the three tokened commands map to
   * their namesakes, and the fallback `CONTINUE` to the fallback `PLAY`.
   */
  function ToRps(c: Command): (r: U.Command)
    ensures r == U.QUIT <==> c == QUIT
    ensures r == U.HELP <==> c == HELP
    ensures r == U.STATS <==> c == STATS
    ensures r == U.PLAY <==> c == CONTINUE
  {
    match c
    case QUIT => U.QUIT
    case HELP => U.HELP
    case STATS => U.STATS
    case CONTINUE => U.PLAY
  }

  /** Both packages accept the same move tokens and read them as the same moves. */
  lemma ParseMoveAgreesWithRps(s: string)
    ensures ParseMove(s) == U.ParseMove(s)
  {
  }

  /**
   * Both packages accept the same command tokens and read them as the same
   * commands, and both loops fall back to their counterpart fallbacks on
   * every other string (`orElse(CONTINUE)` and `orElse(PLAY)`).
   */
  lemma ParseCommandAgreesWithRps(s: string)
    ensures ParseCommand(s).None? <==> U.ParseCommand(s).None?
    ensures ParseCommand(s).Some? ==> U.ParseCommand(s) == Some(ToRps(ParseCommand(s).value))
    ensures ToRps(ParseCommand(s).GetOr(CONTINUE)) == U.ParseCommand(s).GetOr(U.PLAY)
  {
  }

  /** Both packages announce corresponding outcomes with the same message. */
  lemma Outcome2MessageAgreesWithRps(o: Outcome)
    ensures Outcome2Message(o) == U.Outcome2Message(LegacyRules.ToRps(o))
  {
  }
}
