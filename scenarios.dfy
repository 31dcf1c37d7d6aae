/**
 * Runs of several frames that show how the state of one match carries over into the
 * next. The screens between the main menu and a two-player match (the menus, the rules,
 * the name entry and the READY countdown) are stood for by the READY screen's last step,
 * which puts up MULTIPLAYER when the name entry left single player deselected.
 */
module Scenarios {
  import opened Options
  import opened State
  import opened Rounds
  import opened Engine

  /** A frame of the two-player screen with no answer, no pause and no second ticked. */
  function QuietFrame(elapsedMs: nat, nowMs: int): MultiplayerInput
  {
    MultiplayerInput(false, elapsedMs, nowMs, nowMs, None, None, false)
  }

  /**
   * From the main menu to the first frame of a two-player match: the main menu's reset,
   * then the READY screen's hand-over to MULTIPLAYER.
   */
  method EnterMatch(g: Game)
    requires g.Valid() && !g.hung && g.screen == MainMenu && !g.singlePlayerSelected
    modifies g
    ensures (!g.hung ==>
               && g.Valid() && g.screen == Multiplayer && g.duo == FreshDuo
               && g.isGameOverTriggered == old(g.isGameOverTriggered))
  {
    g.ResetGameVariables();
    if !g.hung {
      g.LeaveReady();
    }
  }

  /** The same steps with the corrected reset, which clears the game-over trigger. */
  method EnterMatchCorrected(g: Game)
    requires g.Valid() && !g.hung && g.screen == MainMenu && !g.singlePlayerSelected
    modifies g
    ensures !g.hung ==> g.Valid() && g.screen == Multiplayer && g.duo == FreshDuo && !g.isGameOverTriggered
  {
    g.ResetGameVariablesCorrected();
    if !g.hung {
      g.LeaveReady();
    }
  }

  /**
   * A match that ended, left from the game-over screen for the main menu: the main
   * menu's reset restores both players to full health but keeps the game-over trigger,
   * so the next match shows its game-over screen after 2.5 s of play with both players
   * still alive, and the leaderboard never hears of it.
   */
  method StaleTriggerEndsNextMatch(g: Game, nowMs: int)
    requires g.Valid() && !g.hung && g.screen == MainMenu && g.isGameOverTriggered && !g.singlePlayerSelected
    modifies g, g.ledger
    ensures (!g.hung ==>
               && g.screen == MultiplayerGameOver
               && g.duo.player1Health > 0 && g.duo.player2Health > 0
               && g.ledger.entries == old(g.ledger.entries) && g.ledger.file == old(g.ledger.file))
  {
    EnterMatch(g);
    if g.hung {
      return;
    }
    g.MultiplayerFrame(QuietFrame(GameOverDelayMs, nowMs));
  }

  /**
   * The same run with the corrected reset: the trigger is cleared on the main menu, so
   * the match goes on while both players have health left, and the game-over screen and
   * the leaderboard entry wait for a player to run out of it.
   */
  method FreshMatchAfterCorrectedReset(g: Game, nowMs: int)
    requires g.Valid() && !g.hung && g.screen == MainMenu && g.isGameOverTriggered && !g.singlePlayerSelected
    modifies g, g.ledger
    ensures (!g.hung ==>
               && g.screen == Multiplayer && !g.isGameOverTriggered
               && g.duo.player1Health > 0 && g.duo.player2Health > 0
               && g.ledger.entries == old(g.ledger.entries) && g.ledger.file == old(g.ledger.file))
  {
    EnterMatchCorrected(g);
    if g.hung {
      return;
    }
    g.MultiplayerFrame(QuietFrame(GameOverDelayMs, nowMs));
  }

  /**
   * A single-player frame in which the right slot is pressed while input is enabled,
   * with no skip armed and more than one second left: the frame ends with exactly one
   * point more, and the abilities pressed in it change no score.
   */
  method RightAnswerFrame(g: Game, input: SinglePlayerInput)
    requires g.Valid() && !g.hung && g.screen == SinglePlayer
    requires g.round.enableInput && !g.solo.skipQuestion && g.countdownTime > 1
    requires input.answer.Some? && input.answer.value == g.CorrectIndex()
    modifies g
    ensures !g.hung ==> g.solo.score == old(g.solo.score) + 1
  {
    var t := g.CurrentTurn();
    RightAnswerScores(t, input, g.CorrectIndex());
    var p := PlayedTurn(t, input, g.CorrectIndex());
    ArmedKeeps(p.solo, p.round.enableInput, input);
    g.SinglePlayerFrame(input);
  }
}
