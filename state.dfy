/**
 * The state of the quiz engine as values: the screens, the question bank, the per-question
 * and per-session records the frame loop updates, the rules' constants, and the facts
 * about them that every frame keeps.
 */
module State {
  import opened Selection
  import opened Bytes
  import opened Options
  import opened Rules

  /** GameScreen, in the order of its declaration. */
  datatype Screen =
    | MainMenu | StartGame | Settings | SinglePlayerRules | MultiplayerRules | SinglePlayer
    | Multiplayer | Ready | Pause | SinglePlayerGameOver | MultiplayerGameOver
    | MultiplayerControls | PlayerName | Leaderboards | Exit

  /** A question of the bank: its text, its answers and the slot of the right one. */
  datatype Question = Question(questionText: string, answers: seq<string>, correctAnswerIndex: int)

  /** The engine indexes four answers and trusts the index of the right one. */
  predicate WellFormed(q: Question)
  {
    |q.answers| == AnswerSlots && 0 <= q.correctAnswerIndex < AnswerSlots
  }

  /** One of the four answer slots Q, W, E, R (U, I, O, P for the second player). */
  type Slot = k: int | 0 <= k < 4

  /** The pair isAnswerX_Correct / isAnswerX_Wrong of one slot: at most one is ever set. */
  datatype Mark = Unmarked | MarkedCorrect | MarkedWrong

  /** gameMessage during a two-player round. */
  datatype Message = NoMessage | Announced(verdict: Verdict) | OutOfTime

  const HistorySize: nat := 10
  const MaxHealth := 10
  const RoundSeconds := 20
  const FirstRoundSeconds := 21
  /** The feedback pause after a single-player round, and the two-player delays, in milliseconds. */
  const FeedbackMs := 1500
  const EvaluationDelayMs := 500
  const MessageMs := 2500
  const TimeoutMs := 2000
  const GameOverDelayMs := 2500

  /** The screens on which ResetGameVariables also resets the session. */
  predicate FullReset(screen: Screen)
  {
    screen == MainMenu || screen == SinglePlayerGameOver || screen == MultiplayerGameOver
  }

  /** wrongAnswersIndices: the two slots ability A greys out, {-1, -1} while none are. */
  datatype Reveal = Reveal(first: int, second: int)

  const Hidden := Reveal(-1, -1)

  /** Two different wrong slots of a question whose right slot is `correct`. */
  predicate WrongPair(w: Reveal, correct: int)
  {
    && w.first != w.second
    && 0 <= w.first < AnswerSlots && w.first != correct
    && 0 <= w.second < AnswerSlots && w.second != correct
  }

  /** The single-player state of one question, which every reset clears. */
  datatype Round = Round(
    isAnswerCorrect: bool, enableInput: bool, answerSelected: bool, marks: seq<Mark>,
    wrongAnswersIndices: Reveal, wrongAnswerIndex: int)

  const FreshRound := Round(false, true, false, [Unmarked, Unmarked, Unmarked, Unmarked], Hidden, -1)

  /** The two-player state of one question, which every reset clears. */
  datatype Duel = Duel(
    player1Selected: bool, player2Selected: bool, player1Answer: int, player2Answer: int,
    player1AnswerTime: int, player2AnswerTime: int,
    correctAnswer: bool, messageDisplayed: bool, gameMessage: Message)

  const FreshDuel := Duel(false, false, -1, -1, 0, 0, false, false, NoMessage)

  /** The single-player score, health and abilities, which only the full reset clears. */
  datatype Solo = Solo(
    score: int, healthPoints: int,
    abilityAUsed: bool, abilitySUsed: bool, abilityDUsed: bool, abilityFUsed: bool,
    skipQuestion: bool, addHealthPoint: bool)

  const FreshSolo := Solo(0, MaxHealth, false, false, false, false, false, false)

  /** The two-player scores, health and game-over delay, which only the full reset clears. */
  datatype Duo = Duo(player1Score: int, player2Score: int, player1Health: int, player2Health: int, gameOverDelayMs: int)

  const FreshDuo := Duo(0, 0, MaxHealth, MaxHealth, 0)

  /** The player names and the state of their entry, which only the full reset clears. */
  datatype Names = Names(
    player1Name: seq<byte>, player2Name: seq<byte>,
    enteringPlayer1Name: bool, enteringPlayer2Name: bool, namesEntered: bool)

  const FreshNames := Names([], [], false, false, false)

  /** The marks and reveals of a round are about the question whose right slot is `correct`. */
  predicate RoundValid(r: Round, correct: int)
  {
    && |r.marks| == AnswerSlots
    && (forall k :: 0 <= k < |r.marks| ==> (r.marks[k] == MarkedCorrect ==> k == correct))
    && (forall k :: 0 <= k < |r.marks| ==> (r.marks[k] == MarkedWrong ==> k != correct))
    && (r.wrongAnswersIndices == Hidden || WrongPair(r.wrongAnswersIndices, correct))
    && (r.wrongAnswerIndex == -1 || (0 <= r.wrongAnswerIndex < AnswerSlots && r.wrongAnswerIndex != correct))
  }

  /** Each player's locked answer is a slot, or -1 for none. */
  predicate DuelValid(d: Duel)
  {
    -1 <= d.player1Answer < AnswerSlots && -1 <= d.player2Answer < AnswerSlots
  }

  /**
   * The score never goes negative, an armed effect comes from its used ability, and
   * health tops out at 11: 10 plus the one bonus ability D can pay.
   */
  predicate SoloValid(s: Solo)
  {
    && s.score >= 0
    && (s.skipQuestion ==> s.abilitySUsed)
    && (s.addHealthPoint ==> s.abilityDUsed)
    && s.healthPoints <= MaxHealth + (if s.abilityDUsed && !s.addHealthPoint then 1 else 0)
  }

  /** A greyed-out slot on screen comes from its used ability. */
  predicate RevealsUsed(r: Round, s: Solo)
  {
    && (r.wrongAnswersIndices != Hidden ==> s.abilityAUsed)
    && (r.wrongAnswerIndex != -1 ==> s.abilityFUsed)
  }

  /** From session `s` to session `t`, no used ability comes back and the score never drops. */
  predicate SoloAdvanced(s: Solo, t: Solo)
  {
    && (s.abilityAUsed ==> t.abilityAUsed) && (s.abilitySUsed ==> t.abilitySUsed)
    && (s.abilityDUsed ==> t.abilityDUsed) && (s.abilityFUsed ==> t.abilityFUsed)
    && s.score <= t.score
  }

  /** From `u` to `v` in two-player play, no score drops and no health point comes back. */
  predicate DuoAdvanced(u: Duo, v: Duo)
  {
    && u.player1Score <= v.player1Score && u.player2Score <= v.player2Score
    && v.player1Health <= u.player1Health && v.player2Health <= u.player2Health
  }

  /** From `u` to `v`, neither player loses more than `k` health points. */
  predicate HealthLostAtMost(u: Duo, v: Duo, k: nat)
  {
    u.player1Health - k <= v.player1Health && u.player2Health - k <= v.player2Health
  }

  predicate DuoValid(d: Duo)
  {
    && d.player1Score >= 0 && d.player2Score >= 0
    && d.player1Health <= MaxHealth && d.player2Health <= MaxHealth
    && d.gameOverDelayMs >= 0
  }

  /** Names hold at most 11 characters, and at most one of them is being entered. */
  predicate NamesValid(n: Names)
  {
    |n.player1Name| <= MaxNameLength && |n.player2Name| <= MaxNameLength
    && !(n.enteringPlayer1Name && n.enteringPlayer2Name)
  }

  /**
   * The history of drawn questions: at most ten question indices, no repeats, the
   * question on screen last.
   */
  predicate HistoryValid(questions: seq<Question>, history: seq<int>, index: int)
  {
    && 0 <= index < |questions|
    && |history| <= HistorySize && Distinct(history)
    && (forall k :: 0 <= k < |history| ==> 0 <= history[k] < |questions|)
    && (history != [] ==> history[|history| - 1] == index)
  }

  /** A draw of a fresh question keeps the history valid, with the new question last. */
  lemma DrawKeepsHistory(questions: seq<Question>, history: seq<int>, index: int, v: int)
    requires HistoryValid(questions, history, index)
    requires 0 <= v < |questions| && v !in history
    ensures HistoryValid(questions, Evicted(history, HistorySize) + [v], v)
    ensures |Evicted(history, HistorySize) + [v]| == if |history| == HistorySize then HistorySize else |history| + 1
  {
    DrawKeepsDistinct(history, HistorySize, v);
    DrawKeepsBound(history, HistorySize, v);
    var h := Evicted(history, HistorySize);
    assert forall x :: x in h ==> x in history;
  }

  /** The cleared state is valid whatever the question. */
  lemma FreshStateValid(correct: int, s: Solo)
    ensures RoundValid(FreshRound, correct) && RevealsUsed(FreshRound, s)
    ensures DuelValid(FreshDuel) && SoloValid(FreshSolo) && DuoValid(FreshDuo) && NamesValid(FreshNames)
  {
  }

  /**
   * The facts every frame keeps, on the fields of the game: a bank of well-formed
   * questions, a valid history ending in the question on screen, a round about that
   * question, a coherent single-player session whose reveals were paid for, a countdown
   * within its range, locked answers that are slots or none, a coherent two-player
   * session, and valid names.
   */
  predicate GameValid(questions: seq<Question>, history: seq<int>, index: int, round: Round, solo: Solo,
                      countdown: int, timer: int, duel: Duel, duo: Duo, names: Names)
  {
    && |questions| > 0
    && (forall i :: 0 <= i < |questions| ==> WellFormed(questions[i]))
    && HistoryValid(questions, history, index)
    && RoundValid(round, questions[index].correctAnswerIndex)
    && SoloValid(solo) && RevealsUsed(round, solo)
    && 0 <= countdown <= FirstRoundSeconds && timer >= 0
    && DuelValid(duel) && DuoValid(duo) && NamesValid(names)
  }
}
