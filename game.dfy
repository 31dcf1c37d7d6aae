/**
 * The quiz engine's state machine: the locals of `main` that the frame loop updates,
 * gathered in one object, with one method per update branch the model covers and one
 * per step those branches take. Each frame reads its input as an event record instead
 * of polling the keyboard, the mouse and the clock.
 */
module Engine {
  import opened Random
  import opened Selection
  import opened Bytes
  import opened Options
  import opened Leaderboard
  import opened HighScore
  import opened Rules
  import opened State
  import opened Rounds

  class Game {
    const questions: seq<Question>
    /** The leaderboard with its file. */
    const ledger: Ledger

    var screen: Screen
    var previousScreen: Screen
    /** The raw words the generator has yet to hand out. */
    var rng: seq<nat>
    /** A rejection loop ran out of words: the program is stuck in it and no frame follows. */
    var hung: bool
    var history: seq<int>
    var currentQuestionIndex: int
    var countdownTime: int
    var timerMs: int
    var round: Round
    var duel: Duel
    var solo: Solo
    var duo: Duo
    var names: Names
    var highscore: int
    /** The high-score file. */
    var highScoreFile: Option<seq<byte>>
    var singlePlayerSelected: bool
    var gameInProgress: bool
    var isGameOverTriggered: bool
    var exitFromGameover: bool

    /** The right slot of the question on screen. */
    function CorrectIndex(): int
      reads this`currentQuestionIndex
      requires 0 <= currentQuestionIndex < |questions|
    {
      questions[currentQuestionIndex].correctAnswerIndex
    }

    /** The question bank, the question on screen and the history it was drawn against. */
    predicate QuestionValid()
      reads this`history, this`currentQuestionIndex
    {
      && |questions| > 0
      && (forall i :: 0 <= i < |questions| ==> WellFormed(questions[i]))
      && HistoryValid(questions, history, currentQuestionIndex)
    }

    /** The round on screen is about the question on screen. */
    predicate RoundOk()
      reads this`round, this`currentQuestionIndex
    {
      0 <= currentQuestionIndex < |questions| && RoundValid(round, CorrectIndex())
    }

    /** The single-player session is coherent, and the reveals on screen were paid for. */
    predicate SoloOk()
      reads this`round, this`solo
    {
      SoloValid(solo) && RevealsUsed(round, solo)
    }

    predicate ClockOk()
      reads this`countdownTime, this`timerMs
    {
      0 <= countdownTime <= FirstRoundSeconds && timerMs >= 0
    }

    /** The single-player round state, as a value. */
    function CurrentTurn(): Turn
      reads this`countdownTime, this`timerMs, this`round, this`solo
    {
      Turn(countdownTime, timerMs, round, solo)
    }

    /** The two-player round state, as a value. */
    function CurrentBout(): Bout
      reads this`countdownTime, this`timerMs, this`round, this`duel, this`duo
    {
      Bout(countdownTime, timerMs, round, duel, duo)
    }

    /** The facts every frame keeps. */
    predicate Valid()
      reads this`history, this`currentQuestionIndex, this`round, this`solo, this`countdownTime, this`timerMs,
            this`duel, this`duo, this`names
    {
      GameValid(questions, history, currentQuestionIndex, round, solo, countdownTime, timerMs, duel, duo, names)
    }

    /** The single-player frame up to its screen checks, from the state before it, as SinglePlayerStepped says. */
    twostate predicate SteppedSinglePlayer(input: SinglePlayerInput)
      reads this`countdownTime, this`timerMs, this`round, this`solo, this`history, this`currentQuestionIndex
    {
      && old(0 <= currentQuestionIndex < |questions| && |round.marks| == AnswerSlots)
      && 0 <= currentQuestionIndex < |questions|
      && SinglePlayerStepped(old(CurrentTurn()), input, old(CorrectIndex()), old(history), old(currentQuestionIndex),
                             CurrentTurn(), CorrectIndex(), history, currentQuestionIndex)
    }

    /** The trigger, the leaderboard and the screens, as a value. */
    function CurrentEnd(): EndState
      reads this`isGameOverTriggered, this`screen, this`previousScreen, ledger
    {
      EndState(isGameOverTriggered, ledger.entries, ledger.file, screen, previousScreen)
    }

    /**
     * The work of a question draw: the words it read, the question it picked and the
     * history it left.
     */
    twostate predicate DrewQuestion()
      reads this`rng, this`history, this`currentQuestionIndex
    {
      var used := |old(rng)| - |rng|;
      && 0 < used <= |old(rng)| && rng == old(rng)[used..]
      && currentQuestionIndex == RandomValue(0, |questions| - 1, old(rng)[used - 1])
      && currentQuestionIndex !in old(history)
      && history == Evicted(old(history), HistorySize) + [currentQuestionIndex]
    }

    /**
     * The initialisation of `main`: the main menu, a 21-second countdown, the first
     * question drawn from an empty history, the high score and the leaderboard loaded
     * from their files. The source leaves wrongAnswerIndex uninitialised; it starts at
     * -1 here, the value every reset gives it.
     */
    constructor (questions: seq<Question>, rng: seq<nat>, highScoreFile: Option<seq<byte>>, leaderboardFile: Option<seq<byte>>)
      requires |questions| > 0 && forall i :: 0 <= i < |questions| ==> WellFormed(questions[i])
      ensures Valid()
      ensures this.questions == questions && screen == MainMenu && previousScreen == MainMenu
      ensures countdownTime == FirstRoundSeconds && timerMs == 0
      ensures round == FreshRound && duel == FreshDuel && solo == FreshSolo && duo == FreshDuo && names == FreshNames
      ensures !isGameOverTriggered && !gameInProgress && !exitFromGameover && !singlePlayerSelected
      ensures FirstDraw(|questions|, rng, currentQuestionIndex, history, this.rng, hung)
      ensures highscore == LoadHighScore(highScoreFile) && this.highScoreFile == highScoreFile
      ensures fresh(ledger) && ledger.file == leaderboardFile && ledger.entries == LoadedBoard([], leaderboardFile)
    {
      var index, drawn, rest, stuck := FirstQuestion(questions, rng);
      FreshStateValid(questions[index].correctAnswerIndex, FreshSolo);
      var board := new Ledger(leaderboardFile);
      this.questions, ledger := questions, board;
      screen, previousScreen := MainMenu, MainMenu;
      currentQuestionIndex, history, this.rng, hung := index, drawn, rest, stuck;
      countdownTime, timerMs := FirstRoundSeconds, 0;
      round, duel, solo, duo, names := FreshRound, FreshDuel, FreshSolo, FreshDuo, FreshNames;
      highscore, this.highScoreFile := LoadHighScore(highScoreFile), highScoreFile;
      singlePlayerSelected, gameInProgress, isGameOverTriggered, exitFromGameover := false, false, false, false;
    }

    /**
     * The draw of the next question, and the round cleared for it: a question not among
     * the last ten, drawn with GetUniqueRandomValue, and the single- and two-player state
     * of the round and its timer cleared. An exhausted stream leaves the program stuck
     * in the draw.
     */
    method NextQuestion()
      requires QuestionValid() && !hung
      modifies this`rng, this`hung, this`history, this`currentQuestionIndex, this`round, this`duel, this`timerMs
      ensures hung ==> rng == []
      ensures !hung ==> QuestionValid() && DrewQuestion() && round == FreshRound && duel == FreshDuel && timerMs == 0
      ensures !hung ==> RoundOk() && RevealsUsed(round, solo) && DuelValid(duel)
    {
      var d, h := UniqueRandomValue(0, |questions| - 1, history, HistorySize, rng);
      if d.Exhausted? {
        rng, hung := [], true;
        return;
      }
      DrawKeepsHistory(questions, history, currentQuestionIndex, d.value);
      rng := rng[d.consumed..];
      currentQuestionIndex, history := d.value, h;
      round, duel, timerMs := FreshRound, FreshDuel, 0;
    }

    /** The part of the reset that only the main menu and the game-over screens reach. */
    method ClearSession()
      modifies this`solo, this`duo, this`names
      ensures solo == FreshSolo && duo == FreshDuo && names == FreshNames
      ensures SoloValid(solo) && DuoValid(duo) && NamesValid(names)
    {
      solo, duo, names := FreshSolo, FreshDuo, FreshNames;
    }

    /**
     * ResetGameVariables: a new countdown (21 seconds on the main menu and the
     * single-player game-over screen, 20 elsewhere), a new question not among the last
     * ten, the round cleared; on the main menu and both game-over screens the whole
     * session too. It never touches the screen, the high score, gameInProgress or
     * isGameOverTriggered.
     */
    method ResetGameVariables()
      requires Valid() && !hung
      modifies this`countdownTime, this`rng, this`hung, this`history, this`currentQuestionIndex,
               this`timerMs, this`round, this`duel, this`solo, this`duo, this`names
      ensures !hung ==> Valid()
      ensures countdownTime == if screen == MainMenu || screen == SinglePlayerGameOver then FirstRoundSeconds else RoundSeconds
      ensures hung ==> rng == []
      ensures !hung ==> QuestionValid() && DrewQuestion() && round == FreshRound && duel == FreshDuel && timerMs == 0
      ensures (if !hung && FullReset(screen) then solo == FreshSolo && duo == FreshDuo && names == FreshNames
               else solo == old(solo) && duo == old(duo) && names == old(names))
    {
      NextQuestion();
      countdownTime := if screen == MainMenu || screen == SinglePlayerGameOver then FirstRoundSeconds else RoundSeconds;
      if !hung && FullReset(screen) {
        ClearSession();
      }
    }

    /**
     * ResetGameVariables as evidently intended: the full reset also clears
     * isGameOverTriggered, so that the next two-player match can end and be recorded.
     */
    method ResetGameVariablesCorrected()
      requires Valid() && !hung
      modifies this`countdownTime, this`rng, this`hung, this`history, this`currentQuestionIndex,
               this`timerMs, this`round, this`duel, this`solo, this`duo, this`names, this`isGameOverTriggered
      ensures !hung ==> Valid()
      ensures countdownTime == if screen == MainMenu || screen == SinglePlayerGameOver then FirstRoundSeconds else RoundSeconds
      ensures hung ==> rng == []
      ensures !hung ==> QuestionValid() && DrewQuestion() && round == FreshRound && duel == FreshDuel && timerMs == 0
      ensures (if !hung && FullReset(screen) then solo == FreshSolo && duo == FreshDuo && names == FreshNames && !isGameOverTriggered
               else solo == old(solo) && duo == old(duo) && names == old(names) && isGameOverTriggered == old(isGameOverTriggered))
    {
      ResetGameVariables();
      if !hung && FullReset(screen) {
        isGameOverTriggered := false;
      }
    }

    // ---------------------------------------------------------------------------------
    // Single player

    /** The countdown loses a second when one has passed, and stops at 0. */
    method TickCountdown(secondElapsed: bool)
      requires ClockOk()
      modifies this`countdownTime
      ensures ClockOk()
      ensures countdownTime == Tick(old(countdownTime), secondElapsed)
    {
      if secondElapsed {
        countdownTime := countdownTime - 1;
      }
      if countdownTime < 0 {
        countdownTime := 0;
      }
    }

    /** The answer buttons and keys, then the scoring of the selected answer. */
    method SelectAnswer(answer: Option<Slot>)
      requires RoundOk() && SoloOk()
      modifies this`round, this`solo
      ensures RoundOk() && SoloOk()
      ensures CurrentTurn() == Answered(old(CurrentTurn()), answer, CorrectIndex())
    {
      if round.enableInput && answer.Some? {
        AnswerScores(CurrentTurn(), answer, CorrectIndex());
        var t := Answered(CurrentTurn(), answer, CorrectIndex());
        round, solo := t.round, t.solo;
      }
    }

    /**
     * The round resolver, up to its reset; `ended` says that the round is over and the
     * reset is due.
     */
    method JudgeRound(elapsedMs: nat) returns (ended: bool)
      requires RoundOk() && SoloOk() && ClockOk()
      modifies this`countdownTime, this`timerMs, this`round, this`solo
      ensures RoundOk() && SoloOk() && ClockOk()
      ensures CurrentTurn() == Judged(old(CurrentTurn()), elapsedMs)
      ensures ended == RoundOver(old(CurrentTurn()), elapsedMs)
    {
      var res := Resolve(countdownTime, round, solo);
      ended := false;
      if res != Pending {
        var t := timerMs + elapsedMs;
        ended := t > FeedbackMs;
        SettleKeeps(res, ended, solo);
        countdownTime, timerMs, round, solo :=
          if res == TimedOut then countdownTime else RoundSeconds, t, round.(enableInput := false), Settle(res, ended, solo);
      }
    }

    /** The countdown, the answer and the round resolver of a single-player frame. */
    method AnswerStep(input: SinglePlayerInput) returns (ended: bool)
      requires RoundOk() && SoloOk() && ClockOk()
      modifies this`countdownTime, this`timerMs, this`round, this`solo
      ensures RoundOk() && SoloOk() && ClockOk()
      ensures CurrentTurn() == Judged(Answering(old(CurrentTurn()), input, CorrectIndex()), input.elapsedMs)
      ensures ended == AnswerEnds(old(CurrentTurn()), input, CorrectIndex())
    {
      TickCountdown(input.secondElapsed);
      SelectAnswer(input.answer);
      ended := JudgeRound(input.elapsedMs);
    }

    /**
     * The round part of a single-player frame: the countdown, the answer, and the round
     * resolver with the reset that ends a round and draws the next question.
     */
    method PlayRound(input: SinglePlayerInput)
      requires Valid() && !hung && screen == SinglePlayer
      modifies this`countdownTime, this`rng, this`hung, this`history, this`currentQuestionIndex,
               this`timerMs, this`round, this`duel, this`solo, this`duo, this`names
      ensures !hung ==> Valid()
      ensures !hung ==> CurrentTurn() == PlayedTurn(old(CurrentTurn()), input, old(CorrectIndex()))
      ensures (!hung ==>
                 Followed(AnswerEnds(old(CurrentTurn()), input, old(CorrectIndex())),
                          old(history), old(currentQuestionIndex), history, currentQuestionIndex))
      ensures !hung ==> duel == if AnswerEnds(old(CurrentTurn()), input, old(CorrectIndex())) then FreshDuel else old(duel)
      ensures !hung ==> ReadOn(old(rng), rng)
      ensures duo == old(duo) && names == old(names)
    {
      var ended := AnswerStep(input);
      if ended {
        assert !FullReset(screen);
        ResetGameVariables();
      }
    }

    /**
     * The four ability buttons, in the order A, S, D, F. `origin` is a stream the current
     * one was already read on from; it is read on from still.
     */
    method UseAbilities(input: SinglePlayerInput, ghost origin: seq<nat>)
      requires Valid() && !hung && ReadOn(origin, rng)
      modifies this`round, this`solo, this`rng, this`hung
      ensures !hung ==> Valid()
      ensures !hung ==> solo == Armed(old(solo), old(round.enableInput), input)
      ensures !hung ==> Revealed(old(round), round, old(solo), input, CorrectIndex())
      ensures !hung ==> ReadOn(old(rng), rng) && ReadOn(origin, rng)
    {
      var r, s, rest, stuck := Abilities(round, solo, CorrectIndex(), rng, input);
      if stuck {
        rng, hung := [], true;
        return;
      }
      RevealedKeeps(round, r, solo, input, CorrectIndex());
      ArmedKeeps(solo, round.enableInput, input);
      ReadOnTransitive(origin, rng, rest);
      round, solo, rng := r, s, rest;
    }

    /** The round, then the abilities, of a single-player frame. */
    method SinglePlayerStep(input: SinglePlayerInput)
      requires Valid() && !hung && screen == SinglePlayer
      modifies this`countdownTime, this`rng, this`hung, this`history, this`currentQuestionIndex,
               this`timerMs, this`round, this`duel, this`solo, this`duo, this`names
      ensures !hung ==> Valid()
      ensures !hung ==> SteppedSinglePlayer(input)
      ensures !hung ==> duel == if AnswerEnds(old(CurrentTurn()), input, old(CorrectIndex())) then FreshDuel else old(duel)
      ensures !hung ==> ReadOn(old(rng), rng)
      ensures duo == old(duo) && names == old(names)
    {
      PlayRound(input);
      if !hung {
        UseAbilities(input, old(rng));
      }
    }

    /**
     * One frame of the SINGLEPLAYER screen: the round, the game-over check, the pause,
     * then the abilities. The abilities neither read nor change the screen or the health,
     * so the model runs them before the two screen checks, to the same effect.
     */
    method SinglePlayerFrame(input: SinglePlayerInput)
      requires Valid() && !hung && screen == SinglePlayer
      modifies this`countdownTime, this`rng, this`hung, this`history, this`currentQuestionIndex,
               this`timerMs, this`round, this`duel, this`solo, this`duo, this`names, this`screen, this`previousScreen
      ensures !hung ==> Valid()
      ensures !hung ==> SteppedSinglePlayer(input)
      ensures !hung ==> duel == if AnswerEnds(old(CurrentTurn()), input, old(CorrectIndex())) then FreshDuel else old(duel)
      ensures !hung ==> ReadOn(old(rng), rng)
      ensures duo == old(duo) && names == old(names)
      ensures (!hung ==>
                 screen == if input.pause then Pause
                           else if solo.healthPoints <= 0 then SinglePlayerGameOver
                           else SinglePlayer)
      ensures !hung ==> previousScreen == if input.pause then SinglePlayer else old(previousScreen)
    {
      SinglePlayerStep(input);
      if !hung {
        SinglePlayerScreens(input.pause);
      }
    }

    /** The game-over check, then the pause, of a single-player frame. */
    method SinglePlayerScreens(pause: bool)
      modifies this`screen, this`previousScreen
      ensures screen == if pause then Pause else if solo.healthPoints <= 0 then SinglePlayerGameOver else old(screen)
      ensures previousScreen == if pause then SinglePlayer else old(previousScreen)
    {
      if solo.healthPoints <= 0 {
        screen := SinglePlayerGameOver;
      }
      if pause {
        previousScreen := SinglePlayer;
        screen := Pause;
      }
    }

    // ---------------------------------------------------------------------------------
    // Two players

    /** The start of a question: the timer cleared and input enabled, once per match. */
    method StartQuestion()
      requires RoundOk() && SoloOk() && ClockOk()
      modifies this`timerMs, this`round, this`gameInProgress
      ensures RoundOk() && SoloOk() && ClockOk() && gameInProgress
      ensures CurrentBout() == Started(old(CurrentBout()), old(gameInProgress))
    {
      if !gameInProgress {
        timerMs, round, gameInProgress := 0, round.(enableInput := true), true;
      }
    }

    /** The answer keys of both players, each stamped with its own clock reading. */
    method TakeAnswers(input: MultiplayerInput)
      requires DuelValid(duel)
      modifies this`duel
      ensures DuelValid(duel)
      ensures CurrentBout() == Taken(old(CurrentBout()), input)
    {
      var d := duel;
      if round.enableInput && !d.player1Selected && input.answer1.Some? {
        d := d.(player1Answer := input.answer1.value, player1Selected := true, player1AnswerTime := input.nowMs1);
      }
      if round.enableInput && !d.player2Selected && input.answer2.Some? {
        d := d.(player2Answer := input.answer2.value, player2Selected := true, player2AnswerTime := input.nowMs2);
      }
      duel := d;
    }

    /** The evaluation once both players have chosen; `reset` asks for the next question. */
    method EvaluateRound(elapsedMs: nat) returns (reset: bool)
      requires RoundOk() && ClockOk() && DuelValid(duel) && DuoValid(duo)
      modifies this`countdownTime, this`timerMs, this`round, this`duel, this`duo
      ensures RoundOk() && ClockOk() && DuelValid(duel) && DuoValid(duo)
      ensures CurrentBout() == Evaluated(old(CurrentBout()), elapsedMs, CorrectIndex())
      ensures reset == EvaluationOver(old(CurrentBout()), elapsedMs)
    {
      EvaluatedJudges(CurrentBout(), elapsedMs, CorrectIndex());
      reset := EvaluationOver(CurrentBout(), elapsedMs);
      var b := Evaluated(CurrentBout(), elapsedMs, CorrectIndex());
      countdownTime, timerMs, round, duel, duo := b.countdown, b.timer, b.round, b.duel, b.duo;
    }

    /**
     * The timeout, when the countdown read at the start of the frame was at 0; `reset`
     * asks for the next question.
     */
    method TimeOut(seconds: int, elapsedMs: nat) returns (reset: bool)
      requires RoundOk() && ClockOk() && DuelValid(duel) && DuoValid(duo)
      modifies this`timerMs, this`round, this`duel, this`duo
      ensures RoundOk() && ClockOk() && DuelValid(duel) && DuoValid(duo)
      ensures CurrentBout() == Expired(old(CurrentBout()), seconds, elapsedMs)
      ensures reset == TimeoutOver(old(CurrentBout()), seconds, elapsedMs)
    {
      if seconds != 0 {
        return false;
      }
      var t := timerMs + elapsedMs;
      reset := t > TimeoutMs;
      var u := if reset then duo.(player1Health := duo.player1Health - 1, player2Health := duo.player2Health - 1) else duo;
      timerMs, round, duo := t, round.(enableInput := false), u;
      duel := duel.(player1Answer := -1, player2Answer := -1, correctAnswer := true, gameMessage := OutOfTime);
    }

    /** The countdown, the start of the question and the answer keys; `seconds` is the countdown read after its tick. */
    method AnswerPhase(input: MultiplayerInput) returns (seconds: int)
      requires Valid()
      modifies this`countdownTime, this`timerMs, this`round, this`gameInProgress, this`duel
      ensures Valid() && gameInProgress
      ensures seconds == Tick(old(countdownTime), input.secondElapsed) % 60
      ensures CurrentBout() == Opened(old(CurrentBout()), old(gameInProgress), input)
    {
      TickCountdown(input.secondElapsed);
      seconds := countdownTime % 60;
      StartQuestion();
      TakeAnswers(input);
    }

    /** The evaluation, and the reset it asks for. */
    method EvaluationPhase(elapsedMs: nat)
      requires Valid() && !hung && screen == Multiplayer
      modifies this`countdownTime, this`rng, this`hung, this`history, this`currentQuestionIndex,
               this`timerMs, this`round, this`duel, this`solo, this`duo, this`names
      ensures !hung ==> Valid()
      ensures !hung ==> CurrentBout() == EvaluationStep(old(CurrentBout()), elapsedMs, old(CorrectIndex()))
      ensures (!hung ==>
                 Followed(EvaluationOver(old(CurrentBout()), elapsedMs),
                          old(history), old(currentQuestionIndex), history, currentQuestionIndex))
      ensures !hung ==> ReadOn(old(rng), rng)
      ensures solo == old(solo) && names == old(names)
    {
      var reset := EvaluateRound(elapsedMs);
      if reset {
        ResetGameVariables();
      }
    }

    /**
     * The timeout, and the reset it asks for. `origin` is a stream the current one was
     * already read on from; it is read on from still.
     */
    method TimeoutPhase(seconds: int, elapsedMs: nat, ghost origin: seq<nat>)
      requires Valid() && !hung && screen == Multiplayer && ReadOn(origin, rng)
      modifies this`countdownTime, this`rng, this`hung, this`history, this`currentQuestionIndex,
               this`timerMs, this`round, this`duel, this`solo, this`duo, this`names
      ensures !hung ==> Valid()
      ensures !hung ==> CurrentBout() == TimeoutStep(old(CurrentBout()), seconds, elapsedMs)
      ensures (!hung ==>
                 Followed(TimeoutOver(old(CurrentBout()), seconds, elapsedMs),
                          old(history), old(currentQuestionIndex), history, currentQuestionIndex))
      ensures !hung ==> ReadOn(old(rng), rng) && ReadOn(origin, rng)
      ensures solo == old(solo) && names == old(names)
    {
      var reset := TimeOut(seconds, elapsedMs);
      if reset {
        ResetGameVariables();
        if !hung {
          ReadOnTransitive(origin, old(rng), rng);
        }
      }
    }

    /**
     * The evaluation and then the timeout, each with the reset it asks for; the timeout
     * reads the countdown `seconds` as the frame read it before the evaluation.
     */
    method ResolveBout(seconds: int, elapsedMs: nat)
      requires Valid() && !hung && screen == Multiplayer
      modifies this`countdownTime, this`rng, this`hung, this`history, this`currentQuestionIndex,
               this`timerMs, this`round, this`duel, this`solo, this`duo, this`names
      ensures !hung ==> Valid()
      ensures (!hung ==>
                 CurrentBout() == TimeoutStep(EvaluationStep(old(CurrentBout()), elapsedMs, old(CorrectIndex())), seconds, elapsedMs))
      ensures (!hung ==>
                 var r1 := EvaluationOver(old(CurrentBout()), elapsedMs);
                 var r2 := TimeoutOver(EvaluationStep(old(CurrentBout()), elapsedMs, old(CorrectIndex())), seconds, elapsedMs);
                 !(r1 && r2) ==> Followed(r1 || r2, old(history), old(currentQuestionIndex), history, currentQuestionIndex))
      ensures !hung ==> ReadOn(old(rng), rng)
      ensures solo == old(solo) && names == old(names)
    {
      EvaluationPhase(elapsedMs);
      if !hung {
        TimeoutPhase(seconds, elapsedMs, old(rng));
      }
    }

    /**
     * The round part of a two-player frame: answers, evaluation, timeout. A frame that
     * asks for one new question shows a question not in the history; one that asks for
     * none keeps the question.
     */
    method MultiplayerRound(input: MultiplayerInput)
      requires Valid() && !hung && screen == Multiplayer
      modifies this`countdownTime, this`rng, this`hung, this`history, this`currentQuestionIndex,
               this`timerMs, this`round, this`duel, this`solo, this`duo, this`names, this`gameInProgress
      ensures !hung ==> Valid() && gameInProgress
      ensures (!hung ==>
                 MultiplayerStepped(old(CurrentBout()), old(gameInProgress), input, old(CorrectIndex()),
                                    old(history), old(currentQuestionIndex), CurrentBout(), history, currentQuestionIndex))
      ensures !hung ==> duo.gameOverDelayMs == old(duo.gameOverDelayMs)
      ensures ledger.entries == old(ledger.entries) && ledger.file == old(ledger.file)
      ensures !hung ==> DuoAdvanced(old(duo), duo) && HealthLostAtMost(old(duo), duo, 2)
      ensures !hung ==> ReadOn(old(rng), rng)
      ensures solo == old(solo) && names == old(names)
    {
      PlayedBoutAdvances(CurrentBout(), gameInProgress, input, CorrectIndex());
      var seconds := AnswerPhase(input);
      ResolveBout(seconds, input.elapsedMs);
    }

    /**
     * The game-over check: the first frame in which a player has no health left sets the
     * trigger, starts the delay and records both players on the leaderboard; while the
     * trigger is set the delay runs, and after 2.5 s the game-over screen shows.
     */
    method CheckGameOver(elapsedMs: nat)
      requires DuoValid(duo)
      modifies this`isGameOverTriggered, this`duo, this`screen, ledger
      ensures DuoValid(duo)
      ensures (var lost := old(duo.player1Health) <= 0 || old(duo.player2Health) <= 0;
               var newly := lost && !old(isGameOverTriggered);
               && isGameOverTriggered == (old(isGameOverTriggered) || lost)
               && duo == old(duo).(gameOverDelayMs := (if newly then 0 else old(duo.gameOverDelayMs))
                                                       + (if isGameOverTriggered then elapsedMs else 0))
               && (newly ==>
                     && ledger.entries == UpdatedBoard(old(ledger.entries), Entry(names.player1Name, duo.player1Score),
                                                       Entry(names.player2Name, duo.player2Score))
                     && ledger.file == Some(EncodeLeaderboard(ledger.entries)))
               && (!newly ==> ledger.entries == old(ledger.entries) && ledger.file == old(ledger.file)))
      ensures screen == if isGameOverTriggered && duo.gameOverDelayMs >= GameOverDelayMs then MultiplayerGameOver else old(screen)
    {
      var delay := duo.gameOverDelayMs;
      if duo.player1Health <= 0 || duo.player2Health <= 0 {
        if !isGameOverTriggered {
          isGameOverTriggered, delay := true, 0;
          ledger.Update(names.player1Name, duo.player1Score, names.player2Name, duo.player2Score);
        }
      }
      if isGameOverTriggered {
        delay := delay + elapsedMs;
        if delay >= GameOverDelayMs {
          screen := MultiplayerGameOver;
        }
      }
      duo := duo.(gameOverDelayMs := delay);
    }

    /** The end of a two-player frame: the game-over check, then the pause. */
    method FinishMultiplayerFrame(input: MultiplayerInput)
      requires Valid()
      modifies this`isGameOverTriggered, this`duo, this`screen, this`previousScreen, ledger
      ensures Valid() && duo == old(duo).(gameOverDelayMs := duo.gameOverDelayMs)
      ensures GameOverChecked(old(EndState(isGameOverTriggered, ledger.entries, ledger.file, screen, previousScreen)), old(duo.gameOverDelayMs), input, names, duo,
                                 EndState(isGameOverTriggered, ledger.entries, ledger.file, screen, previousScreen))
    {
      CheckGameOver(input.elapsedMs);
      if input.pause {
        screen, previousScreen := Pause, Multiplayer;
      }
    }

    /**
     * One frame of the MULTIPLAYER screen: the round, the game-over check, the pause. No
     * score drops and no health point comes back, the single-player session and the
     * names stay as they are, and the leaderboard gains the two players exactly in the
     * frame that sets the game-over trigger.
     */
    method MultiplayerFrame(input: MultiplayerInput)
      requires Valid() && !hung && screen == Multiplayer
      modifies this`countdownTime, this`rng, this`hung, this`history, this`currentQuestionIndex,
               this`timerMs, this`round, this`duel, this`solo, this`duo, this`names, this`gameInProgress,
               this`isGameOverTriggered, this`screen, this`previousScreen, ledger
      ensures !hung ==> Valid() && gameInProgress
      ensures (!hung ==>
                 MultiplayerStepped(old(CurrentBout()), old(gameInProgress), input, old(CorrectIndex()),
                                    old(history), old(currentQuestionIndex),
                                    Bout(countdownTime, timerMs, round, duel, duo.(gameOverDelayMs := old(duo.gameOverDelayMs))),
                                    history, currentQuestionIndex))
      ensures !hung ==> DuoAdvanced(old(duo), duo) && HealthLostAtMost(old(duo), duo, 2)
      ensures (!hung ==>
                 GameOverChecked(old(EndState(isGameOverTriggered, ledger.entries, ledger.file, screen, previousScreen)), old(duo.gameOverDelayMs), input, names, duo,
                                 EndState(isGameOverTriggered, ledger.entries, ledger.file, screen, previousScreen)))
      ensures !hung ==> ReadOn(old(rng), rng)
      ensures solo == old(solo) && names == old(names)
    {
      MultiplayerRound(input);
      if !hung {
        FinishMultiplayerFrame(input);
      }
    }

    // ---------------------------------------------------------------------------------
    // Name entry and the single-player game-over screen

    /**
     * One frame of the PLAYERNAME screen: the countdown set to 4; until the names are
     * entered, the box clicks, the typed characters, Backspace, and Enter, which moves on
     * to READY, as a two-player game, only once both names are non-empty.
     */
    method PlayerNameFrame(input: NameInput)
      requires Valid() && screen == PlayerName
      modifies this`countdownTime, this`names, this`screen, this`singlePlayerSelected
      ensures Valid() && countdownTime == 4
      ensures (old(names.namesEntered) ==>
                 names == old(names) && screen == PlayerName && singlePlayerSelected == old(singlePlayerSelected))
      ensures (!old(names.namesEntered) ==>
                 var n := Backspaced(TypedNames(ClickBoxes(old(names), input.clickBox1, input.clickBox2), input.keys), input.backspace);
                 var confirm := input.enter && n.player1Name != [] && n.player2Name != [];
                 && names == n.(namesEntered := confirm)
                 && screen == (if confirm then Ready else PlayerName)
                 && singlePlayerSelected == (if confirm then false else old(singlePlayerSelected)))
      ensures screen == Ready <==> !old(names.namesEntered) && input.enter && names.player1Name != [] && names.player2Name != []
    {
      var n, confirm := EnterNames(names, input);
      countdownTime, names := 4, n;
      if confirm {
        screen, singlePlayerSelected := Ready, false;
      }
    }

    /**
     * The end of the READY countdown, three seconds after it started: the game screen the
     * menus chose, with a 20-second countdown and a cleared timer.
     */
    method LeaveReady()
      requires Valid()
      modifies this`screen, this`countdownTime, this`timerMs
      ensures Valid() && countdownTime == RoundSeconds && timerMs == 0
      ensures screen == if singlePlayerSelected then SinglePlayer else Multiplayer
    {
      screen := if singlePlayerSelected then SinglePlayer else Multiplayer;
      countdownTime, timerMs := RoundSeconds, 0;
    }

    /** The high-score rule: a final score above the high score replaces it and is saved. */
    method RecordHighScore()
      requires Valid()
      modifies this`highscore, this`highScoreFile
      ensures Valid()
      ensures highscore == NextHighScore(solo.score, old(highscore))
      ensures highScoreFile == if solo.score > old(highscore) then Some(SaveHighScore(solo.score)) else old(highScoreFile)
    {
      if solo.score > highscore {
        highscore := solo.score;
        highScoreFile := Some(SaveHighScore(highscore));
      }
    }

    /** The main menu and exit buttons of the game-over screen, the later one winning. */
    method GameOverButtons(input: GameOverInput)
      requires Valid()
      modifies this`screen, this`exitFromGameover
      ensures Valid()
      ensures screen == if input.exit then Exit else if input.mainMenu then MainMenu else old(screen)
      ensures exitFromGameover == (old(exitFromGameover) || input.exit)
      ensures old(screen) == SinglePlayerGameOver ==> FullReset(screen) == (screen != Exit) == !input.exit
    {
      var left := screen;
      if input.mainMenu {
        left := MainMenu;
      }
      if input.exit {
        left := Exit;
      }
      screen, exitFromGameover := left, exitFromGameover || input.exit;
    }

    /**
     * The restart button: ResetGameVariables on the screen the frame is on, then the rules
     * screen. A game-over trigger left over from a two-player match stays set.
     */
    method Restart()
      requires Valid() && !hung
      modifies this`countdownTime, this`rng, this`hung, this`history, this`currentQuestionIndex,
               this`timerMs, this`round, this`duel, this`solo, this`duo, this`names, this`screen
      ensures !hung ==> Valid()
      ensures !hung ==> screen == SinglePlayerRules && round == FreshRound && duel == FreshDuel && timerMs == 0
      ensures !hung ==> DrewQuestion()
      ensures countdownTime == if old(screen) == MainMenu || old(screen) == SinglePlayerGameOver then FirstRoundSeconds else RoundSeconds
      ensures (if !hung && FullReset(old(screen)) then solo == FreshSolo && duo == FreshDuo && names == FreshNames
               else solo == old(solo) && duo == old(duo) && names == old(names))
      ensures isGameOverTriggered == old(isGameOverTriggered)
    {
      ResetGameVariables();
      screen := SinglePlayerRules;
    }

    /** The game-over screen up to its restart button: the high score, then main menu and exit. */
    method GameOverScreen(input: GameOverInput)
      requires Valid() && screen == SinglePlayerGameOver
      modifies this`highscore, this`highScoreFile, this`screen, this`exitFromGameover
      ensures Valid()
      ensures highscore == NextHighScore(solo.score, old(highscore))
      ensures highScoreFile == if solo.score > old(highscore) then Some(SaveHighScore(solo.score)) else old(highScoreFile)
      ensures screen == if input.exit then Exit else if input.mainMenu then MainMenu else SinglePlayerGameOver
      ensures exitFromGameover == (old(exitFromGameover) || input.exit)
      ensures FullReset(screen) == (screen != Exit) == !input.exit
    {
      RecordHighScore();
      GameOverButtons(input);
    }

    /**
     * One frame of the SINGLEPLAYER_GAMEOVER screen: the high score, then the buttons in
     * order: main menu, exit (remembering where it came from), restart. The restart
     * resets on whatever screen the other two buttons left, then goes to the rules.
     */
    method SinglePlayerGameOverFrame(input: GameOverInput)
      requires Valid() && !hung && screen == SinglePlayerGameOver
      modifies this`countdownTime, this`rng, this`hung, this`history, this`currentQuestionIndex,
               this`timerMs, this`round, this`duel, this`solo, this`duo, this`names,
               this`highscore, this`highScoreFile, this`screen, this`exitFromGameover
      ensures !hung ==> Valid()
      ensures highscore == NextHighScore(old(solo.score), old(highscore))
      ensures highScoreFile == if old(solo.score) > old(highscore) then Some(SaveHighScore(old(solo.score))) else old(highScoreFile)
      ensures exitFromGameover == (old(exitFromGameover) || input.exit)
      ensures (!input.restart ==>
                 && screen == (if input.exit then Exit else if input.mainMenu then MainMenu else SinglePlayerGameOver)
                 && solo == old(solo) && duo == old(duo) && names == old(names) && round == old(round)
                 && duel == old(duel) && countdownTime == old(countdownTime) && timerMs == old(timerMs)
                 && rng == old(rng) && !hung && history == old(history) && currentQuestionIndex == old(currentQuestionIndex))
      ensures input.restart && !hung ==> DrewQuestion()
      ensures (input.restart && !hung ==>
                 && screen == SinglePlayerRules && round == FreshRound && duel == FreshDuel && timerMs == 0
                 && countdownTime == (if input.exit then RoundSeconds else FirstRoundSeconds)
                 && (if input.exit then solo == old(solo) && duo == old(duo) && names == old(names)
                     else solo == FreshSolo && duo == FreshDuo && names == FreshNames))
      ensures isGameOverTriggered == old(isGameOverTriggered)
    {
      GameOverScreen(input);
      if input.restart {
        Restart();
      }
    }
  }
}
