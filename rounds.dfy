/**
 * What a frame of the quiz engine reads, and the rules of a frame on values: the
 * single-player round (countdown, answer, resolver, abilities), the two-player round
 * (answers, evaluation, timeout) and the name entry, each as a function of the state
 * before it, with the laws those functions obey.
 */
module Rounds {
  import opened Random
  import opened Selection
  import opened Bytes
  import opened Options
  import opened Rules
  import opened State
  import opened Leaderboard

  /**
   * What a single-player frame reads: whether a second of the countdown has passed, the
   * frame time, the first answer slot clicked or keyed (Q before W before E before R),
   * the pause button or Escape, and the four ability buttons or keys.
   */
  datatype SinglePlayerInput = SinglePlayerInput(
    secondElapsed: bool, elapsedMs: nat, answer: Option<Slot>, pause: bool,
    abilityA: bool, abilityS: bool, abilityD: bool, abilityF: bool)

  /**
   * What a two-player frame reads: `nowMs1` and `nowMs2` are the clock, GetTime() * 1000,
   * as read for the first and for the second player's keys.
   */
  datatype MultiplayerInput = MultiplayerInput(
    secondElapsed: bool, elapsedMs: nat, nowMs1: int, nowMs2: int,
    answer1: Option<Slot>, answer2: Option<Slot>, pause: bool)

  /** What a name-entry frame reads: box clicks, the queue of typed code points, Backspace, Enter. */
  datatype NameInput = NameInput(clickBox1: bool, clickBox2: bool, keys: seq<int>, backspace: bool, enter: bool)

  /** The buttons of the single-player game-over screen. */
  datatype GameOverInput = GameOverInput(mainMenu: bool, exit: bool, restart: bool)

  /** The branch of the single-player round resolver a frame takes. */
  datatype Resolution = Pending | TimedOut | CorrectOrSkipped | Wrong

  /**
   * The resolver's branch: the countdown at 0 first, then a right or skipped answer, then a
   * wrong one; with none of these the round is still open.
   */
  function Resolve(countdown: int, r: Round, s: Solo): (res: Resolution)
    ensures res == TimedOut <==> countdown % 60 == 0
    ensures res == Pending <==> countdown % 60 != 0 && !r.isAnswerCorrect && !s.skipQuestion && !r.answerSelected
  {
    if countdown % 60 == 0 then TimedOut
    else if r.isAnswerCorrect || s.skipQuestion then CorrectOrSkipped
    else if !r.isAnswerCorrect && r.answerSelected then Wrong
    else Pending
  }

  /**
   * What the resolver does to the session: a timeout discards the armed bonus and, once
   * the feedback pause is over (`ended`), costs a health point; a round won or skipped pays,
   * once the pause is over, the armed bonus and the skip point; a lost round, once the pause
   * is over, discards the bonus.
   */
  function Settle(res: Resolution, ended: bool, s: Solo): (t: Solo)
    ensures res == Pending ==> t == s
    ensures t.abilityAUsed == s.abilityAUsed && t.abilityDUsed == s.abilityDUsed && t.abilityFUsed == s.abilityFUsed
  {
    match res
    case Pending => s
    case TimedOut => s.(addHealthPoint := false, healthPoints := if ended then s.healthPoints - 1 else s.healthPoints)
    case CorrectOrSkipped =>
      if !ended then s
      else s.(healthPoints := if s.addHealthPoint then s.healthPoints + 1 else s.healthPoints,
              addHealthPoint := false,
              score := if s.skipQuestion then s.score + 1 else s.score,
              abilitySUsed := s.abilitySUsed || s.skipQuestion,
              skipQuestion := false)
    case Wrong => if ended then s.(addHealthPoint := false) else s
  }

  /**
   * What settling promises: the session stays coherent, the score rises by the skip point
   * alone, health moves by at most one point (the bonus up, a timeout down), the bonus
   * never survives a resolved round, and no used ability comes back.
   */
  lemma SettleKeeps(res: Resolution, ended: bool, s: Solo)
    ensures (var t := Settle(res, ended, s);
             && (SoloValid(s) ==> SoloValid(t))
             && s.score <= t.score <= s.score + 1
             && s.healthPoints - 1 <= t.healthPoints <= s.healthPoints + 1
             && (s.abilitySUsed ==> t.abilitySUsed)
             && (t.healthPoints > s.healthPoints <==> res == CorrectOrSkipped && ended && s.addHealthPoint)
             && (t.score > s.score <==> res == CorrectOrSkipped && ended && s.skipQuestion)
             && (res != Pending && (ended || res == TimedOut) ==> !t.addHealthPoint)
             && (t.healthPoints < s.healthPoints <==> res == TimedOut && ended))
  {
  }

  /** The countdown after a frame's tick: a second less when one has passed, and never below 0. */
  function Tick(countdown: int, secondElapsed: bool): int
  {
    if secondElapsed && countdown > 0 then countdown - 1 else countdown
  }

  /** What a single-player round works on: the countdown, the feedback timer, the round and the session. */
  datatype Turn = Turn(countdown: int, timer: int, round: Round, solo: Solo)

  /**
   * The answer of a frame, taken while input is enabled: the slot is marked right or
   * wrong, and the session gains a point for the right slot `correct` or loses a health
   * point for any other.
   */
  function Answered(t: Turn, answer: Option<Slot>, correct: int): Turn
    requires |t.round.marks| == AnswerSlots
  {
    if t.round.enableInput && answer.Some? then
      var right := answer.value == correct;
      t.(round := t.round.(answerSelected := true, isAnswerCorrect := right,
                          marks := t.round.marks[answer.value := if right then MarkedCorrect else MarkedWrong]),
         solo := if right then t.solo.(score := t.solo.score + 1) else t.solo.(healthPoints := t.solo.healthPoints - 1))
    else t
  }

  /**
   * The round resolver up to its reset: a resolved round locks input, runs the feedback
   * timer, holds the countdown at 20 unless it timed out, and settles the session; an open
   * round is left alone.
   */
  function Judged(t: Turn, elapsedMs: nat): Turn
  {
    var res := Resolve(t.countdown, t.round, t.solo);
    if res == Pending then t
    else Turn(if res == TimedOut then t.countdown else RoundSeconds, t.timer + elapsedMs,
              t.round.(enableInput := false), Settle(res, t.timer + elapsedMs > FeedbackMs, t.solo))
  }

  /** The round is over: it is resolved and its feedback has shown for 1.5 s. */
  predicate RoundOver(t: Turn, elapsedMs: nat)
  {
    Resolve(t.countdown, t.round, t.solo) != Pending && t.timer + elapsedMs > FeedbackMs
  }

  /** The countdown's tick and the answer of a single-player frame. */
  function Answering(t: Turn, input: SinglePlayerInput, correct: int): Turn
    requires |t.round.marks| == AnswerSlots
  {
    Answered(t.(countdown := Tick(t.countdown, input.secondElapsed)), input.answer, correct)
  }

  /** Whether a single-player frame ends its round. */
  predicate AnswerEnds(t: Turn, input: SinglePlayerInput, correct: int)
    requires |t.round.marks| == AnswerSlots
  {
    RoundOver(Answering(t, input, correct), input.elapsedMs)
  }

  /**
   * The round part of a single-player frame: the tick, the answer and the resolver, and,
   * when the round is over, the reset's new 20-second countdown, cleared timer and round.
   */
  function PlayedTurn(t: Turn, input: SinglePlayerInput, correct: int): Turn
    requires |t.round.marks| == AnswerSlots
  {
    var u := Judged(Answering(t, input, correct), input.elapsedMs);
    if AnswerEnds(t, input, correct) then Turn(RoundSeconds, 0, FreshRound, u.solo) else u
  }

  /** Ability A's button: when input is `enabled` and A is unused, A is used up. */
  function TakeA(s: Solo, enabled: bool, pressed: bool): Solo
  {
    if enabled && pressed && !s.abilityAUsed then s.(abilityAUsed := true) else s
  }

  /** Ability S's button: when input is `enabled` and S is unused, the skip is armed and S used up. */
  function TakeS(s: Solo, enabled: bool, pressed: bool): Solo
  {
    if enabled && pressed && !s.abilitySUsed then s.(skipQuestion := true, abilitySUsed := true) else s
  }

  /** Ability D's button: when input is `enabled` and D is unused, the health bonus is armed and D used up. */
  function TakeD(s: Solo, enabled: bool, pressed: bool): Solo
  {
    if enabled && pressed && !s.abilityDUsed then s.(addHealthPoint := true, abilityDUsed := true) else s
  }

  /** Ability F's button: when input is `enabled` and F is unused, F is used up. */
  function TakeF(s: Solo, enabled: bool, pressed: bool): Solo
  {
    if enabled && pressed && !s.abilityFUsed then s.(abilityFUsed := true) else s
  }

  /** The session after the four ability buttons, in the order A, S, D, F, pressed while input is `enabled`. */
  function Armed(s: Solo, enabled: bool, input: SinglePlayerInput): Solo
  {
    TakeF(TakeD(TakeS(TakeA(s, enabled, input.abilityA), enabled, input.abilityS), enabled, input.abilityD),
          enabled, input.abilityF)
  }

  /**
   * Round `r2` is round `r` after abilities A and F, pressed with session `s` on a question
   * whose right slot is `correct`: two wrong slots greyed out when A fires, one when F
   * fires, and otherwise the reveals as they were.
   */
  predicate Revealed(r: Round, r2: Round, s: Solo, input: SinglePlayerInput, correct: int)
  {
    && r2 == r.(wrongAnswersIndices := r2.wrongAnswersIndices, wrongAnswerIndex := r2.wrongAnswerIndex)
    && (if r.enableInput && input.abilityA && !s.abilityAUsed then WrongPair(r2.wrongAnswersIndices, correct)
        else r2.wrongAnswersIndices == r.wrongAnswersIndices)
    && (if r.enableInput && input.abilityF && !s.abilityFUsed
        then 0 <= r2.wrongAnswerIndex < AnswerSlots && r2.wrongAnswerIndex != correct
        else r2.wrongAnswerIndex == r.wrongAnswerIndex)
  }

  /**
   * Revealing keeps the round about its question, and every greyed-out slot is paid for
   * by its ability, used up in the same frame or before.
   */
  lemma RevealedKeeps(r: Round, r2: Round, s: Solo, input: SinglePlayerInput, correct: int)
    requires Revealed(r, r2, s, input, correct)
    ensures RoundValid(r, correct) ==> RoundValid(r2, correct)
    ensures RevealsUsed(r, s) ==> RevealsUsed(r2, Armed(s, r.enableInput, input))
  {
  }

  /**
   * Ability A on the values it touches, while input is enabled and A is unused: two
   * different wrong slots greyed out, drawn with GetTwoWrongAnswersIndices, and A used up.
   * An exhausted stream leaves the program stuck in the draw.
   */
  method AbilityA(r: Round, s: Solo, correct: int, rng: seq<nat>, pressed: bool)
    returns (r2: Round, s2: Solo, rest: seq<nat>, hung: bool)
    ensures !hung ==> s2 == TakeA(s, r.enableInput, pressed)
    ensures (!hung ==>
               if r.enableInput && pressed && !s.abilityAUsed then
                 && r2 == r.(wrongAnswersIndices := r2.wrongAnswersIndices)
                 && WrongPair(r2.wrongAnswersIndices, correct)
                 && |rest| < |rng| && rest == rng[|rng| - |rest|..]
               else r2 == r && rest == rng)
    ensures hung ==> rest == []
  {
    r2, s2, rest, hung := r, s, rng, false;
    if r.enableInput && !s.abilityAUsed && pressed {
      var d := TwoWrongAnswers(correct, rng);
      if d.Exhausted? {
        return r, s, [], true;
      }
      r2, s2, rest := r.(wrongAnswersIndices := Reveal(d.value[0], d.value[1])), s.(abilityAUsed := true), rng[d.consumed..];
    }
  }

  /** Ability S, while input is enabled and S is unused: the skip armed and S used up. */
  method AbilityS(r: Round, s: Solo, pressed: bool) returns (s2: Solo)
    ensures s2 == TakeS(s, r.enableInput, pressed)
    ensures s2.skipQuestion <==> s.skipQuestion || (r.enableInput && pressed && !s.abilitySUsed)
  {
    s2 := s;
    if r.enableInput && !s.abilitySUsed && pressed {
      s2 := s.(skipQuestion := true, abilitySUsed := true);
    }
  }

  /** Ability D, while input is enabled and D is unused: the health bonus armed and D used up. */
  method AbilityD(r: Round, s: Solo, pressed: bool) returns (s2: Solo)
    ensures s2 == TakeD(s, r.enableInput, pressed)
    ensures s2.addHealthPoint <==> s.addHealthPoint || (r.enableInput && pressed && !s.abilityDUsed)
  {
    s2 := s;
    if r.enableInput && !s.abilityDUsed && pressed {
      s2 := s.(addHealthPoint := true, abilityDUsed := true);
    }
  }

  /**
   * Ability F on the values it touches, while input is enabled and F is unused: one wrong
   * slot greyed out, drawn with GetOneWrongAnswerIndex, and F used up. An exhausted stream
   * leaves the program stuck in the draw.
   */
  method AbilityF(r: Round, s: Solo, correct: int, rng: seq<nat>, pressed: bool)
    returns (r2: Round, s2: Solo, rest: seq<nat>, hung: bool)
    ensures !hung ==> s2 == TakeF(s, r.enableInput, pressed)
    ensures (!hung ==>
               if r.enableInput && pressed && !s.abilityFUsed then
                 && r2 == r.(wrongAnswerIndex := r2.wrongAnswerIndex)
                 && 0 <= r2.wrongAnswerIndex < AnswerSlots && r2.wrongAnswerIndex != correct
                 && |rest| < |rng| && rest == rng[|rng| - |rest|..]
               else r2 == r && rest == rng)
    ensures hung ==> rest == []
  {
    r2, s2, rest, hung := r, s, rng, false;
    if r.enableInput && !s.abilityFUsed && pressed {
      var d := OneWrongAnswer(correct, rng);
      if d.Exhausted? {
        return r, s, [], true;
      }
      r2, s2, rest := r.(wrongAnswerIndex := d.value), s.(abilityFUsed := true), rng[d.consumed..];
    }
  }

  /** The four ability buttons of a single-player frame, in the order A, S, D, F. */
  method Abilities(r: Round, s: Solo, correct: int, rng: seq<nat>, input: SinglePlayerInput)
    returns (r2: Round, s2: Solo, rest: seq<nat>, hung: bool)
    ensures !hung ==> s2 == Armed(s, r.enableInput, input) && Revealed(r, r2, s, input, correct)
    ensures !hung ==> |rest| <= |rng| && rest == rng[|rng| - |rest|..]
    ensures hung ==> rest == []
  {
    var ra, sa, ua, stuck := AbilityA(r, s, correct, rng, input.abilityA);
    if stuck {
      return r, s, [], true;
    }
    var ss := AbilityS(ra, sa, input.abilityS);
    var sd := AbilityD(ra, ss, input.abilityD);
    r2, s2, rest, hung := AbilityF(ra, sd, correct, ua, input.abilityF);
  }

  /**
   * The round part of a two-player frame on values, from the bout, the match flag, the
   * correct slot and the question before it: the bout as PlayedBout computes it, and the
   * question followed on when exactly one of the evaluation and the timeout asked for a
   * reset.
   */
  predicate MultiplayerStepped(b: Bout, inProgress: bool, input: MultiplayerInput, correct: int,
                               history0: seq<int>, index0: int, after: Bout, history: seq<int>, index: int)
  {
    var r1 := EvaluationResets(b, inProgress, input);
    var r2 := TimeoutResets(b, inProgress, input, correct);
    && after == PlayedBout(b, inProgress, input, correct)
    && (!(r1 && r2) ==> Followed(r1 || r2, history0, index0, history, index))
  }

  /**
   * The question after a step: when the step ended the round, a question not in the old
   * history, appended to it; otherwise the same question and history.
   */
  predicate Followed(ended: bool, history0: seq<int>, index0: int, history: seq<int>, index: int)
  {
    if ended then index !in history0 && history == Evicted(history0, HistorySize) + [index]
    else index == index0 && history == history0
  }

  /**
   * The scoring of an answer: the right slot, taken while input is enabled, gains exactly
   * one point and costs no health; any other slot costs exactly one health point and gains
   * none; the slot taken is marked and input stays as it was. The marks keep describing
   * the question.
   */
  lemma AnswerScores(t: Turn, answer: Option<Slot>, correct: int)
    requires |t.round.marks| == AnswerSlots
    ensures (var u := Answered(t, answer, correct);
             var taken := t.round.enableInput && answer.Some?;
             && u.countdown == t.countdown && u.timer == t.timer && u.round.enableInput == t.round.enableInput
             && u.solo.score == t.solo.score + (if taken && answer.value == correct then 1 else 0)
             && u.solo.healthPoints == t.solo.healthPoints - (if taken && answer.value != correct then 1 else 0)
             && u.round.answerSelected == (t.round.answerSelected || taken)
             && (taken ==> u.round.isAnswerCorrect == (answer.value == correct)
                           && u.round.marks[answer.value] == (if answer.value == correct then MarkedCorrect else MarkedWrong))
             && (RoundValid(t.round, correct) ==> RoundValid(u.round, correct))
             && (SoloValid(t.solo) && RevealsUsed(t.round, t.solo) ==> SoloValid(u.solo) && RevealsUsed(u.round, u.solo)))
  {
  }

  /**
   * A right answer in a frame whose countdown has not run out, with no skip armed, scores
   * exactly one point and locks input; the countdown holds at 20 while the feedback shows.
   */
  lemma {:induction false} RightAnswerScores(t: Turn, input: SinglePlayerInput, correct: int)
    requires |t.round.marks| == AnswerSlots && t.round.enableInput && !t.solo.skipQuestion
    requires input.answer.Some? && input.answer.value == correct
    requires Tick(t.countdown, input.secondElapsed) % 60 != 0
    ensures (var p := PlayedTurn(t, input, correct);
             && p.solo.score == t.solo.score + 1
             && p.countdown == RoundSeconds
             && (!AnswerEnds(t, input, correct) ==> !p.round.enableInput && p.timer == t.timer + input.elapsedMs))
  {
    AnswerScores(t.(countdown := Tick(t.countdown, input.secondElapsed)), input.answer, correct);
    var a := Answering(t, input, correct);
    assert Resolve(a.countdown, a.round, a.solo) == CorrectOrSkipped;
    SettleKeeps(CorrectOrSkipped, a.timer + input.elapsedMs > FeedbackMs, a.solo);
  }

  /**
   * A wrong answer in a frame whose countdown has not run out, with no skip armed, costs
   * exactly one health point, scores nothing and locks input, with the countdown at 20.
   */
  lemma {:induction false} WrongAnswerCostsHealth(t: Turn, input: SinglePlayerInput, correct: int)
    requires |t.round.marks| == AnswerSlots && t.round.enableInput && !t.solo.skipQuestion
    requires input.answer.Some? && input.answer.value != correct
    requires Tick(t.countdown, input.secondElapsed) % 60 != 0
    ensures (var p := PlayedTurn(t, input, correct);
             && p.solo.healthPoints == t.solo.healthPoints - 1
             && p.solo.score == t.solo.score
             && p.countdown == RoundSeconds
             && (!AnswerEnds(t, input, correct) ==> !p.round.enableInput && p.timer == t.timer + input.elapsedMs))
  {
    AnswerScores(t.(countdown := Tick(t.countdown, input.secondElapsed)), input.answer, correct);
    var a := Answering(t, input, correct);
    assert Resolve(a.countdown, a.round, a.solo) == Wrong;
  }

  /**
   * A countdown at 0, with no answer taken in the frame: once the feedback has shown for
   * 1.5 s the round costs one health point, discards the armed bonus, and starts over with
   * a new countdown and a cleared round.
   */
  lemma {:induction false} TimeoutCostsHealth(t: Turn, input: SinglePlayerInput, correct: int)
    requires |t.round.marks| == AnswerSlots && !(t.round.enableInput && input.answer.Some?)
    requires Tick(t.countdown, input.secondElapsed) % 60 == 0 && t.timer + input.elapsedMs > FeedbackMs
    ensures PlayedTurn(t, input, correct)
            == Turn(RoundSeconds, 0, FreshRound, t.solo.(addHealthPoint := false, healthPoints := t.solo.healthPoints - 1))
  {
    var a := Answering(t, input, correct);
    assert a == t.(countdown := Tick(t.countdown, input.secondElapsed));
    assert Resolve(a.countdown, a.round, a.solo) == TimedOut;
  }

  /**
   * A single-player frame's round part gives back no used ability, and the score rises
   * by at most two points: the answer and the skip.
   */
  lemma {:induction false} PlayedTurnAdvances(t: Turn, input: SinglePlayerInput, correct: int)
    requires |t.round.marks| == AnswerSlots
    ensures SoloAdvanced(t.solo, PlayedTurn(t, input, correct).solo)
    ensures PlayedTurn(t, input, correct).solo.score <= t.solo.score + 2
  {
    var a := Answering(t, input, correct);
    AnswerScores(t.(countdown := Tick(t.countdown, input.secondElapsed)), input.answer, correct);
    SettleKeeps(Resolve(a.countdown, a.round, a.solo), a.timer + input.elapsedMs > FeedbackMs, a.solo);
  }

  /**
   * The abilities keep the session coherent and never touch score or health; each
   * pressed ability is used up while input is enabled; S arms the skip and D the bonus
   * exactly when pressed, enabled and unused, so an ability already used arms nothing;
   * with input disabled nothing changes.
   */
  lemma ArmedKeeps(s: Solo, enabled: bool, input: SinglePlayerInput)
    ensures (var a := Armed(s, enabled, input);
             && (SoloValid(s) ==> SoloValid(a)) && SoloAdvanced(s, a)
             && a.score == s.score && a.healthPoints == s.healthPoints
             && a.abilityAUsed == (s.abilityAUsed || (enabled && input.abilityA))
             && a.abilitySUsed == (s.abilitySUsed || (enabled && input.abilityS))
             && a.abilityDUsed == (s.abilityDUsed || (enabled && input.abilityD))
             && a.abilityFUsed == (s.abilityFUsed || (enabled && input.abilityF))
             && a.skipQuestion == (s.skipQuestion || (enabled && input.abilityS && !s.abilitySUsed))
             && a.addHealthPoint == (s.addHealthPoint || (enabled && input.abilityD && !s.abilityDUsed))
             && (!enabled ==> a == s))
  {
  }

  /**
   * The single-player frame up to its screen checks took the turn `t`, with right slot
   * `correct`, to `after`, whose right slot is `afterCorrect`: the round part, then the
   * abilities, pressed while the round left input enabled and revealing slots of the
   * question then on screen; and the question, `index0` with history `history0` before,
   * kept, or, when the round ended, followed by a fresh one.
   */
  predicate SinglePlayerStepped(t: Turn, input: SinglePlayerInput, correct: int, history0: seq<int>, index0: int,
                                after: Turn, afterCorrect: int, history: seq<int>, index: int)
    requires |t.round.marks| == AnswerSlots
  {
    var p := PlayedTurn(t, input, correct);
    && after.countdown == p.countdown && after.timer == p.timer
    && after.solo == Armed(p.solo, p.round.enableInput, input)
    && Revealed(p.round, after.round, p.solo, input, afterCorrect)
    && Followed(AnswerEnds(t, input, correct), history0, index0, history, index)
  }

  /** What a two-player round works on: the countdown, the timer, the round, the duel and the two-player session. */
  datatype Bout = Bout(countdown: int, timer: int, round: Round, duel: Duel, duo: Duo)

  /** The start of a question, in the first two-player frame of a match: the timer cleared and input enabled. */
  function Started(b: Bout, inProgress: bool): Bout
  {
    if inProgress then b else b.(timer := 0, round := b.round.(enableInput := true))
  }

  /**
   * The answer keys of both players: while input is enabled, a player who has not yet
   * chosen locks the key pressed, stamped with the clock as read for that player.
   */
  function Taken(b: Bout, input: MultiplayerInput): Bout
  {
    var d := b.duel;
    var take1 := b.round.enableInput && !d.player1Selected && input.answer1.Some?;
    var take2 := b.round.enableInput && !d.player2Selected && input.answer2.Some?;
    b.(duel := d.(player1Selected := d.player1Selected || take1,
                  player1Answer := if take1 then input.answer1.value else d.player1Answer,
                  player1AnswerTime := if take1 then input.nowMs1 else d.player1AnswerTime,
                  player2Selected := d.player2Selected || take2,
                  player2Answer := if take2 then input.answer2.value else d.player2Answer,
                  player2AnswerTime := if take2 then input.nowMs2 else d.player2AnswerTime))
  }

  /**
   * The evaluation once both players have chosen: the countdown held at 20 and input
   * locked; half a second on, and only once per question, the answers judged by
   * EvaluateAnswers against the right slot `correct` and the timer restarted.
   */
  function Evaluated(b: Bout, elapsedMs: nat, correct: int): Bout
  {
    var d := b.duel;
    if !(d.player1Selected && d.player2Selected) then b
    else
      var t := b.timer + elapsedMs;
      var locked := b.(countdown := RoundSeconds, round := b.round.(enableInput := false));
      if t > EvaluationDelayMs && !d.messageDisplayed then
        var e := EvaluateAnswers(d.player1Answer, d.player2Answer, d.player1AnswerTime, d.player2AnswerTime, correct);
        locked.(timer := 0,
                duo := b.duo.(player1Score := b.duo.player1Score + e.gain1, player2Score := b.duo.player2Score + e.gain2,
                              player1Health := b.duo.player1Health - e.loss1, player2Health := b.duo.player2Health - e.loss2),
                duel := d.(messageDisplayed := true, correctAnswer := d.correctAnswer || e.revealAnswer,
                           gameMessage := if e.verdict == BothCorrectSameTime then d.gameMessage else Announced(e.verdict)))
      else locked.(timer := t)
  }

  /** The evaluation asks for the next question: its verdict has shown for 2.5 s. */
  predicate EvaluationOver(b: Bout, elapsedMs: nat)
  {
    b.duel.player1Selected && b.duel.player2Selected && b.duel.messageDisplayed && b.timer + elapsedMs > MessageMs
  }

  /**
   * The timeout, when the countdown as the frame read it (`seconds`) is at 0: both answers
   * cleared, input locked and the timeout announced; two seconds on, both players lose a
   * health point.
   */
  function Expired(b: Bout, seconds: int, elapsedMs: nat): Bout
  {
    if seconds != 0 then b
    else
      var t := b.timer + elapsedMs;
      b.(timer := t, round := b.round.(enableInput := false),
         duel := b.duel.(player1Answer := -1, player2Answer := -1, correctAnswer := true, gameMessage := OutOfTime),
         duo := if t > TimeoutMs then b.duo.(player1Health := b.duo.player1Health - 1, player2Health := b.duo.player2Health - 1)
                else b.duo)
  }

  /** The timeout asks for the next question: it has shown for 2 s. */
  predicate TimeoutOver(b: Bout, seconds: int, elapsedMs: nat)
  {
    seconds == 0 && b.timer + elapsedMs > TimeoutMs
  }

  /** The reset of an unfinished two-player match: a 20-second countdown, the timer, the round and the duel cleared. */
  function Cleared(b: Bout): Bout
  {
    b.(countdown := RoundSeconds, timer := 0, round := FreshRound, duel := FreshDuel)
  }

  /** The countdown's tick, the start of the question and the answer keys of a two-player frame. */
  function Opened(b: Bout, inProgress: bool, input: MultiplayerInput): Bout
  {
    Taken(Started(b.(countdown := Tick(b.countdown, input.secondElapsed)), inProgress), input)
  }

  /** The evaluation, and the reset it asks for. */
  function EvaluationStep(b: Bout, elapsedMs: nat, correct: int): Bout
  {
    if EvaluationOver(b, elapsedMs) then Cleared(Evaluated(b, elapsedMs, correct)) else Evaluated(b, elapsedMs, correct)
  }

  /** The timeout, and the reset it asks for. */
  function TimeoutStep(b: Bout, seconds: int, elapsedMs: nat): Bout
  {
    if TimeoutOver(b, seconds, elapsedMs) then Cleared(Expired(b, seconds, elapsedMs)) else Expired(b, seconds, elapsedMs)
  }

  /**
   * The round part of a two-player frame: answers, evaluation, timeout, each with its
   * reset; the timeout reads the countdown as it was before the evaluation.
   */
  function PlayedBout(b: Bout, inProgress: bool, input: MultiplayerInput, correct: int): Bout
  {
    TimeoutStep(EvaluationStep(Opened(b, inProgress, input), input.elapsedMs, correct),
                Tick(b.countdown, input.secondElapsed) % 60, input.elapsedMs)
  }

  /** The evaluation of a two-player frame asks for the next question. */
  predicate EvaluationResets(b: Bout, inProgress: bool, input: MultiplayerInput)
  {
    EvaluationOver(Opened(b, inProgress, input), input.elapsedMs)
  }

  /** The timeout of a two-player frame asks for the next question. */
  predicate TimeoutResets(b: Bout, inProgress: bool, input: MultiplayerInput, correct: int)
  {
    TimeoutOver(EvaluationStep(Opened(b, inProgress, input), input.elapsedMs, correct),
                Tick(b.countdown, input.secondElapsed) % 60, input.elapsedMs)
  }

  /**
   * The answer keys lock each player's first answer: a player is locked exactly when it
   * was already or pressed a key while input was enabled; a locked answer and its time
   * never change; a new time is the clock as read for that player.
   */
  lemma TakenLocks(b: Bout, input: MultiplayerInput)
    ensures (var d, e := b.duel, Taken(b, input).duel;
             && (e.player1Selected <==> d.player1Selected || (b.round.enableInput && input.answer1.Some?))
             && (e.player2Selected <==> d.player2Selected || (b.round.enableInput && input.answer2.Some?))
             && (d.player1Selected ==> e.player1Answer == d.player1Answer && e.player1AnswerTime == d.player1AnswerTime)
             && (d.player2Selected ==> e.player2Answer == d.player2Answer && e.player2AnswerTime == d.player2AnswerTime)
             && (e.player1AnswerTime != d.player1AnswerTime ==> e.player1AnswerTime == input.nowMs1)
             && (e.player2AnswerTime != d.player2AnswerTime ==> e.player2AnswerTime == input.nowMs2)
             && (DuelValid(d) ==> DuelValid(e)))
  {
  }

  /**
   * What the evaluation does: nothing until both players have chosen; then the countdown
   * holds at 20 and input locks; once judged, each player scores exactly when right and
   * either the other is wrong or was strictly slower, loses a health point exactly when
   * wrong, and the right answer is shown when both are wrong; before and after that,
   * the scores, health and duel stay as they are.
   */
  lemma EvaluatedJudges(b: Bout, elapsedMs: nat, correct: int)
    ensures (var c, d, u := Evaluated(b, elapsedMs, correct), b.duel, b.duo;
             var both := d.player1Selected && d.player2Selected;
             var judged := both && b.timer + elapsedMs > EvaluationDelayMs && !d.messageDisplayed;
             var right1, right2 := d.player1Answer == correct, d.player2Answer == correct;
             && (!both ==> c == b)
             && (both ==> c.countdown == RoundSeconds && c.round == b.round.(enableInput := false))
             && (!judged ==> c.duo == u && c.duel == d)
             && (judged ==>
                   && c.timer == 0 && c.duel.messageDisplayed
                   && c.duo.player1Score == u.player1Score + (if right1 && (!right2 || d.player1AnswerTime < d.player2AnswerTime) then 1 else 0)
                   && c.duo.player2Score == u.player2Score + (if right2 && (!right1 || d.player2AnswerTime < d.player1AnswerTime) then 1 else 0)
                   && c.duo.player1Health == u.player1Health - (if right1 then 0 else 1)
                   && c.duo.player2Health == u.player2Health - (if right2 then 0 else 1)
                   && c.duel.correctAnswer == (d.correctAnswer || (!right1 && !right2)))
             && DuoAdvanced(u, c.duo) && HealthLostAtMost(u, c.duo, 1) && c.duo.gameOverDelayMs == u.gameOverDelayMs
             && c.duel.player1Answer == d.player1Answer && c.duel.player2Answer == d.player2Answer
             && (DuoValid(u) ==> DuoValid(c.duo)))
  {
  }

  /**
   * What the timeout does: nothing unless the countdown read 0; then both answers are
   * cleared, input locks and the timeout shows; each player loses exactly one health point
   * in the frame that ends it, and the scores never change.
   */
  lemma ExpiredCosts(b: Bout, seconds: int, elapsedMs: nat)
    ensures (var c, u := Expired(b, seconds, elapsedMs), b.duo;
             var lost := if TimeoutOver(b, seconds, elapsedMs) then 1 else 0;
             && (seconds != 0 ==> c == b)
             && (seconds == 0 ==>
                   && c.round == b.round.(enableInput := false) && c.countdown == b.countdown
                   && c.duel.player1Answer == -1 && c.duel.player2Answer == -1
                   && c.duel.correctAnswer && c.duel.gameMessage == OutOfTime)
             && c.duo.player1Health == u.player1Health - lost && c.duo.player2Health == u.player2Health - lost
             && c.duo.player1Score == u.player1Score && c.duo.player2Score == u.player2Score
             && c.duo.gameOverDelayMs == u.gameOverDelayMs
             && (DuelValid(b.duel) ==> DuelValid(c.duel)) && (DuoValid(u) ==> DuoValid(c.duo)))
  {
  }

  /**
   * The round part of a two-player frame lowers no score, gives back no health point,
   * costs each player at most two, and leaves the game-over delay alone.
   */
  lemma {:induction false} PlayedBoutAdvances(b: Bout, inProgress: bool, input: MultiplayerInput, correct: int)
    ensures (var c := PlayedBout(b, inProgress, input, correct);
             && DuoAdvanced(b.duo, c.duo) && HealthLostAtMost(b.duo, c.duo, 2)
             && c.duo.gameOverDelayMs == b.duo.gameOverDelayMs
             && (DuoValid(b.duo) ==> DuoValid(c.duo)))
  {
    var o := Opened(b, inProgress, input);
    assert o.duo == b.duo;
    EvaluatedJudges(o, input.elapsedMs, correct);
    var v := EvaluationStep(o, input.elapsedMs, correct);
    ExpiredCosts(v, Tick(b.countdown, input.secondElapsed) % 60, input.elapsedMs);
  }

  /**
   * What the first question draw of `main`, against an empty history, leaves: nothing
   * drawn when the stream ran out, otherwise a history holding only the index, drawn by
   * the last word read.
   */
  predicate FirstDraw(count: int, rng: seq<nat>, index: int, history: seq<int>, rest: seq<nat>, hung: bool)
  {
    && (hung ==> rest == [] && history == [] && index == 0)
    && (!hung ==>
          var used := |rng| - |rest|;
          && 0 < used <= |rng| && rest == rng[used..] && history == [index]
          && index == RandomValue(0, count - 1, rng[used - 1]))
  }

  method FirstQuestion(questions: seq<Question>, rng: seq<nat>)
    returns (index: int, history: seq<int>, rest: seq<nat>, hung: bool)
    requires |questions| > 0
    ensures HistoryValid(questions, history, index)
    ensures FirstDraw(|questions|, rng, index, history, rest, hung)
  {
    var d, h := UniqueRandomValue(0, |questions| - 1, [], HistorySize, rng);
    if d.Exhausted? {
      return 0, [], [], true;
    }
    return d.value, h, rng[d.consumed..], false;
  }

  /** The two name boxes: a click on the first starts entering the first name, one on the second the second name. */
  function ClickBoxes(n: Names, box1: bool, box2: bool): (m: Names)
    ensures m.player1Name == n.player1Name && m.player2Name == n.player2Name && m.namesEntered == n.namesEntered
    ensures box2 ==> m.enteringPlayer2Name && !m.enteringPlayer1Name
    ensures box1 && !box2 ==> m.enteringPlayer1Name && !m.enteringPlayer2Name
    ensures !box1 && !box2 ==> m == n
  {
    var n1 := if box1 then n.(enteringPlayer1Name := true, enteringPlayer2Name := false) else n;
    if box2 then n1.(enteringPlayer1Name := false, enteringPlayer2Name := true) else n1
  }

  /** The names after `keys` were typed: each name being entered takes what fits of them. */
  function TypedNames(n: Names, keys: seq<int>): (m: Names)
    ensures NamesValid(n) ==> NamesValid(m)
    ensures m.enteringPlayer1Name == n.enteringPlayer1Name && m.enteringPlayer2Name == n.enteringPlayer2Name
    ensures m.namesEntered == n.namesEntered
  {
    AppendTypedBound(n.player1Name, keys);
    AppendTypedBound(n.player2Name, keys);
    n.(player1Name := if n.enteringPlayer1Name then AppendTyped(n.player1Name, keys) else n.player1Name,
       player2Name := if n.enteringPlayer2Name then AppendTyped(n.player2Name, keys) else n.player2Name)
  }

  lemma AppendTypedBound(name: seq<byte>, keys: seq<int>)
    ensures |name| <= MaxNameLength ==> |AppendTyped(name, keys)| <= MaxNameLength
  {
    if |name| <= MaxNameLength {
      AppendTypedKeepsWhatFits(name, keys);
    }
  }

  /** Backspace on each name being entered. */
  function Backspaced(n: Names, backspace: bool): (m: Names)
    ensures NamesValid(n) ==> NamesValid(m)
    ensures m.enteringPlayer1Name == n.enteringPlayer1Name && m.enteringPlayer2Name == n.enteringPlayer2Name
    ensures m.namesEntered == n.namesEntered
  {
    n.(player1Name := if backspace && n.enteringPlayer1Name then Backspace(n.player1Name) else n.player1Name,
       player2Name := if backspace && n.enteringPlayer2Name then Backspace(n.player2Name) else n.player2Name)
  }

  /**
   * The typing loop of the name screen: every typed character goes to each name being
   * entered, while that name is shorter than 11.
   */
  method TypeKeys(n: Names, keys: seq<int>) returns (m: Names)
    ensures m == TypedNames(n, keys)
  {
    var name1, name2 := n.player1Name, n.player2Name;
    var i := 0;
    while i < |keys| && keys[i] > 0
      invariant 0 <= i <= |keys|
      invariant n.enteringPlayer1Name ==> AppendTyped(name1, keys[i..]) == AppendTyped(n.player1Name, keys)
      invariant !n.enteringPlayer1Name ==> name1 == n.player1Name
      invariant n.enteringPlayer2Name ==> AppendTyped(name2, keys[i..]) == AppendTyped(n.player2Name, keys)
      invariant !n.enteringPlayer2Name ==> name2 == n.player2Name
    {
      var c := TypedChar(keys[i]);
      if n.enteringPlayer1Name && |name1| < MaxNameLength {
        name1 := name1 + [c];
      }
      if n.enteringPlayer2Name && |name2| < MaxNameLength {
        name2 := name2 + [c];
      }
      i := i + 1;
    }
    m := n.(player1Name := name1, player2Name := name2);
  }

  /**
   * The name screen on the names: nothing once they are entered; otherwise the box
   * clicks, the typing, Backspace, and Enter, which `confirm`s the names once both are
   * non-empty.
   */
  method EnterNames(n: Names, input: NameInput) returns (m: Names, confirm: bool)
    requires NamesValid(n)
    ensures NamesValid(m)
    ensures n.namesEntered ==> m == n && !confirm
    ensures (!n.namesEntered ==>
               var typed := Backspaced(TypedNames(ClickBoxes(n, input.clickBox1, input.clickBox2), input.keys), input.backspace);
               && confirm == (input.enter && typed.player1Name != [] && typed.player2Name != [])
               && m == typed.(namesEntered := confirm))
    ensures confirm <==> !n.namesEntered && input.enter && m.player1Name != [] && m.player2Name != []
  {
    if n.namesEntered {
      return n, false;
    }
    m := ClickBoxes(n, input.clickBox1, input.clickBox2);
    m := TypeKeys(m, input.keys);
    m := Backspaced(m, input.backspace);
    confirm := input.enter && m.player1Name != [] && m.player2Name != [];
    if confirm {
      m := m.(namesEntered := true);
    }
  }

  /** What the end of a two-player frame works on besides the scores: the game-over trigger, the leaderboard with its file, and the screens. */
  datatype EndState = EndState(triggered: bool, entries: seq<Entry>, file: Option<seq<byte>>, screen: Screen, previousScreen: Screen)

  /**
   * The game-over check and the pause of a two-player frame took `e0`, with game-over
   * delay `delay0`, to `e`, with the two-player session `duo` as it ends the frame: the
   * trigger set once a player has no health left, the delay restarted in the frame that
   * sets it and run while it is set, both players recorded on the leaderboard, and saved,
   * exactly in that frame, the game-over screen after the delay, and the pause over
   * everything.
   */
  predicate GameOverChecked(e0: EndState, delay0: int, input: MultiplayerInput, names: Names, duo: Duo, e: EndState)
  {
    var newly := !e0.triggered && e.triggered;
    && e.triggered == (e0.triggered || duo.player1Health <= 0 || duo.player2Health <= 0)
    && duo.gameOverDelayMs == (if newly then 0 else delay0) + (if e.triggered then input.elapsedMs else 0)
    && (if newly then
          && e.entries == UpdatedBoard(e0.entries, Entry(names.player1Name, duo.player1Score),
                                       Entry(names.player2Name, duo.player2Score))
          && e.file == Some(EncodeLeaderboard(e.entries))
        else e.entries == e0.entries && e.file == e0.file)
    && e.screen == (if input.pause then Pause
                    else if e.triggered && duo.gameOverDelayMs >= GameOverDelayMs then MultiplayerGameOver
                    else e0.screen)
    && e.previousScreen == if input.pause then Multiplayer else e0.previousScreen
  }
}
