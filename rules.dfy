/**
 * The rules of the game that are plain decisions on values: how a two-player round is
 * judged, how typed characters edit a player name, and when a score becomes the
 * high score.
 */
module Rules {
  import opened Bytes

  // ---------------------------------------------------------------------------------
  // Two-player round evaluation

  /** Which branch of the evaluation a round took; each but the tie shows its own message. */
  datatype Verdict =
    | Player1Correct
    | Player2Correct
    | Player1Faster
    | Player2Faster
    | BothCorrectSameTime
    | BothWrong

  /** What an evaluation changes: points gained, health points lost, and whether the correct answer is shown. */
  datatype Evaluation = Evaluation(verdict: Verdict, gain1: nat, gain2: nat, loss1: nat, loss2: nat, revealAnswer: bool)

  /**
   * The evaluation of a round in which both players answered; the times are the
   * millisecond timestamps of their answers. A player loses a health point exactly
   * when wrong, scores exactly when right and either the other is wrong or was strictly
   * slower, and the answer is revealed exactly when both are wrong.
   */
  function EvaluateAnswers(answer1: int, answer2: int, time1: int, time2: int, correct: int): (r: Evaluation)
    ensures r.loss1 == (if answer1 == correct then 0 else 1)
    ensures r.loss2 == (if answer2 == correct then 0 else 1)
    ensures r.gain1 == (if answer1 == correct && (answer2 != correct || time1 < time2) then 1 else 0)
    ensures r.gain2 == (if answer2 == correct && (answer1 != correct || time2 < time1) then 1 else 0)
    ensures r.gain1 + r.gain2 <= 1
    ensures r.revealAnswer <==> answer1 != correct && answer2 != correct
  {
    if answer1 == correct && answer2 != correct then
      Evaluation(Player1Correct, 1, 0, 0, 1, false)
    else if answer2 == correct && answer1 != correct then
      Evaluation(Player2Correct, 0, 1, 1, 0, false)
    else if answer1 == correct && answer2 == correct then
      if time1 < time2 then Evaluation(Player1Faster, 1, 0, 0, 0, false)
      else if time2 < time1 then Evaluation(Player2Faster, 0, 1, 0, 0, false)
      else Evaluation(BothCorrectSameTime, 0, 0, 0, 0, false)
    else
      Evaluation(BothWrong, 0, 0, 1, 1, true)
  }

  function MirrorVerdict(v: Verdict): Verdict
  {
    match v
    case Player1Correct => Player2Correct
    case Player2Correct => Player1Correct
    case Player1Faster => Player2Faster
    case Player2Faster => Player1Faster
    case BothCorrectSameTime => BothCorrectSameTime
    case BothWrong => BothWrong
  }

  function Mirror(e: Evaluation): Evaluation
  {
    Evaluation(MirrorVerdict(e.verdict), e.gain2, e.gain1, e.loss2, e.loss1, e.revealAnswer)
  }

  /** The evaluation treats the two players alike: swapping them swaps the outcome. */
  lemma EvaluationIsSymmetric(answer1: int, answer2: int, time1: int, time2: int, correct: int)
    ensures EvaluateAnswers(answer2, answer1, time2, time1, correct)
            == Mirror(EvaluateAnswers(answer1, answer2, time1, time2, correct))
  {
  }

  // ---------------------------------------------------------------------------------
  // Player name entry

  /** The longest name the entry screen accepts. */
  const MaxNameLength := 11

  /** static_cast<char> of a typed code point: its low eight bits. */
  function TypedChar(key: int): byte
  {
    (key % 256) as byte
  }

  /** The characters GetCharPressed hands out before its queue reports 0, as bytes. */
  function Keystrokes(keys: seq<int>): (cs: seq<byte>)
    ensures |cs| <= |keys|
    ensures forall k :: 0 <= k < |cs| ==> keys[k] > 0 && cs[k] == TypedChar(keys[k])
    ensures |cs| < |keys| ==> keys[|cs|] <= 0
  {
    if keys == [] || keys[0] <= 0 then [] else [TypedChar(keys[0])] + Keystrokes(keys[1..])
  }

  /** One name after the typing loop: each character is appended while the name is shorter than 11. */
  function AppendTyped(name: seq<byte>, keys: seq<int>): (r: seq<byte>)
    ensures |name| <= |r| <= |name| + |keys| && r[..|name|] == name
    ensures |name| >= MaxNameLength ==> r == name
    decreases |keys|
  {
    if keys == [] || keys[0] <= 0 then name
    else AppendTyped(if |name| < MaxNameLength then name + [TypedChar(keys[0])] else name, keys[1..])
  }

  function Min(a: int, b: int): int { if a <= b then a else b }

  /**
   * The typing loop keeps as many of the typed characters as fit in 11: the name grows
   * by a prefix of the keystrokes and never beyond 11 characters.
   */
  lemma {:induction false} AppendTypedKeepsWhatFits(name: seq<byte>, keys: seq<int>)
    requires |name| <= MaxNameLength
    ensures AppendTyped(name, keys)
            == (name + Keystrokes(keys))[..Min(MaxNameLength, |name| + |Keystrokes(keys)|)]
    ensures |AppendTyped(name, keys)| <= MaxNameLength
    decreases |keys|
  {
    if keys != [] && keys[0] > 0 {
      var c := TypedChar(keys[0]);
      assert Keystrokes(keys) == [c] + Keystrokes(keys[1..]);
      if |name| < MaxNameLength {
        AppendTypedKeepsWhatFits(name + [c], keys[1..]);
        GrowStep(name, c, Keystrokes(keys[1..]));
      } else {
        AppendTypedKeepsWhatFits(name, keys[1..]);
        FullStep(name, c, Keystrokes(keys[1..]));
      }
    } else {
      assert Keystrokes(keys) == [];
      assert name + [] == name;
    }
  }

  lemma GrowStep(name: seq<byte>, c: byte, rest: seq<byte>)
    requires |name| < MaxNameLength
    ensures (name + ([c] + rest))[..Min(MaxNameLength, |name| + |[c] + rest|)]
            == ((name + [c]) + rest)[..Min(MaxNameLength, |name + [c]| + |rest|)]
  {
    assert name + ([c] + rest) == (name + [c]) + rest;
  }

  lemma FullStep(name: seq<byte>, c: byte, rest: seq<byte>)
    requires |name| == MaxNameLength
    ensures (name + ([c] + rest))[..Min(MaxNameLength, |name| + |[c] + rest|)] == name
    ensures (name + rest)[..Min(MaxNameLength, |name| + |rest|)] == name
  {
  }

  /** Backspace drops the last character; on an empty name it does nothing. */
  function Backspace(name: seq<byte>): (r: seq<byte>)
    ensures name == [] ==> r == []
    ensures name != [] ==> r + [name[|name| - 1]] == name
  {
    if name == [] then [] else name[..|name| - 1]
  }

  // ---------------------------------------------------------------------------------
  // High score

  /**
   * The high score after a game-over frame: the old one unless the final score
   * beats it strictly, so it never goes down and ends at the larger of the two.
   */
  function NextHighScore(score: int, highscore: int): (r: int)
    ensures r >= highscore && r >= score
    ensures r == highscore || r == score
    ensures r != highscore <==> score > highscore
  {
    if score > highscore then score else highscore
  }
}
