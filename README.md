# Brain Bloom quiz engine, modelled in Dafny

Brain Bloom is a raylib quiz game. It has a single-player mode, with ten health points, a
20-second countdown per question and four one-shot abilities, and a two-player mode in
which both players answer the same question from the keyboard. In two-player mode the
faster right answer wins the point, and the finished match goes onto a ten-entry
leaderboard kept in a binary file. This project models the game's engine from
`src/main.cpp`, leaving out its drawing and sound:

- `random.dfy`: raylib's `GetRandomValue` over a stream of raw generator words. The stream
  is a parameter, and a rejection loop that reads all of it without accepting stands for a
  loop that never returns.
- `selection.dfy`: the non-repeating question picker `GetUniqueRandomValue` with its
  ten-entry history, the two reveal helpers `GetTwoWrongAnswersIndices` and
  `GetOneWrongAnswerIndex`, and the facts behind them. These are distinctness, the
  history bound, liveness while the history leaves a question free, and the hang once it
  does not.
- `bytes.dfy`: native 32-bit little-endian integers, as the two files store them.
- `highscore.dfy`: the high-score file.
- `leaderboard.dfy`: `LeaderboardEntry` and its `operator>`, `UpdateLeaderboard` (append
  two, sort descending, keep ten), and the `SaveLeaderboard`/`LoadLeaderboard` file
  layout. The layout is a 4-byte count, then for each entry a 4-byte name length, the name
  bytes and a 4-byte score. The layout is proved to round-trip. `Ledger` is the global
  leaderboard vector and its file, as a class.
- `rules.dfy`: the decisions that are plain functions of values. These are the two-player
  verdict, the name editing (at most 11 characters, Backspace) and the high-score rule.
- `state.dfy`: the state records of a game (the round, the duel, the single- and
  two-player sessions, the names), their cleared values, the constants of the frame
  rules, and the facts every frame keeps.
- `rounds.dfy`: the rules of a frame on values. These are the single-player round (the
  countdown, the answer, the round resolver, the four abilities), the two-player round
  (the answer keys, the evaluation, the timeout), the name entry and the two-player
  game-over check, each a function of the state before it, with the laws they obey.
- `game.dfy`: the locals of `main`, held as the fields of class `Engine.Game`, with a
  method per update branch:
  - `ResetGameVariables`;
  - the SINGLEPLAYER, MULTIPLAYER, PLAYERNAME and SINGLEPLAYER_GAMEOVER frames, and the
    steps each frame takes;
  - the end of the READY countdown.

  Each frame takes its input as a record of events instead of polling the keyboard, the
  mouse and the clock. Each method's new state is stated through the functions of
  `rounds.dfy`, so the laws proved there hold of the fields.
- `scenarios.dfy`: multi-frame runs that show the finding below and its correction, and
  a frame in which a right answer scores.

Time is integer milliseconds. A frame carries `elapsedMs` for `deltaTime`, a
`secondElapsed` flag for the `GetTime() - startTime >= 1.0` test, and, in two-player mode,
the clock readings `nowMs1` and `nowMs2` used as the two players' answer timestamps (the
source reads the clock once for each player). The thresholds are 1500 ms, 500 ms,
2500 ms, 2000 ms and 2500 ms, as in the source. Names are byte strings, and a typed code
point becomes its low eight bits, as `static_cast<char>` makes it. When a draw runs out of
raw words, the `hung` field is set: the program is stuck in that loop, and each method
promises its effects only while `hung` stays false.

Where the code and its documentation differ, the model follows the code:
- A single-player health pool can reach 11. Ability D's bonus is paid on top of a full
  pool.
- The 21-second countdown comes only from a reset on MAIN_MENU or SINGLEPLAYER_GAMEOVER,
  not from MULTIPLAYER_GAMEOVER.
- When both players are right at the same millisecond, the message of the round is left
  as it was.
- A two-player timeout clears both answers but not the `playerXSelected` locks.
- `gameInProgress` is set by the first two-player frame and never cleared.

## Model

| member | source | states |
|---|---|---|
| Random.RandomValue | src/main.cpp:155 | a draw lies between the smaller and the larger bound, whichever order they come in |
| Random.RandomValueReaches | src/main.cpp:155 | every value of the range is produced by some raw word, so modelling the generator as a stream of words loses no outcome |
| Random.ReadOnTransitive | src/main.cpp:155 | two reads of the generator one after the other consume the stream from its front, as one read does: the generator is only ever read in order |
| Selection.Evicted | src/main.cpp:168-170 | the history after the eviction step is a suffix of the old one, at most one entry shorter, and it is shorter exactly when the history holds the bound or more |
| Selection.UniqueRandomValue | src/main.cpp:153-175 | the value returned lies in the range and was not in the history; every word read before it produced a value in the history; the new history is the old one, less its oldest entry when full, followed by the value; an exhausted stream leaves the history unchanged, and every word of that stream produced a repeat |
| Selection.DrawKeepsBound | src/main.cpp:168-171 | a history that starts within its bound stays within it, and grows by one until it is full |
| Selection.DrawKeepsDistinct | src/main.cpp:158-171 | a history without repeats keeps having none after a draw |
| Selection.DrawnDiffersFromKept | src/main.cpp:158-171 | the new question differs from each of the up to nine questions kept before it |
| Selection.RangeSetSize | src/main.cpp:155 | the range [lo, hi] holds hi - lo + 1 values |
| Selection.SeqSetSize | src/main.cpp:159-164 | a history holds no more distinct values than entries |
| Selection.FreshValueExists | src/main.cpp:154-173 | while the history is shorter than the range, some value of the range is fresh and a raw word produces it, so the picker can return |
| Selection.SubsetSize | src/main.cpp:159-164 | a subset is no larger than its superset (a step of the liveness proof) |
| Selection.NoFreshValueStarves | src/main.cpp:154-174 | once the history covers the range, every word is rejected: the picker can never return |
| Selection.TwoWrongAnswers | src/main.cpp:177-197 | the result is two distinct slots in 0..3, neither of them the correct one, the second from the last word read; an exhausted stream never showed two different wrong slots |
| Selection.OneWrongAnswer | src/main.cpp:199-209 | the result is a slot in 0..3 other than the correct one, from the first word that gives one; an exhausted stream gave only the correct slot |
| Bytes.FromLittleEndian | src/main.cpp:280 | k bytes, least significant first, spell a number below 256^k |
| Bytes.ToLittleEndian | src/main.cpp:259 | the low bytes of a number come out as exactly as many bytes as asked for |
| Bytes.FromToLittleEndian | src/main.cpp:259-280 | a number below 256^k written as k bytes reads back as itself |
| Bytes.ToFromLittleEndian | src/main.cpp:259-280 | bytes read as a number and written back give the same bytes |
| Bytes.FromLittleEndianZeros | src/main.cpp:231-238 | zero bytes after the last one do not change the number, which is what a short high-score file relies on |
| Bytes.ZerosAreZero | src/main.cpp:231-238 | bytes that are all zero read as 0 |
| Bytes.EncodeInt32 | src/main.cpp:259 | an int is written as four bytes |
| Bytes.DecodeInt32 | src/main.cpp:280 | four bytes read back as a 32-bit signed value |
| Bytes.DecodeEncodeInt32 | src/main.cpp:259-280 | reading back a written 32-bit int gives the int |
| Bytes.EncodeDecodeInt32 | src/main.cpp:259-280 | writing back a read int gives the same four bytes |
| HighScore.SaveHighScore | src/main.cpp:222-228 | the high-score file is four bytes |
| HighScore.FirstFour | src/main.cpp:231-238 | the value's bytes are the file's, left at 0 where a short file lacks them |
| HighScore.LoadHighScore | src/main.cpp:231-239 | any file reads as a 32-bit value, and a missing file leaves the high score at 0 |
| HighScore.LoadSavedHighScore | src/main.cpp:222-239 | LoadHighScore returns the value SaveHighScore wrote, whatever follows it |
| HighScore.ShortFileReadsLow | src/main.cpp:231-238 | a file shorter than four bytes reads as a small non-negative number, and an empty one as 0 |
| Leaderboard.OutranksIsStrictOrder | src/main.cpp:246-248 | the entries' `operator>` is a strict order: irreflexive, asymmetric and transitive, as `std::sort` with `std::greater` needs |
| Leaderboard.Insert | src/main.cpp:309 | the insertion step of the sort adds exactly one entry, the new one, and loses none |
| Leaderboard.InsertKeepsRanked | src/main.cpp:309 | inserting into a list ranked by descending score keeps it ranked |
| Leaderboard.SortByScore | src/main.cpp:309 | the sort gives a list ranked by descending score that is a permutation of its input |
| Leaderboard.UpdatedBoard | src/main.cpp:303-314 | the updated list holds at most ten entries, ranked by descending score |
| Leaderboard.UpdatedBoardShape | src/main.cpp:303-314 | after the update the list has min(old length + 2, 10) entries and is ranked by descending score |
| Leaderboard.UpdatedBoardKeepsBest | src/main.cpp:303-314 | the kept entries come from the old list and the two new ones, and no dropped entry outscores a kept one |
| Leaderboard.RankedCut | src/main.cpp:309-313 | in a ranked list, no entry after a cut outscores one before it |
| Leaderboard.AmyLeadsFullBoard | src/main.cpp:303-314 | a match of 5 against 3 on a nine-entry board of lower scores fills the board and leads it |
| Leaderboard.CString | src/main.cpp:286-294 | a name read from the file is its bytes up to the first NUL |
| Leaderboard.CStringWithoutNul | src/main.cpp:286-294 | a name without a NUL reads back whole |
| Leaderboard.EncodeEntry | src/main.cpp:262-267 | an entry's record is its name plus eight bytes |
| Leaderboard.EncodeEntries | src/main.cpp:262-267 | the records take at least eight bytes per entry, and the first four bytes are the first entry's name length |
| Leaderboard.EncodeLeaderboard | src/main.cpp:254-270 | the file starts with the entry count as four bytes, followed by at least eight bytes per entry |
| Leaderboard.DecodeEntry | src/main.cpp:284-294 | a record that is read leaves strictly fewer bytes behind it, so the reading loop moves forward |
| Leaderboard.DecodeEntries | src/main.cpp:283-297 | the loop over `size` records, when they are all there, gives exactly `size` entries |
| Leaderboard.DecodeLeaderboard | src/main.cpp:273-301 | a file shorter than four bytes reads as nothing; a file that reads holds as many entries as its count says, and none for a count of 0 or below |
| Leaderboard.RecordSlices | src/main.cpp:284-294 | in a record laid out as length, name, score and the rest, each field is read back from where it was written |
| Leaderboard.DecodeConsEntry | src/main.cpp:262-297 | a record written in front of records that read back reads back in front of them, when its name has no NUL and its fields fit 32 bits |
| Leaderboard.DecodeEncodedEntry | src/main.cpp:262-297 | one written record followed by any bytes reads back as its entry, followed by what those bytes read as |
| Leaderboard.DecodeEncodeEntries | src/main.cpp:262-297 | the records of a storable list read back as that list |
| Leaderboard.DecodeEncodeLeaderboard | src/main.cpp:254-301 | LoadLeaderboard reads back what SaveLeaderboard wrote, for every list whose lengths and scores fit 32 bits and whose names hold no NUL, whatever follows in the file |
| Leaderboard.NulCutsName | src/main.cpp:286-294 | a name with a NUL byte comes back cut at the NUL |
| Leaderboard.CStringPrefix | src/main.cpp:286-288 | a buffer reads as a C string up to its first NUL |
| Leaderboard.ReadLeaderboard | src/main.cpp:278-297 | the loop over the records returns exactly the list the layout describes, or None for a file cut short |
| Leaderboard.ReadEntry | src/main.cpp:284-294 | one record is read as its entry and the bytes after it, or reported missing exactly when the layout has no complete record there |
| Leaderboard.PrefixedNothing | src/main.cpp:283-297 | an empty prefix changes no decoding result |
| Leaderboard.PrefixedAppend | src/main.cpp:294 | pushing one entry onto what was read so far agrees with the decoding of the rest |
| Leaderboard.LoadedBoard | src/main.cpp:273-301 | a missing file keeps the list as it was, and a file that does not read as a list empties it |
| Leaderboard.LoadSavedBoard | src/main.cpp:254-301 | loading the file that saving a storable list wrote, whatever follows in it, gives that list back, whatever the list was before |
| Leaderboard.Ledger.constructor | src/main.cpp:394 | the leaderboard starts empty and is loaded from its file |
| Leaderboard.Ledger.Load | src/main.cpp:273-301 | a missing file leaves the list unchanged; an existing one replaces it with what the file holds |
| Leaderboard.Ledger.Save | src/main.cpp:254-270 | the file holds the encoding of the list |
| Leaderboard.Ledger.Update | src/main.cpp:303-318 | the list becomes the two entries added, ranked and cut to ten, and it is saved |
| Rules.EvaluateAnswers | src/main.cpp:1030-1066 | a player loses health exactly when wrong; a player scores exactly when right and either the other is wrong or strictly slower (so at equal timestamps nobody scores); at most one player scores; the answer is revealed exactly when both are wrong |
| Rules.EvaluationIsSymmetric | src/main.cpp:1032-1066 | swapping the two players swaps the outcome |
| Rules.Keystrokes | src/main.cpp:742-750 | the characters taken are the code points before the queue reports 0, each cut to a byte |
| Rules.AppendTyped | src/main.cpp:742-751 | typing keeps the name as a prefix and adds at most one character per key, and a name already at 11 characters takes none |
| Rules.AppendTypedKeepsWhatFits | src/main.cpp:742-751 | a name grows by exactly as many typed characters as fit in 11, in order, and never beyond 11 |
| Rules.GrowStep | src/main.cpp:745-746 | appending to a short name is the same as appending to the longer prefix (a step of the proof above) |
| Rules.FullStep | src/main.cpp:745-746 | a full name takes no character (a step of the proof above) |
| Rules.Backspace | src/main.cpp:752-759 | Backspace removes exactly the last character, and on an empty name does nothing |
| Rules.NextHighScore | src/main.cpp:1181-1184 | the high score changes exactly when the score beats it strictly, and then becomes the score; it never goes down |
| State.DrawKeepsHistory | src/main.cpp:153-175 | a fresh draw keeps the question history within ten entries, free of repeats, with the question on screen last |
| State.FreshStateValid | src/main.cpp:422-485 | the cleared round, duel, session and names are valid |
| Rounds.Resolve | src/main.cpp:864-908 | the resolver times out exactly when the countdown reads 0, and leaves the round open exactly when the countdown is not at 0, no answer was selected, the answer is not right and no skip is armed |
| Rounds.Settle | src/main.cpp:864-908 | an open round leaves the session as it is, and settling never gives back ability A, D or F |
| Rounds.SettleKeeps | src/main.cpp:864-908 | a timeout discards the armed bonus and, after the 1.5 s, costs a health point; a won or skipped round pays the armed bonus and the skip point after the 1.5 s; the score rises only by the skip point and health moves by at most one; the bonus never survives a resolved round; no used ability comes back |
| Rounds.AnswerScores | src/main.cpp:823-860 | an answer taken while input is enabled gains exactly one point and no health loss when right, and exactly one health point and no score when wrong; its slot is marked; input, countdown and timer are untouched; the round and session stay valid |
| Rounds.RightAnswerScores | src/main.cpp:823-908 | a right answer, with no skip armed and the countdown not at 0, leaves the frame with exactly one point more and the countdown at 20; until the 1.5 s are over input stays locked and the timer runs |
| Rounds.WrongAnswerCostsHealth | src/main.cpp:823-908 | a wrong answer, with no skip armed and the countdown not at 0, costs exactly one health point, scores nothing and sets the countdown to 20 |
| Rounds.TimeoutCostsHealth | src/main.cpp:864-875 | a countdown at 0 with no answer taken, once the 1.5 s are over, costs one health point, discards the bonus, and leaves a fresh round with a 20-second countdown |
| Rounds.PlayedTurnAdvances | src/main.cpp:797-908 | the round part of a single-player frame gives back no used ability and raises the score by at most two, the answer and the skip |
| Rounds.ArmedKeeps | src/main.cpp:927-946 | the ability buttons leave score and health alone, use up each pressed ability while input is enabled, arm the skip and the bonus exactly when S or D fires, and change nothing while input is disabled |
| Rounds.RevealedKeeps | src/main.cpp:927-946 | greying out slots keeps the round about its question, and every greyed-out slot is paid for by its used ability |
| Rounds.AbilityA | src/main.cpp:927-930 | fires exactly when pressed, input is enabled and A is unused; it then greys out two distinct wrong slots and uses A up, reading words from the stream; otherwise nothing changes |
| Rounds.AbilityS | src/main.cpp:932-935 | fires exactly when pressed, input is enabled and S is unused; it then arms the skip and uses S up |
| Rounds.AbilityD | src/main.cpp:937-940 | fires exactly when pressed, input is enabled and D is unused; it then arms the health bonus and uses D up |
| Rounds.AbilityF | src/main.cpp:942-945 | fires exactly when pressed, input is enabled and F is unused; it then greys out one wrong slot and uses F up, reading words from the stream; otherwise nothing changes |
| Rounds.Abilities | src/main.cpp:927-946 | the four buttons in the order A, S, D, F: the session becomes exactly what the buttons arm and use up, the round gains exactly the reveals that fire, and the words read are a prefix of the stream |
| Rounds.TakenLocks | src/main.cpp:968-1022 | a player is locked exactly when already locked or a key was pressed while input was enabled; a locked answer and its time never change; a new time is the clock as read for that player |
| Rounds.EvaluatedJudges | src/main.cpp:1024-1078 | nothing happens until both chose; then the countdown holds at 20 and input locks; in the frame that judges, each player scores exactly when right and either the other is wrong or strictly slower, and loses a health point exactly when wrong, and the answer shows when both are wrong; no other frame changes scores, health or duel |
| Rounds.ExpiredCosts | src/main.cpp:1083-1097 | nothing happens unless the countdown read 0; then both answers are cleared, input locks and the timeout shows; each player loses exactly one health point in the frame that ends it, and the scores never change |
| Rounds.PlayedBoutAdvances | src/main.cpp:948-1097 | the round part of a two-player frame lowers no score, gives back no health point, costs each player at most two and leaves the game-over delay alone |
| Rounds.FirstQuestion | src/main.cpp:385-390 | the first question is drawn from an empty history and becomes its only entry |
| Rounds.ClickBoxes | src/main.cpp:732-741 | a click on a box starts entering its name and stops the other, the second box winning |
| Rounds.TypedNames | src/main.cpp:742-751 | typing keeps both names within 11 characters and changes neither which name is being entered nor whether names are confirmed |
| Rounds.AppendTypedBound | src/main.cpp:745-746 | a name within 11 characters stays within 11 after typing |
| Rounds.Backspaced | src/main.cpp:752-759 | Backspace keeps the names valid and the rest of the entry state unchanged |
| Rounds.TypeKeys | src/main.cpp:742-751 | the typing loop gives each name being entered exactly what fits of the typed characters |
| Rounds.EnterNames | src/main.cpp:729-764 | nothing changes once names are entered; otherwise clicks, typing and Backspace apply in order, and Enter confirms exactly when both names are non-empty |
| Engine.Game.constructor | src/main.cpp:327-420 | the game starts on the main menu with a 21-second countdown, the first question drawn, every counter cleared, the high score and the leaderboard loaded |
| Engine.Game.NextQuestion | src/main.cpp:425-450 | a new question not among the last ten is drawn, the history updated, and the round cleared |
| Engine.Game.ClearSession | src/main.cpp:454-484 | score, health, abilities, both players' state and the names are cleared |
| Engine.Game.ResetGameVariables | src/main.cpp:422-485 | the countdown is 21 on MAIN_MENU and SINGLEPLAYER_GAMEOVER and 20 elsewhere; a new question is drawn and the round cleared; the session is cleared only on MAIN_MENU and both game-over screens, and kept elsewhere; the invariants hold afterwards |
| Engine.Game.ResetGameVariablesCorrected | src/main.cpp:422-485 | the same reset, and the full reset also clears the game-over trigger, as the MULTIPLAYER_GAMEOVER restart does by hand (src/main.cpp:1222-1225) |
| Engine.Game.TickCountdown | src/main.cpp:799-803 | the countdown loses one second when one has passed and never goes below 0 |
| Engine.Game.SelectAnswer | src/main.cpp:823-860 | the round and session become the answered ones: while input is enabled, the right slot gives +1 score and no health change, another gives -1 health and no score change, and the slot is marked (as AnswerScores states); with input disabled nothing changes |
| Engine.Game.JudgeRound | src/main.cpp:864-908 | the countdown, timer, round and session become the resolver's result for the branch Resolve picks, settled as Settle says; `ended` is true exactly when the round is resolved and its 1.5 s are over |
| Engine.Game.AnswerStep | src/main.cpp:797-908 | the countdown, timer, round and session after the frame's tick, answer and resolver are exactly the resolver's result on the answered turn, and `ended` says exactly whether that ends the round |
| Engine.Game.PlayRound | src/main.cpp:797-908 | the turn becomes PlayedTurn of the old one, whose score and health RightAnswerScores, WrongAnswerCostsHealth and TimeoutCostsHealth give; the question is kept, or, when the round ended, replaced by one not in the old history appended to it; the duel is cleared exactly when the round ended and otherwise kept; the stream is read on from its front; the two-player session and names are kept |
| Engine.Game.UseAbilities | src/main.cpp:927-946 | the session becomes the one the four buttons arm and use up, the round gains exactly the reveals that fire, all about the question on screen, and the words read are a prefix of the stream, so a stream it was already read on from is read on from still |
| Engine.Game.SinglePlayerStep | src/main.cpp:797-946 | the new countdown, timer and session are PlayedTurn's, with the abilities pressed while its round left input enabled; the round is PlayedTurn's with the reveals that fired; the question is kept, or followed by a fresh one when the round ended; the duel is cleared exactly when the round ended and otherwise kept; the stream is read on from its front |
| Engine.Game.SinglePlayerFrame | src/main.cpp:797-946 | the whole frame's state as SinglePlayerStep states it, then SINGLEPLAYER_GAMEOVER when health is gone and PAUSE (remembering SINGLEPLAYER) when paused |
| Engine.Game.SinglePlayerScreens | src/main.cpp:918-925 | SINGLEPLAYER_GAMEOVER once health is at 0 or below, then PAUSE over it when paused, remembering SINGLEPLAYER; otherwise the screen and the remembered screen are left as they were |
| Engine.Game.StartQuestion | src/main.cpp:961-966 | the first two-player frame of a match clears the timer and enables input; later frames change nothing |
| Engine.Game.TakeAnswers | src/main.cpp:968-1022 | while input is enabled each player who has not chosen locks the key pressed, stamped with the clock as read for that player; a locked answer never changes (as TakenLocks states) |
| Engine.Game.EvaluateRound | src/main.cpp:1024-1078 | once both players chose, input locks and the countdown holds; after 0.5 s the round is judged once, as EvaluateAnswers says; 2.5 s later the next question is asked for; no health point comes back, and no player loses more than one |
| Engine.Game.TimeOut | src/main.cpp:1083-1097 | at 0 seconds both answers are cleared, input locks and the timeout shows; after 2 s both players lose one health point and the next question is asked for |
| Engine.Game.AnswerPhase | src/main.cpp:948-1022 | the countdown after its tick, the start of the question and both answer keys, exactly as Opened computes them; `seconds` is the countdown after its tick |
| Engine.Game.EvaluationPhase | src/main.cpp:1024-1078 | the countdown, timer, round, duel and two-player session become the evaluation's result, with the scores and health EvaluatedJudges gives, cleared when it asks for the next question; the question is followed by a fresh one exactly then; the stream is read on from its front |
| Engine.Game.TimeoutPhase | src/main.cpp:1083-1097 | the state becomes the timeout's result, with the answers cleared and the health ExpiredCosts gives, cleared when it asks for the next question; the question is followed by a fresh one exactly then; the stream is read on from its front, and from any stream it was already read on from |
| Engine.Game.ResolveBout | src/main.cpp:1024-1097 | the state becomes the evaluation's result and then the timeout's, the timeout reading the countdown as the frame read it before the evaluation; the question is kept, or followed by a fresh one when exactly one of the two asked for a new question; the stream is read on from its front |
| Engine.Game.MultiplayerRound | src/main.cpp:948-1097 | the countdown, timer, round, duel and two-player session become PlayedBout of the old ones (answers, evaluation, timeout, each with its reset); the question is kept, or followed by a fresh one when exactly one reset was asked for; the stream is read on from its front; the delay and the leaderboard are untouched |
| Engine.Game.CheckGameOver | src/main.cpp:1108-1125 | the trigger is set once a health is at 0 or below; the leaderboard is updated exactly in the frame that sets it and untouched otherwise; the delay runs while the trigger is set, and at 2.5 s MULTIPLAYER_GAMEOVER shows |
| Engine.Game.FinishMultiplayerFrame | src/main.cpp:1108-1135 | the trigger, delay, leaderboard, file and screens as GameOverChecked states: the trigger set once a player has no health, both players recorded and saved exactly in that frame, MULTIPLAYER_GAMEOVER after 2.5 s, PAUSE over everything; scores and health untouched |
| Engine.Game.MultiplayerFrame | src/main.cpp:948-1137 | the round part as MultiplayerRound states it, then the game-over check and the pause as FinishMultiplayerFrame states them; the stream is read on from its front; the single-player session and the names are kept |
| Engine.Game.PlayerNameFrame | src/main.cpp:728-765 | the countdown is set to 4 and the names never exceed 11 characters; the screen moves to READY, as a two-player game, exactly when Enter is pressed with both names non-empty |
| Engine.Game.LeaveReady | src/main.cpp:791-795 | the end of READY shows the game screen chosen, with a 20-second countdown and a cleared timer |
| Engine.Game.RecordHighScore | src/main.cpp:1181-1184 | a final score above the high score replaces it and is saved; otherwise neither changes |
| Engine.Game.GameOverButtons | src/main.cpp:1185-1193 | MAIN_MENU, then EXIT (remembering the game-over screen), the later button winning |
| Engine.Game.GameOverScreen | src/main.cpp:1181-1193 | the high score as the rule says, then MAIN_MENU or EXIT as pressed, EXIT winning; up to the restart, the session is left as it was |
| Engine.Game.Restart | src/main.cpp:1194-1198 | ResetGameVariables on the screen the frame is on, drawing a question not among the last ten, then SINGLEPLAYER_RULES; the game-over trigger is left as it was |
| Engine.Game.SinglePlayerGameOverFrame | src/main.cpp:1167-1199 | the high score is updated as the rule says; without a restart only the high score, its file, the screen and the exit flag change, and the session, round, countdown, timer, stream and question are kept; a restart after Exit keeps the session with a 20-second countdown, and any other restart clears it with a 21-second countdown; a restart draws a question not among the last ten; the game-over trigger is never touched |
| Scenarios.EnterMatch | src/main.cpp:624-795 | from the main menu through the reset to MULTIPLAYER, with both players at full health, no delay and the game-over trigger as it was |
| Scenarios.EnterMatchCorrected | src/main.cpp:624-795 | the same steps with the corrected reset, which leaves the trigger clear |
| Scenarios.StaleTriggerEndsNextMatch | src/main.cpp:1108-1125 | after a finished match and the main menu, the next match shows MULTIPLAYER_GAMEOVER after 2.5 s while both players still have health, and the leaderboard is not updated |
| Scenarios.FreshMatchAfterCorrectedReset | src/main.cpp:1108-1125 | with the corrected reset the same run stays on MULTIPLAYER with the trigger clear |
| Scenarios.RightAnswerFrame | src/main.cpp:797-946 | a SINGLEPLAYER frame in which the right slot is pressed, with input enabled, no skip armed and more than a second left, ends with exactly one point more, whatever abilities are pressed |

## Left out

- Drawing, text layout (`WrapText` and the other text helpers), audio, music, the window and the buttons' hit tests. Button clicks and key presses are input events.
- Real file access. A file is a value, `None` when it does not open. A leaderboard file that is cut short or has a negative name length loads as an empty list in the model. The source has no defined outcome there: a name length below -1 makes `new char[nameLength + 1]` (src/main.cpp:286) throw and end the program, a length of -1 makes the terminator write (src/main.cpp:288) land before the buffer, and after a short read the length is indeterminate, so the same allocation can fail. The empty list is the model's chosen stand-in for these aborts and undefined behaviour.
- Floating-point timers. `deltaTime` and `GetTime()` become integer milliseconds and a per-frame `secondElapsed` event. The SINGLEPLAYER and READY branches run the one-second test twice (src/main.cpp:799 and :813); the one `secondElapsed` flag stands for whichever of the two fires. The model takes at most one second off per frame; the source takes two only when a whole second passes between the two tests.
- Engine.Game.TakeAnswers: the source keeps the stamps in a `float` (src/main.cpp:406), which can no longer tell apart neighbouring milliseconds after 2^24 ms (about 4.7 hours); the model keeps exact integers.
- Engine.Game.ResolveBout: in a frame in which both the evaluation and the timeout ask for a new question, two questions are drawn one after the other. The contract does not state which question is then on screen or what the history becomes; it states only that the stream is read on from its front.
- Engine.Game.MultiplayerRound: the same gap as Engine.Game.ResolveBout, for the frame in which both resets fire.
- Engine.Game.MultiplayerFrame: the same gap as Engine.Game.ResolveBout, for the frame in which both resets fire.
- The screens other than SINGLEPLAYER, MULTIPLAYER, PLAYERNAME and SINGLEPLAYER_GAMEOVER: main menu, start, settings, rules, controls, pause, exit, leaderboards and MULTIPLAYER_GAMEOVER. Of READY only the hand-over to the game screen (`LeaveReady`) is modelled, without its countdown.
- `gameMessage1`/`gameMessage2` and the text of `gameMessage`. They only feed drawing; the message is a `Message` value.
- `questions.hpp`'s question bank is not part of this model. The questions are a parameter, each with four answers and a correct slot in 0..3.
- Leaderboard.SortByScore: `std::sort` with `std::greater` is not stable, so the order among equal scores is unspecified there; the model keeps arrival order. Every property in the table holds for any order among ties.
- Engine.Game.SinglePlayerFrame: the abilities run before the health and pause checks rather than after them. They read and write neither health nor screen, so the outcome is the same.
- Engine.Game.JudgeRound: the resolver's writes of one frame are collapsed into one state update. `selectedAnswerIndex` is not a field, because it is -1 again by the end of every frame.
- Engine.Game.UseAbilities: which two wrong slots ability A greys out, and which one F does, is stated only as what the draws promise (distinct wrong slots), not as the particular raw words.
- Every frame method: effects are promised only while no draw has run out of raw words. A hung program shows no further frame.

## Findings

| source | as written | input that shows it | evidently intended | confidence | as-written member | corrected member |
|---|---|---|---|---|---|---|
| src/main.cpp:422-485 | `isGameOverTriggered` is cleared only by the MULTIPLAYER_GAMEOVER restart button (src/main.cpp:1222-1225), never by the reset, and the game-over check (src/main.cpp:1108-1125) ends any match while it is set | finish a two-player match, press Main Menu on the game-over screen, then start a new two-player match and let 2.5 s pass | the full reset clears the trigger, so the next match ends only when a player runs out of health and is recorded on the leaderboard | not executed | Engine.Game.ResetGameVariables (shown by Scenarios.StaleTriggerEndsNextMatch) | Engine.Game.ResetGameVariablesCorrected (shown by Scenarios.FreshMatchAfterCorrectedReset) |
