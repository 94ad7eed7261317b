# Shogi client move logic, modelled in Dafny

This project models the move logic of a shogi web client (a fork of the
lila front end). It covers four pieces:

- **Keyboard move input** (`ui/round/src/plugins/keyboardMove.ts`). It converts
  numeric squares ("97") to board keys ("a3") and back. It looks typed
  notation up in the table of legal moves. It classifies typed text into
  commands: select, play, promote, drop, read the clocks, or an error sound.
- **Accessible notation** (`ui/nvui/src/chess.ts`). It renders a move for a
  screen reader in the usi, san, literate, nato and anna styles, and renders
  square names. It produces the text board, the list of squares holding a
  given piece, and the pieces on a file or rank. It also recognises castling
  spellings and the supported variants.
- **Puzzle move test** (`ui/puzzle/src/moveTest.ts`). After each move it
  compares the moves played since the puzzle started with the solution. The
  verdict is no verdict, fail, win, or "good" with the next solution move.
- **Puzzle Storm controller** (`ui/storm/src/ctrl.ts`). It runs a timed
  series of puzzles. Moves are counted and judged. Right moves feed a combo
  and can earn bonus seconds; wrong moves cost a malus. Every finished puzzle
  goes into a history, and the run's statistics are computed from it.

The shogi rules engine (shogiops) is not modelled. Its operations are the
function-valued fields of `ShogiRules.Rules`: USI parsing and printing,
legality, playing a move, checkmate, side to move, piece on a square, and the
back-rank square sets. Every property below therefore holds for any engine.

The Storm controller also calls code it does not contain:

- the current puzzle's position, expected move and end-of-line test;
- the combo bonus table;
- the clock's flag;
- the time.

These are the fields of `Storm.Env`. Positions are SFEN strings, and strings
are sequences of characters. Case conversion covers ASCII letters only.

Files:

- `options.dfy`: the `Option` type.
- `text.dfy`: JavaScript string operations: `toLowerCase`, `toUpperCase`,
  `includes`, `endsWith`, `join`, `split`, number printing, `reverse`.
- `shogi_rules.dfy`: colours, roles, moves, the engine interface, and the
  forced-promotion rule that the puzzle test and Storm share.
- `keyboard_move.dfy`, `nvui_chess.dfy`, `puzzle_move_test.dfy`, `storm.dfy`:
  one module per source file.

Three JavaScript behaviours are kept because the results depend on them:

- A missing table entry prints as "undefined" in a template string but as
  nothing in `join`.
- Empty strings are falsy.
- `Map` entries are iterated in insertion order, so the board's pieces are
  an association list (`seq` of pairs) in that order. The move table is an
  object, whose integer-like keys (such as "52") JavaScript lists first, in
  ascending order. The model keeps the move table as an association list
  in the engine's order. No result here depends on the difference: a
  digits-only key equals a text ignoring case only when it equals it
  exactly, so the exact lookup finds it first, and `submit` uses the
  candidate list only for its length.

## Model

| member | source | states |
|---|---|---|
| ShogiRules.IsForcedPromotion | ui/puzzle/src/moveTest.ts:11-19 | when true, both texts parse to board moves with the same origin and destination, and the role is a knight, pawn or lance |
| ShogiRules.ForcedPromotionRejects | ui/puzzle/src/moveTest.ts:14 | false for a missing role, for an unparsable text, for a drop, and for moves whose origin or destination differ |
| ShogiRules.ForcedPromotionAccepts | ui/puzzle/src/moveTest.ts:15-18 | once the guard passes: true exactly for a knight landing on `backrank2` or a pawn/lance landing on `backrank` of the given side |
| ShogiRules.ForcedPromotionSymmetric | ui/storm/src/ctrl.ts:173-181 | the relation does not depend on which of the two USI texts comes first |
| KeyboardMove.Alpha | ui/round/src/plugins/keyboardMove.ts:127-130 | a numeric square with digits 1-9 becomes a key with file a-i and rank 1-9 |
| KeyboardMove.Coordinate | ui/round/src/plugins/keyboardMove.ts:132-135 | a board key becomes a numeric square with both digits in 1-9 |
| KeyboardMove.CoordinateOfAlpha | ui/round/src/plugins/keyboardMove.ts:127-135 | `coordinate(alpha(k)) == k` for every numeric square |
| KeyboardMove.AlphaOfCoordinate | ui/round/src/plugins/keyboardMove.ts:127-135 | `alpha(coordinate(k)) == k` for every board key |
| KeyboardMove.AlphaExample | ui/round/src/plugins/keyboardMove.ts:128-134 | "97" is "a3" and "a3" is "97" |
| KeyboardMove.ExactIndex | ui/round/src/plugins/keyboardMove.ts:114 | the index of the first key equal to the text, or none when no key is |
| KeyboardMove.LooseIndex | ui/round/src/plugins/keyboardMove.ts:115-116 | the index of the first key equal to the text ignoring case, or none when no key is |
| KeyboardMove.SanToUci | ui/round/src/plugins/keyboardMove.ts:113-118 | an exact key's uci when one exists; otherwise found exactly when some key matches ignoring case, with that key's uci |
| KeyboardMove.SanToUciFirstLoose | ui/round/src/plugins/keyboardMove.ts:115-117 | without an exact key, the uci found is that of the first key, in table order, equal to the text ignoring case |
| KeyboardMove.SanCandidates | ui/round/src/plugins/keyboardMove.ts:120-125 | exactly the keys whose lower-case form starts with the lower-cased text, and no more entries than the table |
| KeyboardMove.FoundHasCandidates | ui/round/src/plugins/keyboardMove.ts:113-125 | whenever `sanToUci` finds a move, `sanCandidates` of the same text is not empty |
| KeyboardMove.RowUcisFacts | ui/round/src/plugins/keyboardMove.ts:140-142 | one uci per destination of an origin; each is 4 characters and `alpha` of its halves gives back the origin and a destination |
| KeyboardMove.UcisOfFacts | ui/round/src/plugins/keyboardMove.ts:137-145 | the flattened list has one entry per destination in the map; each entry's halves name an origin of the map and one of its destinations |
| KeyboardMove.DestsToUcis | ui/round/src/plugins/keyboardMove.ts:137-145 | the nested loop builds exactly the flattening `UcisOf` |
| KeyboardMove.SimplePlural | ui/round/src/plugins/keyboardMove.ts:169-171 | "1 word" exactly when the count is 1, and the decimal count then the word plus 's' exactly otherwise |
| KeyboardMove.PromoteReaction | ui/round/src/plugins/keyboardMove.ts:38-42 | the promotion branch issues a command exactly when its lookup finds a non-empty uci |
| KeyboardMove.Submit | ui/round/src/plugins/keyboardMove.ts:22-60 | the text box is cleared only when a command is issued |
| KeyboardMove.SubmitPawnDrop | ui/round/src/plugins/keyboardMove.ts:43-46 | "*76"-style text that is not a move drops a pawn ('P') on `alpha` of its digits and clears the box |
| KeyboardMove.AmbiguousPromotionNeedsForce | ui/round/src/plugins/keyboardMove.ts:30 | without `force`, text matching `ambiguousPromotionRegex` never plays or drops |
| KeyboardMove.AmbiguousPromotionQuirk | ui/round/src/plugins/keyboardMove.ts:7 | the regex's optional group is a literal backslash, then an optional 'w' and 'x': "76+", "\\w76=" and "\\x76+" match, "N76+" and "x76+" do not |
| KeyboardMove.SubmitNeverPromotes | ui/round/src/plugins/keyboardMove.ts:23-42 | no input ever yields a promote command, because the promotion branch repeats a lookup that already failed |
| KeyboardMove.SubmitKeySelects | ui/round/src/plugins/keyboardMove.ts:33-35 | a numeric square that is not a move selects `alpha` of it and clears the box |
| KeyboardMove.SubmitPlaysFoundMove | ui/round/src/plugins/keyboardMove.ts:23-32 | a found move that is not an unforced ambiguous promotion is played from and to `alpha` of its uci halves, and the box is cleared |
| NvuiChess.LetterRoleRoundTrip | ui/nvui/src/chess.ts:29-60 | the upper-cased board letter of every role names that role in the `roles` table |
| NvuiChess.RenderFile | ui/nvui/src/chess.ts:191-193 | the identity outside nato/anna; defined exactly for styles other than nato/anna or files a-h; the name starts with the file letter |
| NvuiChess.NinthFileUnnamed | ui/nvui/src/chess.ts:9-28 | nato and anna have no name for file 'i', so its key renders as "undefined 5" |
| NvuiChess.RenderKey | ui/nvui/src/chess.ts:195-197 | the rendered file, a space and the rank; "undefined" plus the rank when the file has no name |
| NvuiChess.RemoveFirstMarkWithout | ui/nvui/src/chess.ts:83 | text without '+' or '#' is unchanged |
| NvuiChess.RemoveFirstMarkAt | ui/nvui/src/chess.ts:83 | exactly the first '+' or '#' is removed, wherever it stands |
| NvuiChess.RemoveFirstMarkKeeps | ui/nvui/src/chess.ts:83 | at most one character is dropped and none is added |
| NvuiChess.Token | ui/nvui/src/chess.ts:89-98 | the word of one san character contains no space |
| NvuiChess.Tokens | ui/nvui/src/chess.ts:88-89 | one word per character of the san |
| NvuiChess.RenderSan | ui/nvui/src/chess.ts:80-104 | "" for an empty san; ends in " checkmate" when the san holds '#', and in " promotion" when it holds '+' but no '#'; in usi style starts with the usi when it is non-empty, else with the san |
| NvuiChess.PromotionThenCheckmate | ui/nvui/src/chess.ts:101-102 | a san holding both '+' and '#' ends in " promotion checkmate", in every style |
| NvuiChess.UsiStyleText | ui/nvui/src/chess.ts:84-103 | in usi style the text is the usi when it is non-empty, else the san, followed by the suffix words |
| NvuiChess.SanStyleText | ui/nvui/src/chess.ts:83-103 | in san style the move loses only its first mark, then gets the suffix words |
| NvuiChess.SpokenText | ui/nvui/src/chess.ts:86-103 | in the spoken styles the text is the per-character words and suffix words joined by spaces |
| NvuiChess.SpokenWords | ui/nvui/src/chess.ts:86-103 | splitting the spoken rendering at spaces gives back each character's word, then "promotion"/"checkmate" as the san asks |
| NvuiChess.Get | ui/nvui/src/chess.ts:161 | a piece is found exactly when some entry has the key |
| NvuiChess.BoardShape | ui/nvui/src/chess.ts:169-189 | 11 rows of 11 cells; header and footer of files; each rank row starts and ends with its rank label, 9 to 1 for sente and 1 to 9 for gote |
| NvuiChess.GoteBoardIsRotated | ui/nvui/src/chess.ts:184-187 | gote's cell (i, j) is sente's cell (10-i, 10-j) |
| NvuiChess.RenderBoard | ui/nvui/src/chess.ts:169-189 | the loops build the grid `BoardGrid` and join it into lines |
| NvuiChess.KeysNamed | ui/nvui/src/chess.ts:151-153 | empty exactly when no piece carries the requested name |
| NvuiChess.KeyListing | ui/nvui/src/chess.ts:155 | ends in "none" exactly when there is no key; otherwise it is the name, then the rendered keys joined by ", " |
| NvuiChess.RenderPieceKeys | ui/nvui/src/chess.ts:149-156 | the loop collects the matching keys in order; the result is "name: none" exactly when no piece matches |
| NvuiChess.NoneExactlyWhenAbsent | ui/nvui/src/chess.ts:149-156 | the listing says "none" exactly when no piece carries the name |
| NvuiChess.SquareEntry | ui/nvui/src/chess.ts:163 | every entry contains a space, so no entry list can join to "blank" |
| NvuiChess.EntriesOn | ui/nvui/src/chess.ts:159-165 | empty exactly when no key containing the rank or file holds a piece |
| NvuiChess.RenderPiecesOn | ui/nvui/src/chess.ts:158-167 | "blank" exactly when no matching square holds a piece; otherwise the entries joined by ", " |
| NvuiChess.DropSeparators | ui/nvui/src/chess.ts:200 | the result holds no hyphen and no white space |
| NvuiChess.CastlingFlavours | ui/nvui/src/chess.ts:199-209 | "o-o" exactly for oo/00, "o-o-o" exactly for ooo/000 (ignoring case, hyphens and white space); anything else unchanged |
| NvuiChess.CastlingFlavoursIdempotent | ui/nvui/src/chess.ts:199-209 | applying it twice equals applying it once |
| NvuiChess.SupportedVariant | ui/nvui/src/chess.ts:62-64 | true exactly for "standard" and "fromPosition" |
| PuzzleMoveTest.PlayedNodes | ui/puzzle/src/moveTest.ts:28-32 | the nodes after the initial path, index for index; empty when the list is shorter |
| PuzzleMoveTest.MoveTest | ui/puzzle/src/moveTest.ts:21-62 | no verdict exactly in view mode, outside the initial path or after the opponent's move; fail exactly when the first stop is a disagreeing node; win exactly when it is a checkmate, or when all nodes pass and no next move exists; otherwise the parsed next move with the current fen and path; the mark written matches the verdict |
| PuzzleMoveTest.StopIsFirst | ui/puzzle/src/moveTest.ts:34-49 | the scan stops at one node at most: the first node that does not pass |
| PuzzleMoveTest.NoStopWhenAllPass | ui/puzzle/src/moveTest.ts:34-51 | when every node passes, the scan neither wins nor fails early |
| PuzzleMoveTest.SolutionReplayPasses | ui/puzzle/src/moveTest.ts:44-48 | replaying the solution exactly, without mate, never fails |
| PuzzleMoveTest.ForcedPromotionPasses | ui/puzzle/src/moveTest.ts:47 | a forced-promotion equivalent of the solution move is never the failing node |
| PuzzleMoveTest.BeyondSolutionFails | ui/puzzle/src/moveTest.ts:45-48 | a move past the end of the solution, not mating, fails |
| Storm.Combo.Inc | ui/storm/src/ctrl.ts:132 | the streak grows by one; the best streak never drops and keeps up with the streak |
| Storm.Combo.Reset | ui/storm/src/ctrl.ts:151 | the streak drops to 0; the best streak is kept |
| Storm.Clock.Start | ui/storm/src/ctrl.ts:106 | the first call sets the start time; later calls change nothing |
| Storm.Clock.AddSeconds | ui/storm/src/ctrl.ts:137 | the added seconds change by exactly the amount; the start time is kept |
| Storm.AcceptedCases | ui/storm/src/ctrl.ts:126-130 | a mate or the expected move is right; a drop is right only by mate or exact match; any other right move is a knight/pawn/lance board move with the expected origin and destination |
| Storm.AcceptsForcedPromotion | ui/storm/src/ctrl.ts:172-181 | the corrected test accepts a board move differing from the expected one only in a compulsory promotion of the piece that stood on the origin square |
| Storm.AsWrittenIgnoresForcedPromotion | ui/storm/src/ctrl.ts:125-130 | once the origin square is empty after the move, the as-written test accepts exactly mates and exact matches |
| Storm.AsWrittenAcceptsLess | ui/storm/src/ctrl.ts:125-130 | the as-written test accepts no more than the corrected one |
| Storm.AsWrittenRejectsForcedPromotion | ui/storm/src/ctrl.ts:129 | a pawn promoting on its last rank, written without '+' in the line, is right for the corrected test and wrong as written |
| Storm.JudgeRejectsForcedPromotion | ui/storm/src/ctrl.ts:114-130 | the controller's judgement of that same move is "wrong", although the corrected test accepts it |
| Storm.CountWins | ui/storm/src/ctrl.ts:213 | never more than the number of entries |
| Storm.CountWinsZero | ui/storm/src/ctrl.ts:213 | zero exactly when no entry is a win |
| Storm.CountWinsAppend | ui/storm/src/ctrl.ts:213 | the count of a concatenation is the sum of the counts |
| Storm.CountWinsReverse | ui/storm/src/ctrl.ts:67 | reversing the history keeps the score |
| Storm.Highest | ui/storm/src/ctrl.ts:222 | at least 0 and at least every solved puzzle's rating; 0 or the rating of some solved puzzle |
| Storm.HighestSameEntries | ui/storm/src/ctrl.ts:222 | histories with the same entries in any order have the same highest rating |
| Storm.HighestReverse | ui/storm/src/ctrl.ts:67 | reversing the history keeps the highest rating |
| Storm.Pushed | ui/storm/src/ctrl.ts:192-197 | one more entry, for the current puzzle and outcome, after the old entries unchanged; an entry pushed on an empty history has millis 0 (the first puzzle is free) |
| Storm.PushedCounts | ui/storm/src/ctrl.ts:192-197 | a pushed entry adds one to the wins exactly when it is a win |
| Storm.StormCtrl.constructor | ui/storm/src/ctrl.ts:35-53 | a run starts at the first puzzle with nothing counted, no history, no clock start and filters off, and satisfies the run invariant `Valid`: the current puzzle is the run's puzzle at its index, the best combo is at least the current one, wins plus errors never exceed moves, and before the end the first history entry took 0 ms |
| Storm.StormCtrl.PushToHistory | ui/storm/src/ctrl.ts:192-197 | the history grows by the entry `Pushed` describes; nothing else changes |
| Storm.StormCtrl.IncPuzzle | ui/storm/src/ctrl.ts:199-206 | true and the next puzzle, from move 0, exactly when the index is below the last; otherwise false and the current puzzle untouched |
| Storm.StormCtrl.End | ui/storm/src/ctrl.ts:66-77 | the history is reversed, the end time set, and the score kept |
| Storm.StormCtrl.EndNow | ui/storm/src/ctrl.ts:79-82 | the current puzzle is recorded as unsolved, then the run ends |
| Storm.StormCtrl.FinishMoveOrDrop | ui/storm/src/ctrl.ts:105-170 | every call starts the clock and counts one move; an illegal drop changes nothing else; a move is judged as the source writes it, with the role for the forced-promotion rule read after the move; a right move advances the line by one, or two when the puzzle goes on, and updates combo, bonus and clock; a wrong move adds one error, one unsolved entry and the malus, and resets the combo; the run invariant is kept |
| Storm.StormCtrl.RightMove | ui/storm/src/ctrl.ts:131-146 | the right-move branch: combo, modifier and bonus seconds, then `PlayOnOrFinish` |
| Storm.StormCtrl.PlayOnOrFinish | ui/storm/src/ctrl.ts:139-145 | a finished line records a win and moves on or ends the run; otherwise the reply is played |
| Storm.StormCtrl.WrongMove | ui/storm/src/ctrl.ts:147-160 | one more error and unsolved entry, combo reset, malus taken and recorded; the run ends on flag or after the last puzzle |
| Storm.StormCtrl.NextOrEnd | ui/storm/src/ctrl.ts:159 | the next puzzle when there is one, otherwise the history is reversed and the run ends |
| Storm.StormCtrl.RunStats | ui/storm/src/ctrl.ts:215-224 | puzzles = history length; score = wins, at most puzzles, 0 exactly without wins; highest = the greatest solved rating or 0; time present exactly when the run has both an end and a start |
| Storm.StormCtrl.ToggleFilterSlow | ui/storm/src/ctrl.ts:226-229 | flips the slow filter and nothing else |
| Storm.StormCtrl.ToggleFilterFailed | ui/storm/src/ctrl.ts:231-234 | flips the failed filter and nothing else |

## Left out

- DOM and browser plumbing is not modelled:
  - `makeBindings`, `focusChat`, the keydown handler, the hotkeys;
  - the input box's classes and value (`submit`'s effect on the box is reported as an `InputUpdate` instead);
  - `readClocks` (it uses `Date` and speech output; `submit` only reports that it would be called);
  - `renderPieces` (VNodes) and `styleSetting` (browser storage).
- Timers, network and services are not modelled: `redraw*`, `setTimeout`, `xhr.record`, `sign`, `sound.*`, `pubsub.emit`, `checkDupTab`, `dropRedraw`, `withGround` and the board widget calls, `userMove`/`userDrop`/`playUserMove` (they only build the move for `finishMoveOrDrop`), and the promotion dialog.
- Capture sounds are not modelled: `captureSound` in `finishMoveOrDrop` only picks a sound.
- `getNow()` is one value per call of an operation (`Env.now`, or a `now` parameter), although the source reads the clock several times.
- Storm.StormCtrl.RunStats: `time` is kept in milliseconds. The source divides by 1000 in floating point; this is left out because it involves floating point.
- Storm.StormCtrl.RunStats: the `signed` field (a server signature) is not modelled.
- `Clock`, `Combo` and `CurrentPuzzle` live in `puz/`, which is not part of this model. Combo and clock state are datatypes with the updates the controller calls. `flag`, `bonus`, `position`, `expectedMove` and `isOver` are parameters (`Storm.Env`).
- The tree path helpers and `plyColor` are not part of this model. A path is taken to be a string of two-character node ids, so `contains` is prefix and `size` is half the length. Sente plays on even plies.
- PuzzleMoveTest.MoveTest: a played node past the end of the solution is compared with `undefined`. It is taken as a failure; the engine's USI parser is not asked to parse `undefined`.
- Storm.StormCtrl.FinishMoveOrDrop: judges moves as the source is written, so a compulsory promotion that the puzzle's line writes without '+' counts as an error. The corrected rule, `Storm.Accepted`, is stated and proved on its own and is not wired into the controller.
- Storm.ForcedPromotionOf: when the expected move is missing, the forced-promotion test is taken to fail and the parser is not consulted.
- The `vm.node.puzzle` write in `moveTest` is the returned mark, not a field update.
- `toLowerCase`/`toUpperCase` are modelled for ASCII letters only. Unicode case mapping is left out.
- Object keys that collide with `Object.prototype` names are not modelled. Every table is an association list.
- `ui/puzzle/src/autoShape.ts` is not modelled: it is driven by floating-point win-chance thresholds and line widths.

## Findings

| source | as written | input that shows it | evidently intended | confidence | as-written member | corrected member |
|---|---|---|---|---|---|---|
| ui/storm/src/ctrl.ts:125-130 | the role passed to the forced-promotion rule is read from the origin square after `pos.play(move)` has moved the piece away, so it is always missing and a forced promotion is judged wrong; `Storm.Judge` and `Storm.StormCtrl.FinishMoveOrDrop` keep this behaviour (`Storm.JudgeRejectsForcedPromotion`) | a pawn moves from square 20 to square 19 on its last rank as "2c2b+"; the puzzle's line expects "2c2b" (`Storm.AsWrittenRejectsForcedPromotion`) | the role of the piece that stood on the origin square before the move, as the puzzle move test does (`Storm.AcceptsForcedPromotion`) | high for the reading order, not executed | Storm.AcceptedAsWritten | Storm.Accepted |
