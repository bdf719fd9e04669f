# A Go engine: board, undo, scoring, search and evaluator, with proofs

This project models the core of a Go playing program and proves what its parts promise. The program has
three layers.

- **The board** (`external/pachi/`). A position is kept incrementally: stones on a padded grid, chains threaded
  through a link array, a liberty list per chain that holds at most 10 points and is refilled from the board when it
  falls to 5, neighbour counts, a list of free points with its inverse, a list of chains in atari, an incremental hash
  and a ko point. Every move repairs all of these locally, while chains are joined, merged and captured in the middle
  of one loop over four neighbours. A quick mode saves a small record and takes the move back exactly. Legality tests,
  self-atari, ladder reading, nakade shapes and area scoring sit on top.
- **The game wrapper** (`GoBoard`, `Symmetry`). Moves, a history string, a window of eight recent hashes, replaying a
  history, and the eight symmetries applied to a history.
- **The search** (`MCTSTree`, `MCTSPlayer`, `PolicyValueEvaluatorClient`). Visit counts, win sums and virtual loss on
  a growing tree, and a batched evaluator with two semaphores, send windows and re-queued failures.

## How it is laid out

| layer | files |
|---|---|
| grid, chains and liberties by paths; clearing a colour; one turn of the rules; legality; ko | `Grid`, `Rules` |
| truncated liberty lists as an abstraction of sets | `LibList` |
| the board's routines as functions on a state value | `Engine`, `Undo` |
| the invariant, also in the middle of a move, and what keeps it | `Invariant`, `Steps`, `Captures`, `Moves`, `Books`, `Refinement`, `PlayTheorem`, `EyeMoves` |
| the board against the rules, runs, ko, legality; what it remembers of the moves | `BoardTheorem`, `Reachable`, `KoTheorem`, `Legality`, `MoveRecord` |
| exact undo | `UndoTrace`, `UndoPlay`, `UndoLoop`, `UndoSplit`, `UndoStones`, `UndoRestore`, `UndoCounts`, `UndoCore`, `UndoFrame`, `UndoSuicides`, `UndoTheorem` |
| the same routines in place, on arrays | `EmptyBoard`, `GoBoard` (class `Board`), `BoardUndo`, `LadderBoard` |
| scoring, territory, nakade | `Scoring`, `TerritoryScore`, `Nakade` |
| ladders: the game, the part of it that is searched, and the reader | `LadderRules`, `SearchedLadder`, `CounterCaptures`, `FreeingCaptures`, `Ladder`, `LadderExact`, `LadderLine` |
| the game wrapper | `Symmetry`, `History`, `Notation`, `SymmetricHistory`, `PassKo`, `RefusedMoves`, `GameBoards` (class `GameBoard`) |
| search and evaluator as steps that interleave freely; both read off the list of their actions | `SearchTree`, `Rerooting`, `SearchLog`, `Evaluator`, `EvaluatorLog` |

`Grid` and `Rules` never look at the board's data structures: connection is reachability along paths, a chain is alive
if a path leads to a point beside an empty one, and `Turn` puts a stone, clears the other colour, then the own colour.
`Sound(s)` says that a state is a right picture of its grid: the grid has an off-board margin, the links of every chain
form a finite duplicate-free list that is one maximal connected component, every liberty list holds distinct true
liberties and all of them when it is short, every chain has a liberty, and the counts, free list, atari list and hash
are exact. Boards have any shape inside a margin; size and hash keys are parameters. `Quick(s)` is the state as the
quick routines see it, without the indexes they do not keep up.

Each in-place method ends in exactly the state the corresponding function computes (`Snap() == F(old(Snap()))`), so the
lemmas about the functions are about the arrays too.

## Model

| member | source | states |
|---|---|---|
| BoardTheorem.PlayRefinesStep | external/pachi/board_play.h:400-454 | From every sound board and for every stone or pass, the incremental move is accepted exactly if the move is legal (point empty, not the banned recapture, no one-stone suicide); grid and ko are then exactly those of the plain rule; a refused move leaves every field as it was; everything the board maintains is right again; per colour, stones left plus stones taken grow by the stone played. |
| BoardTheorem.OutsideRefines | external/pachi/board_play.h:282-315 | Outside an eye every move on an empty point is accepted, the grid becomes the turn of the rule (multi-stone suicide included), and the ko is cleared. |
| BoardTheorem.EyeRefuses | external/pachi/board_play.h:317-340 | Inside an eye of the other colour the test "this is the ko point, or no neighbouring chain is in atari" refuses exactly the illegal moves, and refusing changes nothing. |
| BoardTheorem.EyeRefines | external/pachi/board_play.h:341-397 | An accepted move into an eye leaves the turn of the rule on the grid and stores exactly the recapture the rule bans, none if it took more than one stone. |
| BoardTheorem.EyeAgrees | external/pachi/board_play.h:341-366 | The eye loop and the general neighbour loop leave the same board, and the eye loop's counter tells apart "nothing taken", "this one stone taken" and "at least two". |
| EyeMoves.EyelikeIff | external/pachi/board.h:419-424 | The eye test on neighbour counts holds exactly if all four neighbours are of that colour or off the board. |
| EyeMoves.NoAtariSuicide | external/pachi/board_play.h:325-340 | With no neighbouring chain in atari a stone in an eye captures nothing and is cleared by its own turn. |
| Refinement.PlayOneStep | external/pachi/board_play.h:244-280 | One neighbour of the played point, whatever it is (empty, margin, friend joined, friend merged, enemy reduced, enemy captured), keeps the mid-move invariant, with the played point still empty on the grid. |
| PlayTheorem.OutsideDown | external/pachi/board_play.h:282-315 | After the four neighbours and the drawing of the stone, chains, lists and indexes are right, apart from a possible suicide of the own chain, and stones are accounted for. |
| PlayTheorem.EndMove | external/pachi/board_play.h:299-310 | If the own list came out empty, taking the own chain off gives exactly the grid of the rule; otherwise the grid is already that one. No other chain of either colour dies. |
| Moves.EmptyListIsDead | external/pachi/board_play.h:262-275 | An enemy chain whose truncated list becomes empty during the loop has no liberty at all on the grid with the new stone. |
| Steps.RemoveLibW | external/pachi/board_play.h:56-96 | Striking the played point from a liberty list, with the refill at five entries, leaves a list of distinct true liberties, complete when short, and touches no other chain. |
| Steps.JoinW | external/pachi/board_play.h:146-161 | Threading a stone into a chain keeps linked lists, components, ids and liberty lists right. |
| Steps.MergeW | external/pachi/board_play.h:164-213 | Splicing and renaming one chain into another does so too; the merged list truncates at ten. |
| Captures.CaptureW | external/pachi/board_play.h:99-143 | Removing a chain stone by stone along its links, each stone giving liberties back to the chains around it, keeps the invariant and empties exactly the points with its id. |
| LibList.FillSteps | external/pachi/board_play.h:28-53 | Refilling a list keeps its entries as a prefix, adds only distinct candidates other than the avoided point, and finds all of them unless it is full. |
| Invariant.AroundIsTouch | external/pachi/board_play.h:28-53 | The scan along a chain's links finds exactly the empty points that touch the chain. |
| Books.CaptureBooks | external/pachi/board_play.h:99-143 | Captures keep neighbour counts, free list, atari list and hash exact in the middle of a move, and add the stones to the right tally. |
| Books.MergeBooks | external/pachi/board_play.h:164-213 | Merging keeps the atari list exact, including the removal of a merged chain that was on it. |
| Books.TakeFreeBooks | external/pachi/board.c:752-766 | Taking the played point off the free list by moving the last entry into its place keeps list and inverse map exact. |
| Reachable.RunRefinesGame | external/pachi/board_play.h:400-454 | Any sequence of offered moves from a sound board, refused ones included, ends in a sound board whose grid and ko are those of the same game by the rules. |
| Reachable.RunFromEmpty | external/pachi/board.c:212-238 | In particular from the empty board: every reachable board is sound and is the rules' board, and (off Siming rules) per colour the stones played are those left plus those captured. |
| Reachable.ChainIsComponent | external/pachi/board_play.h:127-214 | In a sound state the links from a chain's base form a finite, 0-terminated list without repetition, which is exactly the connected component of the stone; the id array names it for every member and for no other point. |
| Reachable.ListedLiberties | external/pachi/board_play.h:3-94 | Every chain's list holds distinct true liberties, at least one, and all of them if it has at most five entries. |
| Reachable.AtariMeansOneLiberty | external/pachi/board.h:53-61 | A list of length one means exactly one liberty on the grid. |
| Reachable.UnusedListsEmpty | external/pachi/board_play.h:127-214 | A list that no chain owns is empty. |
| Reachable.IndexesExact | external/pachi/board.c:873-916 | Free list without repetition and its inverse map are the empty points; the atari list without repetition is the set of bases of chains with one liberty; counts are the neighbours' colours; the hash is the exclusive-or over all stones (bit by bit in `MoveRecord.HashIsParity`). |
| Reachable.MovesAreStones | external/pachi/board.c:768-782 | Off Siming rules, after any run from the empty board the move counter less both pass counters equals the stones on the board plus all captures. |
| MoveRecord.MoveRecorded | external/pachi/board_play.h:376-454 | An accepted move is the last one remembered and pushes the older ones back by one place; it counts as a move, a pass of its colour counts as such, and a ko it sets becomes the last ko, with the number of the move. |
| MoveRecord.LastMovesKept | external/pachi/board.c:768-782 | After any run on a full board the entry j places behind the last, for j below four, is the j-th last move the rules accepted, passes included, or what was there before the run. |
| MoveRecord.RunRecorded | external/pachi/board.c:768-782 | After any run, under all rulesets: the move counter grows by the moves the rules accept, each pass counter by the passes of its colour, and per colour the stones put down are on the board or among the other's captures, to which Siming rules add the passes. |
| MoveRecord.RecordFromEmpty | external/pachi/board.c:212-238 | From the empty board: last moves, move and pass counters and the captures of each colour, in terms of the list of accepted moves and the grid alone. |
| MoveRecord.TrialRecorded | external/pachi/board_undo.c:102-109 | A move tried on the quick board is the last one remembered there, the one before it the second last, and the other two entries stay. |
| MoveRecord.HashIsParity | external/pachi/board.c:784-792 | On a sound full board a bit is in the hash if and only if an odd number of points hold a black stone whose black key has the bit or a white stone whose white key has it. |
| Reachable.MovesCounted | external/pachi/board.c:768-782 | The move counter grows exactly with an accepted move and a pass counter exactly with a pass. |
| KoTheorem.NoReplyRestores | external/pachi/board_play.h:317-385 | After any accepted stone, an opponent's stone on an empty point would restore the previous grid by the rule if and only if it is the move stored as ko; so no accepted reply of the opponent restores it. |
| KoTheorem.KoIsExact | external/pachi/board_play.h:359-385 | The same on a bare grid whose chains have liberties before and after the move, for the ban the rules define: only the recapture of a single stone taken from within an eye restores the position. |
| Legality.ValidPlayIff | external/pachi/board.h:427-441 | The quick test holds exactly if the board accepts the move, and exactly if the rules allow it. |
| Legality.ValidPlayNoSuicideIff | external/pachi/board.h:443-467 | The stricter test holds exactly if the move is accepted and its stone is still there afterwards. |
| Legality.SelfAtariIff | external/pachi/tactics/selfatari.h:75-90 | On an empty point the self-atari test, short cut and trial play alike, is false exactly if the move is legal, its stone stays, and its chain has at least two liberties. |
| UndoTheorem.QuickUndoExact | external/pachi/board_undo.c:113-335 | Quick play followed by quick undo gives the same state in every field, list order and stale links included, if and only if the move is not a pass under Siming rules; a refused quick play changes nothing. |
| UndoTheorem.QuickPlayRefinesStep | external/pachi/board_undo.c:113-131 | The quick board follows the rules of the game as the full one does. |
| UndoTheorem.TrialsLeaveNoTrace | external/pachi/board_undo.h:57-88 | Any finite nesting and sequence of trial moves, each taken back, leaves the state as it was, provided no Siming pass is among them. |
| UndoTheorem.PassBack | external/pachi/board_undo.c:311-335 | What a pass taken back leaves: nothing, or under Siming rules one capture too many for the opponent. |
| UndoTheorem.StayedBack | external/pachi/board_undo.c:215-245 | The case of a stone that stayed: plain moves, joins, merges of up to four chains, captures. |
| UndoTheorem.DrownedBack | external/pachi/board_undo.c:247-308 | The case of a multi-stone suicide: the chain is put back like a captured one and then split. |
| UndoLoop.TraceLoop | external/pachi/board_undo.c:35-86 | After each neighbour, board and record together determine the board before the move, although captures and merges happen in between. |
| UndoSplit.SplitLoop | external/pachi/board_undo.c:135-175 | Splitting merged chains in reverse order gives back every link, id and list of the chains before the merge. |
| UndoRestore.RepairOne | external/pachi/board_undo.c:178-213 | Striking a restored stone from the list of a chain far from the played point gives a list that still begins with the original one and otherwise holds missing stones only, even if the list had overflowed at ten or a refill fires on the half-restored board. |
| UndoRestore.RestoreHalf | external/pachi/board_undo.c:178-213 | Putting back the chains of the record one by one keeps that true for all chains, so that nothing differs at the end. |
| Scoring.OfficialScore | external/pachi/board.c:630-680 | The scoring method with its in-place sweeps ends; a blank board is reported; otherwise occupied points keep their start owner (dead chains count for the other colour), every empty point gets a colour exactly if it reaches only that colour along empty points, dame exactly if it reaches both, and the totals are the sizes of the two areas; under stones-only rules all empty points are dame; on a square board no point is left unset. |
| Scoring.FloodFill | external/pachi/board.c:521-563 | Sweeping in place until nothing changes ends, and ends in a grounded, supported fixpoint. |
| Scoring.FixpointIsReach | external/pachi/board.c:521-563 | At such a fixpoint the owner of every empty point is its reachability: dame, one colour or unset, each if and only if. |
| Scoring.SweepLoad | external/pachi/board.c:521-563 | A sweep that reports a change has lowered the weight "unset two, colour one, dame nothing"; one that does not has changed no owner. |
| Scoring.NothingUnset | external/pachi/board.c:664-668 | On a square board with a stone, every empty point reaches a colour, so the assertion after the sweeps holds. |
| Scoring.ScoresRight | external/pachi/board.c:630-680 | The counts over the final owners are the cardinalities of the two areas defined by reachability. |
| Scoring.StartOwnerExact | external/pachi/board.c:648-657 | On the grid: a stone counts for the other colour if and only if it is connected to a stone named dead. |
| TerritoryScore.OfficialResult | external/pachi/board.c:630-680 | The number handed back: komi alone on a board without stones, otherwise komi, compensation and areas, or stones under stones-only rules. |
| TerritoryScore.AreaIsTerritory | external/pachi/board.c:630-680 | The area of a colour is its territory, points of dead enemy stones included, and its stones that are not dead. |
| TerritoryScore.JapaneseExact | external/pachi/board.c:585-601 | After any moves from the empty board the Japanese score, computed from areas, the last move and the passes, is the count of territory and prisoners if and only if the accepted moves of black outnumber those of white by exactly what compensation and last move account for. |
| TerritoryScore.JapaneseScore | external/pachi/board.c:565-601 | So it is exact in every game by turns, with any number of handicap stones played first. |
| GoBoard.Board.constructor | external/pachi/board.c:170-210 | The arrays drawn by the margin, neighbour and free-point loops are exactly the cleared state, which is sound. |
| GoBoard.Board.Play | external/pachi/board_play.h:400-454 | The whole move on arrays: acceptance, grid, ko and soundness as in the rules, every field as the move function says, nothing changed on refusal. |
| GoBoard.Board.PlayOne | external/pachi/board_play.h:244-280 | One neighbour of the played point, in place, in exactly the state of the function. |
| GoBoard.Board.FindExtraLibs | external/pachi/board_play.h:28-53 | The refill with its watermark, walking the links until the list is full, yields the same list as the full scan. |
| GoBoard.Board.RemoveLib | external/pachi/board_play.h:56-96 | The strike by moving the last entry, with refill and atari bookkeeping, as the function; other chains untouched. |
| GoBoard.Board.Capture | external/pachi/board_play.h:127-143 | The removal along the links while the links are being read, and the number of stones returned. |
| GoBoard.Board.Merge | external/pachi/board_play.h:164-213 | The list append while there is room, the renaming walk and the splice. |
| GoBoard.Board.AtariRemove | external/pachi/board.c:894-916 | The removal from the atari list; its callers meet the condition under which the search for the chain succeeds. |
| GoBoard.Board.IsValidPlay | external/pachi/board.h:427-441 | The test on arrays equals legality by the rules. |
| BoardUndo.TryMove | external/pachi/board_undo.c:113-131 | Quick play on arrays: state, answer and record as the functions say. |
| BoardUndo.TakeBack | external/pachi/board_undo.c:311-335 | Quick undo on arrays ends in the state before the move; after a Siming pass one capture remains. |
| BoardUndo.PutEnemiesBack | external/pachi/board_undo.c:178-213 | Captured chains put back stone by stone, with the repair of distant lists, in place. |
| BoardUndo.TryOut | external/pachi/board_undo.h:57-88 | Nested trials on the live board leave it as it was. |
| BoardUndo.IsSelfAtari | external/pachi/tactics/selfatari.h:75-90 | The test on the live board answers as the function and leaves the board as it was. |
| CounterCaptures.SnapbackExact | external/pachi/tactics/1lib.c:16-42 | The snapback test on lists and counts decides the snapback condition stated on the grid. |
| CounterCaptures.CounterCapturesExact | external/pachi/tactics/1lib.c:77-106 | The queue of counter-captures holds exactly the legal moves that capture a neighbouring chain in atari and are no snapback. |
| Ladder.ChaseSound | external/pachi/tactics/ladder.c:79-134 | If the chaser's reading finishes with a length other than 0, the chaser wins the ladder game by the rules: some legal atari whose stone stays leaves the escaper without a good reply, within the fuel as number of ataris. |
| Ladder.ChaseFromSound | external/pachi/tactics/ladder.c:113-131 | The same for the loop over the ataris. |
| Ladder.FleeSound | external/pachi/tactics/ladder.c:173-202 | If the escaper's reading finishes with a length other than 0, then the chain is in atari and after every legal reply, the escape and every counter-capture, the chaser wins. |
| Ladder.EscapesSound | external/pachi/tactics/ladder.c:136-162 | If no counter-capture is found to escape, the chaser wins after each one that can be played. |
| Ladder.WouldBeSound | external/pachi/tactics/ladder.c:271-293 | If a chasing move is read as a ladder, it is an atari by the rules that no reply answers. |
| Ladder.ChaseMore | external/pachi/tactics/ladder.c:79-134 | A finished answer does not change with more fuel. |
| Ladder.FleeMore | external/pachi/tactics/ladder.c:173-202 | The same for the escaper's reading. |
| Ladder.EscapeAccepted | external/pachi/tactics/ladder.c:193-199 | The escape of a chain in atari is always accepted, so the strict trial never stops the program. |
| Ladder.TryAccepted | external/pachi/tactics/ladder.c:136-162 | A counter-capture that passes the quick test is accepted, so that strict trial never stops the program either. |
| Ladder.ChaseLen | external/pachi/tactics/ladder.c:79-134 | Whether an answer is finished, and whether it is 0, does not depend on the length handed down, unless the chain is caught already and a length is 0. |
| Ladder.MiddleLadderSound | external/pachi/tactics/ladder.c:206-228 | A chain in atari that is said to be in a ladder is lost by the rules after every legal reply. |
| FreeingCaptures.CounterFrees | external/pachi/tactics/ladder.c:136-162 | On a square board whose chains have liberties, capturing a chain in atari beside the chain, other than in a snapback, leaves the chain on the board with at least two liberties. |
| LadderExact.NeverCaught | external/pachi/tactics/ladder.c:154-157 | So every counter-capture of the queue is accepted and leaves the chain neither captured nor in atari, and the length 0 handed down for it cannot be mistaken for an escape. |
| LadderExact.ChaseDecides | external/pachi/tactics/ladder.c:79-134 | On a square board a finished answer of the chaser's reading is non-zero if and only if the chaser wins the searched game in some number of ataris, for a chain that is not caught already or a length above 0. |
| LadderExact.FleeDecides | external/pachi/tactics/ladder.c:173-202 | On a square board a finished answer of the escaper's reading is non-zero if and only if the escaper loses the searched game: no ko beside the chain, and the chaser wins after the escape and after every counter-capture. |
| LadderExact.MiddleLadderDecides | external/pachi/tactics/ladder.c:206-228 | The entry for a chain in atari says "ladder" if and only if its liberty has two empty neighbours and the escaper loses the searched game. |
| LadderExact.WouldBeDecides | external/pachi/tactics/ladder.c:271-293 | The entry for a chasing move says "ladder" if and only if, in the searched game, the move is legal, its stone stays and the escaper loses after it. |
| LadderExact.WideNeverHolds | external/pachi/tactics/ladder.c:98-108 | An atari the reader leaves out, for too much free space at the escape, never holds: escaping gives the chain three liberties. |
| LadderExact.KoExact | external/pachi/tactics/ladder.c:178-185 | The ko test of the reader says that the last move set a ko beside the chain of connected stones. |
| LadderExact.ReachedSquare | external/pachi/board.c:170-210 | Every board a game from the empty square one reaches is square, so the reader is exact on all of them. |
| LadderLine.ChaseLine | external/pachi/tactics/ladder.c:79-134 | A finished length other than 0, less the length handed down, is the number of ataris on a line of legal moves, each atari answered by running, that ends with the chain caught. |
| LadderLine.FleeLine | external/pachi/tactics/ladder.c:173-202 | The same for a chain in atari, its first escape included. |
| LadderLine.AtariOrder | external/pachi/tactics/ladder.c:95-113 | Of two ataris worth trying the one with more empty points around is tried first; with equally many, the order is that of the liberty list. |
| LadderLine.ChaseDeep | external/pachi/tactics/ladder.c:79-134 | A reading stays unfinished only if there is a line of more ataris than its fuel, all legal and with legal replies. |
| LadderLine.FleeDeep | external/pachi/tactics/ladder.c:173-202 | The same for the escaper's reading. |
| SearchedLadder.SearchWinsMore | external/pachi/tactics/ladder.c:79-134 | A win in the searched game is one with more ataris allowed, and a win in the ladder game by the rules. |
| LadderRules.AtariLeaves | external/pachi/tactics/ladder.c:117-128 | A stone on one of exactly two liberties that stays on the board leaves exactly the other one. |
| LadderBoard.Chase | external/pachi/tactics/ladder.c:79-134 | The recursive reader on the live board: on every return the board is as it was, and the answer is that of the reading function. |
| LadderBoard.ChaseAll | external/pachi/tactics/ladder.c:113-131 | The loop over ataris with an early return out of a trial: the same. |
| LadderBoard.Flee | external/pachi/tactics/ladder.c:173-202 | Ko check, counter-captures, escape: the same. |
| LadderBoard.CounterEscapes | external/pachi/tactics/ladder.c:136-162 | The loop over counter-captures: the same. |
| LadderBoard.FindCounters | external/pachi/tactics/1lib.c:77-106 | The loops along the chain and over neighbours fill the queue in the order of the function. |
| LadderBoard.IsMiddleLadder | external/pachi/tactics/ladder.c:206-228 | The entry that asks for two empty points beside the liberty: the board is as it was, the answer is that of the function, and if it is "ladder" the chain is lost by the rules. |
| LadderBoard.WouldBeLadder | external/pachi/tactics/ladder.c:271-293 | The entry for a chasing move: the same, and "ladder" means an atari by the rules that no reply answers. |
| LadderBoard.IsValidPlayNoSuicide | external/pachi/board.h:443-467 | The stricter test on arrays equals the function. |
| Nakade.NakadeArea | external/pachi/tactics/nakade.c:14-46 | -1 exactly if the empty region has more than six points or touches a stone of the other colour; otherwise the array lists exactly the region, without repetition. |
| Nakade.GetNeighbors | external/pachi/tactics/nakade.c:48-67 | Every point's number of neighbours in the region, and the exact histogram of these numbers. |
| Nakade.ThreeInLine | external/pachi/tactics/nakade.c:80-82 | A region of three points has exactly one point with two neighbours, so the assertion cannot fail. |
| Nakade.NakadePoint | external/pachi/tactics/nakade.c:97-110 | In a region of at most six points that touches no stone of the other colour, the answer is the one point with the number of neighbours its shape asks for, and a pass for the other shapes and regions. |
| Nakade.VitalIsCentre | external/pachi/tactics/nakade.c:69-96 | When there is a vital point, it is a point of the region and every other point of the region has strictly fewer neighbours in it. |
| Nakade.NakadeDeadShape | external/pachi/tactics/nakade.c:113-131 | True exactly for such regions of at most three points, the square four, the pyramid four, the bulky and the crossed five, and the rabbity six. |
| Symmetry.MapsAreSymmetries | include/Symmetry.h:9-63 | Each of the eight maps, and the identity that stands for an unknown number, has its revert as inverse on both sides, stays on the board and keeps neighbours. |
| Symmetry.MapNumbers | include/Symmetry.h:9-63 | Which number is which map: 1 the quarter turn and 4 the mirror, fixed by the images of named points; 2 and 3 repeat the turn, 5 to 7 are turns after the mirror; any other number is the identity. |
| Symmetry.TurnPictured | include/Symmetry.h:9-63 | One turn of the rules on the image of a position is the image of the turn. |
| Symmetry.StonePictured | include/Symmetry.h:9-63 | Legality, resulting position and ko ban commute with every symmetry. |
| SymmetricHistory.TurnHistory | include/Symmetry.h:108-131 | The loop over the history string, with its byte arithmetic, computes the turned history. |
| SymmetricHistory.TurnedBack | include/Symmetry.h:108-131 | A symmetry and then its inverse give back every history of stones and passes. |
| SymmetricHistory.TurnedHistoryTheorem | include/Symmetry.h:108-131 | On boards that are images of one another, a turned history of stones and passes is replayed without a refusal exactly if the original is, and yields the image of its position and ko. |
| SymmetricHistory.TurnedGame | include/Symmetry.h:108-131 | In particular on two freshly constructed objects, whatever their hash keys. |
| SymmetricHistory.ResignationTurned | include/Symmetry.h:108-131 | A turned resignation is still read as no stone exactly for the identity and one mirror; under the other maps it becomes letters that name no point of the board. |
| SymmetricHistory.ReplayFollowsRules | src/GoBoard.cpp:58-79 | A replayed history leaves the position and ko of its stones played by the rules without its passes; `PassKo` says what the passes change. |
| PassKo.ReplayAndRules | src/GoBoard.cpp:58-79 | Against the game the rules make of the history with its passes, the grids are always equal; the ko of the rules is none right after a pass and the stored one otherwise. |
| PassKo.PassKoExact | src/GoBoard.cpp:18-49 | The next stone is judged differently by wrapper and rules if and only if the move before was a pass, the stone is the banned retake, and it is no suicide. |
| PassKo.PassesDisagree | src/GoBoard.cpp:18-49 | A game of eight moves on a new object after which it happens: a corner ko, two passes, and the retake that the rules allow is refused. |
| History.ReplayRebuilds | src/GoBoard.cpp:18-79 | After any run of stones, passes and resignations on a fresh object, refused ones included, replaying its history on a fresh object rebuilds board, ko, hash, history and window; the repetition flag is that of the replay, raised also if a move was refused. |
| History.AcceptedRunRebuilt | src/GoBoard.cpp:18-79 | Without refusals the whole object is rebuilt. |
| History.RebuiltExactly | src/GoBoard.cpp:18-79 | The whole object is rebuilt if and only if no move was refused or the replay raises the flag by itself. |
| RefusedMoves.SamePointTwice | src/GoBoard.cpp:31-49 | The same point played twice on a new object: the second move is refused and raises the flag, the replay of the history does not. |
| History.WindowIsLast | include/GoBoard.h:165-184 | After any run the window holds the last eight of the hashes it started with and those stored since. |
| History.StoneSane | src/GoBoard.cpp:31-49 | A stone is accepted exactly if legal, leads to the rules' position, and its hash is in the window afterwards. |
| GameBoards.GameBoard.constructor | include/GoBoard.h:123-133 | A new object is the fresh 19 by 19 table with its window of eight zero hashes. |
| GameBoards.GameBoard.ApplyMove | src/GoBoard.cpp:18-29 | The object after a move for the colour to play, field by field; a refused stone is not added to the history. What is written and whose stone it is: `Notation.PassesWritten`, `Notation.PlayedByTurns`. |
| Notation.PassesWritten | include/GoBoard.h:67-79 | A pass adds ZP to the history and a resignation ZR, and neither changes anything else. |
| Notation.HistoryReads | include/GoBoard.h:61-79 | The history of any run reads back, pair by pair and by the convention for points, passes and resignations, as exactly its accepted actions. |
| Notation.ProperExactly | include/GoBoard.h:61-79 | It is a history of stones and passes, as the symmetry theorems want it, if and only if nobody resigned. |
| Notation.PlayedByTurns | src/GoBoard.cpp:18-49 | Black and white take turns in the accepted actions, passes and resignations included; a named point is accepted exactly if the stone of that colour is legal at its place on the padded board, and the rules' position follows. |
| Notation.RepeatedExactly | src/GoBoard.cpp:41-47 | After any run the repetition flag is raised if and only if it was before or some named point, refused or not, left a hash the window had then. |
| GameBoards.GameBoard.ApplyHistory | src/GoBoard.cpp:58-79 | Replaying, up to the stop at the first refused move. |
| GameBoards.GameBoard.StoreHash | include/GoBoard.h:177-184 | The new hash is in the window, which is the end of the old one with it, one longer only if there was room. |
| SearchTree.SearchConserves | src/MCTSTree.cpp:260-274 | Along every interleaving, from a state where it holds, of selections, replies and single backup steps: a node's visits and values are those of its children plus the backups begun there less those still on the way; a node's total is its children's visits; virtual loss is accounted for; values stay within the visits. `SearchLog` says what began where. |
| SearchTree.BareConserved | src/MCTSPlayer.cpp:64-74 | A search that begins with a bare root begins with its statistics conserved. |
| SearchLog.SearchLogged | src/MCTSPlayer.cpp:205-331 | Along every search from a bare root, from the actions alone: the backups begun at each node and their sum are the replies for it and the finished games reached there, with their values; so are the selections dropped for repetition or too late, whether it was asked for, run into and answered, and the number of its children and of all nodes. |
| SearchLog.SearchEdges | src/MCTSTree.cpp:260-274 | At every moment, the visits and the win sum of an edge are the number and the sum of the values the actions brought to nodes below it, less those of the backups still below. |
| SearchLog.ArrivedEdges | src/MCTSTree.cpp:260-274 | Once every backup has arrived, they are that number and that sum. |
| SearchLog.SearchBackups | src/MCTSTree.cpp:260-274 | The i-th backup carries the i-th value brought, from its node as many edges up as it has made steps. |
| SearchLog.SearchRoot | src/MCTSTree.cpp:260-274 | Nothing is ever put on an edge of the root. |
| Rerooting.SubtreeConserved | src/MCTSPlayer.cpp:76-93 | Going on with the subtree of a node after a move, whatever is outstanding there: the new search holds exactly the nodes below it, each with all its statistics, and everything stays conserved. |
| SearchTree.CountsConserved | src/MCTSTree.cpp:260-274 | One step keeps visit counts, win sums and the fathers' totals in step. |
| SearchTree.LossConserved | src/MCTSPlayer.cpp:282-331 | One step keeps, on every edge, virtual loss = unit times the selections through it that are outstanding, being backed up, dropped for repetition, or come too late. |
| SearchTree.IdleLoss | src/MCTSPlayer.cpp:218-231 | Once nothing is outstanding, virtual loss is zero everywhere if and only if no rollout was dropped for repetition and none reached a leaf whose reply was already taken; otherwise every edge above keeps at least that much. |
| SearchTree.WinRateInRange | src/MCTSPlayer.cpp:78-80 | With values between -1 and 1, the win rate shown for a node, with the small constant added to its divisor, lies between 0 and 1, also before the first visit. |
| Evaluator.StepConserves | src/PolicyValueEvaluatorClient.cpp:85-145 | Every step of every producer, sender and reply keeps five balances: queue slots, announced items, request ids, the pending count and send windows; and the queue is long enough for every claim. How much is taken and in which order is in `EvaluatorLog`. |
| Evaluator.StartInv | src/PolicyValueEvaluatorClient.cpp:8-50 | The five balances hold of a new client of any size, batch, window and number of senders. |
| Evaluator.RunConserves | src/PolicyValueEvaluatorClient.cpp:85-145 | They hold all along every run that starts with them, of any number of parties in any order. |
| Evaluator.ClaimCovered | src/PolicyValueEvaluatorClient.cpp:100-125 | The send queue is never popped when it is too short. |
| Evaluator.NoCallbackTwice | include/PolicyValueEvaluatorClient.h:55-91 | No callback runs twice, and none that was not requested. |
| Evaluator.AllRun | include/PolicyValueEvaluatorClient.h:55-91 | None is lost: with nothing left to queue, queued, held or sent, every request has been called back. |
| Evaluator.WindowBound | src/PolicyValueEvaluatorClient.cpp:167-192 | A sender's requests in flight, dummies and unpaid failures included, never exceed its window. |
| Evaluator.PendingMeans | include/PolicyValueEvaluatorClient.h:82-91 | The pending count is zero exactly if nothing is queued, held or sent; every request has been called back then if and only if no failed or new request still waits to be queued. |
| Evaluator.FailureHidesRequests | include/PolicyValueEvaluatorClient.h:82-91 | When the last pending batch fails, the count is zero while its requests have not been called back. |
| EvaluatorLog.RunFits | src/PolicyValueEvaluatorClient.cpp:114-125 | In every run of a new client no claim, no batch held by a sender and no flight has more requests than the batch size. |
| EvaluatorLog.ClaimsMost | include/Utils.h:55-70 | A claim takes a whole batch, or else everything announced; at least one request, if batches are not empty; and nothing leaves the queue yet. |
| EvaluatorLog.FirstInFirstOut | src/PolicyValueEvaluatorClient.cpp:114-125 | In every run of a new client the ids pushed so far, in order, are the ids popped so far followed by the queue. |
| EvaluatorLog.SenderInOrder | src/PolicyValueEvaluatorClient.cpp:114-128 | What a sender pops it sends, in the same order. |
| EvaluatorLog.FlightInOrder | include/PolicyValueEvaluatorClient.h:55-76 | The callbacks of a batch that does not fail run in the order of the batch. |
| EvaluatorLog.FailedBatch | include/PolicyValueEvaluatorClient.h:80-91 | Of a batch that fails no callback has run, and a new producer queues all of it for the same sender. |
| EvaluatorLog.ProducerInOrder | src/PolicyValueEvaluatorClient.cpp:171-176 | A producer queues its requests from first to last. |
| EvaluatorLog.EverybodyStands | src/PolicyValueEvaluatorClient.cpp:85-145 | In every run each producer, sender and flight stands where its own last action puts it, a request is issued exactly if it was made, and sizes and window stay those of the start. |

## Promises the code does not keep, and when it does

- **Undo of a pass.** Quick undo does not take back the stone a pass gives under Siming rules. The round trip is exact
  if and only if the move is no pass or the rules are others (`UndoTheorem.QuickUndoExact`, `UndoTheorem.PassBack`).
- **Replay and the repetition flag.** A refused move leaves the hash as it was, so the check finds it in the window and
  raises the flag although nothing was repeated. A replay rebuilds the whole object if and only if no move was refused
  or the replay raises the flag by itself (`History.RebuiltExactly`); everything else is always rebuilt
  (`History.ReplayRebuilds`). Playing one point twice is an input where it fails (`RefusedMoves.SamePointTwice`).
- **Resignations under symmetry.** Only the letters `ZP` are passed through, so `ZR` is turned as if it were a point.
  It is still read as no stone if and only if the map keeps its column (`SymmetricHistory.ResignationTurned`).
- **Passes in the wrapper.** The wrapper puts passes into the history but does not play them on the board, so a pass
  does not lift the ko there, while a pass played on the board does. Wrapper and rules judge a stone differently if and
  only if it is the banned retake, comes right after a pass and is no suicide (`PassKo.PassKoExact`); after
  `CaAbBbZPAaBaZPZP` on a new object the retake at the corner is refused (`PassKo.PassesDisagree`).
- **Japanese score.** It is derived from areas, the last move and the passes, which counts territory and prisoners if
  and only if the surplus of black's accepted moves is what the handicap and the last move explain
  (`TerritoryScore.JapaneseExact`); games by turns meet this (`TerritoryScore.JapaneseScore`).
- **Virtual loss.** It returns to zero if and only if no rollout was dropped for repetition and none reached its leaf
  after the reply had been backed up (`SearchTree.IdleLoss`).
- **Pending requests.** The count falls when a batch fails, before its requests are queued again. Zero means that all
  have been answered if and only if nobody still holds requests to be queued (`Evaluator.PendingMeans`,
  `Evaluator.FailureHidesRequests`).

## Left out

- Ladder.ChaseSound: partial correctness; the code bounds its recursion by nothing but the board, the functions carry a fuel. `Ladder.ChaseMore` shows that fuel decides nothing but whether the reading is finished, and `LadderLine.ChaseDeep` that an unfinished one has met a line of more ataris than its fuel; that all such lines end is not proved.
- LadderExact.FleeDecides: on square boards, which all boards of a game are; the searched game gives up at a ko set beside the chain, as the code does, so a ladder that only a ko fight decides is read as none.
- LadderBoard.Chase: the same fuel; running out is reported as "not done". The capacity of the move queue is not modelled.
- LadderBoard.IsMiddleLadder: the wrapper that first looks for a ladder along the border, and `useful_ladder`, are not modelled.
- Scoring.FillPoint: the code counts an unset neighbour at index -1 of an array of four (external/pachi/board.c:534-537), which is outside it; the model takes such a neighbour to count for nothing.
- Scoring.OfficialScore: komi and compensation are added by `TerritoryScore.OfficialResult`, over real numbers; the seki count taken from playout statistics is not modelled. The square board is assumed only where no point must be left unset.
- SearchTree.SearchConserves: between two moves, for a fixed root; `Rerooting` covers the move to a child. Selections choose any eligible child (the PUCT score and pruning are not modelled), a selection and the arrival of a reply are one step each, a backup is one step per edge, and win sums are real numbers. Terminal flags that spread upwards are not modelled: nothing in the live code ever seeds one.
- Evaluator.RunConserves: the remote call is "later exactly one of success or failure arrives"; steps are atomic. Weak memory, wake-up order, waiting with a time limit, latency records, the synchronous request path and shutdown are not modelled, and no progress is claimed.
- History.ReplayRebuilds: the window of eight hashes is compared as the code does; that equal hashes mean equal positions is not claimed.
- Reachable.MovesAreStones: for the other rules only, since under Siming rules passes add captures; `MoveRecord.RunRecorded` has the account for all of them.
- GoBoard.Board.Play: the 64-bit hash is modelled as the set of its one bits, the fixed capacity for chains is taken as large enough, and the compiled-out 3x3 pattern hashes, the 16-entry superko history, the move-number array, fixed-handicap set-up and the opening book are not modelled.
- BoardUndo.TakeBack: the undo record is a value; the C record of fixed size is not, so its capacity for captured stones is not modelled.
- UndoTheorem.TrialsLeaveNoTrace: the marker that catches a jump out of a trial body is a debugging aid and not modelled.
- Random playout moves, `board_fast_score`, false eyes, `ownermap`, dragon, seki, two-liberty tactics, most of `selfatari.c`, patterns and common-fate distances: heuristics or tables without a crisp specification.
- Move selection, resigning, time management, GTP, logging, configuration, proxies and printing: tuning and plumbing.
