# Interstellar search, map loading and credit-card automaton — a Dafny model

This project models the algorithmic core of *universo_de_algoritmos*, a Python game
in which a ship crosses a grid of cells from an origin to a destination while paying an
energy cost per cell. Black holes block cells, giant stars destroy adjacent black holes,
wormholes teleport the ship, recharge zones multiply its energy and some cells demand a
minimum charge. The repository also has a generic deterministic finite automaton (DFA)
validator and a credit-card automaton built on it.

Modules:

- `Grid` (`grid.dfy`) holds the cells, the move list Right, Left, Down, Up that both
  search engines use, bounds and adjacency.
- `GameSpec` (`game_spec.dfy`) holds the search of `GameLogic.solve` as functions:
  - `Expand` is one iteration of the loop for one popped stack entry.
  - `Search` and `SearchStack` give the depth-first result over the whole stack.
  - Termination is proved by the weight Σ 17^(unvisited cells) over the stack.
  - A frame invariant shows that every returned path is a legal walk under the game's
    rules.
- `GameLogic` (`game_logic.dfy`) is the class `GameLogic` with the imperative
  `Solve` loop over an explicit stack. It is proved to return `Search` from the root entry
  and to store that result in its fields.
- `InterstellarSpec` (`interstellar_spec.dfy`) holds the memoised search of
  `InterstellarMission._solve_iterative` as a state machine:
  - `Advance` is one iteration of the loop.
  - `Run` is a bounded number of iterations.
  - It proves invariants of the memo table and of the solution list, and the shape of
    the recorded paths.
- `InterstellarMission` (`interstellar_mission.dfy`) is the class with the imperative
  `SolveIterative` and `Solve` loops, proved equal to `Run`.
- `Dfa` (`dfa.dfy`) is `DFA.validate`: a fold over the characters that stops at the first
  character outside the alphabet or the first move into the error state `"E"`.
- `CreditCard` (`credit_card.dfy`) covers the credit-card automaton:
  - the 33-state transition table, built by imperative loops and proved equal to a
    closed-form table;
  - proofs that it is total and that `"E"` absorbs every character;
  - the exact language it accepts;
  - `CreditCardDFA.validate` with its regular expression and date checks.
- `MapLoader` (`map_loader.dfy`) covers the JSON map file as a Python-like value: the
  checks of `_validate_map_data` and the `get_*` accessors.

## Model

| member | source | states |
|---|---|---|
| Grid.MovesAdjacent | game_logic.py:164 | a cell is adjacent to p exactly when one of the four moves leads to it from p, and the four moves lead to four different cells |
| Grid.Cells | game_logic.py:42-43 | the grid's cells are exactly the pairs that pass the bounds check `0 <= r < rows and 0 <= c < cols` |
| GameSpec.MovesFrom | game_logic.py:213-223 | the standard moves are pushed in reversed move order, so the k-th pushed entry goes in direction `Moves[3-k]` and Right is popped first |
| GameSpec.StarCandidates | game_logic.py:174-183 | a giant star has at most four candidate black holes |
| GameSpec.CandidateRemovable | game_logic.py:174-183 | a cell is a candidate exactly when it is in bounds, a black hole, not yet removed on this branch, and adjacent to the star |
| GameSpec.CandidatesBelowMembers | game_logic.py:175-183 | the candidates after the first n moves are exactly the removable cells reached by one of those moves |
| GameSpec.StarChildren | game_logic.py:187-205 | for each candidate in order, four entries are pushed in reversed move order, each with that one black hole added to the removed set |
| GameSpec.Expand | game_logic.py:77-223 | an iteration that pushes entries has an in-bounds, unvisited cell and pushes 1 to 16 entries, each with the cell added to the visited set; an iteration that does not drop the entry has passed every entry check |
| GameSpec.GateOnArrival | game_logic.py:83-85 | an entry whose arrival energy is below the cell's minimum charge is dropped |
| GameSpec.EntryChecks | game_logic.py:80-112 | an entry off the grid, already on the path, on an active black hole that is not an unconsumed wormhole entry, or with a negative balance after the cost outside a recharge zone is dropped; an entry that passes every check and is not an unconsumed wormhole entry is not dropped |
| GameSpec.WormholeJump | game_logic.py:135-153 | at an unconsumed wormhole entry, the only push is the exit with the energy minus the wormhole's cost, the entry marked consumed and the path and log extended; a negative balance drops the branch |
| GameSpec.StarBatches | game_logic.py:172-206 | at a giant star with candidates, 4 entries per candidate are pushed, each with exactly one candidate newly removed, and no standard moves |
| GameSpec.StandardMoves | game_logic.py:211-223 | otherwise the four moves are pushed in reversed order with the energy after the cell and the removed set unchanged |
| GameSpec.ChildrenRank | game_logic.py:88-119 | the popped entry has at least one unvisited cell, and every pushed entry has exactly one unvisited cell fewer |
| GameSpec.Lighter | game_logic.py:72-223 | at most 16 entries of one rank less weigh less than one entry of the popped entry's rank |
| GameSpec.WeightAppend | game_logic.py:72-75 | the stack's weight is additive over concatenation |
| GameSpec.WeightUniform | game_logic.py:72-75 | entries of equal rank k weigh `|cs| * 17^k` together |
| GameSpec.RankStep | game_logic.py:88-89 | adding an unvisited in-bounds cell to the visited set lowers the number of unvisited cells by one |
| GameSpec.ChildrenLighter | game_logic.py:72-223 | the entries one iteration pushes weigh less than the entry it popped, so the loop terminates |
| GameSpec.Search | game_logic.py:72-226 | the search below one popped entry: a found path is non-empty and ends at the destination |
| GameSpec.SearchStack | game_logic.py:72-226 | the search of a whole stack, top entry first: a found path is non-empty and ends at the destination |
| GameSpec.SearchStackAppend | game_logic.py:72-75 | searching a + b finds b's solution when b has one, and a's result otherwise (last in, first out) |
| GameSpec.RootInv | game_logic.py:58-70 | the initial entry (start, initial energy, empty path, sets and log) satisfies the frame invariant |
| GameSpec.RemovedByMembers | game_logic.py:186-205 | a black hole is in the removed set exactly when the effect of some path cell removed it |
| GameSpec.RemovalsOnWalk | game_logic.py:174-205 | along a legal walk every removal is of an in-bounds black hole next to the giant star that removed it, and no black hole is removed twice, so each removed black hole has its own star |
| GameSpec.OneRemovalPerStar | game_logic.py:186-205 | one giant star next to two black holes opens only one of them on a branch: the path through both is not a valid solution |
| GameSpec.ArrivalAtEnd | game_logic.py:121-127 | an entry's energy is the arrival energy the extended path and log record for its cell |
| GameSpec.AdmittedLast | game_logic.py:80-153 | the entered cell is in bounds and admitted: its minimum charge is met on arrival; if it is a black hole and not a wormhole entry, the effect of an earlier cell of the path removed it; its energy after the cost is non-negative unless it is a recharge zone; the log records its charge; and a wormhole entry leaves a non-negative balance after the wormhole's cost |
| GameSpec.LinkedDistinct | game_logic.py:88-127 | appending an unvisited popped cell keeps the path starting at the origin, its cells distinct and consecutive cells linked by a move or a wormhole jump |
| GameSpec.AdmittedPrefix | game_logic.py:114-127 | extending a path keeps every earlier step admitted |
| GameSpec.ExtendWalk | game_logic.py:114-127 | appending an entered cell and its charge to the path and log keeps a legal walk |
| GameSpec.TracksChild | game_logic.py:132-205 | a pushed entry keeps the bookkeeping: visited = the path's cells, consumed = the wormhole entries on the path, removed = exactly the black holes that the effects of the earlier path cells removed; the entered cell's effect is one removal of a current candidate at a giant star with candidates, and nothing elsewhere |
| GameSpec.ExpandPreserves | game_logic.py:129-223 | every entry one iteration pushes satisfies the frame invariant |
| GameSpec.WormholeChildInv | game_logic.py:135-153 | the wormhole exit entry satisfies the frame invariant |
| GameSpec.MoveChildInv | game_logic.py:172-223 | each pushed move entry satisfies the frame invariant |
| GameSpec.StarChildInv | game_logic.py:187-205 | each entry pushed by a giant star satisfies the frame invariant |
| GameSpec.StepChildInv | game_logic.py:186-223 | a move entry pushed after the entered cell's effect (one candidate removed at a giant star with candidates, nothing elsewhere) satisfies the frame invariant |
| GameSpec.ExpandFound | game_logic.py:155-161 | reaching the destination returns a valid solution: a legal walk ending at the destination |
| GameSpec.SearchSound | game_logic.py:72-223 | every solution the search finds below an entry satisfying the invariant is valid |
| GameSpec.SearchStackSound | game_logic.py:72-223 | every solution the search of a stack of such entries finds is valid |
| GameSpec.SolveSound | game_logic.py:50-226 | a returned path starts at the origin, moves by adjacent steps or wormhole jumps, and visits no cell twice; every cell was entered legally (minimum charge on arrival, no active black hole unless the effect of an earlier cell removed it or it is a wormhole entry, where each giant star with candidates removes exactly one adjacent black hole not removed before and other cells remove none, non-negative energy unless a recharge zone); the energy log matches the costs and multipliers; the path ends at the destination, which is not a wormhole entry |
| GameSpec.WalkNonNegative | game_logic.py:108-140 | with a non-negative initial energy and non-negative recharge multipliers, every arrival energy and every logged energy of a legal walk is non-negative |
| GameSpec.EntryNonNegative | game_logic.py:108-153 | with a non-negative initial energy and non-negative recharge multipliers, every pushed entry's energy is non-negative |
| GameSpec.SolutionNonNegative | game_logic.py:121-161 | with a non-negative initial energy and non-negative recharge multipliers, the returned energy levels are all non-negative |
| GameLogic.GameLogic.constructor | game_logic.py:15-40 | the map data is stored and the solution fields start empty |
| GameLogic.GameLogic.AdjacentActiveBlackHoles | game_logic.py:174-183 | the loop collects exactly the in-bounds, not-yet-removed black holes adjacent to the star, in move order |
| GameLogic.GameLogic.PushMoves | game_logic.py:213-223 | appends the four moves in reversed order; the last one pushed, popped first, is Right |
| GameLogic.GameLogic.Visit | game_logic.py:77-223 | one loop body: drops, returns the solution, or pushes exactly the entries `Expand` gives |
| GameLogic.GameLogic.Explore | game_logic.py:164-223 | pushes one batch of moves per removable black hole at a giant star that has one, and otherwise the four standard moves |
| GameLogic.GameLogic.PushStarBatches | game_logic.py:186-205 | for each candidate in order, pushes the four moves in reversed order with that candidate added to the removed set |
| GameLogic.GameLogic.Solve | game_logic.py:50-226 | returns the depth-first search result from the root; a found path is a valid solution and is stored with its energy log; otherwise both fields are empty |
| InterstellarSpec.AdjacentBelow | interstellar_mission.py:80-86 | at most n neighbours after n moves |
| InterstellarSpec.AdjacentBelowMembers | interstellar_mission.py:80-86 | after n moves, the neighbours are exactly the in-bounds cells reached by one of those moves |
| InterstellarSpec.AdjacentCellsExactly | interstellar_mission.py:80-86 | the neighbour list holds exactly the in-bounds adjacent cells, each once |
| InterstellarSpec.AdjacentBelowDistinct | interstellar_mission.py:80-86 | no neighbour is listed twice |
| InterstellarSpec.Destroyed | interstellar_mission.py:158-169 | the giant star's loop removes at most one black hole, and only one that appears in the shuffled neighbours |
| InterstellarSpec.ArrivalEnergy | interstellar_mission.py:145-150 | a non-negative energy stays non-negative after a non-negative multiplier, and does not drop with a multiplier of at least 1 |
| InterstellarSpec.ArrivalBlackHoles | interstellar_mission.py:152-172 | arriving removes at most one black hole from the entry's set and adds none |
| InterstellarSpec.Start | interstellar_mission.py:113-139 | the initial entry, at the origin with the initial energy and a one-step path, is well shaped |
| InterstellarSpec.MoveTo | interstellar_mission.py:233-268 | at most one entry per move, at the target cell with non-negative energy and a path one step longer whose new step names that cell |
| InterstellarSpec.Successors | interstellar_mission.py:203-268 | an iteration pushes at most five entries: one wormhole jump and four moves |
| InterstellarSpec.DestroyedFirst | interstellar_mission.py:158-169 | without a black hole in the shuffled neighbours nothing changes; otherwise exactly the first black hole in shuffled order is removed |
| InterstellarSpec.GiantStarEffect | interstellar_mission.py:145-172 | a giant star removes at most one adjacent in-bounds black hole, and removes one whenever there is one; other cells change nothing |
| InterstellarSpec.UpdateLast | interstellar_mission.py:175-187 | updating the last step keeps the path's length and cells |
| InterstellarSpec.ArrivalRecorded | interstellar_mission.py:145-187 | the arrival energy is the entry energy times the multiplier on a recharge zone, else unchanged; only the last step changes, and it records that energy |
| InterstellarSpec.MovesBelow | interstellar_mission.py:233-268 | at most one pushed entry per move |
| InterstellarSpec.MovesBelowSound | interstellar_mission.py:233-268 | every pushed move is one of the first n moves and passes the bounds, black-hole, minimum-charge and energy checks; the pushed entry carries the energy after the cost and a step with the placeholder -1 |
| InterstellarSpec.MovesBelowComplete | interstellar_mission.py:233-268 | every one of the first n moves that passes those checks is pushed |
| InterstellarSpec.StandardSuccessors | interstellar_mission.py:233-268 | every pushed move goes to an adjacent, in-bounds, non-black-hole cell whose minimum charge is met, leaves non-negative energy and costs nothing on a recharge zone; every adjacent cell that passes the checks is pushed |
| InterstellarSpec.WormholeTravel | interstellar_mission.py:203-222 | a wormhole whose id is unused on this path pushes one entry at its exit with the same energy and the id marked used; otherwise none; the moves follow it |
| InterstellarSpec.Advance | interstellar_mission.py:141-268 | each iteration counts one pop |
| InterstellarSpec.AdvanceMemo | interstellar_mission.py:189-193 | an iteration keeps the memo invariant, only adds keys, and records the popped state's key; a state already in the memo is pruned with nothing pushed |
| InterstellarSpec.RunMemo | interstellar_mission.py:141-193 | the memo invariant holds and memo keys are never removed for the whole search |
| InterstellarSpec.AdvanceCap | interstellar_mission.py:195-199 | an iteration appends at most one solution, and once the cap is reached the search stops without pushing |
| InterstellarSpec.AdvanceSolutions | interstellar_mission.py:195-199 | an iteration below the cap keeps any prefix of the solutions found so far and stays within the cap |
| InterstellarSpec.RunCapped | interstellar_mission.py:141-199 | the search never holds more than `max_solutions` solutions and only appends to the list: any prefix of the solutions before the search is a prefix of them after it |
| InterstellarSpec.SuccessorsShaped | interstellar_mission.py:203-268 | every pushed entry's last step names its cell and the energy before the move |
| InterstellarSpec.AdvanceShaped | interstellar_mission.py:141-268 | an iteration keeps every stacked entry and every recorded solution well shaped |
| InterstellarSpec.Run | interstellar_mission.py:141-268 | a bounded run pops at most `fuel` entries, and stops early only when the stack is empty or the cap is reached |
| InterstellarSpec.RunShaped | interstellar_mission.py:141-268 | the whole search keeps entries and solutions well shaped |
| InterstellarMission.InterstellarMission.constructor | interstellar_mission.py:11-30 | stores the map, `max_solutions = 1`, empty solutions and memo, no search in progress |
| InterstellarMission.InterstellarMission.GetAdjacentCells | interstellar_mission.py:80-86 | returns the in-bounds neighbours in move order, exactly the in-bounds adjacent cells |
| InterstellarMission.InterstellarMission.DestroyOne | interstellar_mission.py:158-169 | the loop with `break` removes the first black hole in shuffled order, at most one |
| InterstellarMission.InterstellarMission.PushSuccessors | interstellar_mission.py:203-268 | appends the wormhole jump, then the allowed moves in order Right, Left, Down, Up |
| InterstellarMission.InterstellarMission.PushMove | interstellar_mission.py:233-268 | pushes the move onto q exactly when it passes the bounds, black-hole, minimum-charge and energy checks, with the energy after the cost and a placeholder step |
| InterstellarMission.InterstellarMission.Arrive | interstellar_mission.py:145-187 | recharge, giant star and last-step update as `ArrivalEnergy`, `ArrivalBlackHoles` and `UpdateLast` define them |
| InterstellarMission.InterstellarMission.SolveIterative | interstellar_mission.py:113-268 | the memo and solutions after the loop are those of the state machine started from the origin entry |
| InterstellarMission.InterstellarMission.Iteration | interstellar_mission.py:141-268 | one loop body: pop, arrival effects, memo pruning and update, solution capture and successor pushes give exactly the next state of the state machine |
| InterstellarMission.InterstellarMission.Solve | interstellar_mission.py:88-111 | clears the state and searches; at most `max_solutions` solutions, each well shaped; memo values equal their key's energy; the search flag ends false |
| Dfa.Validate | dfa_validators.py:37-92 | the loop's result is the fold's verdict; the position is -1 exactly when valid and otherwise within the input |
| Dfa.Run | dfa_validators.py:63-84 | the state reached after a prefix is the start state, the error state or the target of some transition |
| Dfa.Scan | dfa_validators.py:63-92 | an error position is between the scan start and the input length and carries a message; a valid result is `(True, "", -1)` |
| Dfa.ValidateSpec | dfa_validators.py:37-92 | the position lies in -1..len(input), and the result is valid exactly when it is `(True, "", -1)` |
| Dfa.ScanOutsideAlphabet | dfa_validators.py:66-70 | a character outside the alphabet ends the scan with an invalid-character error at its index |
| Dfa.ScanClean | dfa_validators.py:86-92 | when no character stops the scan, the result depends only on whether the final state accepts |
| Dfa.ValidIffAccepts | dfa_validators.py:37-92 | an input with no stopping character is valid exactly when the run ends in an accepting state; otherwise it fails at position len(input) |
| Dfa.ScanUpTo | dfa_validators.py:63-84 | the first stopping character decides the result and its position |
| Dfa.FirstInvalidCharacter | dfa_validators.py:66-70 | the first character outside the alphabet is reported at its index |
| Dfa.FirstErrorTransition | dfa_validators.py:76-84 | the first move into the error state is reported at that character's index |
| CreditCard.Decimal | dfa_validators.py:107 | a state index's decimal numeral is non-empty and has two digits from 10 on |
| CreditCard.DecimalInjective | dfa_validators.py:107 | different indices have different numerals |
| CreditCard.NamesDiffer | dfa_validators.py:107 | the state names `S0` to `S31` and `E` are pairwise distinct |
| CreditCard.NameInjective | dfa_validators.py:107 | all 33 state names are distinct |
| CreditCard.ExpectedInAlphabet | dfa_validators.py:109-158 | every character a state expects is in the alphabet |
| CreditCard.IndexFrom | dfa_validators.py:107 | searching the names from j finds the index of a name, or returns past the last index |
| CreditCard.IndexFromName | dfa_validators.py:107 | name lookup inverts naming |
| CreditCard.CardTableAt | dfa_validators.py:114-169 | every state and alphabet character has an entry: the next state for the expected character, `E` otherwise |
| CreditCard.CardTableKey | dfa_validators.py:114-169 | every key is a state paired with an alphabet character |
| CreditCard.CardTableTotal | dfa_validators.py:160-169 | the table is defined on every state and character and only there, and `E` absorbs every character |
| CreditCard.SoundInsert | dfa_validators.py:114-158 | adding a transition of the closed-form table keeps the table correct |
| CreditCard.SoundAll | dfa_validators.py:163-166 | a correct table defined everywhere equals the closed-form table |
| CreditCard.DigitAt | dfa_validators.py:109 | `Digits[k]` is the digit k |
| CreditCard.DigitsCovered | dfa_validators.py:114-158 | covering the ten digit characters covers every digit |
| CreditCard.HasGrows | dfa_validators.py:114-169 | adding keys keeps existing entries |
| CreditCard.FillIsError | dfa_validators.py:163-166 | the entries the fill loop adds all lead to `E` |
| CreditCard.AddDigits | dfa_validators.py:114-117 | adds the ten digit transitions of one state |
| CreditCard.AddDigitRun | dfa_validators.py:114-158 | adds the digit transitions of a run of states |
| CreditCard.AddOne | dfa_validators.py:119-158 | adds the single space or slash transition of one state |
| CreditCard.AddMonthFirst | dfa_validators.py:140-141 | S20 moves to S21 on `0` and `1` only, the two characters state 20 expects; the table stays correct |
| CreditCard.FillErrors | dfa_validators.py:163-169 | after the fill loops the table is defined on every state and character |
| CreditCard.FillRow | dfa_validators.py:163-166 | the inner fill loop gives one state an entry for every alphabet character and keeps every entry already written |
| CreditCard.BuildCardTransitions | dfa_validators.py:105-169 | the loops build exactly the closed-form table |
| CreditCard.CreditCardInit | dfa_validators.py:105-173 | the constructed automaton has the 33 states, the 12-character alphabet, the built table, start `S0` and accepting set `{S31}` |
| CreditCard.CardScan | dfa_validators.py:63-92 | from state `S<i>`, the automaton accepts exactly when the rest of the input follows the expected characters and ends at index 31 |
| CreditCard.CardScanAdvance | dfa_validators.py:63-84 | an expected character moves to the next state |
| CreditCard.CardScanStops | dfa_validators.py:76-92 | an unexpected character, or a character past index 30, ends in rejection |
| CreditCard.CardAcceptsExactly | dfa_validators.py:105-173 | the automaton accepts exactly `dddd dddd dddd dddd mm/yyyy ddd` with the month's digits as the table allows |
| CreditCard.CardScanPrefix | dfa_validators.py:63-84 | reading 31 expected characters reaches `S31` |
| CreditCard.Find | dfa_validators.py:203 | `str.find`: the first index of the character, or -1 when it is absent |
| CreditCard.MonthFirstDigit | dfa_validators.py:194-202 | a month of at most 12 starts with 0 or 1 |
| CreditCard.ShapeFromPattern | dfa_validators.py:187-202 | an input that matches the pattern and has a valid date has every character the automaton expects |
| CreditCard.TrailingNewline | dfa_validators.py:187-210 | a valid card followed by `\n` passes the regular expression and is rejected by the automaton as an invalid character at 31 |
| CreditCard.CreditCardValidateContract | dfa_validators.py:175-210 | valid exactly when the input has 31 characters, matches the pattern and has a month 1..12 and a year of at least 2025; a pattern mismatch gives position 0; a bad date gives the slash's position 22; a trailing newline gives an invalid character at 31 |
| CreditCard.CreditCardValidateAsWritten | dfa_validators.py:98-210 | as written, validation never returns valid: exactly the inputs that pass both checks raise `AttributeError`, and every other input gets the corrected verdict |
| CreditCard.CreditCardValidate | dfa_validators.py:175-210 | the position lies in -1..len(input), and the result is valid exactly when it is `(True, "", -1)` |
| CreditCard.Month | dfa_validators.py:194-199 | `int` of the month part is the two-digit decimal value of characters 20 and 21, at most 99 |
| CreditCard.Year | dfa_validators.py:194-200 | `int` of the year part is the four-digit decimal value of characters 23 to 26, at most 9999 |
| CreditCard.AcceptedCard | dfa_validators.py:175-210 | a well-formed card with a valid date is accepted |
| CreditCard.RejectedDate | dfa_validators.py:198-203 | a well-formed card with a bad date is rejected at the slash |
| CreditCard.ExampleFields | dfa_validators.py:175-210 | a 31-character string of the pattern whose month and year digits read as given is valid exactly when the month is 1..12 and the year at least 2025, and is otherwise rejected at the slash |
| CreditCard.ValidExampleRaises | main_dfa.py:25-33 | the first card the console tests call valid raises as written, and is valid once corrected |
| CreditCard.SecondValidExample | main_dfa.py:27 | the second example card is valid |
| CreditCard.ThirdValidExample | main_dfa.py:28 | the third example card is valid |
| CreditCard.MonthThirteenExample | main_dfa.py:37 | month 13 is rejected as a bad date at 22 |
| CreditCard.ExpiredYearExample | main_dfa.py:38 | year 2024 is rejected as a bad date at 22 |
| CreditCard.BadFormatExamples | main_dfa.py:39-41 | too few digits, a short CVV and letters are rejected by the pattern at 0 |
| MapLoader.Lookup | map_loader.py:33 | `key in data` holds exactly when the lookup finds an entry, and the entry is the key's |
| MapLoader.Subscript | map_loader.py:57 | subscripting an object with a missing key raises `KeyError`; on a non-object it raises another error |
| MapLoader.Index | map_loader.py:94 | `v[i]` yields a value only below `len(v)`; on a list or string it raises `IndexError` from `len(v)` on |
| MapLoader.Iterate | map_loader.py:46-47 | a value can be iterated exactly when it has a length, and yields that many items |
| MapLoader.FirstMissing | map_loader.py:32-34 | no key is reported missing exactly when all are present; a reported key is missing |
| MapLoader.AnyRowMismatch | map_loader.py:46-47 | a reported mismatch names a row whose length differs from `cols`; an exception is the `TypeError` of a row without a length |
| MapLoader.ValidateMapData | map_loader.py:25-52 | a reported missing key is a required key the record lacks; any other verdict means all required keys are present; the only escaping exception is `TypeError` |
| MapLoader.AnyRowMismatchSpec | map_loader.py:46-47 | no mismatch exactly when every row has length `cols` |
| MapLoader.ValidIffWellShaped | map_loader.py:25-52 | validation passes exactly when all ten keys are present, `matriz` is a dict with `filas` and `columnas` that are ints (bools included) of at least 1, and `matrizInicial` has `filas` rows of `columnas` items |
| MapLoader.ValidIffWellShapedAll | map_loader.py:25-52 | the same for every map |
| MapLoader.MissingKeyReported | map_loader.py:32-34 | the first missing required key, in list order, is the one reported |
| MapLoader.FirstMissingAt | map_loader.py:32-34 | the first missing key in list order is the one reported |
| MapLoader.MatrixFormatChecked | map_loader.py:36-38 | with all keys present, a `matriz` that is not a dict with both keys fails with the format error |
| MapLoader.ValidImpliesDimensions | map_loader.py:40-44 | a valid map has integer dimensions of at least 1 |
| MapLoader.Replace | map_loader.py:50-52 | a helper that stands for a record whose `estrellasGigantes` value differs, used to state `GiantStarsNotChecked`; it models no source line of its own: replacing a value keeps the keys |
| MapLoader.ReplaceKeeps | map_loader.py:50-52 | a helper fact for `GiantStarsNotChecked`, modelling no source line of its own: replacing one key's value leaves every other key's lookup unchanged |
| MapLoader.GiantStarsNotChecked | map_loader.py:50-52 | the value of `estrellasGigantes` never changes the outcome of validation |
| MapLoader.ValidateReadsOnly | map_loader.py:25-52 | the validation outcome depends only on the first missing required key and on the values of `matriz` and `matrizInicial` |
| MapLoader.ReplaceSameKeys | map_loader.py:50-52 | a helper fact for `GiantStarsNotChecked`, modelling no source line of its own: replacing a key's value leaves the set of present keys unchanged |
| MapLoader.FirstMissingSame | map_loader.py:32-34 | the missing-key report depends only on which keys are present |
| MapLoader.LoadDecoded | map_loader.py:8-23 | the loader keeps a decoded map exactly when it validates, and otherwise stores `None` |
| MapLoader.Tuples | map_loader.py:75 | `[tuple(x) for x in ...]` succeeds exactly when every item is iterable and keeps the items in order |
| MapLoader.Wormholes | map_loader.py:87 | one wormhole record per item, in order |
| MapLoader.RechargeZones | map_loader.py:93-96 | one recharge zone per item, in order |
| MapLoader.RequiredCharges | map_loader.py:102-105 | one required-charge record per item, in order |
| MapLoader.NoDataDefaults | map_loader.py:54-118 | without loaded data every getter returns its default: `(None, None)`, `None`, `[]` or `0` |
| MapLoader.LoadedGetters | map_loader.py:54-118 | on a loaded map the getters return the stored dimensions (at least 1), the initial charge and a cost matrix of `filas` rows of `columnas` items |
| MapLoader.RechargeZonesInOrder | map_loader.py:90-96 | the i-th recharge zone is `(posicion[0], posicion[1], factorMultiplicador)` of the i-th item |
| MapLoader.GetDimensions | map_loader.py:54-58 | `(None, None)` without data; otherwise `(filas, columnas)` of the `matriz` dict; `TypeError` exactly when `matriz` is present but not a dict |
| MapLoader.GetLocation | map_loader.py:60-70 | `None` exactly without data; `KeyError` exactly when the key is missing; otherwise a tuple as long as the stored value |
| MapLoader.GetStartLocation | map_loader.py:60-64 | `None` exactly without data; otherwise `origen` is present |
| MapLoader.GetEndLocation | map_loader.py:66-70 | `None` exactly without data; otherwise `destino` is present |
| MapLoader.GetCellList | map_loader.py:72-82 | `[]` without data; `KeyError` exactly when the key is missing; otherwise one tuple per listed cell |
| MapLoader.GetBlackHoles | map_loader.py:72-76 | one tuple per listed black hole |
| MapLoader.GetGiantStars | map_loader.py:78-82 | one tuple per listed giant star |
| MapLoader.WormholeOf | map_loader.py:87 | a wormhole record needs a dict with `entrada`, `salida` and `costo`, and holds those values, the cells as tuples |
| MapLoader.GetWormholes | map_loader.py:84-88 | a loaded map without `agujerosGusano` has no wormholes; otherwise one record per listed wormhole |
| MapLoader.RechargeZoneOf | map_loader.py:93-96 | a zone needs a dict whose `posicion` has two items, and is `(posicion[0], posicion[1], factorMultiplicador)` |
| MapLoader.GetRechargeZones | map_loader.py:90-97 | `[]` without data; otherwise one triple per listed zone |
| MapLoader.RequiredChargeOf | map_loader.py:102-105 | a required-charge record needs a dict with `coordenada` and `cargaMinima` and holds those values, the cell as a tuple |
| MapLoader.GetRequiredChargeCells | map_loader.py:99-106 | `[]` unless there is data holding the key; otherwise one record per listed cell, and it raises only then |
| MapLoader.GetInitialCharge | map_loader.py:108-112 | `0` without data; otherwise the stored `cargaInicial`, raising `KeyError` exactly when it is missing |
| MapLoader.GetEnergyCosts | map_loader.py:114-118 | `[]` without data; otherwise the stored `matrizInicial`, raising `KeyError` exactly when it is missing |

## Left out

- Drawing, pygame, the HUD, `print` output and the action strings of each recorded step are
  left out. They change no search result.
- Reading the JSON file is left out, as are the conversions in `GameLogic.__init__` and
  `InterstellarMission.load_map_from_json`. The search classes take the converted map as a
  value (`World`, `Mission`). `MapLoader._load_map` takes the decoded document, or
  `None` for a missing or undecodable file, as its input. The top-level document is
  assumed to be an object.
- `_get_cell_energy_cost` returns `float('inf')` off the grid. It is modelled as `CellCost`
  with an in-bounds precondition, because `solve` calls it only after `_is_valid`.
- Python's `\d` also matches non-ASCII decimal digits. The model treats only `0`-`9` as
  digits.
- The `ValueError` branch of `CreditCardDFA.validate` is not modelled. It is unreachable
  after the regular expression has matched two and four ASCII digits.
- `random.shuffle` is a parameter `shuffle(iteration, cells)` that the proofs require to
  return a permutation. The randomness itself is not modelled.
- The `initial_path_step` that `InterstellarMission.solve` builds and never uses is left
  out.
- InterstellarMission.InterstellarMission.SolveIterative: the loop runs at most `fuel`
  iterations. The source loop has no such bound, and a recharge zone can keep producing
  new memo keys, so its termination is not shown.
- InterstellarMission.InterstellarMission.Solve: it inherits the same `fuel` bound.
- A step's `energy_after_action` is missing until the entry is
  popped. The model writes the placeholder -1 into that step's `energyAfter`, as the
  pushed steps in the source do.
- Which path `GameLogic.solve` returns is the first one its depth-first order finds: moves
  are tried Right, Left, Down, Up, and the origin cell's own cost is charged on departure.
  The model keeps that order and that charge; it does not model a shortest or cheapest route.
- `MapLoader.Lookup` takes the first pair with a key. The `Fields` sequence stands for the
  dict `json.load` returns, whose keys are distinct; a JSON text that repeats a key (where
  the decoder keeps the last value) is not modelled.
- The search proofs show that a returned path is legal (soundness). They do not show
  completeness: that a path is found whenever one exists.

## Findings

| source | as written | input that shows it | evidently intended | confidence | as-written member | corrected member |
|---|---|---|---|---|---|---|
| dfa_validators.py:98 | the constructor is spelled `_init_`, so it never runs and `self.dfa` is never set; `validate` raises `AttributeError` at line 210 for every input that passes the pattern and date checks, so no card is ever valid | `"1234 5678 9012 3456 03/2029 336"` (first valid card of main_dfa.py:26) | `__init__`, building the automaton when the validator is created | not executed | CreditCard.CreditCardValidateAsWritten (exhibited by CreditCard.ValidExampleRaises) | CreditCard.CreditCardValidate (proved by CreditCard.CreditCardValidateContract) |
