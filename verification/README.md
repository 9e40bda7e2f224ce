# Super Six solvers, modelled in Dafny

Super Six is a dice game played with sticks. The lid has five pits, and hole 6 swallows a stick for good. On a turn, the player to move throws one die:
- A six puts one of their sticks into hole 6.
- A free pit takes one of their sticks.
- An occupied pit forces them to take that stick back, and the turn passes to the opponent.

After a six or a free pit the player may throw again or stop. The first player with no sticks left wins.

The repository holds four solvers for the probability of winning from a situation (lid, own sticks, opponent's sticks) under optimal play. This project models each of them as its own module:

| module | file | solver |
|---|---|---|
| `Dice` | `dice.dfy` | the three dice outcomes and their weights, shared by all versions |
| `Super6` | `super6.dfy` | `2023-03-13-super6/hultberg.cpp`: win probabilities only |
| `Super6Done` | `super6_done.dfy` | `2023-03-13-super6/hultberg2.cpp`: win probabilities plus the probability that the game is over |
| `Dynprog` | `dynprog.dfy` | `2023-03-20-dynprog/hultberg2.cpp`: the same recurrence, one formula for every lid count, exactly sized tables |
| `ValueIteration` | `value_iteration.dfy` | `2023-03-20-dynprog/value_iteration.py`: state enumeration and value iteration with values in [-1, 1] |

## How the C++ solvers are modelled

Each table `new double[A][B][C][2]()` is one contiguous block, so it is modelled as a flat `array<real>` in row-major order. A table's value is a `seq<real>` of the same length. Indices are turned into offsets by `Idx` (20-wide tables) or `Offset` (the `[17][6][17][2]` tables of the 2023-03-20 version).

The specification of one sweep follows the loop nest:
- `CellsRow` is the k loop.
- `LidRows` is the j loop.
- `StickRows` is the i loop.
- `Sweep` is one whole pass.

The imperative methods (`UpdateCell`, `SweepCells`, `SweepLids`, `SweepInto`, `RunRounds`, `Solve`) are proved to leave exactly those contents in the arrays.

The C++ round loop ends with `results = resultsnew` (and `done = donenew`). That is a pointer assignment, not a swap. After the first round, both names denote one buffer, so:
- the first sweep is synchronous: it reads the seeded table and writes the other one;
- every later sweep updates the table in place, cell after cell.

`Iterate` models exactly this. An in-place sweep reads, for each cell, the entries already written earlier in the same pass (`Super6Done.BeforeReads`). In the second round this gives the stop entry of state (2, 0, 2) the value -31/36 (see Findings). `Super6Done.SwappedIterate`, `RunSwappedRounds` and `SolveSwapped` are not part of the source: they are the corrected program of that finding, which exchanges the buffers after each pass.

A player with no sticks left has won: the code seeds `results[0][lid][theirs] = 1`. Some descriptions of the solver give that state the value 0; the model follows the code.

## How the Python solver is modelled

- `make_situations` and `make_states` are loops that build lists, so they become methods over `seq`. Their contracts say which states the list holds and in what order.
- The per-state arithmetic becomes functions: `ContinueQ`, `StopQ`, `Decide`, `NewValue` and `Policy`.
- `NewValues` and `Policies` are the vectors after one sweep. `Values(h)` is the value vector after h sweeps from all zeros.
- `Sweep`, `Round`, `Converge` and `OptimalStrategy` are the imperative loop over numpy arrays, modelled as `array<real>` and `array<bool>`. They are proved to produce those vectors.
- `U` raises `ValueError` when a state is not listed. The model requires the state to be listed, and `SuccessorsClosed` proves that every lookup the sweep makes is of a terminal or a listed state.

## Model

| member | source | states |
|---|---|---|
| Dice.MixIsWeightedSum | figure/source/2023-03-13-super6/hultberg.cpp:30-46 | the continue value of every lid count is the sum of the outcome values weighted by (5-j)/6, 1/6 and j/6 |
| Dice.WeightsFormDistribution | figure/source/2023-03-20-dynprog/hultberg2.cpp:26-29 | the three outcome probabilities are non-negative and sum to 1 for every lid count 0..5 |
| Dice.Weights | figure/source/2023-03-20-dynprog/hultberg2.cpp:128 | the weights `(5.0 - j) / 6.0` and `j / 6.0` for each lid count 0..5 |
| Dice.MixIgnoresImpossible | figure/source/2023-03-20-dynprog/hultberg2.cpp:128 | an outcome of probability 0 (free pit at lid 5, occupied pit at lid 0) does not affect the value, whatever it reads |
| Dice.MixWithin | figure/source/2023-03-20-dynprog/hultberg2.cpp:128-130 | a weighted sum of values in [lo, hi] lies in [lo, hi] |
| Dice.MixMonotone | figure/source/2023-03-20-dynprog/hultberg2.cpp:128-130 | the continue value is monotone in each outcome's value |
| Super6.Idx | figure/source/2023-03-13-super6/hultberg.cpp:10-11 | the offset of an in-range index into the 20x20x20x2 block lies inside the block |
| Super6.Decompose | figure/source/2023-03-13-super6/hultberg.cpp:10-11 | every offset of the block is the offset of some in-range index |
| Super6.IdxDistinct | figure/source/2023-03-13-super6/hultberg.cpp:10-11 | distinct indices address distinct doubles |
| Super6.SetLeavesOthers | figure/source/2023-03-13-super6/hultberg.cpp:15-16 | writing one entry leaves every other entry unchanged |
| Super6.GetSetBoth | figure/source/2023-03-13-super6/hultberg.cpp:15-16 | after setting both actions of a state, reads of that state give the value and all other reads are unchanged |
| Super6.SeedTableCells | figure/source/2023-03-13-super6/hultberg.cpp:13-24 | after seeding, an entry is 1 exactly when the mover has no sticks, lid 0..16, opponent 1..16; every other entry is 0 |
| Super6.SeededRowCells | figure/source/2023-03-13-super6/hultberg.cpp:14-17 | one row of the seeding loop marks the won states (0, i, 1..n) and leaves every other entry |
| Super6.SeededCells | figure/source/2023-03-13-super6/hultberg.cpp:13-18 | the first m rows of the seeding loop mark exactly the won states with lid below m |
| Super6.SeededRowInUnit | figure/source/2023-03-13-super6/hultberg.cpp:14-17 | one seeding row keeps every entry in [0, 1] |
| Super6.SeededInUnit | figure/source/2023-03-13-super6/hultberg.cpp:13-24 | seeding keeps every entry in [0, 1] |
| Super6.ContinueValueInUnit | figure/source/2023-03-13-super6/hultberg.cpp:30-46 | over a table of probabilities, the new continue entry is a probability |
| Super6.CellLeavesOthers | figure/source/2023-03-13-super6/hultberg.cpp:30-47 | a cell update writes only its own two entries |
| Super6.CellEntries | figure/source/2023-03-13-super6/hultberg.cpp:30-47 | a cell update stores the continue value, then the stop value read after that write when in place |
| Super6.SweepLeavesOthers | figure/source/2023-03-13-super6/hultberg.cpp:27-52 | a sweep never writes a cell outside i in 1..16, j in 0..5, k in 1..16, in particular no won cell |
| Super6.CellsRowLeavesOthers | figure/source/2023-03-13-super6/hultberg.cpp:29-49 | the k loop of row (i, j) writes only cells (i, j, 1..n) |
| Super6.LidRowsLeavesOthers | figure/source/2023-03-13-super6/hultberg.cpp:28-51 | the j loop of stick count i writes only cells (i, 0..n-1, 1..16) |
| Super6.StickRowsLeavesOthers | figure/source/2023-03-13-super6/hultberg.cpp:27-52 | the i loop writes only cells (1..n, 0..5, 1..16) |
| Super6.SynchronousSweep | figure/source/2023-03-13-super6/hultberg.cpp:27-52 | a synchronous sweep gives every cell the dice recurrence over the previous table, and stop = 1 - the opponent's continue at (k, j, i) |
| Super6.SynchronousCell | figure/source/2023-03-13-super6/hultberg.cpp:30-47 | a synchronous cell update computes its own cell from the previous table and keeps the cells already computed |
| Super6.SynchronousCellsRow | figure/source/2023-03-13-super6/hultberg.cpp:29-49 | a synchronous k loop computes every cell it has passed and keeps the cells already computed |
| Super6.SynchronousLidRows | figure/source/2023-03-13-super6/hultberg.cpp:28-51 | a synchronous j loop computes every cell it has passed |
| Super6.SynchronousStickRows | figure/source/2023-03-13-super6/hultberg.cpp:27-52 | a synchronous i loop computes every cell it has passed |
| Super6.InPlaceReadsOwnWrite | figure/source/2023-03-13-super6/hultberg.cpp:32-33 | in place, the stop entry of a cell with k == i reads the continue entry the same cell has just written |
| Super6.CellInUnit | figure/source/2023-03-13-super6/hultberg.cpp:30-47 | a cell update, synchronous or in place, keeps every entry in [0, 1] |
| Super6.SweepInUnit | figure/source/2023-03-13-super6/hultberg.cpp:27-52 | a whole sweep, synchronous or in place, keeps every entry in [0, 1] |
| Super6.CellsRowInUnit | figure/source/2023-03-13-super6/hultberg.cpp:29-49 | the k loop keeps every entry in [0, 1] |
| Super6.LidRowsInUnit | figure/source/2023-03-13-super6/hultberg.cpp:28-51 | the j loop keeps every entry in [0, 1] |
| Super6.StickRowsInUnit | figure/source/2023-03-13-super6/hultberg.cpp:27-52 | the i loop keeps every entry in [0, 1] |
| Super6.RoundsInUnit | figure/source/2023-03-13-super6/hultberg.cpp:26-55 | every entry is a probability after every round |
| Super6.RoundsKeepWinnerCells | figure/source/2023-03-13-super6/hultberg.cpp:13-55 | the won cells (mover with no sticks) hold 1 after every round |
| Super6.MarkBoth | figure/source/2023-03-13-super6/hultberg.cpp:15-16 | the two seeding assignments set both actions of one state to 1 and nothing else |
| Super6.SeedBuffer | figure/source/2023-03-13-super6/hultberg.cpp:13-18 | the seeding loop leaves the seeded table (loop invariants over both loops) |
| Super6.ContinueEntry | figure/source/2023-03-13-super6/hultberg.cpp:30-47 | the three branches compute the dice recurrence's continue value |
| Super6.FullLidEntry | figure/source/2023-03-13-super6/hultberg.cpp:30-34 | branch j == 5: 1/6 best-after-six plus 5/6 of the handover is the recurrence |
| Super6.EmptyLidEntry | figure/source/2023-03-13-super6/hultberg.cpp:35-41 | branch j == 0: the free and six terms are the recurrence |
| Super6.PartLidEntry | figure/source/2023-03-13-super6/hultberg.cpp:42-47 | branch 0 < j < 5: all three terms are the recurrence |
| Super6.UpdateCell | figure/source/2023-03-13-super6/hultberg.cpp:29-48 | one k iteration advances the buffer from `CellsRow(.., k-1)` to `CellsRow(.., k)`, aliased or not |
| Super6.SweepCells | figure/source/2023-03-13-super6/hultberg.cpp:29-49 | the k loop leaves `CellsRow(.., 16)` |
| Super6.SweepLids | figure/source/2023-03-13-super6/hultberg.cpp:28-51 | the j loop leaves `LidRows(.., 6)` |
| Super6.SweepInto | figure/source/2023-03-13-super6/hultberg.cpp:27-52 | the i loop leaves `Sweep(results, resultsnew, aliased)` |
| Super6.NewBuffers | figure/source/2023-03-13-super6/hultberg.cpp:10-24 | two fresh, distinct buffers, both holding the seeded table |
| Super6.RunRounds | figure/source/2023-03-13-super6/hultberg.cpp:25-55 | after 10000 rounds both names denote the written buffer, and it holds `Iterate(seed, 10000)` |
| Super6.Solve | figure/source/2023-03-13-super6/hultberg.cpp:9-55 | the program leaves `Rounds(10000)` in one aliased buffer |
| Super6Done.SeedTablesCells | figure/source/2023-03-13-super6/hultberg2.cpp:41-56 | after seeding, results is 1 exactly where the mover has no sticks; done is 1 exactly where either player has none; all else is 0 |
| Super6Done.SeededDoneRowCells | figure/source/2023-03-13-super6/hultberg2.cpp:42-55 | one row of the done seeding marks the ended states (0, i, 1..n) and (1..n, i, 0) and leaves every other entry |
| Super6Done.SeededDoneCells | figure/source/2023-03-13-super6/hultberg2.cpp:41-56 | the first m rows of the done seeding mark exactly the ended states with lid below m |
| Super6Done.SeedTablesOrdered | figure/source/2023-03-13-super6/hultberg2.cpp:41-56 | the seeded tables satisfy 0 <= results <= done <= 1 |
| Super6Done.PickedIsBest | figure/source/2023-03-13-super6/hultberg2.cpp:64-69 | the selected win value is the larger action's (the `std::max` of the first solver); stop is picked only when strictly better |
| Super6Done.AllDoneIsFirstSolver | figure/source/2023-03-13-super6/hultberg2.cpp:63-112 | with done all 1, the new continue and stop entries are the first solver's |
| Super6Done.ContinueOrdered | figure/source/2023-03-13-super6/hultberg2.cpp:63-112 | over ordered tables, 0 <= continue win <= continue done <= 1 |
| Super6Done.WriteEntry | figure/source/2023-03-13-super6/hultberg2.cpp:70-73 | one assignment stores its value at its own entry and changes nothing else |
| Super6Done.WriteLeavesOthers | figure/source/2023-03-13-super6/hultberg2.cpp:70-73 | one assignment leaves every other cell of both tables unchanged |
| Super6Done.SynchronousCellEntry | figure/source/2023-03-13-super6/hultberg2.cpp:63-112 | reading only the previous round, a cell stores the four values computed from it |
| Super6Done.InPlaceCell | figure/source/2023-03-13-super6/hultberg2.cpp:70-73 | in place, the stop win entry is done minus the opponent's continue entry as it stands after this cell's continue write |
| Super6Done.ResultsWritesKeepChoice | figure/source/2023-03-13-super6/hultberg2.cpp:70-72 | the two results writes do not change the action picked one stick lower, so the done write sees the same choice |
| Super6Done.CellFlat | figure/source/2023-03-13-super6/hultberg2.cpp:70-73 | a cell writes its four entries and no other position |
| Super6Done.InPlaceCellOrdered | figure/source/2023-03-13-super6/hultberg2.cpp:70-73 | in place, a cell with k != i keeps 0 <= results <= done <= 1 |
| Super6Done.InPlaceBreaksOrder | figure/source/2023-03-13-super6/hultberg2.cpp:70-73 | an ordered table on which the in-place update of cell (1, 5, 1) writes the stop entry -1/6, while a synchronous sweep keeps it ordered |
| Super6Done.CellLeavesOthers | figure/source/2023-03-13-super6/hultberg2.cpp:62-114 | a cell update writes only its own four entries |
| Super6Done.CellsRowFrame | figure/source/2023-03-13-super6/hultberg2.cpp:62-114 | the k loop of one lid row writes one contiguous block of both tables |
| Super6Done.RowBlock | figure/source/2023-03-13-super6/hultberg2.cpp:62-114 | the block of cells (i, j, 1..n) holds no other entry |
| Super6Done.SweepLeavesOthers | figure/source/2023-03-13-super6/hultberg2.cpp:60-117 | a sweep never writes a terminal cell, nor any cell outside the loop ranges |
| Super6Done.CellsRowLeavesOthers | figure/source/2023-03-13-super6/hultberg2.cpp:62-114 | the k loop of row (i, j) writes only cells (i, j, 1..n) of both tables |
| Super6Done.LidRowsLeavesOthers | figure/source/2023-03-13-super6/hultberg2.cpp:61-116 | the j loop of stick count i writes only cells (i, 0..n-1, 1..16) |
| Super6Done.StickRowsLeavesOthers | figure/source/2023-03-13-super6/hultberg2.cpp:60-117 | the i loop writes only cells (1..n, 0..5, 1..16) |
| Super6Done.SynchronousSweep | figure/source/2023-03-13-super6/hultberg2.cpp:60-117 | a synchronous sweep gives every cell the recurrence over the previous tables; the stop entries are done - results and done of the opponent's continue at (k, j, i) |
| Super6Done.SynchronousCell | figure/source/2023-03-13-super6/hultberg2.cpp:63-112 | a synchronous cell update computes its own cell from the previous tables and keeps the cells already computed |
| Super6Done.SynchronousCellsRow | figure/source/2023-03-13-super6/hultberg2.cpp:62-114 | a synchronous k loop computes every cell it has passed |
| Super6Done.SynchronousLidRows | figure/source/2023-03-13-super6/hultberg2.cpp:61-116 | a synchronous j loop computes every cell it has passed |
| Super6Done.SynchronousStickRows | figure/source/2023-03-13-super6/hultberg2.cpp:60-117 | a synchronous i loop computes every cell it has passed |
| Super6Done.SynchronousSweepOrdered | figure/source/2023-03-13-super6/hultberg2.cpp:60-117 | a synchronous sweep keeps 0 <= results <= done <= 1 |
| Super6Done.RoundsKeepTerminalCells | figure/source/2023-03-13-super6/hultberg2.cpp:41-121 | in every round, won cells hold results = done = 1 and lost cells results = 0, done = 1 |
| Super6Done.CellsRowKeeps | figure/source/2023-03-13-super6/hultberg2.cpp:62-114 | the k loop of row (i, j) from cell n0 on leaves every entry it has not reached, and every other row's |
| Super6Done.LidRowsKeeps | figure/source/2023-03-13-super6/hultberg2.cpp:61-116 | the j loop of stick count i from lid m0 on leaves every entry of the earlier lids and of other stick counts |
| Super6Done.StickRowsKeeps | figure/source/2023-03-13-super6/hultberg2.cpp:60-117 | the i loop from stick count m0 on leaves every entry with at most m0 sticks |
| Super6Done.SweepCell | figure/source/2023-03-13-super6/hultberg2.cpp:60-117 | each cell's entries after the whole sweep are those its own update writes over the tables as they stood when the loops reached it |
| Super6Done.BeforeReads | figure/source/2023-03-13-super6/hultberg2.cpp:60-117 | when the loops reach a cell, the entries of the cells before it in loop order hold their values after the sweep, and all others their values before it |
| Super6Done.ContinueDoneInUnit | figure/source/2023-03-13-super6/hultberg2.cpp:63-112 | over done entries in [0, 1], the new done-continue value is in [0, 1] |
| Super6Done.WriteDoneInUnit | figure/source/2023-03-13-super6/hultberg2.cpp:70-73 | each assignment, synchronous or in place, keeps every done entry in [0, 1] |
| Super6Done.CellDoneInUnit | figure/source/2023-03-13-super6/hultberg2.cpp:63-112 | a cell update keeps every done entry in [0, 1] |
| Super6Done.CellsRowDoneInUnit | figure/source/2023-03-13-super6/hultberg2.cpp:62-114 | the k loop keeps every done entry in [0, 1] |
| Super6Done.LidRowsDoneInUnit | figure/source/2023-03-13-super6/hultberg2.cpp:61-116 | the j loop keeps every done entry in [0, 1] |
| Super6Done.StickRowsDoneInUnit | figure/source/2023-03-13-super6/hultberg2.cpp:60-117 | the i loop keeps every done entry in [0, 1] |
| Super6Done.IterateDoneInUnit | figure/source/2023-03-13-super6/hultberg2.cpp:58-121 | every round of the loop as written, the in-place ones included, keeps every done entry in [0, 1] |
| Super6Done.RoundsDoneInUnit | figure/source/2023-03-13-super6/hultberg2.cpp:41-121 | in every round the probability that the game is over is a probability |
| Super6Done.SynchronousRoundsOrdered | figure/source/2023-03-13-super6/hultberg2.cpp:41-121 | the seeded tables and the first, synchronous, round satisfy 0 <= results <= done <= 1 |
| Super6Done.FirstRoundEntries | figure/source/2023-03-13-super6/hultberg2.cpp:75-92 | from a seed in which the states with one own stick are open, round 1 leaves the continue entries of (2, 0, 2), (2, 0, 1) and (2, 1, 1) at 0 and the won states at 1 |
| Super6Done.SecondRoundStickOne | figure/source/2023-03-13-super6/hultberg2.cpp:75-112 | in round 2, cells (1, 0, 2) and (1, 1, 2) get continue win 1 and 5/6 and stop win 0 |
| Super6Done.AliasedSecondRound | figure/source/2023-03-13-super6/hultberg2.cpp:88-89 | in round 2 the stop entry of (2, 0, 2) is done 0 minus the continue entry 31/36 this cell has just written, -31/36 |
| Super6Done.SecondRoundBreaksOrder | figure/source/2023-03-13-super6/hultberg2.cpp:58-121 | round 1 is ordered, but round 2 of the program as written holds the win probability -31/36 at (2, 0, 2, stop), so it is not |
| Super6Done.SeedBuffers | figure/source/2023-03-13-super6/hultberg2.cpp:41-56 | the seeding loop leaves the seeded contents in all four buffers |
| Super6Done.PickBest | figure/source/2023-03-13-super6/hultberg2.cpp:64-69 | `old`/`olddone` are the win and done values of the picked action |
| Super6Done.ContinueEntries | figure/source/2023-03-13-super6/hultberg2.cpp:63-112 | the three branches compute the continue win and done values of the recurrence |
| Super6Done.FullLidEntries | figure/source/2023-03-13-super6/hultberg2.cpp:63-74 | branch j == 5 computes both continue values |
| Super6Done.EmptyLidEntries | figure/source/2023-03-13-super6/hultberg2.cpp:75-92 | branch j == 0 computes both continue values |
| Super6Done.PartLidEntries | figure/source/2023-03-13-super6/hultberg2.cpp:93-112 | branch 0 < j < 5 computes both continue values |
| Super6Done.PartLidSum | figure/source/2023-03-13-super6/hultberg2.cpp:108-110 | the source's weighted sum equals the weighted sum over the three outcomes |
| Super6Done.UpdateCell | figure/source/2023-03-13-super6/hultberg2.cpp:62-114 | one k iteration advances both buffers from `CellsRow(.., k-1)` to `CellsRow(.., k)` |
| Super6Done.SweepCells | figure/source/2023-03-13-super6/hultberg2.cpp:62-114 | the k loop leaves `CellsRow(.., 16)` |
| Super6Done.SweepLids | figure/source/2023-03-13-super6/hultberg2.cpp:61-116 | the j loop leaves `LidRows(.., 6)` |
| Super6Done.SweepInto | figure/source/2023-03-13-super6/hultberg2.cpp:60-117 | the i loop leaves `Sweep` of both tables |
| Super6Done.NewBuffers | figure/source/2023-03-13-super6/hultberg2.cpp:36-56 | four fresh buffers holding the seeded tables |
| Super6Done.RunRounds | figure/source/2023-03-13-super6/hultberg2.cpp:58-121 | after 10000 rounds each table is aliased with its `new` partner and holds `Iterate(seed, 10000)` |
| Super6Done.Solve | figure/source/2023-03-13-super6/hultberg2.cpp:35-121 | the program leaves `Rounds(10000)` |
| Dynprog.Offset | figure/source/2023-03-20-dynprog/hultberg2.cpp:75-78 | the offset of an index into the `[17][6][17][2]` block, which lies inside the block when the indices are in range |
| Dynprog.OffsetInjective | figure/source/2023-03-20-dynprog/hultberg2.cpp:75-78 | in-range indices address distinct doubles |
| Dynprog.SetLeavesOthers | figure/source/2023-03-20-dynprog/hultberg2.cpp:86-101 | writing one position leaves every other position unchanged |
| Dynprog.SweepReadsStayInAllocation | figure/source/2023-03-20-dynprog/hultberg2.cpp:118-130 | the three reads one past a dimension's end land inside the block, on `[i][0][k]`, `[k-1][5][i+1]` and `[k][j][0]` |
| Dynprog.AsWrittenRowKeepsWin | figure/source/2023-03-20-dynprog/hultberg2.cpp:83-103 | the seeding stores only 1, so an entry holding 1 keeps it |
| Dynprog.AsWrittenRowSixSetsSpuriousWin | figure/source/2023-03-20-dynprog/hultberg2.cpp:86 | in the row for lid index 6, the store `results[0][6][1][0]` hits `results[1][0][1][0]` |
| Dynprog.AsWrittenKeepsSpuriousWin | figure/source/2023-03-20-dynprog/hultberg2.cpp:83-103 | the spurious 1 survives the rest of the seeding loop |
| Dynprog.SeedAsWrittenFaults | figure/source/2023-03-20-dynprog/hultberg2.cpp:83-103 | the seeding as written stores one past the end of `done`, and marks the live state (1, 0, 1) as won where the lid-bounded seeding leaves 0 |
| Dynprog.GetSet | figure/source/2023-03-20-dynprog/hultberg2.cpp:86-101 | a read after one in-bounds write |
| Dynprog.GetSetBoth | figure/source/2023-03-20-dynprog/hultberg2.cpp:86-101 | a read after setting both actions of one state |
| Dynprog.SeedTablesCells | figure/source/2023-03-20-dynprog/hultberg2.cpp:83-103 | with the lid index bounded by MAX_PITS, results is 1 exactly where the mover has no sticks, and done is 1 exactly where one player has none and the other 1..16 |
| Dynprog.SeededResultsRowCells | figure/source/2023-03-20-dynprog/hultberg2.cpp:85-89 | one lid-bounded seeding row marks the won states (0, i, 1..n) in results |
| Dynprog.SeededResultsCells | figure/source/2023-03-20-dynprog/hultberg2.cpp:83-103 | the first m lid-bounded rows mark exactly the won states with lid below m |
| Dynprog.SeededDoneRowCells | figure/source/2023-03-20-dynprog/hultberg2.cpp:90-101 | one lid-bounded seeding row marks the ended states (0, i, 1..n) and (1..n, i, 0) in done |
| Dynprog.SeededDoneCells | figure/source/2023-03-20-dynprog/hultberg2.cpp:83-103 | the first m lid-bounded rows mark exactly the ended states with lid below m |
| Dynprog.PickedIsBest | figure/source/2023-03-20-dynprog/hultberg2.cpp:118-125 | `action_idx` picks the larger win value, and continue on a tie |
| Dynprog.AsWrittenBelowMaxSticks | figure/source/2023-03-20-dynprog/hultberg2.cpp:128 | below 16 sticks, the formula as compiled equals the model's value |
| Dynprog.PastEndReadCreditsWin | figure/source/2023-03-20-dynprog/hultberg2.cpp:128 | at 16 sticks the occupied-pit read `[k][j-1][17]` is `[k][j][0]`, and it adds j/6 to the continue value |
| Dynprog.StateAgrees | figure/source/2023-03-20-dynprog/hultberg2.cpp:118-125 | on agreeing tables, both versions select the same win and done values in every state |
| Dynprog.ContinueWinFromStates | figure/source/2023-03-20-dynprog/hultberg2.cpp:128 | the single formula equals the earlier version's three branches whenever the states they read agree |
| Dynprog.ContinueDoneFromStates | figure/source/2023-03-20-dynprog/hultberg2.cpp:130 | the same for the done value |
| Dynprog.OccupiedAgrees | figure/source/2023-03-20-dynprog/hultberg2.cpp:128-130 | the handover after an occupied pit reads the same in both versions, 0 past MAX_STICKS |
| Dynprog.ContinueAgrees | figure/source/2023-03-20-dynprog/hultberg2.cpp:118-130 | on agreeing tables, both continue values agree with the earlier version |
| Dynprog.ValueAgrees | figure/source/2023-03-20-dynprog/hultberg2.cpp:128-131 | every assignment of a cell stores the same value as in the earlier version |
| Dynprog.WriteGet | figure/source/2023-03-20-dynprog/hultberg2.cpp:128-131 | an assignment stores at its own entry and nowhere else |
| Dynprog.WriteAgrees | figure/source/2023-03-20-dynprog/hultberg2.cpp:128-131 | corresponding assignments keep the two versions' tables in agreement |
| Dynprog.CellAgrees | figure/source/2023-03-20-dynprog/hultberg2.cpp:116-132 | one cell keeps the two versions in agreement |
| Dynprog.CellsRowAgrees | figure/source/2023-03-20-dynprog/hultberg2.cpp:116-132 | the k loop keeps them in agreement |
| Dynprog.LidRowsAgrees | figure/source/2023-03-20-dynprog/hultberg2.cpp:114-134 | the j loop keeps them in agreement |
| Dynprog.StickRowsAgrees | figure/source/2023-03-20-dynprog/hultberg2.cpp:112-135 | the i loop keeps them in agreement |
| Dynprog.SweepAgrees | figure/source/2023-03-20-dynprog/hultberg2.cpp:112-135 | a sweep, synchronous or in place, keeps them in agreement |
| Dynprog.SeedAgrees | figure/source/2023-03-20-dynprog/hultberg2.cpp:83-103 | the lid-bounded seeding agrees with the earlier version's seeding |
| Dynprog.SameAsEarlierVersion | figure/source/2023-03-20-dynprog/hultberg2.cpp:106-139 | in every round, the corrected program's tables agree with the 2023-03-13 `hultberg2.cpp` wherever this version has an entry |
| Dynprog.RoundsKeepTerminalCells | figure/source/2023-03-20-dynprog/hultberg2.cpp:85-93 | in the corrected program, won and lost cells keep their seeded values in every round |
| Dynprog.RoundsDoneInUnit | figure/source/2023-03-20-dynprog/hultberg2.cpp:83-139 | in the corrected program, as in the earlier version, every in-range done entry is in [0, 1] in every round |
| Dynprog.SecondRoundBreaksOrder | figure/source/2023-03-20-dynprog/hultberg2.cpp:106-139 | in the corrected program, as in the earlier version, round 1 keeps 0 <= results <= done <= 1 on every entry and round 2 writes -31/36 at (2, 0, 2, stop) |
| Dynprog.RecommendedIsBest | figure/source/2023-03-20-dynprog/hultberg2.cpp:146 | the reported action has the best win value, and it differs from the sweep's choice exactly on a tie |
| Dynprog.MarkBoth | figure/source/2023-03-20-dynprog/hultberg2.cpp:86-87 | two seeding assignments set both actions of a state to 1 |
| Dynprog.SeedBuffers | figure/source/2023-03-20-dynprog/hultberg2.cpp:83-103 | the corrected program's seeding loop, lid index bounded by MAX_PITS, leaves the seeded contents in all four buffers |
| Dynprog.PickBest | figure/source/2023-03-20-dynprog/hultberg2.cpp:118-125 | `action_idx_tolid`/`action_idx_tohole` and the picked entries are the best win value and its done value |
| Dynprog.ContinueEntries | figure/source/2023-03-20-dynprog/hultberg2.cpp:118-130 | the corrected program's two continue values of the loop body, the read past MAX_STICKS giving 0 |
| Dynprog.UpdateCell | figure/source/2023-03-20-dynprog/hultberg2.cpp:116-132 | one k iteration advances both buffers from `CellsRow(.., k-1)` to `CellsRow(.., k)` |
| Dynprog.ResultsWritesKeepChoice | figure/source/2023-03-20-dynprog/hultberg2.cpp:128-130 | the two results writes do not change the done-continue value computed before them |
| Dynprog.SweepCells | figure/source/2023-03-20-dynprog/hultberg2.cpp:116-132 | the k loop leaves `CellsRow(.., 16)` |
| Dynprog.SweepLids | figure/source/2023-03-20-dynprog/hultberg2.cpp:114-134 | the j loop leaves `LidRows(.., 6)` |
| Dynprog.SweepInto | figure/source/2023-03-20-dynprog/hultberg2.cpp:112-135 | the i loop leaves `Sweep` of both tables |
| Dynprog.Round | figure/source/2023-03-20-dynprog/hultberg2.cpp:108-139 | one round advances `Iterate(seed, h)` to `Iterate(seed, h + 1)` |
| Dynprog.NewBuffers | figure/source/2023-03-20-dynprog/hultberg2.cpp:75-103 | four fresh buffers holding the corrected program's seeded tables |
| Dynprog.RunRounds | figure/source/2023-03-20-dynprog/hultberg2.cpp:106-139 | after MAX_ROUNDS rounds each table is aliased with its `new` partner and holds `Iterate(seed, MAX_ROUNDS)` |
| Dynprog.Solve | figure/source/2023-03-20-dynprog/hultberg2.cpp:71-139 | the corrected program leaves `Rounds(MAX_ROUNDS)` |
| ValueIteration.MakeSituations | figure/source/2023-03-20-dynprog/value_iteration.py:12-36 | the list holds exactly the situations with n sticks, lid <= min(n, 5) and both players >= 1, ordered by lid and then mover's sticks descending |
| ValueIteration.Insert | figure/source/2023-03-20-dynprog/value_iteration.py:61 | inserting a new state keeps the list descending and adds exactly that state |
| ValueIteration.SortDescending | figure/source/2023-03-20-dynprog/value_iteration.py:61 | `sort(reverse=True)` of a duplicate-free list: the same states, strictly descending |
| ValueIteration.GreaterTransitive | figure/source/2023-03-20-dynprog/value_iteration.py:61 | Python's lexicographic list order is transitive |
| ValueIteration.AppendDistinct | figure/source/2023-03-20-dynprog/value_iteration.py:58-59 | extending with one total's situations and a new forced flag keeps the list duplicate-free |
| ValueIteration.MakeStates | figure/source/2023-03-20-dynprog/value_iteration.py:39-62 | the list holds exactly the states with 1..n sticks and forced flag 0 or 1, each once, in descending order |
| ValueIteration.SwapInvolution | figure/source/2023-03-20-dynprog/value_iteration.py:64-83 | swapping twice gives back the state, and a given flag replaces only the fourth component |
| ValueIteration.AddStateInverse | figure/source/2023-03-20-dynprog/value_iteration.py:85-89 | adding a move vector and then its negation gives back the state, and a flag replaces only the fourth component |
| ValueIteration.SuccessorsClosed | figure/source/2023-03-20-dynprog/value_iteration.py:157-168 | every move the sweep looks up is terminal or a listed state; the occupied and stop moves never end the game |
| ValueIteration.Reward | figure/source/2023-03-20-dynprog/value_iteration.py:92-112 | R is 1 exactly when the mover has no sticks, -1 exactly when only the opponent has none, 0 exactly on live states |
| ValueIteration.RewardSwap | figure/source/2023-03-20-dynprog/value_iteration.py:92-112 | swapping the players negates the reward |
| ValueIteration.IndexOf | figure/source/2023-03-20-dynprog/value_iteration.py:137 | `states.index` returns a valid position holding the state |
| ValueIteration.IndexOfIsFirst | figure/source/2023-03-20-dynprog/value_iteration.py:137 | no earlier position holds the state |
| ValueIteration.Future | figure/source/2023-03-20-dynprog/value_iteration.py:130-139 | U is 0 in a terminal state |
| ValueIteration.FutureOfListed | figure/source/2023-03-20-dynprog/value_iteration.py:130-139 | U of the live state at position p is `U_vec[p]` |
| ValueIteration.NewValuesUpTo | figure/source/2023-03-20-dynprog/value_iteration.py:150-179 | the first k new values form a vector of length k |
| ValueIteration.PoliciesUpTo | figure/source/2023-03-20-dynprog/value_iteration.py:150-179 | the first k policy entries form a vector of length k |
| ValueIteration.NewValuesUpToAt | figure/source/2023-03-20-dynprog/value_iteration.py:174-179 | entry p of the new vectors is the decision at state p |
| ValueIteration.NewValueIsBest | figure/source/2023-03-20-dynprog/value_iteration.py:166-179 | the new value is the value of the action `pi` picks, no allowed action is worth more, a tie goes to stop, a forced state continues |
| ValueIteration.OutcomeInUnit | figure/source/2023-03-20-dynprog/value_iteration.py:166-171 | with values in [-1, 1], R + U and R - U of every looked-up move lie in [-1, 1] |
| ValueIteration.NewValuesInUnit | figure/source/2023-03-20-dynprog/value_iteration.py:150-179 | a sweep maps values in [-1, 1] to values in [-1, 1] |
| ValueIteration.Values | figure/source/2023-03-20-dynprog/value_iteration.py:122 | every value vector has one entry per state |
| ValueIteration.ValuesInUnit | figure/source/2023-03-20-dynprog/value_iteration.py:195 | after any number of sweeps, every value is in [-1, 1], so `prob = U/2 + 1/2` is in [0, 1] |
| ValueIteration.ActionValues | figure/source/2023-03-20-dynprog/value_iteration.py:152-171 | the loop body's `qs_continue` and `qs_stop` are the continue and stop values of the state |
| ValueIteration.ContinueSum | figure/source/2023-03-20-dynprog/value_iteration.py:166-168 | the three-term sum with its `if i<5` and `if i>0` guards is the weighted sum over the dice outcomes |
| ValueIteration.Backup | figure/source/2023-03-20-dynprog/value_iteration.py:174-179 | the written value and `pi` entry are the decision for the state |
| ValueIteration.MaxChangeIsLargest | figure/source/2023-03-20-dynprog/value_iteration.py:182 | `Delta` is >= 0, bounds every entry's change, and is 0 or the change of some entry |
| ValueIteration.Sweep | figure/source/2023-03-20-dynprog/value_iteration.py:149-182 | one pass writes `NewValues(U_vec)` and `Policies(U_vec)`, and returns the largest change of any entry |
| ValueIteration.Round | figure/source/2023-03-20-dynprog/value_iteration.py:148-187 | a sweep plus the copy: the fresh vector holds `NewValues(U_vec)` |
| ValueIteration.KeptChangingAfter | figure/source/2023-03-20-dynprog/value_iteration.py:182-192 | after a further sweep, the loop goes on exactly when its change exceeds 1e-10 and stops there otherwise |
| ValueIteration.KeptChangingEvery | figure/source/2023-03-20-dynprog/value_iteration.py:147-192 | if the loop went on after each of the first m sweeps, each of them changed some entry by more than 1e-10 |
| ValueIteration.Converge | figure/source/2023-03-20-dynprog/value_iteration.py:142-192 | `U_vec` = `Values(iter)`, `pi` is the policy of the last sweep, and the loop stops after the first sweep whose change is at most 1e-10 |
| ValueIteration.OptimalStrategy | figure/source/2023-03-20-dynprog/value_iteration.py:114-192 | the states of `make_states(n)`; `U_vec` = `Values(iter)` in [-1, 1]; `pi` is the policy of the last sweep; on stop, the last change is at most 1e-10 and every earlier sweep's exceeded it |

## Left out

- Output: the `cout`, `sprintf` and `std::cerr` reports and the pandas data frame are left out. Only the quantities they print are modelled: the `prob` column's range (`ValuesInUnit`) and the reported action (`Dynprog.RecommendedIsBest`).
- Floating point: `double` and numpy `float64` are modelled as exact reals, so no rounding is modelled.
- Undefined behaviour: the out-of-bounds store of the 2023-03-20 seeding loop (see Findings) is modelled as a store that does not reach the table. What it overwrites on the heap is not modelled.
- Memory: the never-freed allocations and the leaked buffers are not modelled.
- ValueIteration.OptimalStrategy: the Python loop runs until `Delta <= epsilon` with no bound. The model takes a `fuel` bound on the number of rounds and returns whether it stopped, because termination of value iteration is not proved here.
- ValueIteration.OptimalStrategy: `pi` starts as NaN in Python. The model starts it as `false`, which is equivalent once one sweep has run.
- ValueIteration.OptimalStrategy: the `debug` printing is left out.
- ValueIteration.SortDescending: it is an insertion sort, not Python's Timsort. Both give the same result, because a duplicate-free list has only one strictly descending arrangement.
- ValueIteration.Future: `states.index` raising `ValueError` for an unlisted state is a precondition. `SuccessorsClosed` shows that the sweep never looks up such a state.
- ValueIteration.Future: its own contract covers only terminal states. The listed-state case is stated by `FutureOfListed`.
- Super6.RunRounds, Super6Done.RunRounds, Dynprog.RunRounds: 10000 rounds are modelled exactly, but no convergence of the tables is proved.
- Super6Done.Solve: 0 <= results <= done <= 1 is proved only for the seed and round 1, and done in [0, 1] for every round. Round 2 breaks the ordering (Findings), and whether later rounds restore it is not proved.
- Dynprog.Solve: the same holds for the corrected program `Dynprog.Rounds`, through `SameAsEarlierVersion`. The ordering is not examined for the program as written.
- Dynprog.SecondRoundBreaksOrder: it is proved of the corrected program only. The seeding as written also stores 1 at `[0][6][2]` and `[0][7][2]`, whose flat offsets are those of the live states (1, 0, 2) and (1, 1, 2). That changes round 1 at (2, 0, 2) and masks the -31/36 there, so the program as written need not show it at that state.
- Dynprog.Solve: `NewBuffers`, `SeedBuffers`, `ContinueEntries` and the methods above them model the corrected program: seeding bounded by MAX_PITS, and no read past MAX_STICKS sticks. The source as written is stated only as functions (`SeedAsWritten`, `ContinueWinAsWritten`).
- Undefined behaviour: reads one past a dimension but inside the allocation, such as lid 6, lid -1 or opponent count 17, are modelled as reads at the flat offset. The C++ standard leaves them undefined; they are the values a flat layout gives.

## Findings

| source | as written | input that shows it | evidently intended | confidence | as-written member | corrected member |
|---|---|---|---|---|---|---|
| figure/source/2023-03-20-dynprog/hultberg2.cpp:83-103 | the seeding loop runs `i` to MAX_STICKS and uses it as the lid index of tables with MAX_PITS + 1 = 6 lids | iteration i = 6, j = 16 stores `done[16][6][0][0]`, one double past the end of `done`; iteration i = 6, j = 1 stores `results[0][6][1][0]`, which is the live state `results[1][0][1][0]` | seed only lid indices 0..MAX_PITS, as the 20-wide tables of 2023-03-13 allowed | high: every row with lid index 6..16 stores into the live states of a player with 1 or 2 sticks, and the first round reads those entries before rewriting them; not executed | Dynprog.SeedAsWrittenFaults | Dynprog.SeedTablesCells |
| figure/source/2023-03-20-dynprog/hultberg2.cpp:128 | with i = MAX_STICKS the occupied-pit term reads `[k][j-1][i+1]` = `[k][j-1][17]` in a 17-wide dimension | for every k in 1..16 and j in 1..5, that read is `[k][j][0]`, a lost state (done 1, results 0), so the continue value of (16, j, k) is j/6 too high | read a state that has not ended (0), as the 20-wide tables of 2023-03-13 did | medium: only states in which the mover holds 16 sticks change directly; the printed states depend on them only through later rounds; not executed | Dynprog.PastEndReadCreditsWin | Dynprog.SameAsEarlierVersion |
| figure/source/2023-03-13-super6/hultberg2.cpp:118-119 | `results = resultsnew` and `done = donenew` alias the pairs after round 1, so later sweeps run in place; the stop entry of a cell with k == i then reads the continue entry it has just written | round 2, state (2, 0, 2): done 0 from round 1, minus the continue win 31/36 written just before, gives the win probability -31/36 | exchange or copy the buffers so that each sweep reads only the previous round, as the Python solver does with `.copy()`; the comment at figure/source/2023-03-20-dynprog/hultberg2.cpp:95 wonders why the `new` tables are needed | high for the negative entry in round 2; the values after 10000 rounds may well be the same either way, since a fixed point solves both updates; not executed | Super6Done.SecondRoundBreaksOrder | Super6Done.SwappedRoundsOrdered |
