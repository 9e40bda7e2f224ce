/** The dynamic-programming solver of 2023-03-20 (dynprog/hultberg2.cpp).

    The same value iteration as the 2023-03-13 solver with `done`, written with one formula
    for every lid count instead of three branches, with the selection `results[..][1] >
    results[..][0]` (ties again go to continue), and on tables allocated with their exact
    sizes, `new double[17][6][17][2]`. C++ does not check the indices of such a table: an
    entry is found at a fixed offset from the start of the allocation, so an index one past
    the end of a dimension lands on a neighbouring entry. The model therefore addresses each
    table through `Offset`.

    The source's seeding loop runs the lid index to MAX_STICKS, past the table, and its sweep
    reads the opponent's entry one past MAX_STICKS sticks; both are stated as written
    (`SeedAsWritten`, `ContinueWinAsWritten`). The rest of the model, `SeedTables`, the sweep,
    `Rounds` and the imperative members from `SeedBuffers` to `Solve`, is the corrected
    program: seeding bounded by MAX_PITS and that read replaced by 0, so that it agrees with
    the 2023-03-13 version.
 */
module Dynprog {
  import opened Dice
  import Super6
  import Super6Done

  const MAX_ROUNDS := 10000
  const MAX_STICKS := 16
  const MAX_PITS := 5
  /** The opponent count one past MAX_STICKS, which the sweep reads with MAX_STICKS sticks. */
  const PAST_END := 17
  const CONTINUE := 0
  const STOP := 1
  /** Number of doubles in one table, 17 * 6 * 17 * 2. */
  const SIZE := 3468

  /** Offset of `t[mine][lid][theirs][act]` in a `double[17][6][17][2]`, for any indices. */
  function Offset(mine: int, lid: int, theirs: int, act: int): (n: int)
    ensures InBounds(mine, lid, theirs, act) ==> 0 <= n < SIZE
  {
    ((mine * 6 + lid) * 17 + theirs) * 2 + act
  }

  /** Every index within its dimension. */
  predicate InBounds(mine: int, lid: int, theirs: int, act: int) {
    0 <= mine <= MAX_STICKS && 0 <= lid <= MAX_PITS && 0 <= theirs <= MAX_STICKS && 0 <= act < 2
  }

  /** The indices address a double inside the allocation, whether or not each is in bounds. */
  predicate InAllocation(mine: int, lid: int, theirs: int, act: int) {
    0 <= Offset(mine, lid, theirs, act) < SIZE
  }

  type Buffer = t: seq<real> | |t| == SIZE witness seq(SIZE, _ => 0.0)

  datatype Tables = Tables(results: Buffer, done: Buffer)

  function Zeros(): Buffer {
    seq(SIZE, _ => 0.0)
  }

  /** `t[mine][lid][theirs][act]` as the compiled program reads it. */
  function Get(t: Buffer, mine: int, lid: int, theirs: int, act: int): real
    requires InAllocation(mine, lid, theirs, act)
  {
    t[Offset(mine, lid, theirs, act)]
  }

  function Set(t: Buffer, mine: int, lid: int, theirs: int, act: int, v: real): Buffer
    requires InBounds(mine, lid, theirs, act)
  {
    t[Offset(mine, lid, theirs, act) := v]
  }

  /** Writing one entry leaves every other position of the buffer as it was. */
  lemma SetLeavesOthers(t: Buffer, mine: int, lid: int, theirs: int, act: int, v: real,
                        mine': int, lid': int, theirs': int, act': int)
    requires InBounds(mine, lid, theirs, act) && InAllocation(mine', lid', theirs', act')
    requires Offset(mine, lid, theirs, act) != Offset(mine', lid', theirs', act')
    ensures Get(Set(t, mine, lid, theirs, act, v), mine', lid', theirs', act') == Get(t, mine', lid', theirs', act')
  {
  }

  /** Both action entries of one state set to `v`, continue first. */
  function SetBoth(t: Buffer, mine: int, lid: int, theirs: int, v: real): Buffer
    requires InBounds(mine, lid, theirs, 0)
  {
    Set(Set(t, mine, lid, theirs, CONTINUE, v), mine, lid, theirs, STOP, v)
  }

  /** Within bounds, distinct indices address distinct doubles. */
  lemma OffsetInjective(mine: int, lid: int, theirs: int, act: int,
                        mine': int, lid': int, theirs': int, act': int)
    requires InBounds(mine, lid, theirs, act) && InBounds(mine', lid', theirs', act')
    ensures Offset(mine, lid, theirs, act) == Offset(mine', lid', theirs', act') <==>
            (mine, lid, theirs, act) == (mine', lid', theirs', act')
  {
  }

  /** The sweep indexes one past the end of a dimension in three places; each lands on a
      neighbouring entry inside the allocation. */
  lemma SweepReadsStayInAllocation(i: int, j: int, k: int)
    requires Super6.InSweep(i, j, k)
    ensures InAllocation(i - 1, j + 1, k, CONTINUE) && InAllocation(i - 1, j + 1, k, STOP)
    ensures InAllocation(k, j - 1, i + 1, CONTINUE)
    ensures j == MAX_PITS ==> Offset(i - 1, j + 1, k, CONTINUE) == Offset(i, 0, k, CONTINUE)
    ensures j == 0 ==> Offset(k, j - 1, i + 1, CONTINUE) == Offset(k - 1, MAX_PITS, i + 1, CONTINUE)
    ensures i == MAX_STICKS ==> Offset(k, j - 1, i + 1, CONTINUE) == Offset(k, j, 0, CONTINUE)
  {
  }

  // ---------------------------------------------------------------- seeding

  /** One pass of the seeding loop body as written, on the flat memory: a store whose offset
      falls outside the allocation does not reach the table (it overwrites whatever the heap
      holds there). */
  function Store(t: Buffer, n: int, v: real): Buffer {
    if 0 <= n < SIZE then t[n := v] else t
  }

  function SeedIterationAsWritten(t: Tables, i: int, j: int): Tables {
    var r := Store(Store(t.results, Offset(0, i, j, 0), 1.0), Offset(0, i, j, 1), 1.0);
    var d := Store(Store(t.done, Offset(0, i, j, 0), 1.0), Offset(0, i, j, 1), 1.0);
    Tables(r, Store(Store(d, Offset(j, i, 0, 0), 1.0), Offset(j, i, 0, 1), 1.0))
  }

  /** The inner seeding loop as written, iterations j = 1..n for lid index i. */
  function SeededAsWrittenRow(t: Tables, i: int, n: int): Tables
    requires 0 <= n <= MAX_STICKS
  {
    if n == 0 then t else SeedIterationAsWritten(SeededAsWrittenRow(t, i, n - 1), i, n)
  }

  /** The outer seeding loop as written, `for i in 0..MAX_STICKS` with `i` as the lid index,
      after the iterations i = 0..m-1. */
  function SeededAsWritten(t: Tables, m: int): Tables
    requires 0 <= m <= MAX_STICKS + 1
  {
    if m == 0 then t else SeededAsWrittenRow(SeededAsWritten(t, m - 1), m - 1, MAX_STICKS)
  }

  function SeedAsWritten(): Tables {
    SeededAsWritten(Tables(Zeros(), Zeros()), MAX_STICKS + 1)
  }

  /** Every store of the seeding loop writes 1, so an entry that holds 1 keeps it. */
  lemma {:induction false} AsWrittenRowKeepsWin(t: Tables, i: int, n: int, x: int)
    requires 0 <= n <= MAX_STICKS && 0 <= x < SIZE && t.results[x] == 1.0
    ensures SeededAsWrittenRow(t, i, n).results[x] == 1.0
  {
    if n > 0 {
      AsWrittenRowKeepsWin(t, i, n - 1, x);
    }
  }

  /** In the row for lid index 6 the first iteration stores at `results[0][6][1][0]`, which is
      the offset of `results[1][0][1][0]`. */
  lemma {:induction false} AsWrittenRowSixSetsSpuriousWin(t: Tables, n: int)
    requires 1 <= n <= MAX_STICKS
    ensures SeededAsWrittenRow(t, 6, n).results[Offset(1, 0, 1, CONTINUE)] == 1.0
  {
    if n == 1 {
      assert Offset(0, 6, 1, 0) == Offset(1, 0, 1, CONTINUE);
    } else {
      AsWrittenRowSixSetsSpuriousWin(t, n - 1);
    }
  }

  lemma {:induction false} AsWrittenKeepsSpuriousWin(m: int)
    requires 7 <= m <= MAX_STICKS + 1
    ensures SeededAsWritten(Tables(Zeros(), Zeros()), m).results[Offset(1, 0, 1, CONTINUE)] == 1.0
  {
    var z := Tables(Zeros(), Zeros());
    if m == 7 {
      AsWrittenRowSixSetsSpuriousWin(SeededAsWritten(z, 6), MAX_STICKS);
    } else {
      AsWrittenKeepsSpuriousWin(m - 1);
      AsWrittenRowKeepsWin(SeededAsWritten(z, m - 1), m - 1, MAX_STICKS, Offset(1, 0, 1, CONTINUE));
    }
  }

  /** The seeding loop as written stores past the end of `done` (iteration i = 6, j = 16
      addresses `done[16][6][0][0]`, one past the last double), and it marks as won the state
      in which the player to move still holds one stick, lid empty, opponent one stick
      (iteration i = 6, j = 1 addresses `results[0][6][1][0]`, which is `results[1][0][1][0]`). */
  lemma SeedAsWrittenFaults()
    ensures !InAllocation(MAX_STICKS, 6, 0, 0) && Offset(MAX_STICKS, 6, 0, 0) == SIZE
    ensures SeedAsWritten().results[Offset(1, 0, 1, CONTINUE)] == 1.0
    ensures SeedTables().results[Offset(1, 0, 1, CONTINUE)] == 0.0
  {
    AsWrittenKeepsSpuriousWin(MAX_STICKS + 1);
    SeedTablesCells(1, 0, 1, CONTINUE);
  }

  /** `results` after iterations j = 1..n of the inner seeding loop for lid i: each sets
      `[0][i][j][*] = 1`, the player to move has no sticks left and has won. */
  function SeededResultsRow(t: Buffer, i: int, n: int): Buffer
    requires 0 <= i <= MAX_PITS && 0 <= n <= MAX_STICKS
  {
    if n == 0 then t else SetBoth(SeededResultsRow(t, i, n - 1), 0, i, n, 1.0)
  }

  /** `results` after the outer seeding loop has run for the lids 0..m-1. */
  function SeededResults(t: Buffer, m: int): Buffer
    requires 0 <= m <= MAX_PITS + 1
  {
    if m == 0 then t else SeededResultsRow(SeededResults(t, m - 1), m - 1, MAX_STICKS)
  }

  /** `done` after iterations j = 1..n for lid i: each also sets `[j][i][0][*] = 1`, the
      opponent has no sticks left. */
  function SeededDoneRow(t: Buffer, i: int, n: int): Buffer
    requires 0 <= i <= MAX_PITS && 0 <= n <= MAX_STICKS
  {
    if n == 0 then t else SetBoth(SetBoth(SeededDoneRow(t, i, n - 1), 0, i, n, 1.0), n, i, 0, 1.0)
  }

  /** `done` after the outer seeding loop has run for the lids 0..m-1. */
  function SeededDone(t: Buffer, m: int): Buffer
    requires 0 <= m <= MAX_PITS + 1
  {
    if m == 0 then t else SeededDoneRow(SeededDone(t, m - 1), m - 1, MAX_STICKS)
  }

  /** The tables after seeding with the lid index running over 0..MAX_PITS. */
  function SeedTables(): Tables {
    Tables(SeededResults(Zeros(), MAX_PITS + 1), SeededDone(Zeros(), MAX_PITS + 1))
  }

  /** Reading an entry after writing `v` at one in-bounds position. */
  lemma GetSet(t: Buffer, mine: int, lid: int, theirs: int, act: int, v: real,
               mine': int, lid': int, theirs': int, act': int)
    requires InBounds(mine, lid, theirs, act) && InBounds(mine', lid', theirs', act')
    ensures Get(Set(t, mine, lid, theirs, act, v), mine', lid', theirs', act') ==
            if (mine, lid, theirs, act) == (mine', lid', theirs', act') then v else Get(t, mine', lid', theirs', act')
  {
    OffsetInjective(mine, lid, theirs, act, mine', lid', theirs', act');
  }

  /** Reading any entry after `SetBoth`. */
  lemma GetSetBoth(t: Buffer, mine: int, lid: int, theirs: int, v: real,
                   mine': int, lid': int, theirs': int, act': int)
    requires InBounds(mine, lid, theirs, 0) && InBounds(mine', lid', theirs', act')
    ensures Get(SetBoth(t, mine, lid, theirs, v), mine', lid', theirs', act') ==
            if (mine, lid, theirs) == (mine', lid', theirs') then v else Get(t, mine', lid', theirs', act')
  {
    GetSet(t, mine, lid, theirs, CONTINUE, v, mine', lid', theirs', act');
    GetSet(Set(t, mine, lid, theirs, CONTINUE, v), mine, lid, theirs, STOP, v, mine', lid', theirs', act');
  }

  lemma {:induction false} SeededResultsRowCells(r: Buffer, i: int, n: int,
                                                  mine: int, lid: int, theirs: int, act: int)
    requires 0 <= i <= MAX_PITS && 0 <= n <= MAX_STICKS && InBounds(mine, lid, theirs, act)
    ensures Get(SeededResultsRow(r, i, n), mine, lid, theirs, act) ==
            if mine == 0 && lid == i && 1 <= theirs <= n then 1.0 else Get(r, mine, lid, theirs, act)
  {
    if n > 0 {
      SeededResultsRowCells(r, i, n - 1, mine, lid, theirs, act);
      GetSetBoth(SeededResultsRow(r, i, n - 1), 0, i, n, 1.0, mine, lid, theirs, act);
    }
  }

  lemma {:induction false} SeededResultsCells(r: Buffer, m: int, mine: int, lid: int, theirs: int, act: int)
    requires 0 <= m <= MAX_PITS + 1 && InBounds(mine, lid, theirs, act)
    ensures Get(SeededResults(r, m), mine, lid, theirs, act) ==
            if mine == 0 && 1 <= theirs && lid < m then 1.0 else Get(r, mine, lid, theirs, act)
  {
    if m > 0 {
      SeededResultsCells(r, m - 1, mine, lid, theirs, act);
      SeededResultsRowCells(SeededResults(r, m - 1), m - 1, MAX_STICKS, mine, lid, theirs, act);
    }
  }

  lemma {:induction false} SeededDoneRowCells(d: Buffer, i: int, n: int,
                                               mine: int, lid: int, theirs: int, act: int)
    requires 0 <= i <= MAX_PITS && 0 <= n <= MAX_STICKS && InBounds(mine, lid, theirs, act)
    ensures Get(SeededDoneRow(d, i, n), mine, lid, theirs, act) ==
            if lid == i && ((mine == 0 && 1 <= theirs <= n) || (theirs == 0 && 1 <= mine <= n)) then 1.0
            else Get(d, mine, lid, theirs, act)
  {
    if n > 0 {
      var d0 := SeededDoneRow(d, i, n - 1);
      SeededDoneRowCells(d, i, n - 1, mine, lid, theirs, act);
      GetSetBoth(d0, 0, i, n, 1.0, mine, lid, theirs, act);
      GetSetBoth(SetBoth(d0, 0, i, n, 1.0), n, i, 0, 1.0, mine, lid, theirs, act);
    }
  }

  lemma {:induction false} SeededDoneCells(d: Buffer, m: int, mine: int, lid: int, theirs: int, act: int)
    requires 0 <= m <= MAX_PITS + 1 && InBounds(mine, lid, theirs, act)
    ensures Get(SeededDone(d, m), mine, lid, theirs, act) ==
            if lid < m && ((mine == 0 && 1 <= theirs) || (theirs == 0 && 1 <= mine)) then 1.0
            else Get(d, mine, lid, theirs, act)
  {
    if m > 0 {
      SeededDoneCells(d, m - 1, mine, lid, theirs, act);
      SeededDoneRowCells(SeededDone(d, m - 1), m - 1, MAX_STICKS, mine, lid, theirs, act);
    }
  }

  /** After seeding, `results` is 1 exactly where the player to move has no sticks (opponent
      1..16) and `done` is 1 exactly where one player has none and the other 1..16. */
  lemma SeedTablesCells(mine: int, lid: int, theirs: int, act: int)
    requires InBounds(mine, lid, theirs, act)
    ensures Get(SeedTables().results, mine, lid, theirs, act) ==
            if mine == 0 && 1 <= theirs then 1.0 else 0.0
    ensures Get(SeedTables().done, mine, lid, theirs, act) ==
            if (mine == 0 && 1 <= theirs) || (theirs == 0 && 1 <= mine) then 1.0 else 0.0
  {
    SeededResultsCells(Zeros(), MAX_PITS + 1, mine, lid, theirs, act);
    SeededDoneCells(Zeros(), MAX_PITS + 1, mine, lid, theirs, act);
  }

  // ---------------------------------------------------------------- one cell

  /** `action_idx`: stop only when it is strictly better than continue. */
  function Act(t: Tables, mine: int, lid: int, theirs: int): int
    requires InAllocation(mine, lid, theirs, CONTINUE) && InAllocation(mine, lid, theirs, STOP)
  {
    if Get(t.results, mine, lid, theirs, STOP) > Get(t.results, mine, lid, theirs, CONTINUE) then STOP else CONTINUE
  }

  /** `old_tolid` / `old_tohole`. */
  function BestWin(t: Tables, mine: int, lid: int, theirs: int): real
    requires InAllocation(mine, lid, theirs, CONTINUE) && InAllocation(mine, lid, theirs, STOP)
  {
    Get(t.results, mine, lid, theirs, Act(t, mine, lid, theirs))
  }

  /** `olddone_tolid` / `olddone_tohole`. */
  function BestDone(t: Tables, mine: int, lid: int, theirs: int): real
    requires InAllocation(mine, lid, theirs, CONTINUE) && InAllocation(mine, lid, theirs, STOP)
  {
    Get(t.done, mine, lid, theirs, Act(t, mine, lid, theirs))
  }

  /** The picked action's win value is the larger one, and ties go to continue. */
  lemma PickedIsBest(t: Tables, mine: int, lid: int, theirs: int)
    requires InBounds(mine, lid, theirs, 0)
    ensures BestWin(t, mine, lid, theirs) ==
            Super6.Max(Get(t.results, mine, lid, theirs, CONTINUE), Get(t.results, mine, lid, theirs, STOP))
    ensures Act(t, mine, lid, theirs) == CONTINUE <==>
            Get(t.results, mine, lid, theirs, CONTINUE) >= Get(t.results, mine, lid, theirs, STOP)
  {
  }

  /** The opponent's continue entry `done[k][j-1][i+1][0] - results[k][j-1][i+1][0]` as the
      compiled program reads it. */
  function HandoverAsWritten(t: Tables, mine: int, lid: int, theirs: int): real
    requires InAllocation(mine, lid, theirs, CONTINUE)
  {
    Get(t.done, mine, lid, theirs, CONTINUE) - Get(t.results, mine, lid, theirs, CONTINUE)
  }

  /** The same with an opponent facing more than MAX_STICKS sticks read as a state that has
      not ended (0), which is what the 20-wide tables of the earlier version hold there. */
  function Handover(t: Tables, mine: int, lid: int, theirs: int): real
    requires theirs > MAX_STICKS || InAllocation(mine, lid, theirs, CONTINUE)
  {
    if theirs > MAX_STICKS then 0.0 else HandoverAsWritten(t, mine, lid, theirs)
  }

  /** `done[k][j-1][i+1][0]`, with the same reading past MAX_STICKS. */
  function DoneAfterHandover(t: Tables, mine: int, lid: int, theirs: int): real
    requires theirs > MAX_STICKS || InAllocation(mine, lid, theirs, CONTINUE)
  {
    if theirs > MAX_STICKS then 0.0 else Get(t.done, mine, lid, theirs, CONTINUE)
  }

  /** New `resultsnew[i][j][k][0]`: one sum over the three dice outcomes for every lid count. */
  function ContinueWin(t: Tables, i: int, j: int, k: int): real
    requires Super6.InSweep(i, j, k)
  {
    Mix(j, BestWin(t, i - 1, j + 1, k), BestWin(t, i - 1, j, k), Handover(t, k, j - 1, i + 1))
  }

  /** New `donenew[i][j][k][0]`. */
  function ContinueDone(t: Tables, i: int, j: int, k: int): real
    requires Super6.InSweep(i, j, k)
  {
    Mix(j, BestDone(t, i - 1, j + 1, k), BestDone(t, i - 1, j, k), DoneAfterHandover(t, k, j - 1, i + 1))
  }

  /** `resultsnew[i][j][k][0]` exactly as the compiled program computes it. */
  function ContinueWinAsWritten(t: Tables, i: int, j: int, k: int): real
    requires Super6.InSweep(i, j, k)
  {
    Mix(j, BestWin(t, i - 1, j + 1, k), BestWin(t, i - 1, j, k), HandoverAsWritten(t, k, j - 1, i + 1))
  }

  /** Below MAX_STICKS the program as written computes the model's value: the reads past the
      end of the lid dimension carry weight 0. */
  lemma AsWrittenBelowMaxSticks(t: Tables, i: int, j: int, k: int)
    requires Super6.InSweep(i, j, k) && i < MAX_STICKS
    ensures ContinueWinAsWritten(t, i, j, k) == ContinueWin(t, i, j, k)
  {
  }

  /** With MAX_STICKS sticks, the occupied-pit outcome reads `[k][j-1][17]`, which is
      `[k][j][0]`: a state where the mover has no sticks left. On every table whose
      terminal entries hold their seeded values this credits the mover j/6 more than the
      model. */
  lemma PastEndReadCreditsWin(t: Tables, j: int, k: int)
    requires 1 <= j <= MAX_PITS && 1 <= k <= MAX_STICKS
    requires Get(t.done, k, j, 0, CONTINUE) == 1.0 && Get(t.results, k, j, 0, CONTINUE) == 0.0
    ensures Offset(k, j - 1, MAX_STICKS + 1, CONTINUE) == Offset(k, j, 0, CONTINUE)
    ensures ContinueWinAsWritten(t, MAX_STICKS, j, k) == ContinueWin(t, MAX_STICKS, j, k) + j as real / 6.0
  {
  }

  /** New `resultsnew[i][j][k][1]`: the opponent faces (k, j, i). */
  function StopWin(t: Tables, i: int, j: int, k: int): real
    requires Super6.InSweep(i, j, k)
  {
    HandoverAsWritten(t, k, j, i)
  }

  /** New `donenew[i][j][k][1]`. */
  function StopDone(t: Tables, i: int, j: int, k: int): real
    requires Super6.InSweep(i, j, k)
  {
    Get(t.done, k, j, i, CONTINUE)
  }

  /** Value of write `w` of cell (i, j, k): results continue, results stop, done continue,
      done stop. */
  function Value(rd: Tables, i: int, j: int, k: int, w: int): real
    requires Super6.InSweep(i, j, k) && 0 <= w < 4
  {
    if w == 0 then ContinueWin(rd, i, j, k)
    else if w == 1 then StopWin(rd, i, j, k)
    else if w == 2 then ContinueDone(rd, i, j, k)
    else StopDone(rd, i, j, k)
  }

  /** One assignment of the loop body; in place it reads the tables as they stand. */
  function Write(src: Tables, t: Tables, inPlace: bool, i: int, j: int, k: int, w: int): Tables
    requires Super6.InSweep(i, j, k) && 0 <= w < 4
  {
    var v := Value(if inPlace then t else src, i, j, k, w);
    if w < 2 then Tables(Set(t.results, i, j, k, w, v), t.done)
    else Tables(t.results, Set(t.done, i, j, k, w - 2, v))
  }

  /** Both tables after the first `w` of the four assignments of cell (i, j, k). */
  function Writes(src: Tables, dst: Tables, inPlace: bool, i: int, j: int, k: int, w: int): Tables
    requires Super6.InSweep(i, j, k) && 0 <= w <= 4
  {
    if w == 0 then dst else Write(src, Writes(src, dst, inPlace, i, j, k, w - 1), inPlace, i, j, k, w - 1)
  }

  /** The four assignments of cell (i, j, k), in source order. */
  function Cell(src: Tables, dst: Tables, inPlace: bool, i: int, j: int, k: int): Tables
    requires Super6.InSweep(i, j, k)
  {
    Writes(src, dst, inPlace, i, j, k, 4)
  }

  /** A cell update is its four assignments, one after the other. */
  lemma CellWrites(src: Tables, dst: Tables, inPlace: bool, i: int, j: int, k: int)
    requires Super6.InSweep(i, j, k)
    ensures Cell(src, dst, inPlace, i, j, k) ==
            Write(src, Write(src, Write(src, Write(src, dst, inPlace, i, j, k, 0), inPlace, i, j, k, 1),
                             inPlace, i, j, k, 2), inPlace, i, j, k, 3)
  {
    assert Writes(src, dst, inPlace, i, j, k, 0) == dst;
    var t1 := Writes(src, dst, inPlace, i, j, k, 1);
    var t2 := Writes(src, dst, inPlace, i, j, k, 2);
    var t3 := Writes(src, dst, inPlace, i, j, k, 3);
    assert t1 == Write(src, dst, inPlace, i, j, k, 0);
    assert t2 == Write(src, t1, inPlace, i, j, k, 1);
    assert t3 == Write(src, t2, inPlace, i, j, k, 2);
  }

  // ---------------------------------------------------------------- one sweep and the round loop

  /** Both tables after the k loop of lid row (i, j) has run for k = 1..n. */
  function CellsRow(src: Tables, dst: Tables, inPlace: bool, i: int, j: int, n: int): Tables
    requires 1 <= i <= MAX_STICKS && 0 <= j <= MAX_PITS && 0 <= n <= MAX_STICKS
    decreases dst, n, 1
  {
    if n == 0 then dst else CellStep(src, dst, inPlace, i, j, n)
  }

  /** Both tables after the k loop of lid row (i, j) has run up to and including k = n. */
  function CellStep(src: Tables, dst: Tables, inPlace: bool, i: int, j: int, n: int): Tables
    requires 1 <= i <= MAX_STICKS && 0 <= j <= MAX_PITS && 1 <= n <= MAX_STICKS
    decreases dst, n, 0
  {
    Cell(src, CellsRow(src, dst, inPlace, i, j, n - 1), inPlace, i, j, n)
  }

  /** Both tables after the j loop of stick row i has run for j = 0..m-1. */
  function LidRows(src: Tables, dst: Tables, inPlace: bool, i: int, m: int): Tables
    requires 1 <= i <= MAX_STICKS && 0 <= m <= MAX_PITS + 1
  {
    if m == 0 then dst else CellsRow(src, LidRows(src, dst, inPlace, i, m - 1), inPlace, i, m - 1, MAX_STICKS)
  }

  /** Both tables after the i loop has run for i = 1..m. */
  function StickRows(src: Tables, dst: Tables, inPlace: bool, m: int): Tables
    requires 0 <= m <= MAX_STICKS
  {
    if m == 0 then dst else LidRows(src, StickRows(src, dst, inPlace, m - 1), inPlace, m, MAX_PITS + 1)
  }

  /** One pass of the i, j, k loops, reading `src` and writing `dst`. */
  function Sweep(src: Tables, dst: Tables, inPlace: bool): Tables {
    StickRows(src, dst, inPlace, MAX_STICKS)
  }

  /** Both tables after h passes of the round loop started from `seed`: `done = donenew;
      results = resultsnew` aliases the buffers, so every pass after the first works in place. */
  function Iterate(seed: Tables, h: nat): Tables {
    if h == 0 then seed
    else if h == 1 then Sweep(seed, seed, false)
    else Sweep(Iterate(seed, h - 1), Iterate(seed, h - 1), true)
  }

  /** Both tables after h rounds of the corrected program. */
  function Rounds(h: nat): Tables {
    Iterate(SeedTables(), h)
  }

  // ---------------------------------------------------------------- agreement with 2023-03-13

  /** A table of this version and one of the 2023-03-13 version hold the same values wherever
      this one has an entry, and the earlier one holds 0 at opponent count 17. */
  ghost predicate Agree(t: Tables, u: Super6Done.Tables) {
    && (forall mine, lid, theirs, act :: InBounds(mine, lid, theirs, act) ==> SameEntry(t, u, mine, lid, theirs, act))
    && (forall mine, lid :: 0 <= mine <= MAX_STICKS && 0 <= lid <= MAX_PITS ==> ZeroPastEnd(u, mine, lid))
  }

  ghost predicate SameEntry(t: Tables, u: Super6Done.Tables, mine: int, lid: int, theirs: int, act: int)
    requires InBounds(mine, lid, theirs, act)
  {
    && Get(t.results, mine, lid, theirs, act) == Super6.Get(u.results, mine, lid, theirs, act)
    && Get(t.done, mine, lid, theirs, act) == Super6.Get(u.done, mine, lid, theirs, act)
  }

  ghost predicate ZeroPastEnd(u: Super6Done.Tables, mine: int, lid: int)
    requires 0 <= mine <= MAX_STICKS && 0 <= lid <= MAX_PITS
  {
    Super6.Get(u.results, mine, lid, PAST_END, CONTINUE) == 0.0 && Super6.Get(u.done, mine, lid, PAST_END, CONTINUE) == 0.0
  }

  /** Agreeing tables hold the same entries, pick the same action and hand over the same
      value in every state of this version's range. */
  lemma StateAgrees(t: Tables, u: Super6Done.Tables, mine: int, lid: int, theirs: int)
    requires Agree(t, u) && InBounds(mine, lid, theirs, 0)
    ensures BestWin(t, mine, lid, theirs) == Super6Done.BestWin(u, mine, lid, theirs)
    ensures BestDone(t, mine, lid, theirs) == Super6Done.BestDone(u, mine, lid, theirs)
    ensures HandoverAsWritten(t, mine, lid, theirs) == Super6Done.Handover(u, mine, lid, theirs)
    ensures Get(t.done, mine, lid, theirs, CONTINUE) == Super6.Get(u.done, mine, lid, theirs, CONTINUE)
  {
    assert SameEntry(t, u, mine, lid, theirs, CONTINUE) && SameEntry(t, u, mine, lid, theirs, STOP);
  }

  /** The single formula of this version and the three branches of the earlier one give the
      same continue win value whenever the states they read hold the same values; each read
      that only one of them makes carries weight 0. */
  lemma ContinueWinFromStates(t: Tables, u: Super6Done.Tables, i: int, j: int, k: int)
    requires Super6.InSweep(i, j, k)
    requires BestWin(t, i - 1, j, k) == Super6Done.BestWin(u, i - 1, j, k)
    requires j < MAX_PITS ==> BestWin(t, i - 1, j + 1, k) == Super6Done.BestWin(u, i - 1, j + 1, k)
    requires j > 0 ==> Handover(t, k, j - 1, i + 1) == Super6Done.Handover(u, k, j - 1, i + 1)
    ensures ContinueWin(t, i, j, k) == Super6Done.ContinueWin(u, i, j, k)
  {
    MixIgnoresImpossible(j, BestWin(t, i - 1, j + 1, k), BestWin(t, i - 1, j, k), Handover(t, k, j - 1, i + 1),
                         if j < PITS then Super6Done.BestWin(u, i - 1, j + 1, k) else 0.0,
                         if j > 0 then Super6Done.Handover(u, k, j - 1, i + 1) else 0.0);
  }

  /** The same for the continue done value. */
  lemma ContinueDoneFromStates(t: Tables, u: Super6Done.Tables, i: int, j: int, k: int)
    requires Super6.InSweep(i, j, k)
    requires BestDone(t, i - 1, j, k) == Super6Done.BestDone(u, i - 1, j, k)
    requires j < MAX_PITS ==> BestDone(t, i - 1, j + 1, k) == Super6Done.BestDone(u, i - 1, j + 1, k)
    requires j > 0 ==> DoneAfterHandover(t, k, j - 1, i + 1) == Super6.Get(u.done, k, j - 1, i + 1, CONTINUE)
    ensures ContinueDone(t, i, j, k) == Super6Done.ContinueDone(u, i, j, k)
  {
    MixIgnoresImpossible(j, BestDone(t, i - 1, j + 1, k), BestDone(t, i - 1, j, k), DoneAfterHandover(t, k, j - 1, i + 1),
                         if j < PITS then Super6Done.BestDone(u, i - 1, j + 1, k) else 0.0,
                         if j > 0 then Super6.Get(u.done, k, j - 1, i + 1, CONTINUE) else 0.0);
  }

  /** On agreeing tables the opponent's entry after an occupied pit reads the same in both
      versions: at MAX_STICKS sticks this version reads nothing and the earlier one reads the
      zeros at opponent count 17. */
  lemma OccupiedAgrees(t: Tables, u: Super6Done.Tables, i: int, j: int, k: int)
    requires Agree(t, u) && Super6.InSweep(i, j, k) && j > 0
    ensures Handover(t, k, j - 1, i + 1) == Super6Done.Handover(u, k, j - 1, i + 1)
    ensures DoneAfterHandover(t, k, j - 1, i + 1) == Super6.Get(u.done, k, j - 1, i + 1, CONTINUE)
  {
    if i < MAX_STICKS {
      StateAgrees(t, u, k, j - 1, i + 1);
    } else {
      assert ZeroPastEnd(u, k, j - 1);
    }
  }

  /** On agreeing tables the two versions give the same continue values. */
  lemma ContinueAgrees(t: Tables, u: Super6Done.Tables, i: int, j: int, k: int)
    requires Agree(t, u) && Super6.InSweep(i, j, k)
    ensures ContinueWin(t, i, j, k) == Super6Done.ContinueWin(u, i, j, k)
    ensures ContinueDone(t, i, j, k) == Super6Done.ContinueDone(u, i, j, k)
  {
    StateAgrees(t, u, i - 1, j, k);
    if j < MAX_PITS {
      StateAgrees(t, u, i - 1, j + 1, k);
    }
    if j > 0 {
      OccupiedAgrees(t, u, i, j, k);
    }
    ContinueWinFromStates(t, u, i, j, k);
    ContinueDoneFromStates(t, u, i, j, k);
  }

  /** Hence every write of a cell stores the same value in both versions. */
  lemma ValueAgrees(t: Tables, u: Super6Done.Tables, i: int, j: int, k: int, w: int)
    requires Agree(t, u) && Super6.InSweep(i, j, k) && 0 <= w < 4
    ensures Value(t, i, j, k, w) == Super6Done.Value(u, i, j, k, w)
  {
    if w == 0 || w == 2 {
      ContinueAgrees(t, u, i, j, k);
    } else {
      StateAgrees(t, u, k, j, i);
    }
  }

  /** A write stores its value at its own entry and leaves every other entry as it was. */
  lemma WriteGet(src: Tables, t: Tables, inPlace: bool, i: int, j: int, k: int, w: int,
                 mine: int, lid: int, theirs: int, act: int)
    requires Super6.InSweep(i, j, k) && 0 <= w < 4 && InBounds(mine, lid, theirs, act)
    ensures Get(Write(src, t, inPlace, i, j, k, w).results, mine, lid, theirs, act) ==
            if (mine, lid, theirs, act) == (i, j, k, w) then Value(if inPlace then t else src, i, j, k, w)
            else Get(t.results, mine, lid, theirs, act)
    ensures Get(Write(src, t, inPlace, i, j, k, w).done, mine, lid, theirs, act) ==
            if (mine, lid, theirs, act + 2) == (i, j, k, w) then Value(if inPlace then t else src, i, j, k, w)
            else Get(t.done, mine, lid, theirs, act)
  {
    var v := Value(if inPlace then t else src, i, j, k, w);
    if w < 2 {
      GetSet(t.results, i, j, k, w, v, mine, lid, theirs, act);
    } else {
      GetSet(t.done, i, j, k, w - 2, v, mine, lid, theirs, act);
    }
  }

  /** Corresponding assignments keep two agreeing tables in agreement. */
  lemma WriteAgrees(src: Tables, srcU: Super6Done.Tables, t: Tables, u: Super6Done.Tables, inPlace: bool,
                    i: int, j: int, k: int, w: int)
    requires Agree(src, srcU) && Agree(t, u) && Super6.InSweep(i, j, k) && 0 <= w < 4
    ensures Agree(Write(src, t, inPlace, i, j, k, w), Super6Done.Write(srcU, u, inPlace, i, j, k, w))
  {
    var t' := Write(src, t, inPlace, i, j, k, w);
    var u' := Super6Done.Write(srcU, u, inPlace, i, j, k, w);
    if inPlace {
      ValueAgrees(t, u, i, j, k, w);
    } else {
      ValueAgrees(src, srcU, i, j, k, w);
    }
    forall mine, lid, theirs, act | InBounds(mine, lid, theirs, act)
      ensures SameEntry(t', u', mine, lid, theirs, act)
    {
      WriteGet(src, t, inPlace, i, j, k, w, mine, lid, theirs, act);
      if (mine, lid, theirs) == (i, j, k) {
        Super6Done.WriteEntry(srcU, u, inPlace, i, j, k, w, i, j, k, act);
        Super6Done.WriteEntry(srcU, u, inPlace, i, j, k, w, i, j, k, act + 2);
      } else {
        Super6Done.WriteLeavesOthers(srcU, u, inPlace, i, j, k, w, mine, lid, theirs, act);
      }
      assert SameEntry(t, u, mine, lid, theirs, act);
    }
    forall mine, lid | 0 <= mine <= MAX_STICKS && 0 <= lid <= MAX_PITS
      ensures ZeroPastEnd(u', mine, lid)
    {
      Super6Done.WriteLeavesOthers(srcU, u, inPlace, i, j, k, w, mine, lid, PAST_END, CONTINUE);
      assert ZeroPastEnd(u, mine, lid);
    }
  }

  /** The four assignments of one cell keep two agreeing tables in agreement. */
  lemma CellAgrees(src: Tables, srcU: Super6Done.Tables, t: Tables, u: Super6Done.Tables, inPlace: bool,
                   i: int, j: int, k: int)
    requires Agree(src, srcU) && Agree(t, u) && Super6.InSweep(i, j, k)
    ensures Agree(Cell(src, t, inPlace, i, j, k), Super6Done.Cell(srcU, u, inPlace, i, j, k))
  {
    CellWrites(src, t, inPlace, i, j, k);
    Super6Done.CellWrites(srcU, u, inPlace, i, j, k);
    var t1, u1 := Write(src, t, inPlace, i, j, k, 0), Super6Done.Write(srcU, u, inPlace, i, j, k, 0);
    WriteAgrees(src, srcU, t, u, inPlace, i, j, k, 0);
    var t2, u2 := Write(src, t1, inPlace, i, j, k, 1), Super6Done.Write(srcU, u1, inPlace, i, j, k, 1);
    WriteAgrees(src, srcU, t1, u1, inPlace, i, j, k, 1);
    var t3, u3 := Write(src, t2, inPlace, i, j, k, 2), Super6Done.Write(srcU, u2, inPlace, i, j, k, 2);
    WriteAgrees(src, srcU, t2, u2, inPlace, i, j, k, 2);
    WriteAgrees(src, srcU, t3, u3, inPlace, i, j, k, 3);
  }

  /** The k loop of one lid row keeps two agreeing tables in agreement. */
  lemma {:induction false} CellsRowAgrees(src: Tables, srcU: Super6Done.Tables, dst: Tables, dstU: Super6Done.Tables,
                                          inPlace: bool, i: int, j: int, n: int)
    requires Agree(src, srcU) && Agree(dst, dstU)
    requires 1 <= i <= MAX_STICKS && 0 <= j <= MAX_PITS && 0 <= n <= MAX_STICKS
    ensures Agree(CellsRow(src, dst, inPlace, i, j, n), Super6Done.CellsRow(srcU, dstU, inPlace, i, j, n))
  {
    if n > 0 {
      CellsRowAgrees(src, srcU, dst, dstU, inPlace, i, j, n - 1);
      CellAgrees(src, srcU, CellsRow(src, dst, inPlace, i, j, n - 1),
                 Super6Done.CellsRow(srcU, dstU, inPlace, i, j, n - 1), inPlace, i, j, n);
      assert CellsRow(src, dst, inPlace, i, j, n) == CellStep(src, dst, inPlace, i, j, n);
      assert Super6Done.CellsRow(srcU, dstU, inPlace, i, j, n) == Super6Done.CellStep(srcU, dstU, inPlace, i, j, n);
    }
  }

  /** The same for the j loop of one stick row. */
  lemma {:induction false} LidRowsAgrees(src: Tables, srcU: Super6Done.Tables, dst: Tables, dstU: Super6Done.Tables,
                                         inPlace: bool, i: int, m: int)
    requires Agree(src, srcU) && Agree(dst, dstU)
    requires 1 <= i <= MAX_STICKS && 0 <= m <= MAX_PITS + 1
    ensures Agree(LidRows(src, dst, inPlace, i, m), Super6Done.LidRows(srcU, dstU, inPlace, i, m))
  {
    if m > 0 {
      LidRowsAgrees(src, srcU, dst, dstU, inPlace, i, m - 1);
      CellsRowAgrees(src, srcU, LidRows(src, dst, inPlace, i, m - 1),
                     Super6Done.LidRows(srcU, dstU, inPlace, i, m - 1), inPlace, i, m - 1, MAX_STICKS);
    }
  }

  /** The same for the i loop. */
  lemma {:induction false} StickRowsAgrees(src: Tables, srcU: Super6Done.Tables, dst: Tables, dstU: Super6Done.Tables,
                                           inPlace: bool, m: int)
    requires Agree(src, srcU) && Agree(dst, dstU) && 0 <= m <= MAX_STICKS
    ensures Agree(StickRows(src, dst, inPlace, m), Super6Done.StickRows(srcU, dstU, inPlace, m))
  {
    if m > 0 {
      StickRowsAgrees(src, srcU, dst, dstU, inPlace, m - 1);
      LidRowsAgrees(src, srcU, StickRows(src, dst, inPlace, m - 1),
                    Super6Done.StickRows(srcU, dstU, inPlace, m - 1), inPlace, m, MAX_PITS + 1);
    }
  }

  /** Sweeping agreeing tables, both versions end in agreement. */
  lemma SweepAgrees(src: Tables, srcU: Super6Done.Tables, dst: Tables, dstU: Super6Done.Tables, inPlace: bool)
    requires Agree(src, srcU) && Agree(dst, dstU)
    ensures Agree(Sweep(src, dst, inPlace), Super6Done.Sweep(srcU, dstU, inPlace))
  {
    StickRowsAgrees(src, srcU, dst, dstU, inPlace, MAX_STICKS);
  }

  lemma SeedAgrees()
    ensures Agree(SeedTables(), Super6Done.SeedTables())
  {
    var t, u := SeedTables(), Super6Done.SeedTables();
    forall mine, lid, theirs, act | InBounds(mine, lid, theirs, act)
      ensures SameEntry(t, u, mine, lid, theirs, act)
    {
      SeedTablesCells(mine, lid, theirs, act);
      Super6Done.SeedTablesCells(mine, lid, theirs, act);
    }
    forall mine, lid | 0 <= mine <= MAX_STICKS && 0 <= lid <= MAX_PITS
      ensures ZeroPastEnd(u, mine, lid)
    {
      Super6Done.SeedTablesCells(mine, lid, PAST_END, CONTINUE);
    }
  }

  /** In every round this version holds the same tables as the 2023-03-13 version: the
      rewrite into one formula, the `>` selection and the exact array sizes change nothing
      once the seeding and the read past MAX_STICKS are corrected. */
  lemma {:induction false} SameAsEarlierVersion(h: nat)
    ensures Agree(Rounds(h), Super6Done.Rounds(h))
  {
    SeedAgrees();
    if h == 1 {
      SweepAgrees(SeedTables(), Super6Done.SeedTables(), SeedTables(), Super6Done.SeedTables(), false);
    } else if h > 1 {
      SameAsEarlierVersion(h - 1);
      SweepAgrees(Rounds(h - 1), Super6Done.Rounds(h - 1), Rounds(h - 1), Super6Done.Rounds(h - 1), true);
    }
  }

  /** Hence, in the corrected program, the terminal entries keep their seeded values in every
      round, as in the earlier version. */
  lemma RoundsKeepTerminalCells(h: nat, mine: int, lid: int, theirs: int, act: int)
    requires InBounds(mine, lid, theirs, act)
    requires (mine == 0 && 1 <= theirs) || (theirs == 0 && 1 <= mine)
    ensures Get(Rounds(h).results, mine, lid, theirs, act) == if mine == 0 then 1.0 else 0.0
    ensures Get(Rounds(h).done, mine, lid, theirs, act) == 1.0
  {
    SameAsEarlierVersion(h);
    Super6Done.RoundsKeepTerminalCells(h, mine, lid, theirs, act);
  }

  /** Hence, in the corrected program as in the earlier version, the probability that the
      game is over stays a probability in every round. */
  lemma RoundsDoneInUnit(h: nat, mine: int, lid: int, theirs: int, act: int)
    requires InBounds(mine, lid, theirs, act)
    ensures 0.0 <= Get(Rounds(h).done, mine, lid, theirs, act) <= 1.0
  {
    SameAsEarlierVersion(h);
    Super6Done.RoundsDoneInUnit(h);
    assert SameEntry(Rounds(h), Super6Done.Rounds(h), mine, lid, theirs, act);
  }

  /** And in the corrected program, as in the earlier version, the first round keeps
      0 <= results <= done <= 1, while the second, which works in place, writes a negative win
      probability at (2, 0, 2). The seeding as written marks (1, 0, 2) and (1, 1, 2) as won,
      which changes that entry. */
  lemma SecondRoundBreaksOrder()
    ensures forall mine, lid, theirs, act | InBounds(mine, lid, theirs, act) ::
              0.0 <= Get(Rounds(1).results, mine, lid, theirs, act) <= Get(Rounds(1).done, mine, lid, theirs, act) <= 1.0
    ensures Get(Rounds(2).results, 2, 0, 2, STOP) == -31.0 / 36.0
  {
    SameAsEarlierVersion(1);
    SameAsEarlierVersion(2);
    Super6Done.SecondRoundBreaksOrder();
    forall mine, lid, theirs, act | InBounds(mine, lid, theirs, act)
      ensures 0.0 <= Get(Rounds(1).results, mine, lid, theirs, act) <= Get(Rounds(1).done, mine, lid, theirs, act) <= 1.0
    {
      assert SameEntry(Rounds(1), Super6Done.Rounds(1), mine, lid, theirs, act);
      assert 0.0 <= Super6Done.Rounds(1).results[Super6.Idx(mine, lid, theirs, act)] <=
             Super6Done.Rounds(1).done[Super6.Idx(mine, lid, theirs, act)] <= 1.0;
    }
    assert SameEntry(Rounds(2), Super6Done.Rounds(2), 2, 0, 2, STOP);
  }

  // ---------------------------------------------------------------- the report

  /** `action_idx` of the report: continue only when it is strictly better. */
  function RecommendedAction(t: Tables, mine: int, lid: int, theirs: int): int
    requires InBounds(mine, lid, theirs, 0)
  {
    if Get(t.results, mine, lid, theirs, CONTINUE) > Get(t.results, mine, lid, theirs, STOP) then CONTINUE else STOP
  }

  /** The reported action is a best one, and it differs from the action the sweep assumes
      exactly on a tie, where the report says stop and the sweep continues. */
  lemma RecommendedIsBest(t: Tables, mine: int, lid: int, theirs: int)
    requires InBounds(mine, lid, theirs, 0)
    ensures Get(t.results, mine, lid, theirs, RecommendedAction(t, mine, lid, theirs)) ==
            BestWin(t, mine, lid, theirs)
    ensures RecommendedAction(t, mine, lid, theirs) != Act(t, mine, lid, theirs) <==>
            Get(t.results, mine, lid, theirs, CONTINUE) == Get(t.results, mine, lid, theirs, STOP)
  {
  }

  // ---------------------------------------------------------------- the program

  predicate Buffers(results: array<real>, resultsnew: array<real>, done: array<real>, donenew: array<real>) {
    && results.Length == SIZE && resultsnew.Length == SIZE
    && done.Length == SIZE && donenew.Length == SIZE
    && results != done && results != donenew && resultsnew != done && resultsnew != donenew
    && (results == resultsnew <==> done == donenew)
  }

  /** The two assignments `b[mine][lid][theirs][0] = b[mine][lid][theirs][1] = 1` of one
      seeding iteration. */
  method MarkBoth(b: array<real>, mine: int, lid: int, theirs: int)
    requires b.Length == SIZE && InBounds(mine, lid, theirs, 0)
    modifies b
    ensures b[..] == SetBoth(old(b[..]), mine, lid, theirs, 1.0)
  {
    b[Offset(mine, lid, theirs, CONTINUE)] := 1.0;
    b[Offset(mine, lid, theirs, STOP)] := 1.0;
  }

  /** The seeding loop of the corrected program: the lid index is bounded by MAX_PITS, where
      the source runs it to MAX_STICKS (`SeedAsWritten`). */
  method SeedBuffers(results: array<real>, resultsnew: array<real>, done: array<real>, donenew: array<real>)
    requires Buffers(results, resultsnew, done, donenew) && results != resultsnew
    modifies results, resultsnew, done, donenew
    ensures results[..] == SeededResults(old(results[..]), MAX_PITS + 1)
    ensures resultsnew[..] == SeededResults(old(resultsnew[..]), MAX_PITS + 1)
    ensures done[..] == SeededDone(old(done[..]), MAX_PITS + 1)
    ensures donenew[..] == SeededDone(old(donenew[..]), MAX_PITS + 1)
  {
    for i := 0 to MAX_PITS + 1
      invariant results[..] == SeededResults(old(results[..]), i)
      invariant resultsnew[..] == SeededResults(old(resultsnew[..]), i)
      invariant done[..] == SeededDone(old(done[..]), i)
      invariant donenew[..] == SeededDone(old(donenew[..]), i)
    {
      for j := 1 to MAX_STICKS + 1
        invariant results[..] == SeededResultsRow(SeededResults(old(results[..]), i), i, j - 1)
        invariant resultsnew[..] == SeededResultsRow(SeededResults(old(resultsnew[..]), i), i, j - 1)
        invariant done[..] == SeededDoneRow(SeededDone(old(done[..]), i), i, j - 1)
        invariant donenew[..] == SeededDoneRow(SeededDone(old(donenew[..]), i), i, j - 1)
      {
        MarkBoth(results, 0, i, j);
        MarkBoth(done, 0, i, j);
        MarkBoth(done, j, i, 0);
        MarkBoth(resultsnew, 0, i, j);
        MarkBoth(donenew, 0, i, j);
        MarkBoth(donenew, j, i, 0);
      }
    }
  }

  /** `action_idx_tolid` / `action_idx_tohole` and the two entries they pick. */
  method PickBest(results: array<real>, done: array<real>, mine: int, lid: int, theirs: int)
    returns (best: real, bestDone: real)
    requires results.Length == SIZE && done.Length == SIZE
    requires InAllocation(mine, lid, theirs, CONTINUE) && InAllocation(mine, lid, theirs, STOP)
    ensures best == BestWin(Tables(results[..], done[..]), mine, lid, theirs)
    ensures bestDone == BestDone(Tables(results[..], done[..]), mine, lid, theirs)
    ensures best == Super6.Max(results[Offset(mine, lid, theirs, CONTINUE)], results[Offset(mine, lid, theirs, STOP)])
  {
    var action_idx := if results[Offset(mine, lid, theirs, 1)] > results[Offset(mine, lid, theirs, 0)] then 1 else 0;
    best := results[Offset(mine, lid, theirs, action_idx)];
    bestDone := done[Offset(mine, lid, theirs, action_idx)];
  }

  /** The two continue values of cell (i, j, k), computed before the cell's first assignment,
      in the corrected program: the guard `i + 1 <= MAX_STICKS`, which the source does not
      have, makes the read of the opponent's entry past MAX_STICKS sticks give 0
      (`ContinueWinAsWritten` states the read as written). */
  method ContinueEntries(results: array<real>, done: array<real>, i: int, j: int, k: int)
    returns (cont: real, contDone: real)
    requires results.Length == SIZE && done.Length == SIZE && Super6.InSweep(i, j, k)
    ensures cont == ContinueWin(Tables(results[..], done[..]), i, j, k)
    ensures contDone == ContinueDone(Tables(results[..], done[..]), i, j, k)
  {
    var old_tolid, olddone_tolid := PickBest(results, done, i - 1, j + 1, k);
    var old_tohole, olddone_tohole := PickBest(results, done, i - 1, j, k);
    var handover, doneAfter := 0.0, 0.0;
    if i + 1 <= MAX_STICKS {
      handover := done[Offset(k, j - 1, i + 1, 0)] - results[Offset(k, j - 1, i + 1, 0)];
      doneAfter := done[Offset(k, j - 1, i + 1, 0)];
    }
    cont := Mix(j, old_tolid, old_tohole, handover);
    contDone := Mix(j, olddone_tolid, olddone_tohole, doneAfter);
  }

  /** The body of the k loop for cell (i, j, k): one more iteration of the row started from
      `dst`; `src` is the pair of tables a synchronous pass reads. */
  method UpdateCell(results: array<real>, resultsnew: array<real>, done: array<real>, donenew: array<real>,
                    i: int, j: int, k: int, ghost src: Tables, ghost dst: Tables)
    requires Buffers(results, resultsnew, done, donenew) && Super6.InSweep(i, j, k)
    requires results == resultsnew || Tables(results[..], done[..]) == src
    requires Tables(resultsnew[..], donenew[..]) == CellsRow(src, dst, results == resultsnew, i, j, k - 1)
    modifies resultsnew, donenew
    ensures Tables(resultsnew[..], donenew[..]) == CellsRow(src, dst, results == resultsnew, i, j, k)
  {
    ghost var inPlace := results == resultsnew;
    ghost var t0 := Tables(resultsnew[..], donenew[..]);
    CellWrites(src, t0, inPlace, i, j, k);
    var cont, contDone := ContinueEntries(results, done, i, j, k);
    resultsnew[Offset(i, j, k, 0)] := cont;
    ghost var t1 := Tables(resultsnew[..], donenew[..]);
    assert t1 == Write(src, t0, inPlace, i, j, k, 0);
    resultsnew[Offset(i, j, k, 1)] := done[Offset(k, j, i, 0)] - results[Offset(k, j, i, 0)];
    ghost var t2 := Tables(resultsnew[..], donenew[..]);
    assert t2 == Write(src, t1, inPlace, i, j, k, 1);
    if inPlace {
      ResultsWritesKeepChoice(t0, i, j, k);
    }
    donenew[Offset(i, j, k, 0)] := contDone;
    ghost var t3 := Tables(resultsnew[..], donenew[..]);
    assert t3 == Write(src, t2, inPlace, i, j, k, 2);
    donenew[Offset(i, j, k, 1)] := done[Offset(k, j, i, 0)];
    assert Tables(resultsnew[..], donenew[..]) == Write(src, t3, inPlace, i, j, k, 3);
  }

  /** The two results assignments of cell (i, j, k) change neither the action picked in the
      states one stick lower nor the `done` table, so the done-continue value computed
      before them is the one the third assignment stores. */
  lemma ResultsWritesKeepChoice(t: Tables, i: int, j: int, k: int)
    requires Super6.InSweep(i, j, k)
    ensures ContinueDone(Write(t, Write(t, t, true, i, j, k, 0), true, i, j, k, 1), i, j, k) ==
            ContinueDone(t, i, j, k)
  {
    var t1 := Write(t, t, true, i, j, k, 0);
    var t2 := Write(t, t1, true, i, j, k, 1);
    assert t2.done == t.done;
    assert Act(t2, i - 1, j, k) == Act(t, i - 1, j, k);
    assert Act(t2, i - 1, j + 1, k) == Act(t, i - 1, j + 1, k);
  }

  /** The k loop of lid row (i, j). */
  method SweepCells(results: array<real>, resultsnew: array<real>, done: array<real>, donenew: array<real>,
                    i: int, j: int, ghost src: Tables)
    requires Buffers(results, resultsnew, done, donenew) && 1 <= i <= MAX_STICKS && 0 <= j <= MAX_PITS
    requires results == resultsnew || Tables(results[..], done[..]) == src
    modifies resultsnew, donenew
    ensures Tables(resultsnew[..], donenew[..]) ==
            CellsRow(src, old(Tables(resultsnew[..], donenew[..])), results == resultsnew, i, j, MAX_STICKS)
  {
    ghost var dst, inPlace := Tables(resultsnew[..], donenew[..]), results == resultsnew;
    for k := 1 to MAX_STICKS + 1
      invariant Tables(resultsnew[..], donenew[..]) == CellsRow(src, dst, inPlace, i, j, k - 1)
      invariant inPlace || Tables(results[..], done[..]) == src
    {
      UpdateCell(results, resultsnew, done, donenew, i, j, k, src, dst);
    }
  }

  /** The j loop of stick row i. */
  method SweepLids(results: array<real>, resultsnew: array<real>, done: array<real>, donenew: array<real>,
                   i: int, ghost src: Tables)
    requires Buffers(results, resultsnew, done, donenew) && 1 <= i <= MAX_STICKS
    requires results == resultsnew || Tables(results[..], done[..]) == src
    modifies resultsnew, donenew
    ensures Tables(resultsnew[..], donenew[..]) ==
            LidRows(src, old(Tables(resultsnew[..], donenew[..])), results == resultsnew, i, MAX_PITS + 1)
  {
    ghost var dst, inPlace := Tables(resultsnew[..], donenew[..]), results == resultsnew;
    for j := 0 to MAX_PITS + 1
      invariant Tables(resultsnew[..], donenew[..]) == LidRows(src, dst, inPlace, i, j)
      invariant inPlace || Tables(results[..], done[..]) == src
    {
      SweepCells(results, resultsnew, done, donenew, i, j, src);
    }
  }

  /** One pass of the i, j, k loops. */
  method SweepInto(results: array<real>, resultsnew: array<real>, done: array<real>, donenew: array<real>)
    requires Buffers(results, resultsnew, done, donenew)
    modifies resultsnew, donenew
    ensures Tables(resultsnew[..], donenew[..]) ==
            Sweep(Tables(old(results[..]), old(done[..])), Tables(old(resultsnew[..]), old(donenew[..])),
                  results == resultsnew)
  {
    ghost var src := Tables(results[..], done[..]);
    ghost var dst := Tables(resultsnew[..], donenew[..]);
    ghost var inPlace := results == resultsnew;
    for i := 1 to MAX_STICKS + 1
      invariant Tables(resultsnew[..], donenew[..]) == StickRows(src, dst, inPlace, i - 1)
      invariant inPlace || Tables(results[..], done[..]) == src
    {
      SweepLids(results, resultsnew, done, donenew, i, src);
    }
  }

  /** The pair of tables two arrays hold. */
  ghost function Contents(results: array<real>, done: array<real>): Tables
    requires results.Length == SIZE && done.Length == SIZE
    reads results, done
  {
    Tables(results[..], done[..])
  }

  /** One pass of the round loop. */
  method Round(results: array<real>, resultsnew: array<real>, done: array<real>, donenew: array<real>,
               ghost seed: Tables, ghost h: nat)
    requires Buffers(results, resultsnew, done, donenew)
    requires h == 0 ==> results != resultsnew && Contents(resultsnew, donenew) == Contents(results, done)
    requires h > 0 ==> results == resultsnew
    requires Contents(results, done) == Iterate(seed, h)
    modifies resultsnew, donenew
    ensures Contents(resultsnew, donenew) == Iterate(seed, h + 1)
  {
    SweepInto(results, resultsnew, done, donenew);
  }

  /** The four allocations, `new double[17][6][17][2]()`, and the corrected seeding loop. */
  method NewBuffers() returns (results: array<real>, resultsnew: array<real>, done: array<real>, donenew: array<real>)
    ensures fresh(results) && fresh(resultsnew) && fresh(done) && fresh(donenew)
    ensures Buffers(results, resultsnew, done, donenew) && results != resultsnew
    ensures Contents(results, done) == SeedTables() && Contents(resultsnew, donenew) == SeedTables()
  {
    results := new real[SIZE](_ => 0.0);
    resultsnew := new real[SIZE](_ => 0.0);
    done := new real[SIZE](_ => 0.0);
    donenew := new real[SIZE](_ => 0.0);
    assert results[..] == Zeros() && resultsnew[..] == Zeros();
    assert done[..] == Zeros() && donenew[..] == Zeros();
    SeedBuffers(results, resultsnew, done, donenew);
  }

  /** The round loop, `for (h = 0; h < MAX_ROUNDS; h++)`, from freshly seeded buffers: the
      first pass reads `results` and writes `resultsnew`, then each table is aliased with its
      `new` partner, so `resultsnew` and `donenew` are the only arrays written. */
  method RunRounds(results0: array<real>, resultsnew0: array<real>, done0: array<real>, donenew0: array<real>)
    returns (results: array<real>, resultsnew: array<real>, done: array<real>, donenew: array<real>)
    requires Buffers(results0, resultsnew0, done0, donenew0) && results0 != resultsnew0
    requires Contents(resultsnew0, donenew0) == Contents(results0, done0)
    modifies resultsnew0, donenew0
    ensures results == resultsnew == resultsnew0 && done == donenew == donenew0
    ensures Contents(results, done) == Iterate(old(Contents(results0, done0)), MAX_ROUNDS)
  {
    ghost var seed := Contents(results0, done0);
    results, resultsnew, done, donenew := results0, resultsnew0, done0, donenew0;
    var h := 0;
    while h < MAX_ROUNDS
      invariant 0 <= h <= MAX_ROUNDS
      invariant resultsnew == resultsnew0 && donenew == donenew0
      invariant Buffers(results, resultsnew, done, donenew)
      invariant h == 0 ==> results != resultsnew && Contents(resultsnew, donenew) == Contents(results, done)
      invariant h > 0 ==> results == resultsnew
      invariant Contents(results, done) == Iterate(seed, h)
    {
      Round(results, resultsnew, done, donenew, seed, h);
      done := donenew;
      results := resultsnew;
      h := h + 1;
    }
  }

  /** The corrected program (seeding bounded by MAX_PITS, no read past MAX_STICKS sticks): on
      return each table is aliased with its `new` partner and the pair holds
      `Rounds(MAX_ROUNDS)`, which `SameAsEarlierVersion` relates to the 2023-03-13 version. */
  method Solve() returns (results: array<real>, resultsnew: array<real>, done: array<real>, donenew: array<real>)
    ensures results == resultsnew && done == donenew
    ensures results.Length == SIZE && done.Length == SIZE
    ensures Contents(results, done) == Rounds(MAX_ROUNDS)
  {
    var r0, rn0, d0, dn0 := NewBuffers();
    results, resultsnew, done, donenew := RunRounds(r0, rn0, d0, dn0);
  }
}
