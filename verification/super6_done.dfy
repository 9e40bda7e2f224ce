/** The second solver (2023-03-13, hultberg2.cpp): win probabilities together with the
    probability that the game is over.

    Beside `results` it keeps `done[i][j][k][a]`, the probability that the game has ended
    within the rounds counted so far. A turn that passes to the opponent credits the mover with
    `done - results` of the opponent's continue entry: the games that ended, minus those the
    opponent won. The successor's action is chosen with `>=`, so ties go to continue, and the
    `done` value is taken at the same action. Both tables have the layout of the first solver
    and are swapped by `done = donenew; results = resultsnew`, which again makes every sweep
    after the first work in place. The done entries stay probabilities in every round
    (`RoundsDoneInUnit`), but the second round already writes a negative win probability
    (`SecondRoundBreaksOrder`).
 */
module Super6Done {
  import opened Dice
  import opened Super6

  datatype Tables = Tables(results: Table, done: Table)

  /** Every cell satisfies 0 <= results <= done <= 1. */
  predicate Ordered(t: Tables) {
    forall n :: 0 <= n < SIZE ==> 0.0 <= t.results[n] <= t.done[n] <= 1.0
  }

  // ---------------------------------------------------------------- seeding

  /** Round-0 `done`: the game is over when either player holds no sticks. */
  function DoneSeedValue(mine: int, lid: int, theirs: int, act: int): real {
    if 0 <= lid <= MAX_STICKS
       && ((mine == 0 && 1 <= theirs <= MAX_STICKS) || (theirs == 0 && 1 <= mine <= MAX_STICKS))
    then 1.0 else 0.0
  }

  /** `done` or `donenew` after iterations j = 1..n of the inner seeding loop for lid i:
      `done[0][i][j][*] = 1` and `done[j][i][0][*] = 1`. */
  function SeededDoneRow(t: Table, i: int, n: int): Table
    requires 0 <= i <= MAX_STICKS && 0 <= n <= MAX_STICKS
  {
    if n == 0 then t else SetBoth(SetBoth(SeededDoneRow(t, i, n - 1), 0, i, n, 1.0), n, i, 0, 1.0)
  }

  /** `done` or `donenew` after the outer seeding loop has run for the lids 0..m-1. */
  function SeededDone(t: Table, m: int): Table
    requires 0 <= m <= MAX_STICKS + 1
  {
    if m == 0 then t else SeededDoneRow(SeededDone(t, m - 1), m - 1, MAX_STICKS)
  }

  function SeedTables(): Tables {
    Tables(SeedTable(), SeededDone(Zeros(), MAX_STICKS + 1))
  }

  lemma {:induction false} SeededDoneRowCells(t: Table, i: int, n: int,
                                              mine: int, lid: int, theirs: int, act: int)
    requires 0 <= i <= MAX_STICKS && 0 <= n <= MAX_STICKS && InTable(mine, lid, theirs, act)
    ensures Get(SeededDoneRow(t, i, n), mine, lid, theirs, act) ==
            if lid == i && ((mine == 0 && 1 <= theirs <= n) || (theirs == 0 && 1 <= mine <= n)) then 1.0
            else Get(t, mine, lid, theirs, act)
  {
    if n > 0 {
      var t0 := SeededDoneRow(t, i, n - 1);
      SeededDoneRowCells(t, i, n - 1, mine, lid, theirs, act);
      GetSetBoth(t0, 0, i, n, 1.0, mine, lid, theirs, act);
      GetSetBoth(SetBoth(t0, 0, i, n, 1.0), n, i, 0, 1.0, mine, lid, theirs, act);
    }
  }

  lemma {:induction false} SeededDoneCells(t: Table, m: int, mine: int, lid: int, theirs: int, act: int)
    requires 0 <= m <= MAX_STICKS + 1 && InTable(mine, lid, theirs, act)
    ensures Get(SeededDone(t, m), mine, lid, theirs, act) ==
            if lid < m && ((mine == 0 && 1 <= theirs <= MAX_STICKS) || (theirs == 0 && 1 <= mine <= MAX_STICKS))
            then 1.0
            else Get(t, mine, lid, theirs, act)
  {
    if m > 0 {
      SeededDoneCells(t, m - 1, mine, lid, theirs, act);
      SeededDoneRowCells(SeededDone(t, m - 1), m - 1, MAX_STICKS, mine, lid, theirs, act);
    }
  }

  /** After seeding, `results` holds 1 where the player to move has no sticks, and `done` holds
      1 where either player has none (lid 0..16, other count 1..16); all else is 0. */
  lemma SeedTablesCells(mine: int, lid: int, theirs: int, act: int)
    requires InTable(mine, lid, theirs, act)
    ensures Get(SeedTables().results, mine, lid, theirs, act) == SeedValue(mine, lid, theirs, act)
    ensures Get(SeedTables().done, mine, lid, theirs, act) == DoneSeedValue(mine, lid, theirs, act)
  {
    SeedTableCells(mine, lid, theirs, act);
    SeededDoneCells(Zeros(), MAX_STICKS + 1, mine, lid, theirs, act);
  }

  lemma SeedTablesOrdered()
    ensures Ordered(SeedTables())
  {
    var t := SeedTables();
    forall n | 0 <= n < SIZE
      ensures 0.0 <= t.results[n] <= t.done[n] <= 1.0
    {
      var mine, lid, theirs, act := Decompose(n);
      SeedTablesCells(mine, lid, theirs, act);
    }
  }

  // ---------------------------------------------------------------- one cell

  /** Action the player picks in state (mine, lid, theirs): continue unless stop is strictly
      better (`>=` keeps ties on continue). */
  function Act(t: Tables, mine: int, lid: int, theirs: int): int
    requires InTable(mine, lid, theirs, 0)
  {
    if Get(t.results, mine, lid, theirs, CONTINUE) >= Get(t.results, mine, lid, theirs, STOP)
    then CONTINUE else STOP
  }

  /** `old`: win value of the picked action. */
  function BestWin(t: Tables, mine: int, lid: int, theirs: int): real
    requires InTable(mine, lid, theirs, 0)
  {
    Get(t.results, mine, lid, theirs, Act(t, mine, lid, theirs))
  }

  /** `olddone`: done value of the same action. */
  function BestDone(t: Tables, mine: int, lid: int, theirs: int): real
    requires InTable(mine, lid, theirs, 0)
  {
    Get(t.done, mine, lid, theirs, Act(t, mine, lid, theirs))
  }

  /** The selected win value is the larger of the two, as `std::max` gives it in the first
      solver, and the done value comes from the same action. */
  lemma PickedIsBest(t: Tables, mine: int, lid: int, theirs: int)
    requires InTable(mine, lid, theirs, 0)
    ensures BestWin(t, mine, lid, theirs) == Best(t.results, mine, lid, theirs)
    ensures BestWin(t, mine, lid, theirs) >= Get(t.results, mine, lid, theirs, CONTINUE)
    ensures BestWin(t, mine, lid, theirs) >= Get(t.results, mine, lid, theirs, STOP)
    ensures Act(t, mine, lid, theirs) == STOP <==>
            Get(t.results, mine, lid, theirs, STOP) > Get(t.results, mine, lid, theirs, CONTINUE)
    ensures BestDone(t, mine, lid, theirs) == Get(t.done, mine, lid, theirs, Act(t, mine, lid, theirs))
  {
  }

  /** What a turn passed to the opponent at (mine, lid, theirs) is worth to the mover:
      the games that ended minus those the opponent won. */
  function Handover(t: Tables, mine: int, lid: int, theirs: int): real
    requires InTable(mine, lid, theirs, 0)
  {
    Get(t.done, mine, lid, theirs, CONTINUE) - Get(t.results, mine, lid, theirs, CONTINUE)
  }

  /** New `resultsnew[i][j][k][0]`: the dice outcomes' weighted sum of the picked action's win
      value after a free pit and after a six, and of the handover after an occupied pit. */
  function ContinueWin(t: Tables, i: int, j: int, k: int): real
    requires InSweep(i, j, k)
  {
    Mix(j, if j < PITS then BestWin(t, i - 1, j + 1, k) else 0.0,
        BestWin(t, i - 1, j, k),
        if j > 0 then Handover(t, k, j - 1, i + 1) else 0.0)
  }

  /** New `donenew[i][j][k][0]`: the same weighted sum over the done values, where an occupied
      pit counts the opponent's done entry. */
  function ContinueDone(t: Tables, i: int, j: int, k: int): real
    requires InSweep(i, j, k)
  {
    Mix(j, if j < PITS then BestDone(t, i - 1, j + 1, k) else 0.0,
        BestDone(t, i - 1, j, k),
        if j > 0 then Get(t.done, k, j - 1, i + 1, CONTINUE) else 0.0)
  }

  /** New `resultsnew[i][j][k][1]`: the opponent faces (k, j, i). */
  function StopWin(t: Tables, i: int, j: int, k: int): real
    requires InSweep(i, j, k)
  {
    Handover(t, k, j, i)
  }

  /** New `donenew[i][j][k][1]`. */
  function StopDone(t: Tables, i: int, j: int, k: int): real
    requires InSweep(i, j, k)
  {
    Get(t.done, k, j, i, CONTINUE)
  }

  /** With every game counted as over (`done` all 1) the recurrence is the first solver's. */
  lemma AllDoneIsFirstSolver(t: Tables, i: int, j: int, k: int)
    requires InSweep(i, j, k)
    requires forall n :: 0 <= n < SIZE ==> t.done[n] == 1.0
    ensures ContinueWin(t, i, j, k) == ContinueValue(t.results, i, j, k)
    ensures StopWin(t, i, j, k) == StopValue(t.results, i, j, k)
  {
    PickedIsBest(t, i - 1, j, k);
    if j < PITS {
      PickedIsBest(t, i - 1, j + 1, k);
    }
    if j > 0 {
      assert t.done[Idx(k, j - 1, i + 1, CONTINUE)] == 1.0;
    }
    assert t.done[Idx(k, j, i, CONTINUE)] == 1.0;
  }

  /** Over a table satisfying 0 <= results <= done <= 1, the new continue entries satisfy it too. */
  lemma ContinueOrdered(t: Tables, i: int, j: int, k: int)
    requires InSweep(i, j, k) && Ordered(t)
    ensures 0.0 <= ContinueWin(t, i, j, k) <= ContinueDone(t, i, j, k) <= 1.0
  {
    assert 0.0 <= BestWin(t, i - 1, j, k) <= BestDone(t, i - 1, j, k) <= 1.0 by {
      assert 0.0 <= t.results[Idx(i - 1, j, k, Act(t, i - 1, j, k))] <= t.done[Idx(i - 1, j, k, Act(t, i - 1, j, k))] <= 1.0;
    }
    var freeWin, freeDone := 0.0, 0.0;
    if j < PITS {
      freeWin, freeDone := BestWin(t, i - 1, j + 1, k), BestDone(t, i - 1, j + 1, k);
      assert 0.0 <= t.results[Idx(i - 1, j + 1, k, Act(t, i - 1, j + 1, k))] <= t.done[Idx(i - 1, j + 1, k, Act(t, i - 1, j + 1, k))] <= 1.0;
    }
    var occWin, occDone := 0.0, 0.0;
    if j > 0 {
      occWin, occDone := Handover(t, k, j - 1, i + 1), Get(t.done, k, j - 1, i + 1, CONTINUE);
      assert 0.0 <= t.results[Idx(k, j - 1, i + 1, CONTINUE)] <= t.done[Idx(k, j - 1, i + 1, CONTINUE)] <= 1.0;
    }
    MixWithin(j, freeWin, BestWin(t, i - 1, j, k), occWin, 0.0, 1.0);
    MixWithin(j, freeDone, BestDone(t, i - 1, j, k), occDone, 0.0, 1.0);
    MixMonotone(j, freeWin, BestWin(t, i - 1, j, k), occWin, freeDone, BestDone(t, i - 1, j, k), occDone);
  }

  /** Value of write `w` of cell (i, j, k) over the tables `rd` it reads: in source order
      results continue, results stop, done continue, done stop. */
  function Value(rd: Tables, i: int, j: int, k: int, w: int): real
    requires InSweep(i, j, k) && 0 <= w < 4
  {
    if w == 0 then ContinueWin(rd, i, j, k)
    else if w == 1 then StopWin(rd, i, j, k)
    else if w == 2 then ContinueDone(rd, i, j, k)
    else StopDone(rd, i, j, k)
  }

  /** The entry that write `w` of cell (i, j, k) stores to. */
  function Entry(t: Tables, i: int, j: int, k: int, w: int): real
    requires InSweep(i, j, k) && 0 <= w < 4
  {
    if w < 2 then Get(t.results, i, j, k, w) else Get(t.done, i, j, k, w - 2)
  }

  /** One assignment of the loop body. In place it reads the tables as they stand, otherwise
      the previous round `src`. */
  function Write(src: Tables, t: Tables, inPlace: bool, i: int, j: int, k: int, w: int): Tables
    requires InSweep(i, j, k) && 0 <= w < 4
  {
    var v := Value(if inPlace then t else src, i, j, k, w);
    if w < 2 then Tables(Set(t.results, i, j, k, w, v), t.done)
    else Tables(t.results, Set(t.done, i, j, k, w - 2, v))
  }

  /** A write stores its value to its own entry and changes nothing else. */
  lemma WriteEntry(src: Tables, t: Tables, inPlace: bool, i: int, j: int, k: int, w: int,
                   i': int, j': int, k': int, w': int)
    requires InSweep(i, j, k) && 0 <= w < 4 && InSweep(i', j', k') && 0 <= w' < 4
    ensures Entry(Write(src, t, inPlace, i, j, k, w), i', j', k', w') ==
            if (i', j', k', w') == (i, j, k, w) then Value(if inPlace then t else src, i, j, k, w)
            else Entry(t, i', j', k', w')
  {
    var v := Value(if inPlace then t else src, i, j, k, w);
    if w < 2 && w' < 2 && (i', j', k', w') != (i, j, k, w) {
      SetLeavesOthers(t.results, i, j, k, w, v, i', j', k', w');
    } else if w >= 2 && w' >= 2 && (i', j', k', w') != (i, j, k, w) {
      SetLeavesOthers(t.done, i, j, k, w - 2, v, i', j', k', w' - 2);
    }
  }

  /** A write leaves every other cell of both tables as it was. */
  lemma WriteLeavesOthers(src: Tables, t: Tables, inPlace: bool, i: int, j: int, k: int, w: int,
                          mine: int, lid: int, theirs: int, act: int)
    requires InSweep(i, j, k) && 0 <= w < 4 && InTable(mine, lid, theirs, act)
    requires (mine, lid, theirs) != (i, j, k)
    ensures Get(Write(src, t, inPlace, i, j, k, w).results, mine, lid, theirs, act) ==
            Get(t.results, mine, lid, theirs, act)
    ensures Get(Write(src, t, inPlace, i, j, k, w).done, mine, lid, theirs, act) ==
            Get(t.done, mine, lid, theirs, act)
  {
    var v := Value(if inPlace then t else src, i, j, k, w);
    if w < 2 {
      SetLeavesOthers(t.results, i, j, k, w, v, mine, lid, theirs, act);
    } else {
      SetLeavesOthers(t.done, i, j, k, w - 2, v, mine, lid, theirs, act);
    }
  }

  /** Both tables after the first `w` of the four assignments of cell (i, j, k). */
  function Writes(src: Tables, dst: Tables, inPlace: bool, i: int, j: int, k: int, w: int): Tables
    requires InSweep(i, j, k) && 0 <= w <= 4
  {
    if w == 0 then dst else Write(src, Writes(src, dst, inPlace, i, j, k, w - 1), inPlace, i, j, k, w - 1)
  }

  /** The four assignments of cell (i, j, k), in source order. */
  function Cell(src: Tables, dst: Tables, inPlace: bool, i: int, j: int, k: int): Tables
    requires InSweep(i, j, k)
  {
    Writes(src, dst, inPlace, i, j, k, 4)
  }

  /** A cell update is its four assignments, one after the other. */
  lemma CellWrites(src: Tables, dst: Tables, inPlace: bool, i: int, j: int, k: int)
    requires InSweep(i, j, k)
    ensures Cell(src, dst, inPlace, i, j, k) ==
            Write(src, Write(src, Write(src, Write(src, dst, inPlace, i, j, k, 0), inPlace, i, j, k, 1),
                             inPlace, i, j, k, 2), inPlace, i, j, k, 3)
  {
    assert Writes(src, dst, inPlace, i, j, k, 0) == dst;
    var t1 := Writes(src, dst, inPlace, i, j, k, 1);
    var t2 := Writes(src, dst, inPlace, i, j, k, 2);
    var t3 := Writes(src, dst, inPlace, i, j, k, 3);
    assert t1 == Write(src, dst, inPlace, i, j, k, 0);
    assert t2 == Write(src, t1, inPlace, i, j, k, 1);
    assert t3 == Write(src, t2, inPlace, i, j, k, 2);
  }

  /** Reading the previous round only, a cell stores the four values computed from it. */
  lemma SynchronousCellEntry(src: Tables, dst: Tables, i: int, j: int, k: int, w: int)
    requires InSweep(i, j, k) && 0 <= w < 4
    ensures Entry(Cell(src, dst, false, i, j, k), i, j, k, w) == Value(src, i, j, k, w)
  {
    CellWrites(src, dst, false, i, j, k);
    var t1 := Write(src, dst, false, i, j, k, 0);
    var t2 := Write(src, t1, false, i, j, k, 1);
    var t3 := Write(src, t2, false, i, j, k, 2);
    WriteEntry(src, dst, false, i, j, k, 0, i, j, k, w);
    WriteEntry(src, t1, false, i, j, k, 1, i, j, k, w);
    WriteEntry(src, t2, false, i, j, k, 2, i, j, k, w);
    WriteEntry(src, t3, false, i, j, k, 3, i, j, k, w);
  }

  /** In place, the continue entries are computed from the tables before the cell, the stop
      entries from the opponent's continue entry at (k, j, i) as it stands after the
      continue writes of this cell. In place the previous round `src` is not read. */
  lemma InPlaceCell(src: Tables, t: Tables, i: int, j: int, k: int)
    requires InSweep(i, j, k)
    ensures Entry(Cell(src, t, true, i, j, k), i, j, k, 0) == ContinueWin(t, i, j, k)
    ensures Entry(Cell(src, t, true, i, j, k), i, j, k, 2) == ContinueDone(t, i, j, k)
    ensures Entry(Cell(src, t, true, i, j, k), i, j, k, 1) ==
            Get(t.done, k, j, i, CONTINUE)
            - (if k == i then ContinueWin(t, i, j, k) else Get(t.results, k, j, i, CONTINUE))
    ensures Entry(Cell(src, t, true, i, j, k), i, j, k, 3) ==
            if k == i then ContinueDone(t, i, j, k) else Get(t.done, k, j, i, CONTINUE)
  {
    CellWrites(src, t, true, i, j, k);
    var t1 := Write(src, t, true, i, j, k, 0);
    var t2 := Write(src, t1, true, i, j, k, 1);
    var t3 := Write(src, t2, true, i, j, k, 2);
    var c := Write(src, t3, true, i, j, k, 3);
    forall w | 0 <= w < 4
      ensures Entry(c, i, j, k, w) == Value([t, t1, t2, t3][w], i, j, k, w)
    {
      WriteEntry(src, t, true, i, j, k, 0, i, j, k, w);
      WriteEntry(src, t1, true, i, j, k, 1, i, j, k, w);
      WriteEntry(src, t2, true, i, j, k, 2, i, j, k, w);
      WriteEntry(src, t3, true, i, j, k, 3, i, j, k, w);
    }
    WriteEntry(src, t, true, i, j, k, 0, i, j, k, 2);
    WriteEntry(src, t1, true, i, j, k, 1, i, j, k, 2);
    ResultsWritesKeepChoice(src, t, i, j, k);
    if k != i {
      WriteLeavesOthers(src, t, true, i, j, k, 0, k, j, i, CONTINUE);
      WriteLeavesOthers(src, t1, true, i, j, k, 1, k, j, i, CONTINUE);
      WriteLeavesOthers(src, t2, true, i, j, k, 2, k, j, i, CONTINUE);
    } else {
      WriteEntry(src, t, true, i, j, k, 0, i, j, k, 0);
      WriteEntry(src, t2, true, i, j, k, 2, i, j, k, 2);
    }
  }

  /** The two results writes of cell (i, j, k) do not change the action chosen in the states
      one stick lower, so the done-continue write sees the same choice as before the cell. */
  lemma ResultsWritesKeepChoice(src: Tables, t: Tables, i: int, j: int, k: int)
    requires InSweep(i, j, k)
    ensures ContinueDone(Write(src, Write(src, t, true, i, j, k, 0), true, i, j, k, 1), i, j, k) ==
            ContinueDone(t, i, j, k)
  {
    var t1 := Write(src, t, true, i, j, k, 0);
    var t2 := Write(src, t1, true, i, j, k, 1);
    WriteLeavesOthers(src, t, true, i, j, k, 0, i - 1, j, k, CONTINUE);
    WriteLeavesOthers(src, t, true, i, j, k, 0, i - 1, j, k, STOP);
    WriteLeavesOthers(src, t1, true, i, j, k, 1, i - 1, j, k, CONTINUE);
    WriteLeavesOthers(src, t1, true, i, j, k, 1, i - 1, j, k, STOP);
    assert Act(t2, i - 1, j, k) == Act(t, i - 1, j, k);
    if j < PITS {
      WriteLeavesOthers(src, t, true, i, j, k, 0, i - 1, j + 1, k, CONTINUE);
      WriteLeavesOthers(src, t, true, i, j, k, 0, i - 1, j + 1, k, STOP);
      WriteLeavesOthers(src, t1, true, i, j, k, 1, i - 1, j + 1, k, CONTINUE);
      WriteLeavesOthers(src, t1, true, i, j, k, 1, i - 1, j + 1, k, STOP);
      assert Act(t2, i - 1, j + 1, k) == Act(t, i - 1, j + 1, k);
    }
  }

  /** A cell writes its four entries and no other position of either table. */
  lemma CellFlat(src: Tables, dst: Tables, inPlace: bool, i: int, j: int, k: int, n: int)
    requires InSweep(i, j, k) && 0 <= n < SIZE
    requires n != Idx(i, j, k, CONTINUE) && n != Idx(i, j, k, STOP)
    ensures Cell(src, dst, inPlace, i, j, k).results[n] == dst.results[n]
    ensures Cell(src, dst, inPlace, i, j, k).done[n] == dst.done[n]
  {
    CellWrites(src, dst, inPlace, i, j, k);
  }

  /** In place, a cell whose two stick counts differ keeps 0 <= results <= done <= 1: its stop
      entries read a cell that this update does not write. */
  lemma InPlaceCellOrdered(t: Tables, i: int, j: int, k: int)
    requires InSweep(i, j, k) && k != i && Ordered(t)
    ensures Ordered(Cell(t, t, true, i, j, k))
  {
    var c := Cell(t, t, true, i, j, k);
    InPlaceCell(t, t, i, j, k);
    ContinueOrdered(t, i, j, k);
    assert 0.0 <= t.results[Idx(k, j, i, CONTINUE)] <= t.done[Idx(k, j, i, CONTINUE)] <= 1.0;
    forall n | 0 <= n < SIZE
      ensures 0.0 <= c.results[n] <= c.done[n] <= 1.0
    {
      if n != Idx(i, j, k, CONTINUE) && n != Idx(i, j, k, STOP) {
        CellFlat(t, t, true, i, j, k, n);
      }
    }
  }

  /** A table satisfying the invariant: all zero except the won state with no sticks left,
      lid 5, opponent holding 1. */
  function InPlaceWitness(): Tables {
    var r := Set(Set(Zeros(), 0, 5, 1, CONTINUE, 1.0), 0, 5, 1, STOP, 1.0);
    Tables(r, r)
  }

  /** From that table, the in-place update of cell (1, 5, 1) writes a negative stop entry: it
      subtracts the continue entry just written, 1/6, from the done entry, 0. A synchronous
      sweep of the same table keeps the invariant. */
  lemma InPlaceBreaksOrder()
    ensures Ordered(InPlaceWitness())
    ensures Ordered(Sweep(InPlaceWitness(), InPlaceWitness(), false))
    ensures Entry(Cell(InPlaceWitness(), InPlaceWitness(), true, 1, 5, 1), 1, 5, 1, STOP) == -1.0 / 6.0
  {
    var t := InPlaceWitness();
    assert Ordered(t);
    SynchronousSweepOrdered(t, t);
    InPlaceCell(t, t, 1, 5, 1);
    assert BestWin(t, 0, 5, 1) == 1.0;
    assert Handover(t, 1, 4, 2) == 0.0;
    assert Get(t.done, 1, 5, 1, CONTINUE) == 0.0;
  }

  // ---------------------------------------------------------------- one sweep

  /** Both tables after the k loop of lid row (i, j) has run for k = 1..n. */
  function CellsRow(src: Tables, dst: Tables, inPlace: bool, i: int, j: int, n: int): Tables
    requires 1 <= i <= MAX_STICKS && 0 <= j <= PITS && 0 <= n <= MAX_STICKS
    decreases dst, n, 1
  {
    if n == 0 then dst else CellStep(src, dst, inPlace, i, j, n)
  }

  /** Both tables after the k loop of lid row (i, j) has run up to and including k = n. */
  function CellStep(src: Tables, dst: Tables, inPlace: bool, i: int, j: int, n: int): Tables
    requires 1 <= i <= MAX_STICKS && 0 <= j <= PITS && 1 <= n <= MAX_STICKS
    decreases dst, n, 0
  {
    Cell(src, CellsRow(src, dst, inPlace, i, j, n - 1), inPlace, i, j, n)
  }

  /** Both tables after the j loop of stick row i has run for j = 0..m-1. */
  function LidRows(src: Tables, dst: Tables, inPlace: bool, i: int, m: int): Tables
    requires 1 <= i <= MAX_STICKS && 0 <= m <= PITS + 1
  {
    if m == 0 then dst else CellsRow(src, LidRows(src, dst, inPlace, i, m - 1), inPlace, i, m - 1, MAX_STICKS)
  }

  /** Both tables after the i loop has run for i = 1..m. */
  function StickRows(src: Tables, dst: Tables, inPlace: bool, m: int): Tables
    requires 0 <= m <= MAX_STICKS
  {
    if m == 0 then dst else LidRows(src, StickRows(src, dst, inPlace, m - 1), inPlace, m, PITS + 1)
  }

  /** One pass of the i, j, k loops, reading `src` and writing `dst`. */
  function Sweep(src: Tables, dst: Tables, inPlace: bool): Tables {
    StickRows(src, dst, inPlace, MAX_STICKS)
  }

  /** A cell update writes the four entries of its own cell and nothing else. */
  lemma CellLeavesOthers(src: Tables, dst: Tables, inPlace: bool, i: int, j: int, k: int,
                         mine: int, lid: int, theirs: int, act: int)
    requires InSweep(i, j, k) && InTable(mine, lid, theirs, act) && (mine, lid, theirs) != (i, j, k)
    ensures Get(Cell(src, dst, inPlace, i, j, k).results, mine, lid, theirs, act) == Get(dst.results, mine, lid, theirs, act)
    ensures Get(Cell(src, dst, inPlace, i, j, k).done, mine, lid, theirs, act) == Get(dst.done, mine, lid, theirs, act)
  {
    CellWrites(src, dst, inPlace, i, j, k);
    var t1 := Write(src, dst, inPlace, i, j, k, 0);
    var t2 := Write(src, t1, inPlace, i, j, k, 1);
    var t3 := Write(src, t2, inPlace, i, j, k, 2);
    WriteLeavesOthers(src, dst, inPlace, i, j, k, 0, mine, lid, theirs, act);
    WriteLeavesOthers(src, t1, inPlace, i, j, k, 1, mine, lid, theirs, act);
    WriteLeavesOthers(src, t2, inPlace, i, j, k, 2, mine, lid, theirs, act);
    WriteLeavesOthers(src, t3, inPlace, i, j, k, 3, mine, lid, theirs, act);
  }

  /** The k loop of lid row (i, j) writes one contiguous block of both tables. */
  lemma {:induction false} CellsRowFrame(src: Tables, dst: Tables, inPlace: bool, i: int, j: int, n: int, p: int)
    requires 1 <= i <= MAX_STICKS && 0 <= j <= PITS && 0 <= n <= MAX_STICKS && 0 <= p < SIZE
    requires !(Idx(i, j, 1, 0) <= p < Idx(i, j, 1, 0) + 2 * n)
    ensures CellsRow(src, dst, inPlace, i, j, n).results[p] == dst.results[p]
    ensures CellsRow(src, dst, inPlace, i, j, n).done[p] == dst.done[p]
  {
    if n > 0 {
      CellsRowFrame(src, dst, inPlace, i, j, n - 1, p);
      CellFlat(src, CellsRow(src, dst, inPlace, i, j, n - 1), inPlace, i, j, n, p);
    }
  }

  /** The block of cells (i, j, 1..n) holds no other entry. */
  lemma RowBlock(i: int, j: int, n: int, mine: int, lid: int, theirs: int, act: int)
    requires 1 <= i <= MAX_STICKS && 0 <= j <= PITS && 0 <= n <= MAX_STICKS && InTable(mine, lid, theirs, act)
    requires !(mine == i && lid == j && 1 <= theirs <= n)
    ensures !(Idx(i, j, 1, 0) <= Idx(mine, lid, theirs, act) < Idx(i, j, 1, 0) + 2 * n)
  {
    assert Idx(mine, lid, theirs, act) == mine * 800 + lid * 40 + theirs * 2 + act;
  }

  lemma CellsRowLeavesOthers(src: Tables, dst: Tables, inPlace: bool, i: int, j: int, n: int,
                             mine: int, lid: int, theirs: int, act: int)
    requires 1 <= i <= MAX_STICKS && 0 <= j <= PITS && 0 <= n <= MAX_STICKS && InTable(mine, lid, theirs, act)
    requires !(mine == i && lid == j && 1 <= theirs <= n)
    ensures Get(CellsRow(src, dst, inPlace, i, j, n).results, mine, lid, theirs, act) == Get(dst.results, mine, lid, theirs, act)
    ensures Get(CellsRow(src, dst, inPlace, i, j, n).done, mine, lid, theirs, act) == Get(dst.done, mine, lid, theirs, act)
  {
    RowBlock(i, j, n, mine, lid, theirs, act);
    CellsRowFrame(src, dst, inPlace, i, j, n, Idx(mine, lid, theirs, act));
  }

  lemma {:induction false} LidRowsLeavesOthers(src: Tables, dst: Tables, inPlace: bool, i: int, m: int,
                                               mine: int, lid: int, theirs: int, act: int)
    requires 1 <= i <= MAX_STICKS && 0 <= m <= PITS + 1 && InTable(mine, lid, theirs, act)
    requires !(mine == i && lid < m && 1 <= theirs <= MAX_STICKS)
    ensures Get(LidRows(src, dst, inPlace, i, m).results, mine, lid, theirs, act) == Get(dst.results, mine, lid, theirs, act)
    ensures Get(LidRows(src, dst, inPlace, i, m).done, mine, lid, theirs, act) == Get(dst.done, mine, lid, theirs, act)
  {
    if m > 0 {
      LidRowsLeavesOthers(src, dst, inPlace, i, m - 1, mine, lid, theirs, act);
      CellsRowLeavesOthers(src, LidRows(src, dst, inPlace, i, m - 1), inPlace, i, m - 1, MAX_STICKS, mine, lid, theirs, act);
    }
  }

  lemma {:induction false} StickRowsLeavesOthers(src: Tables, dst: Tables, inPlace: bool, m: int,
                                                 mine: int, lid: int, theirs: int, act: int)
    requires 0 <= m <= MAX_STICKS && InTable(mine, lid, theirs, act)
    requires !(1 <= mine <= m && lid <= PITS && 1 <= theirs <= MAX_STICKS)
    ensures Get(StickRows(src, dst, inPlace, m).results, mine, lid, theirs, act) == Get(dst.results, mine, lid, theirs, act)
    ensures Get(StickRows(src, dst, inPlace, m).done, mine, lid, theirs, act) == Get(dst.done, mine, lid, theirs, act)
  {
    if m > 0 {
      StickRowsLeavesOthers(src, dst, inPlace, m - 1, mine, lid, theirs, act);
      LidRowsLeavesOthers(src, StickRows(src, dst, inPlace, m - 1), inPlace, m, PITS + 1, mine, lid, theirs, act);
    }
  }

  /** A sweep, in place or not, never writes a cell where a player holds no sticks (nor any
      other cell outside i in 1..16, j in 0..5, k in 1..16). */
  lemma SweepLeavesOthers(src: Tables, dst: Tables, inPlace: bool,
                          mine: int, lid: int, theirs: int, act: int)
    requires InTable(mine, lid, theirs, act) && !InSweep(mine, lid, theirs)
    ensures Get(Sweep(src, dst, inPlace).results, mine, lid, theirs, act) == Get(dst.results, mine, lid, theirs, act)
    ensures Get(Sweep(src, dst, inPlace).done, mine, lid, theirs, act) == Get(dst.done, mine, lid, theirs, act)
  {
    StickRowsLeavesOthers(src, dst, inPlace, MAX_STICKS, mine, lid, theirs, act);
  }

  /** Once the k loop has passed cell (i, j, n0), its later iterations leave it as it is. */
  lemma {:induction false} CellsRowKeeps(src: Tables, dst: Tables, inPlace: bool, i: int, j: int, n0: int, n: int,
                                         mine: int, lid: int, theirs: int, act: int)
    requires 1 <= i <= MAX_STICKS && 0 <= j <= PITS && 0 <= n0 <= n <= MAX_STICKS && InTable(mine, lid, theirs, act)
    requires !(mine == i && lid == j && n0 < theirs <= n)
    ensures Get(CellsRow(src, dst, inPlace, i, j, n).results, mine, lid, theirs, act) ==
            Get(CellsRow(src, dst, inPlace, i, j, n0).results, mine, lid, theirs, act)
    ensures Get(CellsRow(src, dst, inPlace, i, j, n).done, mine, lid, theirs, act) ==
            Get(CellsRow(src, dst, inPlace, i, j, n0).done, mine, lid, theirs, act)
  {
    if n > n0 {
      CellsRowKeeps(src, dst, inPlace, i, j, n0, n - 1, mine, lid, theirs, act);
      CellLeavesOthers(src, CellsRow(src, dst, inPlace, i, j, n - 1), inPlace, i, j, n, mine, lid, theirs, act);
    }
  }

  /** Once the j loop of stick row i has passed lid row m0, its later iterations leave it. */
  lemma {:induction false} LidRowsKeeps(src: Tables, dst: Tables, inPlace: bool, i: int, m0: int, m: int,
                                        mine: int, lid: int, theirs: int, act: int)
    requires 1 <= i <= MAX_STICKS && 0 <= m0 <= m <= PITS + 1 && InTable(mine, lid, theirs, act)
    requires !(mine == i && m0 <= lid < m)
    ensures Get(LidRows(src, dst, inPlace, i, m).results, mine, lid, theirs, act) ==
            Get(LidRows(src, dst, inPlace, i, m0).results, mine, lid, theirs, act)
    ensures Get(LidRows(src, dst, inPlace, i, m).done, mine, lid, theirs, act) ==
            Get(LidRows(src, dst, inPlace, i, m0).done, mine, lid, theirs, act)
  {
    if m > m0 {
      LidRowsKeeps(src, dst, inPlace, i, m0, m - 1, mine, lid, theirs, act);
      CellsRowLeavesOthers(src, LidRows(src, dst, inPlace, i, m - 1), inPlace, i, m - 1, MAX_STICKS,
                           mine, lid, theirs, act);
    }
  }

  /** Once the i loop has passed stick row m0, its later iterations leave it. */
  lemma {:induction false} StickRowsKeeps(src: Tables, dst: Tables, inPlace: bool, m0: int, m: int,
                                          mine: int, lid: int, theirs: int, act: int)
    requires 0 <= m0 <= m <= MAX_STICKS && InTable(mine, lid, theirs, act)
    requires !(m0 < mine <= m)
    ensures Get(StickRows(src, dst, inPlace, m).results, mine, lid, theirs, act) ==
            Get(StickRows(src, dst, inPlace, m0).results, mine, lid, theirs, act)
    ensures Get(StickRows(src, dst, inPlace, m).done, mine, lid, theirs, act) ==
            Get(StickRows(src, dst, inPlace, m0).done, mine, lid, theirs, act)
  {
    if m > m0 {
      StickRowsKeeps(src, dst, inPlace, m0, m - 1, mine, lid, theirs, act);
      LidRowsLeavesOthers(src, StickRows(src, dst, inPlace, m - 1), inPlace, m, PITS + 1, mine, lid, theirs, act);
    }
  }

  /** Cell (mine, lid, theirs) comes before cell (i, j, k) in the order of the i, j, k loops. */
  predicate Earlier(mine: int, lid: int, theirs: int, i: int, j: int, k: int) {
    && InSweep(mine, lid, theirs)
    && (mine < i || (mine == i && (lid < j || (lid == j && theirs < k))))
  }

  /** Both tables as the sweep reaches cell (i, j, k), before its four assignments. */
  function Before(src: Tables, dst: Tables, inPlace: bool, i: int, j: int, k: int): Tables
    requires InSweep(i, j, k)
  {
    CellsRow(src, LidRows(src, StickRows(src, dst, inPlace, i - 1), inPlace, i, j), inPlace, i, j, k - 1)
  }

  /** What the sweep leaves in cell (i, j, k) is what its own update writes there. */
  lemma SweepCell(src: Tables, dst: Tables, inPlace: bool, i: int, j: int, k: int, act: int)
    requires InSweep(i, j, k) && 0 <= act < 2
    ensures Get(Sweep(src, dst, inPlace).results, i, j, k, act) ==
            Get(Cell(src, Before(src, dst, inPlace, i, j, k), inPlace, i, j, k).results, i, j, k, act)
    ensures Get(Sweep(src, dst, inPlace).done, i, j, k, act) ==
            Get(Cell(src, Before(src, dst, inPlace, i, j, k), inPlace, i, j, k).done, i, j, k, act)
  {
    var rows := StickRows(src, dst, inPlace, i - 1);
    var lids := LidRows(src, rows, inPlace, i, j);
    StickRowsKeeps(src, dst, inPlace, i, MAX_STICKS, i, j, k, act);
    LidRowsKeeps(src, rows, inPlace, i, j + 1, PITS + 1, i, j, k, act);
    CellsRowKeeps(src, lids, inPlace, i, j, k, MAX_STICKS, i, j, k, act);
  }

  /** As the sweep reaches cell (i, j, k), the cells before it hold what the sweep leaves in
      them and every other entry still holds `dst`. In place, this is what the cell reads:
      this round's values for the earlier cells, the previous round's for the rest. */
  lemma BeforeReads(src: Tables, dst: Tables, inPlace: bool, i: int, j: int, k: int,
                    mine: int, lid: int, theirs: int, act: int)
    requires InSweep(i, j, k) && InTable(mine, lid, theirs, act)
    ensures Get(Before(src, dst, inPlace, i, j, k).results, mine, lid, theirs, act) ==
            if Earlier(mine, lid, theirs, i, j, k) then Get(Sweep(src, dst, inPlace).results, mine, lid, theirs, act)
            else Get(dst.results, mine, lid, theirs, act)
    ensures Get(Before(src, dst, inPlace, i, j, k).done, mine, lid, theirs, act) ==
            if Earlier(mine, lid, theirs, i, j, k) then Get(Sweep(src, dst, inPlace).done, mine, lid, theirs, act)
            else Get(dst.done, mine, lid, theirs, act)
  {
    var rows := StickRows(src, dst, inPlace, i - 1);
    var lids := LidRows(src, rows, inPlace, i, j);
    if Earlier(mine, lid, theirs, i, j, k) {
      if mine < i {
        StickRowsKeeps(src, dst, inPlace, i - 1, MAX_STICKS, mine, lid, theirs, act);
        LidRowsLeavesOthers(src, rows, inPlace, i, j, mine, lid, theirs, act);
        CellsRowLeavesOthers(src, lids, inPlace, i, j, k - 1, mine, lid, theirs, act);
      } else if lid < j {
        StickRowsKeeps(src, dst, inPlace, i, MAX_STICKS, mine, lid, theirs, act);
        LidRowsKeeps(src, rows, inPlace, i, j, PITS + 1, mine, lid, theirs, act);
        CellsRowLeavesOthers(src, lids, inPlace, i, j, k - 1, mine, lid, theirs, act);
      } else {
        StickRowsKeeps(src, dst, inPlace, i, MAX_STICKS, mine, lid, theirs, act);
        LidRowsKeeps(src, rows, inPlace, i, j + 1, PITS + 1, mine, lid, theirs, act);
        CellsRowKeeps(src, lids, inPlace, i, j, k - 1, MAX_STICKS, mine, lid, theirs, act);
      }
    } else {
      CellsRowLeavesOthers(src, lids, inPlace, i, j, k - 1, mine, lid, theirs, act);
      LidRowsLeavesOthers(src, rows, inPlace, i, j, mine, lid, theirs, act);
      StickRowsLeavesOthers(src, dst, inPlace, i - 1, mine, lid, theirs, act);
    }
  }

  /** Cell (i, j, k) of `t` holds the four values a synchronous update computes from `src`. */
  predicate Computed(src: Tables, t: Tables, i: int, j: int, k: int)
    requires InSweep(i, j, k)
  {
    && Get(t.results, i, j, k, CONTINUE) == ContinueWin(src, i, j, k)
    && Get(t.results, i, j, k, STOP) == StopWin(src, i, j, k)
    && Get(t.done, i, j, k, CONTINUE) == ContinueDone(src, i, j, k)
    && Get(t.done, i, j, k, STOP) == StopDone(src, i, j, k)
  }

  /** A synchronous cell update keeps what earlier cells hold and computes its own cell from
      `src`. */
  lemma SynchronousCell(src: Tables, prev: Tables, i: int, j: int, k: int, i': int, j': int, k': int)
    requires InSweep(i, j, k) && InSweep(i', j', k')
    requires (i', j', k') == (i, j, k) || Computed(src, prev, i', j', k')
    ensures Computed(src, Cell(src, prev, false, i, j, k), i', j', k')
  {
    if (i', j', k') != (i, j, k) {
      CellLeavesOthers(src, prev, false, i, j, k, i', j', k', CONTINUE);
      CellLeavesOthers(src, prev, false, i, j, k, i', j', k', STOP);
    } else {
      SynchronousCellEntry(src, prev, i, j, k, 0);
      SynchronousCellEntry(src, prev, i, j, k, 1);
      SynchronousCellEntry(src, prev, i, j, k, 2);
      SynchronousCellEntry(src, prev, i, j, k, 3);
    }
  }

  lemma {:induction false} SynchronousCellsRow(src: Tables, dst: Tables, i: int, j: int, n: int,
                                               i': int, j': int, k': int)
    requires 1 <= i <= MAX_STICKS && 0 <= j <= PITS && 0 <= n <= MAX_STICKS && InSweep(i', j', k')
    requires ((i', j') == (i, j) && k' <= n) || Computed(src, dst, i', j', k')
    ensures Computed(src, CellsRow(src, dst, false, i, j, n), i', j', k')
  {
    if n > 0 {
      if (i', j', k') != (i, j, n) {
        SynchronousCellsRow(src, dst, i, j, n - 1, i', j', k');
      }
      SynchronousCell(src, CellsRow(src, dst, false, i, j, n - 1), i, j, n, i', j', k');
    }
  }

  lemma {:induction false} SynchronousLidRows(src: Tables, dst: Tables, i: int, m: int, i': int, j': int, k': int)
    requires 1 <= i <= MAX_STICKS && 0 <= m <= PITS + 1 && InSweep(i', j', k')
    requires (i' == i && j' < m) || Computed(src, dst, i', j', k')
    ensures Computed(src, LidRows(src, dst, false, i, m), i', j', k')
  {
    if m > 0 {
      if (i', j') != (i, m - 1) {
        SynchronousLidRows(src, dst, i, m - 1, i', j', k');
      }
      SynchronousCellsRow(src, LidRows(src, dst, false, i, m - 1), i, m - 1, MAX_STICKS, i', j', k');
    }
  }

  lemma {:induction false} SynchronousStickRows(src: Tables, dst: Tables, m: int, i': int, j': int, k': int)
    requires 0 <= m <= MAX_STICKS && InSweep(i', j', k')
    requires i' <= m || Computed(src, dst, i', j', k')
    ensures Computed(src, StickRows(src, dst, false, m), i', j', k')
  {
    if m > 0 {
      if i' != m {
        SynchronousStickRows(src, dst, m - 1, i', j', k');
      }
      SynchronousLidRows(src, StickRows(src, dst, false, m - 1), m, PITS + 1, i', j', k');
    }
  }

  /** A synchronous sweep computes every cell from the previous round alone; the stop entries
      are `done - results` and `done` of the opponent's continue entry at (k, j, i). */
  lemma SynchronousSweep(src: Tables, dst: Tables, i: int, j: int, k: int)
    requires InSweep(i, j, k)
    ensures Get(Sweep(src, dst, false).results, i, j, k, CONTINUE) == ContinueWin(src, i, j, k)
    ensures Get(Sweep(src, dst, false).done, i, j, k, CONTINUE) == ContinueDone(src, i, j, k)
    ensures Get(Sweep(src, dst, false).results, i, j, k, STOP) ==
            Get(src.done, k, j, i, CONTINUE) - Get(src.results, k, j, i, CONTINUE)
    ensures Get(Sweep(src, dst, false).done, i, j, k, STOP) == Get(src.done, k, j, i, CONTINUE)
  {
    SynchronousStickRows(src, dst, MAX_STICKS, i, j, k);
  }

  /** A synchronous sweep keeps 0 <= results <= done <= 1 in every cell. */
  lemma SynchronousSweepOrdered(src: Tables, dst: Tables)
    requires Ordered(src) && Ordered(dst)
    ensures Ordered(Sweep(src, dst, false))
  {
    var t := Sweep(src, dst, false);
    forall n | 0 <= n < SIZE
      ensures 0.0 <= t.results[n] <= t.done[n] <= 1.0
    {
      var mine, lid, theirs, act := Decompose(n);
      if InSweep(mine, lid, theirs) {
        SynchronousSweep(src, dst, mine, lid, theirs);
        ContinueOrdered(src, mine, lid, theirs);
        assert 0.0 <= src.results[Idx(theirs, lid, mine, CONTINUE)] <= src.done[Idx(theirs, lid, mine, CONTINUE)] <= 1.0;
      } else {
        SweepLeavesOthers(src, dst, false, mine, lid, theirs, act);
      }
    }
  }

  // ---------------------------------------------------------------- the round loop

  /** Both tables after h passes of the round loop as written, started from `seed`: the first
      pass is synchronous, every later one in place. */
  function Iterate(seed: Tables, h: nat): Tables {
    if h == 0 then seed
    else if h == 1 then Sweep(seed, seed, false)
    else Sweep(Iterate(seed, h - 1), Iterate(seed, h - 1), true)
  }

  /** Both tables after h rounds of the program. */
  function Rounds(h: nat): Tables {
    Iterate(SeedTables(), h)
  }

  /** The seeded terminal cells keep their values in every round: a player with no sticks has
      won (results = done = 1), a player whose opponent has none has lost (results = 0,
      done = 1). */
  lemma {:induction false} RoundsKeepTerminalCells(h: nat, mine: int, lid: int, theirs: int, act: int)
    requires InTable(mine, lid, theirs, act) && 0 <= lid <= MAX_STICKS
    requires (mine == 0 && 1 <= theirs <= MAX_STICKS) || (theirs == 0 && 1 <= mine <= MAX_STICKS)
    ensures Get(Rounds(h).results, mine, lid, theirs, act) == if mine == 0 then 1.0 else 0.0
    ensures Get(Rounds(h).done, mine, lid, theirs, act) == 1.0
  {
    SeedTablesCells(mine, lid, theirs, act);
    if h == 1 {
      SweepLeavesOthers(SeedTables(), SeedTables(), false, mine, lid, theirs, act);
    } else if h > 1 {
      RoundsKeepTerminalCells(h - 1, mine, lid, theirs, act);
      SweepLeavesOthers(Rounds(h - 1), Rounds(h - 1), true, mine, lid, theirs, act);
    }
  }

  // ---------------------------------------------------------------- what the aliased rounds keep

  /** Over tables whose done entries are probabilities, the new done-continue entry is one. */
  lemma ContinueDoneInUnit(t: Tables, i: int, j: int, k: int)
    requires InSweep(i, j, k) && InUnit(t.done)
    ensures 0.0 <= ContinueDone(t, i, j, k) <= 1.0
  {
    assert 0.0 <= BestDone(t, i - 1, j, k) <= 1.0 by {
      assert 0.0 <= t.done[Idx(i - 1, j, k, Act(t, i - 1, j, k))] <= 1.0;
    }
    var free, occupied := 0.0, 0.0;
    if j < PITS {
      free := BestDone(t, i - 1, j + 1, k);
      assert 0.0 <= t.done[Idx(i - 1, j + 1, k, Act(t, i - 1, j + 1, k))] <= 1.0;
    }
    if j > 0 {
      occupied := Get(t.done, k, j - 1, i + 1, CONTINUE);
      assert 0.0 <= t.done[Idx(k, j - 1, i + 1, CONTINUE)] <= 1.0;
    }
    MixWithin(j, free, BestDone(t, i - 1, j, k), occupied, 0.0, 1.0);
  }

  /** Each of the four assignments, reading the tables as they stand or the previous round,
      keeps every done entry in [0, 1]. */
  lemma WriteDoneInUnit(src: Tables, t: Tables, inPlace: bool, i: int, j: int, k: int, w: int)
    requires InSweep(i, j, k) && 0 <= w < 4 && InUnit(src.done) && InUnit(t.done)
    ensures InUnit(Write(src, t, inPlace, i, j, k, w).done)
  {
    var rd := if inPlace then t else src;
    if w == 2 {
      ContinueDoneInUnit(rd, i, j, k);
    } else if w == 3 {
      assert 0.0 <= rd.done[Idx(k, j, i, CONTINUE)] <= 1.0;
    }
  }

  lemma CellDoneInUnit(src: Tables, dst: Tables, inPlace: bool, i: int, j: int, k: int)
    requires InSweep(i, j, k) && InUnit(src.done) && InUnit(dst.done)
    ensures InUnit(Cell(src, dst, inPlace, i, j, k).done)
  {
    CellWrites(src, dst, inPlace, i, j, k);
    var t1 := Write(src, dst, inPlace, i, j, k, 0);
    var t2 := Write(src, t1, inPlace, i, j, k, 1);
    var t3 := Write(src, t2, inPlace, i, j, k, 2);
    WriteDoneInUnit(src, dst, inPlace, i, j, k, 0);
    WriteDoneInUnit(src, t1, inPlace, i, j, k, 1);
    WriteDoneInUnit(src, t2, inPlace, i, j, k, 2);
    WriteDoneInUnit(src, t3, inPlace, i, j, k, 3);
  }

  lemma {:induction false} CellsRowDoneInUnit(src: Tables, dst: Tables, inPlace: bool, i: int, j: int, n: int)
    requires 1 <= i <= MAX_STICKS && 0 <= j <= PITS && 0 <= n <= MAX_STICKS
    requires InUnit(src.done) && InUnit(dst.done)
    ensures InUnit(CellsRow(src, dst, inPlace, i, j, n).done)
  {
    if n > 0 {
      CellsRowDoneInUnit(src, dst, inPlace, i, j, n - 1);
      CellDoneInUnit(src, CellsRow(src, dst, inPlace, i, j, n - 1), inPlace, i, j, n);
    }
  }

  lemma {:induction false} LidRowsDoneInUnit(src: Tables, dst: Tables, inPlace: bool, i: int, m: int)
    requires 1 <= i <= MAX_STICKS && 0 <= m <= PITS + 1 && InUnit(src.done) && InUnit(dst.done)
    ensures InUnit(LidRows(src, dst, inPlace, i, m).done)
  {
    if m > 0 {
      LidRowsDoneInUnit(src, dst, inPlace, i, m - 1);
      CellsRowDoneInUnit(src, LidRows(src, dst, inPlace, i, m - 1), inPlace, i, m - 1, MAX_STICKS);
    }
  }

  lemma {:induction false} StickRowsDoneInUnit(src: Tables, dst: Tables, inPlace: bool, m: int)
    requires 0 <= m <= MAX_STICKS && InUnit(src.done) && InUnit(dst.done)
    ensures InUnit(StickRows(src, dst, inPlace, m).done)
  {
    if m > 0 {
      StickRowsDoneInUnit(src, dst, inPlace, m - 1);
      LidRowsDoneInUnit(src, StickRows(src, dst, inPlace, m - 1), inPlace, m, PITS + 1);
    }
  }

  /** Every round of the loop as written, the in-place ones included, keeps the done entries
      in [0, 1]. */
  lemma {:induction false} IterateDoneInUnit(seed: Tables, h: nat)
    requires InUnit(seed.done)
    ensures InUnit(Iterate(seed, h).done)
  {
    if h == 1 {
      StickRowsDoneInUnit(seed, seed, false, MAX_STICKS);
    } else if h > 1 {
      IterateDoneInUnit(seed, h - 1);
      StickRowsDoneInUnit(Iterate(seed, h - 1), Iterate(seed, h - 1), true, MAX_STICKS);
    }
  }

  /** The probability that the game is over stays a probability in every round. */
  lemma RoundsDoneInUnit(h: nat)
    ensures InUnit(Rounds(h).done)
  {
    SeedTablesOrdered();
    IterateDoneInUnit(SeedTables(), h);
  }

  /** The seeded table and the first, synchronous, round satisfy 0 <= results <= done <= 1. */
  lemma SynchronousRoundsOrdered()
    ensures Ordered(Rounds(0)) && Ordered(Rounds(1))
  {
    SeedTablesOrdered();
    SynchronousSweepOrdered(SeedTables(), SeedTables());
  }

  /** The seed entries that the second round's cell (2, 0, 2) depends on: a player with no
      sticks has won, and the states in which the mover holds one stick are still open. */
  predicate SecondRoundSeed(seed: Tables) {
    && (forall lid, act :: 0 <= lid <= 2 && 0 <= act < 2 ==> Get(seed.results, 0, lid, 2, act) == 1.0)
    && (forall lid, theirs, act :: 0 <= lid <= 2 && 1 <= theirs <= 3 && 0 <= act < 2 ==>
          Get(seed.results, 1, lid, theirs, act) == 0.0 && Get(seed.done, 1, lid, theirs, act) == 0.0)
  }

  /** After the first round the won states are unchanged and the continue entries of
      (2, 0, 2), (2, 0, 1) and (2, 1, 1) are still 0. */
  lemma FirstRoundEntries(seed: Tables)
    requires SecondRoundSeed(seed)
    ensures forall lid, act :: 0 <= lid <= 2 && 0 <= act < 2 ==> Get(Iterate(seed, 1).results, 0, lid, 2, act) == 1.0
    ensures Get(Iterate(seed, 1).results, 2, 0, 2, CONTINUE) == 0.0 && Get(Iterate(seed, 1).done, 2, 0, 2, CONTINUE) == 0.0
    ensures Get(Iterate(seed, 1).results, 2, 0, 1, CONTINUE) == 0.0 && Get(Iterate(seed, 1).done, 2, 0, 1, CONTINUE) == 0.0
    ensures Get(Iterate(seed, 1).results, 2, 1, 1, CONTINUE) == 0.0 && Get(Iterate(seed, 1).done, 2, 1, 1, CONTINUE) == 0.0
  {
    forall lid, act | 0 <= lid <= 2 && 0 <= act < 2
      ensures Get(Iterate(seed, 1).results, 0, lid, 2, act) == 1.0
    {
      SweepLeavesOthers(seed, seed, false, 0, lid, 2, act);
    }
    SynchronousSweep(seed, seed, 2, 0, 2);
    SynchronousSweep(seed, seed, 2, 0, 1);
    SynchronousSweep(seed, seed, 2, 1, 1);
    assert BestWin(seed, 1, 1, 2) == 0.0 && BestDone(seed, 1, 1, 2) == 0.0;
    assert BestWin(seed, 1, 0, 2) == 0.0 && BestDone(seed, 1, 0, 2) == 0.0;
    assert BestWin(seed, 1, 1, 1) == 0.0 && BestDone(seed, 1, 1, 1) == 0.0;
    assert BestWin(seed, 1, 0, 1) == 0.0 && BestDone(seed, 1, 0, 1) == 0.0;
    assert BestWin(seed, 1, 2, 1) == 0.0 && BestDone(seed, 1, 2, 1) == 0.0;
    assert Handover(seed, 1, 0, 3) == 0.0 && Get(seed.done, 1, 0, 3, CONTINUE) == 0.0;
  }

  /** In the second round, which works in place, the cells (1, 0, 2) and (1, 1, 2) get the
      continue entries 1 and 5/6 and the stop entries 0. */
  lemma SecondRoundStickOne(seed: Tables)
    requires SecondRoundSeed(seed)
    ensures Get(Iterate(seed, 2).results, 1, 0, 2, CONTINUE) == 1.0
    ensures Get(Iterate(seed, 2).results, 1, 0, 2, STOP) == 0.0
    ensures Get(Iterate(seed, 2).results, 1, 1, 2, CONTINUE) == 5.0 / 6.0
    ensures Get(Iterate(seed, 2).results, 1, 1, 2, STOP) == 0.0
  {
    var t1 := Iterate(seed, 1);
    FirstRoundEntries(seed);
    var b := Before(t1, t1, true, 1, 0, 2);
    SweepCell(t1, t1, true, 1, 0, 2, CONTINUE);
    SweepCell(t1, t1, true, 1, 0, 2, STOP);
    InPlaceCell(t1, b, 1, 0, 2);
    BeforeReads(t1, t1, true, 1, 0, 2, 0, 1, 2, CONTINUE);
    BeforeReads(t1, t1, true, 1, 0, 2, 0, 1, 2, STOP);
    BeforeReads(t1, t1, true, 1, 0, 2, 0, 0, 2, CONTINUE);
    BeforeReads(t1, t1, true, 1, 0, 2, 0, 0, 2, STOP);
    BeforeReads(t1, t1, true, 1, 0, 2, 2, 0, 1, CONTINUE);
    assert BestWin(b, 0, 1, 2) == 1.0 && BestWin(b, 0, 0, 2) == 1.0;
    var b' := Before(t1, t1, true, 1, 1, 2);
    SweepCell(t1, t1, true, 1, 1, 2, CONTINUE);
    SweepCell(t1, t1, true, 1, 1, 2, STOP);
    InPlaceCell(t1, b', 1, 1, 2);
    BeforeReads(t1, t1, true, 1, 1, 2, 0, 2, 2, CONTINUE);
    BeforeReads(t1, t1, true, 1, 1, 2, 0, 2, 2, STOP);
    BeforeReads(t1, t1, true, 1, 1, 2, 0, 1, 2, CONTINUE);
    BeforeReads(t1, t1, true, 1, 1, 2, 0, 1, 2, STOP);
    BeforeReads(t1, t1, true, 1, 1, 2, 2, 0, 2, CONTINUE);
    BeforeReads(t1, t1, true, 1, 1, 2, 2, 1, 1, CONTINUE);
    assert BestWin(b', 0, 2, 2) == 1.0 && BestWin(b', 0, 1, 2) == 1.0;
    assert Handover(b', 2, 0, 2) == 0.0 && Handover(b', 2, 1, 1) == 0.0;
  }

  /** From such a seed, the second round writes the stop entry of cell (2, 0, 2) as -31/36.
      The cell is its own opponent's state, so `done[2][0][2][0] - results[2][0][2][0]`
      subtracts the continue entry this cell has just written, 31/36, from the done entry
      of the first round, 0. */
  lemma AliasedSecondRound(seed: Tables)
    requires SecondRoundSeed(seed)
    ensures Get(Iterate(seed, 2).results, 2, 0, 2, STOP) == -31.0 / 36.0
  {
    var t1 := Iterate(seed, 1);
    FirstRoundEntries(seed);
    SecondRoundStickOne(seed);
    var p := Before(t1, t1, true, 2, 0, 2);
    SweepCell(t1, t1, true, 2, 0, 2, STOP);
    InPlaceCell(t1, p, 2, 0, 2);
    BeforeReads(t1, t1, true, 2, 0, 2, 1, 1, 2, CONTINUE);
    BeforeReads(t1, t1, true, 2, 0, 2, 1, 1, 2, STOP);
    BeforeReads(t1, t1, true, 2, 0, 2, 1, 0, 2, CONTINUE);
    BeforeReads(t1, t1, true, 2, 0, 2, 1, 0, 2, STOP);
    BeforeReads(t1, t1, true, 2, 0, 2, 2, 0, 2, CONTINUE);
    assert BestWin(p, 1, 1, 2) == 5.0 / 6.0 && BestWin(p, 1, 0, 2) == 1.0;
  }

  /** The program as written leaves a negative win probability after its second round, where
      the first round and the seed satisfy 0 <= results <= done <= 1. */
  lemma SecondRoundBreaksOrder()
    ensures Ordered(Rounds(1))
    ensures Get(Rounds(2).results, 2, 0, 2, STOP) == -31.0 / 36.0
    ensures !Ordered(Rounds(2))
  {
    SynchronousRoundsOrdered();
    forall lid, act | 0 <= lid <= 2 && 0 <= act < 2
      ensures Get(SeedTables().results, 0, lid, 2, act) == 1.0
    {
      SeedTablesCells(0, lid, 2, act);
    }
    forall lid, theirs, act | 0 <= lid <= 2 && 1 <= theirs <= 3 && 0 <= act < 2
      ensures Get(SeedTables().results, 1, lid, theirs, act) == 0.0 && Get(SeedTables().done, 1, lid, theirs, act) == 0.0
    {
      SeedTablesCells(1, lid, theirs, act);
    }
    AliasedSecondRound(SeedTables());
    assert Rounds(2).results[Idx(2, 0, 2, STOP)] < 0.0;
  }

  // ---------------------------------------------------------------- the corrected loop
  //
  // Not part of the source: the corrected program of the finding on `results = resultsnew`.
  // It exchanges the two table pairs after each pass instead of aliasing them, so that every
  // pass reads only the previous round, as the Python solver's `.copy()` does.

  /** Buffer contents of the corrected loop, started from `seed` in both pairs:
      (current, previous). Every pass is synchronous. */
  function SwappedIterate(seed: Tables, h: nat): (Tables, Tables) {
    if h == 0 then (seed, seed)
    else
      var (cur, prev) := SwappedIterate(seed, h - 1);
      (Sweep(cur, prev, false), cur)
  }

  function SwappedRounds(h: nat): (Tables, Tables) {
    SwappedIterate(SeedTables(), h)
  }

  /** With exchanged buffers a synchronous pass keeps 0 <= results <= done <= 1. */
  lemma {:induction false} SwappedIterateOrdered(seed: Tables, h: nat)
    requires Ordered(seed)
    ensures Ordered(SwappedIterate(seed, h).0) && Ordered(SwappedIterate(seed, h).1)
  {
    if h > 0 {
      SwappedIterateOrdered(seed, h - 1);
      var (cur, prev) := SwappedIterate(seed, h - 1);
      SynchronousSweepOrdered(cur, prev);
    }
  }

  /** Hence 0 <= results <= done <= 1 holds in every round of the corrected program, where the
      program as written breaks it in round 2 (`SecondRoundBreaksOrder`). */
  lemma SwappedRoundsOrdered(h: nat)
    ensures Ordered(SwappedRounds(h).0) && Ordered(SwappedRounds(h).1)
  {
    SeedTablesOrdered();
    SwappedIterateOrdered(SeedTables(), h);
  }

  // ---------------------------------------------------------------- the program

  /** The four tables: equal length, `results` and `done` never the same buffer, and either
      all four distinct or each aliased with its `new` partner. */
  predicate Buffers(results: array<real>, resultsnew: array<real>, done: array<real>, donenew: array<real>)
    reads {}
  {
    && results.Length == SIZE && resultsnew.Length == SIZE
    && done.Length == SIZE && donenew.Length == SIZE
    && results != done && results != donenew && resultsnew != done && resultsnew != donenew
    && (results == resultsnew <==> done == donenew)
  }

  /** The seeding loop, writing all four tables. */
  method SeedBuffers(results: array<real>, resultsnew: array<real>, done: array<real>, donenew: array<real>)
    requires Buffers(results, resultsnew, done, donenew) && results != resultsnew
    modifies results, resultsnew, done, donenew
    ensures results[..] == Seeded(old(results[..]), MAX_STICKS + 1)
    ensures resultsnew[..] == Seeded(old(resultsnew[..]), MAX_STICKS + 1)
    ensures done[..] == SeededDone(old(done[..]), MAX_STICKS + 1)
    ensures donenew[..] == SeededDone(old(donenew[..]), MAX_STICKS + 1)
  {
    for i := 0 to MAX_STICKS + 1
      invariant results[..] == Seeded(old(results[..]), i)
      invariant resultsnew[..] == Seeded(old(resultsnew[..]), i)
      invariant done[..] == SeededDone(old(done[..]), i)
      invariant donenew[..] == SeededDone(old(donenew[..]), i)
    {
      for j := 1 to MAX_STICKS + 1
        invariant results[..] == SeededRow(Seeded(old(results[..]), i), i, j - 1)
        invariant resultsnew[..] == SeededRow(Seeded(old(resultsnew[..]), i), i, j - 1)
        invariant done[..] == SeededDoneRow(SeededDone(old(done[..]), i), i, j - 1)
        invariant donenew[..] == SeededDoneRow(SeededDone(old(donenew[..]), i), i, j - 1)
      {
        MarkBoth(results, 0, i, j);
        MarkBoth(resultsnew, 0, i, j);
        MarkBoth(done, 0, i, j);
        MarkBoth(done, j, i, 0);
        MarkBoth(donenew, 0, i, j);
        MarkBoth(donenew, j, i, 0);
      }
    }
  }

  /** `old` and `olddone` of the loop body: the win and done values of the action picked in
      state (mine, lid, theirs), continue unless stop is strictly better. */
  method PickBest(results: array<real>, done: array<real>, mine: int, lid: int, theirs: int)
    returns (best: real, bestDone: real)
    requires results.Length == SIZE && done.Length == SIZE && InTable(mine, lid, theirs, 0)
    ensures best == Max(Get(results[..], mine, lid, theirs, CONTINUE), Get(results[..], mine, lid, theirs, STOP))
    ensures best == BestWin(Tables(results[..], done[..]), mine, lid, theirs)
    ensures bestDone == BestDone(Tables(results[..], done[..]), mine, lid, theirs)
  {
    best := results[Idx(mine, lid, theirs, 1)];
    bestDone := done[Idx(mine, lid, theirs, 1)];
    if results[Idx(mine, lid, theirs, 0)] >= results[Idx(mine, lid, theirs, 1)] {
      best := results[Idx(mine, lid, theirs, 0)];
      bestDone := done[Idx(mine, lid, theirs, 0)];
    }
  }

  /** The two continue values of cell (i, j, k), branch by branch as the loop body
      computes them before its first assignment. */
  method ContinueEntries(results: array<real>, done: array<real>, i: int, j: int, k: int)
    returns (cont: real, contDone: real)
    requires results.Length == SIZE && done.Length == SIZE && InSweep(i, j, k)
    ensures cont == ContinueWin(Tables(results[..], done[..]), i, j, k)
    ensures contDone == ContinueDone(Tables(results[..], done[..]), i, j, k)
  {
    if j == 5 {
      cont, contDone := FullLidEntries(results, done, i, j, k);
    } else if j == 0 {
      cont, contDone := EmptyLidEntries(results, done, i, j, k);
    } else {
      cont, contDone := PartLidEntries(results, done, i, j, k);
    }
  }

  /** Branch `j == 5`: no free pit is left. */
  method FullLidEntries(results: array<real>, done: array<real>, i: int, j: int, k: int)
    returns (cont: real, contDone: real)
    requires results.Length == SIZE && done.Length == SIZE && InSweep(i, j, k) && j == 5
    ensures cont == ContinueWin(Tables(results[..], done[..]), i, j, k)
    ensures contDone == ContinueDone(Tables(results[..], done[..]), i, j, k)
  {
    var best, bestDone := PickBest(results, done, i - 1, j, k);
    cont := (1.0 / 6.0) * best + (5.0 / 6.0) * (done[Idx(k, j - 1, i + 1, 0)] - results[Idx(k, j - 1, i + 1, 0)]);
    contDone := (1.0 / 6.0) * bestDone + (5.0 / 6.0) * done[Idx(k, j - 1, i + 1, 0)];
  }

  /** Branch `j == 0`: no pit is occupied, so the occupied-pit terms are left out. */
  method EmptyLidEntries(results: array<real>, done: array<real>, i: int, j: int, k: int)
    returns (cont: real, contDone: real)
    requires results.Length == SIZE && done.Length == SIZE && InSweep(i, j, k) && j == 0
    ensures cont == ContinueWin(Tables(results[..], done[..]), i, j, k)
    ensures contDone == ContinueDone(Tables(results[..], done[..]), i, j, k)
  {
    var best1, bestDone1 := PickBest(results, done, i - 1, j + 1, k);
    var best2, bestDone2 := PickBest(results, done, i - 1, j, k);
    cont := ((5.0 - j as real) / 6.0) * best1 + (1.0 / 6.0) * best2;
    contDone := ((5.0 - j as real) / 6.0) * bestDone1 + (1.0 / 6.0) * bestDone2;
    MixIsWeightedSum(j, best1, best2, 0.0);
    MixIsWeightedSum(j, bestDone1, bestDone2, 0.0);
  }

  /** Branch `0 < j < 5`: all three outcomes are possible. */
  method PartLidEntries(results: array<real>, done: array<real>, i: int, j: int, k: int)
    returns (cont: real, contDone: real)
    requires results.Length == SIZE && done.Length == SIZE && InSweep(i, j, k) && 0 < j < 5
    ensures cont == ContinueWin(Tables(results[..], done[..]), i, j, k)
    ensures contDone == ContinueDone(Tables(results[..], done[..]), i, j, k)
  {
    var best1, bestDone1 := PickBest(results, done, i - 1, j + 1, k);
    var best2, bestDone2 := PickBest(results, done, i - 1, j, k);
    var occupied := done[Idx(k, j - 1, i + 1, 0)];
    cont := PartLidSum(j, best1, best2, occupied - results[Idx(k, j - 1, i + 1, 0)]);
    contDone := PartLidSum(j, bestDone1, bestDone2, occupied);
  }

  /** The weighted sum `(5 - j) / 6 * free + 1 / 6 * six + j / 6 * occupied` of one entry. */
  method PartLidSum(j: int, free: real, six: real, occupied: real) returns (sum: real)
    requires 0 < j < 5
    ensures sum == Mix(j, free, six, occupied)
  {
    sum := ((5.0 - j as real) / 6.0) * free + (1.0 / 6.0) * six + (j as real / 6.0) * occupied;
    MixIsWeightedSum(j, free, six, occupied);
  }

  /** The body of the k loop for cell (i, j, k): one more iteration of the row started from
      `dst`; `src` is the pair of tables a synchronous pass reads. */
  method UpdateCell(results: array<real>, resultsnew: array<real>, done: array<real>, donenew: array<real>,
                    i: int, j: int, k: int, ghost src: Tables, ghost dst: Tables)
    requires Buffers(results, resultsnew, done, donenew) && InSweep(i, j, k)
    requires results == resultsnew || Tables(results[..], done[..]) == src
    requires Tables(resultsnew[..], donenew[..]) == CellsRow(src, dst, results == resultsnew, i, j, k - 1)
    modifies resultsnew, donenew
    ensures Tables(resultsnew[..], donenew[..]) == CellsRow(src, dst, results == resultsnew, i, j, k)
  {
    ghost var inPlace := results == resultsnew;
    ghost var t0 := Tables(resultsnew[..], donenew[..]);
    CellWrites(src, t0, inPlace, i, j, k);
    var cont, contDone := ContinueEntries(results, done, i, j, k);
    resultsnew[Idx(i, j, k, 0)] := cont;
    ghost var t1 := Tables(resultsnew[..], donenew[..]);
    assert t1 == Write(src, t0, inPlace, i, j, k, 0);
    resultsnew[Idx(i, j, k, 1)] := done[Idx(k, j, i, 0)] - results[Idx(k, j, i, 0)];
    ghost var t2 := Tables(resultsnew[..], donenew[..]);
    assert t2 == Write(src, t1, inPlace, i, j, k, 1);
    if inPlace {
      ResultsWritesKeepChoice(src, t0, i, j, k);
    }
    donenew[Idx(i, j, k, 0)] := contDone;
    ghost var t3 := Tables(resultsnew[..], donenew[..]);
    assert t3 == Write(src, t2, inPlace, i, j, k, 2);
    donenew[Idx(i, j, k, 1)] := done[Idx(k, j, i, 0)];
    assert Tables(resultsnew[..], donenew[..]) == Write(src, t3, inPlace, i, j, k, 3);
  }

  /** The k loop of lid row (i, j). */
  method SweepCells(results: array<real>, resultsnew: array<real>, done: array<real>, donenew: array<real>,
                    i: int, j: int, ghost src: Tables)
    requires Buffers(results, resultsnew, done, donenew) && 1 <= i <= MAX_STICKS && 0 <= j <= PITS
    requires results == resultsnew || Tables(results[..], done[..]) == src
    modifies resultsnew, donenew
    ensures Tables(resultsnew[..], donenew[..]) ==
            CellsRow(src, old(Tables(resultsnew[..], donenew[..])), results == resultsnew, i, j, MAX_STICKS)
  {
    ghost var dst, inPlace := Tables(resultsnew[..], donenew[..]), results == resultsnew;
    for k := 1 to MAX_STICKS + 1
      invariant Tables(resultsnew[..], donenew[..]) == CellsRow(src, dst, inPlace, i, j, k - 1)
      invariant inPlace || Tables(results[..], done[..]) == src
    {
      UpdateCell(results, resultsnew, done, donenew, i, j, k, src, dst);
    }
  }

  /** The j loop of stick row i. */
  method SweepLids(results: array<real>, resultsnew: array<real>, done: array<real>, donenew: array<real>,
                   i: int, ghost src: Tables)
    requires Buffers(results, resultsnew, done, donenew) && 1 <= i <= MAX_STICKS
    requires results == resultsnew || Tables(results[..], done[..]) == src
    modifies resultsnew, donenew
    ensures Tables(resultsnew[..], donenew[..]) ==
            LidRows(src, old(Tables(resultsnew[..], donenew[..])), results == resultsnew, i, PITS + 1)
  {
    ghost var dst, inPlace := Tables(resultsnew[..], donenew[..]), results == resultsnew;
    for j := 0 to PITS + 1
      invariant Tables(resultsnew[..], donenew[..]) == LidRows(src, dst, inPlace, i, j)
      invariant inPlace || Tables(results[..], done[..]) == src
    {
      SweepCells(results, resultsnew, done, donenew, i, j, src);
    }
  }

  /** One pass of the i, j, k loops. */
  method SweepInto(results: array<real>, resultsnew: array<real>, done: array<real>, donenew: array<real>)
    requires Buffers(results, resultsnew, done, donenew)
    modifies resultsnew, donenew
    ensures Tables(resultsnew[..], donenew[..]) ==
            Sweep(Tables(old(results[..]), old(done[..])), Tables(old(resultsnew[..]), old(donenew[..])),
                  results == resultsnew)
  {
    ghost var src := Tables(results[..], done[..]);
    ghost var dst := Tables(resultsnew[..], donenew[..]);
    ghost var inPlace := results == resultsnew;
    for i := 1 to MAX_STICKS + 1
      invariant Tables(resultsnew[..], donenew[..]) == StickRows(src, dst, inPlace, i - 1)
      invariant inPlace || Tables(results[..], done[..]) == src
    {
      SweepLids(results, resultsnew, done, donenew, i, src);
    }
  }

  /** The four allocations, `new double[20][20][20][2]()`, and the seeding loop. */
  method NewBuffers() returns (results: array<real>, resultsnew: array<real>, done: array<real>, donenew: array<real>)
    ensures fresh(results) && fresh(resultsnew) && fresh(done) && fresh(donenew)
    ensures Buffers(results, resultsnew, done, donenew) && results != resultsnew
    ensures Tables(results[..], done[..]) == SeedTables() && Tables(resultsnew[..], donenew[..]) == SeedTables()
  {
    results := new real[SIZE](_ => 0.0);
    resultsnew := new real[SIZE](_ => 0.0);
    done := new real[SIZE](_ => 0.0);
    donenew := new real[SIZE](_ => 0.0);
    assert results[..] == Zeros() && resultsnew[..] == Zeros();
    assert done[..] == Zeros() && donenew[..] == Zeros();
    SeedBuffers(results, resultsnew, done, donenew);
  }

  /** The round loop as written, from two pairs holding the same tables: the first pass reads
      `results` and writes `resultsnew`, then each table is aliased with its `new` partner, so
      `resultsnew` and `donenew` are the only arrays written. */
  method RunRounds(results0: array<real>, resultsnew0: array<real>, done0: array<real>, donenew0: array<real>)
    returns (results: array<real>, resultsnew: array<real>, done: array<real>, donenew: array<real>)
    requires Buffers(results0, resultsnew0, done0, donenew0) && results0 != resultsnew0
    requires Tables(resultsnew0[..], donenew0[..]) == Tables(results0[..], done0[..])
    modifies resultsnew0, donenew0
    ensures results == resultsnew == resultsnew0 && done == donenew == donenew0
    ensures Tables(results[..], done[..]) == Iterate(old(Tables(results0[..], done0[..])), ROUNDS)
  {
    ghost var seed := Tables(results0[..], done0[..]);
    results, resultsnew, done, donenew := results0, resultsnew0, done0, donenew0;
    var h := 0;
    while h < ROUNDS
      invariant 0 <= h <= ROUNDS
      invariant resultsnew == resultsnew0 && donenew == donenew0
      invariant Buffers(results, resultsnew, done, donenew)
      invariant h == 0 ==> results != resultsnew && Tables(resultsnew[..], donenew[..]) == seed
      invariant h > 0 ==> results == resultsnew
      invariant Tables(results[..], done[..]) == Iterate(seed, h)
    {
      SweepInto(results, resultsnew, done, donenew);
      done := donenew;
      results := resultsnew;
      h := h + 1;
    }
  }

  /** The program as written: on return each table is aliased with its `new` partner and the
      pair holds `Rounds(ROUNDS)`. */
  method Solve() returns (results: array<real>, resultsnew: array<real>, done: array<real>, donenew: array<real>)
    ensures results == resultsnew && done == donenew
    ensures results.Length == SIZE && done.Length == SIZE
    ensures Tables(results[..], done[..]) == Rounds(ROUNDS)
  {
    var r0, rn0, d0, dn0 := NewBuffers();
    results, resultsnew, done, donenew := RunRounds(r0, rn0, d0, dn0);
  }

  /** The corrected round loop, not part of the source: the two pairs are exchanged after
      each pass. */
  method RunSwappedRounds(results0: array<real>, resultsnew0: array<real>, done0: array<real>, donenew0: array<real>)
    returns (results: array<real>, resultsnew: array<real>, done: array<real>, donenew: array<real>)
    requires Buffers(results0, resultsnew0, done0, donenew0) && results0 != resultsnew0
    requires Tables(resultsnew0[..], donenew0[..]) == Tables(results0[..], done0[..])
    modifies results0, resultsnew0, done0, donenew0
    ensures Buffers(results, resultsnew, done, donenew)
    ensures Tables(results[..], done[..]) == SwappedIterate(old(Tables(results0[..], done0[..])), ROUNDS).0
  {
    ghost var seed := Tables(results0[..], done0[..]);
    results, resultsnew, done, donenew := results0, resultsnew0, done0, donenew0;
    var h := 0;
    while h < ROUNDS
      invariant 0 <= h <= ROUNDS
      invariant {results, resultsnew} == {results0, resultsnew0} && {done, donenew} == {done0, donenew0}
      invariant Buffers(results, resultsnew, done, donenew) && results != resultsnew
      invariant Tables(results[..], done[..]) == SwappedIterate(seed, h).0
      invariant Tables(resultsnew[..], donenew[..]) == SwappedIterate(seed, h).1
    {
      SweepInto(results, resultsnew, done, donenew);
      results, resultsnew := resultsnew, results;
      done, donenew := donenew, done;
      h := h + 1;
    }
  }

  /** The corrected program, not part of the source: the buffers are exchanged after each
      pass, so that every pass is synchronous; the current pair holds `SwappedRounds(ROUNDS).0`,
      which satisfies 0 <= results <= done <= 1. */
  method SolveSwapped() returns (results: array<real>, resultsnew: array<real>, done: array<real>, donenew: array<real>)
    ensures results.Length == SIZE && done.Length == SIZE
    ensures Tables(results[..], done[..]) == SwappedRounds(ROUNDS).0
    ensures Ordered(Tables(results[..], done[..]))
  {
    var r0, rn0, d0, dn0 := NewBuffers();
    results, resultsnew, done, donenew := RunSwappedRounds(r0, rn0, d0, dn0);
    SwappedRoundsOrdered(ROUNDS);
  }
}
