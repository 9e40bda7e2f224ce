/** The first solver (2023-03-13, hultberg.cpp): win probabilities only.

    `results[i][j][k][a]` is the probability that the player to move wins, with `i` sticks in
    their own hand, `j` sticks in the lid, `k` sticks in the opponent's hand and action `a`
    (0 = continue, 1 = stop). A player holding no sticks has won. The table is one heap block
    of 20 x 20 x 20 x 2 doubles, kept here as a flat array in row-major order.

    The round loop reads `results` and writes `resultsnew`, then executes `results = resultsnew`:
    from then on both names denote one buffer, so the first sweep is synchronous and every
    later sweep updates the table in place, cell after cell in i, j, k order.
 */
module Super6 {
  import opened Dice

  /** Each of the first three dimensions of `new double [20][20][20][2]`. */
  const DIM := 20
  /** Number of doubles in one table. */
  const SIZE := 16000
  /** Largest stick count the loops visit. */
  const MAX_STICKS := 16
  /** Number of passes of the round loop. */
  const ROUNDS := 10000
  const CONTINUE := 0
  const STOP := 1

  type Table = t: seq<real> | |t| == SIZE witness seq(SIZE, _ => 0.0)

  predicate InTable(mine: int, lid: int, theirs: int, act: int) {
    0 <= mine < DIM && 0 <= lid < DIM && 0 <= theirs < DIM && 0 <= act < 2
  }

  /** Offset of `results[mine][lid][theirs][act]` in the flat buffer. */
  function Idx(mine: int, lid: int, theirs: int, act: int): (n: nat)
    requires InTable(mine, lid, theirs, act)
    ensures n < SIZE
  {
    ((mine * 20 + lid) * 20 + theirs) * 2 + act
  }

  /** Every offset of the buffer addresses exactly one table entry. */
  lemma Decompose(n: int) returns (mine: int, lid: int, theirs: int, act: int)
    requires 0 <= n < SIZE
    ensures InTable(mine, lid, theirs, act) && n == Idx(mine, lid, theirs, act)
  {
    act := n % 2;
    var q := n / 2;
    theirs := q % 20;
    var q2 := q / 20;
    lid := q2 % 20;
    mine := q2 / 20;
    assert q == q2 * 20 + theirs;
    assert q2 == mine * 20 + lid;
  }

  function Get(t: Table, mine: int, lid: int, theirs: int, act: int): real
    requires InTable(mine, lid, theirs, act)
  {
    t[Idx(mine, lid, theirs, act)]
  }

  function Set(t: Table, mine: int, lid: int, theirs: int, act: int, v: real): Table
    requires InTable(mine, lid, theirs, act)
  {
    t[Idx(mine, lid, theirs, act) := v]
  }

  /** Writing one entry leaves every other entry as it was. */
  lemma SetLeavesOthers(t: Table, mine: int, lid: int, theirs: int, act: int, v: real,
                        mine': int, lid': int, theirs': int, act': int)
    requires InTable(mine, lid, theirs, act) && InTable(mine', lid', theirs', act')
    requires (mine, lid, theirs, act) != (mine', lid', theirs', act')
    ensures Get(Set(t, mine, lid, theirs, act, v), mine', lid', theirs', act') == Get(t, mine', lid', theirs', act')
  {
    IdxDistinct(mine, lid, theirs, act, mine', lid', theirs', act');
  }

  /** Distinct entries have distinct offsets. */
  lemma IdxDistinct(mine: int, lid: int, theirs: int, act: int, mine': int, lid': int, theirs': int, act': int)
    requires InTable(mine, lid, theirs, act) && InTable(mine', lid', theirs', act')
    requires (mine, lid, theirs, act) != (mine', lid', theirs', act')
    ensures Idx(mine, lid, theirs, act) != Idx(mine', lid', theirs', act')
  {
    var n, n' := Idx(mine, lid, theirs, act), Idx(mine', lid', theirs', act');
    assert n == mine * 800 + lid * 40 + theirs * 2 + act;
    assert n' == mine' * 800 + lid' * 40 + theirs' * 2 + act';
  }

  /** Both action entries of one state set to `v`, continue first. */
  function SetBoth(t: Table, mine: int, lid: int, theirs: int, v: real): Table
    requires InTable(mine, lid, theirs, 0)
  {
    Set(Set(t, mine, lid, theirs, CONTINUE, v), mine, lid, theirs, STOP, v)
  }

  /** Reading any entry after `SetBoth`. */
  lemma GetSetBoth(t: Table, mine: int, lid: int, theirs: int, v: real,
                   mine': int, lid': int, theirs': int, act': int)
    requires InTable(mine, lid, theirs, 0) && InTable(mine', lid', theirs', act')
    ensures Get(SetBoth(t, mine, lid, theirs, v), mine', lid', theirs', act') ==
            if (mine, lid, theirs) == (mine', lid', theirs') then v else Get(t, mine', lid', theirs', act')
  {
    var t1 := Set(t, mine, lid, theirs, CONTINUE, v);
    if (mine, lid, theirs) != (mine', lid', theirs') {
      SetLeavesOthers(t, mine, lid, theirs, CONTINUE, v, mine', lid', theirs', act');
      SetLeavesOthers(t1, mine, lid, theirs, STOP, v, mine', lid', theirs', act');
    } else if act' == CONTINUE {
      SetLeavesOthers(t1, mine, lid, theirs, STOP, v, mine', lid', theirs', act');
    }
  }

  /** Every entry is a probability. */
  predicate InUnit(t: Table) {
    forall n :: 0 <= n < SIZE ==> 0.0 <= t[n] <= 1.0
  }

  // ---------------------------------------------------------------- seeding

  /** Round-0 content: the player to move with no sticks left has won, whatever the action. */
  function SeedValue(mine: int, lid: int, theirs: int, act: int): real {
    if mine == 0 && 0 <= lid <= MAX_STICKS && 1 <= theirs <= MAX_STICKS then 1.0 else 0.0
  }

  /** `t` after iterations j = 1..n of the inner seeding loop for lid i: each sets
      `[0][i][j][*] = 1`, the player to move has no sticks left and has won. */
  function SeededRow(t: Table, i: int, n: int): Table
    requires 0 <= i <= MAX_STICKS && 0 <= n <= MAX_STICKS
  {
    if n == 0 then t else SetBoth(SeededRow(t, i, n - 1), 0, i, n, 1.0)
  }

  /** `t` after the outer seeding loop has run for the lids 0..m-1. */
  function Seeded(t: Table, m: int): Table
    requires 0 <= m <= MAX_STICKS + 1
  {
    if m == 0 then t else SeededRow(Seeded(t, m - 1), m - 1, MAX_STICKS)
  }

  /** `new double [20][20][20][2]()`: value-initialised to zero. */
  function Zeros(): Table {
    seq(SIZE, _ => 0.0)
  }

  function SeedTable(): Table {
    Seeded(Zeros(), MAX_STICKS + 1)
  }

  lemma {:induction false} SeededRowCells(t: Table, i: int, n: int,
                                          mine: int, lid: int, theirs: int, act: int)
    requires 0 <= i <= MAX_STICKS && 0 <= n <= MAX_STICKS && InTable(mine, lid, theirs, act)
    ensures Get(SeededRow(t, i, n), mine, lid, theirs, act) ==
            if mine == 0 && lid == i && 1 <= theirs <= n then 1.0 else Get(t, mine, lid, theirs, act)
  {
    if n > 0 {
      SeededRowCells(t, i, n - 1, mine, lid, theirs, act);
      GetSetBoth(SeededRow(t, i, n - 1), 0, i, n, 1.0, mine, lid, theirs, act);
    }
  }

  lemma {:induction false} SeededCells(t: Table, m: int, mine: int, lid: int, theirs: int, act: int)
    requires 0 <= m <= MAX_STICKS + 1 && InTable(mine, lid, theirs, act)
    ensures Get(Seeded(t, m), mine, lid, theirs, act) ==
            if mine == 0 && 1 <= theirs <= MAX_STICKS && lid < m then 1.0 else Get(t, mine, lid, theirs, act)
  {
    if m > 0 {
      SeededCells(t, m - 1, mine, lid, theirs, act);
      SeededRowCells(Seeded(t, m - 1), m - 1, MAX_STICKS, mine, lid, theirs, act);
    }
  }

  /** After seeding, exactly the cells with no sticks for the player to move, lid 0..16 and
      opponent 1..16 hold 1; every other cell holds 0. */
  lemma SeedTableCells(mine: int, lid: int, theirs: int, act: int)
    requires InTable(mine, lid, theirs, act)
    ensures Get(SeedTable(), mine, lid, theirs, act) == SeedValue(mine, lid, theirs, act)
  {
    SeededCells(Zeros(), MAX_STICKS + 1, mine, lid, theirs, act);
  }

  lemma {:induction false} SeededRowInUnit(t: Table, i: int, n: int)
    requires 0 <= i <= MAX_STICKS && 0 <= n <= MAX_STICKS && InUnit(t)
    ensures InUnit(SeededRow(t, i, n))
  {
    if n > 0 {
      SeededRowInUnit(t, i, n - 1);
    }
  }

  lemma {:induction false} SeededInUnit(t: Table, m: int)
    requires 0 <= m <= MAX_STICKS + 1 && InUnit(t)
    ensures InUnit(Seeded(t, m))
  {
    if m > 0 {
      SeededInUnit(t, m - 1);
      SeededRowInUnit(Seeded(t, m - 1), m - 1, MAX_STICKS);
    }
  }

  // ---------------------------------------------------------------- one cell

  /** The cells the sweep writes: i in 1..16, j in 0..5, k in 1..16. */
  predicate InSweep(i: int, j: int, k: int) {
    1 <= i <= MAX_STICKS && 0 <= j <= PITS && 1 <= k <= MAX_STICKS
  }

  /** `std::max` on doubles. */
  function Max(x: real, y: real): real {
    if x < y then y else x
  }

  /** Value of the better action in state (mine, lid, theirs). */
  function Best(t: Table, mine: int, lid: int, theirs: int): real
    requires InTable(mine, lid, theirs, 0)
  {
    Max(Get(t, mine, lid, theirs, CONTINUE), Get(t, mine, lid, theirs, STOP))
  }

  /** New continue entry of cell (i, j, k) over the table `t` it reads: the dice outcomes'
      weighted sum of the better action after a free pit (one more stick in the lid), the
      better action after a six (one stick fewer, same lid) and the handover after an
      occupied pit (the opponent faces (k, j - 1, i + 1) and continues). */
  function ContinueValue(t: Table, i: int, j: int, k: int): real
    requires InSweep(i, j, k)
  {
    Mix(j, if j < PITS then Best(t, i - 1, j + 1, k) else 0.0,
        Best(t, i - 1, j, k),
        if j > 0 then 1.0 - Get(t, k, j - 1, i + 1, CONTINUE) else 0.0)
  }

  /** New stop entry: the opponent then faces (k, j, i) and continues. */
  function StopValue(t: Table, i: int, j: int, k: int): real
    requires InSweep(i, j, k)
  {
    1.0 - Get(t, k, j, i, CONTINUE)
  }

  /** The continue entry reads only cells inside the table and is a probability whenever the
      table it reads holds probabilities. */
  lemma ContinueValueInUnit(t: Table, i: int, j: int, k: int)
    requires InSweep(i, j, k) && InUnit(t)
    ensures 0.0 <= ContinueValue(t, i, j, k) <= 1.0
  {
    var six := Best(t, i - 1, j, k);
    assert 0.0 <= six <= 1.0 by {
      assert 0.0 <= t[Idx(i - 1, j, k, CONTINUE)] <= 1.0;
      assert 0.0 <= t[Idx(i - 1, j, k, STOP)] <= 1.0;
    }
    if j < PITS {
      assert 0.0 <= t[Idx(i - 1, j + 1, k, CONTINUE)] <= 1.0;
      assert 0.0 <= t[Idx(i - 1, j + 1, k, STOP)] <= 1.0;
    }
    if j > 0 {
      assert 0.0 <= t[Idx(k, j - 1, i + 1, CONTINUE)] <= 1.0;
    }
    MixWithin(j, if j < PITS then Best(t, i - 1, j + 1, k) else 0.0, six,
              if j > 0 then 1.0 - Get(t, k, j - 1, i + 1, CONTINUE) else 0.0, 0.0, 1.0);
  }

  /** The two writes of cell (i, j, k) into `dst`. With `inPlace` (`results` and `resultsnew`
      are one buffer) each write reads the buffer as it stands, so the stop entry of a cell
      with k == i reads the continue entry written just before; otherwise both read `src`. */
  function Cell(src: Table, dst: Table, inPlace: bool, i: int, j: int, k: int): Table
    requires InSweep(i, j, k)
  {
    var t1 := Set(dst, i, j, k, CONTINUE, ContinueValue(if inPlace then dst else src, i, j, k));
    Set(t1, i, j, k, STOP, StopValue(if inPlace then t1 else src, i, j, k))
  }

  /** A cell update writes the two entries of its own cell and nothing else. */
  lemma CellLeavesOthers(src: Table, dst: Table, inPlace: bool, i: int, j: int, k: int,
                         mine: int, lid: int, theirs: int, act: int)
    requires InSweep(i, j, k) && InTable(mine, lid, theirs, act) && (mine, lid, theirs) != (i, j, k)
    ensures Get(Cell(src, dst, inPlace, i, j, k), mine, lid, theirs, act) == Get(dst, mine, lid, theirs, act)
  {
    var v1 := ContinueValue(if inPlace then dst else src, i, j, k);
    var t1 := Set(dst, i, j, k, CONTINUE, v1);
    SetLeavesOthers(dst, i, j, k, CONTINUE, v1, mine, lid, theirs, act);
    SetLeavesOthers(t1, i, j, k, STOP, StopValue(if inPlace then t1 else src, i, j, k), mine, lid, theirs, act);
  }

  /** A cell update stores the continue value and then the stop value into its own cell. */
  lemma CellEntries(src: Table, dst: Table, inPlace: bool, i: int, j: int, k: int)
    requires InSweep(i, j, k)
    ensures Get(Cell(src, dst, inPlace, i, j, k), i, j, k, CONTINUE) == ContinueValue(if inPlace then dst else src, i, j, k)
    ensures Get(Cell(src, dst, inPlace, i, j, k), i, j, k, STOP) ==
            StopValue(if inPlace then Set(dst, i, j, k, CONTINUE, ContinueValue(dst, i, j, k)) else src, i, j, k)
  {
    var v1 := ContinueValue(if inPlace then dst else src, i, j, k);
    var t1 := Set(dst, i, j, k, CONTINUE, v1);
    SetLeavesOthers(t1, i, j, k, STOP, StopValue(if inPlace then t1 else src, i, j, k), i, j, k, CONTINUE);
  }

  // ---------------------------------------------------------------- one sweep

  /** `dst` after the k loop of lid row (i, j) has run for k = 1..n. */
  function CellsRow(src: Table, dst: Table, inPlace: bool, i: int, j: int, n: int): Table
    requires 1 <= i <= MAX_STICKS && 0 <= j <= PITS && 0 <= n <= MAX_STICKS
    decreases dst, n, 1
  {
    if n == 0 then dst else CellStep(src, dst, inPlace, i, j, n)
  }

  /** `dst` after the k loop of lid row (i, j) has run up to and including k = n: cell n
      updated over the row as the earlier iterations left it. */
  function CellStep(src: Table, dst: Table, inPlace: bool, i: int, j: int, n: int): Table
    requires 1 <= i <= MAX_STICKS && 0 <= j <= PITS && 1 <= n <= MAX_STICKS
    decreases dst, n, 0
  {
    Cell(src, CellsRow(src, dst, inPlace, i, j, n - 1), inPlace, i, j, n)
  }

  /** `dst` after the j loop of stick row i has run for j = 0..m-1. */
  function LidRows(src: Table, dst: Table, inPlace: bool, i: int, m: int): Table
    requires 1 <= i <= MAX_STICKS && 0 <= m <= PITS + 1
  {
    if m == 0 then dst else CellsRow(src, LidRows(src, dst, inPlace, i, m - 1), inPlace, i, m - 1, MAX_STICKS)
  }

  /** `dst` after the i loop has run for i = 1..m. */
  function StickRows(src: Table, dst: Table, inPlace: bool, m: int): Table
    requires 0 <= m <= MAX_STICKS
  {
    if m == 0 then dst else LidRows(src, StickRows(src, dst, inPlace, m - 1), inPlace, m, PITS + 1)
  }

  /** One pass of the i, j, k loops, reading `src` and writing `dst`. */
  function Sweep(src: Table, dst: Table, inPlace: bool): Table {
    StickRows(src, dst, inPlace, MAX_STICKS)
  }

  lemma {:induction false} CellsRowLeavesOthers(src: Table, dst: Table, inPlace: bool, i: int, j: int, n: int,
                                                mine: int, lid: int, theirs: int, act: int)
    requires 1 <= i <= MAX_STICKS && 0 <= j <= PITS && 0 <= n <= MAX_STICKS && InTable(mine, lid, theirs, act)
    requires !(mine == i && lid == j && 1 <= theirs <= n)
    ensures Get(CellsRow(src, dst, inPlace, i, j, n), mine, lid, theirs, act) == Get(dst, mine, lid, theirs, act)
  {
    if n > 0 {
      CellsRowLeavesOthers(src, dst, inPlace, i, j, n - 1, mine, lid, theirs, act);
      CellLeavesOthers(src, CellsRow(src, dst, inPlace, i, j, n - 1), inPlace, i, j, n, mine, lid, theirs, act);
    }
  }

  lemma {:induction false} LidRowsLeavesOthers(src: Table, dst: Table, inPlace: bool, i: int, m: int,
                                               mine: int, lid: int, theirs: int, act: int)
    requires 1 <= i <= MAX_STICKS && 0 <= m <= PITS + 1 && InTable(mine, lid, theirs, act)
    requires !(mine == i && lid < m && 1 <= theirs <= MAX_STICKS)
    ensures Get(LidRows(src, dst, inPlace, i, m), mine, lid, theirs, act) == Get(dst, mine, lid, theirs, act)
  {
    if m > 0 {
      LidRowsLeavesOthers(src, dst, inPlace, i, m - 1, mine, lid, theirs, act);
      CellsRowLeavesOthers(src, LidRows(src, dst, inPlace, i, m - 1), inPlace, i, m - 1, MAX_STICKS, mine, lid, theirs, act);
    }
  }

  lemma {:induction false} StickRowsLeavesOthers(src: Table, dst: Table, inPlace: bool, m: int,
                                                 mine: int, lid: int, theirs: int, act: int)
    requires 0 <= m <= MAX_STICKS && InTable(mine, lid, theirs, act)
    requires !(1 <= mine <= m && lid <= PITS && 1 <= theirs <= MAX_STICKS)
    ensures Get(StickRows(src, dst, inPlace, m), mine, lid, theirs, act) == Get(dst, mine, lid, theirs, act)
  {
    if m > 0 {
      StickRowsLeavesOthers(src, dst, inPlace, m - 1, mine, lid, theirs, act);
      LidRowsLeavesOthers(src, StickRows(src, dst, inPlace, m - 1), inPlace, m, PITS + 1, mine, lid, theirs, act);
    }
  }

  /** A sweep, in place or not, writes only cells with i in 1..16, j in 0..5, k in 1..16. */
  lemma SweepLeavesOthers(src: Table, dst: Table, inPlace: bool,
                          mine: int, lid: int, theirs: int, act: int)
    requires InTable(mine, lid, theirs, act) && !InSweep(mine, lid, theirs)
    ensures Get(Sweep(src, dst, inPlace), mine, lid, theirs, act) == Get(dst, mine, lid, theirs, act)
  {
    StickRowsLeavesOthers(src, dst, inPlace, MAX_STICKS, mine, lid, theirs, act);
  }

  /** Cell (i, j, k) of `t` holds what a synchronous update computes from `src`. */
  predicate Computed(src: Table, t: Table, i: int, j: int, k: int)
    requires InSweep(i, j, k)
  {
    Get(t, i, j, k, CONTINUE) == ContinueValue(src, i, j, k) && Get(t, i, j, k, STOP) == StopValue(src, i, j, k)
  }

  /** A synchronous cell update keeps what earlier cells hold and computes its own cell from
      `src`. */
  lemma SynchronousCell(src: Table, prev: Table, i: int, j: int, k: int, i': int, j': int, k': int)
    requires InSweep(i, j, k) && InSweep(i', j', k')
    requires (i', j', k') == (i, j, k) || Computed(src, prev, i', j', k')
    ensures Computed(src, Cell(src, prev, false, i, j, k), i', j', k')
  {
    if (i', j', k') != (i, j, k) {
      CellLeavesOthers(src, prev, false, i, j, k, i', j', k', CONTINUE);
      CellLeavesOthers(src, prev, false, i, j, k, i', j', k', STOP);
    } else {
      CellEntries(src, prev, false, i, j, k);
    }
  }

  lemma {:induction false} SynchronousCellsRow(src: Table, dst: Table, i: int, j: int, n: int,
                                               i': int, j': int, k': int)
    requires 1 <= i <= MAX_STICKS && 0 <= j <= PITS && 0 <= n <= MAX_STICKS && InSweep(i', j', k')
    requires ((i', j') == (i, j) && k' <= n) || Computed(src, dst, i', j', k')
    ensures Computed(src, CellsRow(src, dst, false, i, j, n), i', j', k')
  {
    if n > 0 {
      if (i', j', k') != (i, j, n) {
        SynchronousCellsRow(src, dst, i, j, n - 1, i', j', k');
      }
      SynchronousCell(src, CellsRow(src, dst, false, i, j, n - 1), i, j, n, i', j', k');
    }
  }

  lemma {:induction false} SynchronousLidRows(src: Table, dst: Table, i: int, m: int, i': int, j': int, k': int)
    requires 1 <= i <= MAX_STICKS && 0 <= m <= PITS + 1 && InSweep(i', j', k')
    requires (i' == i && j' < m) || Computed(src, dst, i', j', k')
    ensures Computed(src, LidRows(src, dst, false, i, m), i', j', k')
  {
    if m > 0 {
      if (i', j') != (i, m - 1) {
        SynchronousLidRows(src, dst, i, m - 1, i', j', k');
      }
      SynchronousCellsRow(src, LidRows(src, dst, false, i, m - 1), i, m - 1, MAX_STICKS, i', j', k');
    }
  }

  lemma {:induction false} SynchronousStickRows(src: Table, dst: Table, m: int, i': int, j': int, k': int)
    requires 0 <= m <= MAX_STICKS && InSweep(i', j', k')
    requires i' <= m || Computed(src, dst, i', j', k')
    ensures Computed(src, StickRows(src, dst, false, m), i', j', k')
  {
    if m > 0 {
      if i' != m {
        SynchronousStickRows(src, dst, m - 1, i', j', k');
      }
      SynchronousLidRows(src, StickRows(src, dst, false, m - 1), m, PITS + 1, i', j', k');
    }
  }

  /** A synchronous sweep computes every cell from the previous round alone: the continue entry
      by the dice recurrence and the stop entry as 1 minus the opponent's continue entry at the
      swapped state. */
  lemma SynchronousSweep(src: Table, dst: Table, i: int, j: int, k: int)
    requires InSweep(i, j, k)
    ensures Get(Sweep(src, dst, false), i, j, k, CONTINUE) == ContinueValue(src, i, j, k)
    ensures Get(Sweep(src, dst, false), i, j, k, STOP) == 1.0 - Get(src, k, j, i, CONTINUE)
  {
    SynchronousStickRows(src, dst, MAX_STICKS, i, j, k);
  }

  /** In place, the stop entry of a cell whose two stick counts are equal reads the continue
      entry that the same cell has just written, not the previous round's value. */
  lemma InPlaceReadsOwnWrite(t: Table, i: int, j: int)
    requires InSweep(i, j, i)
    ensures Get(Cell(t, t, true, i, j, i), i, j, i, STOP) == 1.0 - ContinueValue(t, i, j, i)
    ensures Get(Cell(t, t, false, i, j, i), i, j, i, STOP) == 1.0 - Get(t, i, j, i, CONTINUE)
  {
  }

  lemma CellInUnit(src: Table, dst: Table, inPlace: bool, i: int, j: int, k: int)
    requires InSweep(i, j, k) && InUnit(src) && InUnit(dst)
    ensures InUnit(Cell(src, dst, inPlace, i, j, k))
  {
    var rd := if inPlace then dst else src;
    ContinueValueInUnit(rd, i, j, k);
    var t1 := Set(dst, i, j, k, CONTINUE, ContinueValue(rd, i, j, k));
    var rd1 := if inPlace then t1 else src;
    assert 0.0 <= rd1[Idx(k, j, i, CONTINUE)] <= 1.0;
  }

  lemma {:induction false} CellsRowInUnit(src: Table, dst: Table, inPlace: bool, i: int, j: int, n: int)
    requires 1 <= i <= MAX_STICKS && 0 <= j <= PITS && 0 <= n <= MAX_STICKS && InUnit(src) && InUnit(dst)
    ensures InUnit(CellsRow(src, dst, inPlace, i, j, n))
  {
    if n > 0 {
      CellsRowInUnit(src, dst, inPlace, i, j, n - 1);
      CellInUnit(src, CellsRow(src, dst, inPlace, i, j, n - 1), inPlace, i, j, n);
    }
  }

  lemma {:induction false} LidRowsInUnit(src: Table, dst: Table, inPlace: bool, i: int, m: int)
    requires 1 <= i <= MAX_STICKS && 0 <= m <= PITS + 1 && InUnit(src) && InUnit(dst)
    ensures InUnit(LidRows(src, dst, inPlace, i, m))
  {
    if m > 0 {
      LidRowsInUnit(src, dst, inPlace, i, m - 1);
      CellsRowInUnit(src, LidRows(src, dst, inPlace, i, m - 1), inPlace, i, m - 1, MAX_STICKS);
    }
  }

  lemma {:induction false} StickRowsInUnit(src: Table, dst: Table, inPlace: bool, m: int)
    requires 0 <= m <= MAX_STICKS && InUnit(src) && InUnit(dst)
    ensures InUnit(StickRows(src, dst, inPlace, m))
  {
    if m > 0 {
      StickRowsInUnit(src, dst, inPlace, m - 1);
      LidRowsInUnit(src, StickRows(src, dst, inPlace, m - 1), inPlace, m, PITS + 1);
    }
  }

  /** A sweep keeps every entry a probability, whether it is synchronous or in place. */
  lemma SweepInUnit(src: Table, dst: Table, inPlace: bool)
    requires InUnit(src) && InUnit(dst)
    ensures InUnit(Sweep(src, dst, inPlace))
  {
    StickRowsInUnit(src, dst, inPlace, MAX_STICKS);
  }

  // ---------------------------------------------------------------- the round loop

  /** Content of `results` after h passes of the round loop started from `seed`: the first pass
      reads the seeded `results` into the seeded `resultsnew`; after `results = resultsnew`
      every later pass works in place. */
  function Iterate(seed: Table, h: nat): Table {
    if h == 0 then seed
    else if h == 1 then Sweep(seed, seed, false)
    else Sweep(Iterate(seed, h - 1), Iterate(seed, h - 1), true)
  }

  /** Content of `results` after h rounds of the program. */
  function Rounds(h: nat): Table {
    Iterate(SeedTable(), h)
  }

  /** Every entry stays a probability in every round. */
  lemma {:induction false} RoundsInUnit(h: nat)
    ensures InUnit(Rounds(h))
  {
    SeededInUnit(Zeros(), MAX_STICKS + 1);
    if h == 1 {
      SweepInUnit(SeedTable(), SeedTable(), false);
    } else if h > 1 {
      RoundsInUnit(h - 1);
      SweepInUnit(Rounds(h - 1), Rounds(h - 1), true);
    }
  }

  /** The seeded cells of a player with no sticks keep the value 1 in every round. */
  lemma {:induction false} RoundsKeepWinnerCells(h: nat, lid: int, theirs: int, act: int)
    requires 0 <= lid <= MAX_STICKS && 1 <= theirs <= MAX_STICKS && 0 <= act < 2
    ensures Get(Rounds(h), 0, lid, theirs, act) == 1.0
  {
    SeedTableCells(0, lid, theirs, act);
    if h == 1 {
      SweepLeavesOthers(SeedTable(), SeedTable(), false, 0, lid, theirs, act);
    } else if h > 1 {
      RoundsKeepWinnerCells(h - 1, lid, theirs, act);
      SweepLeavesOthers(Rounds(h - 1), Rounds(h - 1), true, 0, lid, theirs, act);
    }
  }

  // ---------------------------------------------------------------- the program

  /** The two assignments `b[mine][lid][theirs][0] = b[mine][lid][theirs][1] = 1` of one
      seeding iteration. */
  method MarkBoth(b: array<real>, mine: int, lid: int, theirs: int)
    requires b.Length == SIZE && InTable(mine, lid, theirs, 0)
    modifies b
    ensures b[..] == SetBoth(old(b[..]), mine, lid, theirs, 1.0)
  {
    b[Idx(mine, lid, theirs, CONTINUE)] := 1.0;
    b[Idx(mine, lid, theirs, STOP)] := 1.0;
  }

  /** One of the two seeding loops: `results[0][i][j][a] = 1` for i in 0..16, j in 1..16. */
  method SeedBuffer(results: array<real>)
    requires results.Length == SIZE
    modifies results
    ensures results[..] == Seeded(old(results[..]), MAX_STICKS + 1)
  {
    for i := 0 to MAX_STICKS + 1
      invariant results[..] == Seeded(old(results[..]), i)
    {
      for j := 1 to MAX_STICKS + 1
        invariant results[..] == SeededRow(Seeded(old(results[..]), i), i, j - 1)
      {
        MarkBoth(results, 0, i, j);
      }
    }
  }

  /** The continue entry of cell (i, j, k), branch by branch as the source computes it. */
  method ContinueEntry(results: array<real>, i: int, j: int, k: int) returns (cont: real)
    requires results.Length == SIZE && InSweep(i, j, k)
    ensures cont == ContinueValue(results[..], i, j, k)
  {
    if j == 5 {
      cont := FullLidEntry(results, i, j, k);
    } else if j == 0 {
      cont := EmptyLidEntry(results, i, j, k);
    } else {
      cont := PartLidEntry(results, i, j, k);
    }
  }

  /** Branch `j == 5`: no free pit is left, so the free-pit term is left out. */
  method FullLidEntry(results: array<real>, i: int, j: int, k: int) returns (cont: real)
    requires results.Length == SIZE && InSweep(i, j, k) && j == 5
    ensures cont == ContinueValue(results[..], i, j, k)
  {
    var best := Max(results[Idx(i - 1, j, k, 0)], results[Idx(i - 1, j, k, 1)]);
    cont := (1.0 / 6.0) * best + (5.0 / 6.0) * (1.0 - results[Idx(k, j - 1, i + 1, 0)]);
  }

  /** Branch `j == 0`: no pit is occupied, so the occupied-pit term is left out. */
  method EmptyLidEntry(results: array<real>, i: int, j: int, k: int) returns (cont: real)
    requires results.Length == SIZE && InSweep(i, j, k) && j == 0
    ensures cont == ContinueValue(results[..], i, j, k)
  {
    var best1 := Max(results[Idx(i - 1, j + 1, k, 0)], results[Idx(i - 1, j + 1, k, 1)]);
    var best2 := Max(results[Idx(i - 1, j, k, 0)], results[Idx(i - 1, j, k, 1)]);
    cont := ((5.0 - j as real) / 6.0) * best1 + (1.0 / 6.0) * best2;
    MixIsWeightedSum(j, best1, best2, 0.0);
  }

  /** Branch `0 < j < 5`: all three outcomes are possible. */
  method PartLidEntry(results: array<real>, i: int, j: int, k: int) returns (cont: real)
    requires results.Length == SIZE && InSweep(i, j, k) && 0 < j < 5
    ensures cont == ContinueValue(results[..], i, j, k)
  {
    var best1 := Max(results[Idx(i - 1, j + 1, k, 0)], results[Idx(i - 1, j + 1, k, 1)]);
    var best2 := Max(results[Idx(i - 1, j, k, 0)], results[Idx(i - 1, j, k, 1)]);
    var handover := 1.0 - results[Idx(k, j - 1, i + 1, 0)];
    cont := ((5.0 - j as real) / 6.0) * best1 + (1.0 / 6.0) * best2 + (j as real / 6.0) * handover;
    MixIsWeightedSum(j, best1, best2, handover);
  }

  /** The body of the k loop for cell (i, j, k): one more iteration of the row started from
      `dst`; `src` is the table a synchronous pass reads. */
  method UpdateCell(results: array<real>, resultsnew: array<real>, i: int, j: int, k: int,
                    ghost src: Table, ghost dst: Table)
    requires results.Length == SIZE && resultsnew.Length == SIZE && InSweep(i, j, k)
    requires results == resultsnew || results[..] == src
    requires resultsnew[..] == CellsRow(src, dst, results == resultsnew, i, j, k - 1)
    modifies resultsnew
    ensures resultsnew[..] == CellsRow(src, dst, results == resultsnew, i, j, k)
  {
    var cont := ContinueEntry(results, i, j, k);
    resultsnew[Idx(i, j, k, 0)] := cont;
    resultsnew[Idx(i, j, k, 1)] := 1.0 - results[Idx(k, j, i, 0)];
  }

  /** The k loop of lid row (i, j). */
  method SweepCells(results: array<real>, resultsnew: array<real>, i: int, j: int, ghost src: Table)
    requires results.Length == SIZE && resultsnew.Length == SIZE && 1 <= i <= MAX_STICKS && 0 <= j <= PITS
    requires results == resultsnew || results[..] == src
    modifies resultsnew
    ensures resultsnew[..] == CellsRow(src, old(resultsnew[..]), results == resultsnew, i, j, MAX_STICKS)
  {
    ghost var dst, inPlace := resultsnew[..], results == resultsnew;
    for k := 1 to MAX_STICKS + 1
      invariant resultsnew[..] == CellsRow(src, dst, inPlace, i, j, k - 1)
      invariant inPlace || results[..] == src
    {
      UpdateCell(results, resultsnew, i, j, k, src, dst);
    }
  }

  /** The j loop of stick row i. */
  method SweepLids(results: array<real>, resultsnew: array<real>, i: int, ghost src: Table)
    requires results.Length == SIZE && resultsnew.Length == SIZE && 1 <= i <= MAX_STICKS
    requires results == resultsnew || results[..] == src
    modifies resultsnew
    ensures resultsnew[..] == LidRows(src, old(resultsnew[..]), results == resultsnew, i, PITS + 1)
  {
    ghost var dst, inPlace := resultsnew[..], results == resultsnew;
    for j := 0 to PITS + 1
      invariant resultsnew[..] == LidRows(src, dst, inPlace, i, j)
      invariant inPlace || results[..] == src
    {
      SweepCells(results, resultsnew, i, j, src);
    }
  }

  /** One pass of the i, j, k loops. */
  method SweepInto(results: array<real>, resultsnew: array<real>)
    requires results.Length == SIZE && resultsnew.Length == SIZE
    modifies resultsnew
    ensures resultsnew[..] == Sweep(old(results[..]), old(resultsnew[..]), results == resultsnew)
  {
    ghost var src, dst, inPlace := results[..], resultsnew[..], results == resultsnew;
    for i := 1 to MAX_STICKS + 1
      invariant resultsnew[..] == StickRows(src, dst, inPlace, i - 1)
      invariant inPlace || results[..] == src
    {
      SweepLids(results, resultsnew, i, src);
    }
  }

  /** The allocation `new double[20][20][20][2]()` of both buffers and the two seeding loops. */
  method NewBuffers() returns (results: array<real>, resultsnew: array<real>)
    ensures fresh(results) && fresh(resultsnew) && results != resultsnew
    ensures results.Length == SIZE && resultsnew.Length == SIZE
    ensures results[..] == SeedTable() && resultsnew[..] == SeedTable()
  {
    results := new real[SIZE](_ => 0.0);
    resultsnew := new real[SIZE](_ => 0.0);
    assert results[..] == Zeros() && resultsnew[..] == Zeros();
    SeedBuffer(results);
    SeedBuffer(resultsnew);
  }

  /** The round loop from two buffers holding the same table: the first pass reads `results`
      and writes `resultsnew`, then `results = resultsnew` aliases them, so `resultsnew` is the
      only array written. */
  method RunRounds(results0: array<real>, resultsnew0: array<real>) returns (results: array<real>, resultsnew: array<real>)
    requires results0.Length == SIZE && resultsnew0.Length == SIZE && results0 != resultsnew0
    requires resultsnew0[..] == results0[..]
    modifies resultsnew0
    ensures results == resultsnew == resultsnew0
    ensures results[..] == Iterate(old(results0[..]), ROUNDS)
  {
    ghost var seed := results0[..];
    results, resultsnew := results0, resultsnew0;
    var h := 0;
    while h < ROUNDS
      invariant 0 <= h <= ROUNDS
      invariant resultsnew == resultsnew0 && results.Length == SIZE
      invariant h == 0 ==> results != resultsnew && resultsnew[..] == seed
      invariant h > 0 ==> results == resultsnew
      invariant results[..] == Iterate(seed, h)
    {
      SweepInto(results, resultsnew);
      results := resultsnew;
      h := h + 1;
    }
  }

  /** The program: on return `results` and `resultsnew` are one buffer holding `Rounds(ROUNDS)`. */
  method Solve() returns (results: array<real>, resultsnew: array<real>)
    ensures results == resultsnew
    ensures results[..] == Rounds(ROUNDS)
  {
    var r0, rn0 := NewBuffers();
    results, resultsnew := RunRounds(r0, rn0);
  }

}
