/** The level director: which levels have a boss, and the brick layout each
    level starts with (brick_breaker.py:565-647). A layout is a grid walked
    row by row and, within a row, column by column; a mask decides which
    cells hold a brick and a formula how many hits each brick takes. */
module Levels {
  import opened Common
  import opened Bricks

  const MaxLevel := 7

  /** is_boss_level: a multiple of three no greater than six. */
  function IsBossLevel(level: int): (r: bool)
    ensures 1 <= level <= MaxLevel ==> (r <==> level == 3 || level == 6)
  {
    level % 3 == 0 && level <= 6
  }

  function Rows(level: int): nat {
    if IsBossLevel(level) then 2
    else if level == 1 || level == 2 then 5
    else if level == 4 then 6
    else if level == 5 then 7
    else 8
  }

  function Cols(level: int): nat {
    if IsBossLevel(level) then 8 else 10
  }

  function Abs(n: int): nat { if n < 0 then -n else n }

  /** Manhattan distance from the centre cell (row 3, column 5) of the
      diamond of level 5. */
  function DiamondDistance(row: nat, col: nat): nat {
    Abs(row - 3) + Abs(col - 5)
  }

  /** Whether the cell holds a brick: a boss level leaves columns 2..5 to
      the boss, level 4 leaves a gap wherever row + column is a multiple of
      three, level 5 keeps the diamond of radius 4, every other level is full. */
  predicate InMask(level: int, row: nat, col: nat) {
    if IsBossLevel(level) then col < 2 || col > 5
    else if level == 4 then (row + col) % 3 != 0
    else if level == 5 then DiamondDistance(row, col) <= 4
    else true
  }

  function Min(a: int, b: int): int { if a < b then a else b }

  /** Hits required by the brick in a cell. */
  function HitsAt(level: int, row: nat, col: nat): (h: int)
    ensures h >= 1
  {
    if IsBossLevel(level) then (if row == 0 then 3 else 2)
    else if level == 1 then 1
    else if level == 2 then (if row < 2 then 2 else 1)
    else if level == 4 then Min(4, row + 1)
    else if level == 5 then (if DiamondDistance(row, col) <= 1 then 5 else 3)
    else Min(6, row + 2)
  }

  /** Left edge of a cell: 85-pixel steps from 50 on a boss level, 80-pixel
      steps from 35 otherwise. */
  function CellX(level: int, col: nat): int {
    if IsBossLevel(level) then col * (BrickWidth + 10) + 50 else col * (BrickWidth + 5) + 35
  }

  /** Top edge of a cell: 40-pixel steps from 250 on a boss level, 35-pixel
      steps from 50 otherwise. */
  function CellY(level: int, row: nat): int {
    if IsBossLevel(level) then row * (BrickHeight + 10) + 250 else row * (BrickHeight + 5) + 50
  }

  function Cell(level: int, row: nat, col: nat): BrickState {
    NewBrick(CellX(level, col), CellY(level, row), HitsAt(level, row, col))
  }

  /** The bricks of the first c cells of a row. */
  function RowCells(level: int, row: nat, c: nat): seq<BrickState>
    decreases c
  {
    if c == 0 then []
    else RowCells(level, row, c - 1) + (if InMask(level, row, c - 1) then [Cell(level, row, c - 1)] else [])
  }

  /** The bricks of the first r rows. */
  function GridCells(level: int, r: nat): seq<BrickState>
    decreases r
  {
    if r == 0 then [] else GridCells(level, r - 1) + RowCells(level, r - 1, Cols(level))
  }

  /** The bricks reset_level builds for a level, in the order they are appended. */
  function Layout(level: int): seq<BrickState> {
    GridCells(level, Rows(level))
  }

  /** The boss reset_level places: a fresh boss on a boss level, none elsewhere. */
  function BossOf(level: int): (r: Option<BossState>)
    ensures r.Some? <==> IsBossLevel(level)
    ensures r.Some? ==> BossOk(r.value) && !r.value.destroyed && r.value.health == BossMaxHealth
  {
    if IsBossLevel(level) then Some(NewBoss()) else None
  }

  /** A brick of the first c cells of a row is exactly the brick of a masked
      cell among them. */
  lemma {:induction false} RowCellsAre(level: int, row: nat, c: nat, k: BrickState)
    ensures k in RowCells(level, row, c) <==>
      exists col :: 0 <= col < c && InMask(level, row, col) && k == Cell(level, row, col)
    decreases c
  {
    if c > 0 {
      RowCellsAre(level, row, c - 1, k);
      if InMask(level, row, c - 1) && k == Cell(level, row, c - 1) {
        assert k in RowCells(level, row, c);
      }
    }
  }

  /** A brick of the first r rows is exactly the brick of a masked cell among them. */
  lemma {:induction false} GridCellsAre(level: int, r: nat, k: BrickState)
    ensures k in GridCells(level, r) <==>
      exists row, col :: 0 <= row < r && 0 <= col < Cols(level) && InMask(level, row, col) && k == Cell(level, row, col)
    decreases r
  {
    if r > 0 {
      GridCellsAre(level, r - 1, k);
      RowCellsAre(level, r - 1, Cols(level), k);
      if k in GridCells(level, r) {
        if k !in GridCells(level, r - 1) {
          var col :| 0 <= col < Cols(level) && InMask(level, r - 1, col) && k == Cell(level, r - 1, col);
          assert 0 <= r - 1 < r;
        }
      }
      if exists row, col :: 0 <= row < r && 0 <= col < Cols(level) && InMask(level, row, col) && k == Cell(level, row, col) {
        var row, col :| 0 <= row < r && 0 <= col < Cols(level) && InMask(level, row, col) && k == Cell(level, row, col);
        if row < r - 1 {
          assert k in GridCells(level, r - 1);
        } else {
          assert k in RowCells(level, r - 1, Cols(level));
        }
      }
    }
  }

  /** The layout of a level holds a brick for every masked cell of its grid
      and nothing else. */
  lemma LayoutCells(level: int, k: BrickState)
    ensures k in Layout(level) <==>
      exists row, col :: 0 <= row < Rows(level) && 0 <= col < Cols(level) && InMask(level, row, col) && k == Cell(level, row, col)
  {
    GridCellsAre(level, Rows(level), k);
  }

  /** The cell a brick of a layout comes from. */
  lemma CellOf(level: int, k: BrickState) returns (row: nat, col: nat)
    requires k in Layout(level)
    ensures row < Rows(level) && col < Cols(level) && InMask(level, row, col) && k == Cell(level, row, col)
  {
    LayoutCells(level, k);
    row, col :| 0 <= row < Rows(level) && 0 <= col < Cols(level) && InMask(level, row, col) && k == Cell(level, row, col);
  }

  /** Every brick of every layout is fresh and needs at least one hit. */
  lemma LayoutBricksFresh(level: int)
    ensures forall k :: k in Layout(level) ==> BrickOk(k) && k.taken == 0 && !k.destroyed && k.required >= 1
  {
    forall k | k in Layout(level)
      ensures BrickOk(k) && k.taken == 0 && !k.destroyed && k.required >= 1
    {
      LayoutCells(level, k);
    }
  }

  /** A row whose every cell is masked in holds one brick per column. */
  lemma {:induction false} FullRowLength(level: int, row: nat, c: nat)
    requires forall col: nat :: col < c ==> InMask(level, row, col)
    ensures |RowCells(level, row, c)| == c
    decreases c
  {
    if c > 0 {
      FullRowLength(level, row, c - 1);
    }
  }

  /** A grid whose every cell is masked in holds one brick per cell. */
  lemma {:induction false} FullGridLength(level: int, r: nat)
    requires !IsBossLevel(level) && level != 4 && level != 5
    ensures |GridCells(level, r)| == r * 10
    decreases r
  {
    if r > 0 {
      FullGridLength(level, r - 1);
      FullRowLength(level, r - 1, Cols(level));
    }
  }

  // The lemmas about one level take the level number as a parameter fixed
  // by their requires rather than as a literal: a literal argument lets the
  // solver unfold the whole layout at once, which is far more costly than
  // the cell-by-cell reasoning below.

  /** Level 1 is fifty bricks ... */
  lemma FirstLevel(level: int)
    requires level == 1
    ensures |Layout(level)| == 50
  {
    FullGridLength(level, 5);
  }

  /** ... and each of them breaks at the first hit. */
  lemma FirstLevelBrick(level: int, k: BrickState)
    requires level == 1 && k in Layout(level)
    ensures k.required == 1
  {
    var row, col := CellOf(level, k);
  }

  /** Level 2 has two rows of two-hit bricks over three rows of one-hit bricks. */
  lemma SecondLevel(level: int, k: BrickState)
    requires level == 2 && k in Layout(level)
    ensures k.required == (if k.y < 120 then 2 else 1)
  {
    var row, col := CellOf(level, k);
  }

  /** The supporting bricks of a boss level sit in columns 0, 1, 6 and 7 of
      two rows: three hits in the top row, two in the second. */
  lemma BossLevelBricks(level: int, k: BrickState)
    requires IsBossLevel(level) && k in Layout(level)
    ensures exists col :: (col == 0 || col == 1 || col == 6 || col == 7) && k.x == col * 85 + 50
    ensures (k.y == 250 && k.required == 3) || (k.y == 290 && k.required == 2)
  {
    var row, col := CellOf(level, k);
    assert k.x == col * 85 + 50;
  }

  /** A boss row holds four bricks. */
  lemma BossRowLength(level: int, row: nat)
    requires IsBossLevel(level)
    ensures |RowCells(level, row, 8)| == 4
  {
    assert |RowCells(level, row, 2)| == 2;
    assert |RowCells(level, row, 6)| == 2;
  }

  /** A boss level has exactly eight supporting bricks. */
  lemma BossLevelCount(level: int)
    requires IsBossLevel(level)
    ensures |Layout(level)| == 8
  {
    BossRowLength(level, 0);
    BossRowLength(level, 1);
  }

  /** Every brick of level 4 sits in a cell whose row + column is not a
      multiple of three and takes min(4, row + 1) hits. */
  lemma FourthLevel(level: int, k: BrickState)
    requires level == 4 && k in Layout(level)
    ensures exists row: nat, col: nat :: (&& row < 6 && col < 10 && (row + col) % 3 != 0
      && k.x == col * 80 + 35 && k.y == row * 35 + 50 && k.required == Min(4, row + 1))
  {
    var row, col := CellOf(level, k);
    assert && row < 6 && col < 10 && (row + col) % 3 != 0
      && k.x == col * 80 + 35 && k.y == row * 35 + 50 && k.required == Min(4, row + 1);
  }

  /** Conversely, every cell of the 6 by 10 grid of level 4 whose row +
      column is not a multiple of three holds its brick. */
  lemma FourthLevelFull(level: int, row: nat, col: nat)
    requires level == 4 && row < 6 && col < 10 && (row + col) % 3 != 0
    ensures Cell(level, row, col) in Layout(level)
  {
    LayoutCells(level, Cell(level, row, col));
  }

  /** Every brick of level 5 lies in the diamond of radius 4 about row 3,
      column 5: five hits within distance 1 of the centre, three elsewhere. */
  lemma FifthLevel(level: int, k: BrickState)
    requires level == 5 && k in Layout(level)
    ensures exists row: nat, col: nat :: (&& row < 7 && col < 10 && DiamondDistance(row, col) <= 4
      && k.x == col * 80 + 35 && k.y == row * 35 + 50
      && k.required == (if DiamondDistance(row, col) <= 1 then 5 else 3))
  {
    var row, col := CellOf(level, k);
    assert && row < 7 && col < 10 && DiamondDistance(row, col) <= 4
      && k.x == col * 80 + 35 && k.y == row * 35 + 50
      && k.required == (if DiamondDistance(row, col) <= 1 then 5 else 3);
  }
}
