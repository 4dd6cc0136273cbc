/** The walled rectangular grid the robot moves on (models/grid.py). */
module Grids {
  import opened Wrappers

  /** One square of the grid: its coordinates and whether it blocks movement. */
  datatype Cell = Cell(x: int, y: int, isWall: bool)

  /** The dictionary form of a cell. */
  datatype CellRecord = CellRecord(x: int, y: int, isWall: bool)

  /** The dictionary form of a grid: its size and its rows of cell records. */
  datatype GridRecord = GridRecord(width: int, height: int, cells: seq<seq<CellRecord>>)

  /** The number of values `range(n)` produces: zero for a negative `n`. */
  function RangeLength(n: int): nat
  {
    if n < 0 then 0 else n
  }

  /** The construction rule: a cell is a wall exactly when it lies on the first or last column or row. */
  predicate OnBoundary(width: int, height: int, x: int, y: int)
  {
    x == 0 || x == width - 1 || y == 0 || y == height - 1
  }

  /**
   * `cells` is the layout built for a `width` by `height` grid: `height` rows of `width`
   * cells each, and the cell stored at `cells[y][x]` has coordinates (x, y) and is a
   * wall exactly on the boundary.
   */
  ghost predicate IsLayout(width: int, height: int, cells: seq<seq<Cell>>)
  {
    |cells| == RangeLength(height) &&
    (forall y :: 0 <= y < |cells| ==> |cells[y]| == RangeLength(width)) &&
    (forall y, x :: 0 <= y < |cells| && 0 <= x < |cells[y]| ==>
       cells[y][x] == Cell(x, y, OnBoundary(width, height, x, y)))
  }

  /** Builds the rows of cells one cell at a time, row by row, as `_create_grid` does. */
  method CreateCells(width: int, height: int) returns (cells: seq<seq<Cell>>)
    ensures IsLayout(width, height, cells)
  {
    cells := [];
    var y := 0;
    while y < height
      invariant y == |cells| <= RangeLength(height)
      invariant forall j :: 0 <= j < |cells| ==> |cells[j]| == RangeLength(width)
      invariant forall j, i :: 0 <= j < |cells| && 0 <= i < |cells[j]| ==>
                  cells[j][i] == Cell(i, j, OnBoundary(width, height, i, j))
    {
      var row := [];
      var x := 0;
      while x < width
        invariant x == |row| <= RangeLength(width)
        invariant forall i :: 0 <= i < |row| ==> row[i] == Cell(i, y, OnBoundary(width, height, i, y))
      {
        var isWall := x == 0 || x == width - 1 || y == 0 || y == height - 1;
        row := row + [Cell(x, y, isWall)];
        x := x + 1;
      }
      cells := cells + [row];
      y := y + 1;
    }
  }

  /** A grid of fixed size; nothing changes it once it is built. */
  datatype Grid = Grid(width: int, height: int, cells: seq<seq<Cell>>) {

    /** The cells are the layout construction produces for this size. */
    ghost predicate Valid()
    {
      IsLayout(width, height, cells)
    }

    /** In bounds exactly when the coordinates address a stored cell. */
    function IsWithinBounds(x: int, y: int): (r: bool)
      requires Valid()
      ensures r <==> 0 <= y < |cells| && 0 <= x < |cells[y]|
    {
      0 <= x < width && 0 <= y < height
    }

    /**
     * Whether (x, y) blocks movement. Every coordinate outside the grid counts as a wall;
     * inside, the boundary cells are walls and the interior cells are open.
     */
    function IsWall(x: int, y: int): (r: bool)
      requires Valid()
      ensures !IsWithinBounds(x, y) ==> r
      ensures IsWithinBounds(x, y) ==> (r <==> OnBoundary(width, height, x, y))
      ensures !r <==> 0 < x < width - 1 && 0 < y < height - 1
    {
      if !IsWithinBounds(x, y) then true else cells[y][x].isWall
    }

    /** The cell at (x, y), or `None` out of bounds. */
    function GetCell(x: int, y: int): (r: Option<Cell>)
      requires Valid()
      ensures r.None? <==> !IsWithinBounds(x, y)
      ensures r.Some? ==> r.value == Cell(x, y, IsWall(x, y))
    {
      if !IsWithinBounds(x, y) then None else Some(cells[y][x])
    }

    /** The dictionary form: the same size, and the same cells with the same wall flags. */
    function ToDict(): (r: GridRecord)
      ensures r.width == width && r.height == height && |r.cells| == |cells|
      ensures forall y :: 0 <= y < |cells| ==> |r.cells[y]| == |cells[y]|
      ensures Valid() ==> forall y, x :: 0 <= y < |cells| && 0 <= x < |cells[y]| ==>
                r.cells[y][x] == CellRecord(x, y, IsWall(x, y))
    {
      GridRecord(width, height,
        seq(|cells|, y requires 0 <= y < |cells| =>
          seq(|cells[y]|, x requires 0 <= x < |cells[y]| => CellToDict(cells[y][x]))))
    }
  }

  /** The dictionary form of one cell. */
  function CellToDict(c: Cell): CellRecord
  {
    CellRecord(c.x, c.y, c.isWall)
  }

  /** A new grid of the given size (10 by 10 by default) with walls all round. */
  method NewGrid(width: int := 10, height: int := 10) returns (g: Grid)
    ensures g.Valid() && g.width == width && g.height == height
  {
    var cells := CreateCells(width, height);
    g := Grid(width, height, cells);
  }

  /** The size alone determines a grid: two valid grids of the same size are equal. */
  lemma GridDeterminedBySize(g: Grid, h: Grid)
    requires g.Valid() && h.Valid()
    requires g.width == h.width && g.height == h.height
    ensures g == h
  {
    forall y | 0 <= y < |g.cells|
      ensures g.cells[y] == h.cells[y]
    {
      assert |g.cells[y]| == |h.cells[y]|;
      forall x | 0 <= x < |g.cells[y]|
        ensures g.cells[y][x] == h.cells[y][x]
      {
      }
    }
  }

  /** The boundary and bounds checks of the test suite, on a 10 by 10 grid. */
  lemma TenByTenExamples(g: Grid)
    requires g.Valid() && g.width == 10 && g.height == 10
    ensures g.IsWall(0, 0) && g.IsWall(9, 9) && g.IsWall(0, 5) && g.IsWall(9, 5)
    ensures !g.IsWall(5, 5)
    ensures g.IsWithinBounds(0, 0) && g.IsWithinBounds(9, 9)
    ensures !g.IsWithinBounds(-1, 5) && !g.IsWithinBounds(10, 5)
  {
  }
}
