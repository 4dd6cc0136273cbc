/** The robot: its state and the move and turn rules (models/roomba.py). */
module Roombas {
  import opened Wrappers
  import opened Directions
  import opened Positions
  import opened Grids

  /** The robot's state as a value: where it stands and which way it faces. */
  datatype Pose = Pose(x: int, y: int, direction: Direction)

  /** The dictionary form of a robot: its coordinates and the name of its heading. */
  datatype RoombaRecord = RoombaRecord(x: int, y: int, direction: string)

  /** The coordinates one step ahead along the heading, whether or not they can be entered. */
  function Ahead(p: Pose): Position
  {
    Position(p.x + Vector(p.direction).0, p.y + Vector(p.direction).1)
  }

  /** The cell is strictly inside the boundary walls of the grid. */
  predicate Interior(g: Grid, q: Position)
  {
    0 < q.x < g.width - 1 && 0 < q.y < g.height - 1
  }

  /**
   * The position a forward move would reach: the cell ahead when it is inside the grid
   * and not a wall, and `None` when it is blocked.
   */
  function NextPosition(g: Grid, p: Pose): (r: Option<Position>)
    requires g.Valid()
    ensures r.Some? <==> Interior(g, Ahead(p))
    ensures r.Some? ==> r.value == Ahead(p)
  {
    var (dx, dy) := Vector(p.direction);
    var nextX, nextY := p.x + dx, p.y + dy;
    if g.IsWithinBounds(nextX, nextY) && !g.IsWall(nextX, nextY) then Some(Position(nextX, nextY)) else None
  }

  /** The bounds test before the wall test adds nothing: a wall test alone gives the same answer. */
  lemma BoundsTestRedundant(g: Grid, x: int, y: int)
    requires g.Valid()
    ensures (g.IsWithinBounds(x, y) && !g.IsWall(x, y)) == !g.IsWall(x, y)
  {
  }

  /** A right turn on the spot. */
  function AfterTurn(p: Pose): Pose
  {
    Pose(p.x, p.y, Directions.TurnRight(p.direction))
  }

  /** A forward command: step to the next position if there is one, otherwise turn right instead. */
  function AfterMove(g: Grid, p: Pose): Pose
    requires g.Valid()
  {
    match NextPosition(g, p)
    case Some(q) => Pose(q.x, q.y, p.direction)
    case None => AfterTurn(p)
  }

  /**
   * The two outcomes of a forward command. Moving adds the heading's vector and keeps the
   * heading. Being blocked keeps the position and turns right exactly once, without trying
   * the new heading, even when the cell in the new heading is open.
   */
  lemma MoveForwardOutcomes(g: Grid, p: Pose)
    requires g.Valid()
    ensures !g.IsWall(Ahead(p).x, Ahead(p).y) ==>
              AfterMove(g, p) == Pose(p.x + Vector(p.direction).0, p.y + Vector(p.direction).1, p.direction)
    ensures g.IsWall(Ahead(p).x, Ahead(p).y) ==>
              AfterMove(g, p) == Pose(p.x, p.y, Directions.TurnRight(p.direction))
  {
  }

  /** A forward command either moves exactly one cell or stays put; it never does both or more. */
  lemma MoveForwardOneStep(g: Grid, p: Pose)
    requires g.Valid()
    ensures var q := AfterMove(g, p);
            (Abs(q.x - p.x) + Abs(q.y - p.y) == 1 && q.direction == p.direction) ||
            (q.x == p.x && q.y == p.y && q.direction == Directions.TurnRight(p.direction))
  {
    if NextPosition(g, p).Some? {
      assert AfterMove(g, p) == Pose(Ahead(p).x, Ahead(p).y, p.direction);
    }
  }

  /** After a successful move the robot stands on an open cell, wherever it started. */
  lemma MoveLandsOnOpenCell(g: Grid, p: Pose)
    requires g.Valid()
    requires NextPosition(g, p).Some?
    ensures !g.IsWall(AfterMove(g, p).x, AfterMove(g, p).y)
  {
  }

  /** Neither command can take a robot standing on an open cell onto a wall. */
  lemma CommandsKeepOpen(g: Grid, p: Pose)
    requires g.Valid() && !g.IsWall(p.x, p.y)
    ensures !g.IsWall(AfterMove(g, p).x, AfterMove(g, p).y)
    ensures !g.IsWall(AfterTurn(p).x, AfterTurn(p).y)
  {
  }

  /** The movement scenarios of the test suite on a 10 by 10 grid. */
  lemma MovementExamples(g: Grid)
    requires g.Valid() && g.width == 10 && g.height == 10
    // moving north from (5, 5), turning east and moving again
    ensures AfterMove(g, Pose(5, 5, NORTH)) == Pose(5, 4, NORTH)
    ensures AfterTurn(Pose(5, 4, NORTH)) == Pose(5, 4, EAST)
    ensures AfterMove(g, Pose(5, 4, EAST)) == Pose(6, 4, EAST)
    // facing the west wall from (1, 1)
    ensures NextPosition(g, Pose(1, 1, WEST)).None?
    ensures AfterMove(g, Pose(1, 1, WEST)) == Pose(1, 1, NORTH)
    // two steps towards the north wall from (5, 2)
    ensures AfterMove(g, Pose(5, 2, NORTH)) == Pose(5, 1, NORTH)
    ensures AfterMove(g, Pose(5, 1, NORTH)) == Pose(5, 1, EAST)
  {
  }

  /** The robot, whose coordinates and heading the commands update in place. */
  class Roomba {
    var x: int
    var y: int
    var direction: Direction

    /** A robot at (x, y) facing `direction`; by default at (0, 0) facing NORTH. */
    constructor (x: int := 0, y: int := 0, direction: Direction := NORTH)
      ensures State() == Pose(x, y, direction)
    {
      this.x := x;
      this.y := y;
      this.direction := direction;
    }

    /** The robot's current state as a value. */
    function State(): Pose
      reads this
    {
      Pose(x, y, direction)
    }

    /**
     * Steps forward when the cell ahead is open and reports `true`; otherwise turns
     * right without moving and reports `false`.
     */
    method MoveForward(grid: Grid) returns (moved: bool)
      requires grid.Valid()
      modifies this
      ensures moved <==> Interior(grid, Ahead(old(State())))
      ensures State() == AfterMove(grid, old(State()))
    {
      var next := NextPosition(grid, State());
      if next.Some? {
        x := next.value.x;
        y := next.value.y;
        moved := true;
      } else {
        TurnRight();
        moved := false;
      }
    }

    /** Turns a quarter turn clockwise; the position does not change. */
    method TurnRight()
      modifies this
      ensures State() == AfterTurn(old(State()))
    {
      direction := Directions.TurnRight(direction);
    }

    /** The current position. */
    function GetPosition(): (p: Position)
      reads this
      ensures Equals(p, Pos(Position(State().x, State().y)))
    {
      Position(x, y)
    }

    /** The dictionary form: the current coordinates and a name that parses back to the heading. */
    function ToDict(): (r: RoombaRecord)
      reads this
      ensures r.x == x && r.y == y && r.direction == ToString(direction)
      ensures FromString(r.direction) == Some(direction)
    {
      FromStringToString(direction);
      RoombaRecord(x, y, ToString(direction))
    }
  }
}
