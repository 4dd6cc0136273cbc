/** The session controller that owns one grid and one robot (controllers/app_controller.py). */
module AppControllers {
  import opened Wrappers
  import opened Directions
  import opened Grids
  import opened Roombas

  /** The width and height of the controller's grid. */
  const GridSize: int := 10

  /** Where a new or reset robot stands: (1, 1), inside the boundary walls, facing NORTH. */
  const Start: Pose := Pose(1, 1, NORTH)

  /** What every command returns: the grid's and the robot's dictionary forms. */
  datatype Snapshot = Snapshot(grid: GridRecord, roomba: RoombaRecord)

  /**
   * The commands that change a session. A state request is not among them: `GetState`
   * is a function and cannot change anything.
   */
  datatype Command = MoveForwardCmd | TurnRightCmd | ResetCmd

  /** The robot's state after one command. */
  function Apply(g: Grid, p: Pose, c: Command): Pose
    requires g.Valid()
  {
    match c
    case MoveForwardCmd => AfterMove(g, p)
    case TurnRightCmd => AfterTurn(p)
    case ResetCmd => Start
  }

  /** The robot's state after a sequence of commands, applied first to last. */
  function Run(g: Grid, p: Pose, cmds: seq<Command>): Pose
    requires g.Valid()
    decreases |cmds|
  {
    if cmds == [] then p else Apply(g, Run(g, p, cmds[..|cmds| - 1]), cmds[|cmds| - 1])
  }

  /** One more command applies to the state the earlier ones reached. */
  lemma RunSnoc(g: Grid, p: Pose, cmds: seq<Command>, c: Command)
    requires g.Valid()
    ensures Run(g, p, cmds + [c]) == Apply(g, Run(g, p, cmds), c)
  {
    assert (cmds + [c])[..|cmds|] == cmds;
  }

  /** A robot that starts on an open cell is on an open cell after any sequence of commands. */
  lemma {:induction false} RunStaysOpen(g: Grid, p: Pose, cmds: seq<Command>)
    requires g.Valid() && !g.IsWall(p.x, p.y)
    requires !g.IsWall(Start.x, Start.y)
    ensures !g.IsWall(Run(g, p, cmds).x, Run(g, p, cmds).y)
    decreases |cmds|
  {
    if cmds != [] {
      var before := Run(g, p, cmds[..|cmds| - 1]);
      RunStaysOpen(g, p, cmds[..|cmds| - 1]);
      CommandsKeepOpen(g, before);
    }
  }

  /** The start cell is open on the controller's grid, so the whole session stays on open cells. */
  lemma SessionStaysOpen(g: Grid, cmds: seq<Command>)
    requires g.Valid() && g.width == GridSize && g.height == GridSize
    ensures !g.IsWall(Run(g, Start, cmds).x, Run(g, Start, cmds).y)
  {
    RunStaysOpen(g, Start, cmds);
  }

  /** A reset forgets everything before it: what follows a reset runs as if from a new session. */
  lemma {:induction false} ResetForgetsHistory(g: Grid, p: Pose, before: seq<Command>, after: seq<Command>)
    requires g.Valid()
    ensures Run(g, p, before + [ResetCmd] + after) == Run(g, Start, after)
    decreases |after|
  {
    var cmds := before + [ResetCmd] + after;
    if after == [] {
      assert cmds[..|cmds| - 1] == before;
    } else {
      assert cmds[..|cmds| - 1] == before + [ResetCmd] + after[..|after| - 1];
      ResetForgetsHistory(g, p, before, after[..|after| - 1]);
    }
  }

  /** From the start the robot faces the north wall: the first forward command turns it east, the second moves it. */
  lemma StartMoves(g: Grid)
    requires g.Valid() && g.width == GridSize && g.height == GridSize
    ensures AfterMove(g, Start) == Pose(1, 1, EAST)
    ensures AfterMove(g, Pose(1, 1, EAST)) == Pose(2, 1, EAST)
  {
  }

  /** The controller scenario of the test suite, as a run of commands. */
  lemma SessionExample(g: Grid)
    requires g.Valid() && g.width == GridSize && g.height == GridSize
    ensures Run(g, Start, [MoveForwardCmd]) == Pose(1, 1, EAST)
    ensures Run(g, Start, [MoveForwardCmd, MoveForwardCmd]) == Pose(2, 1, EAST)
    ensures Run(g, Start, [MoveForwardCmd, MoveForwardCmd, TurnRightCmd]) == Pose(2, 1, SOUTH)
    ensures Run(g, Start, [MoveForwardCmd, MoveForwardCmd, TurnRightCmd, ResetCmd]) == Start
  {
    StartMoves(g);
    assert [MoveForwardCmd, MoveForwardCmd][..1] == [MoveForwardCmd];
    assert [MoveForwardCmd, MoveForwardCmd, TurnRightCmd][..2] == [MoveForwardCmd, MoveForwardCmd];
  }

  /** The session: one grid fixed at construction and one robot, replaced on reset. */
  class AppController {
    var grid: Grid
    var roomba: Roomba
    /** The move, turn and reset commands received so far. */
    ghost var history: seq<Command>

    /** The grid is the 10 by 10 walled grid and the robot is where the commands so far put it. */
    ghost predicate Valid()
      reads this, roomba
    {
      grid.Valid() && grid.width == GridSize && grid.height == GridSize &&
      roomba.State() == Run(grid, Start, history)
    }

    /** A new session: a 10 by 10 grid and a robot at (1, 1) facing NORTH. */
    constructor ()
      ensures Valid() && fresh(roomba) && history == []
      ensures grid.width == GridSize && grid.height == GridSize
      ensures roomba.State() == Start
      ensures !grid.IsWall(roomba.x, roomba.y)
    {
      var g := NewGrid(GridSize, GridSize);
      grid := g;
      roomba := new Roomba(Start.x, Start.y, Start.direction);
      history := [];
    }

    /** Passes a forward command to the robot and returns the new snapshot. */
    method MoveForward() returns (s: Snapshot)
      requires Valid()
      modifies roomba, this`history
      ensures Valid() && grid == old(grid) && roomba == old(roomba)
      ensures history == old(history) + [MoveForwardCmd]
      ensures roomba.State() == AfterMove(grid, old(roomba.State()))
      ensures !grid.IsWall(roomba.x, roomba.y)
      ensures s == GetState()
    {
      var _ := roomba.MoveForward(grid);
      RunSnoc(grid, Start, history, MoveForwardCmd);
      history := history + [MoveForwardCmd];
      SessionStaysOpen(grid, history);
      s := GetState();
    }

    /** Passes a right turn to the robot and returns the new snapshot. */
    method TurnRight() returns (s: Snapshot)
      requires Valid()
      modifies roomba, this`history
      ensures Valid() && grid == old(grid) && roomba == old(roomba)
      ensures history == old(history) + [TurnRightCmd]
      ensures roomba.State() == AfterTurn(old(roomba.State()))
      ensures !grid.IsWall(roomba.x, roomba.y)
      ensures s == GetState()
    {
      roomba.TurnRight();
      RunSnoc(grid, Start, history, TurnRightCmd);
      history := history + [TurnRightCmd];
      SessionStaysOpen(grid, history);
      s := GetState();
    }

    /** Replaces the robot with a new one at (1, 1) facing NORTH; the grid stays. */
    method Reset() returns (s: Snapshot)
      requires Valid()
      modifies this
      ensures Valid() && grid == old(grid) && fresh(roomba)
      ensures history == old(history) + [ResetCmd]
      ensures roomba.State() == Start
      ensures !grid.IsWall(roomba.x, roomba.y)
      ensures s == GetState()
    {
      roomba := new Roomba(Start.x, Start.y, Start.direction);
      RunSnoc(grid, Start, history, ResetCmd);
      history := history + [ResetCmd];
      s := GetState();
    }

    /** The snapshot of the current state: the grid's size and every cell with its wall flag, and the robot's position and heading. */
    function GetState(): (s: Snapshot)
      reads this, roomba
      ensures s.grid.width == grid.width && s.grid.height == grid.height
      ensures |s.grid.cells| == |grid.cells|
      ensures forall y :: 0 <= y < |grid.cells| ==> |s.grid.cells[y]| == |grid.cells[y]|
      ensures grid.Valid() ==> forall y, x :: 0 <= y < |grid.cells| && 0 <= x < |grid.cells[y]| ==>
                s.grid.cells[y][x] == CellRecord(x, y, grid.IsWall(x, y))
      ensures s.roomba.x == roomba.x && s.roomba.y == roomba.y && s.roomba.direction == ToString(roomba.direction)
      ensures FromString(s.roomba.direction) == Some(roomba.direction)
    {
      Snapshot(grid.ToDict(), roomba.ToDict())
    }
  }

  /** The controller test of the test suite, driven through the session's own methods. */
  method ControllerScenario() returns (s: Snapshot)
    ensures s.roomba == RoombaRecord(1, 1, "NORTH")
  {
    var c := new AppController();
    StartMoves(c.grid);
    s := c.GetState();
    assert s.roomba == RoombaRecord(1, 1, "NORTH");
    s := c.MoveForward();
    assert s.roomba == RoombaRecord(1, 1, "EAST");
    s := c.MoveForward();
    assert s.roomba == RoombaRecord(2, 1, "EAST");
    s := c.TurnRight();
    assert s.roomba == RoombaRecord(2, 1, "SOUTH");
    s := c.Reset();
  }
}
