# Robot-Mover in Dafny

A model of the Robot-Mover simulation: a robot ("roomba") on a rectangular grid whose
boundary cells are walls. The robot moves forward or turns right on command. A session
controller owns one 10 by 10 grid and one robot, and returns a snapshot of both after
every command.

One Dafny module per source file:

- `wrappers.dfy` (`Wrappers`): `Option`, standing for Python's `None` and for a failed lookup.
- `direction.dfy` (`Directions`): the four headings as a datatype, with their enum values,
  the right turn, the step vectors (y grows downward) and the name round trip.
- `position.dfy` (`Positions`): the coordinate pair and its comparison with any operand.
- `grid.dfy` (`Grids`): cells, the cell layout and the walled grid. `_create_grid` is a
  method with the source's two nested loops. The grid itself is a value with a `Valid()`
  layout invariant, because the program never changes a grid after building it.
- `roomba.dfy` (`Roombas`): the movement rule, stated on a `Pose` value. The `Roomba`
  class has mutable `x`, `y` and `direction`, and its `MoveForward` and `TurnRight`
  methods are proved against that rule.
- `app_controller.dfy` (`AppControllers`): the session class. A ghost `history` records
  the move, turn and reset commands received. The invariant `Valid()` says the robot's state is what replaying
  that history from (1, 1) facing NORTH gives. Lemmas over command sequences show that
  the robot never stands on a wall.

A grid narrower or shorter than 3 cells has no open interior, but the code does not
reject it: `_create_grid` is defined for every integer size, because `range(n)` is empty
when `n <= 0`. So `CreateCells` and `NewGrid` take any `int`, and `RangeLength` gives the
number of rows and columns.

## Model

| member | source | states |
|---|---|---|
| Directions.Value | models/direction.py:6-9 | each heading's enum value: NORTH 0, EAST 1, SOUTH 2, WEST 3, always below 4 |
| Directions.FromValue | models/direction.py:4-13 | looking a heading up by its enum value 0..3 gives the heading with that value |
| Directions.TurnRight | models/direction.py:11-13 | the new heading's value is the old value plus one, modulo 4, so NORTH→EAST→SOUTH→WEST→NORTH |
| Directions.Vector | models/direction.py:24-37 | every step vector has \|dx\| + \|dy\| = 1 |
| Directions.VectorInjective | models/direction.py:31-37 | two headings have the same step vector exactly when they are the same heading |
| Directions.TurnRightRotatesVector | models/direction.py:11-37 | turning right rotates the step vector clockwise in y-down coordinates: (dx, dy) becomes (-dy, dx) |
| Directions.TurnAroundReverses | models/direction.py:11-37 | two right turns give a different heading whose step vector is the negated one |
| Directions.TurnRightTimesValue | models/direction.py:11-13 | n right turns add n to the enum value, modulo 4 |
| Directions.TurnRightTimesAdd | models/direction.py:11-13 | m right turns followed by n right turns are m + n right turns |
| Directions.FourTurnsIdentity | models/direction.py:11-13 | four right turns give back the starting heading |
| Directions.TurnRightTimesPeriodic | models/direction.py:11-13 | n right turns give the same heading as n mod 4 right turns |
| Directions.ToString | models/direction.py:15-17 | a heading's name is non-empty and already upper case |
| Directions.ToStringInjective | models/direction.py:15-17 | two headings have the same name exactly when they are the same heading |
| Directions.FromString | models/direction.py:19-22 | parsing succeeds exactly when the upper-cased string is some heading's name, and then it gives that heading; otherwise `None` |
| Directions.FromStringToString | models/direction.py:15-22 | parsing a heading's name gives back that heading |
| Directions.FromStringIgnoresCase | models/direction.py:19-22 | a string and its upper-case form parse to the same result |
| Directions.FromStringExamples | models/direction.py:19-22 | lower- and mixed-case names parse; an unknown name gives `None` |
| Positions.Equals | models/position.py:15-19 | a position equals the other operand exactly when that operand is a Position with the same x and y; it never equals a non-Position |
| Positions.EqualsIsEquivalence | models/position.py:15-19 | position equality is reflexive, symmetric and transitive |
| Positions.EqualsExamples | tests/test_models.py:21-29 | (5,5) equals (5,5) and does not equal (6,5) |
| Positions.ToDict | models/position.py:25-27 | the dictionary has exactly the keys "x" and "y", holding the stored coordinates |
| Positions.FromDictToDict | models/position.py:25-27 | reading the dictionary form back gives the same position |
| Grids.CreateCells | models/grid.py:37-48 | the result has `height` rows of `width` cells; `cells[y][x]` has coordinates (x, y) and is a wall exactly when x is 0 or width-1 or y is 0 or height-1 |
| Grids.NewGrid | models/grid.py:25-35 | a new grid has the given width and height (10 by 10 by default) and the layout above |
| Grids.Grid.IsWithinBounds | models/grid.py:50-61 | coordinates are in bounds exactly when they address a stored cell |
| Grids.Grid.IsWall | models/grid.py:63-76 | every out-of-bounds coordinate is a wall; in bounds, a cell is a wall exactly when it lies on the boundary; so a coordinate is open exactly when it is strictly inside the walls |
| Grids.Grid.GetCell | models/grid.py:78-91 | `None` exactly when out of bounds; otherwise the cell with those coordinates and the wall flag `IsWall` reports |
| Grids.Grid.ToDict | models/grid.py:93-99 | the dictionary form has the same width, height and shape, and each record's coordinates and wall flag agree with `IsWall` |
| Grids.GridDeterminedBySize | models/grid.py:37-48 | two valid grids of the same size are equal |
| Grids.TenByTenExamples | tests/test_models.py:32-52 | on a 10 by 10 grid the corners and edges are walls, the centre is open, and the bounds are 0..9 |
| Roombas.NextPosition | models/roomba.py:21-38 | the next position exists exactly when the cell one step along the heading is strictly inside the walls, and then it is that cell |
| Roombas.BoundsTestRedundant | models/roomba.py:36 | the bounds test before the wall test does not change the answer |
| Roombas.MoveForwardOutcomes | models/roomba.py:40-60 | if the cell ahead is open, the robot moves by the heading vector and keeps its heading; otherwise it stays and turns right once, with no retry |
| Roombas.MoveForwardOneStep | models/roomba.py:40-60 | a forward command either moves exactly one cell with the heading unchanged, or stays and turns right |
| Roombas.MoveLandsOnOpenCell | models/roomba.py:36-56 | after a successful move the robot stands on an open cell, wherever it started |
| Roombas.CommandsKeepOpen | models/roomba.py:40-64 | from an open cell, neither a forward command nor a right turn puts the robot on a wall |
| Roombas.MovementExamples | tests/test_models.py:55-108 | the test suite's scenarios on a 10 by 10 grid: (5,5) N moves to (5,4); (1,1) W is blocked and faces N; (5,2) N moves to (5,1), then faces E at (5,1) |
| Roombas.Roomba.constructor | models/roomba.py:8-19 | the new robot has the given coordinates and heading, by default (0, 0) facing NORTH |
| Roombas.Roomba.MoveForward | models/roomba.py:40-60 | returns whether the cell ahead was strictly inside the walls; the new state is the movement rule applied to the old state |
| Roombas.Roomba.TurnRight | models/roomba.py:62-64 | only the heading changes, to its right turn |
| Roombas.Roomba.GetPosition | models/roomba.py:66-68 | the returned position equals the robot's current coordinates |
| Roombas.Roomba.ToDict | models/roomba.py:70-76 | the record holds the current coordinates and the heading's name, which parses back to the heading |
| AppControllers.RunStaysOpen | controllers/app_controller.py:13-41 | a robot that starts on an open cell is on an open cell after any sequence of commands |
| AppControllers.SessionStaysOpen | controllers/app_controller.py:9-11 | on the controller's 10 by 10 grid, every session that starts at (1, 1) stays on open cells |
| AppControllers.ResetForgetsHistory | controllers/app_controller.py:33-41 | whatever came before a reset, the commands after it act as in a new session |
| AppControllers.StartMoves | tests/test_models.py:122-130 | from (1, 1) facing NORTH a forward command turns the robot EAST, and the next one moves it to (2, 1) |
| AppControllers.SessionExample | tests/test_models.py:111-142 | the test suite's controller scenario: forward, forward, right turn, then reset back to (1, 1) NORTH |
| AppControllers.AppController.constructor | controllers/app_controller.py:7-11 | a new session has a 10 by 10 grid and a robot at (1, 1) facing NORTH, on an open cell |
| AppControllers.AppController.MoveForward | controllers/app_controller.py:13-21 | the robot changes exactly as the robot's own forward command would change it; the grid and the robot object stay the same; the robot is on an open cell; the snapshot is the new state |
| AppControllers.AppController.TurnRight | controllers/app_controller.py:23-31 | the robot turns right in place; the grid stays; the snapshot is the new state |
| AppControllers.AppController.Reset | controllers/app_controller.py:33-41 | a new robot at (1, 1) facing NORTH replaces the old one, whatever its state; the grid stays |
| AppControllers.AppController.GetState | controllers/app_controller.py:43-53 | the snapshot carries the grid's size, every cell in the grid's shape with its coordinates and a wall flag agreeing with `IsWall`, and the robot's coordinates and heading name, which parses back to the heading; it is a function, so it changes nothing and repeated requests with no command between them give identical snapshots |
| AppControllers.ControllerScenario | tests/test_models.py:111-142 | the controller test driven through the session's methods ends with the robot at (1, 1) facing NORTH |

## Left out

- app.py (the web routes, page rendering, JSON responses and process start) and
  static/script.js (the browser page): these are I/O around the controller.
- Dictionaries become datatypes (`CellRecord`, `GridRecord`, `RoombaRecord`, `Snapshot`).
  Their key names and the JSON encoding are not modelled. `Position.to_dict` is the one
  dictionary kept as a `map<string, int>`, because all its values are integers.
- `Cell.to_dict` is `CellToDict`. It has no contract of its own; `Grid.ToDict` states
  what the records hold.
- `Position.__repr__`: only used for display.
- Directions.FromString: `str.upper()` is modelled for ASCII letters only. Python also
  maps some other characters to ASCII capitals (for example U+017F to "S"), so a few such
  non-ASCII spellings would parse in the program but give `None` in the model.
- Directions.FromString: the program raises `KeyError` for an unknown name. The model
  returns `None` instead.
- Directions.FromValue: the program raises `ValueError` for a value outside 0..3. The
  model requires a value below 4. The only caller, the right turn, passes `(v + 1) % 4`.
- `Roomba.get_next_position` is modelled as `Roombas.NextPosition` on the robot's state
  as a value, not as a method of the class. `Roomba.MoveForward` calls it on the current
  state.
- The grid is a value, not an object. No code changes a grid after construction, so its
  identity (aliasing) is not tracked.
- Concurrent commands from simultaneous web requests are not modelled. Commands are
  applied one at a time.
