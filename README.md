# Ball table simulation engine, modelled in Dafny

This project models the engine of a billiard-table simulation. Balls move on a rectangular table
and bounce off its walls. The model covers:

- **Ball** (`data.dfy`, module `Data`): a mutable object with an id, a position, a velocity and a
  radius. `Move(dt)` advances the position by `velocity * dt`.
- **BallManager** (`logic.dfy`, module `Logic`): owns an ordered list of balls. `CreateBall`
  appends a ball that starts between the walls when `W, H >= 2r`. `RemoveBall(id)` takes out
  the first ball with that id. `UpdateBalls(dt)` moves every ball, then clamps and reflects each axis on its own
  against the walls `[r, W - r] x [r, H - r]`.
- **BallService** (`logic.dfy`): an earlier variant of the manager. Its right and bottom wall
  tests compare against `W + r` / `H + r`. For `r >= 0` and `W, H >= 2r` it keeps balls only within
  `[r, W + r] x [r, H + r]`.
- **BallModel** and **PoolTable** (`model.dfy`, module `Model`): a read-model copy of a ball, and
  a table that forwards to a manager and projects its balls into read-models.
- `scenarios.dfy` (module `Scenarios`) holds client methods, most of them following a unit
  test. Each one shows what a caller can conclude from the contracts alone.

The state that the source changes in place is kept in classes. `Ball` has mutable fields.
`BallManager` and `BallService` hold `balls: seq<Ball>`, a list of references, with
`Valid()` saying that no ball object appears twice. Their methods are specified against pure
functions on `BallState` values: `Spawned`, `Tick`/`TickAll` and `FindFirst`/`RemoveFirst`.
The lemmas state the properties of those functions.

Each `Random.NextDouble()` draw is a parameter in `[0, 1)`. The four draws of one `CreateBall`
form a `Draws` value. Positions and velocities are `real`.

The model follows the code. Where the unit tests expect more, it does not follow them:

- Ids are `Count + 1` (Logic/BallManager.cs:32, Logic/BallService.cs:31), not a counter that
  only grows. After a removal, a new ball can get the id of a ball still in the list
  (`Scenarios.IdReusedAfterRemoval`).
- The radius is the manager's base radius (Logic/BallManager.cs:35). The 0.8–1.2 radius jitter
  and the positive mass that LogicTest/BallManagerTest.cs:164-166 expect are not in the code.
  The velocity components are drawn from `[-50, 50)` (Logic/BallManager.cs:27-28).
- `RemoveAllBalls` (LogicTest/BallManagerTest.cs:113-125) and the ball–ball collision of
  LogicTest/BallManagerTest.cs:128-154 have no counterpart in Logic/BallManager.cs.
- Any `deltaTime` is accepted, including a negative one. Data/Ball.cs:20-24 does not guard it.

## Model

| member | source | states |
|---|---|---|
| `Data.Moved` | Data/Ball.cs:22-23 | A move keeps id, velocity and radius. Each coordinate is displaced by its velocity component times `dt`. |
| `Data.Ball.constructor` | Logic/BallManager.cs:30-37 | The object initializer: the new ball holds exactly the given id, position, velocity and radius (also Logic/BallService.cs:29-36). |
| `Data.Ball.Move` | Data/Ball.cs:20-24 | The new state is `Moved(old state, dt)`: each coordinate advances by its velocity times `dt`. The frame allows only `positionX`/`positionY` to change, so id, velocity and radius are kept. |
| `Data.MoveZero` | DataTest/BallTest.cs:26-41 | A move over zero time leaves the ball unchanged. |
| `Data.MoveExample` | DataTest/BallTest.cs:10-24 | From (0,0) with velocity (1,2), a move of 1.5 ends at (1.5, 3.0). |
| `Data.MoveCompose` | Data/Ball.cs:20-24 | `Move(a)` then `Move(b)` is `Move(a + b)`, because velocity is untouched. |
| `Data.MoveInverse` | Data/Ball.cs:20-24 | `Move(-dt)` undoes `Move(dt)`. |
| `Data.States` | Logic/BallManager.cs:89-92 | The view of a ball list has one state per ball, equal to that ball's fields, in list order. |
| `Data.DistinctWithout` | Logic/BallManager.cs:48 | Taking one ball out of a list of distinct balls leaves the rest distinct. |
| `Logic.SpawnCoordinate` | Logic/BallManager.cs:24-25 | For a draw in `[0,1)` on a table with `extent >= 2r`, the start coordinate lies in `[r, extent - r]`. It lies strictly below `extent - r` when `extent > 2r`. |
| `Logic.ScaleBelow` | Logic/BallManager.cs:24-25 | A fraction in `[0,1)` of a non-negative span is at most the span, and strictly less when the span is positive. |
| `Logic.SpawnVelocity` | Logic/BallManager.cs:27-28 | Each start velocity component lies in `[-50, 50)`. |
| `Logic.Spawned` | Logic/BallManager.cs:22-38 | A new ball has id `count + 1` and the base radius, and each velocity component lies in `[-50, 50)`. It lies within the walls when `W >= 2r` and `H >= 2r`. |
| `Logic.WallAxis` | Logic/BallManager.cs:61-85 | The BallManager rule on one moved coordinate. The result stays in `[r, extent - r]` when `extent >= 2r`, and the size of the velocity is kept. A legal coordinate is left exactly as it is, and only a legal one. Otherwise the velocity component is reversed and the ball is put on the wall it crossed: below `r` it goes to `r`, above `extent - r` to `extent - r`. |
| `Logic.ServiceAxis` | Logic/BallService.cs:48-68 | The BallService rule on one moved coordinate (as written). For `r >= 0` and `extent >= 2r` the result stays in the weaker `[r, extent + r]`, and the size of the velocity is kept. A coordinate in `[r, extent + r]` is left alone. Otherwise the velocity component is reversed: below `r` the ball goes to `r`, above `extent + r` to `extent - r`. |
| `Logic.Tick` | Logic/BallManager.cs:56-85 | One ball's tick keeps its id, its radius and the size of each velocity component. With BallManager's walls and `W, H >= 2r`, the ball ends inside `[r, W - r] x [r, H - r]`. With BallService's walls, `r >= 0` and `W, H >= 2r`, it ends inside `[r, W + r] x [r, H + r]`. |
| `Logic.TickAll` | Logic/BallManager.cs:54-87 | A list tick has the same length, and element `i` is the tick of ball `i` alone: balls never influence each other. |
| `Logic.TickAllKeepsIds` | Logic/BallManager.cs:54-87 | A tick keeps the sequence of ids, so list order is kept. |
| `Logic.TickAllInBounds` | Logic/BallManager.cs:61-85 | After a BallManager tick, every ball is within the walls, whatever the prior positions, given `W, H >= 2r`. |
| `Logic.ServiceTickAllInBounds` | Logic/BallService.cs:48-68 | After a BallService tick, every ball is within `[r, W + r] x [r, H + r]`, given `r >= 0` and `W, H >= 2r`. |
| `Logic.TickInsideIsMove` | LogicTest/BallManagerTest.cs:170-189 | A ball whose moved position is within the walls is only moved: its velocity is unchanged. |
| `Logic.ServiceTickInsideIsMove` | Logic/BallService.cs:48-68 | Under BallService, a ball whose moved position is within `[r, W + r] x [r, H + r]` is only moved. This includes the band `(W - r, W + r]` past BallManager's right wall. |
| `Logic.CornerBounce` | Logic/BallManager.cs:61-85 | x and y are handled on their own. A ball whose moved position is outside the walls on both axes, at any of the four corners, ends on a wall in x and on a wall in y, with both velocity components reversed. |
| `Logic.WallRulesAgreeOutsideGap` | Logic/BallService.cs:53-57 | For `r >= 0` and `extent >= 2r`, the two wall rules agree exactly when the moved coordinate is outside `(extent - r, extent + r]`. |
| `Logic.ServiceRightWallLeak` | Logic/BallService.cs:53-57 | Counterexample: with W=300 and r=10, a ball at x=289 running at +5 for one time unit stays at x=294 under BallService with its velocity kept. That is outside the walls. BallManager puts it at 290. |
| `Logic.FindFirst` | Logic/BallManager.cs:45 | The result is the index of the first ball with the id, or `None` exactly when no ball has it. |
| `Logic.RemoveFirst` | Logic/BallManager.cs:45-51 | With no ball carrying the id, the list is unchanged. Otherwise the list is one shorter. |
| `Logic.FoundIffCounted` | Logic/BallManager.cs:45-46 | The id is found exactly when at least one ball carries it. |
| `Logic.CountIdConcat` | Logic/BallManager.cs:48 | The number of balls with an id adds up over a concatenation. |
| `Logic.RemoveFirstCounts` | Logic/BallManager.cs:43-52 | A removal takes out exactly one ball with the id when there is one. The count of every other id is unchanged. |
| `Logic.RemoveTwice` | LogicTest/BallManagerTest.cs:25-33 | When exactly one ball has the id, the first removal finds it and the second finds nothing. |
| `Logic.BallManager.constructor` | Logic/BallManager.cs:15-20 | Stores width, height and base radius, and starts with an empty list. |
| `Logic.BallManager.CreateBall` | Logic/BallManager.cs:22-41 | Appends exactly one fresh ball, `Spawned(old length, ...)`, at the end. Earlier balls are untouched. Returns that ball. |
| `Logic.BallManager.RemoveBall` | Logic/BallManager.cs:43-52 | Returns true exactly when some ball has the id. The new list is `RemoveFirst` of the old one: the first such ball is removed, the others are kept in order. Otherwise the list is unchanged. |
| `Logic.BallManager.UpdateBalls` | Logic/BallManager.cs:54-87 | The new list state is `TickAll` of the old one under BallManager's walls. The list itself is not changed. An empty list stays empty. |
| `Logic.BallManager.GetBalls` | Logic/BallManager.cs:89-92 | Returns the managed balls, in order. The ball objects are the manager's own, but the list comes back as a value. |
| `Logic.BallService.constructor` | Logic/BallService.cs:14-19 | Stores width, height and base radius, and starts with an empty list. |
| `Logic.BallService.CreateBall` | Logic/BallService.cs:21-40 | As for BallManager: appends one fresh ball with id `old length + 1`, velocity in `[-50, 50)` and the base radius. |
| `Logic.BallService.UpdateBalls` | Logic/BallService.cs:42-70 | The new list state is `TickAll` of the old one under BallService's walls: ids, radii, order and speeds are kept. |
| `Logic.BallService.GetBalls` | Logic/BallService.cs:72-75 | Returns the service's balls, in order. The ball objects are shared, and the list is a value. |
| `Model.RefreshIdempotent` | Model/BallModel.cs:21-25 | Updating a read-model from the same ball twice is the same as once. |
| `Model.RefreshTracksMove` | Model/BallModel.cs:21-25 | After its ball moves, a read-model updated from that ball equals the projection of the moved ball. |
| `Model.BallModel.constructor` | Model/BallModel.cs:11-19 | Copies id, position and radius from the ball. `Diameter()` is twice the ball's radius. |
| `Model.BallModel.Diameter` | Model/BallModel.cs:11 | The diameter is twice the radius. |
| `Model.BallModel.Update` | Model/BallModel.cs:21-25 | Takes the ball's position. Id, radius and diameter are kept, even if the ball's differ. |
| `Model.PoolTable.constructor` | Model/PoolTable.cs:13-19 | Stores width, height, ball radius and manager as given. |
| `Model.PoolTable.Update` | Model/PoolTable.cs:21-24 | The effect is exactly one manager tick with the same `dt`. |
| `Model.PoolTable.GetBallModels` | Model/PoolTable.cs:26-32 | Returns one fresh read-model per managed ball, in list order, carrying that ball's id, position and radius. It has no `modifies` clause, so the manager and its balls are unchanged. |
| `Model.PoolTable.AddBall` | Model/PoolTable.cs:34 | Has the effect of exactly one `CreateBall` and returns the ball that call produced. |
| `Scenarios.RemoveSameIdTwice` | LogicTest/BallManagerTest.cs:25-33 | One ball, then none. Removing its id gives true, then false. |
| `Scenarios.IdReusedAfterRemoval` | Logic/BallManager.cs:32 | Create two balls, remove id 1, then create another. The new ball gets id 2, the id of the surviving ball. |
| `Scenarios.ManagerLeftWallBounce` | LogicTest/BallManagerTest.cs:47-58 | A ball at `x = r` running at -20 ends at `x >= r` with x-velocity +20. |
| `Scenarios.ManagerMovesWithDeltaTime` | LogicTest/BallManagerTest.cs:169-189 | A ball at (100,100) with velocity (10,20) ends at (105,110) after dt 0.5, with its velocity kept. |
| `Scenarios.ManagerEmptyTick` | LogicTest/BallManagerTest.cs:191-203 | A tick of an empty manager leaves it empty. |
| `Scenarios.ServiceRightWallBounce` | LogicTest/BallServiceTest.cs:49-60 | A BallService ball at `W - r + 1` running at +20 ends at `W - r` with x-velocity -20. |
| `Scenarios.ServiceHoldsEveryCreated` | LogicTest/BallServiceTest.cs:88-99 | After n `CreateBall` calls on a fresh service, `GetBalls` has n elements. |

## Left out

- Random: the `Random` generator itself is left out. Each `NextDouble()` draw is a parameter in `[0, 1)`.
- Floating point: the `float` cast of the velocity components and IEEE rounding are left out.
  Positions and velocities are exact reals.
- `Debug.WriteLine` in `UpdateBalls` is left out. It is output only.
- Integer width: the `int` id `Count + 1` is unbounded here. A list of 2^31 balls is not a concern of the model.
- IBallManager is modelled by the concrete `BallManager`. `PoolTable` therefore works only over
  that class, and its `async`/`await` calls are plain synchronous calls.
- `Logic.BallManager.GetBalls`, `Logic.BallService.GetBalls`: the source returns its live
  `List`, and callers can change that list through the returned reference, for example with
  `Clear()` (ViewModel/PoolTableViewModel.cs:73, :109). The model returns the list as a `seq`
  value. A caller holding it does not see later `CreateBall`/`RemoveBall` calls, and cannot
  change the manager's list through it. Only the ball objects are shared: `CreateBall` returns
  the ball itself, and callers may change its fields, as the scenarios do.
- A caller that puts the same ball object into the list twice is not modelled: `Valid()` rules
  that out, and only `CreateBall` adds to the list.
- `Model.PoolTable.GetBallModels`: the `Select`/`ToList` projection is a loop, because each read-model is a freshly allocated object.
- The diagnostic logger, the view-models and the WPF timing glue are not part of this model.
  They are I/O, concurrency or UI.
- Mass, colour, radius jitter, `RemoveAllBalls`, ball–ball collision and the async APIs are
  absent from the modelled code, though some tests expect them.

## Findings

| source | as written | input that shows it | evidently intended | confidence | as-written member | corrected member |
|---|---|---|---|---|---|---|
| Logic/BallService.cs:53 (and :64 for y) | the far-wall test is `PositionX > _ballRadius + _tableWidth` | W=300, r=10, ball at x=289 moving +5 for dt=1: it ends at x=294 > W - r with its velocity kept, overlapping the right wall | test against `_tableWidth - _ballRadius`, as Logic/BallManager.cs:68 and :81 do, so that balls stay in `[r, W - r]` | high; not executed | `Logic.ServiceAxis`, with `Logic.ServiceRightWallLeak` | `Logic.WallAxis`, with `Logic.TickAllInBounds` |

`BallService` keeps the as-written rule, so that it models that class exactly. BallManager's
own rule as written (Logic/BallManager.cs:68, :81) is the corrected one. `BallManager` and
`PoolTable` use it. `Logic.WallRulesAgreeOutsideGap` shows that the two rules
differ only on `(W - r, W + r]`.
