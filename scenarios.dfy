/**
 * Client scenarios on a 300 x 200 table with base radius 10, showing what a caller can
 * conclude from the contracts alone. Most follow a unit test in LogicTest/;
 * `IdReusedAfterRemoval` follows the id rule of Logic/BallManager.cs:32 instead.
 */
module Scenarios {
  import opened Data
  import opened Logic

  /** Removing the only ball's id succeeds once and then fails; the list goes from one ball to none. */
  method RemoveSameIdTwice(draws: Draws) returns (countBefore: nat, first: bool, countAfter: nat, second: bool)
    requires draws.InRange()
    ensures countBefore == 1 && first && countAfter == 0 && !second
  {
    var manager := new BallManager(300.0, 200.0, 10.0);
    var _ := manager.CreateBall(draws);
    var balls := manager.GetBalls();
    countBefore := |balls|;
    var id := balls[0].id;
    first := manager.RemoveBall(id);
    balls := manager.GetBalls();
    countAfter := |balls|;
    second := manager.RemoveBall(id);
  }

  /** Ids are `Count + 1`, so after a removal a new ball gets the id of a ball still on the table. */
  method IdReusedAfterRemoval(d1: Draws, d2: Draws, d3: Draws) returns (removed: bool, survivorId: int, newestId: int)
    requires d1.InRange() && d2.InRange() && d3.InRange()
    ensures removed && survivorId == newestId == 2
  {
    var manager := new BallManager(300.0, 200.0, 10.0);
    var _ := manager.CreateBall(d1);
    var survivor := manager.CreateBall(d2);
    removed := manager.RemoveBall(1);
    var newest := manager.CreateBall(d3);
    survivorId, newestId := survivor.id, newest.id;
  }

  /** A ball pushed against the left wall and moving left bounces: it stays inside and its x-velocity flips. */
  method ManagerLeftWallBounce(draws: Draws) returns (x: real, vx: real)
    requires draws.InRange()
    ensures x >= 10.0 && vx == 20.0
  {
    var manager := new BallManager(300.0, 200.0, 10.0);
    var ball := manager.CreateBall(draws);
    ball.positionX := ball.ballRadius;
    ball.velocity := Vector2(-20.0, 0.0);
    manager.UpdateBalls(1.0);
    x, vx := ball.positionX, ball.velocity.x;
  }

  /** A ball well inside the table moves by velocity * deltaTime and keeps its velocity. */
  method ManagerMovesWithDeltaTime(draws: Draws) returns (x: real, y: real, v: Vector2)
    requires draws.InRange()
    ensures x == 105.0 && y == 110.0 && v == Vector2(10.0, 20.0)
  {
    var manager := new BallManager(300.0, 200.0, 10.0);
    var ball := manager.CreateBall(draws);
    ball.positionX, ball.positionY := 100.0, 100.0;
    ball.velocity := Vector2(10.0, 20.0);
    manager.UpdateBalls(0.5);
    x, y, v := ball.positionX, ball.positionY, ball.velocity;
  }

  /** A tick of an empty manager leaves it empty. */
  method ManagerEmptyTick(deltaTime: real) returns (count: nat)
    ensures count == 0
  {
    var manager := new BallManager(300.0, 200.0, 10.0);
    manager.UpdateBalls(deltaTime);
    var balls := manager.GetBalls();
    count := |balls|;
  }

  /**
   * BallService's right-wall case from its test: one past `W - r`, moving right at 20 for one
   * time unit, the ball passes `W + r` and is put back at `W - r` with its velocity reversed.
   */
  method ServiceRightWallBounce(draws: Draws) returns (x: real, vx: real)
    requires draws.InRange()
    ensures x == 290.0 && vx == -20.0
  {
    var service := new BallService(300.0, 200.0, 10.0);
    var ball := service.CreateBall(draws);
    ball.positionX := 300.0 - ball.ballRadius + 1.0;
    ball.velocity := Vector2(20.0, 0.0);
    service.UpdateBalls(1.0);
    x, vx := ball.positionX, ball.velocity.x;
  }

  /** A fresh service holds one ball per CreateBall call. */
  method ServiceHoldsEveryCreated(draws: seq<Draws>) returns (count: nat)
    requires forall k :: 0 <= k < |draws| ==> draws[k].InRange()
    ensures count == |draws|
  {
    var service := new BallService(300.0, 200.0, 10.0);
    var i := 0;
    while i < |draws|
      invariant 0 <= i <= |draws|
      invariant service.Valid() && |service.balls| == i
      invariant fresh(service)
    {
      var _ := service.CreateBall(draws[i]);
      i := i + 1;
    }
    var balls := service.GetBalls();
    count := |balls|;
  }
}
