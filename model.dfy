/**
 * The model layer: a read-model of a ball (Model/BallModel.cs) and the pool table that
 * forwards to a ball manager and projects its balls into read-models (Model/PoolTable.cs).
 */
module Model {
  import opened Data
  import opened Logic

  /** The fields a read-model carries. */
  datatype ModelState = ModelState(id: int, positionX: real, positionY: real, ballRadius: real)

  /** The read-model of a ball: its id, position and radius; the velocity is dropped. */
  function Project(b: BallState): ModelState
  {
    ModelState(b.id, b.positionX, b.positionY, b.ballRadius)
  }

  /** What Update makes of a read-model: the ball's position, the model's own id and radius. */
  function Refreshed(m: ModelState, b: BallState): ModelState
  {
    m.(positionX := b.positionX, positionY := b.positionY)
  }

  /** Refreshing from the same ball twice is the same as once. */
  lemma RefreshIdempotent(m: ModelState, b: BallState)
    ensures Refreshed(Refreshed(m, b), b) == Refreshed(m, b)
  {
  }

  /** A model refreshed from its own ball, after that ball has moved, is the projection of the moved ball. */
  lemma RefreshTracksMove(b: BallState, deltaTime: real)
    ensures Refreshed(Project(b), Moved(b, deltaTime)) == Project(Moved(b, deltaTime))
  {
  }

  class BallModel {
    var id: int
    var positionX: real
    var positionY: real
    var ballRadius: real

    function View(): ModelState
      reads this
    {
      ModelState(id, positionX, positionY, ballRadius)
    }

    /** The diameter: twice the radius. */
    function Diameter(): (d: real)
      reads this
      ensures d == 2.0 * ballRadius
    {
      ballRadius * 2.0
    }

    /** Copies id, position and radius from the ball. */
    constructor (ball: Ball)
      ensures View() == Project(ball.State())
      ensures Diameter() == 2.0 * ball.ballRadius
    {
      id := ball.id;
      positionX := ball.positionX;
      positionY := ball.positionY;
      ballRadius := ball.ballRadius;
    }

    /** Takes the ball's position; id and radius stay as they were, whatever the ball's are. */
    method Update(ball: Ball)
      modifies this
      ensures View() == Refreshed(old(View()), ball.State())
      ensures id == old(id) && ballRadius == old(ballRadius) && Diameter() == old(Diameter())
    {
      positionX := ball.positionX;
      positionY := ball.positionY;
    }
  }

  /** A table of given size that drives a ball manager and reads its balls back as models. */
  class PoolTable {
    const width: real
    const height: real
    const ballRadius: real
    const ballManager: BallManager

    constructor (width: real, height: real, ballRadius: real, ballManager: BallManager)
      ensures this.width == width && this.height == height && this.ballRadius == ballRadius
      ensures this.ballManager == ballManager
    {
      this.width := width;
      this.height := height;
      this.ballRadius := ballRadius;
      this.ballManager := ballManager;
    }

    /** One manager tick with the same deltaTime, and nothing more. */
    method Update(deltaTime: real)
      requires ballManager.Valid()
      modifies ballManager.balls
      ensures ballManager.Valid()
      ensures ballManager.Snapshot()
              == TickAll(BallManagerWalls, old(ballManager.Snapshot()), deltaTime,
                         ballManager.tableWidth, ballManager.tableHeight, ballManager.ballRadius)
    {
      ballManager.UpdateBalls(deltaTime);
    }

    /** One new read-model per managed ball, in list order; the manager is left as it is. */
    method GetBallModels() returns (models: seq<BallModel>)
      ensures |models| == |ballManager.balls|
      ensures forall i :: 0 <= i < |models| ==> fresh(models[i])
      ensures forall i :: 0 <= i < |models| ==> models[i].View() == Project(ballManager.Snapshot()[i])
    {
      var balls := ballManager.GetBalls();
      models := [];
      var i := 0;
      while i < |balls|
        invariant 0 <= i <= |balls| && |models| == i
        invariant forall k :: 0 <= k < i ==> fresh(models[k])
        invariant forall k :: 0 <= k < i ==> models[k].View() == Project(balls[k].State())
      {
        var model := new BallModel(balls[i]);
        models := models + [model];
        i := i + 1;
      }
    }

    /** Creates exactly one ball through the manager and hands back that ball. */
    method AddBall(draws: Draws) returns (ball: Ball)
      requires ballManager.Valid() && draws.InRange()
      modifies ballManager
      ensures ballManager.Valid() && fresh(ball)
      ensures ballManager.balls == old(ballManager.balls) + [ball]
      ensures ball.State() == Spawned(|old(ballManager.balls)|, ballManager.tableWidth, ballManager.tableHeight,
                                      ballManager.ballRadius, draws)
      ensures ballManager.Snapshot() == old(ballManager.Snapshot()) + [ball.State()]
    {
      ball := ballManager.CreateBall(draws);
    }
  }
}
