/**
 * The logic layer: how a ball is created, how one tick moves it and bounces it off the
 * walls, and the two managers that own the list of balls — BallManager (Logic/BallManager.cs)
 * and its earlier variant BallService (Logic/BallService.cs).
 */
module Logic {
  import opened Data

  datatype Option<T> = None | Some(value: T)

  // ---------------------------------------------------------------------------
  // Creation
  // ---------------------------------------------------------------------------

  /** The four Random.NextDouble draws CreateBall makes, in the order it makes them. */
  datatype Draws = Draws(x: real, y: real, velocityX: real, velocityY: real)
  {
    predicate InRange()
    {
      0.0 <= x < 1.0 && 0.0 <= y < 1.0 && 0.0 <= velocityX < 1.0 && 0.0 <= velocityY < 1.0
    }
  }

  /** A start coordinate `radius + u * (extent - 2 * radius)`, wall-legal whenever the table is wide enough. */
  function SpawnCoordinate(radius: real, extent: real, u: real): (p: real)
    requires 0.0 <= u < 1.0
    ensures extent >= 2.0 * radius ==> radius <= p <= extent - radius
    ensures extent > 2.0 * radius ==> p < extent - radius
  {
    var span := extent - 2.0 * radius;
    ScaleBelow(u, span);
    radius + u * span
  }

  /** A fraction in `[0, 1)` of a non-negative span is at most the span, and below it when the span is positive. */
  lemma ScaleBelow(u: real, d: real)
    requires 0.0 <= u < 1.0
    ensures d >= 0.0 ==> 0.0 <= u * d <= d
    ensures d > 0.0 ==> u * d < d
  {
  }

  /** A start velocity component `u * 100 - 50`. */
  function SpawnVelocity(u: real): (v: real)
    requires 0.0 <= u < 1.0
    ensures -50.0 <= v < 50.0
  {
    u * 100.0 - 50.0
  }

  /** A ball lies within the walls `[r, W - r] x [r, H - r]`. */
  predicate InBounds(b: BallState, width: real, height: real, radius: real)
  {
    radius <= b.positionX <= width - radius && radius <= b.positionY <= height - radius
  }

  /** The ball CreateBall builds when `count` balls are already in the list. */
  function Spawned(count: nat, width: real, height: real, radius: real, draws: Draws): (b: BallState)
    requires draws.InRange()
    ensures b.id == count + 1 && b.ballRadius == radius
    ensures -50.0 <= b.velocity.x < 50.0 && -50.0 <= b.velocity.y < 50.0
    ensures width >= 2.0 * radius && height >= 2.0 * radius ==> InBounds(b, width, height, radius)
  {
    BallState(count + 1,
              SpawnCoordinate(radius, width, draws.x),
              SpawnCoordinate(radius, height, draws.y),
              Vector2(SpawnVelocity(draws.velocityX), SpawnVelocity(draws.velocityY)),
              radius)
  }

  // ---------------------------------------------------------------------------
  // One tick: move, then bounce each axis off its walls
  // ---------------------------------------------------------------------------

  /** One coordinate and its velocity component. */
  datatype Axis = Axis(pos: real, vel: real)

  function Abs(x: real): real
  {
    if x < 0.0 then -x else x
  }

  /**
   * BallManager's wall rule for one axis, applied to the moved coordinate `p`:
   * below `radius` it is set to `radius`, above `extent - radius` to `extent - radius`,
   * and either bounce reverses the velocity component.
   */
  function WallAxis(p: real, v: real, radius: real, extent: real): (a: Axis)
    ensures extent >= 2.0 * radius ==> radius <= a.pos <= extent - radius
    ensures Abs(a.vel) == Abs(v)
    ensures (radius <= p <= extent - radius) <==> a == Axis(p, v)
    ensures !(radius <= p <= extent - radius) ==> a.vel == -v && (a.pos == radius || a.pos == extent - radius)
    ensures p < radius ==> a == Axis(radius, -v)
    ensures radius <= p && p > extent - radius ==> a == Axis(extent - radius, -v)
  {
    if p < radius then Axis(radius, -v)
    else if p > extent - radius then Axis(extent - radius, -v)
    else Axis(p, v)
  }

  /**
   * BallService's wall rule for one axis. The far wall is tested against `radius + extent`
   * rather than `extent - radius`, but a ball that passes that test is still put at
   * `extent - radius`. A moved coordinate in `(extent - radius, extent + radius]` is left alone.
   */
  function ServiceAxis(p: real, v: real, radius: real, extent: real): (a: Axis)
    ensures radius >= 0.0 && extent >= 2.0 * radius ==> radius <= a.pos <= extent + radius
    ensures Abs(a.vel) == Abs(v)
    ensures radius <= p <= extent + radius ==> a == Axis(p, v)
    ensures !(radius <= p <= extent + radius) ==> a.vel == -v && (a.pos == radius || a.pos == extent - radius)
    ensures p < radius ==> a == Axis(radius, -v)
    ensures radius <= p && p > extent + radius ==> a == Axis(extent - radius, -v)
  {
    if p < radius then Axis(radius, -v)
    else if p > radius + extent then Axis(extent - radius, -v)
    else Axis(p, v)
  }

  /** Which of the two managers' wall rules a tick applies. */
  datatype Walls = BallManagerWalls | BallServiceWalls

  function Bounce(walls: Walls, p: real, v: real, radius: real, extent: real): Axis
  {
    match walls
    case BallManagerWalls => WallAxis(p, v, radius, extent)
    case BallServiceWalls => ServiceAxis(p, v, radius, extent)
  }

  /** A ball lies within the weaker bounds `[r, W + r] x [r, H + r]` that BallService keeps. */
  predicate InServiceBounds(b: BallState, width: real, height: real, radius: real)
  {
    radius <= b.positionX <= width + radius && radius <= b.positionY <= height + radius
  }

  /**
   * One ball's tick: Move, then the wall rule on x and, independently, on y.
   * `radius` is the manager's base radius, not the ball's own.
   */
  function Tick(walls: Walls, b: BallState, deltaTime: real, width: real, height: real, radius: real): (r: BallState)
    ensures r.id == b.id && r.ballRadius == b.ballRadius
    ensures Abs(r.velocity.x) == Abs(b.velocity.x) && Abs(r.velocity.y) == Abs(b.velocity.y)
    ensures walls == BallManagerWalls && width >= 2.0 * radius && height >= 2.0 * radius
            ==> InBounds(r, width, height, radius)
    ensures walls == BallServiceWalls && radius >= 0.0 && width >= 2.0 * radius && height >= 2.0 * radius
            ==> InServiceBounds(r, width, height, radius)
  {
    var m := Moved(b, deltaTime);
    var ax := Bounce(walls, m.positionX, m.velocity.x, radius, width);
    var ay := Bounce(walls, m.positionY, m.velocity.y, radius, height);
    BallState(b.id, ax.pos, ay.pos, Vector2(ax.vel, ay.vel), b.ballRadius)
  }

  /** A tick of the whole list: every ball is ticked on its own, in place. */
  function TickAll(walls: Walls, s: seq<BallState>, deltaTime: real, width: real, height: real, radius: real)
    : (t: seq<BallState>)
    ensures |t| == |s|
    ensures forall i :: 0 <= i < |s| ==> t[i] == Tick(walls, s[i], deltaTime, width, height, radius)
  {
    if s == [] then []
    else [Tick(walls, s[0], deltaTime, width, height, radius)] + TickAll(walls, s[1..], deltaTime, width, height, radius)
  }

  /** The ids of a list of balls, in order. */
  function Ids(s: seq<BallState>): seq<int>
  {
    if s == [] then [] else [s[0].id] + Ids(s[1..])
  }

  /** A tick keeps every id in its place: the list keeps its length and its order. */
  lemma {:induction false} TickAllKeepsIds(walls: Walls, s: seq<BallState>, deltaTime: real, width: real, height: real, radius: real)
    ensures Ids(TickAll(walls, s, deltaTime, width, height, radius)) == Ids(s)
  {
    if s != [] {
      var t := TickAll(walls, s, deltaTime, width, height, radius);
      assert t[1..] == TickAll(walls, s[1..], deltaTime, width, height, radius);
      TickAllKeepsIds(walls, s[1..], deltaTime, width, height, radius);
    }
  }

  /** After a BallManager tick every ball is inside the walls, whatever the positions were before. */
  lemma TickAllInBounds(s: seq<BallState>, deltaTime: real, width: real, height: real, radius: real)
    requires width >= 2.0 * radius && height >= 2.0 * radius
    ensures forall b | b in TickAll(BallManagerWalls, s, deltaTime, width, height, radius) :: InBounds(b, width, height, radius)
  {
  }

  /** After a BallService tick every ball is inside the weaker bounds only. */
  lemma ServiceTickAllInBounds(s: seq<BallState>, deltaTime: real, width: real, height: real, radius: real)
    requires radius >= 0.0 && width >= 2.0 * radius && height >= 2.0 * radius
    ensures forall b | b in TickAll(BallServiceWalls, s, deltaTime, width, height, radius) :: InServiceBounds(b, width, height, radius)
  {
  }

  /** A ball that lands inside the walls moves freely: the tick is Move and nothing more. */
  lemma TickInsideIsMove(walls: Walls, b: BallState, deltaTime: real, width: real, height: real, radius: real)
    requires InBounds(Moved(b, deltaTime), width, height, radius)
    requires walls == BallServiceWalls ==> radius >= 0.0
    ensures Tick(walls, b, deltaTime, width, height, radius) == Moved(b, deltaTime)
  {
  }

  /**
   * BallService leaves every moved position inside its own weaker bounds alone, including one
   * in the pass-through band `(W - r, W + r]` beyond BallManager's right wall.
   */
  lemma ServiceTickInsideIsMove(b: BallState, deltaTime: real, width: real, height: real, radius: real)
    requires InServiceBounds(Moved(b, deltaTime), width, height, radius)
    ensures Tick(BallServiceWalls, b, deltaTime, width, height, radius) == Moved(b, deltaTime)
  {
  }

  /**
   * A ball that lands beyond the walls on both axes bounces off both at once: it ends on a
   * wall in x and on a wall in y, with both velocity components reversed. This holds at each
   * of the four corners.
   */
  lemma CornerBounce(b: BallState, deltaTime: real, width: real, height: real, radius: real)
    requires var m := Moved(b, deltaTime);
             !(radius <= m.positionX <= width - radius) && !(radius <= m.positionY <= height - radius)
    ensures var t := Tick(BallManagerWalls, b, deltaTime, width, height, radius);
            t.velocity == Vector2(-b.velocity.x, -b.velocity.y) &&
            (t.positionX == radius || t.positionX == width - radius) &&
            (t.positionY == radius || t.positionY == height - radius)
  {
  }

  /**
   * The two wall rules differ only for a moved coordinate in `(extent - radius, extent + radius]`:
   * there BallManager clamps and bounces, BallService lets the ball through.
   */
  lemma WallRulesAgreeOutsideGap(p: real, v: real, radius: real, extent: real)
    requires radius >= 0.0 && extent >= 2.0 * radius
    ensures !(extent - radius < p <= extent + radius) <==> ServiceAxis(p, v, radius, extent) == WallAxis(p, v, radius, extent)
  {
  }

  /**
   * BallService as written: a ball that comes to rest just inside its right-wall test is left
   * beyond the wall at `W - r`. With W = 300, r = 10, a ball at x = 289 moving right at 5 for
   * one time unit ends at x = 294, outside BallManager's bounds, with its velocity unchanged.
   */
  lemma ServiceRightWallLeak()
    ensures var b := BallState(1, 289.0, 100.0, Vector2(5.0, 0.0), 10.0);
            var r := Tick(BallServiceWalls, b, 1.0, 300.0, 200.0, 10.0);
            r.positionX == 294.0 && r.velocity.x == 5.0 && !InBounds(r, 300.0, 200.0, 10.0) &&
            Tick(BallManagerWalls, b, 1.0, 300.0, 200.0, 10.0).positionX == 290.0
  {
  }

  // ---------------------------------------------------------------------------
  // Removal
  // ---------------------------------------------------------------------------

  /** The index of the first ball with `id`, as List.Find locates it. */
  function FindFirst(s: seq<BallState>, id: int): (r: Option<nat>)
    ensures r.Some? ==> r.value < |s| && s[r.value].id == id && forall k :: 0 <= k < r.value ==> s[k].id != id
    ensures r.None? ==> forall k :: 0 <= k < |s| ==> s[k].id != id
  {
    if s == [] then None
    else if s[0].id == id then Some(0)
    else match FindFirst(s[1..], id)
      case None => None
      case Some(i) => Some(i + 1)
  }

  /** The list with its first ball carrying `id` taken out; unchanged when there is none. */
  function RemoveFirst(s: seq<BallState>, id: int): (r: seq<BallState>)
    ensures FindFirst(s, id).None? ==> r == s
    ensures FindFirst(s, id).Some? ==> |r| == |s| - 1
  {
    match FindFirst(s, id)
    case None => s
    case Some(i) => s[..i] + s[i + 1..]
  }

  /** How many balls in the list carry `id`. */
  function CountId(s: seq<BallState>, id: int): nat
  {
    if s == [] then 0 else (if s[0].id == id then 1 else 0) + CountId(s[1..], id)
  }

  /** Some ball carries `id` exactly when FindFirst finds one. */
  lemma {:induction false} FoundIffCounted(s: seq<BallState>, id: int)
    ensures FindFirst(s, id).Some? <==> CountId(s, id) > 0
  {
    if s != [] && s[0].id != id {
      FoundIffCounted(s[1..], id);
    }
  }

  /** Counting over a concatenation. */
  lemma {:induction false} CountIdConcat(a: seq<BallState>, b: seq<BallState>, id: int)
    ensures CountId(a + b, id) == CountId(a, id) + CountId(b, id)
  {
    if a == [] {
      assert a + b == b;
    } else {
      assert (a + b)[0] == a[0];
      assert (a + b)[1..] == a[1..] + b;
      CountIdConcat(a[1..], b, id);
    }
  }

  /**
   * Removal takes out exactly one ball, the first with `id`, when there is one: the number of
   * balls with `id` drops by one and the number with every other id stays the same.
   */
  lemma RemoveFirstCounts(s: seq<BallState>, id: int, other: int)
    ensures CountId(RemoveFirst(s, id), other)
            == CountId(s, other) - (if other == id && FindFirst(s, id).Some? then 1 else 0)
  {
    FoundIffCounted(s, id);
    match FindFirst(s, id)
    case None =>
    case Some(i) =>
      assert s == s[..i] + s[i..];
      assert s[i..] == [s[i]] + s[i + 1..];
      CountIdConcat(s[..i], s[i..], other);
      CountIdConcat([s[i]], s[i + 1..], other);
      CountIdConcat(s[..i], s[i + 1..], other);
      assert CountId([s[i]], other) == if s[i].id == other then 1 else 0 by {
        assert [s[i]][1..] == [];
      }
  }

  /** With a single ball carrying `id`, the first removal finds it and a second finds nothing. */
  lemma RemoveTwice(s: seq<BallState>, id: int)
    requires CountId(s, id) == 1
    ensures FindFirst(s, id).Some?
    ensures FindFirst(RemoveFirst(s, id), id).None?
  {
    FoundIffCounted(s, id);
    RemoveFirstCounts(s, id, id);
    FoundIffCounted(RemoveFirst(s, id), id);
  }

  // ---------------------------------------------------------------------------
  // The managers
  // ---------------------------------------------------------------------------

  /** The ball manager: an ordered list of balls on a `tableWidth` x `tableHeight` table. */
  class BallManager {
    const tableWidth: real
    const tableHeight: real
    const ballRadius: real
    var balls: seq<Ball>

    ghost predicate Valid()
      reads this
    {
      Distinct(balls)
    }

    /** The current state of every managed ball, in list order. */
    function Snapshot(): seq<BallState>
      reads this, balls
    {
      States(balls)
    }

    constructor (tableWidth: real, tableHeight: real, ballRadius: real)
      ensures Valid() && balls == []
      ensures this.tableWidth == tableWidth && this.tableHeight == tableHeight && this.ballRadius == ballRadius
    {
      this.tableWidth := tableWidth;
      this.tableHeight := tableHeight;
      this.ballRadius := ballRadius;
      balls := [];
    }

    /** Builds a ball from the draws, with id `Count + 1`, and appends it; earlier balls are untouched. */
    method CreateBall(draws: Draws) returns (ball: Ball)
      requires Valid() && draws.InRange()
      modifies this
      ensures Valid() && fresh(ball)
      ensures balls == old(balls) + [ball]
      ensures ball.State() == Spawned(|old(balls)|, tableWidth, tableHeight, ballRadius, draws)
      ensures Snapshot() == old(Snapshot()) + [ball.State()]
    {
      var positionX := SpawnCoordinate(ballRadius, tableWidth, draws.x);
      var positionY := SpawnCoordinate(ballRadius, tableHeight, draws.y);
      var velocityX := SpawnVelocity(draws.velocityX);
      var velocityY := SpawnVelocity(draws.velocityY);
      ball := new Ball(|balls| + 1, positionX, positionY, Vector2(velocityX, velocityY), ballRadius);
      balls := balls + [ball];
      assert Snapshot() == old(Snapshot()) + [ball.State()] by {
        forall k | 0 <= k < |old(balls)|
          ensures Snapshot()[k] == old(Snapshot())[k]
        {
          assert balls[k] == old(balls)[k];
        }
      }
    }

    /** Removes the first ball with `id`; reports whether there was one. */
    method RemoveBall(id: int) returns (removed: bool)
      requires Valid()
      modifies this
      ensures Valid()
      ensures removed <==> exists k :: 0 <= k < |old(Snapshot())| && old(Snapshot())[k].id == id
      ensures Snapshot() == RemoveFirst(old(Snapshot()), id)
      ensures match FindFirst(old(Snapshot()), id)
              case None => balls == old(balls)
              case Some(i) => balls == old(balls[..i] + balls[i + 1..])
    {
      var found := FindFirst(Snapshot(), id);
      match found
      case None =>
        removed := false;
      case Some(i) =>
        DistinctWithout(balls, i);
        ghost var before := Snapshot();
        balls := balls[..i] + balls[i + 1..];
        assert Snapshot() == before[..i] + before[i + 1..];
        removed := true;
    }

    /** One tick of the table: every ball moves and bounces; nothing else changes. */
    method UpdateBalls(deltaTime: real)
      requires Valid()
      modifies balls
      ensures Valid()
      ensures Snapshot() == TickAll(BallManagerWalls, old(Snapshot()), deltaTime, tableWidth, tableHeight, ballRadius)
    {
      var i := 0;
      while i < |balls|
        invariant 0 <= i <= |balls|
        invariant forall k :: 0 <= k < i ==>
          balls[k].State() == Tick(BallManagerWalls, old(balls[k].State()), deltaTime, tableWidth, tableHeight, ballRadius)
        invariant forall k :: i <= k < |balls| ==> balls[k].State() == old(balls[k].State())
      {
        var ball := balls[i];
        ghost var start := ball.State();
        assert forall k :: 0 <= k < |balls| && k != i ==> balls[k] != ball;
        ball.Move(deltaTime);
        // The wall checks work on the moved fields; they are written back once at the end.
        var x, y, velocity := ball.positionX, ball.positionY, ball.velocity;
        // Left / right wall
        if x < ballRadius {
          x := ballRadius;
          velocity := velocity.(x := -velocity.x);
        } else if x > tableWidth - ballRadius {
          x := tableWidth - ballRadius;
          velocity := velocity.(x := -velocity.x);
        }
        // Top / bottom wall
        if y < ballRadius {
          y := ballRadius;
          velocity := velocity.(y := -velocity.y);
        } else if y > tableHeight - ballRadius {
          y := tableHeight - ballRadius;
          velocity := velocity.(y := -velocity.y);
        }
        ball.positionX, ball.positionY, ball.velocity := x, y, velocity;
        assert ball.State() == Tick(BallManagerWalls, start, deltaTime, tableWidth, tableHeight, ballRadius);
        i := i + 1;
      }
    }

    /** The managed balls, in order; the ball objects are shared, the list is a value. */
    method GetBalls() returns (bs: seq<Ball>)
      ensures bs == balls
    {
      bs := balls;
    }
  }

  /** The earlier manager variant: same creation, weaker right and bottom wall tests, no removal. */
  class BallService {
    const tableWidth: real
    const tableHeight: real
    const ballRadius: real
    var balls: seq<Ball>

    ghost predicate Valid()
      reads this
    {
      Distinct(balls)
    }

    function Snapshot(): seq<BallState>
      reads this, balls
    {
      States(balls)
    }

    constructor (tableWidth: real, tableHeight: real, ballRadius: real)
      ensures Valid() && balls == []
      ensures this.tableWidth == tableWidth && this.tableHeight == tableHeight && this.ballRadius == ballRadius
    {
      this.tableWidth := tableWidth;
      this.tableHeight := tableHeight;
      this.ballRadius := ballRadius;
      balls := [];
    }

    method CreateBall(draws: Draws) returns (ball: Ball)
      requires Valid() && draws.InRange()
      modifies this
      ensures Valid() && fresh(ball)
      ensures balls == old(balls) + [ball]
      ensures ball.State() == Spawned(|old(balls)|, tableWidth, tableHeight, ballRadius, draws)
      ensures Snapshot() == old(Snapshot()) + [ball.State()]
    {
      var positionX := SpawnCoordinate(ballRadius, tableWidth, draws.x);
      var positionY := SpawnCoordinate(ballRadius, tableHeight, draws.y);
      var velocityX := SpawnVelocity(draws.velocityX);
      var velocityY := SpawnVelocity(draws.velocityY);
      ball := new Ball(|balls| + 1, positionX, positionY, Vector2(velocityX, velocityY), ballRadius);
      balls := balls + [ball];
      assert Snapshot() == old(Snapshot()) + [ball.State()] by {
        forall k | 0 <= k < |old(balls)|
          ensures Snapshot()[k] == old(Snapshot())[k]
        {
          assert balls[k] == old(balls)[k];
        }
      }
    }

    method UpdateBalls(deltaTime: real)
      requires Valid()
      modifies balls
      ensures Valid()
      ensures Snapshot() == TickAll(BallServiceWalls, old(Snapshot()), deltaTime, tableWidth, tableHeight, ballRadius)
    {
      var i := 0;
      while i < |balls|
        invariant 0 <= i <= |balls|
        invariant forall k :: 0 <= k < i ==>
          balls[k].State() == Tick(BallServiceWalls, old(balls[k].State()), deltaTime, tableWidth, tableHeight, ballRadius)
        invariant forall k :: i <= k < |balls| ==> balls[k].State() == old(balls[k].State())
      {
        var ball := balls[i];
        ghost var start := ball.State();
        assert forall k :: 0 <= k < |balls| && k != i ==> balls[k] != ball;
        ball.Move(deltaTime);
        // The wall checks work on the moved fields; they are written back once at the end.
        var x, y, velocity := ball.positionX, ball.positionY, ball.velocity;
        if x < ballRadius {
          x := ballRadius;
          velocity := Vector2(-velocity.x, velocity.y);
        } else if x > ballRadius + tableWidth {
          x := tableWidth - ballRadius;
          velocity := Vector2(-velocity.x, velocity.y);
        }
        if y < ballRadius {
          y := ballRadius;
          velocity := Vector2(velocity.x, -velocity.y);
        } else if y > ballRadius + tableHeight {
          y := tableHeight - ballRadius;
          velocity := Vector2(velocity.x, -velocity.y);
        }
        ball.positionX, ball.positionY, ball.velocity := x, y, velocity;
        assert ball.State() == Tick(BallServiceWalls, start, deltaTime, tableWidth, tableHeight, ballRadius);
        i := i + 1;
      }
    }

    /** The service's balls, in order; the ball objects are shared, the list is a value. */
    method GetBalls() returns (bs: seq<Ball>)
      ensures bs == balls
    {
      bs := balls;
    }
  }
}
