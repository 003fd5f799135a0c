/** The data layer: the ball entity (Data/Ball.cs) and its value view. */
module Data {

  /** A velocity vector (System.Numerics.Vector2); components are modelled as reals. */
  datatype Vector2 = Vector2(x: real, y: real)

  /** The value of every field of a ball at one moment. */
  datatype BallState = BallState(id: int, positionX: real, positionY: real, velocity: Vector2, ballRadius: real)

  /** Where Move takes a ball: each coordinate advances by its velocity component times the elapsed time. */
  function Moved(s: BallState, deltaTime: real): (r: BallState)
    ensures r.id == s.id && r.velocity == s.velocity && r.ballRadius == s.ballRadius
    ensures r.positionX - s.positionX == s.velocity.x * deltaTime
    ensures r.positionY - s.positionY == s.velocity.y * deltaTime
  {
    s.(positionX := s.positionX + s.velocity.x * deltaTime,
       positionY := s.positionY + s.velocity.y * deltaTime)
  }

  /** Moving for no time leaves the ball where it is. */
  lemma MoveZero(s: BallState)
    ensures Moved(s, 0.0) == s
  {
  }

  /** Two moves add up to one move over the summed time, because Move never touches the velocity. */
  lemma MoveCompose(s: BallState, a: real, b: real)
    ensures Moved(Moved(s, a), b) == Moved(s, a + b)
  {
  }

  /** Moving back for the same time undoes a move. */
  lemma MoveInverse(s: BallState, deltaTime: real)
    ensures Moved(Moved(s, deltaTime), -deltaTime) == s
  {
  }

  /** The worked example: from the origin with velocity (1, 2), a move of 1.5 ends at (1.5, 3). */
  lemma MoveExample(id: int, radius: real)
    ensures var m := Moved(BallState(id, 0.0, 0.0, Vector2(1.0, 2.0), radius), 1.5);
            m.positionX == 1.5 && m.positionY == 3.0
  {
  }

  /** A mutable ball. The managers hand out these objects themselves, so callers may change their fields. */
  class Ball {
    var id: int
    var positionX: real
    var positionY: real
    var velocity: Vector2
    var ballRadius: real

    /** The object initializer `new Ball { Id = ..., ... }`. */
    constructor (id: int, positionX: real, positionY: real, velocity: Vector2, ballRadius: real)
      ensures State() == BallState(id, positionX, positionY, velocity, ballRadius)
    {
      this.id := id;
      this.positionX := positionX;
      this.positionY := positionY;
      this.velocity := velocity;
      this.ballRadius := ballRadius;
    }

    function State(): BallState
      reads this
    {
      BallState(id, positionX, positionY, velocity, ballRadius)
    }

    /** Advances the position by velocity * deltaTime; only the two position fields may change. */
    method Move(deltaTime: real)
      modifies this`positionX, this`positionY
      ensures State() == Moved(old(State()), deltaTime)
      ensures id == old(id) && velocity == old(velocity) && ballRadius == old(ballRadius)
    {
      positionX := positionX + velocity.x * deltaTime;
      positionY := positionY + velocity.y * deltaTime;
    }
  }

  /** No ball object occurs twice in a list. */
  ghost predicate Distinct(bs: seq<Ball>)
  {
    forall i, j :: 0 <= i < j < |bs| ==> bs[i] != bs[j]
  }

  /** The states of a list of balls, in list order. */
  function States(bs: seq<Ball>): (r: seq<BallState>)
    reads bs
    ensures |r| == |bs|
    ensures forall i :: 0 <= i < |bs| ==> r[i] == bs[i].State()
  {
    if bs == [] then [] else [bs[0].State()] + States(bs[1..])
  }

  /** Dropping one element of a list of distinct balls leaves a list of distinct balls. */
  lemma DistinctWithout(bs: seq<Ball>, i: nat)
    requires Distinct(bs) && i < |bs|
    ensures Distinct(bs[..i] + bs[i + 1..])
  {
  }
}
