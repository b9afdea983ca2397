/** The ball: a square of side 2 * radius moving at a constant speed per axis. */
module Balls {
  import opened Geometry

  /** The value of a ball: centre, radius, speed and velocity. */
  datatype BallState = BallState(x: int, y: int, radius: int, speed: int, velocityX: int, velocityY: int)
  {
    /** Each velocity component is +speed or -speed. */
    predicate SpeedInvariant() {
      (velocityX == speed || velocityX == -speed) && (velocityY == speed || velocityY == -speed)
    }

    /** update: one step along the velocity; the velocity itself is kept. */
    function Advanced(): (r: BallState)
      ensures r.x - x == velocityX && r.y - y == velocityY
      ensures r == this.(x := r.x, y := r.y)
    {
      this.(x := x + velocityX, y := y + velocityY)
    }

    /**
     * check_wall_bounce: a ball touching or past the top edge bounces and is
     * snapped to it; otherwise one touching or past the bottom edge does the
     * same at the bottom edge; otherwise nothing happens.
     */
    function WallBounced(screenHeight: int): (r: BallState)
      ensures y - radius <= 0 ==> r == this.(y := radius, velocityY := -velocityY)
      ensures y - radius > 0 && y + radius >= screenHeight ==>
                r == this.(y := screenHeight - radius, velocityY := -velocityY)
      ensures y - radius > 0 && y + radius < screenHeight ==> r == this
      ensures 2 * radius <= screenHeight ==> 0 <= r.y - radius && r.y + radius <= screenHeight
    {
      if y - radius <= 0 then
        this.(velocityY := -velocityY, y := radius)
      else if y + radius >= screenHeight then
        this.(velocityY := -velocityY, y := screenHeight - radius)
      else
        this
    }

    /** get_rect: the bounding square centred on the ball. */
    function GetRect(): (r: Rect)
      ensures r.w == 2 * radius && r.h == 2 * radius
      ensures r.x + radius == x && r.y + radius == y
    {
      Rect(x - radius, y - radius, radius * 2, radius * 2)
    }

    /**
     * reset: back to the centre of the screen (Python's floor division by 2)
     * with the horizontal direction reversed and the vertical one kept.
     */
    function Recentred(screenWidth: int, screenHeight: int): (r: BallState)
      ensures 0 <= screenWidth - 2 * r.x <= 1 && 0 <= screenHeight - 2 * r.y <= 1
      ensures r.velocityX == -velocityX
      ensures r == this.(x := r.x, y := r.y, velocityX := r.velocityX)
    {
      this.(x := screenWidth / 2, y := screenHeight / 2, velocityX := -velocityX)
    }
  }

  /** Motion, wall bounce and reset only ever negate velocity components. */
  lemma SpeedInvariantPreserved(b: BallState, screenWidth: int, screenHeight: int)
    requires b.SpeedInvariant()
    ensures b.Advanced().SpeedInvariant()
    ensures b.WallBounced(screenHeight).SpeedInvariant()
    ensures b.Recentred(screenWidth, screenHeight).SpeedInvariant()
  {
  }

  /** A ball object, updated in place by itself and by the engine. */
  class Ball {
    var x: int
    var y: int
    var radius: int
    var speed: int
    var velocityX: int
    var velocityY: int

    /** The current value of this ball. */
    function State(): BallState
      reads this
    {
      BallState(x, y, radius, speed, velocityX, velocityY)
    }

    /** A new ball moves at `speed` to the right and downwards. */
    constructor (x: int, y: int, radius: int, speed: int)
      ensures State() == BallState(x, y, radius, speed, speed, speed)
      ensures State().SpeedInvariant()
    {
      this.x := x;
      this.y := y;
      this.radius := radius;
      this.speed := speed;
      velocityX := speed;
      velocityY := speed;
    }

    method Update()
      modifies this`x, this`y
      ensures State() == old(State()).Advanced()
    {
      x := x + velocityX;
      y := y + velocityY;
    }

    method CheckWallBounce(screenHeight: int)
      modifies this`y, this`velocityY
      ensures State() == old(State()).WallBounced(screenHeight)
    {
      if y - radius <= 0 {
        velocityY := velocityY * -1;
        y := radius;
      } else if y + radius >= screenHeight {
        velocityY := velocityY * -1;
        y := screenHeight - radius;
      }
    }

    method Reset(screenWidth: int, screenHeight: int)
      modifies this`x, this`y, this`velocityX
      ensures State() == old(State()).Recentred(screenWidth, screenHeight)
    {
      x := screenWidth / 2;
      y := screenHeight / 2;
      velocityX := -velocityX;
    }
  }
}
