/** A paddle: a rectangle that moves vertically and is clamped to the screen. */
module Paddles {
  import opened Geometry

  /** The value of a paddle: its top-left corner, its size and its speed. */
  datatype PaddleState = PaddleState(x: int, y: int, width: int, height: int, speed: int)
  {
    /** The paddle lies entirely on a screen of the given height. */
    predicate InBounds(screenHeight: int) {
      0 <= y <= screenHeight - height
    }

    /** move_up: up by `speed`, clamped at the top edge; nothing but y changes. */
    function MovedUp(): (r: PaddleState)
      ensures r.y >= 0
      ensures y - speed >= 0 ==> r.y == y - speed
      ensures y - speed < 0 ==> r.y == 0
      ensures r == this.(y := r.y)
    {
      var moved := y - speed;
      if moved < 0 then this.(y := 0) else this.(y := moved)
    }

    /** move_down: down by `speed`, clamped at the bottom edge; nothing but y changes. */
    function MovedDown(screenHeight: int): (r: PaddleState)
      ensures r.y + height <= screenHeight
      ensures y + speed + height <= screenHeight ==> r.y == y + speed
      ensures y + speed + height > screenHeight ==> r.y == screenHeight - height
      ensures r == this.(y := r.y)
    {
      var moved := y + speed;
      if moved + height > screenHeight then this.(y := screenHeight - height) else this.(y := moved)
    }

    /** get_rect: the rectangle the paddle occupies. */
    function GetRect(): (r: Rect)
      ensures r.x == x && r.y == y && r.w == width && r.h == height
    {
      Rect(x, y, width, height)
    }
  }

  /** Both moves keep a paddle that fits on the screen on the screen. */
  lemma MovesPreserveBounds(p: PaddleState, screenHeight: int)
    requires p.speed >= 0 && p.height <= screenHeight
    requires p.InBounds(screenHeight)
    ensures p.MovedUp().InBounds(screenHeight)
    ensures p.MovedDown(screenHeight).InBounds(screenHeight)
  {
  }

  /** At the clamp the moves do not drift: repeating them changes nothing. */
  lemma MovesIdempotentAtClamp(p: PaddleState, screenHeight: int)
    requires p.speed >= 0
    ensures p.y == 0 ==> p.MovedUp() == p
    ensures p.y == screenHeight - p.height ==> p.MovedDown(screenHeight) == p
    ensures p.MovedUp().MovedUp().y == 0 || p.MovedUp().MovedUp().y == p.y - 2 * p.speed
  {
  }

  /** A paddle object; only its `y` changes after construction. */
  class Paddle {
    var x: int
    var y: int
    var width: int
    var height: int
    var speed: int

    /** The current value of this paddle. */
    function State(): PaddleState
      reads this
    {
      PaddleState(x, y, width, height, speed)
    }

    constructor (x: int, y: int, width: int, height: int, speed: int)
      ensures State() == PaddleState(x, y, width, height, speed)
    {
      this.x := x;
      this.y := y;
      this.width := width;
      this.height := height;
      this.speed := speed;
    }

    method MoveUp()
      modifies this`y
      ensures State() == old(State()).MovedUp()
    {
      y := y - speed;
      if y < 0 {
        y := 0;
      }
    }

    method MoveDown(screenHeight: int)
      modifies this`y
      ensures State() == old(State()).MovedDown(screenHeight)
    {
      y := y + speed;
      if y + height > screenHeight {
        y := screenHeight - height;
      }
    }
  }
}
