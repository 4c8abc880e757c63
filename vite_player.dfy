/**
  The `Player` class of vite/src/class/Player.ts: a matter-js body plus a
  grounded flag and the movement parameters. The collision test of
  `checkIfGrounded` belongs to matter-js, so its answer is a parameter
  (`collides`) of the operations that ask it.

  `PlayerState` is what the client's mirror table keeps of a player; the
  class's methods are proved against the functions on it below.
 */
module VitePlayer {
  import opened Physics

  const Gravity: real := 0.5
  const Friction: real := 0.9

  /** The constructor's default arguments. */
  const DefaultSpeed: real := 0.008
  const DefaultJumpForce: real := 0.1
  const DefaultAngle: real := 0.0
  const DefaultColor: string := "#eee"

  /**
    A player's fields other than `speed`, which only `moveLeft` and `moveRight`
    read. The class keeps no width or height of its own: `width` and `height`
    stand for the dimensions of the body's rectangle.
   */
  datatype PlayerState = PlayerState(
    body: Body,
    width: real,
    height: real,
    isGrounded: bool,
    jumpForce: real,
    canvasWidth: real,
    canvasHeight: real,
    angle: real,
    color: string)

  /** The state the constructor leaves: a rectangle at (x, y) turned to `angle`, not grounded. */
  function Created(x: real, y: real, width: real, height: real, canvasWidth: real, canvasHeight: real,
                   jumpForce: real, angle: real, color: string): PlayerState
  {
    PlayerState(SetAngle(NewBody(x, y, 0.0), angle), width, height, false, jumpForce, canvasWidth, canvasHeight, angle, color)
  }

  /**
    `jump`: the grounded flag is first set from the collision test; only if
    it is set is the upward force (0, -jumpForce) applied. Either way the flag
    ends cleared, and nothing else changes.
   */
  function Jumped(s: PlayerState, collides: bool): (r: PlayerState)
    ensures !r.isGrounded
    ensures r.body.forces == s.body.forces + (if collides then [Vec(0.0, -s.jumpForce)] else [])
    ensures r == s.(isGrounded := false, body := s.body.(forces := r.body.forces))
  {
    var checked := s.(isGrounded := collides);
    if checked.isGrounded then
      checked.(body := ApplyForce(checked.body, Vec(0.0, -checked.jumpForce)), isGrounded := false)
    else checked
  }

  /** `applyGravity`. */
  function WithGravity(s: PlayerState): PlayerState
  {
    if !s.isGrounded then
      s.(body := SetVelocity(s.body, Vec(s.body.velocity.x, s.body.velocity.y + Gravity)))
    else s
  }

  /** `applyFriction`. */
  function WithFriction(s: PlayerState): PlayerState
  {
    if s.isGrounded then
      s.(body := SetVelocity(s.body, Vec(s.body.velocity.x * Friction, s.body.velocity.y)))
    else s
  }

  /** The horizontal position `handleCanvasWrap` moves a body at `x` to. */
  function Wrap(x: real, canvasWidth: real): real
  {
    if x < 0.0 then canvasWidth + x
    else if x > canvasWidth then x - canvasWidth
    else x
  }

  /** `handleCanvasWrap`. */
  function Wrapped(s: PlayerState): PlayerState
  {
    s.(body := SetPosition(s.body, Vec(Wrap(s.body.position.x, s.canvasWidth), s.body.position.y)))
  }

  /**
    `update`: the grounded flag becomes the collision test's answer; then an
    airborne player gains 0.5 of vertical velocity and a grounded one keeps
    0.9 of its horizontal velocity, never both; then the position wraps
    horizontally. Forces, angle and every other field are unchanged.
   */
  function Updated(s: PlayerState, collides: bool): (r: PlayerState)
    ensures r.isGrounded == collides
    ensures !collides ==> r.body.velocity == Vec(s.body.velocity.x, s.body.velocity.y + Gravity)
    ensures collides ==> r.body.velocity == Vec(s.body.velocity.x * Friction, s.body.velocity.y)
    ensures r.body.position == Vec(Wrap(s.body.position.x, s.canvasWidth), s.body.position.y)
    ensures r.body.forces == s.body.forces && r.body.angle == s.body.angle
    ensures r == s.(isGrounded := collides, body := r.body)
  {
    Wrapped(WithFriction(WithGravity(s.(isGrounded := collides))))
  }

  /**
    The wrap is one shift by the canvas width: a position left of the canvas
    moves right by the width, one right of it moves left by the width, one
    on it stays; the result is on the canvas exactly when the input lies
    within one width of it.
   */
  lemma WrapIsOneShift(x: real, w: real)
    ensures x < 0.0 ==> Wrap(x, w) == x + w
    ensures 0.0 <= x && x > w ==> Wrap(x, w) == x - w
    ensures 0.0 <= x <= w ==> Wrap(x, w) == x
    ensures 0.0 <= Wrap(x, w) <= w <==> -w <= x <= 2.0 * w
  {
  }

  /** The wrap is not a modulo: a body three widths out lands one width past the edge. */
  lemma WrapIsNotModulo(w: real)
    requires w > 0.0
    ensures Wrap(3.0 * w, w) == 2.0 * w > w
  {
  }

  /** A body 5 past the right edge reappears 5 from the left edge, at the same height. */
  lemma WrapPastRightEdge(s: PlayerState, collides: bool)
    requires s.canvasWidth >= 0.0 && s.body.position.x == s.canvasWidth + 5.0
    ensures Updated(s, collides).body.position == Vec(5.0, s.body.position.y)
  {
  }

  class Player {
    var body: Body
    var isGrounded: bool
    /** The dimensions of the body's rectangle; the class itself stores no width or height. */
    const width: real
    const height: real
    const speed: real
    const jumpForce: real
    const canvasWidth: real
    const canvasHeight: real
    const angle: real
    const color: string

    function View(): PlayerState
      reads this
    {
      PlayerState(body, width, height, isGrounded, jumpForce, canvasWidth, canvasHeight, angle, color)
    }

    /** Stores the arguments as given; the player starts not grounded. */
    constructor(x: real, y: real, width: real, height: real, canvasWidth: real, canvasHeight: real,
                speed: real, jumpForce: real, angle: real, color: string)
      ensures View() == Created(x, y, width, height, canvasWidth, canvasHeight, jumpForce, angle, color)
      ensures !isGrounded && this.speed == speed && this.jumpForce == jumpForce
      ensures this.canvasWidth == canvasWidth && this.canvasHeight == canvasHeight
      ensures this.angle == angle && this.color == color && body.angle == angle
    {
      this.color := color;
      var rectangle := NewBody(x, y, 0.0);
      this.width := width;
      this.height := height;
      this.isGrounded := false;
      this.speed := speed;
      this.jumpForce := jumpForce;
      this.canvasWidth := canvasWidth;
      this.canvasHeight := canvasHeight;
      this.angle := angle;
      this.body := SetAngle(rectangle, angle);
    }

    /** Applies (-speed, 0); the grounded flag is untouched. */
    method MoveLeft()
      modifies this
      ensures body == ApplyForce(old(body), Vec(-speed, 0.0))
      ensures isGrounded == old(isGrounded)
    {
      body := ApplyForce(body, Vec(-speed, 0.0));
    }

    /** Applies (speed, 0); the grounded flag is untouched. */
    method MoveRight()
      modifies this
      ensures body == ApplyForce(old(body), Vec(speed, 0.0))
      ensures isGrounded == old(isGrounded)
    {
      body := ApplyForce(body, Vec(speed, 0.0));
    }

    method Jump(collides: bool)
      modifies this
      ensures View() == Jumped(old(View()), collides)
    {
      isGrounded := collides;
      if isGrounded {
        body := ApplyForce(body, Vec(0.0, -jumpForce));
        isGrounded := false;
      }
    }

    method Update(collides: bool)
      modifies this
      ensures View() == Updated(old(View()), collides)
    {
      isGrounded := collides;
      ApplyGravity();
      ApplyFriction();
      HandleCanvasWrap();
    }

    method ApplyGravity()
      modifies this
      ensures View() == WithGravity(old(View()))
    {
      if !isGrounded {
        body := SetVelocity(body, Vec(body.velocity.x, body.velocity.y + Gravity));
      }
    }

    method ApplyFriction()
      modifies this
      ensures View() == WithFriction(old(View()))
    {
      if isGrounded {
        body := SetVelocity(body, Vec(body.velocity.x * Friction, body.velocity.y));
      }
    }

    method HandleCanvasWrap()
      modifies this
      ensures View() == Wrapped(old(View()))
    {
      var newPosition := body.position;
      if body.position.x < 0.0 {
        newPosition := Vec(canvasWidth + body.position.x, body.position.y);
      } else if body.position.x > canvasWidth {
        newPosition := Vec(body.position.x - canvasWidth, body.position.y);
      }
      body := SetPosition(body, newPosition);
    }
  }
}
