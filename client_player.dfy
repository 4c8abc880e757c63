/**
  The `Player` class of client/src/class/Player.ts: an id, a matter-js body
  and a grounded flag that `jump` reads and clears as a one-shot latch.
  Nothing in this class sets the flag; the collision handler that would is
  outside this model.
 */
module ClientPlayer {
  import opened Physics
  import opened Wire

  /** The horizontal force of `moveLeft` and `moveRight`. */
  const Push: real := 0.05
  /** The upward force of `jump`. */
  const JumpImpulse: real := 0.1

  /** A player: id, body with the options it was created with, grounded flag. */
  datatype State = State(
    id: Id,
    body: Body,
    friction: real,
    restitution: real,
    area: real,
    color: string,
    isGrounded: bool)

  /** What the constructor builds: a body at (x, y) turned to `angle`, not grounded. */
  function Created(id: Id, x: real, y: real, width: real, height: real, friction: real, restitution: real,
                   angle: real, color: string): State
  {
    State(id, NewBody(x, y, angle), friction, restitution, width * height, color, false)
  }

  /**
    `jump`: a grounded player gets (0, -0.1) and loses the flag; an airborne
    one is left exactly as it was.
   */
  function Jumped(s: State): (r: State)
    ensures !r.isGrounded
    ensures !s.isGrounded ==> r == s
    ensures s.isGrounded ==> r.body.forces == s.body.forces + [Vec(0.0, -JumpImpulse)]
    ensures r == s.(isGrounded := false, body := s.body.(forces := r.body.forces))
  {
    if s.isGrounded then s.(body := ApplyForce(s.body, Vec(0.0, -JumpImpulse)), isGrounded := false)
    else s
  }

  /** The latch fires once: a second `jump` with no landing in between does nothing. */
  lemma JumpLatchFiresOnce(s: State)
    ensures Jumped(Jumped(s)) == Jumped(s)
    ensures |Jumped(Jumped(s)).body.forces| <= |s.body.forces| + 1
  {
  }

  class Player {
    const id: Id
    var body: Body
    const friction: real
    const restitution: real
    const area: real
    const color: string
    var isGrounded: bool

    function View(): State
      reads this
    {
      State(id, body, friction, restitution, area, color, isGrounded)
    }

    /** Stores the id; the player starts not grounded. The window size is accepted and unused. */
    constructor(id: Id, x: real, y: real, width: real, height: real, windowWidth: real, windowHeight: real,
                friction: real, restitution: real, angle: real, color: string)
      ensures View() == Created(id, x, y, width, height, friction, restitution, angle, color)
      ensures this.id == id && !isGrounded
    {
      body := NewBody(x, y, angle);
      this.friction := friction;
      this.restitution := restitution;
      area := width * height;
      this.color := color;
      this.id := id;
      isGrounded := false;
    }

    /** Applies (-0.05, 0); the grounded flag is untouched. */
    method MoveLeft()
      modifies this
      ensures body == ApplyForce(old(body), Vec(-Push, 0.0))
      ensures isGrounded == old(isGrounded)
    {
      body := ApplyForce(body, Vec(-Push, 0.0));
    }

    /** Applies (0.05, 0); the grounded flag is untouched. */
    method MoveRight()
      modifies this
      ensures body == ApplyForce(old(body), Vec(Push, 0.0))
      ensures isGrounded == old(isGrounded)
    {
      body := ApplyForce(body, Vec(Push, 0.0));
    }

    method Jump()
      modifies this
      ensures View() == Jumped(old(View()))
    {
      if isGrounded {
        body := ApplyForce(body, Vec(0.0, -JumpImpulse));
        isGrounded := false;
      }
    }

    /** `update` has an empty body: it changes nothing. */
    method Update()
      ensures unchanged(this)
    {
    }
  }
}
