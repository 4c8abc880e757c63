/**
  The few matter-js operations the game calls on a body, as recorded effects.
  A body is a value: its position, velocity and angle, and the forces that
  `Body.applyForce` was asked to apply, in call order. The engine's own
  integration of those forces is not part of this model.
 */
module Physics {

  datatype Vec = Vec(x: real, y: real)

  const Origin := Vec(0.0, 0.0)

  datatype Body = Body(position: Vec, velocity: Vec, angle: real, forces: seq<Vec>)

  /** A body as matter-js creates it: at rest, no force applied yet. */
  function NewBody(x: real, y: real, angle: real): Body
  {
    Body(Vec(x, y), Origin, angle, [])
  }

  /** `Body.applyForce(body, body.position, force)`: the force is recorded, nothing else changes. */
  function ApplyForce(b: Body, force: Vec): Body
  {
    b.(forces := b.forces + [force])
  }

  /** `Body.setPosition`. */
  function SetPosition(b: Body, p: Vec): Body
  {
    b.(position := p)
  }

  /** `Body.setVelocity`. */
  function SetVelocity(b: Body, v: Vec): Body
  {
    b.(velocity := v)
  }

  /** `Body.setAngle`. */
  function SetAngle(b: Body, a: real): Body
  {
    b.(angle := a)
  }
}
