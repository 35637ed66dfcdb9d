/**
 The data of the platformer's player controller, with the engine taken out.

 Every piece of mutable state the controller keeps between callbacks lives in
 one immutable record, `State`; the inspector-tunable numbers live in `Config`;
 the answers the engine gives to the controller's world queries (collider
 contact, tile occupancy) arrive as `Probes`. Floats are modelled as reals.
 */
module PlayerState {

  /** 1/sqrt(2), written out as the literal the controller uses. */
  const SQ2_2: real := 0.70710678

  datatype Vec2 = Vec2(x: real, y: real) {
    /** Componentwise product with a scalar, as Unity's `Vector2 * float`. */
    function Scale(k: real): (r: Vec2)
      ensures r.x == x * k && r.y == y * k
    {
      Vec2(x * k, y * k)
    }
  }

  /** Unit tangents of the two ramps. The -45 one points up and to the left. */
  const Tangent45: Vec2 := Vec2(SQ2_2, SQ2_2)
  const TangentM45: Vec2 := Vec2(-SQ2_2, SQ2_2)

  /** The inspector fields of the controller. */
  datatype Config = Config(
    playerSpeed: real,
    jumpForce: real,
    baseGravity: real,
    maxFallSpeed: real,
    fallSpeedMultiplier: real,
    wallJumpPush: real,
    wallJumpPushDuration: real,
    wallspan: real)

  /** The field initialisers: the values a freshly added component starts with. */
  const Defaults: Config := Config(10.0, 10.0, 2.0, 18.0, 2.0, 10.0, 0.1, 0.71)

  /**
   The controller's state together with the parts of the engine objects it
   writes: the rigid body's velocity and gravity scale, the sprite's mirror
   flag and the local x of the wall-probe transform.
   */
  datatype State = State(
    vx: real,
    vy: real,
    gravityScale: real,
    facingRight: bool,
    flipX: bool,
    wallProbeX: real,
    wallJumpPushTimer: real,
    wallJumpDir: real,
    jumpPressed: bool,
    isGrounded: bool,
    isOnWall: bool,
    horizontal: real)

  /** Results of the world queries of one fixed step. */
  datatype Probes = Probes(
    onRamp45: bool,     // capsule touches the +45 ramp collider
    onRampM45: bool,    // capsule touches the -45 ramp collider
    groundTile: bool,   // a tile occupies the cell under the ground probe
    wallTile: bool)     // a tile occupies the cell under the wall probe

  /** The phase of an input-system callback. */
  datatype Phase = Started | Performed | Canceled

  /** What a jump callback leaves behind: the new state and whether the jump sound played. */
  datatype JumpOutcome = JumpOutcome(state: State, soundFired: bool)

  /**
   The state right after `Awake`: the controller's own field initialisers, a
   body at rest, and whatever gravity scale, sprite mirror flag and probe
   position the scene gives the body, the sprite and the probe transform.
   */
  function Initial(gravityScale: real, flipX: bool, wallProbeX: real): (s: State)
    ensures s.facingRight && s.flipX == flipX
    ensures s.wallJumpPushTimer == 0.0 && s.wallJumpDir == 0.0
    ensures !s.jumpPressed && !s.isGrounded && !s.isOnWall && s.horizontal == 0.0
  {
    State(0.0, 0.0, gravityScale, true, flipX, wallProbeX, 0.0, 0.0, false, false, false, 0.0)
  }

  /** `Mathf.Max` on reals. */
  function Max(a: real, b: real): (r: real)
    ensures r >= a && r >= b
    ensures r == a || r == b
  {
    if a > b then a else b
  }

  function Abs(a: real): (r: real)
    ensures r >= 0.0
    ensures r == a || r == -a
  {
    if a < 0.0 then -a else a
  }
}
