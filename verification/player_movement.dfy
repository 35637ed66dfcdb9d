/**
 The callbacks of the player controller as pure functions over `State`.

 `FixedStep` is the physics callback, `Jump` and `Move` the input callbacks,
 `UpdateFacing` the facing part of the per-frame callback, and `Flip`,
 `SetGravity`, `GroundCheck` and `WallCheck` the helpers they call. Each is
 built in the order the controller executes its statements.
 */
module PlayerMovement {
  import opened PlayerState

  /**
   Turns the player around: both facing flags toggle and the wall probe moves
   by `wallspan` towards the side the player now faces.
   */
  function Flip(s: State, wallspan: real): (r: State)
    ensures r.facingRight == !s.facingRight
    ensures r.flipX == !s.flipX
    ensures (r.facingRight != r.flipX) == (s.facingRight != s.flipX)
    ensures s.facingRight ==> r.wallProbeX == s.wallProbeX - wallspan
    ensures !s.facingRight ==> r.wallProbeX == s.wallProbeX + wallspan
    ensures r.(facingRight := s.facingRight, flipX := s.flipX, wallProbeX := s.wallProbeX) == s
  {
    var x := if s.facingRight then s.wallProbeX - wallspan else s.wallProbeX + wallspan;
    s.(facingRight := !s.facingRight, flipX := !s.flipX, wallProbeX := x)
  }

  /** True when the player already faces the way the stored input points. */
  predicate FacesInput(s: State) {
    (s.horizontal > 0.0 ==> s.facingRight) && (s.horizontal < 0.0 ==> !s.facingRight)
  }

  /**
   The facing rule of the per-frame callback: flip when the input points
   against the current facing, otherwise leave the state alone.
   */
  function UpdateFacing(s: State, wallspan: real): (r: State)
    ensures FacesInput(r)
    ensures s.horizontal == 0.0 ==> r == s
    ensures FacesInput(s) ==> r == s
    ensures !FacesInput(s) ==> r == Flip(s, wallspan)
  {
    if s.horizontal > 0.0 && !s.facingRight then
      Flip(s, wallspan)
    else if s.horizontal < 0.0 && s.facingRight then
      Flip(s, wallspan)
    else
      s
  }

  /** The move callback stores the x component of the stick and nothing else. */
  function Move(s: State, x: real): (r: State)
    ensures r.horizontal == x
    ensures r.(horizontal := s.horizontal) == s
  {
    s.(horizontal := x)
  }

  /**
   Gravity shaping: a falling body gets the stronger gravity and its fall
   speed clamped at `maxFallSpeed`; a rising or resting body gets base gravity
   and keeps its velocity.
   */
  function SetGravity(cfg: Config, s: State): (r: State)
    ensures s.vy < 0.0 ==> r.gravityScale == cfg.baseGravity * cfg.fallSpeedMultiplier
    ensures s.vy < 0.0 ==> r.vy == Max(s.vy, -cfg.maxFallSpeed)
    ensures s.vy < 0.0 && cfg.maxFallSpeed > 0.0 ==> -cfg.maxFallSpeed <= r.vy < 0.0
    ensures s.vy >= 0.0 ==> r.gravityScale == cfg.baseGravity && r.vy == s.vy
    ensures r.vy >= s.vy
    ensures r.(vy := s.vy, gravityScale := s.gravityScale) == s
  {
    if s.vy < 0.0 then
      s.(gravityScale := cfg.baseGravity * cfg.fallSpeedMultiplier,
         vy := Max(s.vy, -cfg.maxFallSpeed))
    else
      s.(gravityScale := cfg.baseGravity)
  }

  /** Ground classification: a ground tile under the feet, or contact with the +45 ramp. */
  function GroundCheck(s: State, groundTile: bool, onRamp45: bool): (r: State)
    ensures r.isGrounded <==> groundTile || onRamp45
    ensures onRamp45 ==> r.isGrounded
    ensures r.(isGrounded := s.isGrounded) == s
  {
    var g := groundTile;
    var g' := if onRamp45 then true else g;
    s.(isGrounded := g')
  }

  /** Wall classification: a tile in the cell under the wall probe. */
  function WallCheck(s: State, wallTile: bool): (r: State)
    ensures r.isOnWall == wallTile
    ensures r.(isOnWall := s.isOnWall) == s
  {
    s.(isOnWall := wallTile)
  }

  /** True when the fixed step takes the wall-jump push branch. */
  predicate Pushing(s: State) {
    s.wallJumpPushTimer > 0.0 && s.horizontal == 0.0
  }

  /**
   The wall-jump push as a closed form: full strength `wallJumpPush` in the
   jump direction when the timer is full, falling linearly to zero with it.
   */
  function DecayedPush(cfg: Config, dir: real, timer: real): (v: real)
    requires cfg.wallJumpPushDuration != 0.0
    ensures timer == 0.0 ==> v == 0.0
    ensures timer == cfg.wallJumpPushDuration ==> v == dir * cfg.wallJumpPush
  {
    dir * cfg.wallJumpPush * (timer / cfg.wallJumpPushDuration)
  }

  /** The code's decay factor `1 - (d - t) / d` is the share `t / d` of the duration left. */
  lemma DecayFactor(d: real, t: real)
    requires d != 0.0
    ensures 1.0 - (d - t) / d == t / d
  {
    assert (d - t) / d == d / d - t / d;
  }

  /** The horizontal speed the stick asks for. */
  function WalkSpeed(cfg: Config, s: State): real {
    s.horizontal * cfg.playerSpeed
  }

  /**
   Horizontal resolution of the fixed step: the decaying wall-jump push while
   its timer runs and the stick is centred, otherwise walking speed, projected
   onto a ramp tangent when a ramp collider is touched.
   */
  function Locomotion(cfg: Config, s: State, p: Probes, dt: real): (r: State)
    requires Pushing(s) ==> cfg.wallJumpPushDuration != 0.0
    ensures Pushing(s) ==> r.vx == DecayedPush(cfg, s.wallJumpDir, s.wallJumpPushTimer)
    ensures Pushing(s) ==> r.wallJumpPushTimer == s.wallJumpPushTimer - dt && r.vy == s.vy
    ensures !Pushing(s) ==> r.wallJumpPushTimer == 0.0
    ensures !Pushing(s) && !p.onRamp45 && !p.onRampM45 ==> r.vx == WalkSpeed(cfg, s) && r.vy == s.vy
    ensures !Pushing(s) && p.onRamp45 ==> r.vx == SQ2_2 * WalkSpeed(cfg, s)
    ensures !Pushing(s) && !p.onRamp45 && p.onRampM45 ==> r.vx == -SQ2_2 * WalkSpeed(cfg, s)
    ensures !Pushing(s) && (p.onRamp45 || p.onRampM45) && !s.jumpPressed ==> r.vy == SQ2_2 * WalkSpeed(cfg, s)
    ensures !Pushing(s) && (p.onRamp45 || p.onRampM45) && s.jumpPressed ==> r.vy == s.vy
    ensures r.(vx := s.vx, vy := s.vy, wallJumpPushTimer := s.wallJumpPushTimer) == s
  {
    var d := cfg.wallJumpPushDuration;
    var t := s.wallJumpPushTimer;
    if t > 0.0 && s.horizontal == 0.0 then
      var vx := s.wallJumpDir * cfg.wallJumpPush * (1.0 - (d - t) / d);
      DecayFactor(d, t);
      s.(vx := vx, wallJumpPushTimer := t - dt)
    else
      var walk := s.(vx := s.horizontal * cfg.playerSpeed, wallJumpPushTimer := 0.0);
      if p.onRamp45 || p.onRampM45 then
        var tangent := if p.onRamp45 then Tangent45 else TangentM45;
        var tangVel := tangent.Scale(walk.vx);
        var r := walk.(vx := tangVel.x);
        if !s.jumpPressed then r.(vy := tangVel.y) else r
      else
        walk
  }

  /**
   Clears the jump latch when the player was airborne at the end of the
   previous step. It runs before the ground check, so it reads the old flag.
   */
  function ReleaseLatch(s: State): (r: State)
    ensures r.jumpPressed <==> s.jumpPressed && s.isGrounded
    ensures r.(jumpPressed := s.jumpPressed) == s
  {
    if !s.isGrounded && s.jumpPressed then s.(jumpPressed := false) else s
  }

  /** The vertical velocity the fixed step hands to the gravity stage. */
  function VyBeforeGravity(cfg: Config, s: State, p: Probes): real {
    if !Pushing(s) && (p.onRamp45 || p.onRampM45) && !s.jumpPressed then
      SQ2_2 * WalkSpeed(cfg, s)
    else
      s.vy
  }

  /** The horizontal velocity the fixed step leaves on the body. */
  function VxAfterStep(cfg: Config, s: State, p: Probes): real
    requires Pushing(s) ==> cfg.wallJumpPushDuration != 0.0
  {
    if Pushing(s) then DecayedPush(cfg, s.wallJumpDir, s.wallJumpPushTimer)
    else if p.onRamp45 then SQ2_2 * WalkSpeed(cfg, s)
    else if p.onRampM45 then -SQ2_2 * WalkSpeed(cfg, s)
    else WalkSpeed(cfg, s)
  }

  /**
   The physics callback: horizontal resolution, latch release, ground and
   wall classification, then gravity shaping.
   */
  function FixedStep(cfg: Config, s: State, p: Probes, dt: real): (r: State)
    requires dt > 0.0
    requires Pushing(s) ==> cfg.wallJumpPushDuration != 0.0
    ensures r.isGrounded <==> p.groundTile || p.onRamp45
    ensures r.isOnWall == p.wallTile
    ensures r.jumpPressed <==> s.jumpPressed && s.isGrounded
    ensures r.vx == VxAfterStep(cfg, s, p)
    ensures Pushing(s) ==> r.wallJumpPushTimer == s.wallJumpPushTimer - dt
    ensures !Pushing(s) ==> r.wallJumpPushTimer == 0.0
    ensures s.wallJumpPushTimer >= 0.0 ==> r.wallJumpPushTimer <= s.wallJumpPushTimer
    ensures VyBeforeGravity(cfg, s, p) >= 0.0 ==>
              r.vy == VyBeforeGravity(cfg, s, p) && r.gravityScale == cfg.baseGravity
    ensures VyBeforeGravity(cfg, s, p) < 0.0 ==>
              r.vy == Max(VyBeforeGravity(cfg, s, p), -cfg.maxFallSpeed) &&
              r.gravityScale == cfg.baseGravity * cfg.fallSpeedMultiplier
    ensures r.facingRight == s.facingRight && r.flipX == s.flipX && r.wallProbeX == s.wallProbeX
    ensures r.wallJumpDir == s.wallJumpDir && r.horizontal == s.horizontal
  {
    var moved := Locomotion(cfg, s, p, dt);
    var latched := ReleaseLatch(moved);
    var grounded := GroundCheck(latched, p.groundTile, p.onRamp45);
    var walled := WallCheck(grounded, p.wallTile);
    SetGravity(cfg, walled)
  }

  /** The wall jump proper: jump upwards, arm the push away from the wall, turn around. */
  function WallJump(cfg: Config, s: State): (r: State)
    ensures r.vy == cfg.jumpForce
    ensures r.wallJumpDir == (if s.facingRight then -1.0 else 1.0)
    ensures r.wallJumpPushTimer == cfg.wallJumpPushDuration
    ensures r == Flip(s.(vy := r.vy, wallJumpDir := r.wallJumpDir, wallJumpPushTimer := r.wallJumpPushTimer), cfg.wallspan)
  {
    var armed := s.(vy := cfg.jumpForce,
                    wallJumpDir := if s.facingRight then -1.0 else 1.0,
                    wallJumpPushTimer := cfg.wallJumpPushDuration);
    Flip(armed, cfg.wallspan)
  }

  /**
   The jump callback. It sets the latch on every phase; on `Performed` a
   grounded player jumps, else a player on a wall wall-jumps; on `Canceled`
   an upward velocity is halved.
   */
  function Jump(cfg: Config, s: State, phase: Phase): (o: JumpOutcome)
    ensures o.state.jumpPressed
    ensures o.soundFired <==> phase == Performed && (s.isGrounded || s.isOnWall)
    ensures phase == Performed && s.isGrounded ==>
              o.state == s.(jumpPressed := true, vy := cfg.jumpForce)
    ensures phase == Performed && !s.isGrounded && s.isOnWall ==>
              o.state == WallJump(cfg, s.(jumpPressed := true))
    ensures phase == Performed && !s.isGrounded && !s.isOnWall ==>
              o.state == s.(jumpPressed := true)
    ensures phase == Started ==> o.state == s.(jumpPressed := true)
    ensures phase == Canceled && s.vy > 0.0 ==> o.state == s.(jumpPressed := true, vy := s.vy / 2.0)
    ensures phase == Canceled && s.vy <= 0.0 ==> o.state == s.(jumpPressed := true)
  {
    var latched := s.(jumpPressed := true);
    var jumped :=
      if latched.isGrounded then
        if phase == Performed then JumpOutcome(latched.(vy := cfg.jumpForce), true)
        else JumpOutcome(latched, false)
      else if latched.isOnWall then
        if phase == Performed then JumpOutcome(WallJump(cfg, latched), true)
        else JumpOutcome(latched, false)
      else
        JumpOutcome(latched, false);
    var st := jumped.state;
    if phase == Canceled && st.vy > 0.0 then
      jumped.(state := st.(vy := st.vy / 2.0))
    else
      jumped
  }
}
