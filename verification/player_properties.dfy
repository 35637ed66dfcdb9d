/**
 Properties of the controller's callbacks that relate several calls, or that
 pin down the arithmetic of the wall-jump push and the ramp projection.
 */
module PlayerProperties {
  import opened PlayerState
  import opened PlayerMovement

  /**
   The wall probe sits on the leading edge: at `anchor` while facing right and
   `wallspan` to the left of it while facing left.
   */
  predicate ProbeAnchored(s: State, anchor: real, wallspan: real) {
    s.wallProbeX == (if s.facingRight then anchor else anchor - wallspan)
  }

  /**
   The inspector defaults meet the assumptions of the gravity, push and jump
   lemmas below: a positive push duration and fall cap, distinct gravity
   values and an upward jump force.
   */
  lemma DefaultsMeetAssumptions()
    ensures Defaults.wallJumpPushDuration > 0.0 && Defaults.maxFallSpeed > 0.0
    ensures Defaults.baseGravity * Defaults.fallSpeedMultiplier != Defaults.baseGravity
    ensures Defaults.jumpForce > 0.0 && Defaults.playerSpeed > 0.0
  {
  }

  // ---------------------------------------------------------------- Flip

  lemma FlipInvolution(s: State, wallspan: real)
    ensures Flip(Flip(s, wallspan), wallspan) == s
  {
  }

  lemma FlipKeepsProbeAnchored(s: State, anchor: real, wallspan: real)
    ensures ProbeAnchored(Flip(s, wallspan), anchor, wallspan) <==> ProbeAnchored(s, anchor, wallspan)
  {
  }

  // ---------------------------------------------------------------- facing

  /** A second frame with the same input never turns the player again. */
  lemma UpdateFacingIdempotent(s: State, wallspan: real)
    ensures UpdateFacing(UpdateFacing(s, wallspan), wallspan) == UpdateFacing(s, wallspan)
  {
  }

  /**
   A stick that keeps its sign turns the player at most once over any two
   frames, and a reversal of the sign turns the player exactly once more.
   */
  lemma FlipsOncePerSignChange(s: State, wallspan: real, x: real)
    requires s.horizontal != 0.0 && x != 0.0
    ensures var a := UpdateFacing(s, wallspan);
            var b := UpdateFacing(Move(a, x), wallspan);
            (b.facingRight == a.facingRight <==> (x > 0.0) == (s.horizontal > 0.0))
  {
  }

  // ---------------------------------------------------------------- gravity

  /** With distinct gravity settings, the strong gravity is chosen exactly for a falling body. */
  lemma GravityScaleIff(cfg: Config, s: State)
    requires cfg.baseGravity * cfg.fallSpeedMultiplier != cfg.baseGravity
    ensures SetGravity(cfg, s).gravityScale == cfg.baseGravity * cfg.fallSpeedMultiplier <==> s.vy < 0.0
    ensures SetGravity(cfg, s).gravityScale == cfg.baseGravity <==> s.vy >= 0.0
  {
  }

  /** A positive fall-speed cap keeps a clamped body falling, so shaping twice changes nothing. */
  lemma SetGravityIdempotent(cfg: Config, s: State)
    requires cfg.maxFallSpeed > 0.0
    ensures SetGravity(cfg, SetGravity(cfg, s)) == SetGravity(cfg, s)
  {
  }

  // ---------------------------------------------------------------- wall-jump push

  /** Multiplying by a non-negative factor preserves order. */
  lemma MulMonotone(c: real, x: real, y: real)
    requires c >= 0.0 && x <= y
    ensures c * x <= c * y
  {
  }

  /** Dividing by a positive number preserves order. */
  lemma DivMonotone(x: real, y: real, d: real)
    requires d > 0.0 && x <= y
    ensures x / d <= y / d
  {
  }

  /** Scaling by a larger non-negative factor never gives a smaller size. */
  lemma AbsMulMonotone(c: real, k1: real, k2: real)
    requires 0.0 <= k1 <= k2
    ensures Abs(c * k1) <= Abs(c * k2)
  {
    if c >= 0.0 {
      MulMonotone(c, 0.0, k1);
      MulMonotone(c, k1, k2);
    } else {
      MulMonotone(-c, 0.0, k1);
      MulMonotone(-c, k1, k2);
    }
  }

  /** The size of the push is the full size scaled by the share of the duration left on the timer. */
  lemma PushMagnitude(cfg: Config, dir: real, timer: real)
    requires cfg.wallJumpPushDuration > 0.0 && timer >= 0.0
    ensures Abs(DecayedPush(cfg, dir, timer)) == Abs(dir * cfg.wallJumpPush) * (timer / cfg.wallJumpPushDuration)
  {
  }

  /** While the timer lies in (0, duration] the push never exceeds `wallJumpPush` in size. */
  lemma PushWithinFullStrength(cfg: Config, dir: real, timer: real)
    requires 0.0 < timer <= cfg.wallJumpPushDuration
    requires dir == -1.0 || dir == 0.0 || dir == 1.0
    ensures Abs(DecayedPush(cfg, dir, timer)) <= Abs(cfg.wallJumpPush)
  {
  }

  /** A smaller timer never gives a stronger push. */
  lemma PushMonotone(cfg: Config, dir: real, t1: real, t2: real)
    requires cfg.wallJumpPushDuration > 0.0
    requires 0.0 <= t1 <= t2
    ensures Abs(DecayedPush(cfg, dir, t1)) <= Abs(DecayedPush(cfg, dir, t2))
  {
    var d := cfg.wallJumpPushDuration;
    DivMonotone(0.0, t1, d);
    DivMonotone(t1, t2, d);
    AbsMulMonotone(dir * cfg.wallJumpPush, t1 / d, t2 / d);
  }

  /** Over its whole decay the push keeps the sign of `wallJumpDir * wallJumpPush`. */
  lemma PushKeepsDirection(cfg: Config, dir: real, timer: real)
    requires cfg.wallJumpPushDuration > 0.0 && timer >= 0.0
    ensures dir * cfg.wallJumpPush > 0.0 ==> DecayedPush(cfg, dir, timer) >= 0.0
    ensures dir * cfg.wallJumpPush < 0.0 ==> DecayedPush(cfg, dir, timer) <= 0.0
  {
  }

  /**
   With a zero push duration a wall jump arms nothing: the timer is set to 0,
   so the next fixed step walks instead of pushing and never divides by the
   duration.
   */
  lemma ZeroDurationWallJumpNeverPushes(cfg: Config, s: State, p: Probes, dt: real)
    requires cfg.wallJumpPushDuration == 0.0 && dt > 0.0
    requires !s.isGrounded && s.isOnWall
    ensures var o := Jump(cfg, s, Performed);
            !Pushing(o.state) &&
            FixedStep(cfg, o.state, p, dt).wallJumpPushTimer == 0.0 &&
            FixedStep(cfg, o.state, p, dt).vx == VxAfterStep(cfg, o.state, p)
  {
  }

  /**
   A wall jump arms a push that points the way the player now faces, and the
   next fixed step with a centred stick applies it at full strength.
   */
  lemma WallJumpPushesAwayFromWall(cfg: Config, s: State, p: Probes, dt: real)
    requires !s.isGrounded && s.isOnWall && s.horizontal == 0.0
    requires cfg.wallJumpPushDuration > 0.0 && dt > 0.0
    ensures var o := Jump(cfg, s, Performed);
            o.soundFired &&
            o.state.facingRight == !s.facingRight &&
            (o.state.wallJumpDir > 0.0 <==> o.state.facingRight) &&
            FixedStep(cfg, o.state, p, dt).vx == o.state.wallJumpDir * cfg.wallJumpPush
  {
  }

  // ---------------------------------------------------------------- jump

  /** Pressing and releasing on the ground gives half the jump impulse when it points upwards. */
  lemma ShortHop(cfg: Config, s: State)
    requires s.isGrounded && cfg.jumpForce > 0.0
    ensures var up := Jump(cfg, s, Performed).state;
            Jump(cfg, up, Canceled).state == s.(jumpPressed := true, vy := cfg.jumpForce / 2.0)
  {
  }

  /** Releasing the button never pushes a body that is not rising. */
  lemma CancelNeverRaises(cfg: Config, s: State)
    ensures Jump(cfg, s, Canceled).state.vy <= Max(s.vy, 0.0)
    ensures s.vy > 0.0 ==> 0.0 < Jump(cfg, s, Canceled).state.vy < s.vy
  {
  }

  // ---------------------------------------------------------------- ramps

  /** On the +45 ramp, walking with the latch clear moves along (SQ2_2, SQ2_2) scaled by the walk speed. */
  lemma Ramp45Projection(cfg: Config, s: State, p: Probes, dt: real)
    requires dt > 0.0
    requires !Pushing(s) && p.onRamp45 && !s.jumpPressed
    requires WalkSpeed(cfg, s) >= 0.0
    ensures var r := FixedStep(cfg, s, p, dt);
            r.vx == Tangent45.x * WalkSpeed(cfg, s) && r.vy == Tangent45.y * WalkSpeed(cfg, s)
  {
  }

  /**
   On the -45 ramp alone, walking turns the horizontal velocity against the
   stick: the tangent (-SQ2_2, SQ2_2) negates it.
   */
  lemma RampM45ReversesInput(cfg: Config, s: State, p: Probes, dt: real)
    requires dt > 0.0
    requires !Pushing(s) && !p.onRamp45 && p.onRampM45
    requires cfg.playerSpeed > 0.0 && s.horizontal != 0.0
    ensures var r := FixedStep(cfg, s, p, dt);
            (r.vx < 0.0 <==> s.horizontal > 0.0) && r.vx == TangentM45.x * WalkSpeed(cfg, s)
  {
  }

  /** Touching both ramps, the +45 tangent wins. */
  lemma BothRampsUsePlus45(cfg: Config, s: State, p: Probes, dt: real)
    requires dt > 0.0
    requires !Pushing(s) && p.onRamp45 && p.onRampM45
    ensures FixedStep(cfg, s, p, dt) == FixedStep(cfg, s, p.(onRampM45 := false), dt)
  {
  }
}
