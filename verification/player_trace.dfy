/**
 Runs of the controller: any interleaving of physics steps, frames and input
 callbacks, starting from the state after `Awake`. The invariant `Inv`
 collects what every such run keeps true, and the push bound follows from it.
 */
module PlayerTrace {
  import opened PlayerState
  import opened PlayerMovement
  import opened PlayerProperties

  /** One callback the engine delivers to the controller. */
  datatype Event =
    | Tick(probes: Probes)     // the physics callback, with this step's query results
    | Frame                    // the per-frame callback (facing rule)
    | MoveInput(x: real)       // the move action, with the stick's x
    | JumpInput(phase: Phase)  // the jump action, in one of its phases

  /**
   The push branch never meets a zero duration: either the duration is
   non-zero or no push is armed. Every callback keeps this, whatever the
   duration, because a wall jump arms the timer with the duration itself.
   */
  predicate Runnable(cfg: Config, s: State) {
    cfg.wallJumpPushDuration != 0.0 || s.wallJumpPushTimer <= 0.0
  }

  function Step(cfg: Config, dt: real, s: State, e: Event): (r: State)
    requires dt > 0.0 && Runnable(cfg, s)
    ensures Runnable(cfg, r)
  {
    match e
    case Tick(p) => FixedStep(cfg, s, p, dt)
    case Frame => UpdateFacing(s, cfg.wallspan)
    case MoveInput(x) => Move(s, x)
    case JumpInput(phase) => Jump(cfg, s, phase).state
  }

  /** The state after delivering `evs` in order, with a fixed physics step `dt`. */
  function Run(cfg: Config, dt: real, s: State, evs: seq<Event>): State
    requires dt > 0.0 && Runnable(cfg, s)
    decreases |evs|
  {
    if |evs| == 0 then s else Run(cfg, dt, Step(cfg, dt, s, evs[0]), evs[1..])
  }

  /**
   What every reachable state satisfies, for the probe position `anchor` and
   the sprite mirror flag `flipX0` the scene gives a right-facing player: the
   sprite mirror is `flipX0` exactly while facing right, the wall probe sits
   on the leading edge, the push timer never exceeds its duration and the
   push direction is -1, 0 or +1.
   */
  predicate Inv(cfg: Config, anchor: real, flipX0: bool, s: State) {
    && s.flipX == (if s.facingRight then flipX0 else !flipX0)
    && ProbeAnchored(s, anchor, cfg.wallspan)
    && s.wallJumpPushTimer <= cfg.wallJumpPushDuration
    && (s.wallJumpDir == -1.0 || s.wallJumpDir == 0.0 || s.wallJumpDir == 1.0)
  }

  lemma InitialSatisfiesInv(cfg: Config, gravityScale: real, flipX0: bool, anchor: real)
    requires cfg.wallJumpPushDuration >= 0.0
    ensures Inv(cfg, anchor, flipX0, Initial(gravityScale, flipX0, anchor))
    ensures Runnable(cfg, Initial(gravityScale, flipX0, anchor))
  {
  }

  lemma StepPreservesInv(cfg: Config, dt: real, anchor: real, flipX0: bool, s: State, e: Event)
    requires dt > 0.0 && cfg.wallJumpPushDuration >= 0.0
    requires Inv(cfg, anchor, flipX0, s)
    ensures Runnable(cfg, s)
    ensures Inv(cfg, anchor, flipX0, Step(cfg, dt, s, e))
  {
  }

  lemma {:induction false} RunPreservesInv(cfg: Config, dt: real, anchor: real, flipX0: bool,
                                           s: State, evs: seq<Event>)
    requires dt > 0.0 && cfg.wallJumpPushDuration >= 0.0
    requires Inv(cfg, anchor, flipX0, s)
    ensures Runnable(cfg, s)
    ensures Inv(cfg, anchor, flipX0, Run(cfg, dt, s, evs))
    decreases |evs|
  {
    StepPreservesInv(cfg, dt, anchor, flipX0, s, Frame);
    if |evs| > 0 {
      StepPreservesInv(cfg, dt, anchor, flipX0, s, evs[0]);
      RunPreservesInv(cfg, dt, anchor, flipX0, Step(cfg, dt, s, evs[0]), evs[1..]);
    }
  }

  /**
   In every state a run reaches from `Awake`, a physics step that takes the
   push branch moves the player no faster than `wallJumpPush`; and when the
   scene starts with the sprite unmirrored, the mirror flag is set exactly
   while the player faces left. A zero duration never pushes at all.
   */
  lemma ReachablePushBounded(cfg: Config, dt: real, gravityScale: real, flipX0: bool, anchor: real,
                             evs: seq<Event>, p: Probes)
    requires dt > 0.0 && cfg.wallJumpPushDuration >= 0.0
    ensures Runnable(cfg, Initial(gravityScale, flipX0, anchor))
    ensures var s := Run(cfg, dt, Initial(gravityScale, flipX0, anchor), evs);
            (!flipX0 ==> s.facingRight != s.flipX) &&
            (cfg.wallJumpPushDuration == 0.0 ==> !Pushing(s)) &&
            (Pushing(s) ==> Abs(FixedStep(cfg, s, p, dt).vx) <= Abs(cfg.wallJumpPush))
  {
    InitialSatisfiesInv(cfg, gravityScale, flipX0, anchor);
    RunPreservesInv(cfg, dt, anchor, flipX0, Initial(gravityScale, flipX0, anchor), evs);
    var s := Run(cfg, dt, Initial(gravityScale, flipX0, anchor), evs);
    if Pushing(s) {
      PushWithinFullStrength(cfg, s.wallJumpDir, s.wallJumpPushTimer);
    }
  }
}
