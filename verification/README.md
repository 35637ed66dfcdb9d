# Player controller of a Unity 2D platformer, in Dafny

This project models the player controller `PlayerMovement` of a small Unity
2D platformer: walking, jumping, wall jumps with a decaying push away from the
wall, projection of the walking velocity onto two 45° ramps, gravity shaping
with a fall-speed cap, and the facing flip that mirrors the sprite and moves
the wall probe to the leading edge.

With the engine taken out, the controller is a deterministic state machine
over one record (`PlayerState.State`): the rigid body's velocity and gravity
scale, the facing flags, the wall-probe x, the wall-jump timer and direction,
the jump latch, the ground and wall flags and the stored stick input. Each
engine callback becomes a total pure function over that record:

- `PlayerMovement.FixedStep` — the physics callback: push decay or walking,
  ramp projection, latch release, ground and wall classification, gravity.
- `PlayerMovement.Jump` — the jump action: grounded jump, else wall jump,
  and the short-hop cut on release. The jump sound becomes a boolean.
- `PlayerMovement.UpdateFacing` — the facing part of the per-frame callback.
- `PlayerMovement.Move` — the move action.
- `PlayerMovement.Flip`, `SetGravity`, `GroundCheck`, `WallCheck` — the helpers.

Engine queries become inputs: collider contact with the two ramps and tile
occupancy under the ground and wall probes arrive as `PlayerState.Probes`,
the fixed time step is a parameter `dt > 0`, and an input callback is its
phase (`Started`, `Performed`, `Canceled`) plus, for the move action, the x
of the stick. Floats are reals, and 1/sqrt(2) is the literal 0.70710678 the
code uses. `PlayerTrace` strings callbacks into runs and proves an
invariant of every state a run reaches from the initial field values.

The model follows the code literally, including these behaviours:

- On the -45° ramp the tangent is (-0.70710678, 0.70710678), so the ramp
  projection negates the horizontal velocity: walking right produces a
  velocity to the left and up (`RampM45ReversesInput`).
- A grounded jump leaves the wall-jump timer alone. Only the walking branch
  of the physics step resets it.
- The latch release reads the ground flag of the previous step, because the
  ground check runs after it; and the latch is set by every jump callback,
  release included.
- Only the +45° ramp forces the ground flag.
- A push duration of 0 is safe: a wall jump then arms a timer of 0, so the
  push branch, the only place that divides by the duration, is never taken
  (`ZeroDurationWallJumpNeverPushes`).

## Model

| member | source | states |
|---|---|---|
| `PlayerState.Initial` | Assets/Scripts/PlayerMovement.cs:29-57 | the state after `Awake` faces right, keeps the sprite mirror flag the scene gives it, has no push armed, no latch, no contact and a centred stick |
| `PlayerMovement.Flip` | Assets/Scripts/PlayerMovement.cs:191-205 | both facing flags toggle, so their disagreement is kept; the probe moves by `-wallspan` when leaving right-facing and `+wallspan` when leaving left-facing; nothing else changes |
| `PlayerMovement.UpdateFacing` | Assets/Scripts/PlayerMovement.cs:112-119 | afterwards a positive stick means facing right and a negative one facing left; a centred stick or an already matching facing changes nothing; otherwise the result is exactly one flip |
| `PlayerMovement.Move` | Assets/Scripts/PlayerMovement.cs:155-158 | the stored horizontal input becomes the stick's x and nothing else changes |
| `PlayerMovement.SetGravity` | Assets/Scripts/PlayerMovement.cs:122-133 | a falling body gets `baseGravity * fallSpeedMultiplier` and its velocity becomes `max(vy, -maxFallSpeed)`, which lies in `[-maxFallSpeed, 0)` for a positive cap; a non-falling body gets `baseGravity` and keeps its velocity; the vertical velocity never decreases; nothing else changes |
| `PlayerMovement.GroundCheck` | Assets/Scripts/PlayerMovement.cs:135-142 | grounded exactly when a ground tile is under the probe or the +45 ramp is touched; nothing else changes |
| `PlayerMovement.WallCheck` | Assets/Scripts/PlayerMovement.cs:144-153 | on the wall exactly when a tile is under the wall probe; nothing else changes |
| `PlayerMovement.DecayedPush` | Assets/Scripts/PlayerMovement.cs:69 | the push is zero when the timer is zero and `wallJumpDir * wallJumpPush` when the timer is full |
| `PlayerMovement.DecayFactor` | Assets/Scripts/PlayerMovement.cs:69 | the code's decay factor `1 - (duration - timer) / duration` is the share `timer / duration` of the duration left |
| `PlayerMovement.Locomotion` | Assets/Scripts/PlayerMovement.cs:67-96 | with the timer running and the stick centred: the linearly decayed push and the timer reduced by exactly `dt`, vertical velocity untouched; otherwise the timer is zero and the walk speed is used as is off the ramps, times `SQ2_2` on the +45 ramp (which wins when both are touched) and times `-SQ2_2` on the -45 ramp alone, the vertical velocity becoming `SQ2_2` times the walk speed on a ramp only while the latch is clear; only the two velocities and the timer change |
| `PlayerMovement.ReleaseLatch` | Assets/Scripts/PlayerMovement.cs:98-99 | the latch survives exactly when it was set and the previous step ended grounded; nothing else changes |
| `PlayerMovement.FixedStep` | Assets/Scripts/PlayerMovement.cs:63-103 | the ground flag is `groundTile or onRamp45`, the wall flag is `wallTile`, the latch is cleared iff the previous ground flag was false; the horizontal velocity is the push or the projected walk speed; the timer drops by `dt` while pushing, is zero otherwise, and never grows from a non-negative value; gravity is chosen from the velocity handed to it and a fall is clamped; facing, probe, push direction and input are unchanged |
| `PlayerMovement.WallJump` | Assets/Scripts/PlayerMovement.cs:174-180 | the vertical velocity becomes `jumpForce`, the push direction is the opposite of the old facing, the timer is the full duration, and the player is flipped |
| `PlayerMovement.Jump` | Assets/Scripts/PlayerMovement.cs:160-189 | the latch is always set; the sound plays iff the phase is performed and the player is grounded or on a wall; performed and grounded sets only the vertical velocity to `jumpForce`; performed, airborne and on a wall is a wall jump; a release halves a positive vertical velocity and leaves any other alone; every other case changes only the latch |
| `PlayerProperties.DefaultsMeetAssumptions` | Assets/Scripts/PlayerMovement.cs:8-28 | the inspector defaults have a positive push duration, fall cap, jump force and speed, and distinct gravity values, so the lemmas that assume these apply to them |
| `PlayerProperties.FlipInvolution` | Assets/Scripts/PlayerMovement.cs:191-205 | flipping twice restores the state, probe position included |
| `PlayerProperties.FlipKeepsProbeAnchored` | Assets/Scripts/PlayerMovement.cs:191-205 | the probe sits on the leading edge after a flip iff it did before |
| `PlayerProperties.UpdateFacingIdempotent` | Assets/Scripts/PlayerMovement.cs:112-119 | a second frame with the same input never flips again |
| `PlayerProperties.FlipsOncePerSignChange` | Assets/Scripts/PlayerMovement.cs:112-119 | between two frames with non-zero input the player turns iff the input changed sign |
| `PlayerProperties.GravityScaleIff` | Assets/Scripts/PlayerMovement.cs:122-133 | when the two gravity values differ, the strong one is chosen iff the body falls, and the base one iff it does not |
| `PlayerProperties.SetGravityIdempotent` | Assets/Scripts/PlayerMovement.cs:122-133 | with a positive fall cap, shaping gravity twice equals shaping it once |
| `PlayerProperties.PushMagnitude` | Assets/Scripts/PlayerMovement.cs:69 | for a non-negative timer the push's size is the full size times the share of the duration left |
| `PlayerProperties.PushWithinFullStrength` | Assets/Scripts/PlayerMovement.cs:69 | for a timer in `(0, duration]` and a direction in {-1, 0, 1} the push is no larger than `wallJumpPush` |
| `PlayerProperties.PushMonotone` | Assets/Scripts/PlayerMovement.cs:69-70 | a smaller non-negative timer never gives a larger push |
| `PlayerProperties.PushKeepsDirection` | Assets/Scripts/PlayerMovement.cs:69 | over its decay the push keeps the sign of `wallJumpDir * wallJumpPush` |
| `PlayerProperties.ZeroDurationWallJumpNeverPushes` | Assets/Scripts/PlayerMovement.cs:67-81 | with a zero duration a wall jump arms a timer of 0, so the next physics step walks, resets the timer and never reaches the division |
| `PlayerProperties.WallJumpPushesAwayFromWall` | Assets/Scripts/PlayerMovement.cs:172-181 | a wall jump plays the sound, turns the player, arms a push pointing the way the player now faces, and the next physics step with a centred stick applies it at full strength |
| `PlayerProperties.ShortHop` | Assets/Scripts/PlayerMovement.cs:163-187 | press then release on the ground with an upward jump force leaves half the jump force |
| `PlayerProperties.CancelNeverRaises` | Assets/Scripts/PlayerMovement.cs:184-187 | a release never raises the vertical velocity above `max(vy, 0)`, and strictly reduces a positive one while keeping it positive |
| `PlayerProperties.Ramp45Projection` | Assets/Scripts/PlayerMovement.cs:82-96 | walking up the +45 ramp with the latch clear gives the velocity `(SQ2_2, SQ2_2)` times the walk speed after the whole physics step |
| `PlayerProperties.RampM45ReversesInput` | Assets/Scripts/PlayerMovement.cs:85-93 | on the -45 ramp alone the horizontal velocity has the opposite sign of the stick: it is the walk speed times `-SQ2_2` |
| `PlayerProperties.BothRampsUsePlus45` | Assets/Scripts/PlayerMovement.cs:82-88 | touching both ramps gives the same physics step as touching the +45 ramp alone |
| `PlayerTrace.InitialSatisfiesInv` | Assets/Scripts/PlayerMovement.cs:29-57 | for any non-negative push duration and any starting mirror flag, the initial state satisfies the run invariant and can be run |
| `PlayerTrace.Step` | Assets/Scripts/PlayerMovement.cs:63-205 | every callback keeps the push branch away from a zero duration: the duration is non-zero or no push is armed |
| `PlayerTrace.StepPreservesInv` | Assets/Scripts/PlayerMovement.cs:63-205 | for a non-negative duration, each callback keeps the mirror flag equal to its starting value exactly while facing right, the probe on the leading edge, the timer at most the duration and the push direction in {-1, 0, 1} |
| `PlayerTrace.RunPreservesInv` | Assets/Scripts/PlayerMovement.cs:63-205 | any sequence of callbacks keeps the invariant |
| `PlayerTrace.ReachablePushBounded` | Assets/Scripts/PlayerMovement.cs:67-70 | in every state reachable from the initial one: a scene that starts unmirrored keeps the mirror set exactly while facing left, a zero duration never pushes, and a pushing physics step moves the player no faster than `wallJumpPush` |

## Left out

- Animator parameters, the jump sound clip, and the gizmo drawing: presentation side effects with no effect on the state. The sound is kept as the `soundFired` boolean.
- The engine's own integration of gravity and velocity between physics steps, `Awake` and `GetComponent`: the model only states what the controller writes.
- `Physics2D.IsTouching`, `Tilemap.WorldToCell` and `Tilemap.HasTile`: they become the four booleans of `Probes`. The wall probe's local x is tracked, but the cell it maps to is left to the engine.
- IEEE-754 rounding, NaN and infinities: reals stand in for floats, so the exact `== 0` test on the stick is a comparison of reals.
- The camera follow script, the coin trigger, the inventory counter and the coin label: engine wiring around a foreign smoothing routine and a counter, not part of the controller.
- PlayerMovement.FixedStep: requires a non-zero `wallJumpPushDuration` only when the push branch is taken, where the code divides by it; it also requires `dt > 0`, which the engine's fixed time step always is.
- PlayerTrace.RunPreservesInv: takes one `dt` for the whole run, since the engine's fixed time step is a project setting; runs with a changing step are not covered.
