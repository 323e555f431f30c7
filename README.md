# DroneGame physics and collision kernel, in Dafny

This project models the kernel of a small browser game in which a drone with
two engines flies among static obstacles. It covers:

- `Vec2`, the immutable 2D vector of `src/vector.ts` (module `Vector`).
- `BoxColliderAABB`, the axis-aligned box collider of `src/physics.ts`
  (module `Physics`). This covers its constructor, which halves the size,
  and its intersection test, point containment and `move`.
- The oriented box collider: only the arguments `src/scene.ts` builds it
  from are modelled (`Physics.BoxColliderOBB`). Its intersection test is a
  parameter of the scene.
- The `Transform` component (module `Components`).
- The base `GameObject` of `src/gameObject.ts`, whose `update` and
  `onCollision` do nothing (module `GameObjects`).
- The `Drone` of `src/drone.ts` (module `Drones`). Each frame runs a fixed
  pipeline:
  - the engines' forces and torques are accumulated;
  - both are scaled;
  - the force is applied, and the x-velocity changes sign;
  - the torque is applied, with the angular velocity clamped to [-π, π];
  - the kinematics are integrated;
  - damping multiplies both velocities by 0.99.

  Each stage is a function on a `DroneState` value. The class `Drone`
  holds the same state in fields, and its methods update them in the
  order the source does. Each method's contract ties the new state to
  those functions. The key handlers set and clear two engine flags.
- The `Scene` of `src/scene.ts` (module `Scenes`):
  - a dictionary of objects, kept with the insertion order that `for…in`
    visits;
  - the collision pass, which tests every ordered pair of distinct objects
    and notifies both members of each intersecting pair;
  - one run of the game loop: collisions, then `update` with the elapsed
    milliseconds in seconds, then `render`.

  The calls the loop makes into the objects are recorded as an event
  trace: `Collision(receiver, other)`, `Updated(id, deltaTime)` and
  `Rendered(id)`. Lemmas count the notifications in that trace and order
  its phases.

Modelling choices:

- Numbers are Dafny `real`.
- `Math.sqrt`, `Math.sin` and `Math.cos` are not interpreted. They are
  passed in as a `JsMath.MathLib` value.
- A property that needs the square root to map 0 to 0 and to return
  non-negative values on non-negative inputs says so with
  `JsMath.IsSqrt`.
- `Math.PI` is the constant 3.141592653589793.
- The clock (`Date.now`) is a parameter of `Scenes.Scene.Tick`, read
  once at the start of the frame (`now`) and once at its end
  (`finishedAt`).
- Object names, which the source draws at random, are supplied by the
  caller.

Points where the code's behaviour is easy to misread:

- The collision loops visit ordered pairs, not unordered ones. So with a
  symmetric test each object is notified twice per overlapping partner in
  one pass (`Scenes.TwoNotificationsPerOverlap`).
- The left engine's lever arm is -1 (src/drone.ts:99), so a left-only
  torque is never positive (`Drones.SingleEngineTorque`,
  `Drones.LeftEngineRollsOneWay`).
- `src/components.ts` declares a `scale` field on `Transform`. Every user
  of the component reads and writes `size`, so the model's `Transform` has
  `size`.
- The doc comment of `move` (src/physics.ts:45-48) says it moves the box
  by an offset. The code also halves its half-size (see Findings).

## Model

| member | source | states |
|---|---|---|
| JsMath.Abs | src/physics.ts:23-24 | `Math.abs`: the result is non-negative and is x or -x |
| JsMath.Min | src/drone.ts:114-117 | `Math.min`: the result is at most both arguments and is one of them |
| JsMath.Max | src/drone.ts:114-117 | `Math.max`: the result is at least both arguments and is one of them |
| Vector.AddSubtractRoundTrip | src/vector.ts:13-22 | adding b and then subtracting b gives back a, and the reverse order does too |
| Vector.AddCommutative | src/vector.ts:13-15 | `a.add(b)` equals `b.add(a)` |
| Vector.AddAssociative | src/vector.ts:13-15 | vector addition is associative |
| Vector.ComponentwiseAlgebra | src/vector.ts:13-29 | subtracting is adding the vector scaled by -1; scaling distributes over scalar and vector sums; the zero vector and the scale 1 are identities |
| Vector.DotSymmetric | src/vector.ts:34-36 | the dot product is symmetric |
| Vector.CrossAntisymmetric | src/vector.ts:67-69 | `a.cross(b) == -b.cross(a)`, and a vector crossed with itself is 0 |
| Vector.PerpendicularProperties | src/vector.ts:60-62 | the perpendicular is orthogonal to the vector and has the same squared length; two quarter turns give `v.scale(-1)`; the cross of v with its perpendicular is v·v |
| Vector.NormalizeZero | src/vector.ts:49-55 | normalizing the zero vector gives the zero vector, whatever the square root |
| Vector.MagnitudeNonNegative | src/vector.ts:41-43 | with a non-negative square root, a magnitude is never negative |
| Vector.DistanceSymmetric | src/vector.ts:74-78 | `a.distanceTo(b) == b.distanceTo(a)` for any square root |
| Vector.EqualsIsEquality | src/vector.ts:80-93 | `equals` compares components, so it is value equality, reflexive and symmetric; a clone equals its original |
| Physics.CreateHalvesSize | src/physics.ts:12-15 | the constructor keeps the centre and stores exactly half the size; a non-negative size gives a non-negative half-size |
| Physics.IntersectsSymmetric | src/physics.ts:22-29 | `A.intersects(B) == B.intersects(A)` |
| Physics.SameCenterIntersects | src/physics.ts:22-29 | two boxes with the same centre and non-negative half-sizes intersect |
| Physics.IntersectsIffGapsWithinExtents | src/physics.ts:22-29 | the test holds exactly when, on both axes, the centre gap lies within plus or minus the combined half-extent |
| Physics.TouchingIntersects | src/physics.ts:28 | a centre gap exactly equal to the combined half-width still intersects (the test uses `<=`) |
| Physics.SeparatedOnAxisDisjoint | src/physics.ts:22-29 | a gap larger than the combined half-extent on either axis means no intersection |
| Physics.ContainsOwnCenter | src/physics.ts:36-43 | a box with a non-negative half-size contains its own centre |
| Physics.ContainsPointIffIntersectsPointBox | src/physics.ts:22-43 | `containsPoint(p)` holds exactly when the box intersects the zero-size box at p |
| Physics.MoveHalvesHalfSize | src/physics.ts:50-52 | `move` as written shifts the centre by exactly the offset, but the new half-size is half the old one |
| Physics.MoveShrinksBox | src/physics.ts:12-52 | a box of size (2, 2) at the origin contains (1, 0), and after `move` by the zero vector it no longer does |
| Physics.MoveKeepingSizeTranslates | src/physics.ts:45-52 | the corrected `move` shifts the centre by the offset and keeps the half-size; it maps containment of p to containment of p + offset; it preserves intersection between two boxes moved alike; moving by zero is the identity |
| GameObjects.GameObject.constructor | src/gameObject.ts:28-32 | a new object has the given name and transform |
| GameObjects.GameObject.OnCollision | src/gameObject.ts:34-36 | the base collision handler leaves the transform unchanged |
| GameObjects.GameObject.Update | src/gameObject.ts:38-40 | the base update leaves the transform unchanged for any frame length |
| Drones.NoEnginesOnlyGravity | src/drone.ts:56-74 | with both engines off, the scaled net force is (0·300, -9.8·10) and the scaled net torque is 0 |
| Drones.EngineTorqueSigns | src/drone.ts:97-103 | the left engine's torque is the right engine's negated, namely -(magnitude·5); with a non-negative square root the left torque is ≤ 0 ≤ the right torque |
| Drones.SingleEngineTorque | src/drone.ts:60-103 | left engine alone: the applied torque is ≤ 0; right engine alone: it is ≥ 0 |
| Drones.BothEnginesCancelTorque | src/drone.ts:60-103 | both engines on: the torques cancel exactly, and the net force is gravity plus twice one engine's thrust |
| Drones.AfterForceVelocity | src/drone.ts:120-126 | `applyForce` sets the velocity to (-(v.x + F.x/m·dt), v.y + F.y/m·dt) and the acceleration to F/m, and changes nothing else |
| Drones.AfterTorqueClamps | src/drone.ts:105-118 | after `applyTorque` the angular velocity is in [-π, π], and equals the integrated value whenever that is in range; nothing else changes except the angular acceleration |
| Drones.AfterKinematicsAdvances | src/drone.ts:128-137 | `updateKinematics` moves the position by velocity·dt and the rotation by angularVelocity·dt; it publishes the rotation in degrees (transform.rotation·π = rotation·180); size and velocities are kept |
| Drones.AfterDampingScales | src/drone.ts:139-145 | damping multiplies velocity and angular velocity by 0.99, ignoring dt, and changes nothing else |
| Drones.StepAngularVelocityBounded | src/drone.ts:54-145 | at the end of every `update` the angular velocity lies in [-0.99π, 0.99π] |
| Drones.StepKeepsControlsAndSize | src/drone.ts:54-87 | `update` changes neither engine flag nor the size |
| Drones.RestingDroneFalls | src/drone.ts:31-87 | a new drone with engines off, after one frame of 1 s: velocity (0, -97.02), position moved by (0, -98), no spin, rotation 0 |
| Drones.LeftEngineRollsOneWay | src/drone.ts:54-103 | with only the left engine on and no positive spin, any sequence of frames of non-negative length keeps the angular velocity ≤ 0 and the flags as they were |
| Drones.FirstStepIgnoresInitialRotation | src/drone.ts:16-137 | the rotation given to the constructor does not affect the published rotation after the first frame, because the internal rotation starts at 0 |
| Drones.KeyDownEffects | src/drone.ts:40-43 | `a`/`A` sets only the left flag, `d`/`D` only the right one, and any other key changes nothing |
| Drones.KeyUpEffects | src/drone.ts:45-48 | `a`/`A` clears only the left flag, `d`/`D` only the right one, and any other key changes nothing |
| Drones.KeyReleaseUndoesPress | src/drone.ts:40-48 | the flags are levels: press then release is the same as release alone, and pressing twice is the same as pressing once |
| Drones.Drone.constructor | src/drone.ts:8-38 | a new drone is at rest with its engines off and internal rotation 0; its transform has the given position and rotation and size (140, 48) |
| Drones.Drone.OnCollision | src/drone.ts:50-52 | the drone's collision handler changes none of its state |
| Drones.Drone.OnKeyDown | src/drone.ts:40-43 | the new state is `KeyDown` of the old one |
| Drones.Drone.OnKeyUp | src/drone.ts:45-48 | the new state is `KeyUp` of the old one |
| Drones.Drone.Update | src/drone.ts:54-87 | the new state is `Step` of the old one, and the angular velocity ends in [-0.99π, 0.99π] |
| Drones.Drone.ApplyTorque | src/drone.ts:105-118 | the new state is `AfterTorque` of the old one; the angular velocity is in [-π, π] |
| Drones.Drone.ApplyForce | src/drone.ts:120-126 | the new state is `AfterForce` of the old one; the x-velocity is the negated integrated value |
| Drones.Drone.UpdateKinematics | src/drone.ts:128-137 | the new state is `AfterKinematics` of the old one |
| Drones.Drone.ApplyDamping | src/drone.ts:139-145 | the new state is `AfterDamping` of the old one, whatever dt is |
| Scenes.UpdateEvents | src/scene.ts:58-61 | the update pass makes exactly one call per key: entry n is `update(deltaTime)` on the n-th key |
| Scenes.RenderEvents | src/scene.ts:63-66 | the render pass makes exactly one call per key: entry n is `render()` on the n-th key |
| Scenes.PassEventsAppend | src/scene.ts:35-49 | the outer loop adds one whole inner loop per key |
| Scenes.RowEventsAppend | src/scene.ts:38-48 | the inner loop adds one pair's notifications per key |
| Scenes.RowEventsMembership | src/scene.ts:38-48 | row i notifies a about b exactly when a ≠ b and either a is i and b's pair with i intersects, or b is i and a's pair with i intersects; it makes no other calls |
| Scenes.PassEventsMembership | src/scene.ts:34-50 | the pass notifies a about b exactly when a ≠ b and (a, b) or (b, a) is an intersecting ordered pair it tries; so both members of an intersecting pair are notified |
| Scenes.NoSelfNotification | src/scene.ts:38-42 | no object is ever notified about itself |
| Scenes.NoHitNoNotification | src/scene.ts:44-47 | a pair rejected by the test in both orders produces no notification, and the pass makes only collision calls |
| Scenes.PairEventsCount | src/scene.ts:40-47 | one tried pair notifies a about b once for each order in which it is (a, b) and intersects |
| Scenes.RowEventsCount | src/scene.ts:38-48 | over distinct keys, row i notifies a about b once per way the pair arises in that row |
| Scenes.PassEventsCount | src/scene.ts:34-50 | over distinct keys, the pass notifies a about b once for (a, b) and once for (b, a), each counted when it intersects |
| Scenes.TwoNotificationsPerOverlap | src/scene.ts:34-50 | with a symmetric test, each object is notified exactly twice about each distinct overlapping partner, and never about anything else |
| Scenes.FramePhasesInOrder | src/scene.ts:56-66 | in a frame's trace every notification precedes every update, which precedes every render |
| Scenes.Scene.constructor | src/scene.ts:9-12 | a new scene is empty and its clock starts at the given time |
| Scenes.Scene.Add | src/scene.ts:22-27 | `gameObjects[e.name] = e`: a new name is appended to the iteration order, an existing one is replaced in place, and the scene stays consistent |
| Scenes.Scene.HandleCollisions | src/scene.ts:34-50 | the notifications made are exactly the collision trace of the scene's keys over the current transforms, with colliders built from each position, size and rotation; nothing in the scene changes |
| Scenes.Scene.UpdatePass | src/scene.ts:58-61 | one `Updated` call per key in order; every drone takes exactly one `Step` of the given length; every obstacle keeps its transform |
| Scenes.Scene.RenderPass | src/scene.ts:63-66 | one `Rendered` call per key in order |
| Scenes.Scene.Tick | src/scene.ts:53-68 | the trace grows by the collision pass over the transforms at the start of the frame, then the update pass with (now − lastRenderTime)/1000 seconds, then the render pass; drones step once, obstacles keep their transforms, and `lastRenderTime` becomes the end-of-frame clock |

## Left out

- Floating point: numbers are reals, with no IEEE-754 rounding, NaN, infinities or signed zero.
- `Math.sqrt`, `Math.sin` and `Math.cos` are parameters. No trigonometric identity is used, and nothing about the square root beyond `JsMath.IsSqrt`. So the model does not show that `normalize` gives a unit vector or that `distanceTo` is the magnitude of the difference.
- Vector.NormalizeZero: only the zero case of `normalize` is proved. The unit length of a normalized non-zero vector (src/vector.ts:46) is not. It needs facts about squares of reals that the solver does not establish here.
- `Vec2.toString` is left out: it formats numbers as text.
- `BoxColliderOBB` is imported by src/scene.ts but not defined in src/physics.ts. Its separating-axis intersection test is a parameter of the scene (`Scenes.IntersectsTest`) instead of a definition.
- Scenes.Scene.HandleCollisions: records each `onCollision` call in the returned trace instead of making it. Both handlers leave every field alone: `GameObjects.GameObject.OnCollision` and `Drones.Drone.OnCollision` are proved to. So no state the model holds depends on the calls.
- `Drone.onCollision` raises a browser `alert`. That I/O is not modelled.
- `GameObject.render` and src/sprite.ts: drawing into the page is not part of this model. The render pass only records its calls.
- `requestAnimationFrame`: scheduling the next frame is not modelled. `Scenes.Scene.Tick` is one frame.
- `Date.now` is not called. Both clock readings are parameters of `Scenes.Scene.Tick`, and the starting one is a parameter of the constructor.
- `randomUUID` (src/gameObject.ts:6-21) draws names at random. Names are supplied by the caller.
- `window.addEventListener` (src/drone.ts:36-37) is browser wiring. The handlers are plain methods that take the key.
- `Scene.create` (src/scene.ts:14-28) depends on window sizes and sprites. Only its dictionary insertions are modelled, as `Scenes.Scene.Add`.
- `runGameLoop` (src/scene.ts:30-32) starts the self-scheduling loop. The model replaces that loop with single calls of `Scenes.Scene.Tick`.
- The for…in key order is modelled as insertion order. JavaScript visits integer-like keys first, but the names drawn by `randomUUID` contain `-` and are never integer-like.
- Transforms are values. In the source, `transform` is an object whose `position` and `rotation` the drone overwrites in place. No two objects in the source share one, so no aliasing is modelled.
- Drone fields `position` and `engineOffset` (src/drone.ts:12, 22) are never read, so the model has no counterpart for them.
- src/obstacle.ts, src/index.ts and webpack.config.js are not part of this model. They hold a constructor over sprites, a page demo and build settings.

## Findings

| source | as written | input that shows it | evidently intended | confidence | as-written member | corrected member |
|---|---|---|---|---|---|---|
| src/physics.ts:51 | `move` passes `this.halfSize` as the constructor's `size`, which halves it again | a box built at (0, 0) with size (2, 2) contains (1, 0); `move((0, 0))` gives half-size (0.5, 0.5), which no longer contains (1, 0) | the same box shifted by the offset, with the half-size kept | not executed | Physics.MoveShrinksBox | Physics.MoveKeepingSizeTranslates |
