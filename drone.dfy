/** The drone of src/drone.ts: a rigid body pushed by gravity and two
    engines, integrated once per frame.

    The frame is written twice: as functions on a `DroneState` value, which
    the lemmas below are about, and as the class `Drone`, whose methods
    update its fields in the order the source does and whose contracts tie
    each new state to those functions. */
module Drones {
  import opened JsMath
  import opened Vector
  import opened Components

  const MASS: real := 1.0
  const MOMENT_OF_INERTIA: real := 0.5
  /** Thrust of one engine along the drone's local y-axis. */
  const ENGINE_FORCE: real := 16.0
  const GRAVITY: Vec2 := Vec2(0.0, -9.8)
  const TORQUE_MULTIPLIER: real := 5.0
  /** Net torque is scaled by this before it is applied. */
  const TORQUE_SCALE: real := 0.05
  /** Net force is scaled by these before it is applied. */
  const FORCE_SCALE_X: real := 300.0
  const FORCE_SCALE_Y: real := 10.0
  /** Per-frame decay of linear and angular velocity. */
  const DAMPING: real := 0.99
  const DRONE_SIZE: Vec2 := Vec2(140.0, 48.0)

  /** Everything a frame reads or writes. `rotation` is in radians;
      `transform.rotation` is what the frame publishes, in degrees. */
  datatype DroneState = DroneState(
    velocity: Vec2,
    acceleration: Vec2,
    rotation: real,
    angularVelocity: real,
    angularAcceleration: real,
    leftEngineActive: bool,
    rightEngineActive: bool,
    transform: Transform)

  /** A newly built drone: at rest, engines off, internal rotation 0 whatever
      rotation its transform was given. */
  function InitialState(pos: Vec2, rot: real): DroneState {
    DroneState(ZERO, ZERO, 0.0, 0.0, 0.0, false, false, Transform(pos, rot, DRONE_SIZE))
  }

  // ---------------------------------------------------------------------
  // Forces and torques

  function RotateVector(vector: Vec2, angle: real, math: MathLib): Vec2 {
    var cos := math.cos(angle);
    var sin := math.sin(angle);
    Vec2(vector.x * cos - vector.y * sin, vector.x * sin + vector.y * cos)
  }

  /** The thrust of one engine in world space. Both engines push along the
      same local axis, so the side does not change the result. */
  function CalculateEngineForce(rotation: real, isLeftEngine: bool, math: MathLib): Vec2 {
    RotateVector(Vec2(0.0, ENGINE_FORCE), rotation, math)
  }

  function LeverArm(isLeftEngine: bool): real {
    if isLeftEngine then -1.0 else 1.0
  }

  function CalculateTorque(force: Vec2, isLeftEngine: bool, math: MathLib): real {
    force.Magnitude(math.sqrt) * LeverArm(isLeftEngine) * TORQUE_MULTIPLIER
  }

  /** Gravity plus the thrust of every active engine. */
  function NetForce(s: DroneState, math: MathLib): Vec2 {
    var withLeft := if s.leftEngineActive then GRAVITY.Clone().Add(CalculateEngineForce(s.rotation, true, math))
                    else GRAVITY.Clone();
    if s.rightEngineActive then withLeft.Add(CalculateEngineForce(s.rotation, false, math)) else withLeft
  }

  /** The sum of the torques of the active engines. */
  function NetTorque(s: DroneState, math: MathLib): real {
    var left := if s.leftEngineActive
                then CalculateTorque(CalculateEngineForce(s.rotation, true, math), true, math) else 0.0;
    var right := if s.rightEngineActive
                 then CalculateTorque(CalculateEngineForce(s.rotation, false, math), false, math) else 0.0;
    0.0 + left + right
  }

  /** The force a frame applies: the net force scaled anisotropically. */
  function ControlForce(s: DroneState, math: MathLib): Vec2 {
    var f := NetForce(s, math);
    Vec2(f.x * FORCE_SCALE_X, f.y * FORCE_SCALE_Y)
  }

  /** The torque a frame applies. */
  function ControlTorque(s: DroneState, math: MathLib): real {
    NetTorque(s, math) * TORQUE_SCALE
  }

  // ---------------------------------------------------------------------
  // The stages of a frame

  /** `applyForce`: a = F/m, v += a*dt, then the x-component of the velocity
      changes sign. */
  function AfterForce(s: DroneState, force: Vec2, deltaTime: real): DroneState {
    var acceleration := force.Scale(1.0 / MASS);
    var velocity := s.velocity.Add(acceleration.Scale(deltaTime));
    s.(acceleration := acceleration, velocity := Vec2(-velocity.x, velocity.y))
  }

  /** The angular velocity limit, `Math.PI`. */
  const MAX_ANGULAR_VELOCITY: real := PI

  /** `applyTorque`: alpha = torque/I, omega += alpha*dt, clamped to
      [-pi, pi]. */
  function AfterTorque(s: DroneState, torque: real, deltaTime: real): DroneState {
    var angularAcceleration := torque / MOMENT_OF_INERTIA;
    var angularVelocity := s.angularVelocity + angularAcceleration * deltaTime;
    s.(angularAcceleration := angularAcceleration,
       angularVelocity := Max(-MAX_ANGULAR_VELOCITY, Min(MAX_ANGULAR_VELOCITY, angularVelocity)))
  }

  /** `updateKinematics`: position and rotation advance by their velocities;
      the transform shows the rotation in degrees. */
  function AfterKinematics(s: DroneState, deltaTime: real): DroneState {
    var rotation := s.rotation + s.angularVelocity * deltaTime;
    var position := s.transform.position.Add(s.velocity.Scale(deltaTime));
    s.(rotation := rotation, transform := s.transform.(position := position, rotation := rotation * (180.0 / PI)))
  }

  /** `applyDamping`: a fixed decay per frame, whatever the frame's length. */
  function AfterDamping(s: DroneState): DroneState {
    s.(velocity := s.velocity.Scale(DAMPING), angularVelocity := s.angularVelocity * DAMPING)
  }

  /** One call of `update(deltaTime)`. */
  function Step(s: DroneState, deltaTime: real, math: MathLib): DroneState {
    var netForce := ControlForce(s, math);
    var netTorque := ControlTorque(s, math);
    AfterDamping(AfterKinematics(AfterTorque(AfterForce(s, netForce, deltaTime), netTorque, deltaTime), deltaTime))
  }

  /** Consecutive frames with the given lengths and no key events between
      them. */
  function Run(s: DroneState, deltaTimes: seq<real>, math: MathLib): DroneState
    decreases |deltaTimes|
  {
    if deltaTimes == [] then s
    else Run(Step(s, deltaTimes[0], math), deltaTimes[1..], math)
  }

  // ---------------------------------------------------------------------
  // Keys

  predicate IsLeftEngineKey(key: string) {
    key == "a" || key == "A"
  }

  predicate IsRightEngineKey(key: string) {
    key == "d" || key == "D"
  }

  function KeyDown(s: DroneState, key: string): DroneState {
    var s1 := if IsLeftEngineKey(key) then s.(leftEngineActive := true) else s;
    if IsRightEngineKey(key) then s1.(rightEngineActive := true) else s1
  }

  function KeyUp(s: DroneState, key: string): DroneState {
    var s1 := if IsLeftEngineKey(key) then s.(leftEngineActive := false) else s;
    if IsRightEngineKey(key) then s1.(rightEngineActive := false) else s1
  }

  // ---------------------------------------------------------------------
  // Properties

  /** With both engines off the only force is gravity, scaled, and there is
      no torque. */
  lemma NoEnginesOnlyGravity(s: DroneState, math: MathLib)
    requires !s.leftEngineActive && !s.rightEngineActive
    ensures ControlForce(s, math) == Vec2(0.0 * 300.0, -9.8 * 10.0)
    ensures ControlTorque(s, math) == 0.0
  {
  }

  /** The left engine's torque is the right engine's, negated; with a
      non-negative square root the left one is never positive. */
  lemma EngineTorqueSigns(force: Vec2, math: MathLib)
    requires IsSqrt(math.sqrt)
    ensures CalculateTorque(force, true, math) == -CalculateTorque(force, false, math)
    ensures CalculateTorque(force, true, math) == -(force.Magnitude(math.sqrt) * TORQUE_MULTIPLIER)
    ensures CalculateTorque(force, true, math) <= 0.0 <= CalculateTorque(force, false, math)
  {
    MagnitudeNonNegative(force, math.sqrt);
  }

  /** One engine alone rolls the drone one way: the left engine gives a torque
      of at most 0, the right engine one of at least 0. */
  lemma SingleEngineTorque(s: DroneState, math: MathLib)
    requires IsSqrt(math.sqrt)
    ensures s.leftEngineActive && !s.rightEngineActive ==> ControlTorque(s, math) <= 0.0
    ensures !s.leftEngineActive && s.rightEngineActive ==> 0.0 <= ControlTorque(s, math)
  {
    EngineTorqueSigns(CalculateEngineForce(s.rotation, true, math), math);
  }

  /** Both engines thrust from the same rotation, so their torques cancel
      exactly and their forces add up to twice one engine's. */
  lemma BothEnginesCancelTorque(s: DroneState, math: MathLib)
    requires s.leftEngineActive && s.rightEngineActive
    ensures ControlTorque(s, math) == 0.0
    ensures NetForce(s, math) == GRAVITY.Add(CalculateEngineForce(s.rotation, true, math).Scale(2.0))
  {
  }

  /** `applyForce` flips the sign of the horizontal velocity every frame. */
  lemma AfterForceVelocity(s: DroneState, force: Vec2, deltaTime: real)
    ensures AfterForce(s, force, deltaTime).velocity ==
              Vec2(-(s.velocity.x + force.x / MASS * deltaTime), s.velocity.y + force.y / MASS * deltaTime)
    ensures AfterForce(s, force, deltaTime).acceleration.Scale(MASS) == force
    ensures AfterForce(s, force, deltaTime).(velocity := s.velocity, acceleration := s.acceleration) == s
  {
  }

  /** After `applyTorque` the angular velocity lies in [-pi, pi]; inside that
      range it is exactly the integrated value. */
  lemma AfterTorqueClamps(s: DroneState, torque: real, deltaTime: real)
    ensures -PI <= AfterTorque(s, torque, deltaTime).angularVelocity <= PI
    ensures var w := s.angularVelocity + torque / MOMENT_OF_INERTIA * deltaTime;
            -PI <= w <= PI ==> AfterTorque(s, torque, deltaTime).angularVelocity == w
    ensures AfterTorque(s, torque, deltaTime).(angularVelocity := s.angularVelocity,
                                               angularAcceleration := s.angularAcceleration) == s
  {
  }

  /** `updateKinematics` moves the position by velocity*dt, turns the rotation
      by angularVelocity*dt and publishes the rotation in degrees. */
  lemma AfterKinematicsAdvances(s: DroneState, deltaTime: real)
    ensures AfterKinematics(s, deltaTime).transform.position.Subtract(s.transform.position) ==
              s.velocity.Scale(deltaTime)
    ensures AfterKinematics(s, deltaTime).rotation - s.rotation == s.angularVelocity * deltaTime
    ensures AfterKinematics(s, deltaTime).transform.rotation * PI ==
              AfterKinematics(s, deltaTime).rotation * 180.0
    ensures AfterKinematics(s, deltaTime).transform.size == s.transform.size
    ensures AfterKinematics(s, deltaTime).velocity == s.velocity
    ensures AfterKinematics(s, deltaTime).angularVelocity == s.angularVelocity
  {
    var a := AfterKinematics(s, deltaTime);
    assert a.transform.position == Vec2(s.transform.position.x + s.velocity.x * deltaTime,
                                        s.transform.position.y + s.velocity.y * deltaTime);
  }

  /** Damping multiplies both velocities by 0.99 and touches nothing else. */
  lemma AfterDampingScales(s: DroneState)
    ensures AfterDamping(s).velocity == s.velocity.Scale(0.99)
    ensures AfterDamping(s).angularVelocity == 0.99 * s.angularVelocity
    ensures AfterDamping(s).(velocity := s.velocity, angularVelocity := s.angularVelocity) == s
  {
  }

  /** At the end of every frame the angular velocity lies in
      [-0.99 pi, 0.99 pi], so inside the clamp. */
  lemma StepAngularVelocityBounded(s: DroneState, deltaTime: real, math: MathLib)
    ensures -0.99 * PI <= Step(s, deltaTime, math).angularVelocity <= 0.99 * PI
  {
    var netTorque := ControlTorque(s, math);
    var t := AfterTorque(AfterForce(s, ControlForce(s, math), deltaTime), netTorque, deltaTime);
    AfterTorqueClamps(AfterForce(s, ControlForce(s, math), deltaTime), netTorque, deltaTime);
    assert -PI <= t.angularVelocity <= PI;
    assert Step(s, deltaTime, math).angularVelocity == t.angularVelocity * 0.99;
  }

  /** A frame never changes the engine flags or the size. */
  lemma StepKeepsControlsAndSize(s: DroneState, deltaTime: real, math: MathLib)
    ensures Step(s, deltaTime, math).leftEngineActive == s.leftEngineActive
    ensures Step(s, deltaTime, math).rightEngineActive == s.rightEngineActive
    ensures Step(s, deltaTime, math).transform.size == s.transform.size
  {
  }

  /** A drone at rest with no engine on, after one frame of length 1: it has
      fallen 98 units and keeps 0.99 of that speed. */
  lemma RestingDroneFalls(pos: Vec2, math: MathLib)
    ensures var s := Step(InitialState(pos, 0.0), 1.0, math);
            && s.velocity == Vec2(0.0, -97.02)
            && s.transform.position == pos.Add(Vec2(0.0, -98.0))
            && s.angularVelocity == 0.0
            && s.rotation == 0.0
            && s.transform.rotation == 0.0
  {
    var s0 := InitialState(pos, 0.0);
    var s1 := s0.(acceleration := Vec2(0.0, -98.0), velocity := Vec2(0.0, -98.0));
    assert AfterForce(s0, ControlForce(s0, math), 1.0) == s1 by {
      NoEnginesOnlyGravity(s0, math);
    }
    var s2 := s1.(angularAcceleration := 0.0);
    assert AfterTorque(s1, ControlTorque(s0, math), 1.0) == s2 by {
      NoEnginesOnlyGravity(s0, math);
    }
    var s3 := s2.(transform := s2.transform.(position := pos.Add(Vec2(0.0, -98.0)), rotation := 0.0));
    assert AfterKinematics(s2, 1.0) == s3;
    assert Step(s0, 1.0, math) == AfterDamping(s3);
  }

  /** With only the left engine on and no counter-clockwise spin to begin
      with, the drone never starts spinning counter-clockwise, over any
      number of frames of non-negative length. */
  lemma {:induction false} LeftEngineRollsOneWay(s: DroneState, deltaTimes: seq<real>, math: MathLib)
    requires IsSqrt(math.sqrt)
    requires s.leftEngineActive && !s.rightEngineActive
    requires s.angularVelocity <= 0.0
    requires forall i :: 0 <= i < |deltaTimes| ==> 0.0 <= deltaTimes[i]
    ensures Run(s, deltaTimes, math).angularVelocity <= 0.0
    ensures Run(s, deltaTimes, math).leftEngineActive && !Run(s, deltaTimes, math).rightEngineActive
    decreases |deltaTimes|
  {
    if deltaTimes != [] {
      var dt := deltaTimes[0];
      SingleEngineTorque(s, math);
      var torque := ControlTorque(s, math);
      assert torque / MOMENT_OF_INERTIA * dt <= 0.0 by {
        assert torque / MOMENT_OF_INERTIA <= 0.0;
      }
      var next := Step(s, dt, math);
      StepKeepsControlsAndSize(s, dt, math);
      assert next.angularVelocity <= 0.0;
      LeftEngineRollsOneWay(next, deltaTimes[1..], math);
    }
  }

  /** The first frame forgets the rotation the transform was built with:
      the published rotation depends only on the spin of that frame. */
  lemma FirstStepIgnoresInitialRotation(pos: Vec2, rot1: real, rot2: real, deltaTime: real, math: MathLib)
    ensures Step(InitialState(pos, rot1), deltaTime, math).transform.rotation ==
            Step(InitialState(pos, rot2), deltaTime, math).transform.rotation
  {
  }

  /** Pressing `a`/`A` sets only the left flag, `d`/`D` only the right one,
      and any other key changes nothing. */
  lemma KeyDownEffects(s: DroneState, key: string)
    ensures IsLeftEngineKey(key) ==> KeyDown(s, key) == s.(leftEngineActive := true)
    ensures IsRightEngineKey(key) ==> KeyDown(s, key) == s.(rightEngineActive := true)
    ensures !IsLeftEngineKey(key) && !IsRightEngineKey(key) ==> KeyDown(s, key) == s
  {
  }

  /** Releasing `a`/`A` clears only the left flag, `d`/`D` only the right
      one, and any other key changes nothing. */
  lemma KeyUpEffects(s: DroneState, key: string)
    ensures IsLeftEngineKey(key) ==> KeyUp(s, key) == s.(leftEngineActive := false)
    ensures IsRightEngineKey(key) ==> KeyUp(s, key) == s.(rightEngineActive := false)
    ensures !IsLeftEngineKey(key) && !IsRightEngineKey(key) ==> KeyUp(s, key) == s
  {
  }

  /** The flags are levels, not counters: a release undoes any number of
      presses of the same key, and pressing twice is pressing once. */
  lemma KeyReleaseUndoesPress(s: DroneState, key: string)
    ensures KeyUp(KeyDown(s, key), key) == KeyUp(s, key)
    ensures KeyDown(KeyDown(s, key), key) == KeyDown(s, key)
    ensures KeyDown(KeyUp(s, key), key) == KeyDown(s, key)
  {
  }

  /** The drone as the source holds it: one field per piece of state, updated
      in place by each stage of the frame. */
  class Drone {
    /** The key the scene files the drone under. */
    const name: string
    var velocity: Vec2
    var acceleration: Vec2
    var rotation: real
    var angularVelocity: real
    var angularAcceleration: real
    var leftEngineActive: bool
    var rightEngineActive: bool
    var transform: Transform

    function State(): DroneState
      reads this
    {
      DroneState(velocity, acceleration, rotation, angularVelocity, angularAcceleration,
                 leftEngineActive, rightEngineActive, transform)
    }

    constructor (name: string, pos: Vec2, rot: real)
      ensures this.name == name
      ensures State() == InitialState(pos, rot)
    {
      this.name := name;
      velocity, acceleration := ZERO, ZERO;
      rotation, angularVelocity, angularAcceleration := 0.0, 0.0, 0.0;
      leftEngineActive, rightEngineActive := false, false;
      transform := Transform(pos, rot, DRONE_SIZE);
    }

    /** The drone's collision handler raises a browser alert, which is not
        part of this model; the drone's own state is left alone. */
    method OnCollision(objectCollidedWith: object)
      ensures State() == old(State())
    {
    }

    method OnKeyDown(key: string)
      modifies this
      ensures State() == KeyDown(old(State()), key)
    {
      if key == "a" || key == "A" {
        leftEngineActive := true;
      }
      if key == "d" || key == "D" {
        rightEngineActive := true;
      }
    }

    method OnKeyUp(key: string)
      modifies this
      ensures State() == KeyUp(old(State()), key)
    {
      if key == "a" || key == "A" {
        leftEngineActive := false;
      }
      if key == "d" || key == "D" {
        rightEngineActive := false;
      }
    }

    /** One frame: accumulate force and torque, scale them, then apply force,
        torque, kinematics and damping in that order. The closing call of the
        base class's `update` does nothing. */
    method Update(deltaTime: real, math: MathLib)
      modifies this
      ensures State() == Step(old(State()), deltaTime, math)
      ensures -0.99 * PI <= angularVelocity <= 0.99 * PI
    {
      ghost var s := State();
      var netForce := GRAVITY.Clone();
      var netTorque := 0.0;
      if leftEngineActive {
        var leftEngineForce := CalculateEngineForce(rotation, true, math);
        netForce := netForce.Add(leftEngineForce);
        netTorque := netTorque + CalculateTorque(leftEngineForce, true, math);
      }
      if rightEngineActive {
        var rightEngineForce := CalculateEngineForce(rotation, false, math);
        netForce := netForce.Add(rightEngineForce);
        netTorque := netTorque + CalculateTorque(rightEngineForce, false, math);
      }
      assert netForce == NetForce(s, math) && netTorque == NetTorque(s, math);
      netTorque := netTorque * TORQUE_SCALE;
      netForce := Vec2(netForce.x * FORCE_SCALE_X, netForce.y * FORCE_SCALE_Y);

      assert netForce == ControlForce(s, math) && netTorque == ControlTorque(s, math);

      ApplyForce(netForce, deltaTime);
      ghost var s1 := State();
      ApplyTorque(netTorque, deltaTime);
      ghost var s2 := State();
      assert s2 == AfterTorque(AfterForce(s, ControlForce(s, math), deltaTime), ControlTorque(s, math), deltaTime);
      UpdateKinematics(deltaTime);
      ApplyDamping(deltaTime);
      StepAngularVelocityBounded(s, deltaTime, math);
    }

    method ApplyTorque(torque: real, deltaTime: real)
      modifies this
      ensures State() == AfterTorque(old(State()), torque, deltaTime)
      ensures -PI <= angularVelocity <= PI
    {
      var maxAngularVelocity := PI;
      angularAcceleration := torque / MOMENT_OF_INERTIA;
      angularVelocity := angularVelocity + angularAcceleration * deltaTime;
      angularVelocity := Max(-maxAngularVelocity, Min(maxAngularVelocity, angularVelocity));
    }

    method ApplyForce(force: Vec2, deltaTime: real)
      modifies this
      ensures State() == AfterForce(old(State()), force, deltaTime)
      ensures velocity.x == -(old(velocity).x + force.x / MASS * deltaTime)
    {
      acceleration := force.Scale(1.0 / MASS);
      velocity := velocity.Add(acceleration.Scale(deltaTime));
      velocity := Vec2(-velocity.x, velocity.y);
    }

    method UpdateKinematics(deltaTime: real)
      modifies this
      ensures State() == AfterKinematics(old(State()), deltaTime)
    {
      transform := transform.(position := transform.position.Add(velocity.Scale(deltaTime)));
      rotation := rotation + angularVelocity * deltaTime;
      transform := transform.(rotation := rotation * (180.0 / PI));
    }

    /** The frame length is accepted and ignored, as in the source. */
    method ApplyDamping(deltaTime: real)
      modifies this
      ensures State() == AfterDamping(old(State()))
    {
      velocity := velocity.Scale(DAMPING);
      angularVelocity := angularVelocity * DAMPING;
    }
  }
}
