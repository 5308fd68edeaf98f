/** The vehicle dynamics shared by the two copies of the car controller
    (`CarMovement` and `CarController`): an engine that can be stopped and
    restarted, and a per-tick update that turns the latched drive command into
    forces, lateral damping, a steering angle and a skid signal. */
module Dynamics {
  import opened Geometry

  /** Which of the two near-identical copies a car follows. */
  datatype Variant = Movement | Controller

  /** Coefficient of the brake force along `forward` (`_brakeForceFactor`, `brakeForceFactor`). */
  const BrakeForceFactor: real := -0.6
  /** The 100000 by which both copies scale the configured acceleration. */
  const AccelerationScale: real := 100000.0
  /** Below this squared speed steering does not turn the car. */
  const StationarySqrSpeed: real := 0.1
  /** A lateral speed above this (in absolute value) is a skid. */
  const SkidThreshold: real := 1.0
  /** Front-wheel angle, in degrees, at full steer. */
  const WheelLockDegrees: real := 58.0

  // ---------------------------------------------------------------------------
  // Configuration: where the two copies differ

  /** The acceleration field after `Awake`: `CarController` multiplies it by
      100000 once; `CarMovement` leaves `_acceleration` alone. */
  function AwakeAcceleration(variant: Variant, acceleration: real): real {
    match variant
    case Movement => acceleration
    case Controller => acceleration * AccelerationScale
  }

  /** Coefficient of the propulsive force along `forward` in one tick:
      `CarMovement` multiplies by 100000 on every tick, `CarController` uses
      its already rescaled field. */
  function ThrustCoefficient(variant: Variant, acceleration: real, dt: real, input: real): real {
    match variant
    case Movement => acceleration * dt * input * AccelerationScale
    case Controller => acceleration * dt * input
  }

  /** Once `Awake` has run, both copies push with the same force for the same
      configured acceleration, time step and throttle. */
  lemma VariantsThrustAlike(acceleration: real, dt: real, input: real)
    ensures ThrustCoefficient(Movement, AwakeAcceleration(Movement, acceleration), dt, input)
         == ThrustCoefficient(Controller, AwakeAcceleration(Controller, acceleration), dt, input)
         == acceleration * AccelerationScale * dt * input
  {
  }

  // ---------------------------------------------------------------------------
  // The engine state machine

  /** What `StopEngine` and `StartEngine` read and write. */
  datatype EngineState = EngineState(stopped: bool, velocity: Vec3, lastVelocity: Vec3)

  /** `StopEngine`: save the velocity, freeze the body. */
  function Stop(e: EngineState): (s: EngineState)
    ensures s.stopped && s.velocity == Zero && s.lastVelocity == e.velocity
  {
    EngineState(true, Zero, e.velocity)
  }

  /** `StartEngine`: run again with the saved velocity. */
  function Start(e: EngineState): (s: EngineState)
    ensures !s.stopped && s.velocity == e.lastVelocity && s.lastVelocity == e.lastVelocity
  {
    EngineState(false, e.lastVelocity, e.lastVelocity)
  }

  /** Stopping and then starting restores the velocity held before the stop. */
  lemma StopThenStartRestores(e: EngineState)
    ensures Start(Stop(e)).velocity == e.velocity
    ensures !Start(Stop(e)).stopped
  {
  }

  /** A second stop saves the velocity the first one zeroed: the momentum is lost. */
  lemma StopTwiceForgetsVelocity(e: EngineState)
    ensures Stop(Stop(e)).lastVelocity == Zero
    ensures Stop(Stop(e)).velocity == Zero && Stop(Stop(e)).stopped
  {
  }

  /** Starting a car that was never stopped (saved velocity still at its
      default) sets its velocity to zero, whatever it was moving at. */
  lemma StartWithoutStopZeroes(v: Vec3)
    ensures Start(EngineState(false, v, Zero)).velocity == Zero
  {
  }

  // ---------------------------------------------------------------------------
  // One tick, as functions of the values the tick reads

  /** The forward speed `Vector3.Dot(velocity, transform.forward)`. */
  function ForwardSpeed(v: Vec3, fr: Frame): real {
    Dot(v, fr.forward)
  }

  /** `GetLateralVelocity`: `Vector3.Dot(transform.right, velocity)`. */
  function LateralVelocity(v: Vec3, fr: Frame): real {
    Dot(fr.right, v)
  }

  /** In an orthonormal frame the lateral velocity reads back exactly the
      sideways part of a velocity, whatever its forward and vertical parts. */
  lemma LateralVelocityIsSideways(a: real, b: real, c: real, fr: Frame)
    requires Orthonormal(fr)
    ensures LateralVelocity(Add(Add(Scale(fr.forward, a), Scale(fr.right, b)), Scale(fr.up, c)), fr) == b
  {
    var f, r, u := fr.forward, fr.right, fr.up;
    DotLinear(f, a, r, b, r);
    DotLinear(Add(Scale(f, a), Scale(r, b)), 1.0, u, c, r);
    assert Scale(Add(Scale(f, a), Scale(r, b)), 1.0) == Add(Scale(f, a), Scale(r, b));
    DotCommutes(f, r);
    DotCommutes(r, u);
    DotCommutes(r, Add(Add(Scale(f, a), Scale(r, b)), Scale(u, c)));
  }

  /** The forces `ApplyEngineForce` adds, in order: the propulsive force and
      the brake force; none above the speed cap. */
  function EngineForces(v: Vec3, fr: Frame, maxSpeed: real, thrust: real, brake: real): seq<Vec3> {
    if ForwardSpeed(v, fr) > maxSpeed then []
    else [Scale(fr.forward, thrust), Scale(Scale(fr.forward, brake), BrakeForceFactor)]
  }

  /** Above the speed cap no force is added, whatever the throttle and brake. */
  lemma SpeedCapStopsPropulsion(v: Vec3, fr: Frame, maxSpeed: real, thrust: real, brake: real)
    requires ForwardSpeed(v, fr) > maxSpeed
    ensures EngineForces(v, fr, maxSpeed, thrust, brake) == []
  {
  }

  /** At or below the cap both forces lie along `forward`, the first with the
      thrust coefficient and the second with `-0.6 * brake`. */
  lemma EngineForcesAlongForward(v: Vec3, fr: Frame, maxSpeed: real, thrust: real, brake: real)
    requires Orthonormal(fr)
    requires ForwardSpeed(v, fr) <= maxSpeed
    ensures var fs := EngineForces(v, fr, maxSpeed, thrust, brake);
      && |fs| == 2
      && Cross(fs[0], fr.forward) == Zero && Dot(fs[0], fr.forward) == thrust
      && Cross(fs[1], fr.forward) == Zero && Dot(fs[1], fr.forward) == -0.6 * brake
  {
    var f := fr.forward;
    assert Scale(Scale(f, brake), BrakeForceFactor) == Scale(f, brake * BrakeForceFactor);
    ScaleParallel(f, thrust);
    ScaleParallel(f, brake * BrakeForceFactor);
    DotScale(f, thrust, f);
    DotScale(f, brake * BrakeForceFactor, f);
  }

  /** The brake field's sign interplay: the "not braking" value -1 adds a
      forward push of 0.6, the "braking" value 1 a backward push of 0.6. */
  lemma BrakeSentinelSign(v: Vec3, fr: Frame, maxSpeed: real, thrust: real, brake: real)
    requires Orthonormal(fr)
    requires ForwardSpeed(v, fr) <= maxSpeed
    requires brake == -1.0 || brake == 1.0
    ensures var fs := EngineForces(v, fr, maxSpeed, thrust, brake);
      && |fs| == 2
      && (brake == -1.0 ==> Dot(fs[1], fr.forward) == 0.6)
      && (brake == 1.0 ==> Dot(fs[1], fr.forward) == -0.6)
  {
    EngineForcesAlongForward(v, fr, maxSpeed, thrust, brake);
  }

  /** `DecreaseSideVelocity`: forward part kept, right part scaled by the
      drift factor, everything else dropped. */
  function DampSide(v: Vec3, fr: Frame, driftFactor: real): Vec3 {
    Add(Scale(fr.forward, Dot(v, fr.forward)), Scale(Scale(fr.right, Dot(v, fr.right)), driftFactor))
  }

  /** In the car's own frame, damping keeps the forward component, multiplies
      the lateral one by the drift factor and leaves no vertical component. */
  lemma DampSideComponents(v: Vec3, fr: Frame, driftFactor: real)
    requires Orthonormal(fr)
    ensures var w := DampSide(v, fr, driftFactor);
      && Dot(w, fr.forward) == Dot(v, fr.forward)
      && LateralVelocity(w, fr) == driftFactor * LateralVelocity(v, fr)
      && Dot(w, fr.up) == 0.0
  {
    var f, r, u := fr.forward, fr.right, fr.up;
    var a, b := Dot(v, f), Dot(v, r);
    var w := DampSide(v, fr, driftFactor);
    assert Scale(Scale(r, b), driftFactor) == Scale(r, b * driftFactor);
    assert w == Add(Scale(f, a), Scale(r, b * driftFactor));
    DotLinear(f, a, r, b * driftFactor, f);
    DotLinear(f, a, r, b * driftFactor, r);
    DotLinear(f, a, r, b * driftFactor, u);
    DotCommutes(r, f);
    DotCommutes(r, w);
    DotCommutes(v, r);
  }

  /** With a drift factor in (0, 1), every tick strictly shrinks a nonzero
      sideways slide. */
  lemma DampingShrinksSlide(v: Vec3, fr: Frame, driftFactor: real)
    requires Orthonormal(fr)
    requires 0.0 < driftFactor < 1.0
    requires LateralVelocity(v, fr) != 0.0
    ensures Abs(LateralVelocity(DampSide(v, fr, driftFactor), fr)) < Abs(LateralVelocity(v, fr))
  {
    DampSideComponents(v, fr, driftFactor);
  }

  /** `ApplySteering`'s accumulator: unchanged while nearly stationary,
      otherwise advanced by `steer * turnSpeed * dt`. */
  function SteeredAngle(angle: real, v: Vec3, steer: real, turnSpeed: real, dt: real): real {
    if SqrMagnitude(v) < StationarySqrSpeed then angle + 0.0
    else angle + steer * turnSpeed * dt
  }

  /** With a steer value in [-1, 1] the heading turns by at most
      `|turnSpeed * dt|` per tick, and not at all below the speed threshold. */
  lemma SteeringTurnBounded(angle: real, v: Vec3, steer: real, turnSpeed: real, dt: real)
    requires -1.0 <= steer <= 1.0
    ensures Abs(SteeredAngle(angle, v, steer, turnSpeed, dt) - angle) <= Abs(turnSpeed * dt)
    ensures SqrMagnitude(v) < StationarySqrSpeed ==> SteeredAngle(angle, v, steer, turnSpeed, dt) == angle
  {
    var k := turnSpeed * dt;
    if SqrMagnitude(v) >= StationarySqrSpeed {
      assert SteeredAngle(angle, v, steer, turnSpeed, dt) - angle == steer * k;
      MulNonneg(1.0 - steer, Abs(k));
      MulNonneg(1.0 + steer, Abs(k));
      assert steer * k == steer * Abs(k) || steer * k == -(steer * Abs(k));
    }
  }

  /** `RotateWheels`: the front-wheel angle for a steer value. */
  function WheelAngle(steer: real): (deg: real)
    ensures -1.0 <= steer <= 1.0 ==> -WheelLockDegrees <= deg <= WheelLockDegrees
  {
    WheelLockDegrees * steer
  }

  /** The force `Drift` adds: none without steering or below the skid threshold. */
  function DriftForces(steer: real, v: Vec3, fr: Frame, driftFactor: real, dt: real): seq<Vec3> {
    if steer == 0.0 then []
    else
      var lateral := LateralVelocity(v, fr);
      if Abs(lateral) > SkidThreshold then [Scale(Scale(Scale(Neg(fr.right), lateral), driftFactor), dt)]
      else []
  }

  /** The skid signal after `Drift`: kept as it was without steering,
      otherwise on exactly when the lateral speed exceeds the threshold. */
  function SkidAfter(steer: real, v: Vec3, fr: Frame, skidding: bool): bool {
    if steer == 0.0 then skidding else Abs(LateralVelocity(v, fr)) > SkidThreshold
  }

  /** Skid on and a drift force go together; without steering neither changes. */
  lemma DriftDecision(steer: real, v: Vec3, fr: Frame, driftFactor: real, dt: real, skidding: bool)
    ensures steer == 0.0 ==> DriftForces(steer, v, fr, driftFactor, dt) == [] && SkidAfter(steer, v, fr, skidding) == skidding
    ensures steer != 0.0 ==> (|DriftForces(steer, v, fr, driftFactor, dt)| == 1 <==> SkidAfter(steer, v, fr, skidding))
    ensures |DriftForces(steer, v, fr, driftFactor, dt)| <= 1
  {
  }

  /** When it fires, the drift force lies along `right` and pushes against the
      slide: its lateral component is `-lateral * driftFactor * dt`, of the
      opposite sign to the lateral velocity for a positive factor and step. */
  lemma DriftOpposesSlide(steer: real, v: Vec3, fr: Frame, driftFactor: real, dt: real)
    requires Orthonormal(fr)
    requires steer != 0.0 && Abs(LateralVelocity(v, fr)) > SkidThreshold
    ensures var fs := DriftForces(steer, v, fr, driftFactor, dt);
      && |fs| == 1
      && Cross(fs[0], fr.right) == Zero
      && Dot(fs[0], fr.right) == -LateralVelocity(v, fr) * driftFactor * dt
      && (driftFactor > 0.0 && dt > 0.0 ==> Dot(fs[0], fr.right) * LateralVelocity(v, fr) < 0.0)
  {
    var r := fr.right;
    var lat := LateralVelocity(v, fr);
    var c := -lat * driftFactor * dt;
    var fs := DriftForces(steer, v, fr, driftFactor, dt);
    assert fs == [Scale(Scale(Scale(Neg(r), lat), driftFactor), dt)];
    NegScaleChain(r, lat, driftFactor, dt);
    ScaleParallel(r, c);
    DotScale(r, c, r);
    if driftFactor > 0.0 && dt > 0.0 {
      var k := driftFactor * dt;
      assert k > 0.0;
      assert c * lat == -(lat * lat) * k;
      assert lat * lat > 0.0;
    }
  }

  // ---------------------------------------------------------------------------
  // The rigid body the host engine owns

  /** The part of Unity's `Rigidbody` the car touches: its velocity, the
      rotation last commanded through `MoveRotation` (a yaw, in degrees) and
      a log of the forces added. Integration is not modelled. */
  class RigidBody {
    var velocity: Vec3
    var yaw: real
    ghost var forces: seq<Vec3>

    constructor (velocity: Vec3)
      ensures this.velocity == velocity && yaw == 0.0 && forces == []
    {
      this.velocity := velocity;
      yaw := 0.0;
      forces := [];
    }

    /** `AddForce(f, ForceMode.Force)`: recorded, not integrated. */
    method AddForce(f: Vec3)
      modifies this`forces
      ensures forces == old(forces) + [f]
    {
      forces := forces + [f];
    }

    /** `MoveRotation(Quaternion.Euler(0, y, 0))`. */
    method MoveRotation(y: real)
      modifies this`yaw
      ensures yaw == y
    {
      yaw := y;
    }
  }

  // ---------------------------------------------------------------------------
  // The car

  class Car {
    const variant: Variant
    const body: RigidBody
    const maxSpeed: real
    const turnSpeed: real
    const driftFactor: real
    /** `_acceleration` / `accelerationFactor` (the latter rescaled in `Awake`). */
    var accelerationFactor: real
    /** The latched brake value; serialized (so configurable) in `CarController` only. */
    var brakeForce: real
    var steeringInput: real
    var accelerationInput: real
    var isStopped: bool
    var lastVelocity: Vec3
    var rotationAngle: real
    /** Whether the skid trails are emitting. */
    var skidding: bool
    /** The front wheels' local yaw, in degrees. */
    var wheelAngle: real
    /** Whether Unity has run `Awake`, which it does once, before any tick. */
    ghost var awake: bool

    /** The serialized fields are the parameters, and so are the scene's
        initial trail and wheel state; every private field starts at its C#
        default. */
    constructor (variant: Variant, body: RigidBody, maxSpeed: real, acceleration: real,
                 turnSpeed: real, driftFactor: real, serializedBrakeForce: real,
                 skidding: bool, wheelAngle: real)
      ensures this.variant == variant && this.body == body
      ensures this.maxSpeed == maxSpeed && this.turnSpeed == turnSpeed && this.driftFactor == driftFactor
      ensures accelerationFactor == acceleration
      ensures brakeForce == (if variant == Controller then serializedBrakeForce else 0.0)
      ensures steeringInput == 0.0 && accelerationInput == 0.0
      ensures !isStopped && lastVelocity == Zero && rotationAngle == 0.0
      ensures this.skidding == skidding && this.wheelAngle == wheelAngle
      ensures !awake
    {
      this.variant := variant;
      this.body := body;
      this.maxSpeed := maxSpeed;
      this.turnSpeed := turnSpeed;
      this.driftFactor := driftFactor;
      accelerationFactor := acceleration;
      brakeForce := if variant == Controller then serializedBrakeForce else 0.0;
      steeringInput, accelerationInput := 0.0, 0.0;
      isStopped, lastVelocity, rotationAngle := false, Zero, 0.0;
      this.skidding, this.wheelAngle := skidding, wheelAngle;
      awake := false;
    }

    /** The engine state machine's view of this car. */
    function Engine(): EngineState
      reads this, body
    {
      EngineState(isStopped, body.velocity, lastVelocity)
    }

    /** `Awake`, less the `GetComponent` wiring. */
    method Awake()
      requires !awake
      modifies this`accelerationFactor, this`awake
      ensures awake
      ensures accelerationFactor == AwakeAcceleration(variant, old(accelerationFactor))
    {
      if variant == Controller {
        accelerationFactor := accelerationFactor * AccelerationScale;
      }
      awake := true;
    }

    /** `SetDrive`: latch the command; nothing else changes. */
    method SetDrive(steerValue: real, accelValue: real, brakeForceValue: real)
      modifies this`steeringInput, this`accelerationInput, this`brakeForce
      ensures steeringInput == steerValue && accelerationInput == accelValue && brakeForce == brakeForceValue
    {
      steeringInput := steerValue;
      accelerationInput := accelValue;
      brakeForce := brakeForceValue;
    }

    method StopEngine()
      modifies this`lastVelocity, this`isStopped, body`velocity
      ensures Engine() == Stop(old(Engine()))
    {
      lastVelocity := body.velocity;
      body.velocity := Zero;
      isStopped := true;
    }

    method StartEngine()
      modifies this`isStopped, body`velocity
      ensures Engine() == Start(old(Engine()))
    {
      isStopped := false;
      body.velocity := lastVelocity;
    }

    /** The propulsive coefficient this car uses in a tick of length `dt`. */
    function Thrust(dt: real): real
      reads this
    {
      ThrustCoefficient(variant, accelerationFactor, dt, accelerationInput)
    }

    /** `FixedUpdate`: nothing while stopped; otherwise engine force, side
        damping, steering and drift, in that order, the last two reading the
        damped velocity. */
    method FixedUpdate(fr: Frame, dt: real)
      requires awake
      modifies this`rotationAngle, this`wheelAngle, this`skidding, body
      ensures old(isStopped) ==> unchanged(this, body)
      ensures !old(isStopped) ==>
        var damped := DampSide(old(body.velocity), fr, driftFactor);
        && body.velocity == damped
        && body.forces == old(body.forces)
             + EngineForces(old(body.velocity), fr, maxSpeed, Thrust(dt), brakeForce)
             + DriftForces(steeringInput, damped, fr, driftFactor, dt)
        && rotationAngle == SteeredAngle(old(rotationAngle), damped, steeringInput, turnSpeed, dt)
        && body.yaw == rotationAngle
        && wheelAngle == WheelAngle(steeringInput)
        && skidding == SkidAfter(steeringInput, damped, fr, old(skidding))
    {
      if isStopped {
        return;
      }
      ApplyEngineForce(fr, dt);
      DecreaseSideVelocity(fr);
      ApplySteering(dt);
      Drift(fr, dt);
    }

    method ApplyEngineForce(fr: Frame, dt: real)
      requires awake
      modifies body`forces
      ensures body.forces == old(body.forces) + EngineForces(body.velocity, fr, maxSpeed, Thrust(dt), brakeForce)
    {
      var forwardVelocity := Dot(body.velocity, fr.forward);
      if forwardVelocity > maxSpeed {
        return;
      }
      var force := Scale(fr.forward, Thrust(dt));
      var brakeForceVector := Scale(Scale(fr.forward, brakeForce), BrakeForceFactor);
      body.AddForce(force);
      body.AddForce(brakeForceVector);
    }

    method DecreaseSideVelocity(fr: Frame)
      modifies body`velocity
      ensures body.velocity == DampSide(old(body.velocity), fr, driftFactor)
    {
      var forwardVelocity := Scale(fr.forward, Dot(body.velocity, fr.forward));
      var rightVelocity := Scale(fr.right, Dot(body.velocity, fr.right));
      body.velocity := Add(forwardVelocity, Scale(rightVelocity, driftFactor));
    }

    method ApplySteering(dt: real)
      modifies this`rotationAngle, this`wheelAngle, body`yaw
      ensures rotationAngle == SteeredAngle(old(rotationAngle), body.velocity, steeringInput, turnSpeed, dt)
      ensures body.yaw == rotationAngle && wheelAngle == WheelAngle(steeringInput)
    {
      if SqrMagnitude(body.velocity) < StationarySqrSpeed {
        rotationAngle := rotationAngle + 0.0;
      } else {
        rotationAngle := rotationAngle + steeringInput * turnSpeed * dt;
      }
      body.MoveRotation(rotationAngle);
      wheelAngle := WheelAngle(steeringInput);
    }

    method Drift(fr: Frame, dt: real)
      modifies this`skidding, body`forces
      ensures body.forces == old(body.forces) + DriftForces(steeringInput, body.velocity, fr, driftFactor, dt)
      ensures skidding == SkidAfter(steeringInput, body.velocity, fr, old(skidding))
    {
      if steeringInput == 0.0 {
        return;
      }
      var lateralVelocity := GetLateralVelocity(fr);
      if Abs(lateralVelocity) > SkidThreshold {
        skidding := true;
        var driftForce := Scale(Scale(Scale(Neg(fr.right), lateralVelocity), driftFactor), dt);
        body.AddForce(driftForce);
      } else {
        skidding := false;
      }
    }

    /** The sideways speed never exceeds the car's speed. */
    function GetLateralVelocity(fr: Frame): (lat: real)
      reads this, body
      ensures Dot(fr.right, fr.right) == 1.0 ==> lat * lat <= SqrMagnitude(body.velocity)
    {
      CauchySchwarz(fr.right, body.velocity);
      LateralVelocity(body.velocity, fr)
    }
  }
}
