# Car autopilot and vehicle dynamics, modelled in Dafny

The Unity car AI has two parts. A waypoint autopilot computes a steer value and a brake flag from the heading error to the current waypoint and walks round a circular route. A vehicle-dynamics component turns the latched drive command into forces, lateral damping, a steering angle and a skid signal once per physics tick. The dynamics component can also stop and restart its engine, saving and restoring the velocity.

The repository holds two near-identical copies: `CarMovement` driven by `CarAutoPilot`, and `CarController` driven by `CarAI`. This project is one model of both. The copies differ only in these places, which the model takes as parameters:

- `Dynamics.Variant` (`Movement` or `Controller`) picks how the acceleration is scaled by 100000:
  - `CarMovement` scales on every tick.
  - `CarController` rescales its `accelerationFactor` once, in `Awake`.
  - `Dynamics.VariantsThrustAlike` proves that both give the same force.
- `CarController`'s `brakeForce` is a serialized field, so its initial value comes from the scene. `CarMovement`'s starts at 0. This is a constructor argument.
- The capture radius defaults to 14 in `CarAutoPilot` and 20 in `CarAI` (`Pilot.CaptureRadius`). `Pilot.AutoPilot`'s unnamed constructor takes the radius as an argument; its `Default` constructor takes the default for the copy of the car it drives.

Files:

- `Geometry.dfy` holds 3-vectors of exact reals, the dot and cross products, and the car's frame (`forward`, `right`, `up`) with its orthonormality predicate.
- `Dynamics.dfy` holds:
  - the engine state machine as functions (`Stop`, `Start`) with their lemmas;
  - one tick as functions of the values it reads (`EngineForces`, `DampSide`, `SteeredAngle`, `DriftForces`, `SkidAfter`) with lemmas about them;
  - the classes `RigidBody` and `Car`, whose methods update the fields in place and are proved against those functions.
- `Pilot.dfy` holds:
  - the steer clamp, the brake decision and the circular index step as functions, with lemmas about them (monotonicity, the 27-degree brake threshold, a lap returning to its start and visiting every index exactly once);
  - the class `AutoPilot`, which forwards commands to its `Car`.

Boundaries of the model:

- `RigidBody.AddForce` appends to a ghost log of applied forces and does not integrate them. `MoveRotation` records the commanded yaw.
- The heading error (`Vector3.SignedAngle`) and the distance to the waypoint (`Vector3.Distance`) are inputs of `AutoPilot.FixedUpdate`.
- The car's axes and `Time.fixedDeltaTime` are inputs of `Car.FixedUpdate`. Lemmas that need the axes to be orthonormal say so in a `requires`.

Behaviour of the code that the model keeps as written:

- Reading `currentPointList[currentPoint]` with a bad index throws, before anything has changed. `AutoPilot.FixedUpdate` then returns `IndexOutOfRange` and changes nothing. `SetPointsList` keeps the index, so after a replacement whose length is at most the current index every driving tick ends this way.
- C# evaluates arguments left to right. The brake value that `SetDrive` receives is therefore the one `CalculateSteeringAngle` has just computed in the same tick.
- `Drift` with a zero steer value returns early and leaves the skid trails as they were (CarMovement.cs:110-111).
- A second `StopEngine` overwrites the saved velocity with the already-zeroed velocity, so stopping twice loses the momentum (CarMovement.cs:42-43, `StopTwiceForgetsVelocity`).
- `StartEngine` without a previous stop restores the default zero velocity (`StartWithoutStopZeroes`).

## Model

| member | source | states |
|---|---|---|
| `Dynamics.Car.constructor` | Assets/ARealG_CarAI/Code/CarMovement.cs:5-26 | The serialized fields are parameters, and so are the scene's initial trail state and wheel angle. Every private field starts at its default: not stopped, zero saved velocity, zero angle. The brake starts at 0 except in the `CarController` copy, where it is serialized. `Awake` has not run yet. |
| `Dynamics.Car.Awake` | Assets/ARealG_CarAI/Code/CarController.cs:26-30 | `Awake` runs once, before any tick; `FixedUpdate` requires that it has run. In the `CarController` copy it multiplies the acceleration factor by 100000. In the `CarMovement` copy it leaves the factor unchanged. |
| `Dynamics.VariantsThrustAlike` | Assets/ARealG_CarAI/Code/CarMovement.cs:71 | Scaling by 100000 on every tick (`CarMovement`) and scaling once in `Awake` (`CarController`) give the same propulsive coefficient, `acceleration * 100000 * dt * input`. |
| `Dynamics.Car.SetDrive` | Assets/ARealG_CarAI/Code/CarMovement.cs:33-38 | Steer, acceleration and brake are stored exactly as given. The frame names only those three fields, so nothing else changes, including the velocity. |
| `Dynamics.Car.StopEngine` | Assets/ARealG_CarAI/Code/CarMovement.cs:40-45 | The engine state becomes `Stop` of the old one: the saved velocity is the pre-call velocity, the velocity is zero and the car is stopped. |
| `Dynamics.Car.StartEngine` | Assets/ARealG_CarAI/Code/CarMovement.cs:47-51 | The engine state becomes `Start` of the old one: the car is running and the velocity is the saved velocity. |
| `Dynamics.Stop` | Assets/ARealG_CarAI/Code/CarController.cs:39-44 | After a stop the car is stopped, its velocity is zero and the saved velocity is the velocity before the stop. |
| `Dynamics.Start` | Assets/ARealG_CarAI/Code/CarController.cs:46-50 | After a start the car runs and its velocity equals the saved velocity, which is kept. |
| `Dynamics.StopThenStartRestores` | Assets/ARealG_CarAI/Code/CarMovement.cs:40-51 | A stop followed by a start restores the velocity held before the stop and leaves the car running. |
| `Dynamics.StopTwiceForgetsVelocity` | Assets/ARealG_CarAI/Code/CarMovement.cs:42-43 | After two stops in a row the saved velocity is zero, because the second stop captures the velocity the first one zeroed. |
| `Dynamics.StartWithoutStopZeroes` | Assets/ARealG_CarAI/Code/CarController.cs:46-50 | Starting a car that was never stopped, so its saved velocity still has its default, sets a moving car's velocity to zero. |
| `Dynamics.Car.FixedUpdate` | Assets/ARealG_CarAI/Code/CarMovement.cs:53-62 | While stopped, nothing changes: no force, velocity, angle, wheel or skid change. While running, the tick adds the engine forces computed from the pre-damping velocity, damps the velocity, and turns and drifts according to the damped velocity, in that order. |
| `Dynamics.Car.ApplyEngineForce` | Assets/ARealG_CarAI/Code/CarMovement.cs:64-76 | The forces appended to the body are exactly `EngineForces` of the current velocity, speed cap, thrust and brake field. |
| `Dynamics.SpeedCapStopsPropulsion` | Assets/ARealG_CarAI/Code/CarController.cs:63-75 | When the forward speed exceeds the cap, no force is added, whatever the throttle or brake. |
| `Dynamics.EngineForcesAlongForward` | Assets/ARealG_CarAI/Code/CarController.cs:70-74 | At or below the cap exactly two forces are added, both parallel to `forward`. The first has forward component `accelerationFactor * dt * input` and the second `-0.6 * brake`. |
| `Dynamics.BrakeSentinelSign` | Assets/ARealG_CarAI/Code/CarMovement.cs:72-75 | The brake value -1 ("not braking") gives a forward push of +0.6. The brake value 1 gives a backward push of -0.6. |
| `Dynamics.Car.DecreaseSideVelocity` | Assets/ARealG_CarAI/Code/CarMovement.cs:78-83 | The new velocity is `DampSide` of the old one. |
| `Dynamics.DampSideComponents` | Assets/ARealG_CarAI/Code/CarController.cs:131-136 | For an orthonormal frame, damping keeps the forward component, multiplies the lateral component by `driftFactor` and leaves no vertical component. |
| `Dynamics.DampingShrinksSlide` | Assets/ARealG_CarAI/Code/CarMovement.cs:80-82 | With a drift factor in (0, 1), each tick strictly reduces the magnitude of a nonzero lateral velocity. |
| `Dynamics.Car.ApplySteering` | Assets/ARealG_CarAI/Code/CarMovement.cs:85-106 | The angle accumulator becomes `SteeredAngle` of the old angle and velocity. The commanded yaw equals the accumulator. The wheel angle is `58 * steer`. |
| `Dynamics.SteeringTurnBounded` | Assets/ARealG_CarAI/Code/CarController.cs:77-98 | With a squared speed below 0.1 the angle is unchanged. Otherwise, with a steer value in [-1, 1], the angle moves by at most `abs(turnSpeed * dt)` per tick. |
| `Dynamics.WheelAngle` | Assets/ARealG_CarAI/Code/CarMovement.cs:99-105 | A steer value in [-1, 1] puts the front wheels within 58 degrees either way. |
| `Dynamics.Car.Drift` | Assets/ARealG_CarAI/Code/CarMovement.cs:108-137 | The forces appended are `DriftForces` and the skid flag becomes `SkidAfter`, both of the current steer and velocity. |
| `Dynamics.DriftDecision` | Assets/ARealG_CarAI/Code/CarController.cs:100-129 | With zero steer there is no force and the skid flag is untouched. Otherwise the skid flag is on exactly when a drift force is added, and at most one is ever added. |
| `Dynamics.DriftOpposesSlide` | Assets/ARealG_CarAI/Code/CarMovement.cs:113-142 | With nonzero steer and a lateral speed above 1, exactly one force is added, parallel to `right`. Its lateral component is `-lateral * driftFactor * dt`. For a positive drift factor and time step it has the opposite sign to the lateral velocity. |
| `Dynamics.LateralVelocityIsSideways` | Assets/ARealG_CarAI/Code/CarMovement.cs:139-142 | In an orthonormal frame the lateral velocity is exactly the sideways component of the velocity, whatever its forward and vertical components. |
| `Dynamics.Car.GetLateralVelocity` | Assets/ARealG_CarAI/Code/CarController.cs:138-141 | For a unit `right` axis the squared lateral speed never exceeds the car's squared speed (Cauchy-Schwarz). |
| `Pilot.SteerFromAngle` | Assets/ARealG_CarAI/Code/CarAutoPilot.cs:25-38 | The steer value lies in [-1, 1]. It equals angle/45 for heading errors within 45 degrees, and saturates at 1 and -1 beyond them. |
| `Pilot.SteerMonotone` | Assets/ARealG_CarAI/Code/CarAI.cs:31-33 | The steer value never decreases as the heading error grows. |
| `Pilot.BrakeFor` | Assets/ARealG_CarAI/Code/CarAI.cs:40-46 | The brake value is 1 or -1, and it is 1 exactly when the magnitude of the steer value exceeds 0.6. |
| `Pilot.AutoPilot.CalculateBrake` | Assets/ARealG_CarAI/Code/CarAutoPilot.cs:40-46 | The brake field becomes `BrakeFor` of the steer value. |
| `Pilot.BrakeOnSharpTurn` | Assets/ARealG_CarAI/Code/CarAutoPilot.cs:31-46 | The car brakes exactly when the target is more than 27 degrees off its heading, and otherwise sends -1. |
| `Pilot.SteerScenarios` | Assets/ARealG_CarAI/Code/CarAI.cs:25-46 | A target straight ahead gives steer 0 and brake -1. A target 90 degrees to the side gives steer 1 and brake 1. |
| `Pilot.AutoPilot.CalculateSteeringAngle` | Assets/ARealG_CarAI/Code/CarAI.cs:25-38 | With a valid index it returns `SteerFromAngle(angle)` and sets the brake from that value. With a bad index the read throws: no value is returned and the brake is untouched. |
| `Pilot.NextIndex` | Assets/ARealG_CarAI/Code/CarAI.cs:56-66 | From a valid index the next index is valid and equals `(i + 1) mod count`. |
| `Pilot.AutoPilot.MoveToNextPoint` | Assets/ARealG_CarAI/Code/CarAutoPilot.cs:56-66 | The index wraps to 0 after the last point and otherwise increments. |
| `Pilot.AdvanceByModular` | Assets/ARealG_CarAI/Code/CarAutoPilot.cs:58-65 | `k` advances from a valid index `i` land on `(i + k) mod count`. |
| `Pilot.AdvanceWithinLap` | Assets/ARealG_CarAI/Code/CarAI.cs:58-65 | Within one lap, `k` advances from a valid index `i` give `i + k`, wrapped once past the end of the route. |
| `Pilot.RouteCycles` | Assets/ARealG_CarAI/Code/CarAI.cs:56-66 | `count` advances return the index to where it started. |
| `Pilot.RouteVisitsEveryPoint` | Assets/ARealG_CarAI/Code/CarAI.cs:56-66 | Starting at 0, the `j`-th advance reaches index `j`, so one lap visits every point. |
| `Pilot.RouteVisitsOnce` | Assets/ARealG_CarAI/Code/CarAutoPilot.cs:57-66 | Within one lap no index is visited twice. |
| `Pilot.AutoPilot.HandlePointControl` | Assets/ARealG_CarAI/Code/CarAutoPilot.cs:48-54 | The index advances by one circular step only when the distance is strictly below the capture radius, and is otherwise unchanged. It stays valid. A bad index throws and changes nothing. |
| `Pilot.AutoPilot.FixedUpdate` | Assets/ARealG_CarAI/Code/CarAutoPilot.cs:16-23 | When not driving, nothing changes. With a bad index, nothing changes and the tick reports the fault. Otherwise the car receives `SetDrive(SteerFromAngle(angle), 1, BrakeFor(steer))` and the index advances at most once, only inside the capture radius, staying valid. |
| `Pilot.AutoPilot.constructor` | Assets/ARealG_CarAI/Code/CarAI.cs:6-14 | The autopilot starts driving, at index 0, with the given capture radius (default 20 in this copy, 14 in the other) and route. |
| `Pilot.AutoPilot.Default` | Assets/ARealG_CarAI/Code/CarAutoPilot.cs:6 | With its serialized default the capture radius is 14 beside a `CarMovement` and 20 beside a `CarController`. The autopilot starts driving at index 0. |
| `Pilot.AutoPilot.SetPointsList` | Assets/ARealG_CarAI/Code/CarAutoPilot.cs:68-71 | The route is replaced and the index is kept. The index is valid afterwards exactly when it is below the new length. |
| `Pilot.AutoPilot.StopDrive` | Assets/ARealG_CarAI/Code/CarAutoPilot.cs:73-77 | Driving stops and the car's engine state becomes `Stop` of the old one, so the autopilot is not driving and its car is stopped. |
| `Pilot.AutoPilot.StartDrive` | Assets/ARealG_CarAI/Code/CarAI.cs:78-82 | Driving starts and the car's engine state becomes `Start` of the old one, so the autopilot drives a running car. |

## Left out

- Unity wiring: `GetComponent` in `Awake` and the assignment of serialized references (car, route, trails, particle systems, wheels). Serialized values are constructor parameters. The inspector's `Range(0.85, 0.995)` on `CarMovement`'s drift factor is not enforced at run time and is not modelled. Lemmas that need a bound on the drift factor state it.
- Rigid-body integration: `AddForce` only records the force, so the effect of forces on later velocities, collisions and gravity are not modelled. `MoveRotation` only records the commanded yaw; quaternions are not modelled.
- Library geometry: `Vector3.SignedAngle`, `Normalize` and `Vector3.Distance` are not computed. The heading error and the distance are inputs, and the car's axes are a parameter assumed orthonormal where a lemma needs it.
- Floating point: all quantities are exact reals. The constants `0.6f`, `0.1f`, `45f` and `-0.6f` are taken as exact decimals, and no result is claimed bit-exact.
- Visual output: the two trail renderers are one `skidding` flag. The smoke `Emit(1)` calls are not modelled. The two wheel rotations are one `wheelAngle` value.
- A null `currentPointList` is not modelled. An empty route behaves like any bad index: every driving tick reports `IndexOutOfRange`. Unity's logging of the exception is not modelled.
- Unity's lifecycle: the ghost `awake` flag on `Car` stands for Unity's guarantee that `Awake` runs once before the first `FixedUpdate`; the engine's scheduling itself is not modelled.
- The relative order of the autopilot's and the car's `FixedUpdate` within a physics step is not modelled, because it depends on Unity's script execution order. Each update is modelled on its own.
