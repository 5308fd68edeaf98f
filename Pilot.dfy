/** The waypoint autopilot shared by `CarAutoPilot` (which drives a
    `CarMovement`) and `CarAI` (which drives a `CarController`): it turns the
    heading error to the current waypoint into a steer value and a brake
    flag, hands them to the car, and walks round the route in a circle. */
module Pilot {
  import opened Geometry
  import opened Dynamics

  /** Heading error, in degrees, at which the steer value saturates. */
  const SaturationAngle: real := 45.0
  /** A steer value above this (in absolute value) turns the brake on. */
  const BrakeSteerThreshold: real := 0.6
  /** The constant throttle `_gasPower`. */
  const GasPower: real := 1.0

  /** The default capture radius: `_rangeForNextPoint` is 14 in
      `CarAutoPilot`, `pointRange` is 20 in `CarAI`. */
  function CaptureRadius(variant: Variant): real {
    match variant
    case Movement => 14.0
    case Controller => 20.0
  }

  /** `Mathf.Clamp`. */
  function Clamp(value: real, min: real, max: real): real {
    if value < min then min else if value > max then max else value
  }

  /** The steer value for a signed heading error in degrees. */
  function SteerFromAngle(angle: real): (steer: real)
    ensures -1.0 <= steer <= 1.0
    ensures -SaturationAngle <= angle <= SaturationAngle ==> steer * SaturationAngle == angle
    ensures angle >= SaturationAngle ==> steer == 1.0
    ensures angle <= -SaturationAngle ==> steer == -1.0
  {
    Clamp(angle / SaturationAngle, -1.0, 1.0)
  }

  /** The steer value never decreases as the heading error grows. */
  lemma SteerMonotone(a: real, b: real)
    requires a <= b
    ensures SteerFromAngle(a) <= SteerFromAngle(b)
  {
  }

  /** `CalculateBrake`'s decision: 1 (brake) or -1 (no brake). */
  function BrakeFor(steer: real): (brake: real)
    ensures brake == 1.0 || brake == -1.0
    ensures brake == 1.0 <==> Abs(steer) > BrakeSteerThreshold
  {
    if Abs(steer) > BrakeSteerThreshold then 1.0 else -1.0
  }

  /** In terms of the heading error: the car brakes exactly when the target
      is more than 27 degrees off its nose. */
  lemma BrakeOnSharpTurn(angle: real)
    ensures BrakeFor(SteerFromAngle(angle)) == 1.0 <==> Abs(angle) > 27.0
    ensures BrakeFor(SteerFromAngle(angle)) == -1.0 <==> Abs(angle) <= 27.0
  {
  }

  /** A target straight ahead gives no steer and no brake; one square to the
      right saturates the steer and brakes. */
  lemma SteerScenarios()
    ensures SteerFromAngle(0.0) == 0.0 && BrakeFor(SteerFromAngle(0.0)) == -1.0
    ensures SteerFromAngle(90.0) == 1.0 && BrakeFor(SteerFromAngle(90.0)) == 1.0
  {
  }

  /** `MoveToNextPoint`'s index arithmetic on a route of `count` points. */
  function NextIndex(i: nat, count: nat): (j: nat)
    ensures i < count ==> j < count && j == (i + 1) % count
  {
    if i == count - 1 then 0 else i + 1
  }

  /** The index after `k` advances from `i`. */
  function AdvanceBy(i: nat, count: nat, k: nat): nat {
    if k == 0 then i else NextIndex(AdvanceBy(i, count, k - 1), count)
  }

  lemma MulBounds(d: int, c: int)
    requires c > 0
    ensures d >= 1 ==> d * c >= c
    ensures d <= 0 ==> d * c <= 0
  {
    if d >= 1 {
      assert d * c == c + (d - 1) * c;
    }
  }

  /** Euclidean division is unique: a quotient and an in-range remainder
      that rebuild `n` are the ones `/` and `%` give. */
  lemma DivModUnique(n: int, count: int, q: int, r: int)
    requires count > 0 && 0 <= r < count && n == q * count + r
    ensures n % count == r && n / count == q
  {
    var q', r' := n / count, n % count;
    assert (q' - q) * count == q' * count - q * count;
    assert (q - q') * count == q * count - q' * count;
    MulBounds(q' - q, count);
    MulBounds(q - q', count);
  }

  lemma ModSucc(m: nat, count: nat)
    requires count > 0
    ensures (m % count + 1) % count == (m + 1) % count
  {
    var q, r := m / count, m % count;
    if r + 1 < count {
      DivModUnique(m + 1, count, q, r + 1);
      DivModUnique(r + 1, count, 0, r + 1);
    } else {
      assert m + 1 == (q + 1) * count + 0;
      DivModUnique(m + 1, count, q + 1, 0);
      DivModUnique(count, count, 1, 0);
    }
  }

  /** `k` advances from a valid index land on `(i + k) mod count`. */
  lemma {:induction false} AdvanceByModular(i: nat, count: nat, k: nat)
    requires i < count
    ensures AdvanceBy(i, count, k) == (i + k) % count
  {
    if k > 0 {
      AdvanceByModular(i, count, k - 1);
      ModSucc(i + k - 1, count);
    }
  }

  /** Within one lap the index is `i + k`, wrapped once past the end. */
  lemma {:induction false} AdvanceWithinLap(i: nat, count: nat, k: nat)
    requires i < count && k <= count
    ensures AdvanceBy(i, count, k) == if i + k < count then i + k else i + k - count
  {
    if k > 0 {
      AdvanceWithinLap(i, count, k - 1);
    }
  }

  /** `count` advances bring the index back to where it started. */
  lemma RouteCycles(i: nat, count: nat)
    requires i < count
    ensures AdvanceBy(i, count, count) == i
  {
    AdvanceWithinLap(i, count, count);
  }

  /** Starting from the first point, the `j`-th advance reaches point `j`:
      one lap visits every index in order. */
  lemma RouteVisitsEveryPoint(count: nat, j: nat)
    requires j < count
    ensures AdvanceBy(0, count, j) == j
  {
    AdvanceWithinLap(0, count, j);
  }

  /** Within one lap no index is visited twice. */
  lemma RouteVisitsOnce(i: nat, count: nat, k1: nat, k2: nat)
    requires i < count && k1 < k2 < count
    ensures AdvanceBy(i, count, k1) != AdvanceBy(i, count, k2)
  {
    AdvanceWithinLap(i, count, k1);
    AdvanceWithinLap(i, count, k2);
  }

  /** How a tick of the autopilot ended. */
  datatype TickOutcome =
    | Idle              // not driving: nothing happened
    | Driven            // a command was sent and the index checked
    | IndexOutOfRange   // reading the current waypoint threw

  datatype Option<T> = None | Some(value: T)

  class AutoPilot {
    /** The car this autopilot drives (`carController`). */
    const car: Car
    /** The capture radius (`_rangeForNextPoint`, `pointRange`). */
    const rangeForNextPoint: real
    /** Positions of the waypoints of `currentPointList`; only the count matters here. */
    var route: seq<Vec3>
    var currentPoint: nat
    var isDriving: bool
    var brakeForce: real

    constructor (car: Car, rangeForNextPoint: real, route: seq<Vec3>)
      ensures this.car == car && this.rangeForNextPoint == rangeForNextPoint && this.route == route
      ensures isDriving && currentPoint == 0 && brakeForce == 0.0
    {
      this.car := car;
      this.rangeForNextPoint := rangeForNextPoint;
      this.route := route;
      isDriving := true;
      currentPoint := 0;
      brakeForce := 0.0;
    }

    /** An autopilot whose capture radius keeps its serialized default:
        14 beside a `CarMovement`, 20 beside a `CarController`. */
    constructor Default(car: Car, route: seq<Vec3>)
      ensures this.car == car && this.route == route
      ensures rangeForNextPoint == CaptureRadius(car.variant)
      ensures car.variant == Movement ==> rangeForNextPoint == 14.0
      ensures car.variant == Controller ==> rangeForNextPoint == 20.0
      ensures isDriving && currentPoint == 0 && brakeForce == 0.0
    {
      this.car := car;
      this.rangeForNextPoint := CaptureRadius(car.variant);
      this.route := route;
      isDriving := true;
      currentPoint := 0;
      brakeForce := 0.0;
    }

    /** `currentPointList[currentPoint]` can be read. */
    predicate TargetValid()
      reads this
    {
      currentPoint < |route|
    }

    /** The autopilot drives exactly when its car's engine runs. */
    predicate Coupled()
      reads this, car
    {
      isDriving == !car.isStopped
    }

    /** `FixedUpdate`. The heading error and the distance to the current
        waypoint are what `Vector3.SignedAngle` and `Vector3.Distance` give
        for the pose at the start of the tick. */
    method FixedUpdate(angle: real, distance: real) returns (outcome: TickOutcome)
      modifies this`brakeForce, this`currentPoint, car`steeringInput, car`accelerationInput, car`brakeForce
      ensures !old(isDriving) ==> outcome == Idle && unchanged(this, car)
      ensures old(isDriving) && !old(TargetValid()) ==> outcome == IndexOutOfRange && unchanged(this, car)
      ensures old(isDriving) && old(TargetValid()) ==>
        && outcome == Driven
        && brakeForce == BrakeFor(SteerFromAngle(angle))
        && car.steeringInput == SteerFromAngle(angle)
        && car.accelerationInput == GasPower
        && car.brakeForce == brakeForce
        && currentPoint == (if distance < rangeForNextPoint then NextIndex(old(currentPoint), |route|) else old(currentPoint))
        && TargetValid()
    {
      if !isDriving {
        return Idle;
      }
      var steer := CalculateSteeringAngle(angle);
      if steer.None? {
        return IndexOutOfRange;
      }
      car.SetDrive(steer.value, GasPower, brakeForce);
      var advanced := HandlePointControl(distance);
      outcome := Driven;
    }

    /** `CalculateSteeringAngle`: reads the current waypoint (which throws
        on a bad index, before anything changes), then sets the brake from
        the steer value it returns. */
    method CalculateSteeringAngle(angle: real) returns (steer: Option<real>)
      modifies this`brakeForce
      ensures old(TargetValid()) ==> steer == Some(SteerFromAngle(angle)) && brakeForce == BrakeFor(steer.value)
      ensures !old(TargetValid()) ==> steer == None && brakeForce == old(brakeForce)
    {
      if !(currentPoint < |route|) {
        return None;
      }
      var steerAmount := Clamp(angle / SaturationAngle, -1.0, 1.0);
      CalculateBrake(steerAmount);
      steer := Some(steerAmount);
    }

    method CalculateBrake(steer: real)
      modifies this`brakeForce
      ensures brakeForce == BrakeFor(steer)
    {
      if Abs(steer) > BrakeSteerThreshold {
        brakeForce := 1.0;
      } else {
        brakeForce := -1.0;
      }
    }

    /** `HandlePointControl`: advance when strictly inside the capture
        radius. `None` when the waypoint read throws. */
    method HandlePointControl(distance: real) returns (advanced: Option<bool>)
      modifies this`currentPoint
      ensures !old(TargetValid()) ==> advanced == None && currentPoint == old(currentPoint)
      ensures old(TargetValid()) ==> advanced == Some(distance < rangeForNextPoint)
      ensures old(TargetValid()) ==>
        currentPoint == if distance < rangeForNextPoint then NextIndex(old(currentPoint), |route|) else old(currentPoint)
      ensures old(TargetValid()) ==> TargetValid()
    {
      if !(currentPoint < |route|) {
        return None;
      }
      if distance < rangeForNextPoint {
        MoveToNextPoint();
        return Some(true);
      }
      return Some(false);
    }

    method MoveToNextPoint()
      modifies this`currentPoint
      ensures currentPoint == NextIndex(old(currentPoint), |route|)
    {
      if currentPoint == |route| - 1 {
        currentPoint := 0;
      } else {
        currentPoint := currentPoint + 1;
      }
    }

    /** `SetPointsList`: the route is replaced and the index is kept, valid
        for the new route or not. */
    method SetPointsList(trackpoints: seq<Vec3>)
      modifies this`route
      ensures route == trackpoints && currentPoint == old(currentPoint)
      ensures TargetValid() <==> old(currentPoint) < |trackpoints|
    {
      route := trackpoints;
    }

    method StopDrive()
      modifies this`isDriving, car`lastVelocity, car`isStopped, car.body`velocity
      ensures !isDriving && car.Engine() == Stop(old(car.Engine()))
      ensures Coupled()
    {
      isDriving := false;
      car.StopEngine();
    }

    method StartDrive()
      modifies this`isDriving, car`isStopped, car.body`velocity
      ensures isDriving && car.Engine() == Start(old(car.Engine()))
      ensures Coupled()
    {
      isDriving := true;
      car.StartEngine();
    }
  }
}
