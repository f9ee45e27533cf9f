/**
 * Filter/KalmanPoseFilter: the discrete structure of the square-root
 * unscented Kalman pose filter.
 *
 * The filter's state is a 15-slot vector that interleaves, per axis, the
 * position, linear velocity and linear acceleration (in meters), followed by
 * the orientation as an angle-axis vector interleaved with the angular
 * velocity. The PSMove and DS4 measurement vectors each have 12 slots. This
 * module states those layouts, the block writes of the discretised
 * white-noise process covariance Q, the unscented sigma weights and the
 * pairing of sigma-point columns with columns of the covariance square root,
 * the linear kinematics of the process model, and the diagonal edits the
 * measurement models make to their covariance R. Arithmetic is over `real`;
 * the Eigen quaternion and matrix numerics are not part of this model.
 */
module KalmanPoseFilter {
  datatype Axis = X | Y | Z

  datatype Vec3 = Vec3(x: real, y: real, z: real)

  const Zero3: Vec3 := Vec3(0.0, 0.0, 0.0)

  function Add(u: Vec3, v: Vec3): Vec3 { Vec3(u.x + v.x, u.y + v.y, u.z + v.z) }

  function Sub(u: Vec3, v: Vec3): Vec3 { Vec3(u.x - v.x, u.y - v.y, u.z - v.z) }

  function Scale(u: Vec3, k: real): Vec3 { Vec3(u.x * k, u.y * k, u.z * k) }

  /** k_meters_to_centimeters and k_centimeters_to_meters. */
  const MetersToCentimeters: real := 100.0
  const CentimetersToMeters: real := 0.01

  // ---------------------------------------------------------------------
  // State layout (StateEnum)
  // ---------------------------------------------------------------------

  const PositionX: nat := 0
  const LinearVelocityX: nat := 1
  const LinearAccelerationX: nat := 2
  const PositionY: nat := 3
  const LinearVelocityY: nat := 4
  const LinearAccelerationY: nat := 5
  const PositionZ: nat := 6
  const LinearVelocityZ: nat := 7
  const LinearAccelerationZ: nat := 8
  const AngleAxisX: nat := 9
  const AngularVelocityX: nat := 10
  const AngleAxisY: nat := 11
  const AngularVelocityY: nat := 12
  const AngleAxisZ: nat := 13
  const AngularVelocityZ: nat := 14
  const StateCount: nat := 15

  datatype StateQuantity = Position | LinearVelocity | LinearAcceleration | AngleAxis | AngularVelocity

  /** The slot of one axis of one state quantity. */
  function StateIndex(q: StateQuantity, a: Axis): (i: nat)
    ensures i < StateCount
  {
    match (q, a)
    case (Position, X) => PositionX
    case (Position, Y) => PositionY
    case (Position, Z) => PositionZ
    case (LinearVelocity, X) => LinearVelocityX
    case (LinearVelocity, Y) => LinearVelocityY
    case (LinearVelocity, Z) => LinearVelocityZ
    case (LinearAcceleration, X) => LinearAccelerationX
    case (LinearAcceleration, Y) => LinearAccelerationY
    case (LinearAcceleration, Z) => LinearAccelerationZ
    case (AngleAxis, X) => AngleAxisX
    case (AngleAxis, Y) => AngleAxisY
    case (AngleAxis, Z) => AngleAxisZ
    case (AngularVelocity, X) => AngularVelocityX
    case (AngularVelocity, Y) => AngularVelocityY
    case (AngularVelocity, Z) => AngularVelocityZ
  }

  /** The quantity and axis stored in each slot: every slot holds exactly one. */
  function StateSlotAt(i: nat): (slot: (StateQuantity, Axis))
    requires i < StateCount
    ensures StateIndex(slot.0, slot.1) == i
  {
    if i == PositionX then (Position, X)
    else if i == LinearVelocityX then (LinearVelocity, X)
    else if i == LinearAccelerationX then (LinearAcceleration, X)
    else if i == PositionY then (Position, Y)
    else if i == LinearVelocityY then (LinearVelocity, Y)
    else if i == LinearAccelerationY then (LinearAcceleration, Y)
    else if i == PositionZ then (Position, Z)
    else if i == LinearVelocityZ then (LinearVelocity, Z)
    else if i == LinearAccelerationZ then (LinearAcceleration, Z)
    else if i == AngleAxisX then (AngleAxis, X)
    else if i == AngularVelocityX then (AngularVelocity, X)
    else if i == AngleAxisY then (AngleAxis, Y)
    else if i == AngularVelocityY then (AngularVelocity, Y)
    else if i == AngleAxisZ then (AngleAxis, Z)
    else (AngularVelocity, Z)
  }

  /** No two quantity/axis pairs share a slot, so with StateSlotAt the layout is a bijection onto 0..14. */
  lemma StateIndexIsInjective(q: StateQuantity, a: Axis)
    ensures StateSlotAt(StateIndex(q, a)) == (q, a)
  {
  }

  /**
   * The interleaving the process covariance relies on: each axis has its
   * position, velocity and acceleration in three consecutive slots, and its
   * angle-axis component directly before its angular velocity.
   */
  lemma StateLayoutInterleaves(a: Axis)
    ensures StateIndex(LinearVelocity, a) == StateIndex(Position, a) + 1
    ensures StateIndex(LinearAcceleration, a) == StateIndex(Position, a) + 2
    ensures StateIndex(AngularVelocity, a) == StateIndex(AngleAxis, a) + 1
  {
  }

  // ---------------------------------------------------------------------
  // Measurement layouts (PSMoveMeasurementEnum, DS4MeasurementEnum)
  // ---------------------------------------------------------------------

  const PSMoveAccelerometerX: nat := 0
  const PSMoveGyroscopeX: nat := 3
  const PSMoveMagnetometerX: nat := 6
  const PSMoveOpticalPositionX: nat := 9
  const PSMoveMeasurementCount: nat := 12

  const DS4AccelerometerX: nat := 0
  const DS4GyroscopeX: nat := 3
  const DS4OpticalPositionX: nat := 6
  const DS4OpticalAngleAxisX: nat := 9
  const DS4MeasurementCount: nat := 12

  datatype PSMoveQuantity = PSMoveAccelerometer | PSMoveGyroscope | PSMoveMagnetometer | PSMoveOpticalPosition

  datatype DS4Quantity = DS4Accelerometer | DS4Gyroscope | DS4OpticalPosition | DS4OpticalAngleAxis

  function AxisOffset(a: Axis): (k: nat)
    ensures k < 3
  {
    match a
    case X => 0
    case Y => 1
    case Z => 2
  }

  /** Each PSMove measurement quantity takes three consecutive slots, X then Y then Z. */
  function PSMoveIndex(q: PSMoveQuantity, a: Axis): (i: nat)
    ensures i < PSMoveMeasurementCount
  {
    AxisOffset(a) +
      match q
      case PSMoveAccelerometer => PSMoveAccelerometerX
      case PSMoveGyroscope => PSMoveGyroscopeX
      case PSMoveMagnetometer => PSMoveMagnetometerX
      case PSMoveOpticalPosition => PSMoveOpticalPositionX
  }

  /** Each DS4 measurement quantity takes three consecutive slots, X then Y then Z. */
  function DS4Index(q: DS4Quantity, a: Axis): (i: nat)
    ensures i < DS4MeasurementCount
  {
    AxisOffset(a) +
      match q
      case DS4Accelerometer => DS4AccelerometerX
      case DS4Gyroscope => DS4GyroscopeX
      case DS4OpticalPosition => DS4OpticalPositionX
      case DS4OpticalAngleAxis => DS4OpticalAngleAxisX
  }

  lemma MeasurementIndicesAreInjective(p1: PSMoveQuantity, p2: PSMoveQuantity, d1: DS4Quantity, d2: DS4Quantity, a1: Axis, a2: Axis)
    ensures PSMoveIndex(p1, a1) == PSMoveIndex(p2, a2) ==> p1 == p2 && a1 == a2
    ensures DS4Index(d1, a1) == DS4Index(d2, a2) ==> d1 == d2 && a1 == a2
  {
  }

  /**
   * The PSMove optical-position slots are the DS4 optical angle-axis slots,
   * and the DS4 optical-position slots are the PSMove magnetometer slots.
   */
  lemma MeasurementLayoutsDiffer(a: Axis)
    ensures PSMoveIndex(PSMoveOpticalPosition, a) == DS4Index(DS4OpticalAngleAxis, a)
    ensures PSMoveIndex(PSMoveMagnetometer, a) == DS4Index(DS4OpticalPosition, a)
  {
  }

  // ---------------------------------------------------------------------
  // Reading and writing three slots of a vector (the get_*/set_* accessors)
  // ---------------------------------------------------------------------

  function Get3(s: seq<real>, i: nat, j: nat, k: nat): Vec3
    requires i < |s| && j < |s| && k < |s|
  {
    Vec3(s[i], s[j], s[k])
  }

  /** Writes v into slots i, j, k: reading them back gives v, and every other slot keeps its value. */
  function Set3(s: seq<real>, i: nat, j: nat, k: nat, v: Vec3): (r: seq<real>)
    requires i < |s| && j < |s| && k < |s|
    requires i != j && j != k && i != k
    ensures |r| == |s|
    ensures Get3(r, i, j, k) == v
    ensures forall m :: 0 <= m < |s| && m != i && m != j && m != k ==> r[m] == s[m]
  {
    s[i := v.x][j := v.y][k := v.z]
  }

  function GetState(s: seq<real>, q: StateQuantity): Vec3
    requires |s| == StateCount
  {
    Get3(s, StateIndex(q, X), StateIndex(q, Y), StateIndex(q, Z))
  }

  /** Setting one state quantity leaves every other quantity as it was. */
  function SetState(s: seq<real>, q: StateQuantity, v: Vec3): (r: seq<real>)
    requires |s| == StateCount
    ensures |r| == StateCount
    ensures GetState(r, q) == v
    ensures forall p :: p != q ==> GetState(r, p) == GetState(s, p)
  {
    Set3(s, StateIndex(q, X), StateIndex(q, Y), StateIndex(q, Z), v)
  }

  /** PoseStateVector::setZero. */
  const ZeroState: seq<real> := [0.0, 0.0, 0.0, 0.0, 0.0, 0.0, 0.0, 0.0, 0.0, 0.0, 0.0, 0.0, 0.0, 0.0, 0.0]

  lemma ZeroStateIsZero(q: StateQuantity)
    ensures |ZeroState| == StateCount && GetState(ZeroState, q) == Zero3
  {
  }

  // ---------------------------------------------------------------------
  // Process model: the linear part of PoseSystemModel::f
  // ---------------------------------------------------------------------

  datatype Kinematics = Kinematics(position: Vec3, velocity: Vec3, acceleration: Vec3)

  function KinematicsOf(s: seq<real>): Kinematics
    requires |s| == StateCount
  {
    Kinematics(GetState(s, Position), GetState(s, LinearVelocity), GetState(s, LinearAcceleration))
  }

  /** Constant-acceleration motion over dt: p + v*dt + a*dt*dt*0.5, v + a*dt, a. */
  function Predict(k: Kinematics, dt: real): Kinematics
  {
    Kinematics(
      Add(Add(k.position, Scale(k.velocity, dt)), Scale(k.acceleration, dt * dt * 0.5)),
      Add(k.velocity, Scale(k.acceleration, dt)),
      k.acceleration)
  }

  /**
   * PoseSystemModel::f over the state layout: the new state's kinematics are
   * the old ones advanced by dt, the angular velocity is carried over, and the
   * angle-axis slots hold the integrated orientation, which the quaternion
   * numerics compute and the caller passes in.
   */
  function Transition(s: seq<real>, dt: real, orientation: Vec3): (r: seq<real>)
    requires |s| == StateCount
    ensures |r| == StateCount
    ensures KinematicsOf(r) == Predict(KinematicsOf(s), dt)
    ensures GetState(r, AngularVelocity) == GetState(s, AngularVelocity)
    ensures GetState(r, AngleAxis) == orientation
  {
    var k := Predict(KinematicsOf(s), dt);
    var r0 := SetState(ZeroState, Position, k.position);
    var r1 := SetState(r0, LinearVelocity, k.velocity);
    var r2 := SetState(r1, LinearAcceleration, k.acceleration);
    var r3 := SetState(r2, AngleAxis, orientation);
    SetState(r3, AngularVelocity, GetState(s, AngularVelocity))
  }

  lemma PredictAxis(p: real, v: real, a: real, t1: real, t2: real)
    ensures var p1 := p + v * t1 + a * (t1 * t1 * 0.5);
            var v1 := v + a * t1;
            p1 + v1 * t2 + a * (t2 * t2 * 0.5) == p + v * (t1 + t2) + a * ((t1 + t2) * (t1 + t2) * 0.5)
  {
    calc {
      (p + v * t1 + a * (t1 * t1 * 0.5)) + (v + a * t1) * t2 + a * (t2 * t2 * 0.5);
      p + v * (t1 + t2) + a * (t1 * t1 * 0.5 + t1 * t2 + t2 * t2 * 0.5);
      { assert (t1 + t2) * (t1 + t2) == t1 * t1 + 2.0 * t1 * t2 + t2 * t2; }
      p + v * (t1 + t2) + a * ((t1 + t2) * (t1 + t2) * 0.5);
    }
  }

  /** Predicting over t1 and then over t2 is predicting over t1 + t2. */
  lemma PredictComposes(k: Kinematics, t1: real, t2: real)
    ensures Predict(Predict(k, t1), t2) == Predict(k, t1 + t2)
  {
    var l := Predict(Predict(k, t1), t2);
    var r := Predict(k, t1 + t2);
    assert l.position == r.position by {
      PredictAxis(k.position.x, k.velocity.x, k.acceleration.x, t1, t2);
      PredictAxis(k.position.y, k.velocity.y, k.acceleration.y, t1, t2);
      PredictAxis(k.position.z, k.velocity.z, k.acceleration.z, t1, t2);
    }
    assert l.velocity == r.velocity by {
      VelocityAxis(k.velocity.x, k.acceleration.x, t1, t2);
      VelocityAxis(k.velocity.y, k.acceleration.y, t1, t2);
      VelocityAxis(k.velocity.z, k.acceleration.z, t1, t2);
    }
  }

  lemma VelocityAxis(v: real, a: real, t1: real, t2: real)
    ensures v + a * t1 + a * t2 == v + a * (t1 + t2)
  {
  }

  /** A zero time step leaves the kinematics unchanged. */
  lemma PredictZeroStep(k: Kinematics)
    ensures Predict(k, 0.0) == k
  {
  }

  // ---------------------------------------------------------------------
  // Process noise: Q_discrete_3rd_order_white_noise / Q_discrete_2nd_order_white_noise
  // ---------------------------------------------------------------------

  /** The noise gain g = [dT*dT/2, dT, 1]; a second-order block uses its first two entries. */
  function NoiseGain(dT: real, k: nat): real
  {
    if k == 0 then dT * dT / 2.0 else if k == 1 then dT else 1.0
  }

  /** Entry (j, k) of var * g * g^T. */
  function GainProduct(variance: real, dT: real, j: nat, k: nat): real
  {
    variance * NoiseGain(dT, j) * NoiseGain(dT, k)
  }

  predicate InBlock(start: nat, width: nat, r: nat, c: nat)
  {
    start <= r < start + width && start <= c < start + width
  }

  /** Writes var * g * g^T into the 3x3 block at (i, i); every other entry of Q is unchanged. */
  method QDiscrete3rdOrderWhiteNoise(dT: real, variance: real, i: nat, Q: array2<real>)
    requires i + 3 <= Q.Length0 && i + 3 <= Q.Length1
    modifies Q
    ensures forall r, c :: 0 <= r < Q.Length0 && 0 <= c < Q.Length1 ==>
      Q[r, c] == if InBlock(i, 3, r, c) then GainProduct(variance, dT, r - i, c - i) else old(Q[r, c])
  {
    var dTSquared := dT * dT;
    var q4 := variance * dTSquared * dTSquared;
    var q3 := variance * dTSquared * dT;
    var q2 := variance * dTSquared;
    var q1 := variance * dT;
    var q0 := variance;
    assert 0.25 * q4 == GainProduct(variance, dT, 0, 0);
    assert 0.5 * q3 == GainProduct(variance, dT, 0, 1);
    assert 0.5 * q3 == GainProduct(variance, dT, 1, 0);
    assert 0.5 * q2 == GainProduct(variance, dT, 0, 2);
    assert 0.5 * q2 == GainProduct(variance, dT, 2, 0);
    Q[i, i] := 0.25 * q4;  Q[i, i + 1] := 0.5 * q3;  Q[i, i + 2] := 0.5 * q2;
    Q[i + 1, i] := 0.5 * q3;  Q[i + 1, i + 1] := q2;  Q[i + 1, i + 2] := q1;
    Q[i + 2, i] := 0.5 * q2;  Q[i + 2, i + 1] := q1;  Q[i + 2, i + 2] := q0;
  }

  /** Writes var * g * g^T into the 2x2 block at (i, i); every other entry of Q is unchanged. */
  method QDiscrete2ndOrderWhiteNoise(dT: real, variance: real, i: nat, Q: array2<real>)
    requires i + 2 <= Q.Length0 && i + 2 <= Q.Length1
    modifies Q
    ensures forall r, c :: 0 <= r < Q.Length0 && 0 <= c < Q.Length1 ==>
      Q[r, c] == if InBlock(i, 2, r, c) then GainProduct(variance, dT, r - i, c - i) else old(Q[r, c])
  {
    var dTSquared := dT * dT;
    var q4 := variance * dTSquared * dTSquared;
    var q3 := variance * dTSquared * dT;
    var q2 := variance * dTSquared;
    assert 0.25 * q4 == GainProduct(variance, dT, 0, 0);
    assert 0.5 * q3 == GainProduct(variance, dT, 0, 1);
    assert 0.5 * q3 == GainProduct(variance, dT, 1, 0);
    Q[i, i] := 0.25 * q4;  Q[i, i + 1] := 0.5 * q3;
    Q[i + 1, i] := 0.5 * q3;  Q[i + 1, i + 1] := q2;
  }

  /** The six blocks: a 3x3 block per position axis, a 2x2 block per angle-axis component. */
  function BlockStart(b: nat): (start: nat)
    requires b < 6
  {
    [PositionX, PositionY, PositionZ, AngleAxisX, AngleAxisY, AngleAxisZ][b]
  }

  function BlockWidth(b: nat): nat
  {
    if b < 3 then 3 else 2
  }

  /** The block holding slot i: the blocks are disjoint and cover every slot. */
  function BlockOf(i: nat): (b: nat)
    requires i < StateCount
    ensures b < 6 && BlockStart(b) <= i < BlockStart(b) + BlockWidth(b)
  {
    if i < PositionY then 0
    else if i < PositionZ then 1
    else if i < AngleAxisX then 2
    else if i < AngleAxisY then 3
    else if i < AngleAxisZ then 4
    else 5
  }

  /**
   * The process noise the filter sets up: within a block, the block's variance
   * times g * g^T (position variance for the position blocks, angle variance for
   * the angle-axis blocks); zero between different blocks.
   */
  function ProcessNoise(dT: real, positionVariance: real, angleVariance: real, r: nat, c: nat): real
    requires r < StateCount && c < StateCount
  {
    var b := BlockOf(r);
    if BlockOf(c) != b then 0.0
    else
      var variance := if b < 3 then positionVariance else angleVariance;
      GainProduct(variance, dT, r - BlockStart(b), c - BlockStart(b))
  }

  lemma ProcessNoiseIsSymmetric(dT: real, positionVariance: real, angleVariance: real, r: nat, c: nat)
    requires r < StateCount && c < StateCount
    ensures ProcessNoise(dT, positionVariance, angleVariance, r, c) == ProcessNoise(dT, positionVariance, angleVariance, c, r)
  {
  }

  /** An entry of Q is nonzero only inside one of the six blocks. */
  lemma ProcessNoiseOnlyInBlocks(dT: real, positionVariance: real, angleVariance: real, r: nat, c: nat)
    requires r < StateCount && c < StateCount
    requires forall b :: 0 <= b < 6 ==> !InBlock(BlockStart(b), BlockWidth(b), r, c)
    ensures ProcessNoise(dT, positionVariance, angleVariance, r, c) == 0.0
  {
    var b := BlockOf(r);
    assert !InBlock(BlockStart(b), BlockWidth(b), r, c);
  }

  /** Block b's square is exactly the set of entries whose row and column both lie in block b. */
  lemma InBlockIsSameBlock(b: nat, r: nat, c: nat)
    requires b < 6 && r < StateCount && c < StateCount
    ensures InBlock(BlockStart(b), BlockWidth(b), r, c) <==> BlockOf(r) == b && BlockOf(c) == b
  {
  }

  /**
   * The six block writes of PoseSystemModel::init and update_process_covariance:
   * every in-block entry gets its process noise and every entry between blocks
   * is left as it was.
   */
  method WriteNoiseBlocks(dT: real, positionVariance: real, angleVariance: real, Q: array2<real>)
    requires Q.Length0 == StateCount && Q.Length1 == StateCount
    modifies Q
    ensures forall r, c :: 0 <= r < StateCount && 0 <= c < StateCount ==>
      Q[r, c] == if BlockOf(r) == BlockOf(c) then ProcessNoise(dT, positionVariance, angleVariance, r, c) else old(Q[r, c])
  {
    QDiscrete3rdOrderWhiteNoise(dT, positionVariance, PositionX, Q);
    QDiscrete3rdOrderWhiteNoise(dT, positionVariance, PositionY, Q);
    QDiscrete3rdOrderWhiteNoise(dT, positionVariance, PositionZ, Q);
    QDiscrete2ndOrderWhiteNoise(dT, angleVariance, AngleAxisX, Q);
    QDiscrete2ndOrderWhiteNoise(dT, angleVariance, AngleAxisY, Q);
    QDiscrete2ndOrderWhiteNoise(dT, angleVariance, AngleAxisZ, Q);
    forall r, c | 0 <= r < StateCount && 0 <= c < StateCount
      ensures Q[r, c] == if BlockOf(r) == BlockOf(c) then ProcessNoise(dT, positionVariance, angleVariance, r, c) else old(Q[r, c])
    {
      InBlockIsSameBlock(0, r, c);
      InBlockIsSameBlock(1, r, c);
      InBlockIsSameBlock(2, r, c);
      InBlockIsSameBlock(3, r, c);
      InBlockIsSameBlock(4, r, c);
      InBlockIsSameBlock(5, r, c);
    }
  }

  /**
   * The filter's tuning constants, as far as the filter reads them. Both the
   * position and the orientation blocks of Q use the position constants'
   * mean update time delta.
   */
  datatype FilterConstants = FilterConstants(
    meanUpdateTimeDelta: real,
    minPositionVariance: real,
    maxPositionVariance: real,
    minOrientationVariance: real,
    maxOrientationVariance: real,
    magnetometerVariance: real)

  function Clamp01(u: real): (t: real)
    ensures 0.0 <= t <= 1.0
  {
    if u < 0.0 then 0.0 else if u > 1.0 then 1.0 else u
  }

  /** The interpolation a + (b - a) * t behind lerp_clampf. */
  function Lerp(a: real, b: real, t: real): real
  {
    a + (b - a) * t
  }

  lemma LerpBetween(a: real, b: real, t: real)
    requires 0.0 <= t <= 1.0
    ensures t == 0.0 ==> Lerp(a, b, t) == a
    ensures t == 1.0 ==> Lerp(a, b, t) == b
    ensures a <= b ==> a <= Lerp(a, b, t) <= b
    ensures b <= a ==> b <= Lerp(a, b, t) <= a
    decreases if a <= b then 0 else 1
  {
    if a <= b {
      // Lerp(a, b, t) == (1 - t) * a + t * b, a weighted mean of a and b
      var s := 1.0 - t;
      assert Lerp(a, b, t) == s * a + t * b;
      assert s * a + t * a == a && s * b + t * b == b;
      assert s * a <= s * b;
      assert t * a <= t * b;
    } else {
      // interpolating from b back to a
      assert Lerp(a, b, t) == Lerp(b, a, 1.0 - t);
      LerpBetween(b, a, 1.0 - t);
    }
  }

  /** lerp_clampf: from a at quality 0 to b at quality 1, and never outside [a, b]. */
  function LerpClamp(a: real, b: real, u: real): (r: real)
    ensures u <= 0.0 ==> r == a
    ensures u >= 1.0 ==> r == b
    ensures a <= b ==> a <= r <= b
    ensures b <= a ==> b <= r <= a
  {
    var t := Clamp01(u);
    LerpBetween(a, b, t);
    Lerp(a, b, t)
  }

  /** PoseSystemModel::init: Q starts at zero and the six blocks get the maximum variances. */
  method InitProcessCovariance(c: FilterConstants) returns (Q: array2<real>)
    ensures fresh(Q) && Q.Length0 == StateCount && Q.Length1 == StateCount
    ensures forall r, col :: 0 <= r < StateCount && 0 <= col < StateCount ==>
      Q[r, col] == ProcessNoise(c.meanUpdateTimeDelta, c.maxPositionVariance, c.maxOrientationVariance, r, col)
  {
    Q := new real[StateCount, StateCount]((_, _) => 0.0);
    WriteNoiseBlocks(c.meanUpdateTimeDelta, c.maxPositionVariance, c.maxOrientationVariance, Q);
  }

  /**
   * PoseSystemModel::update_process_covariance: the six blocks get the
   * variances interpolated by the qualities; entries between blocks keep their
   * values.
   */
  method UpdateProcessCovariance(c: FilterConstants, positionQuality: real, orientationQuality: real, Q: array2<real>)
    requires Q.Length0 == StateCount && Q.Length1 == StateCount
    modifies Q
    ensures forall r, col :: 0 <= r < StateCount && 0 <= col < StateCount ==>
      Q[r, col] == if BlockOf(r) == BlockOf(col) then
        ProcessNoise(c.meanUpdateTimeDelta,
                     LerpClamp(c.maxPositionVariance, c.minPositionVariance, positionQuality),
                     LerpClamp(c.maxOrientationVariance, c.minOrientationVariance, orientationQuality), r, col)
      else old(Q[r, col])
  {
    var positionVariance := LerpClamp(c.maxPositionVariance, c.minPositionVariance, positionQuality);
    var angleVariance := LerpClamp(c.maxOrientationVariance, c.minOrientationVariance, orientationQuality);
    WriteNoiseBlocks(c.meanUpdateTimeDelta, positionVariance, angleVariance, Q);
  }

  // ---------------------------------------------------------------------
  // Unscented transform: PoseSRUFK::computeSigmaWeights / computeSigmaPoints
  // ---------------------------------------------------------------------

  /** k_ukf_alpha, k_ukf_beta, k_ukf_kappa. */
  const UkfAlpha: real := 1.0
  const UkfBeta: real := 2.0
  const UkfKappa: real := -1.0

  /** The scaling parameter: alpha^2 * (L + kappa) - L. */
  function Lambda(alpha: real, kappa: real, n: nat): real
  {
    alpha * alpha * (n as real + kappa) - n as real
  }

  function Sum(s: seq<real>): real
  {
    if |s| == 0 then 0.0 else s[0] + Sum(s[1..])
  }

  lemma {:induction false} SumOfConstant(s: seq<real>, w: real)
    requires forall i :: 0 <= i < |s| ==> s[i] == w
    ensures Sum(s) == |s| as real * w
  {
    if |s| > 0 {
      SumOfConstant(s[1..], w);
    }
  }

  /**
   * The mean weights of the unscented transform sum to one: the centre weight
   * lambda / (L + lambda) and 2L outer weights 1 / (2 alpha^2 (L + kappa)).
   */
  lemma MeanWeightsSumToOne(alpha: real, kappa: real, n: nat, w: seq<real>)
    requires n as real + Lambda(alpha, kappa, n) != 0.0
    requires alpha * alpha * (n as real + kappa) > 0.0
    requires |w| == 2 * n + 1
    requires w[0] == Lambda(alpha, kappa, n) / (n as real + Lambda(alpha, kappa, n))
    requires forall i :: 1 <= i < |w| ==> w[i] == 1.0 / (2.0 * alpha * alpha * (n as real + kappa))
    ensures Sum(w) == 1.0
  {
    var d := alpha * alpha * (n as real + kappa);
    var wi := 1.0 / (2.0 * d);
    assert n as real + Lambda(alpha, kappa, n) == d;
    SumOfConstant(w[1..], wi);
    assert Sum(w[1..]) == (2 * n) as real * wi;
    assert (2 * n) as real * wi == n as real / d;
    assert Lambda(alpha, kappa, n) / d + n as real / d == (Lambda(alpha, kappa, n) + n as real) / d;
  }

  /** With the filter's alpha = 1, beta = 2, kappa = -1 and L = 15: lambda = -1, W_m0 = -1/14, W_c0 = 27/14, W_i = 1/28. */
  lemma FilterSigmaWeights()
    ensures Lambda(UkfAlpha, UkfKappa, StateCount) == -1.0
    ensures Lambda(UkfAlpha, UkfKappa, StateCount) / (StateCount as real + Lambda(UkfAlpha, UkfKappa, StateCount)) == -1.0 / 14.0
    ensures -1.0 / 14.0 + (1.0 - UkfAlpha * UkfAlpha + UkfBeta) == 27.0 / 14.0
    ensures 1.0 / (2.0 * UkfAlpha * UkfAlpha * (StateCount as real + UkfKappa)) == 1.0 / 28.0
  {
  }

  /**
   * computeSigmaWeights: the centre mean and covariance weights and the 2L
   * equal outer weights, which make the mean weights sum to one. The three
   * requirements are the asserts guarding the divisions and the square root.
   */
  method ComputeSigmaWeights(alpha: real, beta: real, kappa: real, n: nat) returns (lambda: real, weightsM: array<real>, weightsC: array<real>)
    requires n as real + Lambda(alpha, kappa, n) != 0.0
    requires n as real + kappa != 0.0
    requires alpha * alpha * (n as real + kappa) > 0.0
    ensures fresh(weightsM) && fresh(weightsC)
    ensures lambda == Lambda(alpha, kappa, n)
    ensures weightsM.Length == 2 * n + 1 && weightsC.Length == 2 * n + 1
    ensures weightsM[0] == lambda / (n as real + lambda)
    ensures weightsC[0] == weightsM[0] + (1.0 - alpha * alpha + beta)
    ensures forall i :: 1 <= i < 2 * n + 1 ==>
      weightsM[i] == 1.0 / (2.0 * alpha * alpha * (n as real + kappa)) && weightsC[i] == weightsM[i]
    ensures Sum(weightsM[..]) == 1.0
  {
    var L := n as real;
    lambda := alpha * alpha * (L + kappa) - L;
    var wm0 := lambda / (L + lambda);
    var wc0 := wm0 + (1.0 - alpha * alpha + beta);
    var wi := 1.0 / (2.0 * alpha * alpha * (L + kappa));
    weightsM := new real[2 * n + 1];
    weightsC := new real[2 * n + 1];
    weightsM[0] := wm0;
    weightsC[0] := wc0;
    var pointIndex := 1;
    while pointIndex < 2 * n + 1
      invariant 1 <= pointIndex <= 2 * n + 1
      invariant weightsM[0] == wm0 && weightsC[0] == wc0
      invariant forall i :: 1 <= i < pointIndex ==> weightsM[i] == wi && weightsC[i] == wi
    {
      weightsM[pointIndex] := wi;
      weightsC[pointIndex] := wi;
      pointIndex := pointIndex + 1;
    }
    MeanWeightsSumToOne(alpha, kappa, n, weightsM[..]);
  }

  /** Where a sigma point comes from: the state mean, or the mean moved by plus or minus gamma times a column of S. */
  datatype SigmaSource = StateMean | PlusColumn(column: int) | MinusColumn(column: int)

  predicate ReadsColumn(p: SigmaSource, j: int)
  {
    (p.PlusColumn? && p.column == j) || (p.MinusColumn? && p.column == j)
  }

  /**
   * computeSigmaPoints as written: sigma point k and sigma point k + L both
   * use column k of the L-column square root S, for k = 1..L. The last pair
   * reads column L, which S does not have, and column 0 is never used.
   */
  method ComputeSigmaPointsAsWritten(n: nat) returns (points: array<SigmaSource>)
    ensures fresh(points) && points.Length == 2 * n + 1
    ensures points[0] == StateMean
    ensures forall k :: 1 <= k <= n ==> points[k] == PlusColumn(k) && points[k + n] == MinusColumn(k)
    ensures n > 0 ==> ReadsColumn(points[n], n) && ReadsColumn(points[2 * n], n)
    ensures forall k :: 0 <= k < points.Length ==> !ReadsColumn(points[k], 0)
  {
    points := new SigmaSource[2 * n + 1](_ => StateMean);
    var colIndex := 1;
    while colIndex <= n
      invariant 1 <= colIndex <= n + 1
      invariant points[0] == StateMean
      invariant forall k :: 1 <= k < colIndex ==> points[k] == PlusColumn(k)
      invariant forall k :: n + 1 <= k < n + colIndex ==> points[k] == MinusColumn(k - n)
      invariant forall k :: colIndex <= k <= n ==> points[k] == StateMean
      invariant forall k :: n + colIndex <= k <= 2 * n ==> points[k] == StateMean
    {
      points[colIndex] := PlusColumn(colIndex);
      points[colIndex + n] := MinusColumn(colIndex);
      colIndex := colIndex + 1;
    }
  }

  /**
   * computeSigmaPoints with the column read corrected: sigma points k and
   * k + L use column k - 1 of S with opposite signs, so every column of S is
   * used exactly once with each sign and no column outside S is read.
   */
  method ComputeSigmaPoints(n: nat) returns (points: array<SigmaSource>)
    ensures fresh(points) && points.Length == 2 * n + 1
    ensures points[0] == StateMean
    ensures forall j :: 0 <= j < n ==> points[j + 1] == PlusColumn(j) && points[j + 1 + n] == MinusColumn(j)
    ensures forall k, j :: 0 <= k < points.Length && ReadsColumn(points[k], j) ==> 0 <= j < n
  {
    points := new SigmaSource[2 * n + 1](_ => StateMean);
    var colIndex := 1;
    while colIndex <= n
      invariant 1 <= colIndex <= n + 1
      invariant points[0] == StateMean
      invariant forall k :: 1 <= k < colIndex ==> points[k] == PlusColumn(k - 1)
      invariant forall k :: n + 1 <= k < n + colIndex ==> points[k] == MinusColumn(k - n - 1)
      invariant forall k :: colIndex <= k <= n ==> points[k] == StateMean
      invariant forall k :: n + colIndex <= k <= 2 * n ==> points[k] == StateMean
    {
      points[colIndex] := PlusColumn(colIndex - 1);
      points[colIndex + n] := MinusColumn(colIndex - 1);
      colIndex := colIndex + 1;
    }
  }

  // ---------------------------------------------------------------------
  // Measurement covariance R (kept as its diagonal: every write is diagonal
  // and R starts from zero)
  // ---------------------------------------------------------------------

  const ZeroMeasurement: seq<real> := [0.0, 0.0, 0.0, 0.0, 0.0, 0.0, 0.0, 0.0, 0.0, 0.0, 0.0, 0.0]

  function SetPSMove(s: seq<real>, q: PSMoveQuantity, v: real): (r: seq<real>)
    requires |s| == PSMoveMeasurementCount
    ensures |r| == PSMoveMeasurementCount
    ensures forall a :: r[PSMoveIndex(q, a)] == v
    ensures forall i :: 0 <= i < |s| && i != PSMoveIndex(q, X) && i != PSMoveIndex(q, Y) && i != PSMoveIndex(q, Z) ==> r[i] == s[i]
  {
    Set3(s, PSMoveIndex(q, X), PSMoveIndex(q, Y), PSMoveIndex(q, Z), Vec3(v, v, v))
  }

  function SetDS4(s: seq<real>, q: DS4Quantity, v: real): (r: seq<real>)
    requires |s| == DS4MeasurementCount
    ensures |r| == DS4MeasurementCount
    ensures forall a :: r[DS4Index(q, a)] == v
    ensures forall i :: 0 <= i < |s| && i != DS4Index(q, X) && i != DS4Index(q, Y) && i != DS4Index(q, Z) ==> r[i] == s[i]
  {
    Set3(s, DS4Index(q, X), DS4Index(q, Y), DS4Index(q, Z), Vec3(v, v, v))
  }

  function PSMoveInitialVariance(c: FilterConstants, q: PSMoveQuantity): real
  {
    match q
    case PSMoveOpticalPosition => c.maxPositionVariance
    case PSMoveMagnetometer => c.magnetometerVariance
    case _ => 0.0
  }

  /** PSMove_MeasurementModel::init: position variance on the optical-position slots, magnetometer variance on the magnetometer slots, zero elsewhere. */
  function PSMoveInitialCovariance(c: FilterConstants): (r: seq<real>)
    ensures |r| == PSMoveMeasurementCount
    ensures forall q, a :: r[PSMoveIndex(q, a)] == PSMoveInitialVariance(c, q)
  {
    var r := SetPSMove(SetPSMove(ZeroMeasurement, PSMoveOpticalPosition, c.maxPositionVariance), PSMoveMagnetometer, c.magnetometerVariance);
    assert forall q, a :: q != PSMoveOpticalPosition && q != PSMoveMagnetometer ==> r[PSMoveIndex(q, a)] == 0.0 by {
      MeasurementIndicesAreInjective(PSMoveAccelerometer, PSMoveAccelerometer, DS4Accelerometer, DS4Accelerometer, X, X);
    }
    r
  }

  /** PSMove_MeasurementModel::update_measurement_covariance: only diagonal entries 9..11, the optical position, change. */
  function PSMoveUpdatedCovariance(R: seq<real>, c: FilterConstants, positionQuality: real): (r: seq<real>)
    requires |R| == PSMoveMeasurementCount
    ensures |r| == PSMoveMeasurementCount
    ensures forall i :: PSMoveOpticalPositionX <= i < PSMoveOpticalPositionX + 3 ==>
      r[i] == PositionVariance(c, positionQuality)
    ensures forall i :: 0 <= i < PSMoveOpticalPositionX ==> r[i] == R[i]
  {
    var r := SetPSMove(R, PSMoveOpticalPosition, PositionVariance(c, positionQuality));
    assert r[PSMoveOpticalPositionX] == r[PSMoveIndex(PSMoveOpticalPosition, X)];
    assert r[PSMoveOpticalPositionX + 1] == r[PSMoveIndex(PSMoveOpticalPosition, Y)];
    assert r[PSMoveOpticalPositionX + 2] == r[PSMoveIndex(PSMoveOpticalPosition, Z)];
    r
  }

  /** The variances the measurement models interpolate from the qualities. */
  function PositionVariance(c: FilterConstants, quality: real): real
  {
    LerpClamp(c.maxPositionVariance, c.minPositionVariance, quality)
  }

  function AngleVariance(c: FilterConstants, quality: real): real
  {
    LerpClamp(c.maxOrientationVariance, c.minOrientationVariance, quality)
  }

  function DS4Variance(c: FilterConstants, positionQuality: real, orientationQuality: real, q: DS4Quantity): real
  {
    match q
    case DS4OpticalPosition => PositionVariance(c, positionQuality)
    case DS4OpticalAngleAxis => AngleVariance(c, orientationQuality)
    case _ => 0.0
  }

  /**
   * DS4_MeasurementModel::update_measurement_covariance as written: R is
   * rebuilt from zero, the position variance goes to the PSMove
   * optical-position slots (the DS4 angle-axis slots) and is then overwritten
   * by the angle variance, so the DS4 optical-position slots stay zero.
   */
  function DS4CovarianceAsWritten(c: FilterConstants, positionQuality: real, orientationQuality: real): (r: seq<real>)
    ensures |r| == DS4MeasurementCount
    ensures forall q, a :: r[DS4Index(q, a)] == if q == DS4OpticalAngleAxis then AngleVariance(c, orientationQuality) else 0.0
  {
    var positionVariance := PositionVariance(c, positionQuality);
    var angleVariance := AngleVariance(c, orientationQuality);
    var written := Set3(ZeroMeasurement, PSMoveIndex(PSMoveOpticalPosition, X), PSMoveIndex(PSMoveOpticalPosition, Y),
                        PSMoveIndex(PSMoveOpticalPosition, Z), Vec3(positionVariance, positionVariance, positionVariance));
    SetDS4(written, DS4OpticalAngleAxis, angleVariance)
  }

  /** DS4_MeasurementModel::update_measurement_covariance with the DS4 indices: position variance on the optical-position slots. */
  function DS4Covariance(c: FilterConstants, positionQuality: real, orientationQuality: real): (r: seq<real>)
    ensures |r| == DS4MeasurementCount
    ensures forall q, a :: r[DS4Index(q, a)] == DS4Variance(c, positionQuality, orientationQuality, q)
  {
    var positionVariance := PositionVariance(c, positionQuality);
    var angleVariance := AngleVariance(c, orientationQuality);
    var r := SetDS4(SetDS4(ZeroMeasurement, DS4OpticalPosition, positionVariance), DS4OpticalAngleAxis, angleVariance);
    assert forall q, a :: q != DS4OpticalPosition && q != DS4OpticalAngleAxis ==> r[DS4Index(q, a)] == 0.0 by {
      MeasurementIndicesAreInjective(PSMoveAccelerometer, PSMoveAccelerometer, DS4Accelerometer, DS4Accelerometer, X, X);
    }
    r
  }

  /** As written, the DS4 measurement covariance does not depend on the optical position quality at all. */
  lemma DS4CovarianceAsWrittenIgnoresPositionQuality(c: FilterConstants, quality1: real, quality2: real, orientationQuality: real)
    ensures DS4CovarianceAsWritten(c, quality1, orientationQuality) == DS4CovarianceAsWritten(c, quality2, orientationQuality)
  {
    var r1 := DS4CovarianceAsWritten(c, quality1, orientationQuality);
    var r2 := DS4CovarianceAsWritten(c, quality2, orientationQuality);
    forall i | 0 <= i < DS4MeasurementCount
      ensures r1[i] == r2[i]
    {
      var slot := if i < DS4GyroscopeX then DS4Accelerometer
                  else if i < DS4OpticalPositionX then DS4Gyroscope
                  else if i < DS4OpticalAngleAxisX then DS4OpticalPosition
                  else DS4OpticalAngleAxis;
      var axis := if i % 3 == 0 then X else if i % 3 == 1 then Y else Z;
      assert DS4Index(slot, axis) == i;
    }
  }

  /** The as-written and corrected DS4 covariances differ only on the optical-position slots, which the code leaves at zero. */
  lemma DS4CovarianceDiffersOnlyInPosition(c: FilterConstants, positionQuality: real, orientationQuality: real)
    ensures forall q, a :: q != DS4OpticalPosition ==>
      DS4CovarianceAsWritten(c, positionQuality, orientationQuality)[DS4Index(q, a)] == DS4Covariance(c, positionQuality, orientationQuality)[DS4Index(q, a)]
    ensures forall a :: DS4CovarianceAsWritten(c, positionQuality, orientationQuality)[DS4Index(DS4OpticalPosition, a)] == 0.0
  {
  }
}
