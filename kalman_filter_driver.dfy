/**
 * Filter/KalmanPoseFilter: the filter driver. KalmanPoseFilterDS4 and
 * PSMovePoseKalmanFilter keep a validity flag, the state vector, the reset
 * orientation and the origin position, and the system and measurement models
 * they hand to the unscented Kalman filter.
 *
 * The unscented predict and update steps, the measurement function h and the
 * quaternion/angle-axis conversions are Eigen numerics and are parameters
 * here: `predicted` is the measurement h predicts for the predicted state,
 * `estimate` is the state the UKF update returns, and orientations arrive as
 * the angle-axis vector the state stores (the zero vector is the identity).
 * What the driver hands to the UKF is returned as a `UkfStep`: the time step
 * the prediction runs with and the measurement vector of the update.
 */
module KalmanFilterDriver {
  import opened Wrappers
  import opened KalmanPoseFilter

  // ---------------------------------------------------------------------
  // Quaternions (only what the getters and recentering combine)
  // ---------------------------------------------------------------------

  datatype Quaternion = Quaternion(w: real, x: real, y: real, z: real)

  const Identity: Quaternion := Quaternion(1.0, 0.0, 0.0, 0.0)

  /** The Hamilton product p * q. */
  function Multiply(p: Quaternion, q: Quaternion): Quaternion
  {
    Quaternion(
      p.w * q.w - p.x * q.x - p.y * q.y - p.z * q.z,
      p.w * q.x + p.x * q.w + p.y * q.z - p.z * q.y,
      p.w * q.y - p.x * q.z + p.y * q.w + p.z * q.x,
      p.w * q.z + p.x * q.y - p.y * q.x + p.z * q.w)
  }

  function Conjugate(q: Quaternion): Quaternion
  {
    Quaternion(q.w, -q.x, -q.y, -q.z)
  }

  function NormSquared(q: Quaternion): real
  {
    q.w * q.w + q.x * q.x + q.y * q.y + q.z * q.z
  }

  lemma IdentityIsNeutral(q: Quaternion)
    ensures Multiply(Identity, q) == q && Multiply(q, Identity) == q
  {
  }

  /** conj(q) * q is the real quaternion |q|^2, so a unit quaternion's conjugate undoes it. */
  lemma ConjugateCancels(q: Quaternion)
    ensures Multiply(Conjugate(q), q) == Quaternion(NormSquared(q), 0.0, 0.0, 0.0)
  {
    assert q.w * q.x + (-q.x) * q.w + (-q.y) * q.z - (-q.z) * q.y == 0.0;
    assert q.w * q.y - (-q.x) * q.z + (-q.y) * q.w + (-q.z) * q.x == 0.0;
    assert q.w * q.z + (-q.x) * q.y - (-q.y) * q.x + (-q.z) * q.w == 0.0;
  }

  /** FLT_EPSILON, 2^-23: is_nearly_zero(x) holds when |x| is at most this. */
  const RealEpsilon: real := 1.0 / 8388608.0

  predicate IsNearlyZero(x: real)
  {
    -RealEpsilon <= x <= RealEpsilon
  }

  // ---------------------------------------------------------------------
  // Packets and measurement vectors
  // ---------------------------------------------------------------------

  /**
   * PoseFilterPacket: the optical position in centimeters, the optical
   * orientation as its angle-axis vector, their qualities, and the IMU readings.
   */
  datatype PoseFilterPacket = PoseFilterPacket(
    opticalPosition: Vec3,
    opticalPositionQuality: real,
    opticalOrientation: Vec3,
    opticalOrientationQuality: real,
    imuAccelerometer: Vec3,
    imuGyroscope: Vec3,
    imuMagnetometer: Vec3)

  function GetPSMove(m: seq<real>, q: PSMoveQuantity): Vec3
    requires |m| == PSMoveMeasurementCount
  {
    Get3(m, PSMoveIndex(q, X), PSMoveIndex(q, Y), PSMoveIndex(q, Z))
  }

  function WithPSMove(m: seq<real>, q: PSMoveQuantity, v: Vec3): (r: seq<real>)
    requires |m| == PSMoveMeasurementCount
    ensures |r| == PSMoveMeasurementCount
    ensures GetPSMove(r, q) == v
    ensures forall p :: p != q ==> GetPSMove(r, p) == GetPSMove(m, p)
  {
    Set3(m, PSMoveIndex(q, X), PSMoveIndex(q, Y), PSMoveIndex(q, Z), v)
  }

  function GetDS4(m: seq<real>, q: DS4Quantity): Vec3
    requires |m| == DS4MeasurementCount
  {
    Get3(m, DS4Index(q, X), DS4Index(q, Y), DS4Index(q, Z))
  }

  function WithDS4(m: seq<real>, q: DS4Quantity, v: Vec3): (r: seq<real>)
    requires |m| == DS4MeasurementCount
    ensures |r| == DS4MeasurementCount
    ensures GetDS4(r, q) == v
    ensures forall p :: p != q ==> GetDS4(r, p) == GetDS4(m, p)
  {
    Set3(m, DS4Index(q, X), DS4Index(q, Y), DS4Index(q, Z), v)
  }

  /**
   * The measurement KalmanPoseFilterDS4::update hands to the UKF: the IMU
   * readings always, the optical orientation when its quality is positive, the
   * optical position converted to meters when its quality is positive, and the
   * prediction h made for every slot left over.
   */
  function DS4Measurement(predicted: seq<real>, packet: PoseFilterPacket): (m: seq<real>)
    requires |predicted| == DS4MeasurementCount
    ensures |m| == DS4MeasurementCount
    ensures GetDS4(m, DS4Accelerometer) == packet.imuAccelerometer
    ensures GetDS4(m, DS4Gyroscope) == packet.imuGyroscope
    ensures GetDS4(m, DS4OpticalAngleAxis) ==
      if packet.opticalOrientationQuality > 0.0 then packet.opticalOrientation else GetDS4(predicted, DS4OpticalAngleAxis)
    ensures GetDS4(m, DS4OpticalPosition) ==
      if packet.opticalPositionQuality > 0.0 then Scale(packet.opticalPosition, CentimetersToMeters)
      else GetDS4(predicted, DS4OpticalPosition)
  {
    var m0 := WithDS4(WithDS4(predicted, DS4Accelerometer, packet.imuAccelerometer), DS4Gyroscope, packet.imuGyroscope);
    var m1 := if packet.opticalOrientationQuality > 0.0 then WithDS4(m0, DS4OpticalAngleAxis, packet.opticalOrientation) else m0;
    if packet.opticalPositionQuality > 0.0 then WithDS4(m1, DS4OpticalPosition, Scale(packet.opticalPosition, CentimetersToMeters)) else m1
  }

  /**
   * The measurement PSMovePoseKalmanFilter::update hands to the UKF as
   * written: the IMU readings always, and the optical position when its
   * quality is positive, still in centimeters although h predicts meters.
   */
  function PSMoveMeasurementAsWritten(predicted: seq<real>, packet: PoseFilterPacket): (m: seq<real>)
    requires |predicted| == PSMoveMeasurementCount
    ensures |m| == PSMoveMeasurementCount
    ensures GetPSMove(m, PSMoveAccelerometer) == packet.imuAccelerometer
    ensures GetPSMove(m, PSMoveGyroscope) == packet.imuGyroscope
    ensures GetPSMove(m, PSMoveMagnetometer) == packet.imuMagnetometer
    ensures GetPSMove(m, PSMoveOpticalPosition) ==
      if packet.opticalPositionQuality > 0.0 then packet.opticalPosition else GetPSMove(predicted, PSMoveOpticalPosition)
  {
    var m0 := WithPSMove(WithPSMove(WithPSMove(predicted, PSMoveAccelerometer, packet.imuAccelerometer),
                                    PSMoveGyroscope, packet.imuGyroscope),
                         PSMoveMagnetometer, packet.imuMagnetometer);
    if packet.opticalPositionQuality > 0.0 then WithPSMove(m0, PSMoveOpticalPosition, packet.opticalPosition) else m0
  }

  /** The PSMove measurement with the optical position converted to meters, as the DS4 path does. */
  function PSMoveMeasurement(predicted: seq<real>, packet: PoseFilterPacket): (m: seq<real>)
    requires |predicted| == PSMoveMeasurementCount
    ensures |m| == PSMoveMeasurementCount
    ensures GetPSMove(m, PSMoveAccelerometer) == packet.imuAccelerometer
    ensures GetPSMove(m, PSMoveGyroscope) == packet.imuGyroscope
    ensures GetPSMove(m, PSMoveMagnetometer) == packet.imuMagnetometer
    ensures GetPSMove(m, PSMoveOpticalPosition) ==
      if packet.opticalPositionQuality > 0.0 then Scale(packet.opticalPosition, CentimetersToMeters)
      else GetPSMove(predicted, PSMoveOpticalPosition)
  {
    var m0 := WithPSMove(WithPSMove(WithPSMove(predicted, PSMoveAccelerometer, packet.imuAccelerometer),
                                    PSMoveGyroscope, packet.imuGyroscope),
                         PSMoveMagnetometer, packet.imuMagnetometer);
    if packet.opticalPositionQuality > 0.0 then WithPSMove(m0, PSMoveOpticalPosition, Scale(packet.opticalPosition, CentimetersToMeters)) else m0
  }

  /**
   * When the camera sees the controller exactly where the filter predicts it,
   * the corrected PSMove measurement agrees with h's prediction, while the
   * measurement as written is 100 times the predicted position.
   */
  lemma PSMoveOpticalPositionUnits(predicted: seq<real>, packet: PoseFilterPacket)
    requires |predicted| == PSMoveMeasurementCount
    requires packet.opticalPositionQuality > 0.0
    requires GetPSMove(predicted, PSMoveOpticalPosition) == Scale(packet.opticalPosition, CentimetersToMeters)
    ensures GetPSMove(PSMoveMeasurement(predicted, packet), PSMoveOpticalPosition) == GetPSMove(predicted, PSMoveOpticalPosition)
    ensures GetPSMove(PSMoveMeasurementAsWritten(predicted, packet), PSMoveOpticalPosition) ==
      Scale(GetPSMove(predicted, PSMoveOpticalPosition), MetersToCentimeters)
  {
    var p := packet.opticalPosition;
    assert Scale(Scale(p, CentimetersToMeters), MetersToCentimeters) == p;
  }

  // ---------------------------------------------------------------------
  // Bootstrapping an invalid filter from the first optical fix
  // ---------------------------------------------------------------------

  /** The state after setZero, set_position(optical position in meters) and set_quaternion(orientation). */
  function BootstrapState(packet: PoseFilterPacket, orientation: Vec3): (s: seq<real>)
    ensures |s| == StateCount
    ensures GetState(s, Position) == Scale(packet.opticalPosition, CentimetersToMeters)
    ensures GetState(s, AngleAxis) == orientation
    ensures forall q :: q != Position && q != AngleAxis ==> GetState(s, q) == Zero3
  {
    ZeroStateIsZero(LinearVelocity);
    ZeroStateIsZero(LinearAcceleration);
    ZeroStateIsZero(AngularVelocity);
    SetState(SetState(ZeroState, Position, Scale(packet.opticalPosition, CentimetersToMeters)), AngleAxis, orientation)
  }

  /**
   * The DS4 bootstrap orientation as written: the inner test re-tests the
   * position quality, so on the bootstrap path (position quality positive)
   * the optical orientation is always taken, whatever its quality.
   */
  function DS4BootstrapOrientationAsWritten(packet: PoseFilterPacket): Vec3
  {
    if packet.opticalPositionQuality > 0.0 then packet.opticalOrientation else Zero3
  }

  /** The DS4 bootstrap orientation with the orientation quality tested: identity when there is none. */
  function DS4BootstrapOrientation(packet: PoseFilterPacket): (v: Vec3)
    ensures packet.opticalOrientationQuality > 0.0 ==> v == packet.opticalOrientation
    ensures packet.opticalOrientationQuality <= 0.0 ==> v == Zero3
  {
    if packet.opticalOrientationQuality > 0.0 then packet.opticalOrientation else Zero3
  }

  /** On the bootstrap path the identity branch of the as-written DS4 code cannot be taken. */
  lemma DS4BootstrapIgnoresOrientationQuality(packet: PoseFilterPacket)
    requires packet.opticalPositionQuality > 0.0
    ensures DS4BootstrapOrientationAsWritten(packet) == packet.opticalOrientation
    ensures packet.opticalOrientationQuality <= 0.0 && packet.opticalOrientation != Zero3 ==>
      DS4BootstrapOrientationAsWritten(packet) != DS4BootstrapOrientation(packet)
  {
  }

  // ---------------------------------------------------------------------
  // Pose getters
  // ---------------------------------------------------------------------

  /** getVelocity: the state's linear velocity in centimeters per second. */
  function Velocity(s: seq<real>): Vec3
    requires |s| == StateCount
  {
    Scale(GetState(s, LinearVelocity), MetersToCentimeters)
  }

  /** getAcceleration: the state's linear acceleration in centimeters per second squared. */
  function Acceleration(s: seq<real>): Vec3
    requires |s| == StateCount
  {
    Scale(GetState(s, LinearAcceleration), MetersToCentimeters)
  }

  /**
   * getPosition as written, in centimeters: zero while the filter is invalid;
   * otherwise the state position, extrapolated by getVelocity() * time unless
   * time is nearly zero, minus the origin. getVelocity is already in
   * centimeters per second, so the extrapolation adds centimeters to meters.
   */
  function PositionAsWritten(isValid: bool, s: seq<real>, origin: Vec3, time: real): Vec3
    requires |s| == StateCount
  {
    if !isValid then Zero3
    else
      var statePosition := GetState(s, Position);
      var predicted := if IsNearlyZero(time) then statePosition else Add(statePosition, Scale(Velocity(s), time));
      Scale(Sub(predicted, origin), MetersToCentimeters)
  }

  /** getPosition with the extrapolation in meters: the position linear motion reaches after time, relative to the origin, in centimeters. */
  function PositionAt(isValid: bool, s: seq<real>, origin: Vec3, time: real): (p: Vec3)
    requires |s| == StateCount
    ensures !isValid ==> p == Zero3
    ensures isValid && IsNearlyZero(time) ==> p == Scale(Sub(GetState(s, Position), origin), MetersToCentimeters)
  {
    if !isValid then Zero3
    else
      var statePosition := GetState(s, Position);
      var predicted := if IsNearlyZero(time) then statePosition else Add(statePosition, Scale(GetState(s, LinearVelocity), time));
      Scale(Sub(predicted, origin), MetersToCentimeters)
  }

  /**
   * Without acceleration, the corrected getter extrapolates exactly as the
   * process model predicts: the position of Predict over time.
   */
  lemma PositionAtFollowsProcessModel(s: seq<real>, origin: Vec3, time: real)
    requires |s| == StateCount
    requires GetState(s, LinearAcceleration) == Zero3
    requires !IsNearlyZero(time)
    ensures PositionAt(true, s, origin, time) == Scale(Sub(Predict(KinematicsOf(s), time).position, origin), MetersToCentimeters)
  {
  }

  /**
   * As written, an extrapolated position overshoots by 99 * velocity * time
   * meters, reported as 9900 * velocity * time centimeters.
   */
  lemma PositionAsWrittenOvershoots(s: seq<real>, origin: Vec3, time: real)
    requires |s| == StateCount
    requires !IsNearlyZero(time)
    ensures PositionAsWritten(true, s, origin, time) ==
      Add(PositionAt(true, s, origin, time), Scale(GetState(s, LinearVelocity), 9900.0 * time))
  {
    var v := GetState(s, LinearVelocity);
    var p := GetState(s, Position);
    assert Scale(Velocity(s), time) == Scale(v, 100.0 * time);
    assert Scale(Sub(Add(p, Scale(v, 100.0 * time)), origin), 100.0) ==
      Add(Scale(Sub(Add(p, Scale(v, time)), origin), 100.0), Scale(v, 9900.0 * time));
  }

  /** Without extrapolation the two getters agree. */
  lemma PositionAsWrittenWithoutExtrapolation(isValid: bool, s: seq<real>, origin: Vec3, time: real)
    requires |s| == StateCount
    requires IsNearlyZero(time)
    ensures PositionAsWritten(isValid, s, origin, time) == PositionAt(isValid, s, origin, time)
  {
  }

  /**
   * getOrientation without extrapolation: the identity while the filter is
   * invalid, otherwise the reset orientation applied to the state's orientation.
   */
  function OrientationAt(isValid: bool, resetOrientation: Quaternion, stateOrientation: Quaternion): Quaternion
  {
    if isValid then Multiply(resetOrientation, stateOrientation) else Identity
  }

  /** getOrientation is the identity while the filter is invalid, and the state's orientation until a recenter sets a reset orientation. */
  lemma OrientationBeforeRecenter(isValid: bool, stateOrientation: Quaternion)
    ensures OrientationAt(false, Identity, stateOrientation) == Identity
    ensures OrientationAt(true, Identity, stateOrientation) == stateOrientation
  {
    IdentityIsNeutral(stateOrientation);
  }

  /**
   * The reset orientation recenterState stores: the conjugate of what
   * getOrientation reports now (the identity while the filter is invalid).
   */
  function RecenteredReset(isValid: bool, resetOrientation: Quaternion, stateOrientation: Quaternion): Quaternion
  {
    if isValid then Conjugate(Multiply(resetOrientation, stateOrientation)) else Identity
  }

  lemma RecenteredResetIsConjugate(isValid: bool, resetOrientation: Quaternion, stateOrientation: Quaternion)
    ensures RecenteredReset(isValid, resetOrientation, stateOrientation) == Conjugate(OrientationAt(isValid, resetOrientation, stateOrientation))
  {
  }

  /**
   * Recentering from the identity reset orientation with a unit state
   * orientation makes getOrientation report the identity.
   */
  lemma RecenterFacesForward(stateOrientation: Quaternion)
    requires NormSquared(stateOrientation) == 1.0
    ensures OrientationAt(true, RecenteredReset(true, Identity, stateOrientation), stateOrientation) == Identity
  {
    IdentityIsNeutral(stateOrientation);
    ConjugateCancels(stateOrientation);
  }

  // ---------------------------------------------------------------------
  // The filter
  // ---------------------------------------------------------------------

  datatype ControllerKind = PSMoveController | DS4Controller

  /** What one update hands to the UKF: nothing, or the prediction's time step (None: never set) and the measurement. */
  datatype UkfStep = NoStep | UkfStep(timeStep: Option<real>, measurement: seq<real>)

  /** The measurement covariance a freshly initialised measurement model holds. */
  function InitialCovariance(kind: ControllerKind, c: FilterConstants): (r: seq<real>)
    ensures |r| == 12
  {
    match kind
    case PSMoveController => PSMoveInitialCovariance(c)
    case DS4Controller => DS4CovarianceAsWritten(c, 0.0, 0.0)
  }

  class PoseFilter {
    const kind: ControllerKind
    const constants: FilterConstants
    var isValid: bool
    var resetOrientation: Quaternion
    /** In meters. */
    var originPosition: Vec3
    var state: seq<real>
    /** PoseSystemModel's time step; None until set_time_step runs. */
    var timeStep: Option<real>
    /** The diagonal of the measurement model's covariance R. */
    var measurementCovariance: seq<real>

    ghost predicate Valid()
      reads this
    {
      |state| == StateCount && |measurementCovariance| == 12
    }

    /** KalmanPoseFilterDS4::init / PSMovePoseKalmanFilter::init: a new, invalid filter at rest. */
    constructor (kind: ControllerKind, constants: FilterConstants)
      ensures Valid()
      ensures this.kind == kind && this.constants == constants
      ensures !isValid && resetOrientation == Identity && originPosition == Zero3 && state == ZeroState
      ensures timeStep == None
      ensures measurementCovariance == InitialCovariance(kind, constants)
    {
      this.kind := kind;
      this.constants := constants;
      isValid := false;
      resetOrientation := Identity;
      originPosition := Zero3;
      state := ZeroState;
      timeStep := None;
      measurementCovariance := InitialCovariance(kind, constants);
    }

    /** resetState: the filter is initialised again; the system model keeps its time step. */
    method ResetState()
      requires Valid()
      modifies this
      ensures Valid()
      ensures !isValid && resetOrientation == Identity && originPosition == Zero3 && state == ZeroState
      ensures timeStep == old(timeStep)
      ensures measurementCovariance == InitialCovariance(kind, constants)
    {
      isValid := false;
      resetOrientation := Identity;
      originPosition := Zero3;
      state := ZeroState;
      measurementCovariance := InitialCovariance(kind, constants);
    }

    /**
     * KalmanPoseFilterDS4::update as written. A valid filter predicts with
     * delta_time and updates with the DS4 measurement, rebuilding R (with the
     * position variance on the wrong slots) when either optical quality is
     * positive. An invalid filter with an optical position bootstraps from it,
     * taking the optical orientation whatever its quality; otherwise nothing
     * changes.
     */
    method UpdateDS4AsWritten(deltaTime: real, packet: PoseFilterPacket, predicted: seq<real>, estimate: seq<real>)
      returns (step: UkfStep)
      requires Valid() && kind == DS4Controller
      requires |predicted| == DS4MeasurementCount && |estimate| == StateCount
      modifies this
      ensures Valid()
      ensures resetOrientation == old(resetOrientation) && originPosition == old(originPosition)
      ensures old(isValid) ==>
        && step == UkfStep(Some(deltaTime), DS4Measurement(predicted, packet))
        && isValid && state == estimate && timeStep == Some(deltaTime)
        && measurementCovariance ==
          if packet.opticalOrientationQuality > 0.0 || packet.opticalPositionQuality > 0.0
          then DS4CovarianceAsWritten(constants, packet.opticalPositionQuality, packet.opticalOrientationQuality)
          else old(measurementCovariance)
      ensures !old(isValid) && packet.opticalPositionQuality > 0.0 ==>
        && step == NoStep && isValid
        && state == BootstrapState(packet, DS4BootstrapOrientationAsWritten(packet))
        && timeStep == old(timeStep) && measurementCovariance == old(measurementCovariance)
      ensures !old(isValid) && packet.opticalPositionQuality <= 0.0 ==>
        step == NoStep && !isValid && state == old(state) && timeStep == old(timeStep)
        && measurementCovariance == old(measurementCovariance)
    {
      step := NoStep;
      if isValid {
        timeStep := Some(deltaTime);
        if packet.opticalOrientationQuality > 0.0 || packet.opticalPositionQuality > 0.0 {
          measurementCovariance := DS4CovarianceAsWritten(constants, packet.opticalPositionQuality, packet.opticalOrientationQuality);
        }
        step := UkfStep(timeStep, DS4Measurement(predicted, packet));
        state := estimate;
      } else if packet.opticalPositionQuality > 0.0 {
        state := BootstrapState(packet, DS4BootstrapOrientationAsWritten(packet));
        isValid := true;
      }
    }

    /** KalmanPoseFilterDS4::update with the corrected covariance slots and bootstrap orientation test. */
    method UpdateDS4(deltaTime: real, packet: PoseFilterPacket, predicted: seq<real>, estimate: seq<real>)
      returns (step: UkfStep)
      requires Valid() && kind == DS4Controller
      requires |predicted| == DS4MeasurementCount && |estimate| == StateCount
      modifies this
      ensures Valid()
      ensures resetOrientation == old(resetOrientation) && originPosition == old(originPosition)
      ensures old(isValid) ==>
        && step == UkfStep(Some(deltaTime), DS4Measurement(predicted, packet))
        && isValid && state == estimate && timeStep == Some(deltaTime)
        && measurementCovariance ==
          if packet.opticalOrientationQuality > 0.0 || packet.opticalPositionQuality > 0.0
          then DS4Covariance(constants, packet.opticalPositionQuality, packet.opticalOrientationQuality)
          else old(measurementCovariance)
      ensures !old(isValid) && packet.opticalPositionQuality > 0.0 ==>
        && step == NoStep && isValid
        && state == BootstrapState(packet, DS4BootstrapOrientation(packet))
        && timeStep == old(timeStep) && measurementCovariance == old(measurementCovariance)
      ensures !old(isValid) && packet.opticalPositionQuality <= 0.0 ==>
        step == NoStep && !isValid && state == old(state) && timeStep == old(timeStep)
        && measurementCovariance == old(measurementCovariance)
    {
      step := NoStep;
      if isValid {
        timeStep := Some(deltaTime);
        if packet.opticalOrientationQuality > 0.0 || packet.opticalPositionQuality > 0.0 {
          measurementCovariance := DS4Covariance(constants, packet.opticalPositionQuality, packet.opticalOrientationQuality);
        }
        step := UkfStep(timeStep, DS4Measurement(predicted, packet));
        state := estimate;
      } else if packet.opticalPositionQuality > 0.0 {
        state := BootstrapState(packet, DS4BootstrapOrientation(packet));
        isValid := true;
      }
    }

    /**
     * PSMovePoseKalmanFilter::update as written. A valid filter predicts
     * without setting the time step, so the prediction runs with whatever
     * time step the system model holds (none, on a new filter), and the
     * optical position goes into the measurement in centimeters. An invalid
     * filter with an optical position bootstraps from it with the identity
     * orientation; otherwise nothing changes.
     */
    method UpdatePSMoveAsWritten(deltaTime: real, packet: PoseFilterPacket, predicted: seq<real>, estimate: seq<real>)
      returns (step: UkfStep)
      requires Valid() && kind == PSMoveController
      requires |predicted| == PSMoveMeasurementCount && |estimate| == StateCount
      modifies this
      ensures Valid()
      ensures resetOrientation == old(resetOrientation) && originPosition == old(originPosition)
      ensures timeStep == old(timeStep)
      ensures old(isValid) ==>
        && step == UkfStep(old(timeStep), PSMoveMeasurementAsWritten(predicted, packet))
        && isValid && state == estimate
        && measurementCovariance ==
          if packet.opticalPositionQuality > 0.0
          then PSMoveUpdatedCovariance(old(measurementCovariance), constants, packet.opticalPositionQuality)
          else old(measurementCovariance)
      ensures !old(isValid) && packet.opticalPositionQuality > 0.0 ==>
        step == NoStep && isValid && state == BootstrapState(packet, Zero3) && measurementCovariance == old(measurementCovariance)
      ensures !old(isValid) && packet.opticalPositionQuality <= 0.0 ==>
        step == NoStep && !isValid && state == old(state) && measurementCovariance == old(measurementCovariance)
    {
      step := NoStep;
      if isValid {
        if packet.opticalPositionQuality > 0.0 {
          measurementCovariance := PSMoveUpdatedCovariance(measurementCovariance, constants, packet.opticalPositionQuality);
        }
        step := UkfStep(timeStep, PSMoveMeasurementAsWritten(predicted, packet));
        state := estimate;
      } else if packet.opticalPositionQuality > 0.0 {
        state := BootstrapState(packet, Zero3);
        isValid := true;
      }
    }

    /** PSMovePoseKalmanFilter::update with set_time_step(delta_time) and the optical position in meters. */
    method UpdatePSMove(deltaTime: real, packet: PoseFilterPacket, predicted: seq<real>, estimate: seq<real>)
      returns (step: UkfStep)
      requires Valid() && kind == PSMoveController
      requires |predicted| == PSMoveMeasurementCount && |estimate| == StateCount
      modifies this
      ensures Valid()
      ensures resetOrientation == old(resetOrientation) && originPosition == old(originPosition)
      ensures old(isValid) ==>
        && step == UkfStep(Some(deltaTime), PSMoveMeasurement(predicted, packet))
        && isValid && state == estimate && timeStep == Some(deltaTime)
        && measurementCovariance ==
          if packet.opticalPositionQuality > 0.0
          then PSMoveUpdatedCovariance(old(measurementCovariance), constants, packet.opticalPositionQuality)
          else old(measurementCovariance)
      ensures !old(isValid) && packet.opticalPositionQuality > 0.0 ==>
        step == NoStep && isValid && state == BootstrapState(packet, Zero3)
        && timeStep == old(timeStep) && measurementCovariance == old(measurementCovariance)
      ensures !old(isValid) && packet.opticalPositionQuality <= 0.0 ==>
        step == NoStep && !isValid && state == old(state) && timeStep == old(timeStep)
        && measurementCovariance == old(measurementCovariance)
    {
      step := NoStep;
      if isValid {
        timeStep := Some(deltaTime);
        if packet.opticalPositionQuality > 0.0 {
          measurementCovariance := PSMoveUpdatedCovariance(measurementCovariance, constants, packet.opticalPositionQuality);
        }
        step := UkfStep(timeStep, PSMoveMeasurement(predicted, packet));
        state := estimate;
      } else if packet.opticalPositionQuality > 0.0 {
        state := BootstrapState(packet, Zero3);
        isValid := true;
      }
    }

    /**
     * recenterState as written: the reset orientation becomes the conjugate of
     * the current orientation, and the origin becomes getPosition(), which is
     * in centimeters and relative to the old origin, although the origin is
     * kept in meters.
     */
    method RecenterAsWritten(stateOrientation: Quaternion)
      requires Valid()
      modifies this
      ensures Valid()
      ensures resetOrientation == RecenteredReset(old(isValid), old(resetOrientation), stateOrientation)
      ensures originPosition == PositionAsWritten(old(isValid), old(state), old(originPosition), 0.0)
      ensures isValid == old(isValid) && state == old(state) && timeStep == old(timeStep)
      ensures measurementCovariance == old(measurementCovariance)
    {
      resetOrientation := RecenteredReset(isValid, resetOrientation, stateOrientation);
      originPosition := PositionAsWritten(isValid, state, originPosition, 0.0);
    }

    /**
     * recenterState with the origin taken as the state position in meters;
     * RecenteredPositionIsZero shows that getPosition then reports zero.
     */
    method Recenter(stateOrientation: Quaternion)
      requires Valid()
      modifies this
      ensures Valid()
      ensures resetOrientation == RecenteredReset(old(isValid), old(resetOrientation), stateOrientation)
      ensures originPosition == GetState(old(state), Position)
      ensures isValid == old(isValid) && state == old(state) && timeStep == old(timeStep)
      ensures measurementCovariance == old(measurementCovariance)
    {
      resetOrientation := RecenteredReset(isValid, resetOrientation, stateOrientation);
      originPosition := GetState(state, Position);
    }
  }

  /**
   * Recentering as written a filter whose state sits 1 m along X from a zero
   * origin moves the origin to 100 (meters), and the position reported
   * afterwards is -9900 cm instead of zero.
   */
  lemma RecenterAsWrittenMisplacesOrigin(s: seq<real>)
    requires |s| == StateCount && GetState(s, Position) == Vec3(1.0, 0.0, 0.0)
    ensures PositionAsWritten(true, s, Zero3, 0.0) == Vec3(100.0, 0.0, 0.0)
    ensures PositionAsWritten(true, s, Vec3(100.0, 0.0, 0.0), 0.0) == Vec3(-9900.0, 0.0, 0.0)
  {
    UnitPositionAtRest(s, Zero3);
    UnitPositionAtRest(s, Vec3(100.0, 0.0, 0.0));
  }

  lemma UnitPositionAtRest(s: seq<real>, origin: Vec3)
    requires |s| == StateCount && GetState(s, Position) == Vec3(1.0, 0.0, 0.0)
    ensures PositionAsWritten(true, s, origin, 0.0) == Vec3((1.0 - origin.x) * 100.0, -origin.y * 100.0, -origin.z * 100.0)
  {
    PositionAsWrittenAtRest(s, origin, 0.0);
  }

  /** Without extrapolation, getPosition as written is the state position relative to the origin, in centimeters. */
  lemma PositionAsWrittenAtRest(s: seq<real>, origin: Vec3, time: real)
    requires |s| == StateCount
    requires IsNearlyZero(time)
    ensures PositionAsWritten(true, s, origin, time) == Scale(Sub(GetState(s, Position), origin), MetersToCentimeters)
  {
  }

  /** With the origin at the state position, the corrected getter reports zero. */
  lemma RecenteredPositionIsZero(isValid: bool, s: seq<real>)
    requires |s| == StateCount
    ensures PositionAt(isValid, s, GetState(s, Position), 0.0) == Zero3
  {
    assert IsNearlyZero(0.0);
    var p := GetState(s, Position);
    assert Sub(p, p) == Zero3;
  }

  /**
   * A new PSMove filter bootstrapped from an optical fix runs its first
   * prediction with a time step that was never set; with set_time_step it
   * runs with delta_time.
   */
  method PSMoveFirstPredictionTimeStep(c: FilterConstants, packet: PoseFilterPacket, deltaTime: real, predicted: seq<real>, estimate: seq<real>)
    returns (asWritten: UkfStep, corrected: UkfStep)
    requires packet.opticalPositionQuality > 0.0
    requires |predicted| == PSMoveMeasurementCount && |estimate| == StateCount
    ensures asWritten.UkfStep? && asWritten.timeStep == None
    ensures corrected.UkfStep? && corrected.timeStep == Some(deltaTime)
  {
    var f := new PoseFilter(PSMoveController, c);
    var bootstrap := f.UpdatePSMoveAsWritten(deltaTime, packet, predicted, estimate);
    asWritten := f.UpdatePSMoveAsWritten(deltaTime, packet, predicted, estimate);
    var g := new PoseFilter(PSMoveController, c);
    bootstrap := g.UpdatePSMove(deltaTime, packet, predicted, estimate);
    corrected := g.UpdatePSMove(deltaTime, packet, predicted, estimate);
  }
}
