/** The per-motor regulation core of BLDC.c: the motion-objective state
    machine, the edge-triggered commutation reconfiguration, the validating
    setters and the 1 ms regulation tick that reads actual values from the
    TMC4671 field-oriented-control driver and writes new targets to it. */
module Bldc {
  import opened CTypes

  // ===== constants of the TMC4671-TMC6100-TOSV-REF_v1.0 module =====

  const NUMBER_OF_MOTORS := 1
  const MAX_VELOCITY := 200000
  const MAX_ACCELERATION := 100000
  const TMCM_MAX_CURRENT := 5000

  // The motion modes, commutation modes and PHI_E selections below are those
  // of the TMC4671 register map and BLDC.h, which are not part of this model.

  // motion modes of the TMC4671 (the values `gMotionMode` holds)
  const MOTION_MODE_STOPPED: Byte := 0
  const MOTION_MODE_TORQUE: Byte := 1
  const MOTION_MODE_VELOCITY: Byte := 2
  const MOTION_MODE_UQ_UD_EXT: Byte := 8

  // commutation modes (`motorConfig[].commutationMode`)
  const COMM_MODE_FOC_DISABLED: Byte := 0
  const COMM_MODE_FOC_OPEN_LOOP: Byte := 1
  const COMM_MODE_FOC_DIGITAL_HALL: Byte := 2

  /** The value `bldc_init` stores as "last applied commutation mode": it is
      none of the commutation modes, so the first tick reconfigures. */
  const COMM_MODE_NONE_APPLIED: Byte := 0xFF

  // sources of the electrical angle (TMC4671 PHI_E_SELECTION)
  const PHI_E_EXTERNAL := 1
  const PHI_E_OPEN_LOOP := 2
  const PHI_E_HALL := 5

  // a raw torque or flux reading is trusted only strictly inside this window
  const RAW_CURRENT_LIMIT := 32000

  // weight and right shift handed to the PT1 filter of the actual current
  const PT1_WEIGHT := 1
  const PT1_SHIFT := 8

  // ===== status flags =====

  datatype StatusFlag = StopMode | PositionMode | TorqueMode | VelocityMode | PositionEnd | ModuleInitialized

  /** The flags `bldc_switchToRegulationMode` clears before setting one. */
  const MODE_FLAGS: set<StatusFlag> := {StopMode, PositionMode, TorqueMode, VelocityMode, PositionEnd}

  // ===== data model =====

  /** The per-motor globals of BLDC.c plus the motor's status flags. */
  datatype MotorState = MotorState(
    motionMode: Byte,            // gMotionMode
    lastCommutationMode: Byte,   // gLastSetCommutationMode
    flags: set<StatusFlag>,
    akkuTorqueFlux: int,         // akkuActualTorqueFlux, the PT1 accumulator
    actualTorquePT1: int,        // filtered actual current
    targetTorque: int,           // gTargetTorque
    targetFlux: int,             // gTargetFlux
    desiredVelocity: int,        // gDesiredVelocity
    actualVelocity: int,         // gActualVelocity
    targetSpeed: int)            // gTargetSpeed

  /** The fields of `motorConfig[]` the core reads or writes. */
  datatype MotorConfig = MotorConfig(
    motorPolePairs: Byte,
    shaftBit: Byte,
    commutationMode: Byte,
    dualShuntFactor: int,
    adcI0Offset: U16,
    adcI1Offset: U16,
    maximumCurrent: U16,
    maxPositioningSpeed: int,
    acceleration: int,
    useVelocityRamp: int,
    openLoopCurrent: I32,
    hallPolarity: bool,
    hallDirection: bool,
    hallInterpolation: bool,
    hallPhiEOffset: U16)

  /** What the regulation needs of a configuration: at least one pole pair
      (the only writer, the axis-parameter command, accepts 1..255) and a
      non-zero current-sensing factor (it is a divisor). */
  predicate ConfigOk(c: MotorConfig)
  {
    c.motorPolePairs >= 1 && c.dualShuntFactor != 0
  }

  /** The fields of `rampGenerator[]` (TMC_LinearRamp) the core touches. */
  datatype RampGenerator = RampGenerator(
    targetVelocity: int,
    rampVelocity: int,
    maxVelocity: int,
    acceleration: int,
    rampEnabled: int)

  /** `tmc_filterPT1(&akku, sample, previous, weight, shift)`: returns the new
      accumulator and the new filtered value. Its body is not part of this model. */
  type Pt1Filter = (int, int, int, int, int) -> (int, int)

  /** `tmc_linearRamp_computeRampVelocity`: advances the ramp by one tick.
      Its body is not part of this model. */
  type RampStep = RampGenerator -> RampGenerator

  /** The two registers read from the driver in one tick for one motor. */
  datatype MotorReadings = MotorReadings(velocityActual: I32, torqueFluxActual: I32)

  // ===== the driver =====

  datatype Register = UqUdExt | PhiESelection | OpenLoopVelocityTarget | PidVelocityTarget | PidVelocityLimit | AdcRawAddr

  /** The two 16-bit halves of PID_TORQUE_FLUX_TARGET. */
  datatype TorqueFluxField = TorqueTarget | FluxTarget

  /** A write issued to the TMC4671 (or a TMC-API helper that writes it). */
  datatype DriverOp =
    | WriteInt(motor: nat, register: Register, value: int)
    | UpdateField(motor: nat, field: TorqueFluxField, value: int)
    | SwitchToMotionMode(motor: nat, mode: Byte)
    | SetPolePairs(motor: nat, polePairs: int)
    | SetTorqueFluxLimit(motor: nat, dualShuntFactor: int, maxCurrent: int)
    | WriteAdcI0Offset(motor: nat, offset: U16)
    | WriteAdcI1Offset(motor: nat, offset: U16)
    | WriteRaw(motor: nat, address: Byte, value: int)   // a register write passed through from the host
    | UpdateHallMode(motor: nat, polarity: bool, direction: bool, interpolation: bool)
    | UpdateHallPhiEOffset(motor: nat, offset: U16)

  /** The TMC4671 seen from the firmware: what it reads is an input of the
      method that reads it; every write is appended to `log`. */
  class Tmc4671 {
    ghost var log: seq<DriverOp>

    constructor ()
      ensures log == []
    {
      log := [];
    }

    method Issue(op: DriverOp)
      modifies this
      ensures log == old(log) + [op]
    {
      log := log + [op];
    }
  }

  // ===== the regulation, on values =====

  /** A motor state after an operation, with the driver writes it issued. */
  datatype Step = Step(state: MotorState, ops: seq<DriverOp>)

  /** The state `bldc_init` gives every motor. */
  function InitialMotorState(): MotorState
  {
    MotorState(MOTION_MODE_STOPPED, COMM_MODE_NONE_APPLIED, {StopMode}, 0, 0, 0, 0, 0, 0, 0)
  }

  /** The motion-objective flag that belongs to a motion mode. */
  function ModeFlag(mode: Byte): StatusFlag
    requires mode in {MOTION_MODE_STOPPED, MOTION_MODE_TORQUE, MOTION_MODE_VELOCITY}
  {
    if mode == MOTION_MODE_VELOCITY then VelocityMode
    else if mode == MOTION_MODE_TORQUE then TorqueMode
    else StopMode
  }

  /** The state-machine invariant: `gMotionMode` is one of the three motion
      objectives and exactly its flag is the one mode flag set. */
  predicate ModeConsistent(s: MotorState)
  {
    && s.motionMode in {MOTION_MODE_STOPPED, MOTION_MODE_TORQUE, MOTION_MODE_VELOCITY}
    && s.flags * MODE_FLAGS == {ModeFlag(s.motionMode)}
  }

  /** `bldc_switchToRegulationMode` on one motor's state. */
  function SwitchMode(s: MotorState, mode: Byte): (r: MotorState)
    // flags outside the mode group (the initialised flag) are kept
    ensures r.flags - MODE_FLAGS == s.flags - MODE_FLAGS
    // the three motion objectives: exactly their flag, and gMotionMode follows
    ensures mode in {MOTION_MODE_STOPPED, MOTION_MODE_TORQUE, MOTION_MODE_VELOCITY} ==>
              r.flags * MODE_FLAGS == {ModeFlag(mode)} && r.motionMode == mode && ModeConsistent(r)
    // any other mode value leaves no mode flag at all and gMotionMode as it was
    ensures mode !in {MOTION_MODE_STOPPED, MOTION_MODE_TORQUE, MOTION_MODE_VELOCITY} ==>
              r.flags * MODE_FLAGS == {} && r.motionMode == s.motionMode
    // nothing else changes
    ensures r == s.(flags := r.flags, motionMode := r.motionMode)
  {
    var cleared := s.flags - MODE_FLAGS;
    if mode == MOTION_MODE_VELOCITY then s.(flags := cleared + {VelocityMode}, motionMode := mode)
    else if mode == MOTION_MODE_TORQUE then s.(flags := cleared + {TorqueMode}, motionMode := mode)
    else if mode == MOTION_MODE_STOPPED then s.(flags := cleared + {StopMode}, motionMode := mode)
    else s.(flags := cleared)
  }

  /** The driver request `bldc_switchToRegulationMode` issues: only the
      velocity and torque objectives command the driver. */
  function SwitchModeOps(motor: nat, mode: Byte): seq<DriverOp>
  {
    if mode == MOTION_MODE_VELOCITY || mode == MOTION_MODE_TORQUE then [SwitchToMotionMode(motor, mode)] else []
  }

  /** `bldc_checkCommutationMode` on one motor's state. */
  function CheckCommutation(s: MotorState, cfg: MotorConfig, motor: nat): (r: Step)
    // edge-triggered: nothing happens while the applied mode is the configured one
    ensures s.lastCommutationMode == cfg.commutationMode ==> r == Step(s, [])
    // afterwards the configured mode is the applied one
    ensures r.state.lastCommutationMode == cfg.commutationMode
    // only the initialised flag and the applied mode may change
    ensures r.state == s.(flags := r.state.flags, lastCommutationMode := r.state.lastCommutationMode)
    ensures r.state.flags - {ModuleInitialized} == s.flags - {ModuleInitialized}
  {
    if s.lastCommutationMode == cfg.commutationMode then Step(s, [])
    else
      var c := cfg.commutationMode;
      var flags :=
        if c == COMM_MODE_FOC_DISABLED then s.flags - {ModuleInitialized}
        else if c == COMM_MODE_FOC_OPEN_LOOP || c == COMM_MODE_FOC_DIGITAL_HALL then s.flags + {ModuleInitialized}
        else s.flags;
      var ops :=
        if c == COMM_MODE_FOC_DISABLED then
          [ WriteInt(motor, UqUdExt, 0), WriteInt(motor, PhiESelection, PHI_E_EXTERNAL),
            SwitchToMotionMode(motor, MOTION_MODE_UQ_UD_EXT), WriteInt(motor, OpenLoopVelocityTarget, 0) ]
        else if c == COMM_MODE_FOC_OPEN_LOOP then
          [ WriteInt(motor, PhiESelection, PHI_E_OPEN_LOOP), SwitchToMotionMode(motor, MOTION_MODE_TORQUE) ]
        else if c == COMM_MODE_FOC_DIGITAL_HALL then
          [ WriteInt(motor, PhiESelection, PHI_E_HALL),
            SwitchToMotionMode(motor, if TorqueMode in s.flags then MOTION_MODE_TORQUE else MOTION_MODE_VELOCITY) ]
        else [];
      Step(s.(flags := flags, lastCommutationMode := c), ops)
  }

  /** Sign correction for the configured rotation direction. */
  function ShaftCorrected(cfg: MotorConfig, x: int): int
  {
    if cfg.shaftBit == 0 then -x else x
  }

  /** Actual torque: bits 16..31 of PID_TORQUE_FLUX_ACTUAL as an `int16_t`. */
  function TorqueOf(raw: I32): (t: I16)
    ensures FromI16(t) == ToU32(raw) / 0x1_0000
  {
    ToI16(ToU32(raw) / 0x1_0000)
  }

  /** Actual flux: bits 0..15 of PID_TORQUE_FLUX_ACTUAL as an `int16_t`. */
  function FluxOf(raw: I32): (f: I16)
    ensures FromI16(f) == ToU32(raw) % 0x1_0000
  {
    ToI16(ToU32(raw) % 0x1_0000)
  }

  /** The register value whose halves are the given torque and flux. */
  function PackTorqueFlux(torque: I16, flux: I16): I32
  {
    ToI32(FromI16(torque) * 0x1_0000 + FromI16(flux))
  }

  predicate InWindow(x: int)
  {
    -RAW_CURRENT_LIMIT < x < RAW_CURRENT_LIMIT
  }

  /** The velocity `bldc_processBLDC` takes as actual (BLDC.c:78-82). */
  function ActualVelocity(cfg: MotorConfig, ramp: RampGenerator, velocityRaw: I32): (v: int)
    requires ConfigOk(cfg)
    // open loop has no velocity measurement: the ramp's output stands in for it
    ensures cfg.commutationMode == COMM_MODE_FOC_OPEN_LOOP ==> v == ramp.rampVelocity
    // otherwise the shaft velocity, truncated toward zero: what is lost is less than one pole pair's worth
    // and has the sign of the electrical velocity
    ensures cfg.commutationMode != COMM_MODE_FOC_OPEN_LOOP ==>
      var rem := velocityRaw - ShaftCorrected(cfg, v) * cfg.motorPolePairs;
      Abs(rem) < cfg.motorPolePairs && (rem == 0 || (rem > 0) == (velocityRaw > 0))
  {
    var shaftVelocityActual := ShaftCorrected(cfg, TruncDiv(velocityRaw, cfg.motorPolePairs));
    if cfg.commutationMode == COMM_MODE_FOC_OPEN_LOOP then ramp.rampVelocity else shaftVelocityActual
  }

  /** The filter update of the actual current (BLDC.c:85-101). */
  function FilterCurrent(s: MotorState, cfg: MotorConfig, torqueFluxRaw: I32, pt1: Pt1Filter): (r: MotorState)
    // only the filter accumulator and the filtered current change
    ensures r == s.(akkuTorqueFlux := r.akkuTorqueFlux, actualTorquePT1 := r.actualTorquePT1)
    // a reading with either half outside the window is discarded
    ensures !(InWindow(TorqueOf(torqueFluxRaw)) && InWindow(FluxOf(torqueFluxRaw))) ==> r == s
  {
    var flux, torque := FluxOf(torqueFluxRaw), TorqueOf(torqueFluxRaw);
    if InWindow(torque) && InWindow(flux) then
      var current := TruncDiv((torque + flux) * cfg.dualShuntFactor, 256);
      var corrected := if cfg.commutationMode != COMM_MODE_FOC_OPEN_LOOP then ShaftCorrected(cfg, current) else current;
      var (akku, filtered) := pt1(s.akkuTorqueFlux, corrected, s.actualTorquePT1, PT1_WEIGHT, PT1_SHIFT);
      s.(akkuTorqueFlux := akku, actualTorquePT1 := filtered)
    else
      s
  }

  /** The ramp handling of one tick (BLDC.c:103-117): the velocity objective
      drives the ramp from the desired velocity, the torque objective pins the
      ramp to the actual velocity. */
  function UpdateRamp(s: MotorState, ramp: RampGenerator, rampStep: RampStep): (r: (MotorState, RampGenerator))
    // of the motor state only the target speed changes
    ensures r.0 == s.(targetSpeed := r.0.targetSpeed)
    // torque objective: target speed, ramp target and ramp output all equal the actual velocity
    ensures TorqueMode in s.flags ==>
      r.0.targetSpeed == s.actualVelocity && r.1.targetVelocity == s.actualVelocity && r.1.rampVelocity == s.actualVelocity
    // torque objective alone: only the ramp's target and output change
    ensures TorqueMode in s.flags && VelocityMode !in s.flags ==>
      r.1 == ramp.(targetVelocity := s.actualVelocity, rampVelocity := s.actualVelocity)
    // both flags: the ramp steps toward the desired velocity, then its target and output are pinned
    ensures TorqueMode in s.flags && VelocityMode in s.flags ==>
      r.1 == rampStep(ramp.(targetVelocity := s.desiredVelocity)).(targetVelocity := s.actualVelocity,
                                                                   rampVelocity := s.actualVelocity)
    // velocity objective alone: the ramp advances one step toward the desired velocity and its output is the target speed
    ensures VelocityMode in s.flags && TorqueMode !in s.flags ==>
      r.1 == rampStep(ramp.(targetVelocity := s.desiredVelocity)) && r.0.targetSpeed == r.1.rampVelocity
    // neither objective: nothing moves
    ensures VelocityMode !in s.flags && TorqueMode !in s.flags ==> r == (s, ramp)
  {
    var (s1, ramp1) :=
      if VelocityMode in s.flags then
        var r := rampStep(ramp.(targetVelocity := s.desiredVelocity));
        (s.(targetSpeed := r.rampVelocity), r)
      else (s, ramp);
    if TorqueMode in s1.flags then
      (s1.(targetSpeed := s1.actualVelocity),
       ramp1.(targetVelocity := s1.actualVelocity, rampVelocity := s1.actualVelocity))
    else (s1, ramp1)
  }

  /** The target writes of one tick (BLDC.c:119-167), chosen by commutation
      mode and motion mode. */
  function TargetOps(s: MotorState, cfg: MotorConfig, motor: nat): (ops: seq<DriverOp>)
    requires ConfigOk(cfg)
    // nothing is written under the stop objective, with commutation disabled,
    // or under Hall commutation before the module is initialised
    ensures StopMode in s.flags ==> ops == []
    ensures cfg.commutationMode !in {COMM_MODE_FOC_OPEN_LOOP, COMM_MODE_FOC_DIGITAL_HALL} ==> ops == []
    ensures cfg.commutationMode == COMM_MODE_FOC_DIGITAL_HALL && ModuleInitialized !in s.flags ==> ops == []
    // at most four writes
    ensures |ops| <= 4
  {
    if StopMode in s.flags then []
    else if cfg.commutationMode == COMM_MODE_FOC_OPEN_LOOP then
      var targetFlux := if s.targetSpeed == 0 then 0 else cfg.openLoopCurrent;
      [ SwitchToMotionMode(motor, MOTION_MODE_TORQUE),
        UpdateField(motor, FluxTarget, TruncDiv(targetFlux * 256, cfg.dualShuntFactor)),
        UpdateField(motor, TorqueTarget, 0),
        WriteInt(motor, OpenLoopVelocityTarget, ShaftCorrected(cfg, s.targetSpeed)) ]
    else if cfg.commutationMode == COMM_MODE_FOC_DIGITAL_HALL && ModuleInitialized in s.flags then
      var fluxOp := UpdateField(motor, FluxTarget, TruncDiv(ShaftCorrected(cfg, s.targetFlux) * 256, cfg.dualShuntFactor));
      if s.motionMode == MOTION_MODE_VELOCITY then
        [ WriteInt(motor, PidVelocityTarget, ShaftCorrected(cfg, s.targetSpeed) * cfg.motorPolePairs), fluxOp ]
      else if s.motionMode == MOTION_MODE_TORQUE then
        [ UpdateField(motor, TorqueTarget, TruncDiv(ShaftCorrected(cfg, s.targetTorque) * 256, cfg.dualShuntFactor)), fluxOp ]
      else []
    else []
  }

  /** Every target write of a tick addresses the motor being regulated. */
  lemma TargetOpsAddressMotor(s: MotorState, cfg: MotorConfig, motor: nat)
    requires ConfigOk(cfg)
    ensures forall op :: op in TargetOps(s, cfg, motor) ==> op.motor == motor
  {
  }

  /** The outcome of one regulation tick for one motor. */
  datatype TickResult = TickResult(state: MotorState, ramp: RampGenerator, ops: seq<DriverOp>)

  /** One iteration of the motor loop of `bldc_processBLDC`. */
  function TickMotor(s: MotorState, cfg: MotorConfig, ramp: RampGenerator, reading: MotorReadings,
                     pt1: Pt1Filter, rampStep: RampStep, motor: nat): (r: TickResult)
    requires ConfigOk(cfg)
    // the commutation reconfiguration is written first, then at most four target writes
    ensures var c := CheckCommutation(s, cfg, motor);
      c.ops <= r.ops && |r.ops| <= |c.ops| + 4
    // afterwards the configured commutation mode is the applied one
    ensures r.state.lastCommutationMode == cfg.commutationMode
    // the actual velocity is the one measured (or, open loop, the ramp's)
    ensures r.state.actualVelocity == ActualVelocity(cfg, ramp, reading.velocityActual)
    // a tick never changes the motion objective or the host's set-points
    ensures r.state.motionMode == s.motionMode && r.state.flags * MODE_FLAGS == s.flags * MODE_FLAGS
    ensures r.state.desiredVelocity == s.desiredVelocity && r.state.targetTorque == s.targetTorque
         && r.state.targetFlux == s.targetFlux
  {
    var c := CheckCommutation(s, cfg, motor);
    var s1 := c.state.(actualVelocity := ActualVelocity(cfg, ramp, reading.velocityActual));
    var s2 := FilterCurrent(s1, cfg, reading.torqueFluxActual, pt1);
    var (s3, ramp3) := UpdateRamp(s2, ramp, rampStep);
    TickResult(s3, ramp3, c.ops + TargetOps(s3, cfg, motor))
  }

  /** The tick of every motor, each computed from its own state before the loop. */
  function Ticks(ms: seq<MotorState>, cfgs: seq<MotorConfig>, ramps: seq<RampGenerator>,
                 readings: seq<MotorReadings>, pt1: Pt1Filter, rampStep: RampStep): (ts: seq<TickResult>)
    requires |ms| == |cfgs| == |ramps| == |readings|
    requires forall k :: 0 <= k < |cfgs| ==> ConfigOk(cfgs[k])
    ensures |ts| == |ms|
  {
    seq(|ms|, k requires 0 <= k < |ms| => TickMotor(ms[k], cfgs[k], ramps[k], readings[k], pt1, rampStep, k))
  }

  /** The motor records, ramps and driver writes after the motor loop of one
      tick has run for the motors below `n`. */
  datatype LoopState = LoopState(motors: seq<MotorState>, ramps: seq<RampGenerator>, ops: seq<DriverOp>)

  /** The motor loop of `bldc_processBLDC` after `n` iterations, on values:
      iteration `k` stores motor `k`'s tick `ts[k]` and appends its writes. */
  function LoopUpTo(ms: seq<MotorState>, ramps: seq<RampGenerator>, ts: seq<TickResult>, n: nat): (r: LoopState)
    requires n <= |ms| == |ramps| == |ts|
    // the motors the loop has not reached yet are untouched
    ensures |r.motors| == |ms| && |r.ramps| == |ramps|
    ensures forall k :: n <= k < |ms| ==> r.motors[k] == ms[k] && r.ramps[k] == ramps[k]
  {
    if n == 0 then LoopState(ms, ramps, [])
    else
      var p := LoopUpTo(ms, ramps, ts, n - 1);
      LoopState(p.motors[n - 1 := ts[n - 1].state], p.ramps[n - 1 := ts[n - 1].ramp], p.ops + ts[n - 1].ops)
  }

  /** Every motor the loop has passed holds its own tick's record and ramp:
      a later iteration never overwrites an earlier motor. */
  lemma {:induction false} LoopUpToEachMotor(ms: seq<MotorState>, ramps: seq<RampGenerator>, ts: seq<TickResult>, n: nat)
    requires n <= |ms| == |ramps| == |ts|
    ensures forall k :: 0 <= k < n ==>
      LoopUpTo(ms, ramps, ts, n).motors[k] == ts[k].state && LoopUpTo(ms, ramps, ts, n).ramps[k] == ts[k].ramp
  {
    if n > 0 {
      LoopUpToEachMotor(ms, ramps, ts, n - 1);
    }
  }

  /** One regulation pass over all motors, on values. */
  function TickAll(ms: seq<MotorState>, cfgs: seq<MotorConfig>, ramps: seq<RampGenerator>,
                   readings: seq<MotorReadings>, pt1: Pt1Filter, rampStep: RampStep): LoopState
    requires |ms| == |cfgs| == |ramps| == |readings|
    requires forall k :: 0 <= k < |cfgs| ==> ConfigOk(cfgs[k])
  {
    LoopUpTo(ms, ramps, Ticks(ms, cfgs, ramps, readings, pt1, rampStep), |ms|)
  }

  // ===== properties of the regulation =====

  /** After `bldc_init` every motor is stopped with exactly the stop flag,
      and since 0xFF is no commutation mode, the first tick reconfigures
      commutation whatever mode is configured. */
  lemma InitialStateStoppedAndReconfigures(cfg: MotorConfig, motor: nat)
    requires cfg.commutationMode in {COMM_MODE_FOC_DISABLED, COMM_MODE_FOC_OPEN_LOOP, COMM_MODE_FOC_DIGITAL_HALL}
    ensures ModeConsistent(InitialMotorState()) && InitialMotorState().flags == {StopMode}
    ensures CheckCommutation(InitialMotorState(), cfg, motor).ops != []
  {
  }

  /** The commutation check is idempotent: a second check with the same
      configuration does nothing. */
  lemma CheckCommutationIdempotent(s: MotorState, cfg: MotorConfig, motor: nat)
    ensures var r := CheckCommutation(s, cfg, motor);
            CheckCommutation(r.state, cfg, motor) == Step(r.state, [])
  {
  }

  /** What a reconfiguration does to the initialised flag and which electrical
      mode it requests from the driver. */
  lemma CheckCommutationEffect(s: MotorState, cfg: MotorConfig, motor: nat)
    requires s.lastCommutationMode != cfg.commutationMode
    ensures var r := CheckCommutation(s, cfg, motor);
      && (cfg.commutationMode == COMM_MODE_FOC_DISABLED ==> ModuleInitialized !in r.state.flags)
      && (cfg.commutationMode in {COMM_MODE_FOC_OPEN_LOOP, COMM_MODE_FOC_DIGITAL_HALL} ==> ModuleInitialized in r.state.flags)
      && (cfg.commutationMode == COMM_MODE_FOC_OPEN_LOOP ==> SwitchToMotionMode(motor, MOTION_MODE_TORQUE) in r.ops)
      && (cfg.commutationMode == COMM_MODE_FOC_DIGITAL_HALL ==>
            (SwitchToMotionMode(motor, MOTION_MODE_TORQUE) in r.ops <==> TorqueMode in s.flags)
            && (SwitchToMotionMode(motor, MOTION_MODE_VELOCITY) in r.ops <==> TorqueMode !in s.flags))
  {
  }

  /** The split of the packed torque/flux register is lossless: the halves
      are exactly the two signed 16-bit fields the register was built from,
      and every register value is the packing of its halves. */
  lemma TorqueFluxRoundTrip(torque: I16, flux: I16, raw: I32)
    ensures TorqueOf(PackTorqueFlux(torque, flux)) == torque
    ensures FluxOf(PackTorqueFlux(torque, flux)) == flux
    ensures PackTorqueFlux(TorqueOf(raw), FluxOf(raw)) == raw
  {
    var u := FromI16(torque) * 0x1_0000 + FromI16(flux);
    assert ToU32(ToI32(u)) == u;
    assert u / 0x1_0000 == FromI16(torque);
    assert u % 0x1_0000 == FromI16(flux);
    var v := ToU32(raw);
    assert FromI16(ToI16(v / 0x1_0000)) == v / 0x1_0000;
    assert FromI16(ToI16(v % 0x1_0000)) == v % 0x1_0000;
    assert (v / 0x1_0000) * 0x1_0000 + v % 0x1_0000 == v;
  }

  /** A reading with either half outside the validity window leaves the
      filtered current and its accumulator as they were; a valid one feeds
      the filter the sign-corrected current. */
  lemma FilterOnlyValidReadings(s: MotorState, cfg: MotorConfig, raw: I32, pt1: Pt1Filter)
    ensures var r := FilterCurrent(s, cfg, raw, pt1);
      && r == s.(akkuTorqueFlux := r.akkuTorqueFlux, actualTorquePT1 := r.actualTorquePT1)
      && (!(InWindow(TorqueOf(raw)) && InWindow(FluxOf(raw))) ==> r == s)
      && (InWindow(TorqueOf(raw)) && InWindow(FluxOf(raw)) ==>
            var current := TruncDiv((TorqueOf(raw) + FluxOf(raw)) * cfg.dualShuntFactor, 256);
            (r.akkuTorqueFlux, r.actualTorquePT1)
              == pt1(s.akkuTorqueFlux,
                     if cfg.commutationMode == COMM_MODE_FOC_OPEN_LOOP then current else ShaftCorrected(cfg, current),
                     s.actualTorquePT1, PT1_WEIGHT, PT1_SHIFT))
  {
  }

  /** Actual velocity: the register value divided by the pole pairs with C
      truncation and negated for shaft bit 0; under open-loop commutation it
      is the ramp velocity instead. */
  lemma TickActualVelocity(s: MotorState, cfg: MotorConfig, ramp: RampGenerator, reading: MotorReadings,
                           pt1: Pt1Filter, rampStep: RampStep, motor: nat)
    requires ConfigOk(cfg)
    ensures var v := TickMotor(s, cfg, ramp, reading, pt1, rampStep, motor).state.actualVelocity;
      && (cfg.commutationMode == COMM_MODE_FOC_OPEN_LOOP ==> v == ramp.rampVelocity)
      && (cfg.commutationMode != COMM_MODE_FOC_OPEN_LOOP ==>
            v == ShaftCorrected(cfg, TruncDiv(reading.velocityActual, cfg.motorPolePairs))
            && Abs(reading.velocityActual - ShaftCorrected(cfg, v) * cfg.motorPolePairs) < cfg.motorPolePairs)
  {
  }

  /** The continuity rule: under the torque objective the ramp's target, its
      output and the target speed all equal the actual velocity after the
      tick, so a later switch to the velocity objective starts from the true
      speed. */
  lemma TickTorqueContinuity(s: MotorState, cfg: MotorConfig, ramp: RampGenerator, reading: MotorReadings,
                             pt1: Pt1Filter, rampStep: RampStep, motor: nat)
    requires ConfigOk(cfg) && TorqueMode in s.flags
    ensures var r := TickMotor(s, cfg, ramp, reading, pt1, rampStep, motor);
      && r.ramp.targetVelocity == r.state.actualVelocity
      && r.ramp.rampVelocity == r.state.actualVelocity
      && r.state.targetSpeed == r.state.actualVelocity
  {
  }

  /** A tick never changes the motion objective, so it keeps the state
      machine invariant. */
  lemma TickKeepsObjective(s: MotorState, cfg: MotorConfig, ramp: RampGenerator, reading: MotorReadings,
                           pt1: Pt1Filter, rampStep: RampStep, motor: nat)
    requires ConfigOk(cfg)
    ensures ModeConsistent(s) ==> ModeConsistent(TickMotor(s, cfg, ramp, reading, pt1, rampStep, motor).state)
  {
  }

  /** Under open-loop commutation targets are written only outside the stop
      objective: flux is the open-loop current unless the target speed is 0,
      without shaft correction; torque is 0; the open-loop velocity is the
      shaft-corrected target speed. */
  lemma TickOpenLoopTargets(s: MotorState, cfg: MotorConfig, ramp: RampGenerator, reading: MotorReadings,
                            pt1: Pt1Filter, rampStep: RampStep, motor: nat)
    requires ConfigOk(cfg) && cfg.commutationMode == COMM_MODE_FOC_OPEN_LOOP
    ensures var c := CheckCommutation(s, cfg, motor);
            var r := TickMotor(s, cfg, ramp, reading, pt1, rampStep, motor);
      && (StopMode in s.flags ==> r.ops == c.ops)
      && (StopMode !in s.flags ==>
            r.ops == c.ops +
              [ SwitchToMotionMode(motor, MOTION_MODE_TORQUE),
                UpdateField(motor, FluxTarget,
                            TruncDiv((if r.state.targetSpeed == 0 then 0 else cfg.openLoopCurrent) * 256, cfg.dualShuntFactor)),
                UpdateField(motor, TorqueTarget, 0),
                WriteInt(motor, OpenLoopVelocityTarget, ShaftCorrected(cfg, r.state.targetSpeed)) ])
  {
  }

  /** Under Hall commutation targets are written only outside the stop
      objective and once the module is initialised: the velocity objective
      writes the shaft-corrected target speed times the pole pairs, the torque
      objective the shaft-corrected torque target scaled by 256 over the dual
      shunt factor; both then write the flux target scaled the same way. */
  lemma TickHallTargets(s: MotorState, cfg: MotorConfig, ramp: RampGenerator, reading: MotorReadings,
                        pt1: Pt1Filter, rampStep: RampStep, motor: nat)
    requires ConfigOk(cfg) && cfg.commutationMode == COMM_MODE_FOC_DIGITAL_HALL
    ensures var c := CheckCommutation(s, cfg, motor);
            var r := TickMotor(s, cfg, ramp, reading, pt1, rampStep, motor);
            var fluxOp := UpdateField(motor, FluxTarget, TruncDiv(ShaftCorrected(cfg, s.targetFlux) * 256, cfg.dualShuntFactor));
      && (StopMode in s.flags || ModuleInitialized !in c.state.flags ==> r.ops == c.ops)
      && (StopMode !in s.flags && ModuleInitialized in c.state.flags ==>
            r.ops == c.ops +
              (if s.motionMode == MOTION_MODE_VELOCITY then
                 [ WriteInt(motor, PidVelocityTarget, ShaftCorrected(cfg, r.state.targetSpeed) * cfg.motorPolePairs), fluxOp ]
               else if s.motionMode == MOTION_MODE_TORQUE then
                 [ UpdateField(motor, TorqueTarget, TruncDiv(ShaftCorrected(cfg, s.targetTorque) * 256, cfg.dualShuntFactor)),
                   fluxOp ]
               else []))
  {
  }

  // ===== the firmware's state, in place =====

  /** A motor as it is before `bldc_init` (zero-initialised storage). */
  function ZeroMotorState(): MotorState
  {
    MotorState(0, 0, {}, 0, 0, 0, 0, 0, 0, 0)
  }

  /** The global state of BLDC.c: one record per motor in `motors`, the
      `motorConfig[]` and `rampGenerator[]` tables, the tick gate
      `lastMsCheckTime` and the driver. */
  class BldcController {
    const motors: array<MotorState>
    const configs: array<MotorConfig>
    const ramps: array<RampGenerator>
    const driver: Tmc4671
    var lastMsCheckTime: U32
    var actualSupplyVoltage: int
    var actualMotorTemperature: int

    ghost predicate Valid()
      reads configs
    {
      && motors.Length == NUMBER_OF_MOTORS
      && configs.Length == NUMBER_OF_MOTORS
      && ramps.Length == NUMBER_OF_MOTORS
      && forall k :: 0 <= k < configs.Length ==> ConfigOk(configs[k])
    }

    /** The state-machine invariant on every motor. */
    ghost predicate ModesConsistent()
      reads motors
    {
      forall k :: 0 <= k < motors.Length ==> ModeConsistent(motors[k])
    }

    /** Static storage: motors zeroed, configuration and ramps as loaded by
        code outside this model. */
    constructor (initialConfigs: seq<MotorConfig>, initialRamps: seq<RampGenerator>)
      requires |initialConfigs| == |initialRamps| == NUMBER_OF_MOTORS
      requires forall k :: 0 <= k < |initialConfigs| ==> ConfigOk(initialConfigs[k])
      ensures Valid() && fresh(motors) && fresh(configs) && fresh(ramps) && fresh(driver)
      ensures configs[..] == initialConfigs && ramps[..] == initialRamps
      ensures forall k :: 0 <= k < motors.Length ==> motors[k] == ZeroMotorState()
      ensures lastMsCheckTime == 0 && actualSupplyVoltage == 0 && actualMotorTemperature == 0
      ensures driver.log == []
    {
      motors := new MotorState[NUMBER_OF_MOTORS](_ => ZeroMotorState());
      configs := new MotorConfig[NUMBER_OF_MOTORS](k requires 0 <= k < |initialConfigs| => initialConfigs[k]);
      ramps := new RampGenerator[NUMBER_OF_MOTORS](k requires 0 <= k < |initialRamps| => initialRamps[k]);
      driver := new Tmc4671();
      lastMsCheckTime := 0;
      actualSupplyVoltage := 0;
      actualMotorTemperature := 0;
    }

    /** `bldc_init`. */
    method Init()
      requires Valid()
      modifies motors
      ensures forall k :: 0 <= k < motors.Length ==> motors[k] == InitialMotorState()
      ensures ModesConsistent()
    {
      for i := 0 to NUMBER_OF_MOTORS
        invariant forall k :: 0 <= k < i ==> motors[k] == InitialMotorState()
      {
        motors[i] := InitialMotorState();
      }
    }

    /** `bldc_processBLDC`: one regulation pass per distinct millisecond. */
    method ProcessBLDC(actualTime: U32, readings: seq<MotorReadings>, pt1: Pt1Filter, rampStep: RampStep)
      requires Valid() && |readings| == NUMBER_OF_MOTORS
      modifies this`lastMsCheckTime, motors, ramps, driver
      ensures actualTime == old(lastMsCheckTime) ==>
        && lastMsCheckTime == old(lastMsCheckTime)
        && motors[..] == old(motors[..]) && ramps[..] == old(ramps[..]) && driver.log == old(driver.log)
      ensures actualTime != old(lastMsCheckTime) ==>
        && lastMsCheckTime == actualTime
        && (forall k :: 0 <= k < NUMBER_OF_MOTORS ==>
              motors[k] == TickMotor(old(motors[k]), configs[k], old(ramps[k]), readings[k], pt1, rampStep, k).state
              && ramps[k] == TickMotor(old(motors[k]), configs[k], old(ramps[k]), readings[k], pt1, rampStep, k).ramp)
        && driver.log == old(driver.log) + TickAll(old(motors[..]), configs[..], old(ramps[..]), readings, pt1, rampStep).ops
      ensures old(ModesConsistent()) ==> ModesConsistent()
    {
      if actualTime != lastMsCheckTime {
        ProcessMotors(readings, pt1, rampStep);
        LoopUpToEachMotor(old(motors[..]), old(ramps[..]), Ticks(old(motors[..]), configs[..], old(ramps[..]), readings, pt1, rampStep),
                          NUMBER_OF_MOTORS);
        lastMsCheckTime := actualTime;
        forall k | 0 <= k < NUMBER_OF_MOTORS
          ensures old(ModeConsistent(motors[k])) ==> ModeConsistent(motors[k])
        {
          TickKeepsObjective(old(motors[k]), configs[k], old(ramps[k]), readings[k], pt1, rampStep, k);
        }
      }
    }

    /** The motor loop of `bldc_processBLDC`. */
    method ProcessMotors(readings: seq<MotorReadings>, pt1: Pt1Filter, rampStep: RampStep)
      requires Valid() && |readings| == NUMBER_OF_MOTORS
      modifies motors, ramps, driver
      ensures var r := TickAll(old(motors[..]), configs[..], old(ramps[..]), readings, pt1, rampStep);
        motors[..] == r.motors && ramps[..] == r.ramps && driver.log == old(driver.log) + r.ops
    {
      ghost var ms, rs := motors[..], ramps[..];
      ghost var ts := Ticks(ms, configs[..], rs, readings, pt1, rampStep);
      for motor := 0 to NUMBER_OF_MOTORS
        invariant var r := LoopUpTo(ms, rs, ts, motor);
          motors[..] == r.motors && ramps[..] == r.ramps && driver.log == old(driver.log) + r.ops
      {
        assert motors[motor] == ms[motor] && ramps[motor] == rs[motor];
        ProcessMotor(motor, readings[motor], pt1, rampStep);
        assert ts[motor] == TickMotor(ms[motor], configs[motor], rs[motor], readings[motor], pt1, rampStep, motor);
      }
    }

    /** The body of the motor loop of `bldc_processBLDC`. */
    method ProcessMotor(motor: nat, reading: MotorReadings, pt1: Pt1Filter, rampStep: RampStep)
      requires Valid() && motor < NUMBER_OF_MOTORS
      modifies motors, ramps, driver
      ensures var r := TickMotor(old(motors[motor]), configs[motor], old(ramps[motor]), reading, pt1, rampStep, motor);
        && motors[..] == old(motors[..])[motor := r.state]
        && ramps[..] == old(ramps[..])[motor := r.ramp]
        && driver.log == old(driver.log) + r.ops
    {
      ghost var s0, ramp0, log0 := motors[motor], ramps[motor], driver.log;
      ghost var c := CheckCommutation(s0, configs[motor], motor);
      CheckCommutationMode(motor);
      ReadActualVelocity(motor, reading.velocityActual);
      FilterActualCurrent(motor, reading.torqueFluxActual, pt1);
      RunRamp(motor, rampStep);
      ghost var log1 := driver.log;
      WriteTargets(motor);
      assert log1 == log0 + c.ops;
      assert TickMotor(s0, configs[motor], ramp0, reading, pt1, rampStep, motor)
          == TickResult(motors[motor], ramps[motor], c.ops + TargetOps(motors[motor], configs[motor], motor));
    }

    /** The actual velocity of one tick (BLDC.c:78-82). */
    method ReadActualVelocity(motor: nat, velocityRaw: I32)
      requires Valid() && motor < NUMBER_OF_MOTORS
      modifies motors
      ensures motors[..] == old(motors[..])[motor :=
        old(motors[motor]).(actualVelocity := ActualVelocity(configs[motor], ramps[motor], velocityRaw))]
    {
      var cfg := configs[motor];
      // always read actual velocity with shaft bit correction
      var shaftVelocityActual := TruncDiv(velocityRaw, cfg.motorPolePairs);
      if cfg.shaftBit == 0 {
        shaftVelocityActual := -shaftVelocityActual;
      }
      var actual := if cfg.commutationMode == COMM_MODE_FOC_OPEN_LOOP then ramps[motor].rampVelocity else shaftVelocityActual;
      motors[motor] := motors[motor].(actualVelocity := actual);
    }

    /** The filter update of the actual current of one tick (BLDC.c:85-101). */
    method FilterActualCurrent(motor: nat, torqueFluxValue: I32, pt1: Pt1Filter)
      requires Valid() && motor < NUMBER_OF_MOTORS
      modifies motors
      ensures motors[..] == old(motors[..])[motor := FilterCurrent(old(motors[motor]), configs[motor], torqueFluxValue, pt1)]
    {
      var cfg := configs[motor];
      var actualFluxRaw := FluxOf(torqueFluxValue);
      var actualTorqueRaw := TorqueOf(torqueFluxValue);
      if -RAW_CURRENT_LIMIT < actualTorqueRaw < RAW_CURRENT_LIMIT && -RAW_CURRENT_LIMIT < actualFluxRaw < RAW_CURRENT_LIMIT {
        var actualCurrent := TruncDiv((actualTorqueRaw + actualFluxRaw) * cfg.dualShuntFactor, 256);
        if cfg.commutationMode != COMM_MODE_FOC_OPEN_LOOP {
          // shaft bit correction
          if cfg.shaftBit == 0 {
            actualCurrent := -actualCurrent;
          }
        }
        var s := motors[motor];
        var (akku, filtered) := pt1(s.akkuTorqueFlux, actualCurrent, s.actualTorquePT1, PT1_WEIGHT, PT1_SHIFT);
        motors[motor] := s.(akkuTorqueFlux := akku, actualTorquePT1 := filtered);
      }
    }

    /** The ramp handling of one tick (BLDC.c:103-117). */
    method RunRamp(motor: nat, rampStep: RampStep)
      requires Valid() && motor < NUMBER_OF_MOTORS
      modifies motors, ramps
      ensures var (s, ramp) := UpdateRamp(old(motors[motor]), old(ramps[motor]), rampStep);
        motors[..] == old(motors[..])[motor := s] && ramps[..] == old(ramps[..])[motor := ramp]
    {
      var s := motors[motor];
      var ramp := ramps[motor];
      if VelocityMode in s.flags {
        // the ramp generator computes the target speed
        ramp := rampStep(ramp.(targetVelocity := s.desiredVelocity));
        s := s.(targetSpeed := ramp.rampVelocity);
      }
      if TorqueMode in s.flags {
        // the ramp follows the actual velocity
        ramp := ramp.(targetVelocity := s.actualVelocity, rampVelocity := s.actualVelocity);
        s := s.(targetSpeed := s.actualVelocity);
      }
      motors[motor] := s;
      ramps[motor] := ramp;
    }

    /** The target writes of one tick (BLDC.c:119-167). */
    method WriteTargets(motor: nat)
      requires Valid() && motor < NUMBER_OF_MOTORS
      modifies driver
      ensures driver.log == old(driver.log) + TargetOps(motors[motor], configs[motor], motor)
    {
      var s := motors[motor];
      var cfg := configs[motor];
      if StopMode !in s.flags {
        if cfg.commutationMode == COMM_MODE_FOC_OPEN_LOOP {
          driver.Issue(SwitchToMotionMode(motor, MOTION_MODE_TORQUE));
          var targetFlux := if s.targetSpeed == 0 then 0 else cfg.openLoopCurrent;
          // no shaft bit correction for flux and torque here
          driver.Issue(UpdateField(motor, FluxTarget, TruncDiv(targetFlux * 256, cfg.dualShuntFactor)));
          driver.Issue(UpdateField(motor, TorqueTarget, 0));
          var shaftTargetVelocity := if cfg.shaftBit == 0 then -s.targetSpeed else s.targetSpeed;
          driver.Issue(WriteInt(motor, OpenLoopVelocityTarget, shaftTargetVelocity));
        } else if cfg.commutationMode == COMM_MODE_FOC_DIGITAL_HALL {
          if ModuleInitialized in s.flags {
            var shaftTargetFlux := if cfg.shaftBit == 0 then -s.targetFlux else s.targetFlux;
            if s.motionMode == MOTION_MODE_VELOCITY {
              var shaftTargetVelocity := if cfg.shaftBit == 0 then -s.targetSpeed else s.targetSpeed;
              driver.Issue(WriteInt(motor, PidVelocityTarget, shaftTargetVelocity * cfg.motorPolePairs));
              driver.Issue(UpdateField(motor, FluxTarget, TruncDiv(shaftTargetFlux * 256, cfg.dualShuntFactor)));
            } else if s.motionMode == MOTION_MODE_TORQUE {
              var shaftTargetTorque := if cfg.shaftBit == 0 then -s.targetTorque else s.targetTorque;
              driver.Issue(UpdateField(motor, TorqueTarget, TruncDiv(shaftTargetTorque * 256, cfg.dualShuntFactor)));
              driver.Issue(UpdateField(motor, FluxTarget, TruncDiv(shaftTargetFlux * 256, cfg.dualShuntFactor)));
            }
          }
        }
      }
    }

    // ----- general info -----

    /** `bldc_getSupplyVoltage`. */
    method GetSupplyVoltage() returns (v: int)
      ensures v == actualSupplyVoltage
    {
      v := actualSupplyVoltage;
    }

    /** `bldc_getMotorTemperature`. */
    method GetMotorTemperature() returns (t: int)
      ensures t == actualMotorTemperature
    {
      t := actualMotorTemperature;
    }

    // ----- ADC offset configuration -----

    /** `bldc_getAdcI0Offset`: refreshes the stored offset from the driver's
        register (`driverOffset`) and returns it. */
    method GetAdcI0Offset(motor: nat, driverOffset: U16) returns (offset: U16)
      requires Valid() && motor < NUMBER_OF_MOTORS
      modifies configs
      ensures Valid()
      ensures offset == driverOffset
      ensures configs[..] == old(configs[..])[motor := old(configs[motor]).(adcI0Offset := driverOffset)]
    {
      configs[motor] := configs[motor].(adcI0Offset := driverOffset);
      offset := configs[motor].adcI0Offset;
    }

    /** `bldc_setAdcI0Offset`: stores the offset and writes it to the driver. */
    method SetAdcI0Offset(motor: nat, offset: U16)
      requires Valid() && motor < NUMBER_OF_MOTORS
      modifies configs, driver
      ensures Valid()
      ensures configs[..] == old(configs[..])[motor := old(configs[motor]).(adcI0Offset := offset)]
      ensures driver.log == old(driver.log) + [WriteAdcI0Offset(motor, offset)]
    {
      configs[motor] := configs[motor].(adcI0Offset := offset);
      driver.Issue(WriteAdcI0Offset(motor, configs[motor].adcI0Offset));
    }

    /** `bldc_getAdcI1Offset`. */
    method GetAdcI1Offset(motor: nat, driverOffset: U16) returns (offset: U16)
      requires Valid() && motor < NUMBER_OF_MOTORS
      modifies configs
      ensures Valid()
      ensures offset == driverOffset
      ensures configs[..] == old(configs[..])[motor := old(configs[motor]).(adcI1Offset := driverOffset)]
    {
      configs[motor] := configs[motor].(adcI1Offset := driverOffset);
      offset := configs[motor].adcI1Offset;
    }

    /** `bldc_setAdcI1Offset`. */
    method SetAdcI1Offset(motor: nat, offset: U16)
      requires Valid() && motor < NUMBER_OF_MOTORS
      modifies configs, driver
      ensures Valid()
      ensures configs[..] == old(configs[..])[motor := old(configs[motor]).(adcI1Offset := offset)]
      ensures driver.log == old(driver.log) + [WriteAdcI1Offset(motor, offset)]
    {
      configs[motor] := configs[motor].(adcI1Offset := offset);
      driver.Issue(WriteAdcI1Offset(motor, configs[motor].adcI1Offset));
    }

    // ----- motor settings -----

    /** `bldc_getMotorPolePairs`. */
    method GetMotorPolePairs(motor: nat) returns (polePairs: Byte)
      requires Valid() && motor < NUMBER_OF_MOTORS
      ensures polePairs == configs[motor].motorPolePairs && polePairs >= 1
    {
      polePairs := configs[motor].motorPolePairs;
    }

    /** `bldc_updateMotorPolePairs`: stores the pole pairs and writes them to
        the driver. */
    method UpdateMotorPolePairs(motor: nat, polePairs: Byte)
      requires Valid() && motor < NUMBER_OF_MOTORS
      requires polePairs >= 1
      modifies configs, driver
      ensures Valid()
      ensures configs[..] == old(configs[..])[motor := old(configs[motor]).(motorPolePairs := polePairs)]
      ensures driver.log == old(driver.log) + [SetPolePairs(motor, polePairs)]
    {
      configs[motor] := configs[motor].(motorPolePairs := polePairs);
      driver.Issue(SetPolePairs(motor, configs[motor].motorPolePairs));
    }

    /** `bldc_getMaxMotorCurrent`. */
    method GetMaxMotorCurrent(motor: nat) returns (maxCurrent: U16)
      requires Valid() && motor < NUMBER_OF_MOTORS
      ensures maxCurrent == configs[motor].maximumCurrent
    {
      maxCurrent := configs[motor].maximumCurrent;
    }

    /** `bldc_updateMaxMotorCurrent`: stores the limit and programs the
        driver's torque/flux limit from it. */
    method UpdateMaxMotorCurrent(motor: nat, maxCurrent: U16)
      requires Valid() && motor < NUMBER_OF_MOTORS
      modifies configs, driver
      ensures Valid()
      ensures configs[..] == old(configs[..])[motor := old(configs[motor]).(maximumCurrent := maxCurrent)]
      ensures driver.log == old(driver.log) + [SetTorqueFluxLimit(motor, configs[motor].dualShuntFactor, maxCurrent)]
    {
      configs[motor] := configs[motor].(maximumCurrent := maxCurrent);
      driver.Issue(SetTorqueFluxLimit(motor, configs[motor].dualShuntFactor, maxCurrent));
    }

    /** `bldc_getMotorDirection`. */
    method GetMotorDirection(motor: nat) returns (direction: Byte)
      requires Valid() && motor < NUMBER_OF_MOTORS
      ensures direction == configs[motor].shaftBit
    {
      direction := configs[motor].shaftBit;
    }

    /** `bldc_setMotorDirection`: only 0 and 1 are directions. */
    method SetMotorDirection(motor: nat, direction: Byte) returns (ok: bool)
      requires Valid() && motor < NUMBER_OF_MOTORS
      modifies configs
      ensures Valid()
      ensures ok <==> direction == 0 || direction == 1
      ensures ok ==> configs[..] == old(configs[..])[motor := old(configs[motor]).(shaftBit := direction)]
      ensures !ok ==> configs[..] == old(configs[..])
    {
      if direction == 0 || direction == 1 {
        configs[motor] := configs[motor].(shaftBit := direction);
        return true;
      }
      return false;
    }

    /** `bldc_getCommutationMode`. */
    method GetCommutationMode(motor: nat) returns (mode: Byte)
      requires Valid() && motor < NUMBER_OF_MOTORS
      ensures mode == configs[motor].commutationMode
    {
      mode := configs[motor].commutationMode;
    }

    /** `bldc_setCommutationMode`: only stores the mode; the next tick applies
        it (see `CheckCommutation`). */
    method SetCommutationMode(motor: nat, mode: Byte) returns (ok: bool)
      requires Valid() && motor < NUMBER_OF_MOTORS
      modifies configs
      ensures Valid()
      ensures ok <==> mode in {COMM_MODE_FOC_DISABLED, COMM_MODE_FOC_OPEN_LOOP, COMM_MODE_FOC_DIGITAL_HALL}
      ensures ok ==> configs[..] == old(configs[..])[motor := old(configs[motor]).(commutationMode := mode)]
      ensures !ok ==> configs[..] == old(configs[..])
    {
      if mode == COMM_MODE_FOC_DISABLED || mode == COMM_MODE_FOC_OPEN_LOOP || mode == COMM_MODE_FOC_DIGITAL_HALL {
        configs[motor] := configs[motor].(commutationMode := mode);
        return true;
      }
      return false;
    }

    // ----- torque mode settings -----

    /** `bldc_getTargetMotorCurrent`: the driver's target torque+flux sum in
        mA (`targetSum`), shaft-corrected unless commutation is open loop. */
    method GetTargetMotorCurrent(motor: nat, targetSum: int) returns (current: int)
      requires Valid() && motor < NUMBER_OF_MOTORS
      ensures configs[motor].commutationMode == COMM_MODE_FOC_OPEN_LOOP ==> current == targetSum
      ensures configs[motor].commutationMode != COMM_MODE_FOC_OPEN_LOOP ==> current == ShaftCorrected(configs[motor], targetSum)
    {
      if configs[motor].commutationMode == COMM_MODE_FOC_OPEN_LOOP {
        // no shaft bit correction
        current := targetSum;
      } else if configs[motor].shaftBit == 0 {
        current := -targetSum;
      } else {
        current := targetSum;
      }
    }

    /** `bldc_setTargetMotorCurrent`: refused without closed-loop commutation
        or outside the current limit; otherwise stores the target torque and
        switches to the torque objective. */
    method SetTargetMotorCurrent(motor: nat, targetCurrent: I32) returns (ok: bool)
      requires Valid() && motor < NUMBER_OF_MOTORS
      modifies motors, driver
      ensures ok <==> configs[motor].commutationMode !in {COMM_MODE_FOC_DISABLED, COMM_MODE_FOC_OPEN_LOOP}
                      && -TMCM_MAX_CURRENT <= targetCurrent <= TMCM_MAX_CURRENT
      ensures ok ==>
        && motors[..] == old(motors[..])[motor := SwitchMode(old(motors[motor]).(targetTorque := targetCurrent), MOTION_MODE_TORQUE)]
        && driver.log == old(driver.log) + [SwitchToMotionMode(motor, MOTION_MODE_TORQUE)]
      ensures !ok ==> motors[..] == old(motors[..]) && driver.log == old(driver.log)
      ensures ok ==> ModeConsistent(motors[motor]) && TorqueMode in motors[motor].flags
    {
      var mode := configs[motor].commutationMode;
      if mode == COMM_MODE_FOC_DISABLED || mode == COMM_MODE_FOC_OPEN_LOOP {
        return false;
      }
      if -TMCM_MAX_CURRENT <= targetCurrent <= TMCM_MAX_CURRENT {
        motors[motor] := motors[motor].(targetTorque := targetCurrent);
        SwitchToRegulationMode(motor, MOTION_MODE_TORQUE);
        return true;
      }
      return false;
    }

    /** `bldc_getActualMotorCurrent`: the filtered actual current. */
    method GetActualMotorCurrent(motor: nat) returns (current: int)
      requires Valid() && motor < NUMBER_OF_MOTORS
      ensures current == motors[motor].actualTorquePT1
    {
      current := motors[motor].actualTorquePT1;
    }

    // ----- velocity mode settings -----

    /** `bldc_getTargetVelocity`: the requested, not the ramped, velocity. */
    method GetTargetVelocity(motor: nat) returns (velocity: int)
      requires Valid() && motor < NUMBER_OF_MOTORS
      ensures velocity == motors[motor].desiredVelocity
    {
      velocity := motors[motor].desiredVelocity;
    }

    /** `bldc_setTargetVelocity`: refused with commutation disabled or outside
        the velocity limit; otherwise stores the desired velocity and switches
        to the velocity objective. */
    method SetTargetVelocity(motor: nat, velocity: I32) returns (ok: bool)
      requires Valid() && motor < NUMBER_OF_MOTORS
      modifies motors, driver
      ensures ok <==> configs[motor].commutationMode != COMM_MODE_FOC_DISABLED
                      && -MAX_VELOCITY <= velocity <= MAX_VELOCITY
      ensures ok ==>
        && motors[..] == old(motors[..])[motor := SwitchMode(old(motors[motor]).(desiredVelocity := velocity), MOTION_MODE_VELOCITY)]
        && driver.log == old(driver.log) + [SwitchToMotionMode(motor, MOTION_MODE_VELOCITY)]
      ensures !ok ==> motors[..] == old(motors[..]) && driver.log == old(driver.log)
      ensures ok ==> ModeConsistent(motors[motor]) && VelocityMode in motors[motor].flags
    {
      if configs[motor].commutationMode == COMM_MODE_FOC_DISABLED {
        return false;
      }
      if -MAX_VELOCITY <= velocity <= MAX_VELOCITY {
        motors[motor] := motors[motor].(desiredVelocity := velocity);
        SwitchToRegulationMode(motor, MOTION_MODE_VELOCITY);
        return true;
      }
      return false;
    }

    /** `bldc_getRampGeneratorVelocity`: the ramped target speed. */
    method GetRampGeneratorVelocity(motor: nat) returns (velocity: int)
      requires Valid() && motor < NUMBER_OF_MOTORS
      ensures velocity == motors[motor].targetSpeed
    {
      velocity := motors[motor].targetSpeed;
    }

    /** `bldc_getActualVelocity`. */
    method GetActualVelocity(motor: nat) returns (velocity: int)
      requires Valid() && motor < NUMBER_OF_MOTORS
      ensures velocity == motors[motor].actualVelocity
    {
      velocity := motors[motor].actualVelocity;
    }

    /** `bldc_setMaxVelocity`: 0..MAX_VELOCITY; mirrored into the
        configuration and the ramp, and written to the driver's velocity
        limit in electrical units (times the pole pairs). */
    method SetMaxVelocity(motor: nat, maxVelocity: I32) returns (ok: bool)
      requires Valid() && motor < NUMBER_OF_MOTORS
      modifies configs, ramps, driver
      ensures Valid()
      ensures ok <==> 0 <= maxVelocity <= MAX_VELOCITY
      ensures ok ==>
        && configs[..] == old(configs[..])[motor := old(configs[motor]).(maxPositioningSpeed := maxVelocity)]
        && ramps[..] == old(ramps[..])[motor := old(ramps[motor]).(maxVelocity := maxVelocity)]
        && driver.log == old(driver.log) + [WriteInt(motor, PidVelocityLimit, maxVelocity * configs[motor].motorPolePairs)]
      ensures !ok ==> configs[..] == old(configs[..]) && ramps[..] == old(ramps[..]) && driver.log == old(driver.log)
    {
      if 0 <= maxVelocity <= MAX_VELOCITY {
        configs[motor] := configs[motor].(maxPositioningSpeed := maxVelocity);
        ramps[motor] := ramps[motor].(maxVelocity := maxVelocity);
        driver.Issue(WriteInt(motor, PidVelocityLimit, maxVelocity * configs[motor].motorPolePairs));
        return true;
      }
      return false;
    }

    /** `bldc_setAcceleration`: 0..MAX_ACCELERATION, mirrored into the
        configuration and the ramp. */
    method SetAcceleration(motor: nat, acceleration: I32) returns (ok: bool)
      requires Valid() && motor < NUMBER_OF_MOTORS
      modifies configs, ramps
      ensures Valid()
      ensures ok <==> 0 <= acceleration <= MAX_ACCELERATION
      ensures ok ==>
        && configs[..] == old(configs[..])[motor := old(configs[motor]).(acceleration := acceleration)]
        && ramps[..] == old(ramps[..])[motor := old(ramps[motor]).(acceleration := acceleration)]
      ensures !ok ==> configs[..] == old(configs[..]) && ramps[..] == old(ramps[..])
    {
      if 0 <= acceleration <= MAX_ACCELERATION {
        configs[motor] := configs[motor].(acceleration := acceleration);
        ramps[motor] := ramps[motor].(acceleration := acceleration);
        return true;
      }
      return false;
    }

    /** `bldc_setRampEnabled`: 0 or 1, mirrored into the configuration and
        the ramp. */
    method SetRampEnabled(motor: nat, enableRamp: I32) returns (ok: bool)
      requires Valid() && motor < NUMBER_OF_MOTORS
      modifies configs, ramps
      ensures Valid()
      ensures ok <==> enableRamp == 0 || enableRamp == 1
      ensures ok ==>
        && configs[..] == old(configs[..])[motor := old(configs[motor]).(useVelocityRamp := enableRamp)]
        && ramps[..] == old(ramps[..])[motor := old(ramps[motor]).(rampEnabled := enableRamp)]
      ensures !ok ==> configs[..] == old(configs[..]) && ramps[..] == old(ramps[..])
    {
      if enableRamp == 0 || enableRamp == 1 {
        configs[motor] := configs[motor].(useVelocityRamp := enableRamp);
        ramps[motor] := ramps[motor].(rampEnabled := enableRamp);
        return true;
      }
      return false;
    }

    // ----- motion objective -----

    /** `bldc_switchToRegulationMode`. */
    method SwitchToRegulationMode(motor: nat, mode: Byte)
      requires Valid() && motor < NUMBER_OF_MOTORS
      modifies motors, driver
      ensures motors[..] == old(motors[..])[motor := SwitchMode(old(motors[motor]), mode)]
      ensures driver.log == old(driver.log) + SwitchModeOps(motor, mode)
    {
      var s := motors[motor];
      s := s.(flags := s.flags - MODE_FLAGS);
      if mode == MOTION_MODE_VELOCITY {
        s := s.(flags := s.flags + {VelocityMode}, motionMode := MOTION_MODE_VELOCITY);
        driver.Issue(SwitchToMotionMode(motor, MOTION_MODE_VELOCITY));
      } else if mode == MOTION_MODE_TORQUE {
        s := s.(flags := s.flags + {TorqueMode}, motionMode := MOTION_MODE_TORQUE);
        driver.Issue(SwitchToMotionMode(motor, MOTION_MODE_TORQUE));
      } else if mode == MOTION_MODE_STOPPED {
        s := s.(flags := s.flags + {StopMode}, motionMode := MOTION_MODE_STOPPED);
      }
      motors[motor] := s;
    }

    // ----- hall sensor settings -----

    /** `bldc_updateHallSettings`: the three hall bits of the configuration go
        to the HALL_MODE field (one mask bit each), then the electrical angle
        offset to its field. */
    method UpdateHallSettings(motor: nat)
      requires Valid() && motor < NUMBER_OF_MOTORS
      modifies driver
      ensures var c := configs[motor];
        driver.log == old(driver.log)
          + [UpdateHallMode(motor, c.hallPolarity, c.hallDirection, c.hallInterpolation),
             UpdateHallPhiEOffset(motor, c.hallPhiEOffset)]
    {
      var c := configs[motor];
      driver.Issue(UpdateHallMode(motor, c.hallPolarity, c.hallDirection, c.hallInterpolation));
      driver.Issue(UpdateHallPhiEOffset(motor, c.hallPhiEOffset));
    }

    /** `bldc_checkCommutationMode`. */
    method CheckCommutationMode(motor: nat)
      requires Valid() && motor < NUMBER_OF_MOTORS
      modifies motors, driver
      ensures var r := CheckCommutation(old(motors[motor]), configs[motor], motor);
        motors[..] == old(motors[..])[motor := r.state] && driver.log == old(driver.log) + r.ops
    {
      var mode := configs[motor].commutationMode;
      if motors[motor].lastCommutationMode != mode {
        if mode == COMM_MODE_FOC_DISABLED {
          driver.Issue(WriteInt(motor, UqUdExt, 0));
          driver.Issue(WriteInt(motor, PhiESelection, PHI_E_EXTERNAL));
          driver.Issue(SwitchToMotionMode(motor, MOTION_MODE_UQ_UD_EXT));
          driver.Issue(WriteInt(motor, OpenLoopVelocityTarget, 0));
          motors[motor] := motors[motor].(flags := motors[motor].flags - {ModuleInitialized});
        } else if mode == COMM_MODE_FOC_OPEN_LOOP {
          driver.Issue(WriteInt(motor, PhiESelection, PHI_E_OPEN_LOOP));
          driver.Issue(SwitchToMotionMode(motor, MOTION_MODE_TORQUE));
          motors[motor] := motors[motor].(flags := motors[motor].flags + {ModuleInitialized});
        } else if mode == COMM_MODE_FOC_DIGITAL_HALL {
          driver.Issue(WriteInt(motor, PhiESelection, PHI_E_HALL));
          driver.Issue(SwitchToMotionMode(motor,
            if TorqueMode in motors[motor].flags then MOTION_MODE_TORQUE else MOTION_MODE_VELOCITY));
          motors[motor] := motors[motor].(flags := motors[motor].flags + {ModuleInitialized});
        }
        motors[motor] := motors[motor].(lastCommutationMode := mode);
      }
    }
  }
}
