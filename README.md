# TMC4671 BLDC reference firmware: regulation core and TMCL interpreter

This project models three parts of the firmware of the TMC4671-TMC6100-TOSV
reference module and proves properties of each:

- **BLDC.c**, the per-motor regulation core:
  - the motion-objective state machine (stop, torque, velocity) and its status flags;
  - the edge-triggered commutation reconfiguration (disabled, open loop, digital hall);
  - the validating setters and the getters;
  - the 1 ms regulation tick. Each tick reads the actual velocity and the packed
    torque/flux current from the TMC4671 field-oriented-control driver, filters the
    current, runs or pins the velocity ramp, and writes new targets to the driver.
- **TMCL.c**, the TMCL command interpreter on the USB interface:
  - the 9-byte request frame with its address byte and its additive `uint8_t` checksum;
  - the reply frame, and the fixed checksum-error reply;
  - opcode dispatch and the axis-parameter validator (`SAP`/`GAP`);
  - `GetVersion`, the software reset with its magic value and the bootloader's magic check.
- **hal/system/SysTick.c**: the interrupt handler, whose divide-by-two prescaler
  produces the millisecond timer that gates the regulation tick, and the UART
  receive timeout it counts down.

## How the model is laid out

- `ctypes.dfy` (module `CTypes`): the C integer types of the Cortex-M target and
  the C operators that differ from Dafny's on `int`:
  - `/` truncating toward zero;
  - the `int16_t`, `uint32_t` and `int32_t` casts.
- `systick.dfy` (module `SysTick`): the handler as a function on its four
  variables, and a class `SysTickTimer` whose `Handler` method is proved against it.
- `bldc.dfy` (module `Bldc`):
  - The regulation on values: `SwitchMode`, `CheckCommutation`, `TickMotor` and its parts.
  - The lemmas about the regulation.
  - The class `BldcController`. It holds the per-motor records, `motorConfig[]` and
    `rampGenerator[]` as arrays, and the tick gate `lastMsCheckTime`. Every method
    that changes state is proved against the value functions.
  - The TMC4671 is a class `Tmc4671`. Every register write the firmware issues is
    appended to its log. Every register read is an input of the method that performs it.
- `tmcl.dfy` (module `Tmcl`):
  - Frames, checksum, parsing and encoding, with their round trips and the
    single-byte-corruption property.
  - `AxisParameter`, the axis-parameter handler as a function, and lemmas about
    its validation.
  - The class `TmclInterpreter`: `ProcessCommand`, `ExecuteActualCommand` and the
    command handlers, proved against the functions. Frames sent to the host and
    CPU resets are recorded in a ghost event log.

Integer widths are modelled where they change results:
- the `uint32_t` millisecond timer wraps at 2^32;
- the checksum is a `uint8_t` sum;
- the packed torque/flux register is split into two `int16_t` halves;
- values passed from TMCL into BLDC setters are narrowed to their parameter type:
  `uint16_t` for the ADC offsets and the maximum current, `uint8_t` for the
  commutation mode.

Three behaviours of the code are easy to misread; the model follows the code:
- `bldc_switchToRegulationMode` (BLDC.c:378-399) sends the motion-mode request to
  the driver for velocity and torque whatever the commutation mode, not only
  under hall commutation.
- On a change to hall commutation, `bldc_checkCommutationMode` (BLDC.c:445) requests
  the torque mode when the torque flag is set and the velocity mode otherwise,
  also under the stop objective.
- The code has no pressure or volume regulation, no safety monitor and no flow
  integrator, so none is modelled.

## Model

| member | source | states |
|---|---|---|
| CTypes.TruncDiv | BLDC.c:78-79 | the quotient of C's signed `/`: the remainder is smaller than the divisor in magnitude and has the sign of the dividend |
| CTypes.ToI16 | BLDC.c:86-87 | an `int16_t` cast of a 16-bit pattern agrees with the pattern modulo 2^16 and is negative exactly when bit 15 is set |
| SysTick.HandlerStep | hal/system/SysTick.c:22-46 | the call with the prescaler flag clear only sets the flag; the call with it set advances the timer by one modulo 2^32 and clears the flag; the UART timeout counts down by exactly one on every millisecond while above zero and otherwise stays; the timeout flag is raised exactly when the countdown goes from 1 to 0 |
| SysTick.TwoCallsAdvanceByOne | hal/system/SysTick.c:22-46 | any two consecutive interrupts advance the millisecond timer by exactly one and keep the prescaler phase |
| SysTick.TimerCountsHalfTheInterrupts | hal/system/SysTick.c:22-46 | after 2k interrupts the timer has advanced by k modulo 2^32 and the prescaler is back in its phase |
| SysTick.SysTickTimer.constructor | hal/system/SysTick.c:10-11 | the timer and the prescaler flag start at zero |
| SysTick.SysTickTimer.Handler | hal/system/SysTick.c:22-46 | the handler changes its variables exactly as `HandlerStep` |
| SysTick.SysTickTimer.GetTimer | hal/system/SysTick.c:60-63 | returns the millisecond count without changing it |
| Bldc.SwitchMode | BLDC.c:378-399 | velocity, torque and stop set exactly their own mode flag, clear the other four mode flags and set `gMotionMode`; any other mode clears all mode flags and keeps `gMotionMode`; the initialised flag and all other fields are kept |
| Bldc.CheckCommutation | BLDC.c:425-451 | nothing happens while the applied commutation mode equals the configured one; afterwards the configured mode is the applied one; only the initialised flag and the applied mode change |
| Bldc.InitialStateStoppedAndReconfigures | BLDC.c:37-60 | after init every motor is stopped with exactly the stop flag; because 0xFF is no commutation mode, the first check reconfigures whatever mode is configured |
| Bldc.CheckCommutationIdempotent | BLDC.c:425-451 | a second commutation check with the same configuration does nothing and writes nothing |
| Bldc.CheckCommutationEffect | BLDC.c:427-449 | on a change: disabling clears the initialised flag; open loop and hall set it; open loop requests torque mode; hall requests torque mode exactly when the torque flag is set and velocity mode otherwise |
| Bldc.TorqueOf | BLDC.c:87 | the actual torque is bits 16..31 of PID_TORQUE_FLUX_ACTUAL, read as an `int16_t` |
| Bldc.FluxOf | BLDC.c:86 | the actual flux is bits 0..15 of PID_TORQUE_FLUX_ACTUAL, read as an `int16_t` |
| Bldc.ActualVelocity | BLDC.c:78-82 | under open loop the actual velocity is the ramp velocity; otherwise the shaft-corrected quotient by the pole pairs, truncated toward zero: the remainder is less than one pole pair in magnitude and has the sign of the register value |
| Bldc.FilterCurrent | BLDC.c:84-101 | only the filter accumulator and the filtered current change; a reading with either half outside (-32000, 32000) is discarded |
| Bldc.UpdateRamp | BLDC.c:103-117 | only the target speed of the motor record changes; under the torque objective target speed, ramp target and ramp output all become the actual velocity, and the ramp's other fields are those it had (torque alone) or those after one ramp step (both flags); under the velocity objective alone the ramp makes one step toward the desired velocity and its output becomes the target speed; with neither nothing changes |
| Bldc.TargetOps | BLDC.c:119-167 | no target writes under the stop objective, with commutation disabled, or under hall commutation before initialisation; at most four writes |
| Bldc.TargetOpsAddressMotor | BLDC.c:119-167 | every target write the tick issues addresses the motor being regulated |
| Bldc.TickMotor | BLDC.c:73-168 | the commutation writes come first, followed by at most four target writes; the configured commutation mode ends up applied; the actual velocity is `ActualVelocity` of the register value; the motion mode, the mode flags and the three set-points are kept |
| Bldc.TorqueFluxRoundTrip | BLDC.c:85-87 | splitting PID_TORQUE_FLUX_ACTUAL into its two `int16_t` halves loses nothing: packing the halves gives the register back, and the halves of a packed value are the values packed |
| Bldc.FilterOnlyValidReadings | BLDC.c:84-101 | a reading with a half outside (-32000, 32000) leaves the filter state untouched; a valid one feeds the PT1 filter the current scaled by the dual-shunt factor over 256, shaft-corrected unless commutation is open loop; nothing else changes |
| Bldc.TickActualVelocity | BLDC.c:77-82 | actual velocity is the ramp velocity under open loop; otherwise it is the register value divided by the pole pairs with C truncation, negated for shaft bit 0, within one pole-pair count of the exact quotient |
| Bldc.TickTorqueContinuity | BLDC.c:111-117 | under the torque objective the ramp's target, its output and the target speed all equal the actual velocity after the tick |
| Bldc.TickKeepsObjective | BLDC.c:73-168 | a tick preserves the one-objective invariant |
| Bldc.TickOpenLoopTargets | BLDC.c:119-140 | under open loop, a stopped motor gets no target writes; otherwise it gets torque mode, flux = open-loop current (0 at zero speed) without shaft correction, torque 0, and the shaft-corrected target speed as open-loop velocity |
| Bldc.TickHallTargets | BLDC.c:141-166 | under Hall commutation nothing is written when stopped or before initialisation; otherwise the velocity objective writes the shaft-corrected target speed times the pole pairs, and the torque objective the shaft-corrected torque target times 256 divided (truncating) by the dual shunt factor, each followed by the flux target scaled the same way; any other objective writes nothing |
| Bldc.BldcController.constructor | BLDC.c:14-33 | motor records zeroed, configurations and ramps as given, tick gate at 0, no driver writes |
| Bldc.BldcController.Init | BLDC.c:37-60 | every motor gets the initial state: stopped, stop flag only, last commutation 0xFF, filters, targets and velocities zero; the one-objective invariant holds for every motor |
| Bldc.BldcController.ProcessBLDC | BLDC.c:63-171 | a call in the same millisecond as the last tick changes nothing; otherwise it records the time, each motor's state and ramp become those of `TickMotor`, the driver receives the writes of all motors in loop order, and the one-objective invariant is preserved |
| Bldc.LoopUpTo | BLDC.c:73-168 | after the first n iterations of the motor loop, the motors not yet reached keep their record and ramp |
| Bldc.LoopUpToEachMotor | BLDC.c:73-168 | after the first n iterations, every motor already passed holds the record and ramp of its own tick; later iterations never overwrite an earlier motor |
| Bldc.BldcController.ProcessMotors | BLDC.c:73-168 | after the loop the motor records, ramps and driver writes are those of `TickAll`: each motor ticked once, the writes of all motors appended in loop order |
| Bldc.BldcController.ProcessMotor | BLDC.c:75-167 | one loop iteration updates only that motor's record and ramp, as `TickMotor` says, and appends its writes |
| Bldc.BldcController.ReadActualVelocity | BLDC.c:77-82 | only the motor's actual velocity changes, to `ActualVelocity` of the register value |
| Bldc.BldcController.FilterActualCurrent | BLDC.c:84-101 | only the motor's filter state changes, as `FilterCurrent` says |
| Bldc.BldcController.RunRamp | BLDC.c:103-117 | the motor's record and ramp change as `UpdateRamp` says |
| Bldc.BldcController.WriteTargets | BLDC.c:119-167 | the driver receives exactly `TargetOps` of the motor's state and configuration |
| Bldc.BldcController.GetSupplyVoltage | BLDC.c:175-178 | returns the stored supply voltage |
| Bldc.BldcController.GetMotorTemperature | BLDC.c:180-183 | returns the stored motor temperature |
| Bldc.BldcController.GetAdcI0Offset | BLDC.c:187-191 | the stored phase A offset is refreshed from the driver register and returned; nothing else changes |
| Bldc.BldcController.SetAdcI0Offset | BLDC.c:193-197 | stores the phase A offset and writes it to the driver |
| Bldc.BldcController.GetAdcI1Offset | BLDC.c:199-203 | the stored phase B offset is refreshed from the driver register and returned; nothing else changes |
| Bldc.BldcController.SetAdcI1Offset | BLDC.c:205-209 | stores the phase B offset and writes it to the driver |
| Bldc.BldcController.GetMotorPolePairs | BLDC.c:213-216 | returns the configured pole pairs, which are at least 1 |
| Bldc.BldcController.UpdateMotorPolePairs | BLDC.c:218-222 | stores the pole pairs and programs them into the driver; nothing else changes |
| Bldc.BldcController.GetMaxMotorCurrent | BLDC.c:224-227 | returns the configured maximum current |
| Bldc.BldcController.UpdateMaxMotorCurrent | BLDC.c:229-233 | stores the maximum current and programs the driver's torque/flux limit from it and the dual-shunt factor |
| Bldc.BldcController.GetMotorDirection | BLDC.c:235-238 | returns the shaft bit |
| Bldc.BldcController.SetMotorDirection | BLDC.c:240-248 | succeeds exactly for 0 and 1; on success only the shaft bit changes, on refusal nothing does |
| Bldc.BldcController.GetCommutationMode | BLDC.c:250-253 | returns the configured commutation mode |
| Bldc.BldcController.SetCommutationMode | BLDC.c:255-265 | succeeds exactly for the three commutation modes; on success only the configured mode changes (the next tick applies it), on refusal nothing does |
| Bldc.BldcController.GetTargetMotorCurrent | BLDC.c:269-282 | the driver's target torque+flux sum, negated for shaft bit 0 unless commutation is open loop |
| Bldc.BldcController.SetTargetMotorCurrent | BLDC.c:284-299 | succeeds exactly when commutation is neither disabled nor open loop and the current is within ±5000; on success stores the target torque, switches to the torque objective and requests torque mode; on refusal nothing changes |
| Bldc.BldcController.GetActualMotorCurrent | BLDC.c:301-304 | returns the filtered actual current |
| Bldc.BldcController.GetTargetVelocity | BLDC.c:308-311 | returns the requested (not the ramped) velocity |
| Bldc.BldcController.SetTargetVelocity | BLDC.c:314-328 | succeeds exactly when commutation is not disabled and the velocity is within ±200000; on success stores the desired velocity, switches to the velocity objective and requests velocity mode; on refusal nothing changes |
| Bldc.BldcController.GetRampGeneratorVelocity | BLDC.c:331-334 | returns the ramped target speed |
| Bldc.BldcController.GetActualVelocity | BLDC.c:337-340 | returns the actual velocity of the last tick |
| Bldc.BldcController.SetMaxVelocity | BLDC.c:342-352 | succeeds exactly for 0..200000; on success the configuration and the ramp get the limit and the driver's velocity limit gets it times the pole pairs; on refusal nothing changes |
| Bldc.BldcController.SetAcceleration | BLDC.c:354-363 | succeeds exactly for 0..100000; on success the configuration and the ramp get it; on refusal nothing changes |
| Bldc.BldcController.SetRampEnabled | BLDC.c:365-374 | succeeds exactly for 0 and 1; on success the configuration and the ramp get it; on refusal nothing changes |
| Bldc.BldcController.SwitchToRegulationMode | BLDC.c:378-399 | the motor's record changes as `SwitchMode` says; the driver gets a motion-mode request for velocity and torque only |
| Bldc.BldcController.UpdateHallSettings | BLDC.c:403-421 | the driver gets the three hall mode bits of the configuration, then its electrical-angle offset |
| Bldc.BldcController.CheckCommutationMode | BLDC.c:425-451 | the motor's record and the driver writes are those of `CheckCommutation` |
| Tmcl.ValueBytesJoin | TMCL.c:204-217 | joining the four value bytes a frame carries gives back the value that was split |
| Tmcl.ValueBytesSplit | TMCL.c:140-148 | splitting the value joined from four bytes gives back the same bytes |
| Tmcl.CommandRoundTrip | TMCL.c:200-220 | a request encoded for this module is accepted and decodes to exactly the command sent |
| Tmcl.ParseFrame | TMCL.c:200-218 | a frame is for another module exactly when its first byte is not the module address; it is accepted exactly when addressed and byte 8 is the `uint8_t` sum of bytes 0..7; an accepted frame is exactly the encoding of the command it yields |
| Tmcl.EncodeReply | TMCL.c:136-149 | the reply frame starts with the host and the module address and ends with the `uint8_t` sum of its first eight bytes |
| Tmcl.ReplyRoundTrip | TMCL.c:136-149 | a standard reply frame decodes back to the reply it was built from |
| Tmcl.EchoedValueBytes | TMCL.c:50-55 | a reply echoing a request's value carries the request's value bytes at the same positions |
| Tmcl.ChecksumErrorReplyFrame | TMCL.c:160-183 | the checksum-error reply is the fixed frame: status 1, opcode 0, value 0, checksum of the addresses plus 1 |
| Tmcl.Sum8 | TMCL.c:136-139 | the sum over the eight reply bytes is the explicit eight-term sum the reply checksum adds up |
| Tmcl.SumUpdate | TMCL.c:204-206 | replacing one byte changes the sum by the difference of the bytes |
| Tmcl.SingleByteCorruptionDetected | TMCL.c:202-218 | changing any single byte after the address byte of an accepted frame makes it a checksum error, so it is never executed |
| Tmcl.ShiftChangesResidue | TMCL.c:204-208 | a nonzero change smaller than 256 always changes the `uint8_t` sum |
| Tmcl.AxisParameter | TMCL.c:246-411 | status OK or INVALID_VALUE; a refused SAP is for motor 0 and changes nothing; only SAP changes the configuration (GAP only refreshes the ADC offsets); only GAP changes the value; the configuration stays valid for regulation whatever the host sends |
| Tmcl.AxisParameterIgnored | TMCL.c:251-408 | another motor, or a type without a case, is answered OK with the value echoed and changes nothing |
| Tmcl.SapValidation | TMCL.c:272-400 | SAP accepts pole pairs exactly in 1..255, maximum and open-loop current exactly in 0..TMCM_MAX_TORQUE, commutation modes exactly 0..2 after `uint8_t` narrowing, ADC offsets always, each stored as its low 16 bits; accepted values are stored, refused ones change nothing |
| Tmcl.SapThenGap | TMCL.c:304-400 | what SAP stores, GAP reads back (pole pairs, open-loop current; maximum current when the limit fits 16 bits; commutation mode for byte values) |
| Tmcl.CommutationModeTruncated | TMCL.c:386-391 | SAP of commutation mode 256 is accepted as mode 0 (disabled) through the 8-bit parameter, and GAP then reads 0 |
| Tmcl.BootMagicIsOneValue | TMCL.c:489-493 | the bootloader is entered for exactly type 0x81, motor 0x92 and value 0xA3B4C5D6 |
| Tmcl.VersionValue | TMCL.c:462-467 | the version value is 0x00140100, bytes software type high, low, version high, low |
| Tmcl.FrameChecksum | TMCL.c:204-206 | the receive loop computes the `uint8_t` sum of bytes 0..7 |
| Tmcl.PendingReply | TMCL.c:132-184 | one frame is owed exactly when the command state is not idle, and it is a send, never a reset; a special reply goes out as stored; a standard or checksum-error reply is a nine-byte frame from this module to the host with a valid checksum |
| Tmcl.PendingReplyDecodes | TMCL.c:132-184 | the owed standard frame decodes to the reply; the frame owed after a checksum error decodes to status CHKERR, opcode 0, value 0, whatever the previous reply was |
| Tmcl.TmclInterpreter.constructor | TMCL.c:20-23 | static storage: no reply owed, standard format (TCS_IDLE and RF_STANDARD taken as 0), no reset requested, command and reply zero |
| Tmcl.TmclInterpreter.ProcessCommand | TMCL.c:118-226 | the reply owed for the previous request is sent first (standard, special or checksum-error frame), then the armed reset; an accepted frame becomes the command and is executed with the effects `Executed` describes, starting from standard format and the events already sent; a frame for another module or with a wrong checksum is not executed and changes only the reply bookkeeping |
| Tmcl.TmclInterpreter.SendPendingReply | TMCL.c:132-184 | sends exactly the reply frame owed for the command state; after a checksum error the reply becomes the checksum-error reply |
| Tmcl.TmclInterpreter.BuildReply | TMCL.c:136-149 | the reply frame is the encoding of the reply and decodes back to it, with a valid checksum |
| Tmcl.TmclInterpreter.ReceiveRequest | TMCL.c:200-220 | an accepted frame sets the command and the USB state; a wrong checksum sets the error state only; a frame for another module changes nothing |
| Tmcl.TmclInterpreter.ExecuteActualCommand | TMCL.c:50-110 | the reply echoes the opcode, events are only appended, and the effect is `Executed`: per opcode the exact reply and the one change to the rest of the state, with everything else unchanged. Unknown opcodes answer INVALID_CMD and change nothing; ROR/ROL/MST change nothing; SAP/GAP/STAP/RSAP follow `AxisParameter` on motor 0's configuration; SIO and GIO answer per bank and change nothing else; register reads answer the register for motors 0 and 1; a register write reaches motor 0's driver only; the reset is armed by the magic value only; the bootloader is entered on the magic command only; GetVersion type 0 switches to the special frame, type 1 answers the version value |
| Tmcl.TmclInterpreter.HandleAxisParameter | TMCL.c:246-411 | status, value, configuration and driver writes are those of `AxisParameter`; the reply status gets INVALID_VALUE for another motor and WRONG_TYPE for an unknown type |
| Tmcl.TmclInterpreter.SetOutput | TMCL.c:414-428 | only bank 2 is valid; any other bank answers INVALID_VALUE |
| Tmcl.TmclInterpreter.GetInput | TMCL.c:431-448 | bank 0 leaves the value, bank 1 answers the analog input, bank 2 the output status, others INVALID_VALUE |
| Tmcl.TmclInterpreter.GetVersion | TMCL.c:451-469 | type 0 answers the special frame: host address followed by the first eight version-string bytes; type 1 answers the version value; other types change nothing |
| Tmcl.TmclInterpreter.Boot | TMCL.c:489-514 | a CPU reset without peripherals happens exactly for the magic command |
| Tmcl.TmclInterpreter.SoftwareReset | TMCL.c:517-521 | a reset is armed exactly when the value is 1234; an armed reset stays armed |

## Left out

- Bldc.BldcController.UpdateMotorPolePairs: requires at least one pole pair. The C accepts 0, after which the tick divides by zero. Its only caller, SAP type 10, rejects 0.
- tmc_filterPT1 and tmc_linearRamp_computeRampVelocity are not part of this model. They are function parameters of the tick, so properties hold for any filter and ramp.
- TMC-API driver access: register reads (velocity, torque/flux, ADC raw data, offsets, the target torque+flux sum) are inputs of the methods that read them. Writes are recorded as abstract operations, not as register bit patterns. The hall mode mask bits are recorded as three booleans.
- systemInfo_incVelocityLoopCounter (BLDC.c:71) is not part of this model. It only counts ticks.
- flags_init (BLDC.c:57) is taken to clear every status flag; the flags module is not part of this model.
- The millisecond timer is a parameter of ProcessBLDC rather than a call to `systick_getTimer`. The main loop interleaves the interrupt and the regulation, and that concurrency is not modelled.
- The supply voltage and the motor temperature are only read here. Nothing in the core writes them.
- `int32_t` overflow of products and negations (for example `shaftTargetVelocity * motorPolePairs`, or negating -2^31) is not modelled. These values are unbounded integers.
- Only the USB interface path of TMCL.c is modelled, as if USE_USB_INTERFACE were defined. The UART path and its error state are not shown in the code. The one module header available, hal/modules/TMC4671-TMC6100-TOSV-REF_v1.0.h:27, defines USE_UART_INTERFACE instead. Under that header the frame handling TMCL.c keeps under `#ifdef USE_USB_INTERFACE` (TMCL.c:123-220) is compiled out, while the UART receive countdown of SysTick.c:29 is compiled in. The model therefore combines the two configurations: the USB frame path of TMCL.c and the UART countdown of SysTick.c.
- usb_getUSBCmd and usb_sendData: a received frame is the `Option<Frame>` input of ProcessCommand, and a sent frame is a `Sent` event.
- tmcl_resetCPU and the teardown in tmcl_boot (driver shutdown, USB detach, the one-second wait, NVIC_DeInit, the peripheral deinitialisation) are recorded as a `CpuReset` event. The model keeps executing afterwards, whereas the hardware restarts.
- The TMC6200 register read and write passthrough (TMCL.c:91-98, motor 1) is not recorded. Its read value is an input, and its write is not logged.
- bldc_setMotorType and bldc_getMotorType are not part of this model. The acceptance and the value of axis parameter 14 are inputs.
- tmcm_getModuleSpecificADCValue and tmcm_getModuleSpecificIOPinStatus are inputs. The digital output pin that SIO sets is hardware and is not modelled.
- The ROR, ROL and MST handlers (TMCL.c:229-244) have their bodies commented out. They are modelled as having no effect.
- The EEPROM branches of STAP and RSAP are commented out, so those commands answer OK with no effect.
- Axis parameters 5 and 6 test the result of `bldc_setAdcI0Offset`/`bldc_setAdcI1Offset`, which BLDC.c declares `void`. These SAPs are modelled as always succeeding.
- TMCL.c:388 and TMCL.c:391 call the commutation-mode setter and getter without a motor argument. They are modelled with BLDC.c's signatures, for motor 0, with the value narrowed to `uint8_t`.
- TMCL.c:341 and TMCL.c:345 access `motorConfig.openLoopCurrent`. This is read as motor 0's configuration.
- The TMCL opcodes and REPLY_* status codes, the commutation modes 0/1/2, the motion modes 0/1/2/8 and the PHI_E selections 1/2/5, the command states TCS_IDLE/TCS_USB/TCS_USB_ERROR/TCS_UART_ERROR and the reply formats RF_STANDARD/RF_SPECIAL are the values of the TMCL protocol and the TMC4671 register map. The headers that define them (TMCL.h, BLDC.h and the TMC-API headers) are not part of this model, so these values are assumed. In particular, the zero-initialised statics are read as TCS_IDLE and RF_STANDARD, which assumes both are 0. The module header defines only NUMBER_OF_MOTORS, MAX_VELOCITY, MAX_ACCELERATION, TMCM_MAX_CURRENT and the software type and version. TMCM_MAX_TORQUE is defined nowhere in the available files, so it is a constructor parameter of TmclInterpreter.
- The globals ActualCommand, ActualReply, SpecialReply and TMCLReplyFormat are declared in TMCL-Variables.h, which is not part of this model; they are fields of TmclInterpreter. The function-local static TMCLCommandState (TMCL.c:120) is a field as well. TMCLLastError and TMCLTickTimer are never used by the core.
- tmcl_init (empty), the SPI byte wrappers (TMCL.c:38-47) and systick_init are not modelled. They have no effect on the modelled state.
