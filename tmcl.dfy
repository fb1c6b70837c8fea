/** The TMCL command interpreter of TMCL.c: 9-byte request frames with an
    additive checksum, the reply frame, opcode dispatch, the axis-parameter
    validator and the version, boot and reset commands. */
module Tmcl {
  import opened CTypes
  import opened Bldc

  // ===== TMCL numbers =====

  // The opcodes and status codes are those of the TMCL protocol; the header
  // that defines them (TMCL.h) is not part of this model.

  // opcodes
  const TMCL_ROR: Byte := 1
  const TMCL_ROL: Byte := 2
  const TMCL_MST: Byte := 3
  const TMCL_SAP: Byte := 5
  const TMCL_GAP: Byte := 6
  const TMCL_STAP: Byte := 7
  const TMCL_RSAP: Byte := 8
  const TMCL_SIO: Byte := 14
  const TMCL_GIO: Byte := 15
  const TMCL_GET_VERSION: Byte := 136
  const TMCL_READ_REGISTER_CHANNEL_1: Byte := 146
  const TMCL_WRITE_REGISTER_CHANNEL_1: Byte := 148
  const TMCL_BOOT: Byte := 0xF2
  const TMCL_SOFTWARE_RESET: Byte := 0xFF

  // reply status codes
  const REPLY_OK: Byte := 100
  const REPLY_CHKERR: Byte := 1
  const REPLY_INVALID_CMD: Byte := 2
  const REPLY_WRONG_TYPE: Byte := 3
  const REPLY_INVALID_VALUE: Byte := 4

  // firmware identification of the module
  const SW_TYPE_HIGH: Byte := 0x00
  const SW_TYPE_LOW: Byte := 0x14
  const SW_VERSION_HIGH: Byte := 1
  const SW_VERSION_LOW: Byte := 0

  /** The value `tmcl_softwareReset` requires before it arms a reset. */
  const RESET_MAGIC := 1234

  datatype Option<T> = None | Some(value: T)

  // ===== the 32-bit value field =====

  /** `Value.Byte[k]` of the `Int32`/`Byte[4]` union on the little-endian
      target: byte 0 is the least significant. */
  function ValueByte(v: I32, k: nat): Byte
    requires k < 4
  {
    var u := ToU32(v);
    var q1 := u / 0x100;
    var q2 := q1 / 0x100;
    var q3 := q2 / 0x100;
    if k == 0 then u % 0x100 else if k == 1 then q1 % 0x100 else if k == 2 then q2 % 0x100 else q3
  }

  /** The `Int32` whose `Byte[3]`..`Byte[0]` are the given bytes. */
  function ValueOfBytes(b3: Byte, b2: Byte, b1: Byte, b0: Byte): I32
  {
    ToI32(((b3 * 0x100 + b2) * 0x100 + b1) * 0x100 + b0)
  }

  /** The value's bytes in the order a frame carries them: `Byte[3]` first. */
  function ValueBytes(v: I32): seq<Byte>
  {
    [ValueByte(v, 3), ValueByte(v, 2), ValueByte(v, 1), ValueByte(v, 0)]
  }

  lemma DivModUnique(x: int, q: int, r: int)
    requires x == q * 0x100 + r && 0 <= r < 0x100
    ensures x / 0x100 == q && x % 0x100 == r
  {
  }

  /** Splitting a value into its four bytes and joining them gives it back. */
  lemma ValueBytesJoin(v: I32)
    ensures ValueOfBytes(ValueByte(v, 3), ValueByte(v, 2), ValueByte(v, 1), ValueByte(v, 0)) == v
  {
    var u := ToU32(v);
    var q1 := u / 0x100;
    var q2 := q1 / 0x100;
    var q3 := q2 / 0x100;
    assert u == q1 * 0x100 + u % 0x100;
    assert q1 == q2 * 0x100 + q1 % 0x100;
    assert q2 == q3 * 0x100 + q2 % 0x100;
    assert u == ((q3 * 0x100 + q2 % 0x100) * 0x100 + q1 % 0x100) * 0x100 + u % 0x100;
    ToI32ToU32(v);
  }

  /** Joining four bytes and splitting the value gives the same bytes back. */
  lemma ValueBytesSplit(b3: Byte, b2: Byte, b1: Byte, b0: Byte)
    ensures var v := ValueOfBytes(b3, b2, b1, b0);
      ValueByte(v, 3) == b3 && ValueByte(v, 2) == b2 && ValueByte(v, 1) == b1 && ValueByte(v, 0) == b0
  {
    var q2 := b3 * 0x100 + b2;
    var q1 := q2 * 0x100 + b1;
    var u := q1 * 0x100 + b0;
    assert ToU32(ToI32(u)) == u;
    DivModUnique(u, q1, b0);
    DivModUnique(q1, q2, b1);
    DivModUnique(q2, b3, b2);
  }

  // ===== frames =====

  /** A USB request or reply: always nine bytes. */
  type Frame = f: seq<Byte> | |f| == 9 witness [0, 0, 0, 0, 0, 0, 0, 0, 0]

  /** `ActualCommand`. */
  datatype Command = Command(opcode: Byte, cmdType: Byte, motor: Byte, value: I32)

  /** `ActualReply`. */
  datatype Reply = Reply(status: Byte, opcode: Byte, value: I32)

  /** The sum of the bytes, as an unbounded integer. */
  function Sum(s: seq<Byte>): nat
  {
    if s == [] then 0 else Sum(s[..|s| - 1]) + s[|s| - 1]
  }

  /** The TMCL checksum: the byte sum in a `uint8_t`, that is modulo 256. */
  function Checksum(s: seq<Byte>): Byte
  {
    Sum(s) % 0x100
  }

  /** What the receive step makes of a frame (TMCL.c:200-220). */
  datatype ParseResult = NotAddressed | ChecksumError | Accepted(cmd: Command)

  /** Address first, then checksum: a frame for another module is ignored
      whatever its checksum. */
  function ParseFrame(f: Frame, moduleAddress: Byte): (r: ParseResult)
    // a frame for another module is ignored, whatever its checksum
    ensures r.NotAddressed? <==> f[0] != moduleAddress
    // a frame for this module is executed exactly when its last byte is the checksum of the others
    ensures r.Accepted? <==> f[0] == moduleAddress && f[8] == Checksum(f[..8])
    // parsing loses nothing: an accepted frame is exactly the encoding of its command
    ensures r.Accepted? ==> EncodeCommand(moduleAddress, r.cmd) == f
  {
    if f[0] != moduleAddress then NotAddressed
    else if f[8] != Checksum(f[..8]) then ChecksumError
    else
      var cmd := Command(f[1], f[2], f[3], ValueOfBytes(f[4], f[5], f[6], f[7]));
      ValueBytesSplit(f[4], f[5], f[6], f[7]);
      assert ValueBytes(cmd.value) == f[4..8];
      FrameBody(f);
      Accepted(cmd)
  }

  /** The request frame a host sends for a command. */
  function EncodeCommand(moduleAddress: Byte, cmd: Command): Frame
  {
    var body := [moduleAddress, cmd.opcode, cmd.cmdType, cmd.motor] + ValueBytes(cmd.value);
    body + [Checksum(body)]
  }

  /** The standard reply frame (TMCL.c:136-149). */
  function EncodeReply(hostAddress: Byte, moduleAddress: Byte, r: Reply): (f: Frame)
    // addressed to the host, from this module, with a valid checksum
    ensures f[0] == hostAddress && f[1] == moduleAddress && f[8] == Checksum(f[..8])
  {
    var body := [hostAddress, moduleAddress, r.status, r.opcode] + ValueBytes(r.value);
    var f := body + [Checksum(body)];
    assert f[..8] == body;
    f
  }

  /** How a host reads a standard reply frame. */
  function DecodeReply(f: Frame): Reply
  {
    Reply(f[2], f[3], ValueOfBytes(f[4], f[5], f[6], f[7]))
  }

  /** The reply sent after a request with a wrong checksum (TMCL.c:160-162). */
  const CHECKSUM_ERROR_REPLY := Reply(REPLY_CHKERR, 0, 0)

  lemma FrameBody(f: Frame)
    ensures f == f[..8] + [f[8]]
    ensures f[..8] == [f[0], f[1], f[2], f[3]] + f[4..8]
  {
  }

  /** A host's request is accepted by the module it addresses and decodes to
      exactly the command that was sent. */
  lemma CommandRoundTrip(moduleAddress: Byte, cmd: Command)
    ensures ParseFrame(EncodeCommand(moduleAddress, cmd), moduleAddress) == Accepted(cmd)
  {
    var f := EncodeCommand(moduleAddress, cmd);
    assert f[..8] == [moduleAddress, cmd.opcode, cmd.cmdType, cmd.motor] + ValueBytes(cmd.value);
    ValueBytesJoin(cmd.value);
  }

  /** A reply frame decodes to the reply it was built from. */
  lemma ReplyRoundTrip(hostAddress: Byte, moduleAddress: Byte, r: Reply)
    ensures DecodeReply(EncodeReply(hostAddress, moduleAddress, r)) == r
  {
    var f := EncodeReply(hostAddress, moduleAddress, r);
    assert f[4..8] == ValueBytes(r.value);
    ValueBytesJoin(r.value);
  }

  /** A reply that echoes a request's value carries the request's value
      bytes unchanged at the same positions 4..7: the value travels
      big-endian both ways. */
  lemma EchoedValueBytes(f: Frame, moduleAddress: Byte, hostAddress: Byte, status: Byte)
    requires ParseFrame(f, moduleAddress).Accepted?
    ensures var cmd := ParseFrame(f, moduleAddress).cmd;
      EncodeReply(hostAddress, moduleAddress, Reply(status, cmd.opcode, cmd.value))[4..8] == f[4..8]
  {
    ValueBytesSplit(f[4], f[5], f[6], f[7]);
  }

  /** The checksum-error reply is a fixed frame: status 1, opcode 0, value 0. */
  lemma ChecksumErrorReplyFrame(hostAddress: Byte, moduleAddress: Byte)
    ensures EncodeReply(hostAddress, moduleAddress, CHECKSUM_ERROR_REPLY)
         == [hostAddress, moduleAddress, REPLY_CHKERR, 0, 0, 0, 0, 0, (hostAddress as int + moduleAddress + REPLY_CHKERR) % 0x100]
  {
    var body: seq<Byte> := [hostAddress, moduleAddress, REPLY_CHKERR, 0, 0, 0, 0, 0];
    var r := CHECKSUM_ERROR_REPLY;
    assert r.status == REPLY_CHKERR && r.opcode == 0 && r.value == 0;
    assert ValueBytes(r.value) == [0, 0, 0, 0];
    assert body == [hostAddress, moduleAddress, r.status, r.opcode] + ValueBytes(r.value);
    assert EncodeReply(hostAddress, moduleAddress, CHECKSUM_ERROR_REPLY) == body + [Checksum(body)];
    Sum8(body);
  }

  /** The sum of eight bytes, written out. */
  lemma Sum8(s: seq<Byte>)
    requires |s| == 8
    ensures Sum(s) == s[0] as int + s[1] + s[2] + s[3] + s[4] + s[5] + s[6] + s[7]
  {
    assert s == s[..8];
    SumPrefix(s, 0);
    SumPrefix(s, 1);
    SumPrefix(s, 2);
    SumPrefix(s, 3);
    SumPrefix(s, 4);
    SumPrefix(s, 5);
    SumPrefix(s, 6);
    SumPrefix(s, 7);
  }

  /** Extending a prefix by one byte adds that byte to the sum. */
  lemma SumPrefix(s: seq<Byte>, i: nat)
    requires i < |s|
    ensures Sum(s[..i + 1]) == Sum(s[..i]) + s[i]
  {
    assert s[..i + 1][..i] == s[..i];
  }

  /** Replacing one byte changes the sum by the difference of the bytes. */
  lemma {:induction false} SumUpdate(s: seq<Byte>, i: nat, x: Byte)
    requires i < |s|
    ensures Sum(s[i := x]) == Sum(s) - s[i] + x
  {
    var t := s[i := x];
    if i == |s| - 1 {
      assert t[..|t| - 1] == s[..|s| - 1];
    } else {
      assert t[..|t| - 1] == s[..|s| - 1][i := x];
      SumUpdate(s[..|s| - 1], i, x);
    }
  }

  /** Changing one byte of an accepted frame, anywhere after the address,
      turns it into a checksum error: the receive step never executes a
      frame with a single corrupted byte. */
  lemma SingleByteCorruptionDetected(f: Frame, moduleAddress: Byte, i: nat, x: Byte)
    requires ParseFrame(f, moduleAddress).Accepted?
    requires 1 <= i < 9 && x != f[i]
    ensures ParseFrame(f[i := x], moduleAddress) == ChecksumError
  {
    var g := f[i := x];
    if i < 8 {
      assert g[..8] == f[..8][i := x];
      SumUpdate(f[..8], i, x);
      var d := x - f[i];
      assert Sum(g[..8]) == Sum(f[..8]) + d && -0x100 < d < 0x100 && d != 0;
      ShiftChangesResidue(Sum(f[..8]), d);
    } else {
      assert g[..8] == f[..8];
    }
  }

  lemma ShiftChangesResidue(a: int, d: int)
    requires -0x100 < d < 0x100 && d != 0
    ensures (a + d) % 0x100 != a % 0x100
  {
    var q, r := a / 0x100, a % 0x100;
    var q', r' := (a + d) / 0x100, (a + d) % 0x100;
    var k := q' - q;
    assert r' - r == d - k * 0x100;
    if k >= 1 {
      assert k * 0x100 >= 0x100;
    } else if k <= -1 {
      assert k * 0x100 <= -0x100;
    }
  }

  // ===== axis parameters =====

  /** What the module reads from hardware while executing a command; each is
      an input because the reads are register or pin I/O. */
  datatype HostInputs = HostInputs(
    adcI0Raw: U16,             // ADC_I0_RAW field of ADC_RAW_DATA
    adcI1Raw: U16,             // ADC_I1_RAW field of ADC_RAW_DATA
    adcI0Offset: U16,          // the driver's phase A offset register
    adcI1Offset: U16,          // the driver's phase B offset register
    motorTypeAccepted: bool,   // the answer of `bldc_setMotorType`
    motorType: I32,            // the answer of `bldc_getMotorType`
    registerValue: I32,        // a register read passed through to the host
    analogInput: I32,          // `tmcm_getModuleSpecificADCValue`
    outputStatus: I32)         // `tmcm_getModuleSpecificIOPinStatus`

  /** The outcome of `tmcl_handleAxisParameter` for motor 0's configuration:
      the status it returns, the value written through `*value`, the new
      configuration and the driver writes. */
  datatype AxisOutcome = AxisOutcome(status: Byte, value: I32, config: MotorConfig, ops: seq<DriverOp>)

  /** The axis parameter types with a `case` in the switch. */
  predicate KnownAxisType(axisType: Byte)
  {
    axisType in {0, 1, 5, 6, 10, 11, 12, 14, 15}
  }

  /** `tmcl_handleAxisParameter` on values. `c` is motor 0's configuration;
      `maxTorque` is TMCM_MAX_TORQUE. Setters called with a narrower C
      parameter receive the value converted to it (modulo 2^16 or 2^8). */
  function AxisParameter(c: MotorConfig, motor: Byte, command: Byte, axisType: Byte, value: I32,
                         maxTorque: int, inp: HostInputs): (r: AxisOutcome)
    // the returned status is OK or, for a refused SAP, INVALID_VALUE
    ensures r.status == REPLY_OK || r.status == REPLY_INVALID_VALUE
    // a refused SAP changes nothing
    ensures r.status == REPLY_INVALID_VALUE ==>
              command == TMCL_SAP && motor == 0 && r.config == c && r.ops == [] && r.value == value
    // only SAP changes the configuration, and only GAP produces a new value
    ensures command != TMCL_SAP ==> r.config.(adcI0Offset := c.adcI0Offset, adcI1Offset := c.adcI1Offset) == c
    ensures command != TMCL_GAP ==> r.value == value
    // whatever the host sends, the regulation's preconditions survive
    ensures ConfigOk(c) ==> ConfigOk(r.config)
  {
    var ignored := AxisOutcome(REPLY_OK, value, c, []);
    var refused := AxisOutcome(REPLY_INVALID_VALUE, value, c, []);
    if motor != 0 || !KnownAxisType(axisType) then ignored
    else if axisType == 0 || axisType == 1 then
      if command == TMCL_GAP then
        AxisOutcome(REPLY_OK, if axisType == 0 then inp.adcI0Raw else inp.adcI1Raw, c, [WriteInt(0, AdcRawAddr, 0)])
      else ignored
    else if axisType == 5 then
      if command == TMCL_SAP then
        var offset := value % 0x1_0000;
        AxisOutcome(REPLY_OK, value, c.(adcI0Offset := offset), [WriteAdcI0Offset(0, offset)])
      else if command == TMCL_GAP then AxisOutcome(REPLY_OK, inp.adcI0Offset, c.(adcI0Offset := inp.adcI0Offset), [])
      else ignored
    else if axisType == 6 then
      if command == TMCL_SAP then
        var offset := value % 0x1_0000;
        AxisOutcome(REPLY_OK, value, c.(adcI1Offset := offset), [WriteAdcI1Offset(0, offset)])
      else if command == TMCL_GAP then AxisOutcome(REPLY_OK, inp.adcI1Offset, c.(adcI1Offset := inp.adcI1Offset), [])
      else ignored
    else if axisType == 10 then
      if command == TMCL_SAP then
        if 1 <= value <= 255 then AxisOutcome(REPLY_OK, value, c.(motorPolePairs := value), [SetPolePairs(0, value)])
        else refused
      else if command == TMCL_GAP then AxisOutcome(REPLY_OK, c.motorPolePairs, c, [])
      else ignored
    else if axisType == 11 then
      if command == TMCL_SAP then
        if 0 <= value <= maxTorque then
          var current := value % 0x1_0000;
          AxisOutcome(REPLY_OK, value, c.(maximumCurrent := current), [SetTorqueFluxLimit(0, c.dualShuntFactor, current)])
        else refused
      else if command == TMCL_GAP then AxisOutcome(REPLY_OK, c.maximumCurrent, c, [])
      else ignored
    else if axisType == 12 then
      if command == TMCL_SAP then
        if 0 <= value <= maxTorque then AxisOutcome(REPLY_OK, value, c.(openLoopCurrent := value), [])
        else refused
      else if command == TMCL_GAP then AxisOutcome(REPLY_OK, c.openLoopCurrent, c, [])
      else ignored
    else if axisType == 14 then
      if command == TMCL_SAP then (if inp.motorTypeAccepted then ignored else refused)
      else if command == TMCL_GAP then AxisOutcome(REPLY_OK, inp.motorType, c, [])
      else ignored
    else
      if command == TMCL_SAP then
        var mode := value % 0x100;
        if mode in {COMM_MODE_FOC_DISABLED, COMM_MODE_FOC_OPEN_LOOP, COMM_MODE_FOC_DIGITAL_HALL} then
          AxisOutcome(REPLY_OK, value, c.(commutationMode := mode), [])
        else refused
      else if command == TMCL_GAP then AxisOutcome(REPLY_OK, c.commutationMode, c, [])
      else ignored
  }

  /** A command for another motor, or for an axis parameter without a case,
      is answered OK with its value echoed and changes nothing: the error
      status written into the reply inside is overwritten by the caller. */
  lemma AxisParameterIgnored(c: MotorConfig, motor: Byte, command: Byte, axisType: Byte, value: I32,
                             maxTorque: int, inp: HostInputs)
    requires motor != 0 || !KnownAxisType(axisType)
    ensures AxisParameter(c, motor, command, axisType, value, maxTorque, inp) == AxisOutcome(REPLY_OK, value, c, [])
  {
  }

  /** The range checks of SAP: pole pairs in 1..255, maximum and open-loop
      current in 0..TMCM_MAX_TORQUE, commutation mode one of the three;
      an accepted value is stored, a refused one changes nothing. */
  lemma SapValidation(c: MotorConfig, axisType: Byte, value: I32, maxTorque: int, inp: HostInputs)
    ensures var r := AxisParameter(c, 0, TMCL_SAP, axisType, value, maxTorque, inp);
      && (axisType == 10 ==> (r.status == REPLY_OK <==> 1 <= value <= 255)
                             && (r.status == REPLY_OK ==> r.config == c.(motorPolePairs := value)))
      && (axisType == 11 ==> (r.status == REPLY_OK <==> 0 <= value <= maxTorque)
                             && (r.status == REPLY_OK ==> r.config == c.(maximumCurrent := value % 0x1_0000)))
      && (axisType == 12 ==> (r.status == REPLY_OK <==> 0 <= value <= maxTorque)
                             && (r.status == REPLY_OK ==> r.config == c.(openLoopCurrent := value)))
      && (axisType == 15 ==> (r.status == REPLY_OK <==> value % 0x100 in {0, 1, 2})
                             && (r.status == REPLY_OK ==> r.config == c.(commutationMode := value % 0x100)))
      && (axisType in {5, 6} ==> r.status == REPLY_OK)
      && (axisType == 5 ==> r.config == c.(adcI0Offset := value % 0x1_0000))
      && (axisType == 6 ==> r.config == c.(adcI1Offset := value % 0x1_0000))
      && (r.status == REPLY_INVALID_VALUE ==> r.config == c)
  {
  }

  /** What SAP stores, GAP reads back: for pole pairs and the open-loop
      current always, for the maximum current when TMCM_MAX_TORQUE fits in
      16 bits, for the commutation mode when the value is a byte. */
  lemma SapThenGap(c: MotorConfig, axisType: Byte, value: I32, maxTorque: int, inp: HostInputs)
    requires axisType in {10, 11, 12, 15}
    requires axisType == 11 ==> maxTorque < 0x1_0000
    requires axisType == 15 ==> 0 <= value < 0x100
    ensures var stored := AxisParameter(c, 0, TMCL_SAP, axisType, value, maxTorque, inp);
            var read := AxisParameter(stored.config, 0, TMCL_GAP, axisType, 0, maxTorque, inp);
      stored.status == REPLY_OK ==> read.value == value
  {
  }

  /** The commutation mode goes through an 8-bit parameter, so SAP accepts
      256 as mode 0 (disabled) and GAP then reads 0. */
  lemma CommutationModeTruncated(c: MotorConfig, maxTorque: int, inp: HostInputs)
    ensures var stored := AxisParameter(c, 0, TMCL_SAP, 15, 256, maxTorque, inp);
      && stored.status == REPLY_OK
      && stored.config.commutationMode == COMM_MODE_FOC_DISABLED
      && AxisParameter(stored.config, 0, TMCL_GAP, 15, 0, maxTorque, inp).value == 0
  {
  }

  // ===== boot and version =====

  /** The magic check of `tmcl_boot`. */
  predicate BootMagic(cmd: Command)
  {
    && cmd.cmdType == 0x81 && cmd.motor == 0x92
    && ValueByte(cmd.value, 3) == 0xA3 && ValueByte(cmd.value, 2) == 0xB4
    && ValueByte(cmd.value, 1) == 0xC5 && ValueByte(cmd.value, 0) == 0xD6
  }

  /** Exactly one command value enters the bootloader: 0xA3B4C5D6. */
  lemma BootMagicIsOneValue(cmd: Command)
    ensures BootMagic(cmd) <==> cmd.cmdType == 0x81 && cmd.motor == 0x92 && ToU32(cmd.value) == 0xA3B4C5D6
  {
    ValueBytesJoin(cmd.value);
    ValueBytesSplit(0xA3, 0xB4, 0xC5, 0xD6);
    assert ValueOfBytes(0xA3, 0xB4, 0xC5, 0xD6) == ToI32(0xA3B4C5D6);
    if ToU32(cmd.value) == 0xA3B4C5D6 {
      ToI32ToU32(cmd.value);
    }
  }

  /** The value GetVersion type 1 answers: bytes 3..0 are the software type
      and version. */
  const VERSION_VALUE: I32 := ValueOfBytes(SW_TYPE_HIGH, SW_TYPE_LOW, SW_VERSION_HIGH, SW_VERSION_LOW)

  lemma VersionValue()
    ensures VERSION_VALUE == 0x0014_0100
    ensures ValueBytes(VERSION_VALUE) == [SW_TYPE_HIGH, SW_TYPE_LOW, SW_VERSION_HIGH, SW_VERSION_LOW]
  {
    ValueBytesSplit(SW_TYPE_HIGH, SW_TYPE_LOW, SW_VERSION_HIGH, SW_VERSION_LOW);
  }

  // ===== the reply that is due =====

  /** `TMCLCommandState`: whether a reply is owed and which. */
  datatype CommandState = Idle | Usb | UsbError

  /** `TMCLReplyFormat`. */
  datatype ReplyFormat = Standard | Special

  /** What the module does to the outside world: a frame sent to the host, or
      a CPU reset through AIRCR (with or without the peripherals). */
  datatype HostEvent = Sent(frame: seq<Byte>) | CpuReset(withPeripherals: bool)

  /** The frame `tmcl_processCommand` sends first, for the previous request
      (TMCL.c:132-184). */
  function PendingReply(state: CommandState, format: ReplyFormat, reply: Reply, special: seq<Byte>,
                        hostAddress: Byte, moduleAddress: Byte): (r: seq<HostEvent>)
    // one frame is owed exactly when a request was received, and sending it never resets the CPU
    ensures |r| == (if state == Idle then 0 else 1)
    ensures state != Idle ==> r[0].Sent?
    // a special reply goes out as stored; any other is a checksummed nine-byte frame from this module to the host
    ensures state == Usb && format == Special ==> r[0].frame == special
    ensures state == UsbError || (state == Usb && format == Standard) ==>
      |r[0].frame| == 9 && r[0].frame[0] == hostAddress && r[0].frame[1] == moduleAddress &&
      r[0].frame[8] == Checksum(r[0].frame[..8])
  {
    match state
    case Usb => [Sent(if format == Standard then EncodeReply(hostAddress, moduleAddress, reply) else special)]
    case UsbError => [Sent(EncodeReply(hostAddress, moduleAddress, CHECKSUM_ERROR_REPLY))]
    case Idle => []
  }

  /** The host decodes the owed standard frame back into the reply, and the
      frame owed after a checksum error into status CHKERR, opcode 0, value 0,
      whatever the previous reply was. */
  lemma PendingReplyDecodes(state: CommandState, format: ReplyFormat, reply: Reply, special: seq<Byte>,
                            hostAddress: Byte, moduleAddress: Byte)
    ensures state == Usb && format == Standard ==>
      DecodeReply(PendingReply(state, format, reply, special, hostAddress, moduleAddress)[0].frame) == reply
    ensures state == UsbError ==>
      DecodeReply(PendingReply(state, format, reply, special, hostAddress, moduleAddress)[0].frame) == CHECKSUM_ERROR_REPLY
  {
    ReplyRoundTrip(hostAddress, moduleAddress, reply);
    ReplyRoundTrip(hostAddress, moduleAddress, CHECKSUM_ERROR_REPLY);
  }

  // ===== the interpreter, in place =====

  /** The globals of TMCL.c (`ActualCommand`, `ActualReply`, `SpecialReply`,
      `TMCLReplyFormat`, `ResetRequested`, the static `TMCLCommandState`)
      and the module configuration it reads. `hostLog` records the frames
      sent to the host and the CPU resets requested. */
  class TmclInterpreter {
    const bldc: BldcController
    const hostAddress: Byte        // moduleConfig.serialHostAddress
    const moduleAddress: Byte      // moduleConfig.serialModuleAddress
    const versionString: seq<Byte> // VersionString
    const maxTorque: int           // TMCM_MAX_TORQUE
    const specialReply: array<Byte>
    var actualCommand: Command
    var actualReply: Reply
    var replyFormat: ReplyFormat
    var commandState: CommandState
    var resetRequested: bool
    ghost var hostLog: seq<HostEvent>

    ghost predicate Valid()
      reads bldc.configs
    {
      bldc.Valid() && specialReply.Length == 9 && |versionString| >= 8
    }

    /** Static storage: everything zero, no reply owed. */
    constructor (bldc: BldcController, hostAddress: Byte, moduleAddress: Byte, versionString: seq<Byte>, maxTorque: int)
      requires bldc.Valid() && |versionString| >= 8
      ensures Valid() && fresh(specialReply)
      ensures this.bldc == bldc && this.hostAddress == hostAddress && this.moduleAddress == moduleAddress
      ensures this.versionString == versionString && this.maxTorque == maxTorque
      ensures actualCommand == Command(0, 0, 0, 0) && actualReply == Reply(0, 0, 0)
      ensures replyFormat == Standard && commandState == Idle && !resetRequested && hostLog == []
    {
      this.bldc := bldc;
      this.hostAddress := hostAddress;
      this.moduleAddress := moduleAddress;
      this.versionString := versionString;
      this.maxTorque := maxTorque;
      specialReply := new Byte[9](_ => 0);
      actualCommand := Command(0, 0, 0, 0);
      actualReply := Reply(0, 0, 0);
      replyFormat := Standard;
      commandState := Idle;
      resetRequested := false;
      hostLog := [];
    }

    /** `tmcl_processCommand`: answer the previous request, honour a pending
        reset, read the next request and execute it if it was accepted.
        `received` is what `usb_getUSBCmd` delivered, if anything. */
    method ProcessCommand(received: Option<Frame>, inputs: HostInputs)
      requires Valid()
      modifies this, specialReply, bldc.configs, bldc.driver
      ensures Valid()
      // the reply owed for the previous request goes out first, then the reset if one was requested
      ensures old(hostLog) + PendingReply(old(commandState), old(replyFormat), old(actualReply), old(specialReply[..]),
                                          hostAddress, moduleAddress)
                         + (if old(resetRequested) then [CpuReset(true)] else []) <= hostLog
      ensures var parsed := if received.Some? then ParseFrame(received.value, moduleAddress) else NotAddressed;
        // an accepted frame is executed from the state left after the reply and the reset
        && (parsed.Accepted? ==>
              && commandState == Usb && actualCommand == parsed.cmd && actualReply.opcode == parsed.cmd.opcode
              && Executed(inputs, Standard, old(resetRequested),
                          old(hostLog) + PendingReply(old(commandState), old(replyFormat), old(actualReply),
                                                      old(specialReply[..]), hostAddress, moduleAddress)
                                       + (if old(resetRequested) then [CpuReset(true)] else []),
                          old(specialReply[..]), old(bldc.configs[..]), old(bldc.driver.log)))
        // a frame that is not accepted is not executed: nothing but the reply bookkeeping changes
        && (!parsed.Accepted? ==>
              && commandState == (if parsed.ChecksumError? then UsbError else Idle)
              && replyFormat == Standard
              && actualCommand == old(actualCommand)
              && actualReply == (if old(commandState) == UsbError then CHECKSUM_ERROR_REPLY else old(actualReply))
              && resetRequested == old(resetRequested)
              && specialReply[..] == old(specialReply[..])
              && bldc.configs[..] == old(bldc.configs[..]) && bldc.driver.log == old(bldc.driver.log)
              && hostLog == old(hostLog) + PendingReply(old(commandState), old(replyFormat), old(actualReply),
                                                        old(specialReply[..]), hostAddress, moduleAddress)
                                     + (if old(resetRequested) then [CpuReset(true)] else []))
    {
      // send reply for last TMCL request
      SendPendingReply();

      // reset command state (reply has been sent)
      commandState := Idle;
      replyFormat := Standard;

      // last command was a reset?
      if resetRequested {
        hostLog := hostLog + [CpuReset(true)];
      }
      ghost var sent := hostLog;
      assert sent == old(hostLog) + PendingReply(old(commandState), old(replyFormat), old(actualReply), old(specialReply[..]),
                                                 hostAddress, moduleAddress)
                                  + (if old(resetRequested) then [CpuReset(true)] else []);

      // read next request
      if received.Some? {
        ReceiveRequest(received.value);
      }

      // handle request after successful reading
      if commandState != Idle && commandState != UsbError {
        ExecuteActualCommand(inputs);
      }
    }

    /** The reply half of `tmcl_processCommand` (TMCL.c:132-184). */
    method SendPendingReply()
      requires Valid()
      modifies this`actualReply, this`hostLog
      ensures hostLog == old(hostLog) + PendingReply(commandState, replyFormat, old(actualReply), specialReply[..],
                                                     hostAddress, moduleAddress)
      ensures actualReply == if commandState == UsbError then CHECKSUM_ERROR_REPLY else old(actualReply)
    {
      ghost var pending := PendingReply(commandState, replyFormat, actualReply, specialReply[..], hostAddress, moduleAddress);
      if commandState == Usb {
        if replyFormat == Standard {
          var usbReply := BuildReply();
          assert pending == [Sent(usbReply)];
          hostLog := hostLog + [Sent(usbReply)];
        } else {
          var usbReply := specialReply[..];
          assert pending == [Sent(usbReply)];
          hostLog := hostLog + [Sent(usbReply)];
        }
      } else if commandState == UsbError {
        // the last command had a wrong checksum
        actualReply := CHECKSUM_ERROR_REPLY;
        var usbReply := BuildReply();
        assert pending == [Sent(usbReply)];
        hostLog := hostLog + [Sent(usbReply)];
      }
    }

    /** The nine reply bytes of `ActualReply`, the checksum being the `uint8_t`
        sum of the other eight. */
    method BuildReply() returns (usbReply: Frame)
      ensures usbReply == EncodeReply(hostAddress, moduleAddress, actualReply)
      ensures DecodeReply(usbReply) == actualReply && usbReply[8] == Checksum(usbReply[..8])
    {
      var v := actualReply.value;
      var checksum := (hostAddress + moduleAddress + actualReply.status + actualReply.opcode
                       + ValueByte(v, 3) + ValueByte(v, 2) + ValueByte(v, 1) + ValueByte(v, 0)) % 0x100;
      var body: seq<Byte> := [hostAddress, moduleAddress, actualReply.status, actualReply.opcode,
                              ValueByte(v, 3), ValueByte(v, 2), ValueByte(v, 1), ValueByte(v, 0)];
      Sum8(body);
      assert body == [hostAddress, moduleAddress, actualReply.status, actualReply.opcode] + ValueBytes(v);
      usbReply := body + [checksum];
      ReplyRoundTrip(hostAddress, moduleAddress, actualReply);
    }

    /** The receive half of `tmcl_processCommand` (TMCL.c:200-220), on a
        delivered frame, with the command state idle. */
    method ReceiveRequest(usbCmd: Frame)
      modifies this`actualCommand, this`commandState
      ensures match ParseFrame(usbCmd, moduleAddress)
        case Accepted(cmd) => actualCommand == cmd && commandState == Usb
        case ChecksumError => actualCommand == old(actualCommand) && commandState == UsbError
        case NotAddressed => actualCommand == old(actualCommand) && commandState == old(commandState)
    {
      if usbCmd[0] == moduleAddress {
        var checksum := FrameChecksum(usbCmd);
        if checksum == usbCmd[8] {
          actualCommand := Command(usbCmd[1], usbCmd[2], usbCmd[3], ValueOfBytes(usbCmd[4], usbCmd[5], usbCmd[6], usbCmd[7]));
          commandState := Usb;
        } else {
          // checksum was wrong
          commandState := UsbError;
        }
      }
    }

    /** `tmcl_executeActualCommand`. */
    method ExecuteActualCommand(inputs: HostInputs)
      requires Valid()
      modifies this`actualReply, this`replyFormat, this`resetRequested, this`hostLog, specialReply, bldc.configs, bldc.driver
      ensures Valid()
      // the reply echoes the opcode; events are only ever appended
      ensures actualReply.opcode == actualCommand.opcode
      ensures old(hostLog) <= hostLog
      // each opcode has the effect Executed describes, and nothing else changes
      ensures Executed(inputs, old(replyFormat), old(resetRequested), old(hostLog), old(specialReply[..]),
                       old(bldc.configs[..]), old(bldc.driver.log))
    {
      // prepare reply command
      actualReply := Reply(REPLY_OK, actualCommand.opcode, actualCommand.value);

      var op := actualCommand.opcode;
      if op == TMCL_ROR || op == TMCL_ROL || op == TMCL_MST {
        // the motion commands are disabled in this firmware
      } else if op == TMCL_SAP || op == TMCL_GAP || op == TMCL_STAP || op == TMCL_RSAP {
        var status, value := HandleAxisParameter(actualCommand.motor, op, actualCommand.cmdType, actualCommand.value, inputs);
        actualReply := actualReply.(status := status);
        actualReply := actualReply.(value := value);
      } else if op == TMCL_SIO {
        SetOutput();
      } else if op == TMCL_GIO {
        GetInput(inputs);
      } else if op == TMCL_GET_VERSION {
        GetVersion();
      } else if op == TMCL_READ_REGISTER_CHANNEL_1 {
        if actualCommand.motor == 0 || actualCommand.motor == 1 {
          actualReply := actualReply.(value := inputs.registerValue);
        }
      } else if op == TMCL_WRITE_REGISTER_CHANNEL_1 {
        if actualCommand.motor == 0 {
          bldc.driver.Issue(WriteRaw(0, actualCommand.cmdType, actualCommand.value));
        }
      } else if op == TMCL_BOOT {
        Boot();
      } else if op == TMCL_SOFTWARE_RESET {
        SoftwareReset();
      } else {
        actualReply := actualReply.(status := REPLY_INVALID_CMD);
      }
    }

    /** What `tmcl_executeActualCommand` does with `actualCommand`, given the
        state it started from (reply format, reset flag, host events, special
        reply, motor configurations, driver writes): the reply it leaves and
        the one change it makes, if any, to the rest. The reply starts as
        status OK with the command's opcode and value. */
    ghost predicate Executed(inputs: HostInputs, format: ReplyFormat, reset: bool, log: seq<HostEvent>,
                             special: seq<Byte>, configs: seq<MotorConfig>, driverLog: seq<DriverOp>)
      reads this, specialReply, bldc.configs, bldc.driver
    {
      var cmd := actualCommand;
      var echo := Reply(REPLY_OK, cmd.opcode, cmd.value);
      if !KnownOpcode(cmd.opcode) then
        // no case: INVALID_CMD, value echoed
        actualReply == echo.(status := REPLY_INVALID_CMD) && NothingElseChanged(format, reset, log, special, configs, driverLog)
      else if cmd.opcode in {TMCL_ROR, TMCL_ROL, TMCL_MST} then
        // the motion commands are disabled
        actualReply == echo && NothingElseChanged(format, reset, log, special, configs, driverLog)
      else if cmd.opcode in {TMCL_SAP, TMCL_GAP, TMCL_STAP, TMCL_RSAP} then
        // the axis parameters follow AxisParameter on motor 0's configuration, status included
        && |configs| > 0
        && var o := AxisParameter(configs[0], cmd.motor, cmd.opcode, cmd.cmdType, cmd.value, maxTorque, inputs);
           && actualReply == Reply(o.status, cmd.opcode, o.value)
           && NothingElseChanged(format, reset, log, special, configs[0 := o.config], driverLog + o.ops)
      else if cmd.opcode == TMCL_SIO then
        // only bank 2 exists
        && actualReply == (if cmd.motor == 2 then echo else echo.(status := REPLY_INVALID_VALUE))
        && NothingElseChanged(format, reset, log, special, configs, driverLog)
      else if cmd.opcode == TMCL_GIO then
        && actualReply == (if cmd.motor == 0 then echo
                           else if cmd.motor == 1 then echo.(value := inputs.analogInput)
                           else if cmd.motor == 2 then echo.(value := inputs.outputStatus)
                           else echo.(status := REPLY_INVALID_VALUE))
        && NothingElseChanged(format, reset, log, special, configs, driverLog)
      else if cmd.opcode == TMCL_READ_REGISTER_CHANNEL_1 then
        // motors 0 and 1 answer the register; any other keeps the echoed value
        && actualReply == (if cmd.motor == 0 || cmd.motor == 1 then echo.(value := inputs.registerValue) else echo)
        && NothingElseChanged(format, reset, log, special, configs, driverLog)
      else if cmd.opcode == TMCL_WRITE_REGISTER_CHANNEL_1 then
        // the write reaches the TMC4671 for motor 0 only
        && actualReply == echo
        && NothingElseChanged(format, reset, log, special, configs,
                              driverLog + if cmd.motor == 0 then [WriteRaw(0, cmd.cmdType, cmd.value)] else [])
      else if cmd.opcode == TMCL_BOOT then
        // the bootloader is entered on the magic command only
        && actualReply == echo
        && NothingElseChanged(format, reset, log + (if BootMagic(cmd) then [CpuReset(false)] else []), special,
                              configs, driverLog)
      else if cmd.opcode == TMCL_SOFTWARE_RESET then
        // the reset is armed by the magic value only
        actualReply == echo && NothingElseChanged(format, reset || cmd.value == RESET_MAGIC, log, special, configs, driverLog)
      else
        // GetVersion: type 0 answers with the special frame, type 1 with the version value
        && |versionString| >= 8
        && if cmd.cmdType == 0 then
             actualReply == echo && NothingElseChanged(Special, reset, log, [hostAddress] + versionString[..8], configs, driverLog)
           else
             && actualReply == (if cmd.cmdType == 1 then echo.(value := VERSION_VALUE) else echo)
             && NothingElseChanged(format, reset, log, special, configs, driverLog)
    }

    /** Everything `ExecuteActualCommand` may change besides the reply is as
        it was. */
    ghost predicate NothingElseChanged(format: ReplyFormat, reset: bool, log: seq<HostEvent>, special: seq<Byte>,
                                       configs: seq<MotorConfig>, driverLog: seq<DriverOp>)
      reads this, specialReply, bldc.configs, bldc.driver
    {
      && replyFormat == format && resetRequested == reset && hostLog == log && specialReply[..] == special
      && bldc.configs[..] == configs && bldc.driver.log == driverLog
    }

    /** `tmcl_handleAxisParameter` for the current command: returns the
        status and the new `*value`. */
    method HandleAxisParameter(motor: Byte, command: Byte, axisType: Byte, value: I32, inputs: HostInputs)
      returns (errors: Byte, newValue: I32)
      requires Valid()
      modifies this`actualReply, bldc.configs, bldc.driver
      ensures Valid()
      ensures var o := AxisParameter(old(bldc.configs[0]), motor, command, axisType, value, maxTorque, inputs);
        && errors == o.status && newValue == o.value
        && bldc.configs[..] == old(bldc.configs[..])[0 := o.config]
        && bldc.driver.log == old(bldc.driver.log) + o.ops
      // the error statuses written straight into the reply (later overwritten by the caller)
      ensures actualReply == if motor != 0 then old(actualReply).(status := REPLY_INVALID_VALUE)
                             else if !KnownAxisType(axisType) then old(actualReply).(status := REPLY_WRONG_TYPE)
                             else old(actualReply)
    {
      errors := REPLY_OK;
      newValue := value;
      if motor == 0 {
        if axisType == 0 || axisType == 1 {
          // ADC measurement
          if command == TMCL_GAP {
            bldc.driver.Issue(WriteInt(0, AdcRawAddr, 0));
            newValue := if axisType == 0 then inputs.adcI0Raw else inputs.adcI1Raw;
          }
        } else if axisType == 5 {
          // dual-shunt phase A offset
          if command == TMCL_SAP {
            bldc.SetAdcI0Offset(0, value % 0x1_0000);
          } else if command == TMCL_GAP {
            newValue := bldc.GetAdcI0Offset(0, inputs.adcI0Offset);
          }
        } else if axisType == 6 {
          // dual-shunt phase B offset
          if command == TMCL_SAP {
            bldc.SetAdcI1Offset(0, value % 0x1_0000);
          } else if command == TMCL_GAP {
            newValue := bldc.GetAdcI1Offset(0, inputs.adcI1Offset);
          }
        } else if axisType == 10 {
          // motor pole pairs
          if command == TMCL_SAP {
            if 1 <= value <= 255 {
              bldc.UpdateMotorPolePairs(0, value);
            } else {
              errors := REPLY_INVALID_VALUE;
            }
          } else if command == TMCL_GAP {
            newValue := bldc.GetMotorPolePairs(0);
          }
        } else if axisType == 11 {
          // maximum current
          if command == TMCL_SAP {
            if 0 <= value <= maxTorque {
              bldc.UpdateMaxMotorCurrent(0, value % 0x1_0000);
            } else {
              errors := REPLY_INVALID_VALUE;
            }
          } else if command == TMCL_GAP {
            newValue := bldc.GetMaxMotorCurrent(0);
          }
        } else if axisType == 12 {
          // open-loop current
          if command == TMCL_SAP {
            if 0 <= value <= maxTorque {
              bldc.configs[0] := bldc.configs[0].(openLoopCurrent := value);
            } else {
              errors := REPLY_INVALID_VALUE;
            }
          } else if command == TMCL_GAP {
            newValue := bldc.configs[0].openLoopCurrent;
          }
        } else if axisType == 14 {
          // motor type
          if command == TMCL_SAP {
            if !inputs.motorTypeAccepted {
              errors := REPLY_INVALID_VALUE;
            }
          } else if command == TMCL_GAP {
            newValue := inputs.motorType;
          }
        } else if axisType == 15 {
          // commutation mode
          if command == TMCL_SAP {
            var ok := bldc.SetCommutationMode(0, value % 0x100);
            if !ok {
              errors := REPLY_INVALID_VALUE;
            }
          } else if command == TMCL_GAP {
            newValue := bldc.GetCommutationMode(0);
          }
        } else {
          actualReply := actualReply.(status := REPLY_WRONG_TYPE);
        }
      } else {
        actualReply := actualReply.(status := REPLY_INVALID_VALUE);
      }
    }

    /** `tmcl_setOutput`: only bank 2 (digital outputs) exists; the pin
        itself is hardware. */
    method SetOutput()
      modifies this`actualReply
      ensures actualReply == if actualCommand.motor == 2 then old(actualReply)
                             else old(actualReply).(status := REPLY_INVALID_VALUE)
    {
      if actualCommand.motor != 2 {
        actualReply := actualReply.(status := REPLY_INVALID_VALUE);
      }
    }

    /** `tmcl_getInput`: bank 0 answers nothing new, bank 1 an analog input,
        bank 2 an output pin's state; other banks are invalid. */
    method GetInput(inputs: HostInputs)
      modifies this`actualReply
      ensures actualReply == if actualCommand.motor == 0 then old(actualReply)
                             else if actualCommand.motor == 1 then old(actualReply).(value := inputs.analogInput)
                             else if actualCommand.motor == 2 then old(actualReply).(value := inputs.outputStatus)
                             else old(actualReply).(status := REPLY_INVALID_VALUE)
    {
      if actualCommand.motor == 0 {
        // digital inputs: not read in this firmware
      } else if actualCommand.motor == 1 {
        actualReply := actualReply.(value := inputs.analogInput);
      } else if actualCommand.motor == 2 {
        actualReply := actualReply.(value := inputs.outputStatus);
      } else {
        actualReply := actualReply.(status := REPLY_INVALID_VALUE);
      }
    }

    /** `tmcl_getVersion`. */
    method GetVersion()
      requires Valid()
      modifies this`replyFormat, this`actualReply, specialReply
      ensures actualCommand.cmdType == 0 ==>
        && replyFormat == Special && specialReply[..] == [hostAddress] + versionString[..8]
        && actualReply == old(actualReply)
      ensures actualCommand.cmdType == 1 ==>
        && replyFormat == old(replyFormat) && specialReply[..] == old(specialReply[..])
        && actualReply == old(actualReply).(value := VERSION_VALUE)
      ensures actualCommand.cmdType !in {0, 1} ==>
        replyFormat == old(replyFormat) && specialReply[..] == old(specialReply[..]) && actualReply == old(actualReply)
    {
      if actualCommand.cmdType == 0 {
        replyFormat := Special;
        specialReply[0] := hostAddress;
        for i := 0 to 8
          invariant replyFormat == Special && actualReply == old(actualReply)
          invariant specialReply[0] == hostAddress
          invariant forall k :: 0 <= k < i ==> specialReply[k + 1] == versionString[k]
        {
          specialReply[i + 1] := versionString[i];
        }
        assert specialReply[..] == [hostAddress] + versionString[..8];
      } else if actualCommand.cmdType == 1 {
        actualReply := actualReply.(value := ValueOfBytes(SW_TYPE_HIGH, SW_TYPE_LOW, SW_VERSION_HIGH, SW_VERSION_LOW));
      }
    }

    /** The magic check of `tmcl_boot`; what follows it (driver shutdown,
        USB detach, peripheral teardown) ends in a reset without the
        peripherals. */
    method Boot()
      modifies this`hostLog
      ensures hostLog == old(hostLog) + if BootMagic(actualCommand) then [CpuReset(false)] else []
    {
      var v := actualCommand.value;
      if actualCommand.cmdType == 0x81 && actualCommand.motor == 0x92
         && ValueByte(v, 3) == 0xA3 && ValueByte(v, 2) == 0xB4 && ValueByte(v, 1) == 0xC5 && ValueByte(v, 0) == 0xD6
      {
        hostLog := hostLog + [CpuReset(false)];
      }
    }

    /** `tmcl_softwareReset`: arms the reset the next `ProcessCommand`
        performs after sending the reply. */
    method SoftwareReset()
      modifies this`resetRequested
      ensures resetRequested == (old(resetRequested) || actualCommand.value == RESET_MAGIC)
    {
      if actualCommand.value == RESET_MAGIC {
        resetRequested := true;
      }
    }
  }

  /** The opcodes with a `case` in `tmcl_executeActualCommand`. */
  predicate KnownOpcode(op: Byte)
  {
    op in {TMCL_ROR, TMCL_ROL, TMCL_MST, TMCL_SAP, TMCL_GAP, TMCL_STAP, TMCL_RSAP, TMCL_SIO, TMCL_GIO,
           TMCL_GET_VERSION, TMCL_READ_REGISTER_CHANNEL_1, TMCL_WRITE_REGISTER_CHANNEL_1, TMCL_BOOT, TMCL_SOFTWARE_RESET}
  }

  /** The receive loop's checksum: the `uint8_t` sum of bytes 0..7. */
  method FrameChecksum(usbCmd: Frame) returns (checksum: Byte)
    ensures checksum == Checksum(usbCmd[..8])
  {
    checksum := 0;
    for i := 0 to 8
      invariant checksum == Sum(usbCmd[..i]) % 0x100
    {
      SumPrefix(usbCmd, i);
      checksum := (checksum + usbCmd[i]) % 0x100;
    }
  }
}
