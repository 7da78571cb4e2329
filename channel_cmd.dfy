/** Channel-level instructions and their decoder (m64/src/channel.rs). */
module ChannelCmds {
  import opened Bytes
  import opened Outcomes
  import opened VarInt

  datatype ChannelCmd =
    | End
    | Delay1
    | Delay(ticks: U15)
    | Call(addr: U16)
    | Jump(addr: U16)
    | Beqz(addr: U16)
    | Bltz(addr: U16)
    | Loop(count: Byte)
    | LoopEnd
    | Break
    | Bgez(addr: U16)
    | Hang
    | ReserveNotes(notes: Byte)
    | UnReserveNotes
    | DynCall
    | SetVibratoDelay(val: Byte)
    | SetVibratoExtentLinear(start: Byte, target: Byte, span: Byte)
    | SetVibratoRateLinear(start: Byte, target: Byte, span: Byte)
    | SetVolScale(val: Byte)
    | SetVol(val: Byte)
    | FreqScale(scale: U16)
    | SetPan(val: Byte)
    | SetPanChanWeight(val: Byte)
    | Transpose(semitones: I8)
    | SetEnvelope(addr: U16)
    | SetDecayRelease(val: Byte)
    | SetVibratoExtent(val: Byte)
    | SetVibratoRate(val: Byte)
    | SetUpdatesPerFrame(val: Byte)
    | SetReverb(val: Byte)
    | PitchBend(bend: I8)
    | SetSustain(val: Byte)
    | SetNoteAllocationPolicy(val: Byte)
    | StereoHeadsetEffects(val: Byte)
    | SetVal(val: Byte)
    | ReadSeq(addr: U16)
    | SetMuteBhv(val: Byte)
    | BitAnd(val: Byte)
    | Subtract(val: Byte)
    | WriteSeq(val: Byte, addr: U16)
    | SetBank(val: Byte)
    | DynSetDynTable
    | LargeNotesOn
    | LargeNotesOff
    | SetDynTable(addr: U16)
    | SetInstr(val: Byte)
    | DynSetLayer(slot: Nibble)
    | FreeLayer(slot: Nibble)
    | SetLayer(slot: Nibble, addr: U16)
    | IoReadVal(slot: Nibble)
    | IoWriteVal(slot: Nibble)
    | SetNotePriority(slot: Nibble)
    | IoReadValSub(slot: Nibble)
    | IoReadVal2(slot: Nibble, val: Byte)
    | IoWriteVal2(slot: Nibble, val: Byte)
    | DisableChannel(slot: Nibble)
    | StartChannel(slot: Nibble, addr: U16)
    | TestLayerFinished(slot: Nibble)

  /** Opcodes from 0xc0 up whose operand is one byte at index 1. */
  predicate ByteOp(op: Byte)
  {
    (op == 0xf8 || op == 0xf2 || op == 0xe3 || op == 0xe0 || op == 0xdf || op == 0xdd ||
      op == 0xdc || op == 0xdb || op == 0xd9 || op == 0xd8 || op == 0xd7 || op == 0xd6 ||
      op == 0xd4 || op == 0xd3 || op == 0xd2 || op == 0xd1 || op == 0xd0 || op == 0xcc ||
      op == 0xca || op == 0xc9 || op == 0xc8 || op == 0xc6 || op == 0xc1)
  }

  /** Opcodes from 0xc0 up whose operand is a big-endian u16 at bytes 1-2. */
  predicate U16Op(op: Byte)
  {
    (op == 0xfc || op == 0xfb || op == 0xfa || op == 0xf9 || op == 0xf5 || op == 0xde ||
      op == 0xda || op == 0xcb || op == 0xc2)
  }

  /** Opcodes from 0xc0 up that read three operand bytes. */
  predicate WideOp(op: Byte)
  {
    (op == 0xe2 || op == 0xe1 || op == 0xc7)
  }

  /** Opcodes from 0xc0 up without an operand. */
  predicate BareOp(op: Byte)
  {
    (op == 0xff || op == 0xfe || op == 0xf7 || op == 0xf6 || op == 0xf3 || op == 0xf1 ||
      op == 0xe4 || op == 0xc5 || op == 0xc4 || op == 0xc3)
  }

  /** Every opcode below 0xc0 belongs to a nibble family; above, only the listed ones. */
  predicate Supported(op: Byte)
  {
    op < 0xc0 || op == 0xfd || ByteOp(op) || U16Op(op) || WideOp(op) || BareOp(op)
  }

  /** How many bytes the arm for `op` indexes or slices. */
  function Needed(op: Byte): nat
  {
    if op < 0xc0 then
      (if 0x90 <= op <= 0x9f || 0x10 <= op <= 0x1f then 3
       else if 0x30 <= op <= 0x4f then 2
       else 1)
    else if WideOp(op) then 4
    else if op == 0xfd || U16Op(op) then 3
    else if ByteOp(op) then 2
    else 1
  }

  /** `ChannelCmd::read`: the instruction at the start of `data` and the size it reports. */
  function Read(data: seq<Byte>): (r: Outcome<Decoded<ChannelCmd>>)
    ensures |data| == 0 ==> r == Panic(OutOfBounds)
    ensures |data| > 0 && !Supported(data[0]) ==> r == Panic(UnknownOpcode(data[0]))
    ensures |data| > 0 && Supported(data[0]) ==> (r.Ok? <==> |data| >= Needed(data[0]))
    ensures |data| > 0 && Supported(data[0]) && !r.Ok? ==> r == Panic(OutOfBounds)
    ensures r.Ok? ==> 1 <= r.value.size <= 4
    ensures r.Ok? && data[0] != 0xde ==> r.value.size <= |data|
  {
    if |data| == 0 then Panic(OutOfBounds)
    else
      var op := data[0];
      if op < 0xc0 then ReadFamily(data)
      else if op == 0xfd then
        if |data| < 3 then Panic(OutOfBounds)
        else match ReadVar(data[1..3])
          case Ok(v) => Ok(Decoded(Delay(v.value), 1 + v.size))
          case Panic(f) => Panic(f)
      else if WideOp(op) then
        if |data| < 4 then Panic(OutOfBounds) else Ok(Decoded(WideArm(op, data[1], data[2], data[3]), 4))
      else if U16Op(op) then
        // as written: 0xde reports four bytes though its operand ends at byte 2
        if |data| < 3 then Panic(OutOfBounds)
        else Ok(Decoded(U16Arm(op, BeU16At(data, 1)), if op == 0xde then 4 else 3))
      else if ByteOp(op) then
        // as written: 0xe3 reads `data[1]` but reports only the opcode byte
        if |data| < 2 then Panic(OutOfBounds)
        else Ok(Decoded(ByteArm(op, data[1]), if op == 0xe3 then 1 else 2))
      else if BareOp(op) then Ok(Decoded(BareArm(op), 1))
      else Panic(UnknownOpcode(op))
  }

  function WideArm(op: Byte, x: Byte, y: Byte, z: Byte): ChannelCmd
    requires WideOp(op)
  {
    if op == 0xe2 then SetVibratoExtentLinear(x, y, z)
    else if op == 0xe1 then SetVibratoRateLinear(x, y, z)
    else WriteSeq(x, BeU16(y, z))
  }

  function U16Arm(op: Byte, a: U16): ChannelCmd
    requires U16Op(op)
  {
    if op == 0xfc then Call(a)
    else if op == 0xfb then Jump(a)
    else if op == 0xfa then Beqz(a)
    else if op == 0xf9 then Bltz(a)
    else if op == 0xf5 then Bgez(a)
    else if op == 0xde then FreqScale(a)
    else if op == 0xda then SetEnvelope(a)
    else if op == 0xcb then ReadSeq(a)
    else SetDynTable(a)
  }

  function ByteArm(op: Byte, b: Byte): ChannelCmd
    requires ByteOp(op)
  {
    if op == 0xf8 then Loop(b)
    else if op == 0xf2 then ReserveNotes(b)
    else if op == 0xe3 then SetVibratoDelay(b)
    else if op == 0xe0 then SetVolScale(b)
    else if op == 0xdf then SetVol(b)
    else if op == 0xdd then SetPan(b)
    else if op == 0xdc then SetPanChanWeight(b)
    else if op == 0xdb then Transpose(AsI8(b))
    else if op == 0xd9 then SetDecayRelease(b)
    else if op == 0xd8 then SetVibratoExtent(b)
    else if op == 0xd7 then SetVibratoRate(b)
    else if op == 0xd6 then SetUpdatesPerFrame(b)
    else if op == 0xd4 then SetReverb(b)
    else if op == 0xd3 then PitchBend(AsI8(b))
    else if op == 0xd2 then SetSustain(b)
    else if op == 0xd1 then SetNoteAllocationPolicy(b)
    else if op == 0xd0 then StereoHeadsetEffects(b)
    else if op == 0xcc then SetVal(b)
    else if op == 0xca then SetMuteBhv(b)
    else if op == 0xc9 then BitAnd(b)
    else if op == 0xc8 then Subtract(b)
    else if op == 0xc6 then SetBank(b)
    else SetInstr(b)
  }

  function BareArm(op: Byte): ChannelCmd
    requires BareOp(op)
  {
    if op == 0xff then End
    else if op == 0xfe then Delay1
    else if op == 0xf7 then LoopEnd
    else if op == 0xf6 then Break
    else if op == 0xf3 then Hang
    else if op == 0xf1 then UnReserveNotes
    else if op == 0xe4 then DynCall
    else if op == 0xc5 then DynSetDynTable
    else if op == 0xc4 then LargeNotesOn
    else LargeNotesOff
  }

  /** The arms for 0x00-0xbf: the low nibble of the opcode is the first operand. */
  function ReadFamily(data: seq<Byte>): (r: Outcome<Decoded<ChannelCmd>>)
    requires |data| > 0 && data[0] < 0xc0
  {
    var op := data[0];
    var n := op % 0x10;
    if 0x90 <= op <= 0x9f || 0x10 <= op <= 0x1f then
      if |data| < 3 then Panic(OutOfBounds)
      else if op >= 0x90 then Ok(Decoded(SetLayer(n, BeU16At(data, 1)), 3))
      else Ok(Decoded(StartChannel(n, BeU16At(data, 1)), 3))
    else if 0x30 <= op <= 0x4f then
      if |data| < 2 then Panic(OutOfBounds)
      else if op >= 0x40 then Ok(Decoded(IoReadVal2(n, data[1]), 2))
      else Ok(Decoded(IoWriteVal2(n, data[1]), 2))
    else
      var cmd :=
        if op >= 0xb0 then DynSetLayer(n)
        else if op >= 0xa0 then FreeLayer(n)
        else if op >= 0x80 then IoReadVal(n)
        else if op >= 0x70 then IoWriteVal(n)
        else if op >= 0x60 then SetNotePriority(n)
        else if op >= 0x50 then IoReadValSub(n)
        else if op >= 0x20 then DisableChannel(n)
        else TestLayerFinished(n);
      Ok(Decoded(cmd, 1))
  }

  /** The first operand of a nibble-encoded instruction. */
  function Slot(cmd: ChannelCmd): Option<Nibble>
  {
    match cmd
    case DynSetLayer(n) => Some(n)
    case FreeLayer(n) => Some(n)
    case SetLayer(n, _) => Some(n)
    case IoReadVal(n) => Some(n)
    case IoWriteVal(n) => Some(n)
    case SetNotePriority(n) => Some(n)
    case IoReadValSub(n) => Some(n)
    case IoReadVal2(n, _) => Some(n)
    case IoWriteVal2(n, _) => Some(n)
    case DisableChannel(n) => Some(n)
    case StartChannel(n, _) => Some(n)
    case TestLayerFinished(n) => Some(n)
    case _ => None
  }

  /** Every opcode in 0x00-0xbf decodes to its nibble family with the low
      nibble as first operand, so that operand is always below 16. */
  lemma NibbleFamilies(data: seq<Byte>)
    requires |data| >= 3 && data[0] < 0xc0
    ensures Read(data).Ok?
    ensures Slot(Read(data).value.cmd) == Some(data[0] % 0x10)
    ensures Read(data).value.cmd.SetLayer? <==> 0x90 <= data[0] <= 0x9f
    ensures Read(data).value.cmd.StartChannel? <==> 0x10 <= data[0] <= 0x1f
    ensures 0x90 <= data[0] <= 0x9f || 0x10 <= data[0] <= 0x1f ==>
      Read(data).value.size == 3 && Read(data).value.cmd.addr == BeU16At(data, 1)
    ensures 0x30 <= data[0] <= 0x4f ==>
      Read(data).value.size == 2 && Read(data).value.cmd.val == data[1]
  {
  }

  /** Two sizes are reported as written rather than as the operand length:
      0xe3 reports one byte though it reads `data[1]`, and 0xde reports four
      though its operand ends at byte 2. */
  lemma ReportedSizeQuirks(data: seq<Byte>)
    requires |data| >= 3
    ensures data[0] == 0xe3 ==> Read(data) == Ok(Decoded(SetVibratoDelay(data[1]), 1))
    ensures data[0] == 0xde ==> Read(data) == Ok(Decoded(FreqScale(BeU16At(data, 1)), 4))
  {
  }

  /** `is_end`. */
  predicate IsEnd(cmd: ChannelCmd)
  {
    match cmd
    case End => true
    case _ => false
  }

  lemma IsEndExactlyEnd(cmd: ChannelCmd)
    ensures IsEnd(cmd) <==> cmd == End
  {
  }

  /** The canonical bytes of an instruction, operand lengths as the format defines them. */
  function Encode(cmd: ChannelCmd): (r: seq<Byte>)
  {
    match cmd
    case End => [0xff]
    case Delay1 => [0xfe]
    case Delay(t) => [0xfd] + EncodeVar(t)
    case Call(a) => [0xfc] + U16Bytes(a)
    case Jump(a) => [0xfb] + U16Bytes(a)
    case Beqz(a) => [0xfa] + U16Bytes(a)
    case Bltz(a) => [0xf9] + U16Bytes(a)
    case Loop(n) => [0xf8, n]
    case LoopEnd => [0xf7]
    case Break => [0xf6]
    case Bgez(a) => [0xf5] + U16Bytes(a)
    case Hang => [0xf3]
    case ReserveNotes(n) => [0xf2, n]
    case UnReserveNotes => [0xf1]
    case DynCall => [0xe4]
    case SetVibratoDelay(b) => [0xe3, b]
    case SetVibratoExtentLinear(x, y, z) => [0xe2, x, y, z]
    case SetVibratoRateLinear(x, y, z) => [0xe1, x, y, z]
    case SetVolScale(b) => [0xe0, b]
    case SetVol(b) => [0xdf, b]
    case FreqScale(a) => [0xde] + U16Bytes(a)
    case SetPan(b) => [0xdd, b]
    case SetPanChanWeight(b) => [0xdc, b]
    case Transpose(t) => [0xdb, I8Byte(t)]
    case SetEnvelope(a) => [0xda] + U16Bytes(a)
    case SetDecayRelease(b) => [0xd9, b]
    case SetVibratoExtent(b) => [0xd8, b]
    case SetVibratoRate(b) => [0xd7, b]
    case SetUpdatesPerFrame(b) => [0xd6, b]
    case SetReverb(b) => [0xd4, b]
    case PitchBend(t) => [0xd3, I8Byte(t)]
    case SetSustain(b) => [0xd2, b]
    case SetNoteAllocationPolicy(b) => [0xd1, b]
    case StereoHeadsetEffects(b) => [0xd0, b]
    case SetVal(b) => [0xcc, b]
    case ReadSeq(a) => [0xcb] + U16Bytes(a)
    case SetMuteBhv(b) => [0xca, b]
    case BitAnd(b) => [0xc9, b]
    case Subtract(b) => [0xc8, b]
    case WriteSeq(b, a) => [0xc7, b] + U16Bytes(a)
    case SetBank(b) => [0xc6, b]
    case DynSetDynTable => [0xc5]
    case LargeNotesOn => [0xc4]
    case LargeNotesOff => [0xc3]
    case SetDynTable(a) => [0xc2] + U16Bytes(a)
    case SetInstr(b) => [0xc1, b]
    case DynSetLayer(n) => [0xb0 + n]
    case FreeLayer(n) => [0xa0 + n]
    case SetLayer(n, a) => [0x90 + n] + U16Bytes(a)
    case IoReadVal(n) => [0x80 + n]
    case IoWriteVal(n) => [0x70 + n]
    case SetNotePriority(n) => [0x60 + n]
    case IoReadValSub(n) => [0x50 + n]
    case IoReadVal2(n, b) => [0x40 + n, b]
    case IoWriteVal2(n, b) => [0x30 + n, b]
    case DisableChannel(n) => [0x20 + n]
    case StartChannel(n, a) => [0x10 + n] + U16Bytes(a)
    case TestLayerFinished(n) => [n]
  }

  /** The size `Read` reports for an instruction: the encoded length, except
      for the two quirks above. */
  function ReportedSize(cmd: ChannelCmd): nat
  {
    if cmd.SetVibratoDelay? then 1 else if cmd.FreqScale? then 4 else |Encode(cmd)|
  }

  /** The instructions with a one-byte operand after an opcode of 0xc0 or more. */
  predicate ByteForm(cmd: ChannelCmd)
  {
    cmd.Loop?
    || cmd.ReserveNotes?
    || cmd.SetVibratoDelay?
    || cmd.SetVolScale?
    || cmd.SetVol?
    || cmd.SetPan?
    || cmd.SetPanChanWeight?
    || cmd.Transpose?
    || cmd.SetDecayRelease?
    || cmd.SetVibratoExtent?
    || cmd.SetVibratoRate?
    || cmd.SetUpdatesPerFrame?
    || cmd.SetReverb?
    || cmd.PitchBend?
    || cmd.SetSustain?
    || cmd.SetNoteAllocationPolicy?
    || cmd.StereoHeadsetEffects?
    || cmd.SetVal?
    || cmd.SetMuteBhv?
    || cmd.BitAnd?
    || cmd.Subtract?
    || cmd.SetBank?
    || cmd.SetInstr?
  }

  /** The instructions with a u16 operand after an opcode of 0xc0 or more. */
  predicate U16Form(cmd: ChannelCmd)
  {
    cmd.Call?
    || cmd.Jump?
    || cmd.Beqz?
    || cmd.Bltz?
    || cmd.Bgez?
    || cmd.FreqScale?
    || cmd.SetEnvelope?
    || cmd.ReadSeq?
    || cmd.SetDynTable?
  }

  /** The instructions that are a bare opcode of 0xc0 or more. */
  predicate BareForm(cmd: ChannelCmd)
  {
    cmd.End? || cmd.Delay1? || cmd.LoopEnd? || cmd.Break? || cmd.Hang? || cmd.UnReserveNotes?
    || cmd.DynCall? || cmd.DynSetDynTable? || cmd.LargeNotesOn? || cmd.LargeNotesOff?
  }

  /** Decoding the encoding of any instruction gives back the instruction,
      whatever follows; the size is the encoded length except for the two quirks. */
  lemma {:induction false} RoundTrip(cmd: ChannelCmd, rest: seq<Byte>)
    requires cmd.Delay? && cmd.ticks < 0x80 ==> |rest| >= 1
    ensures Read(Encode(cmd) + rest) == Ok(Decoded(cmd, ReportedSize(cmd)))
  {
    if Slot(cmd).Some? {
      RoundTripFamily(cmd, rest);
    } else if cmd.Delay? {
      var e := Encode(cmd);
      var data := e + rest;
      assert data[1..3] == EncodeVar(cmd.ticks) + data[|e|..3];
      ReadVarRoundTrip(cmd.ticks, data[|e|..3]);
    } else if ByteForm(cmd) {
      RoundTripByte(cmd, rest);
    } else if U16Form(cmd) {
      RoundTripU16(cmd, rest);
    } else if cmd.SetVibratoExtentLinear? || cmd.SetVibratoRateLinear? || cmd.WriteSeq? {
      RoundTripWide(cmd, rest);
    } else {
      assert BareForm(cmd);
      RoundTripBare(cmd, rest);
    }
  }

  lemma {:induction false} RoundTripFamily(cmd: ChannelCmd, rest: seq<Byte>)
    requires Slot(cmd).Some?
    ensures Read(Encode(cmd) + rest) == Ok(Decoded(cmd, |Encode(cmd)|))
  {
    match cmd {
      case SetLayer(n, a) => RoundTripFamilyAddr(cmd, rest);
      case StartChannel(n, a) => RoundTripFamilyAddr(cmd, rest);
      case IoReadVal2(n, v) => RoundTripFamilyVal(cmd, rest);
      case IoWriteVal2(n, v) => RoundTripFamilyVal(cmd, rest);
      case DynSetLayer(n) => RoundTripDynSetLayer(n, rest);
      case FreeLayer(n) => RoundTripFreeLayer(n, rest);
      case IoReadVal(n) => RoundTripIoReadVal(n, rest);
      case IoWriteVal(n) => RoundTripIoWriteVal(n, rest);
      case SetNotePriority(n) => RoundTripSetNotePriority(n, rest);
      case IoReadValSub(n) => RoundTripIoReadValSub(n, rest);
      case DisableChannel(n) => RoundTripDisableChannel(n, rest);
      case TestLayerFinished(n) => RoundTripTestLayerFinished(n, rest);
    }
  }

  lemma {:induction false} RoundTripFamilyAddr(cmd: ChannelCmd, rest: seq<Byte>)
    requires cmd.SetLayer? || cmd.StartChannel?
    ensures Read(Encode(cmd) + rest) == Ok(Decoded(cmd, 3))
  {
    var data := Encode(cmd) + rest;
    assert data[..3] == Encode(cmd);
  }

  lemma {:induction false} RoundTripFamilyVal(cmd: ChannelCmd, rest: seq<Byte>)
    requires cmd.IoReadVal2? || cmd.IoWriteVal2?
    ensures Read(Encode(cmd) + rest) == Ok(Decoded(cmd, 2))
  {
    var data := Encode(cmd) + rest;
    assert data[..2] == Encode(cmd);
  }

  lemma RoundTripDynSetLayer(n: Nibble, rest: seq<Byte>)
    ensures Read(Encode(DynSetLayer(n)) + rest) == Ok(Decoded(DynSetLayer(n), 1))
  {
    NibbleOpcode(0xb0, n);
    assert (Encode(DynSetLayer(n)) + rest)[0] == 0xb0 + n;
  }

  lemma RoundTripFreeLayer(n: Nibble, rest: seq<Byte>)
    ensures Read(Encode(FreeLayer(n)) + rest) == Ok(Decoded(FreeLayer(n), 1))
  {
    NibbleOpcode(0xa0, n);
    assert (Encode(FreeLayer(n)) + rest)[0] == 0xa0 + n;
  }

  lemma RoundTripIoReadVal(n: Nibble, rest: seq<Byte>)
    ensures Read(Encode(IoReadVal(n)) + rest) == Ok(Decoded(IoReadVal(n), 1))
  {
    NibbleOpcode(0x80, n);
    assert (Encode(IoReadVal(n)) + rest)[0] == 0x80 + n;
  }

  lemma RoundTripIoWriteVal(n: Nibble, rest: seq<Byte>)
    ensures Read(Encode(IoWriteVal(n)) + rest) == Ok(Decoded(IoWriteVal(n), 1))
  {
    NibbleOpcode(0x70, n);
    assert (Encode(IoWriteVal(n)) + rest)[0] == 0x70 + n;
  }

  lemma RoundTripSetNotePriority(n: Nibble, rest: seq<Byte>)
    ensures Read(Encode(SetNotePriority(n)) + rest) == Ok(Decoded(SetNotePriority(n), 1))
  {
    NibbleOpcode(0x60, n);
    assert (Encode(SetNotePriority(n)) + rest)[0] == 0x60 + n;
  }

  lemma RoundTripIoReadValSub(n: Nibble, rest: seq<Byte>)
    ensures Read(Encode(IoReadValSub(n)) + rest) == Ok(Decoded(IoReadValSub(n), 1))
  {
    NibbleOpcode(0x50, n);
    assert (Encode(IoReadValSub(n)) + rest)[0] == 0x50 + n;
  }

  lemma RoundTripDisableChannel(n: Nibble, rest: seq<Byte>)
    ensures Read(Encode(DisableChannel(n)) + rest) == Ok(Decoded(DisableChannel(n), 1))
  {
    NibbleOpcode(0x20, n);
    assert (Encode(DisableChannel(n)) + rest)[0] == 0x20 + n;
  }

  lemma RoundTripTestLayerFinished(n: Nibble, rest: seq<Byte>)
    ensures Read(Encode(TestLayerFinished(n)) + rest) == Ok(Decoded(TestLayerFinished(n), 1))
  {
    NibbleOpcode(0x00, n);
    assert (Encode(TestLayerFinished(n)) + rest)[0] == 0x00 + n;
  }

  /** An opcode whose high nibble is `base`'s keeps `n` as its low nibble. */
  lemma NibbleOpcode(base: Byte, n: Nibble)
    requires base % 0x10 == 0 && base + n < 0x100
    ensures (base + n) % 0x10 == n
  {
  }

  lemma {:induction false} RoundTripBare(cmd: ChannelCmd, rest: seq<Byte>)
    requires BareForm(cmd)
    ensures Read(Encode(cmd) + rest) == Ok(Decoded(cmd, |Encode(cmd)|))
  {
    BareArmInverts(cmd);
    var data := Encode(cmd) + rest;
    assert data[0] == Encode(cmd)[0];
    ReadBareOp(data);
  }

  lemma {:induction false} RoundTripByte(cmd: ChannelCmd, rest: seq<Byte>)
    requires ByteForm(cmd)
    ensures Read(Encode(cmd) + rest) == Ok(Decoded(cmd, ReportedSize(cmd)))
  {
    ByteArmInverts(cmd);
    var data := Encode(cmd) + rest;
    assert data[0] == Encode(cmd)[0] && data[1] == Encode(cmd)[1];
    ReadByteOp(data);
  }

  /** An opcode with a one-byte operand is decoded by the byte arm. */
  lemma ReadByteOp(data: seq<Byte>)
    requires |data| >= 2 && ByteOp(data[0])
    ensures Read(data) == Ok(Decoded(ByteArm(data[0], data[1]), if data[0] == 0xe3 then 1 else 2))
  {
    OpClassesDisjoint(data[0]);
  }

  /** An opcode with a u16 operand is decoded by the u16 arm. */
  lemma ReadU16Op(data: seq<Byte>)
    requires |data| >= 3 && U16Op(data[0])
    ensures Read(data) == Ok(Decoded(U16Arm(data[0], BeU16At(data, 1)), if data[0] == 0xde then 4 else 3))
  {
    OpClassesDisjoint(data[0]);
  }

  /** An opcode with three operand bytes is decoded by the wide arm. */
  lemma ReadWideOp(data: seq<Byte>)
    requires |data| >= 4 && WideOp(data[0])
    ensures Read(data) == Ok(Decoded(WideArm(data[0], data[1], data[2], data[3]), 4))
  {
    OpClassesDisjoint(data[0]);
  }

  /** An opcode without operand is decoded by the bare arm. */
  lemma ReadBareOp(data: seq<Byte>)
    requires |data| >= 1 && BareOp(data[0])
    ensures Read(data) == Ok(Decoded(BareArm(data[0]), 1))
  {
    OpClassesDisjoint(data[0]);
  }

  /** The opcode classes from 0xc0 up do not overlap. */
  lemma OpClassesDisjoint(op: Byte)
    ensures ByteOp(op) || U16Op(op) || WideOp(op) || BareOp(op) ==> op >= 0xc0 && op != 0xfd
    ensures ByteOp(op) ==> !U16Op(op) && !WideOp(op)
    ensures U16Op(op) ==> !WideOp(op)
  {
  }

  /** The one-byte-operand arm decodes the encoding of each of its instructions. */
  lemma {:induction false} ByteArmInverts(cmd: ChannelCmd)
    requires ByteForm(cmd)
    ensures |Encode(cmd)| == 2
    ensures ByteOp(Encode(cmd)[0]) && ByteArm(Encode(cmd)[0], Encode(cmd)[1]) == cmd
    ensures Encode(cmd)[0] == 0xe3 <==> cmd.SetVibratoDelay?
  {
    if cmd.Loop? || cmd.ReserveNotes? || cmd.SetVibratoDelay? || cmd.SetVolScale? {
      ByteArmInverts1(cmd);
    } else if cmd.SetVol? || cmd.SetPan? || cmd.SetPanChanWeight? || cmd.Transpose? {
      ByteArmInverts2(cmd);
    } else if cmd.SetDecayRelease? || cmd.SetVibratoExtent? || cmd.SetVibratoRate? || cmd.SetUpdatesPerFrame? {
      ByteArmInverts3(cmd);
    } else if cmd.SetReverb? || cmd.PitchBend? || cmd.SetSustain? || cmd.SetNoteAllocationPolicy? {
      ByteArmInverts4(cmd);
    } else if cmd.StereoHeadsetEffects? || cmd.SetVal? || cmd.SetMuteBhv? || cmd.BitAnd? {
      ByteArmInverts5(cmd);
    } else {
      ByteArmInverts6(cmd);
    }
  }

  lemma {:induction false} ByteArmInverts1(cmd: ChannelCmd)
    requires cmd.Loop? || cmd.ReserveNotes? || cmd.SetVibratoDelay? || cmd.SetVolScale?
    ensures |Encode(cmd)| == 2
    ensures ByteOp(Encode(cmd)[0]) && ByteArm(Encode(cmd)[0], Encode(cmd)[1]) == cmd
    ensures Encode(cmd)[0] == 0xe3 <==> cmd.SetVibratoDelay?
  {
    if cmd.Loop? {
      var x := cmd.count;
      assert ByteArm(0xf8, x) == cmd;
    } else if cmd.ReserveNotes? {
      var x := cmd.notes;
      assert ByteArm(0xf2, x) == cmd;
    } else if cmd.SetVibratoDelay? {
      var x := cmd.val;
      assert ByteArm(0xe3, x) == cmd;
    } else {
      var x := cmd.val;
      assert ByteArm(0xe0, x) == cmd;
    }
  }

  lemma {:induction false} ByteArmInverts2(cmd: ChannelCmd)
    requires cmd.SetVol? || cmd.SetPan? || cmd.SetPanChanWeight? || cmd.Transpose?
    ensures |Encode(cmd)| == 2
    ensures ByteOp(Encode(cmd)[0]) && ByteArm(Encode(cmd)[0], Encode(cmd)[1]) == cmd
    ensures Encode(cmd)[0] == 0xe3 <==> cmd.SetVibratoDelay?
  {
    if cmd.SetVol? {
      var x := cmd.val;
      assert ByteArm(0xdf, x) == cmd;
    } else if cmd.SetPan? {
      var x := cmd.val;
      assert ByteArm(0xdd, x) == cmd;
    } else if cmd.SetPanChanWeight? {
      var x := cmd.val;
      assert ByteArm(0xdc, x) == cmd;
    } else {
      var x := cmd.semitones;
      assert ByteArm(0xdb, I8Byte(x)) == cmd;
    }
  }

  lemma {:induction false} ByteArmInverts3(cmd: ChannelCmd)
    requires cmd.SetDecayRelease? || cmd.SetVibratoExtent? || cmd.SetVibratoRate? || cmd.SetUpdatesPerFrame?
    ensures |Encode(cmd)| == 2
    ensures ByteOp(Encode(cmd)[0]) && ByteArm(Encode(cmd)[0], Encode(cmd)[1]) == cmd
    ensures Encode(cmd)[0] == 0xe3 <==> cmd.SetVibratoDelay?
  {
    if cmd.SetDecayRelease? {
      var x := cmd.val;
      assert ByteArm(0xd9, x) == cmd;
    } else if cmd.SetVibratoExtent? {
      var x := cmd.val;
      assert ByteArm(0xd8, x) == cmd;
    } else if cmd.SetVibratoRate? {
      var x := cmd.val;
      assert ByteArm(0xd7, x) == cmd;
    } else {
      var x := cmd.val;
      assert ByteArm(0xd6, x) == cmd;
    }
  }

  lemma {:induction false} ByteArmInverts4(cmd: ChannelCmd)
    requires cmd.SetReverb? || cmd.PitchBend? || cmd.SetSustain? || cmd.SetNoteAllocationPolicy?
    ensures |Encode(cmd)| == 2
    ensures ByteOp(Encode(cmd)[0]) && ByteArm(Encode(cmd)[0], Encode(cmd)[1]) == cmd
    ensures Encode(cmd)[0] == 0xe3 <==> cmd.SetVibratoDelay?
  {
    if cmd.SetReverb? {
      var x := cmd.val;
      assert ByteArm(0xd4, x) == cmd;
    } else if cmd.PitchBend? {
      var x := cmd.bend;
      assert ByteArm(0xd3, I8Byte(x)) == cmd;
    } else if cmd.SetSustain? {
      var x := cmd.val;
      assert ByteArm(0xd2, x) == cmd;
    } else {
      var x := cmd.val;
      assert ByteArm(0xd1, x) == cmd;
    }
  }

  lemma {:induction false} ByteArmInverts5(cmd: ChannelCmd)
    requires cmd.StereoHeadsetEffects? || cmd.SetVal? || cmd.SetMuteBhv? || cmd.BitAnd?
    ensures |Encode(cmd)| == 2
    ensures ByteOp(Encode(cmd)[0]) && ByteArm(Encode(cmd)[0], Encode(cmd)[1]) == cmd
    ensures Encode(cmd)[0] == 0xe3 <==> cmd.SetVibratoDelay?
  {
    if cmd.StereoHeadsetEffects? {
      var x := cmd.val;
      assert ByteArm(0xd0, x) == cmd;
    } else if cmd.SetVal? {
      var x := cmd.val;
      assert ByteArm(0xcc, x) == cmd;
    } else if cmd.SetMuteBhv? {
      var x := cmd.val;
      assert ByteArm(0xca, x) == cmd;
    } else {
      var x := cmd.val;
      assert ByteArm(0xc9, x) == cmd;
    }
  }

  lemma {:induction false} ByteArmInverts6(cmd: ChannelCmd)
    requires cmd.Subtract? || cmd.SetBank? || cmd.SetInstr?
    ensures |Encode(cmd)| == 2
    ensures ByteOp(Encode(cmd)[0]) && ByteArm(Encode(cmd)[0], Encode(cmd)[1]) == cmd
    ensures Encode(cmd)[0] == 0xe3 <==> cmd.SetVibratoDelay?
  {
    if cmd.Subtract? {
      var x := cmd.val;
      assert ByteArm(0xc8, x) == cmd;
    } else if cmd.SetBank? {
      var x := cmd.val;
      assert ByteArm(0xc6, x) == cmd;
    } else {
      var x := cmd.val;
      assert ByteArm(0xc1, x) == cmd;
    }
  }

  lemma {:induction false} RoundTripU16(cmd: ChannelCmd, rest: seq<Byte>)
    requires U16Form(cmd)
    ensures Read(Encode(cmd) + rest) == Ok(Decoded(cmd, ReportedSize(cmd)))
  {
    U16ArmInverts(cmd);
    var e := Encode(cmd);
    var data := e + rest;
    assert data[..3] == e;
    assert BeU16At(data, 1) == BeU16At(e, 1);
    ReadU16Op(data);
  }

  lemma {:induction false} RoundTripWide(cmd: ChannelCmd, rest: seq<Byte>)
    requires cmd.SetVibratoExtentLinear? || cmd.SetVibratoRateLinear? || cmd.WriteSeq?
    ensures Read(Encode(cmd) + rest) == Ok(Decoded(cmd, ReportedSize(cmd)))
  {
    WideArmInverts(cmd);
    var e := Encode(cmd);
    var data := e + rest;
    assert data[..4] == e;
    ReadWideOp(data);
  }

  /** The u16-operand arm decodes the encoding of each of its instructions. */
  lemma {:induction false} U16ArmInverts(cmd: ChannelCmd)
    requires U16Form(cmd)
    ensures |Encode(cmd)| == 3
    ensures U16Op(Encode(cmd)[0]) && U16Arm(Encode(cmd)[0], BeU16At(Encode(cmd), 1)) == cmd
    ensures Encode(cmd)[0] == 0xde <==> cmd.FreqScale?
  {
    if cmd.Call? || cmd.Jump? || cmd.Beqz? || cmd.Bltz? || cmd.Bgez? {
      U16ArmInvertsBranch(cmd);
    } else {
      U16ArmInvertsOther(cmd);
    }
  }

  lemma {:induction false} U16ArmInvertsBranch(cmd: ChannelCmd)
    requires cmd.Call? || cmd.Jump? || cmd.Beqz? || cmd.Bltz? || cmd.Bgez?
    ensures |Encode(cmd)| == 3
    ensures U16Op(Encode(cmd)[0]) && U16Arm(Encode(cmd)[0], BeU16At(Encode(cmd), 1)) == cmd
    ensures Encode(cmd)[0] == 0xde <==> cmd.FreqScale?
  {
    match cmd {
      case Call(_) =>
      case Jump(_) =>
      case Beqz(_) =>
      case Bltz(_) =>
      case Bgez(_) =>
    }
  }

  lemma {:induction false} U16ArmInvertsOther(cmd: ChannelCmd)
    requires cmd.FreqScale? || cmd.SetEnvelope? || cmd.ReadSeq? || cmd.SetDynTable?
    ensures |Encode(cmd)| == 3
    ensures U16Op(Encode(cmd)[0]) && U16Arm(Encode(cmd)[0], BeU16At(Encode(cmd), 1)) == cmd
    ensures Encode(cmd)[0] == 0xde <==> cmd.FreqScale?
  {
    match cmd {
      case FreqScale(_) =>
      case SetEnvelope(_) =>
      case ReadSeq(_) =>
      case SetDynTable(_) =>
    }
  }

  lemma {:induction false} BareArmInverts(cmd: ChannelCmd)
    requires BareForm(cmd)
    ensures |Encode(cmd)| == 1 && BareOp(Encode(cmd)[0]) && BareArm(Encode(cmd)[0]) == cmd
  {
    match cmd {
      case End =>
      case Delay1 =>
      case LoopEnd =>
      case Break =>
      case Hang =>
      case UnReserveNotes =>
      case DynCall =>
      case DynSetDynTable =>
      case LargeNotesOn =>
      case LargeNotesOff =>
    }
  }

  lemma {:induction false} WideArmInverts(cmd: ChannelCmd)
    requires cmd.SetVibratoExtentLinear? || cmd.SetVibratoRateLinear? || cmd.WriteSeq?
    ensures WideOp(Encode(cmd)[0])
    ensures WideArm(Encode(cmd)[0], Encode(cmd)[1], Encode(cmd)[2], Encode(cmd)[3]) == cmd
  {
    match cmd {
      case SetVibratoExtentLinear(_, _, _) =>
      case SetVibratoRateLinear(_, _, _) =>
      case WriteSeq(_, a) =>
        assert BeU16(Encode(cmd)[2], Encode(cmd)[3]) == BeU16At(U16Bytes(a), 0);
    }
  }
}
