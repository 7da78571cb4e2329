/** Sequence-level (player) instructions and their decoder (m64/src/sequence.rs). */
module SequenceCmds {
  import opened Bytes
  import opened Outcomes
  import opened VarInt

  datatype SequenceCmd =
    | End
    | Delay1
    | Delay(ticks: U15)
    | Call(addr: U16)
    | Jump(addr: U16)
    | Beqz(addr: U16)
    | Bltz(addr: U16)
    | Loop(count: Byte)
    | LoopEnd
    | Bgez(addr: U16)
    | ReserveNotes(notes: Byte)
    | UnReserveNotes
    | Transpose(semitones: I8)
    | TransposeRel(delta: I8)
    | SetTempo(bpm: Byte)
    | AddTempo(delta: I8)
    | SetVol(vol: Byte)
    | ChangeVol(delta: I8)
    | InitChannels(mask: U16)
    | DisableChannels(mask: U16)
    | SetMuteScale(scale: I8)
    | Mute
    | SetMuteBhv(bits: Byte)
    | SetShortNoteVelocityTable(addr: U16)
    | SetShortNoteDurationTable(addr: U16)
    | SetNoteAllocationPolicy(policy: Byte)
    | SetVal(val: Byte)
    | BitAnd(val: Byte)
    | Subtract(val: Byte)
    | StartChannel(channel: Nibble, addr: U16)
    | GetVariation
    | SetVariation
    | SubVariation
    | TestChDisabled(channel: Nibble)

  /** The opcodes the decoder has an arm for; every other byte is `todo!`. */
  predicate Supported(op: Byte)
  {
    (op == 0xff || op == 0xfe || op == 0xfd || op == 0xfc || op == 0xfb || op == 0xfa ||
      op == 0xf9 || op == 0xf8 || op == 0xf7 || op == 0xf5 || op == 0xf2 || op == 0xf1 ||
      op == 0xdf || op == 0xde || op == 0xdd || op == 0xdc || op == 0xdb || op == 0xda ||
      op == 0xd7 || op == 0xd6 || op == 0xd5 || op == 0xd4 || op == 0xd3 || op == 0xd2 ||
      op == 0xd1 || op == 0xd0 || op == 0xcc || op == 0xc9 || op == 0xc8)
    || 0x90 <= op <= 0x9f || 0x80 <= op <= 0x8f || 0x70 <= op <= 0x7f
    || 0x50 <= op <= 0x5f || op <= 0x0f
  }

  /** How many bytes the arm for `op` indexes or slices: two-byte operands
      and the variable-length operand are sliced as `data[1..3]`. */
  function Needed(op: Byte): nat
  {
    if (op == 0xfd || op == 0xfc || op == 0xfb || op == 0xfa || op == 0xf9 || op == 0xf5 ||
      op == 0xd7 || op == 0xd6 || op == 0xd2 || op == 0xd1) || 0x90 <= op <= 0x9f then 3
    else if (op == 0xf8 || op == 0xf2 || op == 0xdf || op == 0xde || op == 0xdd || op == 0xdc ||
      op == 0xdb || op == 0xda || op == 0xd5 || op == 0xd3 || op == 0xd0 || op == 0xcc ||
      op == 0xc9 || op == 0xc8) then 2
    else 1
  }

  /** `SequenceCmd::read`: the instruction at the start of `data` and its size. */
  function Read(data: seq<Byte>): (r: Outcome<Decoded<SequenceCmd>>)
    ensures |data| == 0 ==> r == Panic(OutOfBounds)
    ensures |data| > 0 && !Supported(data[0]) ==> r == Panic(UnknownOpcode(data[0]))
    ensures |data| > 0 && Supported(data[0]) ==> (r.Ok? <==> |data| >= Needed(data[0]))
    ensures |data| > 0 && Supported(data[0]) && !r.Ok? ==> r == Panic(OutOfBounds)
    ensures r.Ok? ==> 1 <= r.value.size <= 3 && r.value.size <= |data|
  {
    if |data| == 0 then Panic(OutOfBounds)
    else
      var op := data[0];
      if op == 0xff then Ok(Decoded(End, 1))
      else if op == 0xfe then Ok(Decoded(Delay1, 1))
      else if op == 0xfd then
        if |data| < 3 then Panic(OutOfBounds)
        else match ReadVar(data[1..3])
          case Ok(v) => Ok(Decoded(Delay(v.value), 1 + v.size))
          case Panic(f) => Panic(f)
      else if (op == 0xfc || op == 0xfb || op == 0xfa || op == 0xf9 || op == 0xf5 || op == 0xd7 ||
      op == 0xd6 || op == 0xd2 || op == 0xd1) || 0x90 <= op <= 0x9f then
        if |data| < 3 then Panic(OutOfBounds)
        else
          var a := BeU16At(data, 1);
          var cmd :=
            if op == 0xfc then Call(a)
            else if op == 0xfb then Jump(a)
            else if op == 0xfa then Beqz(a)
            else if op == 0xf9 then Bltz(a)
            else if op == 0xf5 then Bgez(a)
            else if op == 0xd7 then InitChannels(a)
            else if op == 0xd6 then DisableChannels(a)
            else if op == 0xd2 then SetShortNoteVelocityTable(a)
            else if op == 0xd1 then SetShortNoteDurationTable(a)
            else StartChannel(op % 0x10, a);
          Ok(Decoded(cmd, 3))
      else if (op == 0xf8 || op == 0xf2 || op == 0xdf || op == 0xde || op == 0xdd || op == 0xdc ||
      op == 0xdb || op == 0xda || op == 0xd5 || op == 0xd3 || op == 0xd0 || op == 0xcc ||
      op == 0xc9 || op == 0xc8) then
        if |data| < 2 then Panic(OutOfBounds)
        else
          var b := data[1];
          var cmd :=
            if op == 0xf8 then Loop(b)
            else if op == 0xf2 then ReserveNotes(b)
            else if op == 0xdf then Transpose(AsI8(b))
            else if op == 0xde then TransposeRel(AsI8(b))
            else if op == 0xdd then SetTempo(b)
            else if op == 0xdc then AddTempo(AsI8(b))
            else if op == 0xdb then SetVol(b)
            else if op == 0xda then ChangeVol(AsI8(b))
            else if op == 0xd5 then SetMuteScale(AsI8(b))
            else if op == 0xd3 then SetMuteBhv(b)
            else if op == 0xd0 then SetNoteAllocationPolicy(b)
            else if op == 0xcc then SetVal(b)
            else if op == 0xc9 then BitAnd(b)
            else Subtract(b);
          Ok(Decoded(cmd, 2))
      else if op == 0xf7 then Ok(Decoded(LoopEnd, 1))
      else if op == 0xf1 then Ok(Decoded(UnReserveNotes, 1))
      else if op == 0xd4 then Ok(Decoded(Mute, 1))
      else if 0x80 <= op <= 0x8f then Ok(Decoded(GetVariation, 1))
      else if 0x70 <= op <= 0x7f then Ok(Decoded(SetVariation, 1))
      else if 0x50 <= op <= 0x5f then Ok(Decoded(SubVariation, 1))
      else if op <= 0x0f then Ok(Decoded(TestChDisabled(op % 0x10), 1))
      else Panic(UnknownOpcode(op))
  }

  /** `is_end`. */
  predicate IsEnd(cmd: SequenceCmd)
  {
    match cmd
    case End => true
    case _ => false
  }

  lemma IsEndExactlyEnd(cmd: SequenceCmd)
    ensures IsEnd(cmd) <==> cmd == End
  {
  }

  /** The inverse of `Read`: the canonical bytes of an instruction. */
  function Encode(cmd: SequenceCmd): (r: seq<Byte>)
    ensures 1 <= |r| <= 3
  {
    match cmd
    case End => [0xff]
    case Delay1 => [0xfe]
    case Delay(t) => [0xfd] + EncodeVar(t)
    case Call(a) => [0xfc] + U16Bytes(a)
    case Jump(a) => [0xfb] + U16Bytes(a)
    case Beqz(a) => [0xfa] + U16Bytes(a)
    case Bltz(a) => [0xf9] + U16Bytes(a)
    case Loop(n) => [0xf8, n]
    case LoopEnd => [0xf7]
    case Bgez(a) => [0xf5] + U16Bytes(a)
    case ReserveNotes(n) => [0xf2, n]
    case UnReserveNotes => [0xf1]
    case Transpose(t) => [0xdf, I8Byte(t)]
    case TransposeRel(t) => [0xde, I8Byte(t)]
    case SetTempo(b) => [0xdd, b]
    case AddTempo(t) => [0xdc, I8Byte(t)]
    case SetVol(b) => [0xdb, b]
    case ChangeVol(t) => [0xda, I8Byte(t)]
    case InitChannels(m) => [0xd7] + U16Bytes(m)
    case DisableChannels(m) => [0xd6] + U16Bytes(m)
    case SetMuteScale(t) => [0xd5, I8Byte(t)]
    case Mute => [0xd4]
    case SetMuteBhv(b) => [0xd3, b]
    case SetShortNoteVelocityTable(a) => [0xd2] + U16Bytes(a)
    case SetShortNoteDurationTable(a) => [0xd1] + U16Bytes(a)
    case SetNoteAllocationPolicy(b) => [0xd0, b]
    case SetVal(b) => [0xcc, b]
    case BitAnd(b) => [0xc9, b]
    case Subtract(b) => [0xc8, b]
    case StartChannel(n, a) => [0x90 + n] + U16Bytes(a)
    case GetVariation => [0x80]
    case SetVariation => [0x70]
    case SubVariation => [0x50]
    case TestChDisabled(n) => [n]
  }

  /** Decoding the encoding of any instruction gives back the instruction and
      the encoded length, whatever follows; a one-byte `Delay` operand still
      needs one byte after it, because the decoder slices `data[1..3]`. */
  lemma {:induction false} RoundTrip(cmd: SequenceCmd, rest: seq<Byte>)
    requires cmd.Delay? && cmd.ticks < 0x80 ==> |rest| >= 1
    ensures Read(Encode(cmd) + rest) == Ok(Decoded(cmd, |Encode(cmd)|))
  {
    match cmd {
      case Delay(t) => RoundTripDelay(t, rest);
      case StartChannel(n, a) => RoundTripStartChannel(n, a, rest);
      case TestChDisabled(n) => RoundTripTestChDisabled(n, rest);
      case Call(_) | Jump(_) | Beqz(_) | Bltz(_) | Bgez(_) => RoundTripBranch(cmd, rest);
      case InitChannels(_) | DisableChannels(_) | SetShortNoteVelocityTable(_) | SetShortNoteDurationTable(_) => RoundTripMaskTable(cmd, rest);
      case Loop(_) | ReserveNotes(_) | Transpose(_) | TransposeRel(_) => RoundTripByteA(cmd, rest);
      case SetTempo(_) | AddTempo(_) | SetVol(_) | ChangeVol(_) => RoundTripByteB(cmd, rest);
      case SetMuteScale(_) | SetMuteBhv(_) | SetNoteAllocationPolicy(_) => RoundTripByteC(cmd, rest);
      case SetVal(_) | BitAnd(_) | Subtract(_) => RoundTripByteD(cmd, rest);
      case End | Delay1 | LoopEnd | UnReserveNotes | Mute | GetVariation | SetVariation | SubVariation => RoundTripBare(cmd, rest);
    }
  }

  lemma RoundTripDelay(t: U15, rest: seq<Byte>)
    requires t < 0x80 ==> |rest| >= 1
    ensures Read(Encode(Delay(t)) + rest) == Ok(Decoded(Delay(t), |Encode(Delay(t))|))
  {
    var e := Encode(Delay(t));
    var data := e + rest;
    assert data[1..3] == EncodeVar(t) + data[|e|..3];
    ReadVarRoundTrip(t, data[|e|..3]);
  }

  lemma RoundTripStartChannel(n: Nibble, a: U16, rest: seq<Byte>)
    ensures Read(Encode(StartChannel(n, a)) + rest) == Ok(Decoded(StartChannel(n, a), |Encode(StartChannel(n, a))|))
  {
    var data := Encode(StartChannel(n, a)) + rest;
    assert data[..3] == [0x90 + n] + U16Bytes(a);
    assert (0x90 + n) % 0x10 == n;
  }

  lemma RoundTripTestChDisabled(n: Nibble, rest: seq<Byte>)
    ensures Read(Encode(TestChDisabled(n)) + rest) == Ok(Decoded(TestChDisabled(n), |Encode(TestChDisabled(n))|))
  {
    assert (Encode(TestChDisabled(n)) + rest)[0] == n;
  }

  lemma {:induction false} RoundTripBranch(cmd: SequenceCmd, rest: seq<Byte>)
    requires cmd.Call?
      || cmd.Jump?
      || cmd.Beqz?
      || cmd.Bltz?
      || cmd.Bgez?
    ensures Read(Encode(cmd) + rest) == Ok(Decoded(cmd, |Encode(cmd)|))
  {
    var data := Encode(cmd) + rest;
    assert data[..3] == Encode(cmd);
  }

  lemma {:induction false} RoundTripMaskTable(cmd: SequenceCmd, rest: seq<Byte>)
    requires cmd.InitChannels?
      || cmd.DisableChannels?
      || cmd.SetShortNoteVelocityTable?
      || cmd.SetShortNoteDurationTable?
    ensures Read(Encode(cmd) + rest) == Ok(Decoded(cmd, |Encode(cmd)|))
  {
    var data := Encode(cmd) + rest;
    assert data[..3] == Encode(cmd);
  }

  lemma {:induction false} RoundTripByteA(cmd: SequenceCmd, rest: seq<Byte>)
    requires cmd.Loop?
      || cmd.ReserveNotes?
      || cmd.Transpose?
      || cmd.TransposeRel?
    ensures Read(Encode(cmd) + rest) == Ok(Decoded(cmd, |Encode(cmd)|))
  {
    var data := Encode(cmd) + rest;
    assert data[..2] == Encode(cmd);
  }

  lemma {:induction false} RoundTripByteB(cmd: SequenceCmd, rest: seq<Byte>)
    requires cmd.SetTempo?
      || cmd.AddTempo?
      || cmd.SetVol?
      || cmd.ChangeVol?
    ensures Read(Encode(cmd) + rest) == Ok(Decoded(cmd, |Encode(cmd)|))
  {
    var data := Encode(cmd) + rest;
    assert data[..2] == Encode(cmd);
  }

  lemma {:induction false} RoundTripByteC(cmd: SequenceCmd, rest: seq<Byte>)
    requires cmd.SetMuteScale?
      || cmd.SetMuteBhv?
      || cmd.SetNoteAllocationPolicy?
    ensures Read(Encode(cmd) + rest) == Ok(Decoded(cmd, |Encode(cmd)|))
  {
    var data := Encode(cmd) + rest;
    assert data[..2] == Encode(cmd);
  }

  lemma {:induction false} RoundTripByteD(cmd: SequenceCmd, rest: seq<Byte>)
    requires cmd.SetVal?
      || cmd.BitAnd?
      || cmd.Subtract?
    ensures Read(Encode(cmd) + rest) == Ok(Decoded(cmd, |Encode(cmd)|))
  {
    var data := Encode(cmd) + rest;
    assert data[..2] == Encode(cmd);
  }

  lemma {:induction false} RoundTripBare(cmd: SequenceCmd, rest: seq<Byte>)
    requires cmd.End?
      || cmd.Delay1?
      || cmd.LoopEnd?
      || cmd.UnReserveNotes?
      || cmd.Mute?
      || cmd.GetVariation?
      || cmd.SetVariation?
      || cmd.SubVariation?
    ensures Read(Encode(cmd) + rest) == Ok(Decoded(cmd, |Encode(cmd)|))
  {
    var data := Encode(cmd) + rest;
    assert data[..1] == Encode(cmd);
  }

  /** The fixed-operand arms: big-endian 16-bit addresses and masks take
      three bytes, signed one-byte operands are reinterpreted as `i8`. */
  lemma FixedOperandArms(data: seq<Byte>)
    requires |data| >= 3
    ensures var a := BeU16At(data, 1);
      && (data[0] == 0xfc ==> Read(data) == Ok(Decoded(Call(a), 3)))
      && (data[0] == 0xfb ==> Read(data) == Ok(Decoded(Jump(a), 3)))
      && (data[0] == 0xfa ==> Read(data) == Ok(Decoded(Beqz(a), 3)))
      && (data[0] == 0xf9 ==> Read(data) == Ok(Decoded(Bltz(a), 3)))
      && (data[0] == 0xf5 ==> Read(data) == Ok(Decoded(Bgez(a), 3)))
      && (data[0] == 0xd7 ==> Read(data) == Ok(Decoded(InitChannels(a), 3)))
      && (data[0] == 0xd6 ==> Read(data) == Ok(Decoded(DisableChannels(a), 3)))
      && (0x90 <= data[0] <= 0x9f ==> Read(data) == Ok(Decoded(StartChannel(data[0] - 0x90, a), 3)))
    ensures var t := AsI8(data[1]);
      && (data[0] == 0xdf ==> Read(data) == Ok(Decoded(Transpose(t), 2)))
      && (data[0] == 0xde ==> Read(data) == Ok(Decoded(TransposeRel(t), 2)))
      && (data[0] == 0xdc ==> Read(data) == Ok(Decoded(AddTempo(t), 2)))
      && (data[0] == 0xda ==> Read(data) == Ok(Decoded(ChangeVol(t), 2)))
      && (data[0] == 0xd5 ==> Read(data) == Ok(Decoded(SetMuteScale(t), 2)))
  {
  }

  /** `Delay` reports one byte of opcode plus the size of its variable operand. */
  lemma DelaySize(data: seq<Byte>)
    requires |data| >= 3 && data[0] == 0xfd
    ensures Read(data).Ok?
    ensures Read(data).value.size == 1 + ReadVar(data[1..]).value.size
    ensures (Read(data).value.size == 2 || Read(data).value.size == 3)
  {
    assert data[1..3][0] == data[1..][0];
  }
}
