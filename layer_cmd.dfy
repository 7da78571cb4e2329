/** Layer-level (note) instructions and their decoder (m64/src/layer.rs).
    Opcodes from 0xc0 up are control instructions; below 0xc0 an opcode is
    a note whose encoding depends on the channel's large-notes mode. */
module LayerCmds {
  import opened Bytes
  import opened Outcomes
  import opened VarInt

  datatype LayerCmd =
    | End
    | Call(addr: U16)
    | Jump(addr: U16)
    | Loop(count: Byte)
    | LoopEnd
    | SetShortNoteDurationFromTable(index: Nibble)
    | SetShortNoteVelocityFromTable(index: Nibble)
    | SetPan(val: Byte)
    | SetShortNoteDuration(val: Byte)
    | DisablePortamento
    | Portamento(mode: Byte, target: Byte, time: U16)
    | SetInstr(val: Byte)
    | SomethingOff
    | SomethingOn
    | SetShortNoteDefaultPlayPercentage(percentage: U15)
    | Transpose(semitones: Byte)
    | SetShortNoteVelocity(val: Byte)
    | Delay(ticks: U15)
    | Note0(pitch: Byte, percentage: U15, velocity: Byte, duration: Byte)
    | Note1(pitch: Byte, percentage: U15, velocity: Byte)
    | Note2(pitch: Byte, velocity: Byte, duration: Byte)
    | SmallNote0(pitch: Byte, percentage: U15)
    | SmallNote1(pitch: Byte)
    | SmallNote2(pitch: Byte)

  /** The opcodes with an arm of their own, decoded the same way in both modes. */
  predicate Listed(op: Byte)
  {
    (op == 0xff || op == 0xfc || op == 0xfb || op == 0xf8 || op == 0xf7 || op == 0xca ||
      op == 0xc9 || op == 0xc8 || op == 0xc7 || op == 0xc6 || op == 0xc5 || op == 0xc4 ||
      op == 0xc3 || op == 0xc2 || op == 0xc1 || op == 0xc0)
    || 0xd0 <= op <= 0xef
  }

  /** The bytes a listed arm indexes or slices. */
  function ListedNeeded(op: Byte): nat
    requires Listed(op)
  {
    if op == 0xc7 then 4
    else if (op == 0xfc || op == 0xfb || op == 0xc3 || op == 0xc0) then 3
    else if (op == 0xf8 || op == 0xca || op == 0xc9 || op == 0xc6 || op == 0xc2 || op == 0xc1) then 2
    else 1
  }

  /** `LayerCmd::read(data, large_notes)` as written. */
  function Read(data: seq<Byte>, largeNotes: bool): (r: Outcome<Decoded<LayerCmd>>)
    ensures |data| == 0 ==> r == Panic(OutOfBounds)
    ensures |data| > 0 && Listed(data[0]) ==> (r.Ok? <==> |data| >= ListedNeeded(data[0]))
    ensures r.Ok? ==> 1 <= r.value.size <= 5 && r.value.size <= |data|
    ensures r.Ok? && largeNotes ==> !IsSmallNote(r.value.cmd)
    ensures r.Ok? && !largeNotes ==> !IsLargeNote(r.value.cmd)
    ensures r.Ok? && IsLargeNote(r.value.cmd) ==> r.value.cmd.pitch < 0x40
  {
    if |data| == 0 then Panic(OutOfBounds)
    else if Listed(data[0]) then ReadListed(data)
    else if largeNotes then ReadLargeNote(data)
    else ReadSmallNoteAsWritten(data)
  }

  predicate IsSmallNote(cmd: LayerCmd)
  {
    cmd.SmallNote0? || cmd.SmallNote1? || cmd.SmallNote2?
  }

  predicate IsLargeNote(cmd: LayerCmd)
  {
    cmd.Note0? || cmd.Note1? || cmd.Note2?
  }

  /** The arms for opcodes with their own entry. */
  function ReadListed(data: seq<Byte>): (r: Outcome<Decoded<LayerCmd>>)
    requires |data| > 0 && Listed(data[0])
    ensures r.Ok? <==> |data| >= ListedNeeded(data[0])
    ensures !r.Ok? ==> r == Panic(OutOfBounds)
    ensures r.Ok? ==> 1 <= r.value.size <= 4 && r.value.size <= |data|
    ensures r.Ok? ==> !IsSmallNote(r.value.cmd) && !IsLargeNote(r.value.cmd)
  {
    var op := data[0];
    if |data| < ListedNeeded(op) then Panic(OutOfBounds)
    else if op == 0xc7 then
      var z := data[3];
      if z < 0x80 then
        match ReadVar(data[3..])
        case Ok(v) => Ok(Decoded(Portamento(data[1], data[2], v.value), 3 + v.size))
        case Panic(f) => Panic(f)
      else Ok(Decoded(Portamento(data[1], data[2], z), 4))
    else if op == 0xc3 || op == 0xc0 then
      match ReadVar(data[1..3])
      case Ok(v) =>
        Ok(Decoded(if op == 0xc3 then SetShortNoteDefaultPlayPercentage(v.value) else Delay(v.value), 1 + v.size))
      case Panic(f) => Panic(f)
    else if op == 0xfc || op == 0xfb then
      var a := BeU16At(data, 1);
      Ok(Decoded(if op == 0xfc then Call(a) else Jump(a), 3))
    else if ListedNeeded(op) == 2 then
      var b := data[1];
      var cmd :=
        if op == 0xf8 then Loop(b)
        else if op == 0xca then SetPan(b)
        else if op == 0xc9 then SetShortNoteDuration(b)
        else if op == 0xc6 then SetInstr(b)
        else if op == 0xc2 then Transpose(b)
        else SetShortNoteVelocity(b);
      Ok(Decoded(cmd, 2))
    else
      var cmd :=
        if op == 0xff then End
        else if op == 0xf7 then LoopEnd
        else if op >= 0xe0 then SetShortNoteDurationFromTable(op % 0x10)
        else if op >= 0xd0 then SetShortNoteVelocityFromTable(op % 0x10)
        else if op == 0xc8 then DisablePortamento
        else if op == 0xc5 then SomethingOff
        else SomethingOn;
      Ok(Decoded(cmd, 1))
  }

  /** The note arms with large notes: the opcode range selects the note form. */
  function ReadLargeNote(data: seq<Byte>): (r: Outcome<Decoded<LayerCmd>>)
    requires |data| > 0 && !Listed(data[0])
    ensures r.Ok? ==> IsLargeNote(r.value.cmd) && r.value.cmd.pitch < 0x40
    ensures r.Ok? ==> 3 <= r.value.size <= 5 && r.value.size <= |data|
  {
    var op := data[0];
    if op >= 0xc0 then Panic(UnknownOpcode(op))
    else if |data| < 3 then Panic(OutOfBounds)
    else if op >= 0x80 then Ok(Decoded(Note2(op - 0x80, data[1], data[2]), 3))
    else
      match ReadVar(data[1..3])
      case Panic(f) => Panic(f)
      case Ok(v) =>
        if op < 0x40 then
          if |data| < 3 + v.size then Panic(OutOfBounds)
          else Ok(Decoded(Note0(op, v.value, data[1 + v.size], data[2 + v.size]), 3 + v.size))
        else
          if |data| < 2 + v.size then Panic(OutOfBounds)
          else Ok(Decoded(Note1(op - 0x40, v.value, data[1 + v.size]), 2 + v.size))
  }

  /** The note arms with small notes as written: the arm is chosen by the
      operand byte `data[1]`, while the pitch is computed from the opcode. */
  function ReadSmallNoteAsWritten(data: seq<Byte>): (r: Outcome<Decoded<LayerCmd>>)
    requires |data| > 0 && !Listed(data[0])
  {
    var op := data[0];
    if |data| < 2 then Panic(OutOfBounds)
    else
      var b := data[1];
      if b < 0x40 then
        if |data| < 3 then Panic(OutOfBounds)
        else
          match ReadVar(data[1..3])
          case Ok(v) => Ok(Decoded(SmallNote0(op, v.value), 1 + v.size))
          case Panic(f) => Panic(f)
      else if b < 0x80 then
        if op < 0x40 then Panic(Overflow) else Ok(Decoded(SmallNote1(op - 0x40), 1))
      else if b < 0xc0 then
        if op < 0x80 then Panic(Overflow) else Ok(Decoded(SmallNote2(op - 0x80), 1))
      else Panic(UnknownOpcode(op))
  }

  /** The note arms with small notes as the opcode table intends them: the
      opcode range selects the form, as it does with large notes. */
  function ReadSmallNote(data: seq<Byte>): (r: Outcome<Decoded<LayerCmd>>)
    requires |data| > 0 && !Listed(data[0])
    ensures r.Ok? ==> IsSmallNote(r.value.cmd) && r.value.cmd.pitch < 0x40
    ensures r.Ok? ==> 1 <= r.value.size <= 3 && r.value.size <= |data|
    ensures r != Panic(Overflow)
  {
    var op := data[0];
    if op >= 0xc0 then Panic(UnknownOpcode(op))
    else if op >= 0x80 then Ok(Decoded(SmallNote2(op - 0x80), 1))
    else if op >= 0x40 then Ok(Decoded(SmallNote1(op - 0x40), 1))
    else if |data| < 3 then Panic(OutOfBounds)
    else
      match ReadVar(data[1..3])
      case Ok(v) => Ok(Decoded(SmallNote0(op, v.value), 1 + v.size))
      case Panic(f) => Panic(f)
  }

  /** The decoder with the small-notes arms dispatching on the opcode, as
      the large-notes arms do. */
  function ReadIntended(data: seq<Byte>, largeNotes: bool): (r: Outcome<Decoded<LayerCmd>>)
    ensures |data| == 0 ==> r == Panic(OutOfBounds)
    ensures r.Ok? ==> 1 <= r.value.size <= 5 && r.value.size <= |data|
    ensures r.Ok? && largeNotes ==> !IsSmallNote(r.value.cmd)
    ensures r.Ok? && !largeNotes ==> !IsLargeNote(r.value.cmd)
    ensures r.Ok? && (IsSmallNote(r.value.cmd) || IsLargeNote(r.value.cmd)) ==> r.value.cmd.pitch < 0x40
    ensures r != Panic(Overflow)
  {
    if |data| == 0 then Panic(OutOfBounds)
    else if Listed(data[0]) then ReadListed(data)
    else if largeNotes then ReadLargeNote(data)
    else ReadSmallNote(data)
  }

  /** Every listed opcode decodes the same way whatever the mode. */
  lemma ListedModeIndependent(data: seq<Byte>)
    requires |data| > 0 && Listed(data[0])
    ensures Read(data, true) == Read(data, false) == ReadIntended(data, true) == ReadIntended(data, false)
  {
  }

  /** With the corrected note arms, every opcode from 0xc0 up decodes the same
      way whatever the mode, and an unlisted one is always unknown. */
  lemma {:induction false} IntendedHighOpcodesModeIndependent(data: seq<Byte>)
    requires |data| > 0 && data[0] >= 0xc0
    ensures ReadIntended(data, true) == ReadIntended(data, false)
    ensures !Listed(data[0]) ==> ReadIntended(data, true) == Panic(UnknownOpcode(data[0]))
  {
  }

  /** As written, an unlisted opcode from 0xc0 up is unknown with large notes
      but decodes as a small note without them. */
  lemma AsWrittenHighOpcodeDependsOnMode()
    ensures Read([0xcb, 0x50, 0x00], true) == Panic(UnknownOpcode(0xcb))
    ensures Read([0xcb, 0x50, 0x00], false) == Ok(Decoded(SmallNote1(0x8b), 1))
  {
  }

  /** The two table-index opcode ranges carry the low nibble and report one byte. */
  lemma TableIndexArms(data: seq<Byte>, largeNotes: bool)
    requires |data| > 0 && 0xd0 <= data[0] <= 0xef
    ensures 0xe0 <= data[0] ==> Read(data, largeNotes) == Ok(Decoded(SetShortNoteDurationFromTable(data[0] - 0xe0), 1))
    ensures data[0] < 0xe0 ==> Read(data, largeNotes) == Ok(Decoded(SetShortNoteVelocityFromTable(data[0] - 0xd0), 1))
  {
  }

  /** Both arms of the portamento time test read exactly one byte, so the
      instruction is always four bytes and its time is `data[3]`. */
  lemma {:induction false} PortamentoAlwaysFourBytes(data: seq<Byte>, largeNotes: bool)
    requires |data| > 0 && data[0] == 0xc7
    ensures |data| < 4 ==> Read(data, largeNotes) == Panic(OutOfBounds)
    ensures |data| >= 4 ==> Read(data, largeNotes) == Ok(Decoded(Portamento(data[1], data[2], data[3]), 4))
  {
    if |data| >= 4 && data[3] < 0x80 {
      assert ReadVar(data[3..]) == Ok(Var(data[3], 1)) by {
        assert data[3..][0] == data[3];
      }
    }
  }

  /** `Delay` and the default play percentage report one byte plus the size of
      their variable-length operand. */
  lemma {:induction false} VarOperandSizes(data: seq<Byte>, largeNotes: bool)
    requires |data| >= 3 && (data[0] == 0xc0 || data[0] == 0xc3)
    ensures Read(data, largeNotes).Ok?
    ensures Read(data, largeNotes).value.size == 1 + ReadVar(data[1..]).value.size
    ensures data[0] == 0xc0 ==> Read(data, largeNotes).value.cmd == Delay(ReadVar(data[1..]).value.value)
    ensures data[0] == 0xc3 ==>
      Read(data, largeNotes).value.cmd == SetShortNoteDefaultPlayPercentage(ReadVar(data[1..]).value.value)
  {
    assert data[1..3][0] == data[1..][0];
    assert data[1..3][1] == data[1..][1];
  }

  /** The three large-note forms, their sizes and their pitch ranges. */
  lemma {:induction false} LargeNoteForms(data: seq<Byte>)
    requires |data| >= 5 && data[0] < 0xc0
    ensures var r := Read(data, true);
      var v := ReadVar(data[1..]).value;
      && r.Ok? && r.value.cmd.pitch < 0x40
      && (data[0] < 0x40 ==> r.value == Decoded(Note0(data[0], v.value, data[1 + v.size], data[2 + v.size]), 3 + v.size))
      && (0x40 <= data[0] < 0x80 ==> r.value == Decoded(Note1(data[0] - 0x40, v.value, data[1 + v.size]), 2 + v.size))
      && (0x80 <= data[0] ==> r.value == Decoded(Note2(data[0] - 0x80, data[1], data[2]), 3))
  {
    assert data[1..3][0] == data[1..][0];
    assert data[1..3][1] == data[1..][1];
  }

  /** As written, the small-note form is chosen by `data[1]`: both `SmallNote1`
      and `SmallNote2` report one byte, and their pitch subtraction overflows
      when the opcode is below 0x40 or 0x80. */
  lemma {:induction false} SmallNotesAsWritten(data: seq<Byte>)
    requires |data| >= 3 && !Listed(data[0])
    ensures var r := Read(data, false);
      && (data[1] < 0x40 ==> r == Ok(Decoded(SmallNote0(data[0], data[1]), 2)))
      && (0x40 <= data[1] < 0x80 ==> r == (if data[0] < 0x40 then Panic(Overflow) else Ok(Decoded(SmallNote1(data[0] - 0x40), 1))))
      && (0x80 <= data[1] < 0xc0 ==> r == (if data[0] < 0x80 then Panic(Overflow) else Ok(Decoded(SmallNote2(data[0] - 0x80), 1))))
      && (0xc0 <= data[1] ==> r == Panic(UnknownOpcode(data[0])))
  {
  }

  /** Inputs on which the small-notes arms as written and as intended differ. */
  lemma SmallNoteDispatchDiffers()
    ensures Read([0x45, 0x10, 0x00], false) == Ok(Decoded(SmallNote0(0x45, 0x10), 2))
    ensures ReadIntended([0x45, 0x10, 0x00], false) == Ok(Decoded(SmallNote1(0x05), 1))
    ensures Read([0x10, 0x50, 0x00], false) == Panic(Overflow)
    ensures ReadIntended([0x10, 0x50, 0x00], false) == Ok(Decoded(SmallNote0(0x10, 0x50), 2))
  {
  }

  /** `is_end`. */
  predicate IsEnd(cmd: LayerCmd)
  {
    match cmd
    case End => true
    case _ => false
  }

  lemma IsEndExactlyEnd(cmd: LayerCmd)
    ensures IsEnd(cmd) <==> cmd == End
  {
  }

  /** The instructions the intended decoder produces in a given mode. */
  predicate Encodable(cmd: LayerCmd, largeNotes: bool)
  {
    (IsLargeNote(cmd) ==> largeNotes && cmd.pitch < 0x40)
    && (IsSmallNote(cmd) ==> !largeNotes && cmd.pitch < 0x40)
    && (cmd.Portamento? ==> cmd.time < 0x100)
  }

  /** The canonical bytes of an instruction. */
  function Encode(cmd: LayerCmd, largeNotes: bool): (r: seq<Byte>)
    requires Encodable(cmd, largeNotes)
  {
    match cmd
    case End => [0xff]
    case Call(a) => [0xfc] + U16Bytes(a)
    case Jump(a) => [0xfb] + U16Bytes(a)
    case Loop(n) => [0xf8, n]
    case LoopEnd => [0xf7]
    case SetShortNoteDurationFromTable(n) => [0xe0 + n]
    case SetShortNoteVelocityFromTable(n) => [0xd0 + n]
    case SetPan(b) => [0xca, b]
    case SetShortNoteDuration(b) => [0xc9, b]
    case DisablePortamento => [0xc8]
    case Portamento(x, y, z) => [0xc7, x, y, z]
    case SetInstr(b) => [0xc6, b]
    case SomethingOff => [0xc5]
    case SomethingOn => [0xc4]
    case SetShortNoteDefaultPlayPercentage(p) => [0xc3] + EncodeVar(p)
    case Transpose(b) => [0xc2, b]
    case SetShortNoteVelocity(b) => [0xc1, b]
    case Delay(t) => [0xc0] + EncodeVar(t)
    case Note0(p, pct, v, d) => [p] + EncodeVar(pct) + [v, d]
    case Note1(p, pct, v) => [0x40 + p] + EncodeVar(pct) + [v]
    case Note2(p, v, d) => [0x80 + p, v, d]
    case SmallNote0(p, pct) => [p] + EncodeVar(pct)
    case SmallNote1(p) => [0x40 + p]
    case SmallNote2(p) => [0x80 + p]
  }

  /** An encoding whose variable-length operand sits in the last byte is
      followed by at least one more byte, because the decoder slices `data[1..3]`. */
  predicate NeedsTrailingByte(cmd: LayerCmd)
  {
    match cmd
    case SetShortNoteDefaultPlayPercentage(p) => p < 0x80
    case Delay(t) => t < 0x80
    case SmallNote0(_, pct) => pct < 0x80
    case _ => false
  }

  /** The intended decoder inverts the encoding in either mode, whatever follows. */
  lemma {:induction false} RoundTrip(cmd: LayerCmd, largeNotes: bool, rest: seq<Byte>)
    requires Encodable(cmd, largeNotes)
    requires NeedsTrailingByte(cmd) ==> |rest| >= 1
    ensures ReadIntended(Encode(cmd, largeNotes) + rest, largeNotes) == Ok(Decoded(cmd, |Encode(cmd, largeNotes)|))
  {
    if cmd.SetShortNoteDefaultPlayPercentage? || cmd.Delay? {
      RoundTripVarOperand(cmd, largeNotes, rest);
    } else if IsLargeNote(cmd) {
      RoundTripLargeNote(cmd, rest);
    } else if IsSmallNote(cmd) {
      RoundTripSmallNote(cmd, rest);
    } else if cmd.Call? || cmd.Jump? || cmd.Portamento? {
      RoundTripWide(cmd, largeNotes, rest);
    } else {
      RoundTripShort(cmd, largeNotes, rest);
    }
  }

  lemma RoundTripVarOperand(cmd: LayerCmd, largeNotes: bool, rest: seq<Byte>)
    requires cmd.SetShortNoteDefaultPlayPercentage? || cmd.Delay?
    requires NeedsTrailingByte(cmd) ==> |rest| >= 1
    ensures ReadIntended(Encode(cmd, largeNotes) + rest, largeNotes) == Ok(Decoded(cmd, |Encode(cmd, largeNotes)|))
  {
    var e := Encode(cmd, largeNotes);
    var data := e + rest;
    assert data[..|e|] == e;
    var v := if cmd.Delay? then cmd.ticks else cmd.percentage;
    assert e == [data[0]] + EncodeVar(v);
    VarAt(v, data);
  }

  lemma RoundTripLargeNote(cmd: LayerCmd, rest: seq<Byte>)
    requires IsLargeNote(cmd) && cmd.pitch < 0x40
    ensures ReadIntended(Encode(cmd, true) + rest, true) == Ok(Decoded(cmd, |Encode(cmd, true)|))
  {
    var e := Encode(cmd, true);
    var data := e + rest;
    assert data[..|e|] == e;
    match cmd {
      case Note0(_, pct, _, _) =>
        VarAt(pct, data);
      case Note1(_, pct, _) =>
        VarAt(pct, data);
      case Note2(_, _, _) =>
    }
  }

  lemma RoundTripSmallNote(cmd: LayerCmd, rest: seq<Byte>)
    requires IsSmallNote(cmd) && cmd.pitch < 0x40
    requires NeedsTrailingByte(cmd) ==> |rest| >= 1
    ensures ReadIntended(Encode(cmd, false) + rest, false) == Ok(Decoded(cmd, |Encode(cmd, false)|))
  {
    var e := Encode(cmd, false);
    var data := e + rest;
    assert data[0] == e[0];
    assert !Listed(data[0]);
    assert ReadIntended(data, false) == ReadSmallNote(data);
    if cmd.SmallNote0? {
      SmallNote0Operand(cmd.pitch, cmd.percentage, rest);
    }
  }

  lemma SmallNote0Operand(p: Byte, pct: U15, rest: seq<Byte>)
    requires p < 0x40
    requires pct < 0x80 ==> |rest| >= 1
    ensures ReadSmallNote([p] + EncodeVar(pct) + rest) == Ok(Decoded(SmallNote0(p, pct), 1 + |EncodeVar(pct)|))
  {
    var data := [p] + EncodeVar(pct) + rest;
    assert data[1..1 + |EncodeVar(pct)|] == EncodeVar(pct);
    VarAt(pct, data);
  }

  lemma RoundTripWide(cmd: LayerCmd, largeNotes: bool, rest: seq<Byte>)
    requires cmd.Call? || cmd.Jump? || (cmd.Portamento? && cmd.time < 0x100)
    ensures ReadIntended(Encode(cmd, largeNotes) + rest, largeNotes) == Ok(Decoded(cmd, |Encode(cmd, largeNotes)|))
  {
    var e := Encode(cmd, largeNotes);
    var data := e + rest;
    assert data[..|e|] == e;
    if cmd.Portamento? && cmd.time < 0x80 {
      assert data[3..][0] == cmd.time;
      assert ReadVar(data[3..]) == Ok(Var(cmd.time, 1));
    }
  }

  lemma RoundTripShort(cmd: LayerCmd, largeNotes: bool, rest: seq<Byte>)
    requires !(cmd.SetShortNoteDefaultPlayPercentage? || cmd.Delay? || cmd.Call? || cmd.Jump? || cmd.Portamento?)
    requires !IsLargeNote(cmd) && !IsSmallNote(cmd)
    ensures ReadIntended(Encode(cmd, largeNotes) + rest, largeNotes) == Ok(Decoded(cmd, |Encode(cmd, largeNotes)|))
  {
    var e := Encode(cmd, largeNotes);
    var data := e + rest;
    assert data[..|e|] == e;
  }

  /** A variable-length operand right after the opcode decodes from the two-byte slice. */
  lemma VarAt(v: U15, data: seq<Byte>)
    requires |data| >= 3 && data[1..1 + |EncodeVar(v)|] == EncodeVar(v)
    ensures ReadVar(data[1..3]) == Ok(Var(v, |EncodeVar(v)|))
  {
    assert data[1..3] == EncodeVar(v) + data[1 + |EncodeVar(v)|..3];
    ReadVarRoundTrip(v, data[1 + |EncodeVar(v)|..3]);
  }

  /** In large-notes mode the decoder as written and the intended one agree. */
  lemma LargeNotesAgree(data: seq<Byte>)
    ensures Read(data, true) == ReadIntended(data, true)
  {
  }
}
