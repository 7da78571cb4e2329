# m64tools core in Dafny

This project models three parts of m64tools, a toolkit for the sequence
format of the Nintendo 64 sound driver (`.m64` files) and for Audio IFF files.

- **The bytecode decoders** (`m64` crate): `read_var` and the
  three instruction sets. The sequence (player) script is `SequenceCmd::read`,
  the channel script is `ChannelCmd::read`, and the note layer script is
  `LayerCmd::read`, which depends on the channel's "large notes" mode.
  Files: `varint.dfy`, `sequence_cmd.dfy`, `channel_cmd.dfy`, `layer_cmd.dfy`.
- **The three-tier interpreter.** A `SequencePlayer` owns sixteen channel
  slots, a `SequenceChannel` owns four layer slots, and each tier runs its
  own script with a `ScriptState` (program counter, a four-deep return stack
  and loop counters). The repository holds two copies of it, `m64/src/state.rs`
  and `m64play/src/state/`. They are modelled once, with
  `datatype Engine = M64 | M64Play` selecting the copy wherever they differ.
  Files: `script_state.dfy`, `layer_state.dfy`, `channel_state.dfy`,
  `player_state.dfy`.
- **The Audio IFF reader** (`aiff` crate): chunk IDs, chunk framing,
  Pascal strings, the 80-bit extended float of the sample rate, the COMM,
  INST, MARK and SSND chunk parsers, and `Aiff::read`. Files: `bytes.dfy`
  (big-endian byte helpers and the shared `Fault` type), `aiff_types.dfy`,
  `aiff_chunks.dfy`, `aiff.dfy`.

A Rust panic (an index out of range, an integer overflow in a debug build, an
`unwrap` of `None`, a `todo!`/`unimplemented!` arm) is a value
`Panic(fault)` of the result type, so every error path is part of the model.
Fixed-width integers are subset types (`Byte`, `U16`, `I16`, `U32`, ...), and
every overflow that would panic is checked explicitly.

The interpreter tiers are classes whose methods update their fields in place.
Each class has a ghost `Value()` that reads its state as a datatype. Each
method is proved equal to a function on that datatype (`ProcessLayer`,
`ProcessChannel`, `ProcessPlayer`, and the `Run`/`Exec` functions below them).
The lemmas state the behaviour of the interpreter about those functions.
A script loop may run for ever (a `Jump` to itself), so every run is bounded
by a `fuel` number of instructions, and running out is the fault `OutOfFuel`.

## Model

| member | source | states |
|---|---|---|
| VarInt.ReadVar | m64/src/lib.rs:7-17 | A first byte below 0x80 is the value, one byte long. Otherwise the value is the low 7 bits of the first byte times 256 plus the second byte, two bytes long. A missing byte panics. The value is always below 0x8000. |
| VarInt.ReadVarRoundTrip | m64/src/lib.rs:7-17 | Decoding the encoding of any value below 0x8000 gives back the value and its encoded length, whatever follows. |
| SequenceCmds.Read | m64/src/sequence.rs:111-169 | Empty input panics, and an opcode outside the table panics as unknown. A listed opcode decodes exactly when its operand bytes are there, and otherwise panics out of bounds. The reported size is 1 to 3 bytes and never past the input. |
| SequenceCmds.RoundTrip | m64/src/sequence.rs:114-168 | Every sequence instruction decodes back from its encoding with its encoded length, whatever follows. A one-byte `Delay` operand needs one trailing byte, because the decoder slices `data[1..3]`. |
| SequenceCmds.FixedOperandArms | m64/src/sequence.rs:123-158 | Each fixed-operand arm: big-endian 16-bit addresses and masks take 3 bytes, and one-byte signed operands are reinterpreted as `i8`. |
| SequenceCmds.DelaySize | m64/src/sequence.rs:118-121 | `Delay` reports one opcode byte plus the size of its variable-length operand, so 2 or 3 bytes. |
| SequenceCmds.IsEndExactlyEnd | m64/src/sequence.rs:171-173 | `is_end` holds exactly for `End`. |
| ChannelCmds.Read | m64/src/channel.rs:183-275 | Empty input panics, and an unknown opcode panics as unknown. A listed opcode decodes exactly when its operand bytes are there. The size is 1 to 4 bytes, and never past the input except for the 0xde quirk. |
| ChannelCmds.RoundTrip | m64/src/channel.rs:186-274 | Every channel instruction decodes back from its encoding, with the size the decoder reports: the encoded length, except for the 0xe3 and 0xde quirks. |
| ChannelCmds.NibbleFamilies | m64/src/channel.rs:256-270 | Every opcode below 0xc0 decodes to its family with the low nibble as first operand. `SetLayer` and `StartChannel` take 3 bytes with a big-endian address. The two-operand I/O forms take 2 bytes. |
| ChannelCmds.ReportedSizeQuirks | m64/src/channel.rs:214-220 | 0xe3 reads `data[1]` but reports 1 byte; 0xde reads a u16 but reports 4 bytes. |
| ChannelCmds.ReadByteOp | m64/src/channel.rs:200-254 | Every opcode with a one-byte operand decodes by its arm, with size 2 (1 for 0xe3). |
| ChannelCmds.ReadU16Op | m64/src/channel.rs:195-253 | Every opcode with a u16 operand decodes by its arm with the big-endian operand, with size 3 (4 for 0xde). |
| ChannelCmds.ReadWideOp | m64/src/channel.rs:215-247 | 0xe2, 0xe1 and 0xc7 read three operand bytes and report 4. |
| ChannelCmds.ReadBareOp | m64/src/channel.rs:187-251 | Every opcode without an operand decodes by its arm with size 1. |
| ChannelCmds.OpClassesDisjoint | m64/src/channel.rs:186-254 | The operand classes of the opcodes from 0xc0 up do not overlap, so each opcode has one arm. |
| ChannelCmds.IsEndExactlyEnd | m64/src/channel.rs:277-283 | `is_end` holds exactly for `End`. |
| LayerCmds.Read | m64/src/layer.rs:111-229 | The decoder as written. Empty input panics. A listed opcode decodes exactly when its operand bytes are there. The size is 1 to 5 bytes within the input. In large-notes mode no small note is produced. |
| LayerCmds.ReadListed | m64/src/layer.rs:114-160 | The listed arms decode exactly when their bytes are there, and otherwise panic out of bounds. They never produce a note. |
| LayerCmds.ReadLargeNote | m64/src/layer.rs:163-198 | A large-note arm produces only large notes with a pitch below 64, of 3 to 5 bytes. |
| LayerCmds.ReadSmallNote | m64/src/layer.rs:199-225 | The small-note arms dispatched on the opcode, as intended: only small notes, pitch below 64, 1 to 3 bytes, never an overflow. |
| LayerCmds.ReadIntended | m64/src/layer.rs:111-229 | The corrected decoder. Each mode produces only its own note forms, every note pitch is below 64, and it never overflows. |
| LayerCmds.ListedModeIndependent | m64/src/layer.rs:114-160 | A listed opcode decodes the same way in both modes, as written and as corrected. |
| LayerCmds.IntendedHighOpcodesModeIndependent | m64/src/layer.rs:162-227 | With the corrected note arms, every opcode from 0xc0 up decodes the same in both modes. An unlisted one is always unknown. |
| LayerCmds.AsWrittenHighOpcodeDependsOnMode | m64/src/layer.rs:162-225 | As written, 0xcb is unknown in large-notes mode but decodes as `SmallNote1(0x8b)` in small-notes mode. |
| LayerCmds.TableIndexArms | m64/src/layer.rs:122-123 | 0xd0-0xdf and 0xe0-0xef carry the low nibble as table index and report 1 byte. |
| LayerCmds.PortamentoAlwaysFourBytes | m64/src/layer.rs:129-141 | Both branches of the portamento time test read one byte. The instruction is always 4 bytes and panics when shorter. |
| LayerCmds.VarOperandSizes | m64/src/layer.rs:148-160 | `Delay` and the default play percentage report 1 plus the size of their variable-length operand. |
| LayerCmds.LargeNoteForms | m64/src/layer.rs:163-198 | The opcode range picks `Note0`/`Note1`/`Note2`, with their operands, sizes and pitch (the opcode minus the range base). |
| LayerCmds.SmallNotesAsWritten | m64/src/layer.rs:199-225 | As written, the arm is picked by `data[1]`. The pitch subtraction overflows when the opcode is below the range base, and `data[1] >= 0xc0` is unknown. |
| LayerCmds.SmallNoteDispatchDiffers | m64/src/layer.rs:199-225 | Concrete inputs on which the decoder as written and the corrected one differ (see Findings). |
| LayerCmds.RoundTrip | m64/src/layer.rs:111-229 | The corrected decoder inverts the encoding of every instruction in its mode, with its encoded length, whatever follows. |
| LayerCmds.LargeNotesAgree | m64/src/layer.rs:162-198 | In large-notes mode the decoder as written and the corrected one agree on every input. |
| LayerCmds.IsEndExactlyEnd | m64/src/layer.rs:231-233 | `is_end` holds exactly for `End`. |
| Engines.TempoThreshold | m64/src/state.rs:6-13 | `UPDATES_PER_FRAME` is 4, and 14360 is the integer part of `4 * 2880000 / 48 / 16.713` (16.713 as 16713/1000). It fits a `u16`. |
| Engines.Bits | m64/src/state.rs:15-21 | The bits of a mute behaviour use only the three flag bits 0x80, 0x40 and 0x20. |
| Engines.MuteBitsRoundTrip | m64/src/state.rs:15-21 | `from_bits_truncate` keeps exactly the known bits, every flag set survives a trip through its bits, and `all()` is 0xe0. |
| Scripts.NewScript | m64/src/state.rs:36-45 | A new script state starts at `pc`, at depth 0, with a zero stack and zero loop counters. |
| Scripts.Advance | m64/src/state.rs:125 | `pc += size` succeeds exactly when the sum fits 16 bits, and otherwise panics with an overflow. |
| Scripts.Call | m64/src/state.rs:148-152 | Push the return address and jump. It panics out of bounds exactly at depth 4, and otherwise leaves the loop counters alone. |
| Scripts.LoopStart | m64/src/state.rs:154-158 | Store the count and push the loop start. It panics exactly at depth 4. |
| Scripts.LoopEnd | m64/src/state.rs:159-166 | It panics (the `depth - 1` underflow) exactly at depth 0. |
| Scripts.Return | m64/src/state.rs:130-137 | `End` below the top level pops one level and resumes at the saved address, with the stack and counters unchanged. |
| Scripts.CallThenReturn | m64/src/state.rs:130-152 | A call below depth 4 followed by `End` resumes right after the call, at the caller's depth. |
| Scripts.LoopRunsBody | m64/src/state.rs:154-166 | `Loop(count)` runs its body `count` times (256 for 0, by the wrapping decrement), then pops. Before that it keeps returning to the loop start with the counter counting down. |
| Layers.NewLayer | m64/src/state.rs:487-511 | A new layer is enabled, at `addr`, with note duration 0x80, zero delay, duration and transposition, and no pitch or percentage. |
| Layers.NoteDuration | m64/src/state.rs:567 | `note_duration * percentage / 256`. In the m64 copy it is `i16` arithmetic that panics exactly when the product reaches 0x8000; in the m64play copy (m64play/src/state/layer.rs:133) it is a `u32` that never fails. |
| Layers.Exec | m64/src/state.rs:542-598 | One instruction on a layer's fields. Its effect per instruction is stated by `Note0Timing`, `Note1Timing`, `Note2NeedsPercentage`, `DelayAndEnd`, `CallAndTransposeByEngine` and `ExecYields`. |
| Layers.Run | m64/src/state.rs:535-599 | The script loop up to the first yield. `RunStep` states one turn, and `RunEndsInYield` how a finished run leaves the layer. |
| Layers.ProcessLayer | m64/src/state.rs:514-600 | `process`: a disabled layer stays as it is, a running delay counts down, otherwise the script runs. Stated by `DisabledIsNoOp`, `DelayCountsDown` and `RunEndsInYield`, and the object's `Process` method is proved equal to it. |
| Layers.Fetch | m64/src/state.rs:537-538 | The instruction is decoded by `LayerCmd::read` as written, in the channel's note mode. A `pc` past the script panics out of bounds; a fetched instruction moves `pc` strictly forward, within the script. |
| Layers.Countdown | m64/src/state.rs:519-528 | While the delay is above 1 it counts down by one. When it reaches the duration the note is released (stop flag set, pitch cleared). Nothing else changes. |
| Layers.DisabledIsNoOp | m64/src/state.rs:515-517 | `process` leaves a disabled layer exactly as it is. |
| Layers.DelayCountsDown | m64/src/state.rs:519-528 | For `k` calls below the delay, the layer only counts down. The note is released exactly when the delay first reaches its duration. |
| Layers.Note0Timing | m64/src/state.rs:560-572 | `Note0` panics (m64 copy) exactly on an `i16` overflow. Otherwise it yields with the percentage as delay, a duration within the delay, the pitch and the squared velocity. |
| Layers.DurationWithinDelay | m64/src/state.rs:567 | The sounding part of a note is never longer than its delay. |
| Layers.Note0Example | m64/src/state.rs:560-572 | Duration 0x80 at percentage 128 gives a 128-tick delay and a 64-tick sounding part, in both copies. |
| Layers.Note0OverflowExample | m64/src/state.rs:567 | 255 * 200 overflows the `i16` of the m64 copy but not the `u32` of the m64play copy. |
| Layers.Note2NeedsPercentage | m64/src/state.rs:583-593 | `Note2` panics on `unwrap` when no note has stored a percentage. Otherwise it reuses the stored one. |
| Layers.Note1Timing | m64/src/state.rs:573-582 | `Note1` sets note duration and duration to 0, delays by its percentage and keeps the stop flag. |
| Layers.DelayAndEnd | m64/src/state.rs:543-558 | `Delay` sets the delay and stop flag and yields. `End` at depth 0 disables the layer; below that it returns and continues. |
| Layers.CallAndTransposeByEngine | m64play/src/state/layer.rs:111-119 | Only the m64play copy has `Call` and `Transpose` (the m64 copy reaches `unimplemented!`). Its `Call` panics at depth 4. |
| Layers.RunEndsInYield | m64/src/state.rs:535-599 | A script run that finishes has disabled the layer, set the stop flag or started a note, and its pitch is below 64. |
| Layers.ExecYields | m64/src/state.rs:542-598 | An instruction that yields disables the layer, delays or starts a note. The pitch afterwards is the old one or the note's. |
| Layers.RunStep | m64/src/state.rs:535-599 | One turn of the loop: fetch, advance `pc`, execute; a yield ends the run, a fault ends it with that fault. |
| Layers.FetchedPitch | m64/src/layer.rs:163-198 | Every large note fetched for a layer has a pitch below 64. |
| Layers.SmallNoteFetchOverflows | m64/src/layer.rs:199-216 | In small-notes mode a layer fetches with the decoder as written: an opcode below 0x40 whose operand byte is in 0x40-0x7f panics on the `u8` subtraction. |
| Layers.SequenceLayer.constructor | m64/src/state.rs:487-511 | The new object's state is `NewLayer(addr)`. |
| Layers.SequenceLayer.Process | m64/src/state.rs:514-600 | The fields after `process` are what `ProcessLayer` computes from the old fields, or the fault it raises. |
| Layers.SequenceLayer.RunScript | m64/src/state.rs:535-599 | The script loop updates the fields as `Run` says. |
| Layers.SequenceLayer.Turn | m64/src/state.rs:536-598 | One iteration of the loop, tied to `Run` with one less unit of fuel. |
| Layers.SequenceLayer.ExecCmd | m64/src/state.rs:542-598 | One arm of the match updates the fields as `Exec` says. |
| Layers.SequenceLayer.ExecControl | m64/src/state.rs:543-558 | The `End`, `Delay` (and m64play `Call`, `Transpose`) arms, as `Exec` says. |
| Layers.SequenceLayer.ExecNote | m64/src/state.rs:560-593 | The `Note0` and `Note2` arms, as `Exec` says. |
| Layers.SequenceLayer.ExecNote1 | m64/src/state.rs:573-582 | The `Note1` arm, as `Exec` says. |
| Layers.SequenceLayer.SoundNote | m64/src/state.rs:560-593 | The shared note update of `Note0`/`Note2`, as `Sound` says. |
| Channels.NewChannel | m64/src/state.rs:318-351 | A new channel is disabled, at address 0, with volume 127/127, pan 64/128, the default note priority and no layers. |
| Channels.Fetch | m64/src/state.rs:377-378 | A `pc` past the script panics; a fetched instruction moves `pc` strictly forward. |
| Channels.Exec | m64/src/state.rs:382-433 | One instruction on a channel's fields. Its effect is stated by `EndOfScript`, `Delay1IsDelayOne`, `SetLayerSlot` and `TransposeByEngine`. |
| Channels.Run | m64/src/state.rs:375-434 | The script loop up to the first yield, one turn of which `RunStep` states. |
| Channels.Script | m64/src/state.rs:370-435 | A running delay counts down, otherwise the script runs; `DelayWaits` states the countdown. |
| Channels.LayersFrom | m64/src/state.rs:437-449 | The layers in slots `j` to 3 play in order. `LayersFromKeepsSlots` and `IdleLayers` state what that keeps. |
| Channels.ProcessChannel | m64/src/state.rs:354-440 | `process`: a disabled channel stays as it is, a channel whose script is stopped only plays its layers, a muted stop-script player freezes it, and otherwise the script and then the layers play. Stated by `DisabledIsNoOp`, `MuteAndStopScript` and `EnabledChannelStartsAtOnce`, and the object's `Process` method is proved equal to it. |
| Channels.Enabled | m64/src/state.rs:252-263 | `start_channel` enables the channel at `addr` at depth 0, clears `finished`, the delay and the layers, and keeps the stack, loop counters and every other field. |
| Channels.DisabledIsNoOp | m64/src/state.rs:355-357 | `process` leaves a disabled channel exactly as it is. |
| Channels.MuteAndStopScript | m64/src/state.rs:359-368 | A muted player with the stop-script behaviour freezes a running channel. A channel whose script is stopped only plays its layers, whether the player is muted or not, and keeps every other field. |
| Channels.DelayWaits | m64/src/state.rs:370-374 | After a delay of `d`, the next `d - 1` calls only count down and the `d`-th runs the script. |
| Channels.Delay1IsDelayOne | m64/src/state.rs:393-399 | `Delay1` yields with the delay left at 0, which behaves exactly like a delay of 1. |
| Channels.EndOfScript | m64/src/state.rs:383-391 | `End` at depth 0 disables and finishes the channel; below that it returns. |
| Channels.SetLayerSlot | m64/src/state.rs:406-415 | `SetLayer(j, addr)` panics exactly when `j >= 4`. Otherwise it puts `NewLayer(addr)` in slot `j` and changes nothing else. |
| Channels.TransposeByEngine | m64play/src/state/channel.rs:130-132 | Only the m64play copy handles `Transpose`; the m64 copy reaches `unimplemented!`. |
| Channels.LayersFromKeepsSlots | m64/src/state.rs:437-449 | Playing the layers never fills or empties a slot, and leaves earlier slots alone. |
| Channels.IdleLayers | m64/src/state.rs:437-449 | Absent or disabled layers play as a no-op. |
| Channels.EnabledChannelStartsAtOnce | m64/src/state.rs:252-263 | A channel just enabled runs its script on the next call and has no layers to play. |
| Channels.RunStep | m64/src/state.rs:375-434 | One turn of the loop: fetch, advance `pc`, execute; a yield ends the run. |
| Channels.SequenceChannel.constructor | m64/src/state.rs:318-351 | The new object holds `NewChannel()` and four empty slots. |
| Channels.SequenceChannel.Process | m64/src/state.rs:354-440 | The fields and layer objects after `process` are what `ProcessChannel` computes, or the fault it raises. |
| Channels.SequenceChannel.ScriptTick | m64/src/state.rs:370-435 | The countdown and the script loop, as `Script` says. |
| Channels.SequenceChannel.ProcessLayers | m64/src/state.rs:437-439 | The closing loop updates the layer objects in place, as `LayersTick` says. |
| Channels.SequenceChannel.ProcessSlot | m64/src/state.rs:442-449 | `process_layer(j)` plays the layer object in slot `j`, if any, as `LayersFrom` says. |
| Channels.SequenceChannel.RunScript | m64/src/state.rs:375-434 | The script loop, as `Run` says. |
| Channels.SequenceChannel.Turn | m64/src/state.rs:376-433 | One iteration, tied to `Run` with one less unit of fuel. |
| Channels.SequenceChannel.ExecCmd | m64/src/state.rs:382-433 | One arm of the match, as `Exec` says. |
| Channels.SequenceChannel.ExecControl | m64/src/state.rs:383-399 | The `End`, `Delay1` and `Delay` arms. |
| Channels.SequenceChannel.ExecSetLayer | m64/src/state.rs:406-415 | The `SetLayer` arm, allocating a fresh layer object. |
| Channels.SequenceChannel.ExecSound | m64/src/state.rs:403-418 | The `LargeNotesOn`, `SetVol` (and m64play `Transpose`) arms. |
| Channels.SequenceChannel.ExecMix | m64/src/state.rs:419-430 | The `SetNotePriority`, `SetPan`, `SetReverb` and `SetInstr` arms. |
| Channels.SequenceChannel.SetLayer | m64/src/state.rs:406-415 | Slot `j` holds a new layer at `addr`; nothing else changes. |
| Channels.SequenceChannel.Enable | m64/src/state.rs:252-263 | The new state is `Enabled(old state, addr)`, with the layer slots emptied in place. |
| Players.NewPlayer | m64/src/state.rs:80-102 | A new player has tempo 120 * 48, every mute behaviour, volume 0, the script at 0 and no channels. |
| Players.Fetch | m64/src/state.rs:124-125 | A `pc` past the script panics; a fetched instruction moves `pc` strictly forward, within the script. |
| Players.InitSlots | m64/src/state.rs:242-250 | `init_channels(mask)` on the slots, stated by `InitDisableMask`, `EmptyMask` and `FullMask`. |
| Players.DisableSlots | m64/src/state.rs:265-273 | `disable_channels(mask)` on the slots, stated by `InitDisableMask`, `EmptyMask` and `FullMask`. |
| Players.StartSlot | m64/src/state.rs:252-263 | `start_channel(i, addr)` on the slots, stated by `StartSlotOnly`. |
| Players.Exec | m64/src/state.rs:129-227 | One instruction on the player's fields. Its effect is stated by `EndOfScript`, `BranchesPanic`, `TransposeRelRange`, `ShortDelays` and `ExecKeepsTempo`. |
| Players.Run | m64/src/state.rs:122-228 | The script loop up to the first yield; `RunStep` states one turn and `RunKeepsTempo` the invariant it keeps. |
| Players.Script | m64/src/state.rs:117-229 | A running delay counts down, otherwise the script runs; `DelayWaits` states the countdown. |
| Players.ChannelsFrom | m64/src/state.rs:231-238 | The channels in slots `i` to 15 play in order. `ChannelsFromKeepsSlots` and `IdleChannels` state what that keeps. |
| Players.Tatum | m64/src/state.rs:117-238 | Once a tatum has passed, the script and then the channels play; `ChannelsTickKeepsPlayer` states what the channels leave alone. |
| Players.ProcessPlayer | m64/src/state.rs:105-239 | `process`: the tempo gate, then `Tatum`. Stated by `FinishedByEngine`, `MutedIsNoOp`, `WaitsForTatum` and `ProcessKeepsTempo`, and the object's `Process` method is proved equal to it. |
| Players.FinishedByEngine | m64play/src/state/player.rs:68-71 | The m64play copy leaves a finished player alone. The m64 copy (m64/src/state.rs:105-133) has no such check: it still adds the tempo, panics on the same overflow, and once a tatum has passed runs the script and the channels again, exactly as `Tatum` says. |
| Players.MutedIsNoOp | m64/src/state.rs:106-108 | A muted player with the stop-script behaviour does nothing at all. |
| Players.NewPlayerTempo | m64/src/state.rs:88 | A new player's tempo is 5760 and within the tempo invariant. |
| Players.ExecKeepsTempo | m64/src/state.rs:220-222 | No instruction touches the accumulator, and `SetTempo(bpm)` stores `bpm * 48`, so the tempo invariant is preserved. |
| Players.RunKeepsTempo | m64/src/state.rs:122-228 | A whole script run preserves the tempo invariant. |
| Players.ChannelsTickKeepsPlayer | m64/src/state.rs:231-238 | Playing the channels changes nothing in the player but the channel slots. |
| Players.ProcessKeepsTempo | m64/src/state.rs:110-115 | Under the invariant `tempo_acc += tempo` never overflows, one subtraction brings it below the threshold, and `process` preserves the invariant. |
| Players.WaitsForTatum | m64/src/state.rs:110-114 | Until a tatum accumulates, a call only adds the tempo. |
| Players.DelayWaits | m64/src/state.rs:117-119 | After a delay of `d`, the next `d - 1` tatums only count down and the `d`-th runs the script. |
| Players.ShortDelays | m64/src/state.rs:117-146 | `Delay(0)`, `Delay(1)` and `Delay1` all run the script on the next tatum. |
| Players.EndOfScript | m64/src/state.rs:130-137 | `End` at depth 0 finishes the sequence; below that it returns. |
| Players.BranchesPanic | m64/src/state.rs:171-185 | The conditional branches unwrap a value that is always `None`, so they always panic. |
| Players.TransposeRelRange | m64/src/state.rs:197-199 | `TransposeRel` panics exactly when the `i16` sum overflows, and otherwise adds. |
| Players.InitDisableMask | m64/src/state.rs:241-273 | Each mask bit decides its slot alone. Disabling after init equals disabling, and init after disabling equals init. |
| Players.EmptyMask | m64/src/state.rs:241-273 | A zero mask changes no slot. |
| Players.FullMask | m64/src/state.rs:241-273 | The mask 0xffff fills all sixteen slots with new channels, or empties them all. |
| Players.StartSlotOnly | m64/src/state.rs:252-263 | `start_channel(i, addr)` enables slot `i` if it is filled, leaves an empty slot empty, and touches no other slot. |
| Players.ChannelsFromKeepsSlots | m64/src/state.rs:231-238 | Playing the channels never fills or empties a slot, and leaves earlier slots alone. |
| Players.IdleChannels | m64/src/state.rs:231-238 | Absent or disabled channels play as a no-op. |
| Players.RunStep | m64/src/state.rs:122-228 | One turn of the loop: fetch, advance `pc`, execute; a yield ends the run. |
| Players.SequencePlayer.constructor | m64/src/state.rs:80-102 | The new object's state is `NewPlayer()`. |
| Players.SequencePlayer.Process | m64/src/state.rs:105-239 | The fields after `process` are what `ProcessPlayer` computes, or the fault it raises. |
| Players.SequencePlayer.PlayTatum | m64/src/state.rs:117-238 | Script then channels, as `Tatum` says. |
| Players.SequencePlayer.ScriptTick | m64/src/state.rs:117-229 | The countdown and script loop, as `Script` says. |
| Players.SequencePlayer.RunScript | m64/src/state.rs:122-228 | The script loop, as `Run` says. |
| Players.SequencePlayer.Turn | m64/src/state.rs:123-227 | One iteration, tied to `Run` with one less unit of fuel. |
| Players.SequencePlayer.ExecCmd | m64/src/state.rs:129-227 | One arm of the match, as `Exec` says. |
| Players.SequencePlayer.ExecFlow | m64/src/state.rs:130-192 | `End`, the delays, `Jump`, the branches and the note reservations. |
| Players.SequencePlayer.ExecStack | m64/src/state.rs:148-166 | `Call`, `Loop` and `LoopEnd`. |
| Players.SequencePlayer.ExecSettings | m64/src/state.rs:194-222 | `Transpose`, `TransposeRel`, `SetMuteBhv`, `SetVol` and `SetTempo`. |
| Players.SequencePlayer.InitChannels | m64/src/state.rs:242-250 | The shifting-mask loop puts a new channel in slot `k` for each set bit `k`; nothing else changes. |
| Players.SequencePlayer.DisableChannels | m64/src/state.rs:265-273 | The shifting-mask loop empties slot `k` for each set bit `k`; nothing else changes. |
| Players.SequencePlayer.StartChannel | m64/src/state.rs:252-263 | Only slot `i` changes, as `StartSlot` says. |
| Players.SequencePlayer.ProcessChannels | m64/src/state.rs:231-238 | The closing loop plays the slots in order with the player's mute flags, as `ChannelsTick` says. |
| Players.SequencePlayer.ProcessSlot | m64/src/state.rs:232-237 | One slot plays and the rest of the player is unchanged. |
| AiffTypes.IdTryFrom | aiff/src/types.rs:18-38 | Four bytes are an ID exactly when they are printable ASCII with no visible character after a space; otherwise `InvalidFormat`. |
| AiffTypes.ValidIdIsPadded | aiff/src/types.rs:21-35 | A valid ID is exactly a run of visible characters followed by spaces. |
| AiffTypes.ChunkAt | aiff/src/types.rs:59-77 | A chunk that reads consumes at least its 8-byte header. |
| AiffTypes.ChunkRoundTrip | aiff/src/types.rs:59-77 | A chunk written with its header and pad byte reads back its ID and data, leaving exactly what followed. |
| AiffTypes.ChunkFraming | aiff/src/types.rs:59-77 | A chunk that reads is an ID, a big-endian size, that many bytes, a pad byte after an odd size, and the rest. It takes an even number of bytes. |
| AiffTypes.PStringAt | aiff/src/types.rs:120-137 | A Pascal string that reads consumes at least its length byte. |
| AiffTypes.PStringRoundTrip | aiff/src/types.rs:120-137 | A Pascal string written with its pad byte reads back its text and what followed. |
| AiffTypes.PStringFraming | aiff/src/types.rs:120-137 | A Pascal string that reads is a length byte, the text and a pad byte for even text: an even number of bytes in all. |
| AiffTypes.Cursor.ReadChunk | aiff/src/types.rs:59-77 | The cursor moves past the chunk as `ChunkAt` says, and does not move on an error. |
| AiffTypes.Cursor.ReadPString | aiff/src/types.rs:120-137 | The cursor moves as `PStringAt` says. On a short text it is already past the length byte. |
| AiffTypes.ExtendedAt | aiff/src/types.rs:79-109 | The field checks never give an `Err`; an accepted normal number has its integer bit set and an exponent in the `f64` range. |
| AiffTypes.F64FieldsOfBits | aiff/src/types.rs:114-116 | The bit pattern built from sign, biased exponent and fraction has exactly those fields. |
| AiffTypes.ReadF80AsWritten | aiff/src/types.rs:111-116 | `read_f80` as the source writes it, which the COMM parser uses. `ReadF80AsWrittenMeaning`, `ReadF80Versions` and `ReadF80Of44100` state what it gives. |
| AiffTypes.ReadF80 | aiff/src/types.rs:111-116 | `read_f80` with the integer bit dropped (the corrected half of a Finding). `ReadF80Meaning` states what it gives. |
| AiffTypes.ReadF80Supported | aiff/src/types.rs:87-109 | Zeros and normal numbers in the `f64` exponent range are read; every other value panics as unsupported. This holds for both versions. |
| AiffTypes.ReadF80Meaning | aiff/src/types.rs:111-116 | The corrected result has the same sign and exponent, and its 53-bit significand is the extended mantissa rounded toward zero. |
| AiffTypes.ReadF80AsWrittenMeaning | aiff/src/types.rs:111-116 | As written, the result has the same sign and exponent, and its 52-bit fraction is the top 52 bits of the 64-bit mantissa, explicit integer bit included. A zero reads as a zero of the same sign. |
| AiffTypes.ReadF80Versions | aiff/src/types.rs:111-116 | The two versions accept the same values and agree on sign, exponent and every zero. For a normal number the fraction as written is the corrected fraction shifted right by one, with the top bit set. |
| AiffTypes.ReadF80AsWrittenTopBitSet | aiff/src/types.rs:111-116 | As written, the top fraction bit is always set (see Findings). |
| AiffTypes.ReadF80Of44100 | aiff/src/types.rs:111-116 | The rate 44100 reads as written as the bits of 54818.0, and corrected as the bits of 44100.0. |
| AiffChunks.CommonChunkAt | aiff/src/chunks/comm.rs:15-31 | `CommonChunk::read`: channels, frames, sample size and the rate read by `read_f80` as written. Stated by `CommonChunkRoundTrip` and `CommonChunkOutcomes`. |
| AiffChunks.CommonChunkRoundTrip | aiff/src/chunks/comm.rs:15-31 | The fields of a COMM chunk read back; the rate is what `read_f80` as written (`ReadF80AsWritten`) makes of its ten bytes, or its panic. |
| AiffChunks.CommonChunkOutcomes | aiff/src/chunks/comm.rs:15-31 | A COMM chunk is refused exactly when its size is not 18, and panics only on an unsupported rate. |
| AiffChunks.PlayModeFrom | aiff/src/chunks/inst.rs:15-22 | `PlayMode::try_from`, stated by `PlayModeCodes`. |
| AiffChunks.PlayModeCodes | aiff/src/chunks/inst.rs:15-22 | Codes 0, 1 and 2 each name one play mode and round-trip. Any other code is refused with the code itself. |
| AiffChunks.LoopAt | aiff/src/chunks/inst.rs:35-45 | `Loop::read`, stated by `LoopRoundTrip` and `LoopOutcomes`. |
| AiffChunks.LoopRoundTrip | aiff/src/chunks/inst.rs:35-45 | A loop record reads back from its six bytes. |
| AiffChunks.LoopOutcomes | aiff/src/chunks/inst.rs:35-45 | A loop record never panics. It is refused exactly when it is short or has a play mode code above 2. |
| AiffChunks.InstrumentChunkAt | aiff/src/chunks/inst.rs:64-80 | `InstrumentChunk::read`, stated by `InstrumentChunkRoundTrip` and `InstrumentChunkOutcomes`. |
| AiffChunks.InstrumentChunkRoundTrip | aiff/src/chunks/inst.rs:64-80 | An INST chunk reads back from its twenty bytes, whatever follows. |
| AiffChunks.InstrumentChunkOutcomes | aiff/src/chunks/inst.rs:64-80 | It never panics. It is refused when short, then for the sustain loop's play mode, then for the release loop's. |
| AiffChunks.MarkerAt | aiff/src/chunks/mark.rs:13-24 | A marker that reads consumes bytes. |
| AiffChunks.ReadMarker | aiff/src/chunks/mark.rs:13-24 | The cursor ends past the marker, as `MarkerAt` says. |
| AiffChunks.MarkerRoundTrip | aiff/src/chunks/mark.rs:13-24 | A marker reads back from its bytes, leaving what followed. |
| AiffChunks.MarkersAt | aiff/src/chunks/mark.rs:42-44 | `count` markers read one after another, stated by `MarkersRoundTrip` and `MarkersCount`. |
| AiffChunks.MarkerChunkAt | aiff/src/chunks/mark.rs:33-47 | `MarkerChunk::read`: a count, then that many markers. `ReadMarkerChunk` is proved equal to it, and `MarkerChunkRoundTrip` and `MarkersCount` state it. |
| AiffChunks.ReadMarkerChunk | aiff/src/chunks/mark.rs:33-47 | The loop reading markers one by one from a cursor computes `MarkerChunkAt`. |
| AiffChunks.MarkersRoundTrip | aiff/src/chunks/mark.rs:42-44 | A sequence of markers reads back from their bytes. |
| AiffChunks.MarkerChunkRoundTrip | aiff/src/chunks/mark.rs:33-47 | A MARK chunk written with its count reads back; bytes after the last marker are ignored. |
| AiffChunks.MarkersCount | aiff/src/chunks/mark.rs:33-47 | A MARK chunk that reads holds exactly as many markers as its count says. |
| AiffChunks.SoundDataChunkAt | aiff/src/chunks/ssnd.rs:10-26 | `SoundDataChunk::read`, stated by `SoundDataChunkOutcomes`. |
| AiffChunks.SoundDataChunkOutcomes | aiff/src/chunks/ssnd.rs:10-26 | SSND is refused exactly when shorter than 8 bytes and reads exactly when its offset and block size are zero. The samples are everything after them. |
| AiffFile.GatherFrom | aiff/src/lib.rs:46-58 | The chunk loop only ever fails with `InvalidFormat`. |
| AiffFile.AiffAt | aiff/src/lib.rs:29-64 | `Aiff::read` on a byte buffer. Stated by `ReadKeepsLastChunks`, `TrailingBytesIgnored` and `OtherFormType`, and the cursor method `Read` is proved equal to it. |
| AiffFile.Read | aiff/src/lib.rs:29-64 | The cursor-driven `Aiff::read` computes `AiffAt`. |
| AiffFile.FormIsValid | aiff/src/lib.rs:32-38 | "FORM", "AIFF" and "COMM" are valid IDs. |
| AiffFile.TrailingBytesIgnored | aiff/src/lib.rs:29-36 | Bytes after the FORM chunk do not change the result. |
| AiffFile.OtherFormType | aiff/src/lib.rs:37-40 | A form of another valid type is refused with that type. |
| AiffFile.LastBodyIsLast | aiff/src/lib.rs:49-56 | The reference definition finds the last chunk with an ID, and misses only when there is none. |
| AiffFile.GatherFromFrames | aiff/src/lib.rs:46-58 | On well-framed data, the chunk loop is the fold over the framed chunks. |
| AiffFile.GatheredIsFramed | aiff/src/lib.rs:46-58 | A chunk loop that finishes has framed every chunk. |
| AiffFile.LastChunkWins | aiff/src/lib.rs:49-56 | After the loop, COMM holds the parse of the last COMM chunk, and every other ID maps to the data of its last chunk. |
| AiffFile.ReadKeepsLastChunks | aiff/src/lib.rs:29-64 | `Aiff::read` succeeds exactly when some chunk is COMM. Its common chunk is the last COMM parsed, and `other_chunks` holds exactly the other IDs with their last data. |
| AiffFile.Samples.Next | aiff/src/lib.rs:83-90 | No sample is ever produced, whether data is left or not. |

## Left out

- Printing: the `println!` of each decoded instruction is left out.
- Floating point. Channel and player volume (`vol / 127.0`) and pan (`pan / 128.0`) keep their byte operand. A layer's `velocity_square` is the exact integer square, which an `f32` holds exactly for a byte. The `f32` fields no instruction changes are left out: `volume_scale`, `freq_scale`, `pan_channel_weight`, the fade and mute volumes.
- The channel fields no instruction of either copy sets (vibrato, `has_instrument`, `stereo_headset_effects`, `sound_script_io`) and the player's `state`, `note_alloc_policy` and `fade_timer` are left out.
- `ReserveNotes` and `UnReserveNotes` are no-ops in both copies, and the model keeps them so. `SetInstr` is a no-op arm as well.
- Scripts that never yield: each run is bounded by `fuel` instructions, and the fault `OutOfFuel` is the model's, not the source's. The source would loop for ever there.
- Players.SequencePlayer: the sixteen channel slots are a sequence of channel values, not boxed channel objects updated in place. Aliasing between the player and its channels is therefore not captured. The channel and layer tiers are objects, and their `process` methods update their fields in place.
- AiffTypes.ReadF80AsWritten (and the corrected `AiffTypes.ReadF80`): `f64::from_bits` is left out; the result is the `f64` bit pattern. `audio_length` (a `Duration` from a float division) is left out for the same reason.
- AiffChunks.MarkerAt: a marker's name is kept as its raw bytes. `String::from_utf8_lossy` (replacement of invalid UTF-8) is left out.
- The `Debug`/`Display` impls and the `data()` accessor of `ID`, and `SoundDataChunk::raw_data`, which only returns a field, are not modelled as members.
- `Aiff::read` never calls the INST, MARK and SSND parsers: those chunks land in `other_chunks` as raw bytes. The parsers are modelled and proved on their own.
- AiffFile.Samples.Next: the `Samples` iterator is never constructed, because `Aiff::samples` is commented out in the source.
- aiff/src/lib.rs:39 returns `AiffError::InvalidFormType` without the `ID` that aiff/src/error.rs:9 declares for it. The model carries the form type as that payload.
- AiffTypes.IdTryFrom: the `assert_eq!(value.len(), 4)` is a precondition (`|value| == 4`), because every caller passes a four-byte slice.

## Findings

| source | as written | input that shows it | evidently intended | confidence | as-written member | corrected member |
|---|---|---|---|---|---|---|
| m64/src/layer.rs:199-225 | In small-notes mode the note arm is chosen by `data[1]` (the operand), while the pitch is computed from `data[0]` | `[0x45, 0x10, 0x00]` decodes as `SmallNote0(0x45, 0x10)` instead of `SmallNote1(0x05)`. `[0x10, 0x50, 0x00]` overflows in `0x10 - 0x40` | Choose the arm by the opcode range, as the large-notes arms do | not executed | LayerCmds.SmallNoteDispatchDiffers | LayerCmds.ReadIntended |
| aiff/src/types.rs:111-116 | The 64-bit mantissa is shifted right by 12, so the explicit integer bit of the extended float becomes the top `f64` fraction bit | The sample rate 44100 (`40 0e ac 44 00 00 00 00 00 00`) reads as 54818.0 | Drop the integer bit and shift by 11 | not executed | AiffTypes.ReadF80Of44100 | AiffTypes.ReadF80Meaning |

Both corrected definitions are proved on their own. The parsers and the
interpreter use the code as written, so they behave like the program. The
layer interpreter decodes with `LayerCmds.Read`, and the COMM parser reads
its rate with `AiffTypes.ReadF80AsWritten`. A COMM chunk at 44100 Hz
therefore carries the bits of 54818.0 in `Aiff::read`'s result.
