/** The player tier of the interpreter: `SequencePlayer` (m64/src/state.rs:47-274,
    m64play/src/state/player.rs). The player owns sixteen channel slots; on
    every call it advances its tempo accumulator and, once a tatum has passed,
    runs its own script and then lets every channel play. */
module Players {
  import opened Bytes
  import opened Outcomes
  import opened Scripts
  import opened Engines
  import SequenceCmds
  import Channels

  /** The sixteen channel slots (`[Option<Box<SequenceChannel>>; CHANNELS_MAX]`). */
  type ChannelSlots = s: seq<Option<Channels.ChannelState>> | |s| == CHANNELS_MAX
    witness [None, None, None, None, None, None, None, None, None, None, None, None, None, None, None, None]

  const NO_CHANNELS: ChannelSlots := [None, None, None, None, None, None, None, None, None, None, None, None, None, None, None, None]

  datatype PlayerState = PlayerState(
    finished: bool,
    muted: bool,
    muteBehavior: MuteBehavior,
    tempo: U16,
    tempoAcc: U16,
    transposition: I16,
    delay: U16,
    /** `volume` is `vol / 127`; the model keeps the operand `vol`. */
    volume: Byte,
    script: ScriptState,
    channels: ChannelSlots)

  /** `SequencePlayer::new()`: 120 beats per minute, every mute behaviour,
      volume 0.0, the script at address 0 and no channels. */
  function NewPlayer(): (p: PlayerState)
    ensures !p.finished && !p.muted && p.muteBehavior == ALL_MUTE
    ensures p.tempo == 120 * TEMPO_SCALE && p.tempoAcc == 0 && p.delay == 0 && p.transposition == 0
    ensures p.volume == 0 && p.script == NewScript(0) && p.channels == NO_CHANNELS
  {
    PlayerState(false, false, ALL_MUTE, 120 * TEMPO_SCALE, 0, 0, 0, 0, NewScript(0), NO_CHANNELS)
  }

  // ---------------------------------------------------------------------
  // The channel slots

  /** `init_channels(mask)`: bit `k` of the mask puts a new channel in slot `k`. */
  function InitSlots(slots: ChannelSlots, mask: U16): ChannelSlots
  {
    seq(CHANNELS_MAX, k requires 0 <= k < CHANNELS_MAX => if Bit(mask, k) then Some(Channels.NewChannel()) else slots[k])
  }

  /** `disable_channels(mask)`: bit `k` of the mask empties slot `k`. */
  function DisableSlots(slots: ChannelSlots, mask: U16): ChannelSlots
  {
    seq(CHANNELS_MAX, k requires 0 <= k < CHANNELS_MAX => if Bit(mask, k) then None else slots[k])
  }

  /** `start_channel(i, addr)`: the channel in slot `i`, if any, is enabled at `addr`. */
  function StartSlot(slots: ChannelSlots, i: Nibble, addr: U16): ChannelSlots
  {
    match slots[i]
    case None => slots
    case Some(c) => slots[i := Some(Channels.Enabled(c, addr))]
  }

  // ---------------------------------------------------------------------
  // The script

  datatype Step = Step(state: PlayerState, flow: Flow)

  /** The instructions that end, delay or redirect the script, and the note
      reservations the model leaves out. */
  predicate FlowCmd(cmd: SequenceCmds.SequenceCmd)
  {
    cmd.End? || cmd.Delay? || cmd.Delay1? || cmd.Jump? || cmd.Beqz? || cmd.Bltz? || cmd.Bgez?
    || cmd.ReserveNotes? || cmd.UnReserveNotes?
  }

  /** The instructions that use the return stack. */
  predicate StackCmd(cmd: SequenceCmds.SequenceCmd)
  {
    cmd.Call? || cmd.Loop? || cmd.LoopEnd?
  }

  /** The instructions that set a player field. */
  predicate SettingCmd(cmd: SequenceCmds.SequenceCmd)
  {
    cmd.Transpose? || cmd.TransposeRel? || cmd.SetMuteBhv? || cmd.SetVol? || cmd.SetTempo?
  }

  /** The instructions that change the channel slots. */
  predicate SlotCmd(cmd: SequenceCmds.SequenceCmd)
  {
    cmd.InitChannels? || cmd.StartChannel? || cmd.DisableChannels?
  }

  /** One instruction of the player script (the match in `process`). Both
      copies have the same arms; any other instruction is `todo!`. */
  function Exec(p: PlayerState, cmd: SequenceCmds.SequenceCmd): Outcome<Step>
  {
    if FlowCmd(cmd) then FlowArm(p, cmd)
    else if StackCmd(cmd) then StackArm(p, cmd)
    else if SettingCmd(cmd) then SettingArm(p, cmd)
    else if SlotCmd(cmd) then Ok(Step(p.(channels := SlotChange(p.channels, cmd)), Continue))
    else Panic(Unhandled)
  }

  /** `End`, the delays, `Jump`, the conditional branches and the note
      reservations. `value` is never assigned, so every conditional branch
      unwraps `None`. */
  function FlowArm(p: PlayerState, cmd: SequenceCmds.SequenceCmd): Outcome<Step>
    requires FlowCmd(cmd)
  {
    if cmd.End? then
      if p.script.depth == 0 then Ok(Step(p.(finished := true), Yield))
      else Ok(Step(p.(script := Return(p.script)), Continue))
    else if cmd.Delay? then Ok(Step(p.(delay := cmd.ticks), Yield))
    else if cmd.Delay1? then Ok(Step(p.(delay := 1), Yield))
    else if cmd.Jump? then Ok(Step(p.(script := p.script.(pc := cmd.addr)), Continue))
    else if cmd.Beqz? || cmd.Bltz? || cmd.Bgez? then Panic(UnwrapNone)
    else Ok(Step(p, Continue))
  }

  /** `Call`, `Loop` and `LoopEnd`. */
  function StackArm(p: PlayerState, cmd: SequenceCmds.SequenceCmd): Outcome<Step>
    requires StackCmd(cmd)
  {
    var r := if cmd.Call? then Call(p.script, cmd.addr)
      else if cmd.Loop? then LoopStart(p.script, cmd.count)
      else LoopEnd(p.script);
    match r
    case Ok(s) => Ok(Step(p.(script := s), Continue))
    case Panic(f) => Panic(f)
  }

  /** `Transpose`, `TransposeRel` (an `i16` sum), `SetMuteBhv`, `SetVol` and `SetTempo`. */
  function SettingArm(p: PlayerState, cmd: SequenceCmds.SequenceCmd): Outcome<Step>
    requires SettingCmd(cmd)
  {
    if cmd.Transpose? then Ok(Step(p.(transposition := cmd.semitones), Continue))
    else if cmd.TransposeRel? then
      if -0x8000 <= p.transposition + cmd.delta < 0x8000 then
        Ok(Step(p.(transposition := p.transposition + cmd.delta), Continue))
      else Panic(Overflow)
    else if cmd.SetMuteBhv? then Ok(Step(p.(muteBehavior := FromBitsTruncate(cmd.bits)), Continue))
    else if cmd.SetVol? then Ok(Step(p.(volume := cmd.vol), Continue))
    else Ok(Step(p.(tempo := cmd.bpm * TEMPO_SCALE), Continue))
  }

  /** `InitChannels`, `StartChannel` and `DisableChannels`. */
  function SlotChange(slots: ChannelSlots, cmd: SequenceCmds.SequenceCmd): ChannelSlots
    requires SlotCmd(cmd)
  {
    if cmd.InitChannels? then InitSlots(slots, cmd.mask)
    else if cmd.StartChannel? then StartSlot(slots, cmd.channel, cmd.addr)
    else DisableSlots(slots, cmd.mask)
  }

  datatype Fetched = Fetched(cmd: SequenceCmds.SequenceCmd, next: U16)

  /** Decode the instruction at `pc` (`data[pc..]`) and advance `pc` past it. */
  function Fetch(pc: U16, data: seq<Byte>): (r: Outcome<Fetched>)
    ensures pc > |data| ==> r == Panic(OutOfBounds)
    ensures r.Ok? ==> pc < r.value.next <= |data|
  {
    if pc > |data| then Panic(OutOfBounds)
    else match SequenceCmds.Read(data[pc..])
      case Panic(f) => Panic(f)
      case Ok(d) =>
        match Advance(pc, d.size)
        case Ok(next) => Ok(Fetched(d.cmd, next))
        case Panic(f) => Panic(f)
  }

  /** The instruction at each `pc`: the script loop sees its bytecode only through this. */
  type Decoder = U16 -> Outcome<Fetched>

  function FetchAt(data: seq<Byte>): Decoder
  {
    (pc: U16) => Fetch(pc, data)
  }

  /** What the player and its channels read from the sequence buffer. */
  datatype Code = Code(player: Decoder, channels: Channels.Code)

  /** The code of the sequence buffer `data`. */
  function CodeAt(data: seq<Byte>): Code
  {
    Code(FetchAt(data), Channels.CodeAt(data))
  }

  /** The script loop, bounded by `fuel` instructions. */
  function Run(p: PlayerState, fetch: Decoder, fuel: nat): Outcome<PlayerState>
    decreases fuel
  {
    if fuel == 0 then Panic(OutOfFuel)
    else match fetch(p.script.pc)
      case Panic(f) => Panic(f)
      case Ok(fetched) =>
        match Exec(p.(script := p.script.(pc := fetched.next)), fetched.cmd)
        case Panic(f) => Panic(f)
        case Ok(step) =>
          if step.flow == Yield then Ok(step.state)
          else Run(step.state, fetch, fuel - 1)
  }

  /** One tatum of the player script: while the delay is above one it only
      counts down, otherwise the script runs. */
  function Script(p: PlayerState, fetch: Decoder, fuel: nat): Outcome<PlayerState>
  {
    if p.delay > 1 then Ok(p.(delay := p.delay - 1))
    else Run(p, fetch, fuel)
  }

  /** What one channel does when the player lets it play. */
  type ChannelStep = Channels.ChannelState -> Outcome<Channels.ChannelState>

  /** `channel.process(player, data)`: a channel sees only the player's mute flags. */
  function PlayChannel(engine: Engine, muted: bool, behavior: MuteBehavior, code: Channels.Code, fuel: nat): ChannelStep
  {
    (c: Channels.ChannelState) => Channels.ProcessChannel(engine, c, muted, behavior, code, fuel)
  }

  /** `play` for the slots `i..16` in order; an empty slot is skipped. */
  function ChannelsFrom(play: ChannelStep, slots: ChannelSlots, i: nat): Outcome<ChannelSlots>
    requires i <= CHANNELS_MAX
    decreases CHANNELS_MAX - i, 1
  {
    if i == CHANNELS_MAX then Ok(slots) else SlotThen(play, slots, i)
  }

  /** Slot `i` plays, then the slots after it. */
  function SlotThen(play: ChannelStep, slots: ChannelSlots, i: nat): Outcome<ChannelSlots>
    requires i < CHANNELS_MAX
    decreases CHANNELS_MAX - i, 0
  {
    match slots[i]
    case None => ChannelsFrom(play, slots, i + 1)
    case Some(c) =>
      match play(c)
      case Ok(c2) => ChannelsFrom(play, slots[i := Some(c2)], i + 1)
      case Panic(f) => Panic(f)
  }

  /** The closing loop of `process`: every channel plays, seeing the player's
      mute flags as the script left them. */
  function ChannelsTick(engine: Engine, p: PlayerState, code: Channels.Code, fuel: nat): Outcome<PlayerState>
  {
    match ChannelsFrom(PlayChannel(engine, p.muted, p.muteBehavior, code, fuel), p.channels, 0)
    case Ok(slots) => Ok(p.(channels := slots))
    case Panic(f) => Panic(f)
  }

  /** `SequencePlayer::process(data)` (`sequence_player_process_sequence`).
      Only the m64play copy returns early once the sequence has finished. */
  function ProcessPlayer(engine: Engine, p: PlayerState, code: Code, fuel: nat): Outcome<PlayerState>
  {
    if engine == M64Play && p.finished then Ok(p)
    else if p.muted && p.muteBehavior.stopScript then Ok(p)
    else
      var acc := p.tempoAcc + p.tempo;
      if acc >= 0x1_0000 then Panic(Overflow)
      else if acc < TEMPO_INTERNAL_TO_EXTERNAL then Ok(p.(tempoAcc := acc))
      else Tatum(engine, p.(tempoAcc := acc - TEMPO_INTERNAL_TO_EXTERNAL), code, fuel)
  }

  /** What happens once a tatum has passed: the player script, then the channels. */
  function Tatum(engine: Engine, p: PlayerState, code: Code, fuel: nat): Outcome<PlayerState>
  {
    match Script(p, code.player, fuel)
    case Ok(p1) => ChannelsTick(engine, p1, code.channels, fuel)
    case Panic(f) => Panic(f)
  }

  // ---------------------------------------------------------------------
  // Properties

  /** In the m64play copy a finished player is left exactly as it is; the m64
      copy has no such check, so a finished player still accumulates tempo,
      and once a tatum has passed it runs its script and its channels again. */
  lemma FinishedByEngine(p: PlayerState, code: Code, fuel: nat)
    requires p.finished
    ensures ProcessPlayer(M64Play, p, code, fuel) == Ok(p)
    ensures var acc := p.tempoAcc + p.tempo;
      !(p.muted && p.muteBehavior.stopScript) ==>
        && (acc >= 0x1_0000 ==> ProcessPlayer(M64, p, code, fuel) == Panic(Overflow))
        && (acc < TEMPO_INTERNAL_TO_EXTERNAL ==> ProcessPlayer(M64, p, code, fuel) == Ok(p.(tempoAcc := acc)))
        && (TEMPO_INTERNAL_TO_EXTERNAL <= acc < 0x1_0000 ==>
              ProcessPlayer(M64, p, code, fuel) == Tatum(M64, p.(tempoAcc := acc - TEMPO_INTERNAL_TO_EXTERNAL), code, fuel))
  {
  }

  /** A muted player whose behaviour stops scripts does nothing at all: no
      tempo, no script, no channel plays. */
  lemma MutedIsNoOp(engine: Engine, p: PlayerState, code: Code, fuel: nat)
    requires p.muted && p.muteBehavior.stopScript
    ensures ProcessPlayer(engine, p, code, fuel) == Ok(p)
  {
  }

  /** The tempo invariant: the accumulator stays below the threshold and the
      tempo is at most what `SetTempo` can store. */
  predicate TempoOk(p: PlayerState)
  {
    p.tempoAcc < TEMPO_INTERNAL_TO_EXTERNAL && p.tempo <= MAX_SET_TEMPO
  }

  /** A new player plays 120 beats per minute within the invariant. */
  lemma NewPlayerTempo()
    ensures TempoOk(NewPlayer())
    ensures NewPlayer().tempo == 5760
  {
  }

  /** No instruction touches the accumulator, and `SetTempo` stores at most 255 * 48. */
  lemma ExecKeepsTempo(p: PlayerState, cmd: SequenceCmds.SequenceCmd)
    requires TempoOk(p)
    ensures Exec(p, cmd).Ok? ==> TempoOk(Exec(p, cmd).value.state)
    ensures Exec(p, cmd).Ok? ==> Exec(p, cmd).value.state.tempoAcc == p.tempoAcc
    ensures cmd.SetTempo? ==> Exec(p, cmd) == Ok(Step(p.(tempo := cmd.bpm * 48), Continue))
  {
  }

  /** The script loop keeps the tempo invariant. */
  lemma {:induction false} RunKeepsTempo(p: PlayerState, fetch: Decoder, fuel: nat)
    requires TempoOk(p)
    ensures Run(p, fetch, fuel).Ok? ==> TempoOk(Run(p, fetch, fuel).value)
    decreases fuel
  {
    if fuel > 0 && fetch(p.script.pc).Ok? {
      var fetched := fetch(p.script.pc).value;
      var q := p.(script := p.script.(pc := fetched.next));
      ExecKeepsTempo(q, fetched.cmd);
      if Exec(q, fetched.cmd).Ok? && Exec(q, fetched.cmd).value.flow == Continue {
        RunKeepsTempo(Exec(q, fetched.cmd).value.state, fetch, fuel - 1);
      }
    }
  }

  /** Playing the channels changes nothing but the channel slots. */
  lemma ChannelsTickKeepsPlayer(engine: Engine, p: PlayerState, code: Channels.Code, fuel: nat)
    ensures ChannelsTick(engine, p, code, fuel).Ok? ==>
      ChannelsTick(engine, p, code, fuel).value == p.(channels := ChannelsTick(engine, p, code, fuel).value.channels)
  {
  }

  /** Under the invariant the accumulator never overflows, at most one tatum
      passes per call, and the invariant holds again afterwards. */
  lemma ProcessKeepsTempo(engine: Engine, p: PlayerState, code: Code, fuel: nat)
    requires TempoOk(p)
    ensures p.tempoAcc + p.tempo < 0x1_0000
    ensures p.tempoAcc + p.tempo - TEMPO_INTERNAL_TO_EXTERNAL < TEMPO_INTERNAL_TO_EXTERNAL
    ensures ProcessPlayer(engine, p, code, fuel).Ok? ==> TempoOk(ProcessPlayer(engine, p, code, fuel).value)
  {
    var acc := p.tempoAcc + p.tempo;
    if !(engine == M64Play && p.finished) && !(p.muted && p.muteBehavior.stopScript)
      && TEMPO_INTERNAL_TO_EXTERNAL <= acc
    {
      var q := p.(tempoAcc := acc - TEMPO_INTERNAL_TO_EXTERNAL);
      if q.delay <= 1 {
        RunKeepsTempo(q, code.player, fuel);
      }
      assert ProcessPlayer(engine, p, code, fuel) == Tatum(engine, q, code, fuel);
      var s := Script(q, code.player, fuel);
      if s.Ok? {
        ChannelsTickKeepsPlayer(engine, s.value, code.channels, fuel);
      }
    }
  }

  /** Until a tatum has accumulated, a call only adds the tempo. */
  lemma WaitsForTatum(engine: Engine, p: PlayerState, code: Code, fuel: nat)
    requires !p.finished && !p.muted
    requires p.tempoAcc + p.tempo < TEMPO_INTERNAL_TO_EXTERNAL
    ensures ProcessPlayer(engine, p, code, fuel) == Ok(p.(tempoAcc := p.tempoAcc + p.tempo))
  {
  }

  /** `k` tatums of the player script in a row. */
  function ScriptN(p: PlayerState, fetch: Decoder, fuel: nat, k: nat): Outcome<PlayerState>
  {
    if k == 0 then Ok(p)
    else match ScriptN(p, fetch, fuel, k - 1)
      case Ok(m) => Script(m, fetch, fuel)
      case Panic(f) => Panic(f)
  }

  /** After `Delay(d)` the next `d - 1` tatums only count down and the `d`-th
      runs the script with the delay at one. */
  lemma {:induction false} DelayWaits(p: PlayerState, fetch: Decoder, fuel: nat, k: nat)
    requires 0 < k <= p.delay
    ensures k < p.delay ==> ScriptN(p, fetch, fuel, k) == Ok(p.(delay := p.delay - k))
    ensures k == p.delay ==> ScriptN(p, fetch, fuel, k) == Run(p.(delay := 1), fetch, fuel)
  {
    var m := p.(delay := p.delay - (k - 1));
    if k > 1 {
      DelayWaits(p, fetch, fuel, k - 1);
    } else {
      assert m == p;
    }
    assert ScriptN(p, fetch, fuel, k) == Script(m, fetch, fuel);
  }

  /** `Delay(0)`, `Delay(1)` and `Delay1` all let the very next tatum run the script. */
  lemma ShortDelays(p: PlayerState, fetch: Decoder, fuel: nat)
    requires p.delay <= 1
    ensures Script(p, fetch, fuel) == Run(p, fetch, fuel)
    ensures Exec(p, SequenceCmds.Delay1) == Exec(p, SequenceCmds.Delay(1))
  {
  }

  /** `End` at the top level finishes the sequence; below it, it returns. */
  lemma EndOfScript(p: PlayerState)
    ensures p.script.depth == 0 ==> Exec(p, SequenceCmds.End) == Ok(Step(p.(finished := true), Yield))
    ensures p.script.depth > 0 ==> Exec(p, SequenceCmds.End) == Ok(Step(p.(script := Return(p.script)), Continue))
  {
  }

  /** The conditional branches read a value no instruction sets, so they always panic. */
  lemma BranchesPanic(p: PlayerState, addr: U16)
    ensures Exec(p, SequenceCmds.Beqz(addr)) == Panic(UnwrapNone)
    ensures Exec(p, SequenceCmds.Bltz(addr)) == Panic(UnwrapNone)
    ensures Exec(p, SequenceCmds.Bgez(addr)) == Panic(UnwrapNone)
  {
  }

  /** `TransposeRel` panics exactly when the sum leaves the `i16` range. */
  lemma TransposeRelRange(p: PlayerState, delta: I8)
    ensures Exec(p, SequenceCmds.TransposeRel(delta)).Panic? <==> !(-0x8000 <= p.transposition + delta < 0x8000)
    ensures Exec(p, SequenceCmds.TransposeRel(delta)).Ok? ==>
      Exec(p, SequenceCmds.TransposeRel(delta)).value.state.transposition == p.transposition + delta
  {
  }

  /** Disabling after initialising with the same mask is the same as disabling,
      and initialising after disabling is the same as initialising: each mask
      bit decides its slot on its own. */
  lemma InitDisableMask(slots: ChannelSlots, mask: U16)
    ensures DisableSlots(InitSlots(slots, mask), mask) == DisableSlots(slots, mask)
    ensures InitSlots(DisableSlots(slots, mask), mask) == InitSlots(slots, mask)
    ensures forall k | 0 <= k < CHANNELS_MAX && !Bit(mask, k) ::
      InitSlots(slots, mask)[k] == slots[k] && DisableSlots(slots, mask)[k] == slots[k]
  {
  }

  /** `x >> k` of zero is zero. */
  lemma {:induction false} ShrZero(k: nat)
    ensures Shr(0, k) == 0
  {
    if k > 0 {
      ShrZero(k - 1);
    }
  }

  /** A mask of zero leaves every slot alone. */
  lemma EmptyMask(slots: ChannelSlots)
    ensures InitSlots(slots, 0) == slots
    ensures DisableSlots(slots, 0) == slots
  {
    forall k | 0 <= k < CHANNELS_MAX
      ensures !Bit(0, k)
    {
      ShrZero(k);
    }
  }

  /** `n` one bits. */
  function Ones(n: nat): nat
  {
    if n == 0 then 0 else 2 * Ones(n - 1) + 1
  }

  /** Shifting `n` one bits right by `k` leaves `n - k` one bits. */
  lemma {:induction false} ShrOnes(n: nat, k: nat)
    requires k <= n
    ensures Shr(Ones(n), k) == Ones(n - k)
  {
    if k > 0 {
      ShrOnes(n, k - 1);
    }
  }

  /** The full mask 0xffff fills, or empties, all sixteen slots. */
  lemma FullMask(slots: ChannelSlots)
    ensures InitSlots(slots, 0xffff) == seq(CHANNELS_MAX, _ => Some(Channels.NewChannel()))
    ensures DisableSlots(slots, 0xffff) == NO_CHANNELS
  {
    assert Ones(4) == 0xf && Ones(8) == 0xff && Ones(12) == 0xfff && Ones(16) == 0xffff;
    forall k | 0 <= k < CHANNELS_MAX
      ensures Bit(0xffff, k)
    {
      ShrOnes(16, k);
    }
  }

  /** `StartChannel` enables the channel in its slot and touches no other
      slot; an empty slot stays empty. */
  lemma StartSlotOnly(slots: ChannelSlots, i: Nibble, addr: U16)
    ensures slots[i].None? ==> StartSlot(slots, i, addr) == slots
    ensures slots[i].Some? ==> StartSlot(slots, i, addr)[i] == Some(Channels.Enabled(slots[i].value, addr))
    ensures forall k | 0 <= k < CHANNELS_MAX && k != i :: StartSlot(slots, i, addr)[k] == slots[k]
  {
  }

  /** Playing the channels never fills or empties a slot, and leaves the slots
      before `i` as they were. */
  lemma {:induction false} ChannelsFromKeepsSlots(play: ChannelStep, slots: ChannelSlots, i: nat)
    requires i <= CHANNELS_MAX
    requires ChannelsFrom(play, slots, i).Ok?
    decreases CHANNELS_MAX - i
    ensures var r := ChannelsFrom(play, slots, i).value;
      forall k | 0 <= k < CHANNELS_MAX :: (r[k].None? <==> slots[k].None?) && (k < i ==> r[k] == slots[k])
  {
    if i < CHANNELS_MAX {
      match slots[i] {
        case None =>
          ChannelsFromKeepsSlots(play, slots, i + 1);
        case Some(c) =>
          ChannelsFromKeepsSlots(play, slots[i := Some(play(c).value)], i + 1);
      }
    }
  }

  /** Channels that are all disabled (or absent) play as a no-op. */
  lemma {:induction false} IdleChannels(engine: Engine, slots: ChannelSlots, muted: bool, behavior: MuteBehavior,
                                        code: Channels.Code, fuel: nat, i: nat)
    requires i <= CHANNELS_MAX
    requires forall k | i <= k < CHANNELS_MAX :: slots[k].None? || !slots[k].value.enabled
    decreases CHANNELS_MAX - i
    ensures ChannelsFrom(PlayChannel(engine, muted, behavior, code, fuel), slots, i) == Ok(slots)
  {
    if i < CHANNELS_MAX {
      if slots[i].Some? {
        Channels.DisabledIsNoOp(engine, slots[i].value, muted, behavior, code, fuel);
        assert slots[i := Some(slots[i].value)] == slots;
      }
      IdleChannels(engine, slots, muted, behavior, code, fuel, i + 1);
    }
  }

  // ---------------------------------------------------------------------
  // The player object

  class SequencePlayer {
    var finished: bool
    var muted: bool
    var muteBehavior: MuteBehavior
    var tempo: U16
    var tempoAcc: U16
    var transposition: I16
    var delay: U16
    var volume: Byte
    var script: ScriptState
    /** The channel slots, each holding the value of its boxed channel. */
    var channels: ChannelSlots

    ghost function Value(): PlayerState
      reads this
    {
      PlayerState(finished, muted, muteBehavior, tempo, tempoAcc, transposition, delay, volume, script, channels)
    }

    constructor ()
      ensures Value() == NewPlayer()
    {
      finished, muted, muteBehavior := false, false, ALL_MUTE;
      tempo, tempoAcc, transposition, delay := 120 * TEMPO_SCALE, 0, 0, 0;
      volume := 0;
      script := NewScript(0);
      channels := NO_CHANNELS;
    }

    /** `process(data)`; the state after a fault is not specified. */
    method Process(engine: Engine, code: Code, fuel: nat) returns (fault: Option<Fault>)
      modifies this
      ensures ProcessPlayer(engine, old(Value()), code, fuel) ==
        (if fault.Some? then Panic(fault.value) else Ok(Value()))
    {
      if engine == M64Play && finished {
        return None;
      }
      if muted && muteBehavior.stopScript {
        return None;
      }
      if tempoAcc + tempo >= 0x1_0000 {
        return Some(Overflow);
      }
      tempoAcc := tempoAcc + tempo;
      if tempoAcc < TEMPO_INTERNAL_TO_EXTERNAL {
        return None;
      }
      tempoAcc := tempoAcc - TEMPO_INTERNAL_TO_EXTERNAL;
      ghost var p := old(Value());
      assert ProcessPlayer(engine, p, code, fuel) == Tatum(engine, Value(), code, fuel) by {
        assert Value() == p.(tempoAcc := p.tempoAcc + p.tempo - TEMPO_INTERNAL_TO_EXTERNAL);
      }
      fault := PlayTatum(engine, code, fuel);
    }

    /** The script and then the channels, once a tatum has passed. */
    method PlayTatum(engine: Engine, code: Code, fuel: nat) returns (fault: Option<Fault>)
      modifies this
      ensures Tatum(engine, old(Value()), code, fuel) == (if fault.Some? then Panic(fault.value) else Ok(Value()))
    {
      fault := ScriptTick(code.player, fuel);
      if fault.Some? {
        return;
      }
      fault := ProcessChannels(engine, code.channels, fuel);
    }

    /** The delay countdown of `process` and, once it is over, the script loop. */
    method ScriptTick(fetch: Decoder, fuel: nat) returns (fault: Option<Fault>)
      modifies this
      ensures Script(old(Value()), fetch, fuel) == (if fault.Some? then Panic(fault.value) else Ok(Value()))
    {
      if delay > 1 {
        delay := delay - 1;
        return None;
      }
      fault := RunScript(fetch, fuel);
    }

    /** The script loop of `process`. */
    method RunScript(fetch: Decoder, fuel: nat) returns (fault: Option<Fault>)
      modifies this
      ensures Run(old(Value()), fetch, fuel) == (if fault.Some? then Panic(fault.value) else Ok(Value()))
    {
      var f: nat := fuel;
      while true
        invariant f <= fuel
        invariant Run(Value(), fetch, f) == Run(old(Value()), fetch, fuel)
        decreases f
      {
        if f == 0 {
          return Some(OutOfFuel);
        }
        var flow;
        fault, flow := Turn(fetch, f);
        if fault.Some? || flow == Yield {
          return;
        }
        f := f - 1;
      }
    }

    /** One turn of the script loop: fetch, advance `pc`, execute. */
    method Turn(fetch: Decoder, fuel: nat) returns (fault: Option<Fault>, flow: Flow)
      requires fuel > 0
      modifies this
      ensures fault.Some? ==> Run(old(Value()), fetch, fuel) == Panic(fault.value)
      ensures fault.None? && flow == Yield ==> Run(old(Value()), fetch, fuel) == Ok(Value())
      ensures fault.None? && flow == Continue ==> Run(old(Value()), fetch, fuel) == Run(Value(), fetch, fuel - 1)
    {
      var fetched := fetch(script.pc);
      if fetched.Panic? {
        return Some(fetched.fault), Yield;
      }
      RunStep(Value(), fetch, fuel, fetched.value);
      script := script.(pc := fetched.value.next);
      fault, flow := ExecCmd(fetched.value.cmd);
    }

    /** One instruction: the arms of the match in `process`. */
    method ExecCmd(cmd: SequenceCmds.SequenceCmd) returns (fault: Option<Fault>, flow: Flow)
      modifies this
      ensures Exec(old(Value()), cmd) == (if fault.Some? then Panic(fault.value) else Ok(Step(Value(), flow)))
    {
      if FlowCmd(cmd) {
        fault, flow := ExecFlow(cmd);
      } else if StackCmd(cmd) {
        fault, flow := ExecStack(cmd);
      } else if SettingCmd(cmd) {
        fault, flow := ExecSettings(cmd);
      } else if cmd.InitChannels? {
        InitChannels(cmd.mask);
        fault, flow := None, Continue;
      } else if cmd.StartChannel? {
        StartChannel(cmd.channel, cmd.addr);
        fault, flow := None, Continue;
      } else if cmd.DisableChannels? {
        DisableChannels(cmd.mask);
        fault, flow := None, Continue;
      } else {
        fault, flow := Some(Unhandled), Continue;
      }
    }

    /** `End`, the delays, `Jump`, the conditional branches and the note reservations. */
    method ExecFlow(cmd: SequenceCmds.SequenceCmd) returns (fault: Option<Fault>, flow: Flow)
      requires FlowCmd(cmd)
      modifies this
      ensures FlowArm(old(Value()), cmd) == (if fault.Some? then Panic(fault.value) else Ok(Step(Value(), flow)))
    {
      fault, flow := None, Continue;
      if cmd.End? {
        if script.depth == 0 {
          finished := true;
          flow := Yield;
        } else {
          script := Return(script);
        }
      } else if cmd.Delay? {
        delay := cmd.ticks;
        flow := Yield;
      } else if cmd.Delay1? {
        delay := 1;
        flow := Yield;
      } else if cmd.Jump? {
        script := script.(pc := cmd.addr);
      } else if cmd.Beqz? || cmd.Bltz? || cmd.Bgez? {
        fault := Some(UnwrapNone);
      }
    }

    /** `Call`, `Loop` and `LoopEnd`. */
    method ExecStack(cmd: SequenceCmds.SequenceCmd) returns (fault: Option<Fault>, flow: Flow)
      requires StackCmd(cmd)
      modifies this
      ensures StackArm(old(Value()), cmd) == (if fault.Some? then Panic(fault.value) else Ok(Step(Value(), flow)))
    {
      var r;
      if cmd.Call? {
        r := Call(script, cmd.addr);
      } else if cmd.Loop? {
        r := LoopStart(script, cmd.count);
      } else {
        r := LoopEnd(script);
      }
      flow := Continue;
      if r.Panic? {
        fault := Some(r.fault);
      } else {
        script := r.value;
        fault := None;
      }
    }

    /** `Transpose`, `TransposeRel`, `SetMuteBhv`, `SetVol` and `SetTempo`. */
    method ExecSettings(cmd: SequenceCmds.SequenceCmd) returns (fault: Option<Fault>, flow: Flow)
      requires SettingCmd(cmd)
      modifies this
      ensures SettingArm(old(Value()), cmd) == (if fault.Some? then Panic(fault.value) else Ok(Step(Value(), flow)))
    {
      fault, flow := None, Continue;
      if cmd.Transpose? {
        transposition := cmd.semitones;
      } else if cmd.TransposeRel? {
        if -0x8000 <= transposition + cmd.delta < 0x8000 {
          transposition := transposition + cmd.delta;
        } else {
          fault := Some(Overflow);
        }
      } else if cmd.SetMuteBhv? {
        muteBehavior := FromBitsTruncate(cmd.bits);
      } else if cmd.SetVol? {
        volume := cmd.vol;
      } else {
        tempo := cmd.bpm * TEMPO_SCALE;
      }
    }

    /** `init_channels(mask)`: the mask is shifted right once per slot. */
    method InitChannels(mask: U16)
      modifies this
      ensures Value() == old(Value()).(channels := InitSlots(old(channels), mask))
    {
      var m: nat := mask;
      var i := 0;
      while i < CHANNELS_MAX
        invariant 0 <= i <= CHANNELS_MAX && m == Shr(mask, i)
        invariant Value() == old(Value()).(channels := channels)
        invariant forall k | 0 <= k < CHANNELS_MAX ::
          channels[k] == if k < i && Bit(mask, k) then Some(Channels.NewChannel()) else old(channels)[k]
      {
        if m % 2 == 1 {
          channels := channels[i := Some(Channels.NewChannel())];
        }
        m := m / 2;
        i := i + 1;
      }
      assert channels == InitSlots(old(channels), mask);
    }

    /** `disable_channels(mask)`: the mask is shifted right once per slot. */
    method DisableChannels(mask: U16)
      modifies this
      ensures Value() == old(Value()).(channels := DisableSlots(old(channels), mask))
    {
      var m: nat := mask;
      var i := 0;
      while i < CHANNELS_MAX
        invariant 0 <= i <= CHANNELS_MAX && m == Shr(mask, i)
        invariant Value() == old(Value()).(channels := channels)
        invariant forall k | 0 <= k < CHANNELS_MAX ::
          channels[k] == if k < i && Bit(mask, k) then None else old(channels)[k]
      {
        if m % 2 == 1 {
          channels := channels[i := None];
        }
        m := m / 2;
        i := i + 1;
      }
      assert channels == DisableSlots(old(channels), mask);
    }

    /** `start_channel(i, addr)`. */
    method StartChannel(i: Nibble, addr: U16)
      modifies this
      ensures Value() == old(Value()).(channels := StartSlot(old(channels), i, addr))
    {
      if channels[i].Some? {
        channels := channels[i := Some(Channels.Enabled(channels[i].value, addr))];
      }
    }

    /** The closing loop of `process`: the channels play in slot order, each
        with the player's mute flags, and the first fault ends the loop. */
    method ProcessChannels(engine: Engine, code: Channels.Code, fuel: nat) returns (fault: Option<Fault>)
      modifies this
      ensures ChannelsTick(engine, old(Value()), code, fuel) == (if fault.Some? then Panic(fault.value) else Ok(Value()))
    {
      ghost var play := PlayChannel(engine, muted, muteBehavior, code, fuel);
      var i := 0;
      while i < CHANNELS_MAX
        invariant 0 <= i <= CHANNELS_MAX
        invariant Value() == old(Value()).(channels := channels)
        invariant ChannelsFrom(play, old(channels), 0) == ChannelsFrom(play, channels, i)
      {
        fault := ProcessSlot(engine, code, fuel, i);
        if fault.Some? {
          return;
        }
        i := i + 1;
      }
      fault := None;
    }

    /** `channel.process(self, data)` for slot `i`, if it holds a channel. */
    method ProcessSlot(engine: Engine, code: Channels.Code, fuel: nat, i: nat) returns (fault: Option<Fault>)
      requires i < CHANNELS_MAX
      modifies this
      ensures Value() == old(Value()).(channels := channels)
      ensures fault.Some? ==>
        ChannelsFrom(PlayChannel(engine, muted, muteBehavior, code, fuel), old(channels), i) == Panic(fault.value)
      ensures fault.None? ==>
        ChannelsFrom(PlayChannel(engine, muted, muteBehavior, code, fuel), old(channels), i) ==
        ChannelsFrom(PlayChannel(engine, muted, muteBehavior, code, fuel), channels, i + 1)
    {
      if channels[i].None? {
        return None;
      }
      var r := Channels.ProcessChannel(engine, channels[i].value, muted, muteBehavior, code, fuel);
      if r.Panic? {
        return Some(r.fault);
      }
      channels := channels[i := Some(r.value)];
      fault := None;
    }
  }

  /** One turn of the script loop: fetch, then execute; a yield ends the run. */
  lemma RunStep(p: PlayerState, fetch: Decoder, fuel: nat, fetched: Fetched)
    requires fuel > 0 && fetch(p.script.pc) == Ok(fetched)
    ensures var e := Exec(p.(script := p.script.(pc := fetched.next)), fetched.cmd);
      Run(p, fetch, fuel) ==
        match e
        case Panic(f) => Panic(f)
        case Ok(step) => if step.flow == Yield then Ok(step.state) else Run(step.state, fetch, fuel - 1)
  {
  }
}
