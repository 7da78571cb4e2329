/** The channel tier of the interpreter: `SequenceChannel` (m64/src/state.rs:276-450,
    m64play/src/state/channel.rs). A channel runs its own script, which
    starts layers, and then lets each of its four layer slots play. */
module Channels {
  import opened Bytes
  import opened Outcomes
  import opened Scripts
  import opened Engines
  import ChannelCmds
  import Layers

  /** The four layer slots (`[Option<Box<SequenceLayer>>; LAYERS_MAX]`). */
  type Slots = s: seq<Option<Layers.LayerState>> | |s| == LAYERS_MAX witness [None, None, None, None]

  const NO_LAYERS: Slots := [None, None, None, None]

  datatype ChannelState = ChannelState(
    enabled: bool,
    finished: bool,
    stopScript: bool,
    largeNotes: bool,
    reverb: Byte,
    notePriority: Byte,
    delay: U16,
    transposition: I16,
    /** `volume` is `vol / 127`; the model keeps the operand `vol`. */
    volume: Byte,
    /** `pan` is `pan / 128`; the model keeps the operand. */
    pan: Byte,
    script: ScriptState,
    layers: Slots)

  /** `SequenceChannel::new()`: disabled, at address 0, volume 1.0 (127 / 127),
      pan 0.5 (64 / 128), the default note priority and no layers. */
  function NewChannel(): (c: ChannelState)
    ensures !c.enabled && !c.finished && !c.stopScript && !c.largeNotes
    ensures c.script == NewScript(0) && c.delay == 0 && c.transposition == 0
    ensures c.volume == 127 && c.pan == 64 && c.reverb == 0 && c.notePriority == NOTE_PRIORITY_DEFAULT
    ensures c.layers == NO_LAYERS
  {
    ChannelState(false, false, false, false, 0, NOTE_PRIORITY_DEFAULT, 0, 0, 127, 64, NewScript(0), NO_LAYERS)
  }

  datatype Step = Step(state: ChannelState, flow: Flow)

  /** One instruction of the channel script (the match in `process`). */
  function Exec(engine: Engine, c: ChannelState, cmd: ChannelCmds.ChannelCmd): Outcome<Step>
  {
    if cmd.End? then
      if c.script.depth == 0 then Ok(Step(c.(enabled := false, finished := true), Yield))
      else Ok(Step(c.(script := Return(c.script)), Continue))
    else if cmd.Delay1? then Ok(Step(c, Yield))
    else if cmd.Delay? then Ok(Step(c.(delay := cmd.ticks), Yield))
    else if cmd.Transpose? then
      if engine == M64 then Panic(Unhandled)
      else Ok(Step(c.(transposition := cmd.semitones), Continue))
    else if cmd.LargeNotesOn? then Ok(Step(c.(largeNotes := true), Continue))
    else if cmd.SetLayer? then
      if cmd.slot >= LAYERS_MAX then Panic(OutOfBounds)
      else Ok(Step(c.(layers := c.layers[cmd.slot := Some(Layers.NewLayer(cmd.addr))]), Continue))
    else if cmd.SetVol? then Ok(Step(c.(volume := cmd.val), Continue))
    else if cmd.SetNotePriority? then Ok(Step(c.(notePriority := cmd.slot), Continue))
    else if cmd.SetPan? then Ok(Step(c.(pan := cmd.val), Continue))
    else if cmd.SetReverb? then Ok(Step(c.(reverb := cmd.val), Continue))
    else if cmd.SetInstr? then Ok(Step(c, Continue))
    else Panic(Unhandled)
  }

  datatype Fetched = Fetched(cmd: ChannelCmds.ChannelCmd, next: U16)

  /** Decode the instruction at `pc` (`data[pc..]`) and advance `pc` by the size
      the decoder reports. */
  function Fetch(pc: U16, data: seq<Byte>): (r: Outcome<Fetched>)
    ensures pc > |data| ==> r == Panic(OutOfBounds)
    ensures r.Ok? ==> pc < r.value.next
  {
    if pc > |data| then Panic(OutOfBounds)
    else match ChannelCmds.Read(data[pc..])
      case Panic(f) => Panic(f)
      case Ok(d) =>
        match Advance(pc, d.size)
        case Ok(next) => Ok(Fetched(d.cmd, next))
        case Panic(f) => Panic(f)
  }

  /** The instruction at each `pc`: the script loop sees its bytecode only through this. */
  type Decoder = U16 -> Outcome<Fetched>

  function FetchAt(data: seq<Byte>): Decoder
  {
    (pc: U16) => Fetch(pc, data)
  }

  /** What a channel and its layers read from the sequence buffer: the channel
      script's decoder and the layer scripts' two readings. */
  datatype Code = Code(channel: Decoder, layers: Layers.LayerCode)

  /** The code of the sequence buffer `data`. */
  function CodeAt(data: seq<Byte>): Code
  {
    Code(FetchAt(data), Layers.LayerCodeAt(data))
  }

  /** The script loop, bounded by `fuel` instructions. */
  function Run(engine: Engine, c: ChannelState, fetch: Decoder, fuel: nat): Outcome<ChannelState>
    decreases fuel
  {
    if fuel == 0 then Panic(OutOfFuel)
    else match fetch(c.script.pc)
      case Panic(f) => Panic(f)
      case Ok(fetched) =>
        match Exec(engine, c.(script := c.script.(pc := fetched.next)), fetched.cmd)
        case Panic(f) => Panic(f)
        case Ok(step) =>
          if step.flow == Yield then Ok(step.state)
          else Run(engine, step.state, fetch, fuel - 1)
  }

  /** The delay countdown and, once the delay is zero, the script loop. */
  function Script(engine: Engine, c: ChannelState, fetch: Decoder, fuel: nat): Outcome<ChannelState>
  {
    var d := if c.delay != 0 then c.delay - 1 else 0;
    if d == 0 then Run(engine, c.(delay := 0), fetch, fuel)
    else Ok(c.(delay := d))
  }

  /** `process_layer(j, data)` for the slots `j..4` in order; an empty slot is skipped. */
  function LayersFrom(engine: Engine, slots: Slots, fetch: Layers.Decoder, fuel: nat, j: nat): Outcome<Slots>
    requires j <= LAYERS_MAX
    decreases LAYERS_MAX - j
  {
    if j == LAYERS_MAX then Ok(slots)
    else match slots[j]
      case None => LayersFrom(engine, slots, fetch, fuel, j + 1)
      case Some(l) =>
        match Layers.ProcessLayer(engine, l, fetch, fuel)
        case Ok(l2) => LayersFrom(engine, slots[j := Some(l2)], fetch, fuel, j + 1)
        case Panic(f) => Panic(f)
  }

  /** The closing loop of `process`: every layer plays with the channel's note mode. */
  function LayersTick(engine: Engine, c: ChannelState, code: Layers.LayerCode, fuel: nat): Outcome<ChannelState>
  {
    match LayersFrom(engine, c.layers, Layers.Decoding(code, c.largeNotes), fuel, 0)
    case Ok(slots) => Ok(c.(layers := slots))
    case Panic(f) => Panic(f)
  }

  /** `SequenceChannel::process(player, data)`, with `data` read through
      `code` (`CodeAt(data)`); `muted` and `behavior` are the player's flags,
      the only part of the player a channel reads. */
  function ProcessChannel(engine: Engine, c: ChannelState, muted: bool, behavior: MuteBehavior, code: Code, fuel: nat): Outcome<ChannelState>
  {
    if !c.enabled then Ok(c)
    else if c.stopScript then LayersTick(engine, c, code.layers, fuel)
    else if muted && behavior.stopScript then Ok(c)
    else match Script(engine, c, code.channel, fuel)
      case Ok(c1) => LayersTick(engine, c1, code.layers, fuel)
      case Panic(f) => Panic(f)
  }

  /** `sequence_channel_enable`, as the player's `start_channel` does it: enabled
      at `addr` at the top level, no delay, every layer slot emptied. The
      return stack and the loop counters are left as they were. */
  function Enabled(c: ChannelState, addr: U16): (r: ChannelState)
    ensures r.enabled && !r.finished && r.delay == 0 && r.layers == NO_LAYERS
    ensures r.script.pc == addr && r.script.depth == 0
    ensures r.script.stack == c.script.stack && r.script.remLoopIters == c.script.remLoopIters
    ensures r == c.(enabled := true, finished := false, delay := 0, layers := NO_LAYERS,
                    script := r.script)
  {
    c.(enabled := true, finished := false, delay := 0, layers := NO_LAYERS,
       script := c.script.(depth := 0, pc := addr))
  }

  // ---------------------------------------------------------------------
  // Properties

  /** A disabled channel, whatever its layers, is left exactly as it is. */
  lemma DisabledIsNoOp(engine: Engine, c: ChannelState, muted: bool, behavior: MuteBehavior, code: Code, fuel: nat)
    requires !c.enabled
    ensures ProcessChannel(engine, c, muted, behavior, code, fuel) == Ok(c)
  {
  }

  /** A muted player whose behaviour stops scripts freezes a running channel
      completely: not even its layers play. A channel whose own script is
      stopped plays its layers, whether the player is muted or not, and keeps
      everything else. */
  lemma MuteAndStopScript(engine: Engine, c: ChannelState, muted: bool, behavior: MuteBehavior, code: Code, fuel: nat)
    requires c.enabled
    ensures !c.stopScript && behavior.stopScript ==> ProcessChannel(engine, c, true, behavior, code, fuel) == Ok(c)
    ensures c.stopScript ==>
      var r := ProcessChannel(engine, c, muted, behavior, code, fuel);
      r == LayersTick(engine, c, code.layers, fuel)
      && (r.Ok? ==> r.value == c.(layers := r.value.layers))
  {
  }

  /** `k` calls of the delay countdown and script loop in a row. */
  function ScriptN(engine: Engine, c: ChannelState, fetch: Decoder, fuel: nat, k: nat): Outcome<ChannelState>
  {
    if k == 0 then Ok(c)
    else match ScriptN(engine, c, fetch, fuel, k - 1)
      case Ok(m) => Script(engine, m, fetch, fuel)
      case Panic(f) => Panic(f)
  }

  /** After `Delay(d)` with `d > 0` the next `d - 1` calls only count down and
      the `d`-th runs the script again, so `Delay(1)` waits exactly as long as `Delay1`. */
  lemma {:induction false} DelayWaits(engine: Engine, c: ChannelState, fetch: Decoder, fuel: nat, k: nat)
    requires 0 < k <= c.delay
    ensures k < c.delay ==> ScriptN(engine, c, fetch, fuel, k) == Ok(c.(delay := c.delay - k))
    ensures k == c.delay ==> ScriptN(engine, c, fetch, fuel, k) == Run(engine, c.(delay := 0), fetch, fuel)
  {
    var m := c.(delay := c.delay - (k - 1));
    if k > 1 {
      DelayWaits(engine, c, fetch, fuel, k - 1);
    } else {
      assert m == c;
    }
    assert ScriptN(engine, c, fetch, fuel, k) == Script(engine, m, fetch, fuel);
    assert m.(delay := 0) == c.(delay := 0);
  }

  /** `Delay1` leaves the delay at zero, so the next call runs the script again,
      exactly as after `Delay(1)`. */
  lemma Delay1IsDelayOne(engine: Engine, c: ChannelState, fetch: Decoder, fuel: nat)
    requires c.delay == 0
    ensures Exec(engine, c, ChannelCmds.Delay1) == Ok(Step(c, Yield))
    ensures Script(engine, c, fetch, fuel) == Script(engine, c.(delay := 1), fetch, fuel)
  {
  }

  /** `End` at the top level disables and finishes the channel; below it, it returns. */
  lemma EndOfScript(engine: Engine, c: ChannelState)
    ensures c.script.depth == 0 ==>
      Exec(engine, c, ChannelCmds.End) == Ok(Step(c.(enabled := false, finished := true), Yield))
    ensures c.script.depth > 0 ==>
      Exec(engine, c, ChannelCmds.End) == Ok(Step(c.(script := Return(c.script)), Continue))
  {
  }

  /** `SetLayer(j, addr)` puts a fresh layer at `addr` in slot `j` and leaves the
      other slots alone; the array has four slots, so `j >= 4` is out of bounds. */
  lemma SetLayerSlot(engine: Engine, c: ChannelState, j: Nibble, addr: U16)
    ensures j >= 4 <==> Exec(engine, c, ChannelCmds.SetLayer(j, addr)) == Panic(OutOfBounds)
    ensures j < 4 ==>
      var r := Exec(engine, c, ChannelCmds.SetLayer(j, addr));
      && r.Ok? && r.value.flow == Continue
      && r.value.state.layers[j] == Some(Layers.NewLayer(addr))
      && (forall k | 0 <= k < 4 && k != j :: r.value.state.layers[k] == c.layers[k])
      && r.value.state == c.(layers := r.value.state.layers)
  {
  }

  /** Only the m64play copy has a `Transpose` arm; it sign-extends the operand. */
  lemma TransposeByEngine(c: ChannelState, t: I8)
    ensures Exec(M64, c, ChannelCmds.Transpose(t)) == Panic(Unhandled)
    ensures Exec(M64Play, c, ChannelCmds.Transpose(t)) == Ok(Step(c.(transposition := t), Continue))
  {
  }

  /** Playing the layers never fills or empties a slot, and leaves the slots
      before `j` as they were. */
  lemma {:induction false} LayersFromKeepsSlots(engine: Engine, slots: Slots, fetch: Layers.Decoder, fuel: nat, j: nat)
    requires j <= LAYERS_MAX
    requires LayersFrom(engine, slots, fetch, fuel, j).Ok?
    decreases LAYERS_MAX - j
    ensures var r := LayersFrom(engine, slots, fetch, fuel, j).value;
      forall k | 0 <= k < LAYERS_MAX :: (r[k].None? <==> slots[k].None?) && (k < j ==> r[k] == slots[k])
  {
    if j < LAYERS_MAX {
      match slots[j] {
        case None =>
          LayersFromKeepsSlots(engine, slots, fetch, fuel, j + 1);
        case Some(l) =>
          var l2 := Layers.ProcessLayer(engine, l, fetch, fuel).value;
          LayersFromKeepsSlots(engine, slots[j := Some(l2)], fetch, fuel, j + 1);
      }
    }
  }

  /** Layers that are all disabled (or absent) play as a no-op. */
  lemma {:induction false} IdleLayers(engine: Engine, slots: Slots, fetch: Layers.Decoder, fuel: nat, j: nat)
    requires j <= LAYERS_MAX
    requires forall k | j <= k < LAYERS_MAX :: slots[k].None? || !slots[k].value.enabled
    decreases LAYERS_MAX - j
    ensures LayersFrom(engine, slots, fetch, fuel, j) == Ok(slots)
  {
    if j < LAYERS_MAX {
      if slots[j].Some? {
        Layers.DisabledIsNoOp(engine, slots[j].value, fetch, fuel);
        assert slots[j := Some(slots[j].value)] == slots;
      }
      IdleLayers(engine, slots, fetch, fuel, j + 1);
    }
  }

  /** A fresh channel that is enabled plays its script from `addr` on the
      very next call, with no layers to play yet. */
  lemma EnabledChannelStartsAtOnce(engine: Engine, c: ChannelState, addr: U16, code: Code, fuel: nat)
    ensures var e := Enabled(c, addr);
      Script(engine, e, code.channel, fuel) == Run(engine, e, code.channel, fuel)
      && LayersTick(engine, e, code.layers, fuel) == Ok(e)
  {
    IdleLayers(engine, NO_LAYERS, Layers.Decoding(code.layers, c.largeNotes), fuel, 0);
  }

  // ---------------------------------------------------------------------
  // The channel object

  /** The value of one slot of the layer array. */
  ghost function SlotValue(l: Layers.SequenceLayer?): Option<Layers.LayerState>
    reads l
  {
    if l == null then None else Some(l.Value())
  }

  class SequenceChannel {
    var enabled: bool
    var finished: bool
    var stopScript: bool
    var largeNotes: bool
    var reverb: Byte
    var notePriority: Byte
    var delay: U16
    var transposition: I16
    var volume: Byte
    var pan: Byte
    var script: ScriptState
    const layers: array<Layers.SequenceLayer?>
    ghost var Repr: set<object>

    /** The four slots are distinct layer objects (each layer is owned by its box). */
    ghost predicate Valid()
      reads this, Repr
    {
      this in Repr && layers in Repr && DistinctLayers() && LayerObjects() <= Repr
    }

    ghost predicate DistinctLayers()
      reads layers
    {
      && layers.Length == LAYERS_MAX
      && (forall j, k | 0 <= j < LAYERS_MAX && 0 <= k < LAYERS_MAX && j != k :: layers[j] != null ==> layers[j] != layers[k])
    }

    /** The layer objects in the slots. */
    ghost function LayerObjects(): set<object>
      reads layers
    {
      set j | 0 <= j < layers.Length && layers[j] != null :: layers[j]
    }

    /** The four slots as values. */
    ghost function Slots(): Slots
      requires layers.Length == LAYERS_MAX
      reads layers, layers[0], layers[1], layers[2], layers[3]
    {
      [SlotValue(layers[0]), SlotValue(layers[1]), SlotValue(layers[2]), SlotValue(layers[3])]
    }

    ghost function Value(): ChannelState
      requires layers.Length == LAYERS_MAX
      reads this, layers, layers[0], layers[1], layers[2], layers[3]
    {
      ChannelState(enabled, finished, stopScript, largeNotes, reverb, notePriority, delay, transposition,
                   volume, pan, script, Slots())
    }

    constructor ()
      ensures Valid() && fresh(Repr)
      ensures Value() == NewChannel()
    {
      enabled, finished, stopScript, largeNotes := false, false, false, false;
      reverb, notePriority, delay, transposition := 0, NOTE_PRIORITY_DEFAULT, 0, 0;
      volume, pan := 127, 64;
      script := NewScript(0);
      layers := new Layers.SequenceLayer?[LAYERS_MAX](_ => null);
      new;
      Repr := {this, layers};
    }

    /** `process(player, data)`; the state after a fault is not specified. */
    method Process(engine: Engine, muted: bool, behavior: MuteBehavior, code: Code, fuel: nat) returns (fault: Option<Fault>)
      requires Valid()
      modifies Repr
      ensures Valid() && fresh(Repr - old(Repr))
      ensures ProcessChannel(engine, old(Value()), muted, behavior, code, fuel) ==
        (if fault.Some? then Panic(fault.value) else Ok(Value()))
    {
      if !enabled {
        return None;
      }
      if stopScript {
        fault := ProcessLayers(engine, code.layers, fuel);
        return;
      }
      if muted && behavior.stopScript {
        return None;
      }
      fault := ScriptTick(engine, code.channel, fuel);
      if fault.Some? {
        return;
      }
      fault := ProcessLayers(engine, code.layers, fuel);
    }

    /** The delay countdown of `process` and, once the delay is zero, the script loop. */
    method ScriptTick(engine: Engine, fetch: Decoder, fuel: nat) returns (fault: Option<Fault>)
      requires Valid()
      modifies this, layers
      ensures Valid() && fresh(Repr - old(Repr))
      ensures Script(engine, old(Value()), fetch, fuel) == (if fault.Some? then Panic(fault.value) else Ok(Value()))
    {
      if delay != 0 {
        delay := delay - 1;
      }
      if delay == 0 {
        fault := RunScript(engine, fetch, fuel);
      } else {
        fault := None;
      }
    }

    /** The closing loop of `process`. */
    method ProcessLayers(engine: Engine, code: Layers.LayerCode, fuel: nat) returns (fault: Option<Fault>)
      requires Valid()
      modifies LayerObjects()
      ensures Valid()
      ensures LayersTick(engine, old(Value()), code, fuel) ==
        (if fault.Some? then Panic(fault.value) else Ok(Value()))
    {
      var fetch := Layers.Decoding(code, largeNotes);
      var j := 0;
      while j < LAYERS_MAX
        invariant 0 <= j <= LAYERS_MAX
        invariant Valid()
        invariant LayersFrom(engine, old(Slots()), fetch, fuel, 0) ==
          LayersFrom(engine, Slots(), fetch, fuel, j)
      {
        fault := ProcessSlot(engine, fetch, fuel, j);
        if fault.Some? {
          return;
        }
        j := j + 1;
      }
      fault := None;
    }

    /** `process_layer(j, data)`: the layer in slot `j`, if any, plays, reading
        its script through `fetch`. */
    method ProcessSlot(engine: Engine, fetch: Layers.Decoder, fuel: nat, j: nat) returns (fault: Option<Fault>)
      requires Valid() && j < LAYERS_MAX
      modifies layers[j]
      ensures Valid()
      ensures fault.Some? ==> LayersFrom(engine, old(Slots()), fetch, fuel, j) == Panic(fault.value)
      ensures fault.None? ==>
        LayersFrom(engine, old(Slots()), fetch, fuel, j) == LayersFrom(engine, Slots(), fetch, fuel, j + 1)
    {
      var layer := layers[j];
      if layer == null {
        return None;
      }
      ghost var before := Slots();
      fault := layer.Process(engine, fetch, fuel);
      assert forall k | 0 <= k < LAYERS_MAX && k != j :: layers[k] != layer;
      assert Slots() == before[j := Some(layer.Value())];
    }

    /** The script loop of `process`. */
    method RunScript(engine: Engine, fetch: Decoder, fuel: nat) returns (fault: Option<Fault>)
      requires Valid()
      modifies this, layers
      ensures Valid() && fresh(Repr - old(Repr))
      ensures Run(engine, old(Value()), fetch, fuel) == (if fault.Some? then Panic(fault.value) else Ok(Value()))
    {
      var f: nat := fuel;
      while true
        invariant f <= fuel
        invariant Valid() && fresh(Repr - old(Repr))
        invariant Run(engine, Value(), fetch, f) == Run(engine, old(Value()), fetch, fuel)
        decreases f
      {
        if f == 0 {
          return Some(OutOfFuel);
        }
        var flow;
        fault, flow := Turn(engine, fetch, f);
        if fault.Some? || flow == Yield {
          return;
        }
        f := f - 1;
      }
    }

    /** One turn of the script loop: fetch, advance `pc`, execute. */
    method Turn(engine: Engine, fetch: Decoder, fuel: nat) returns (fault: Option<Fault>, flow: Flow)
      requires fuel > 0 && Valid()
      modifies this, layers
      ensures Valid() && fresh(Repr - old(Repr))
      ensures fault.Some? ==> Run(engine, old(Value()), fetch, fuel) == Panic(fault.value)
      ensures fault.None? && flow == Yield ==> Run(engine, old(Value()), fetch, fuel) == Ok(Value())
      ensures fault.None? && flow == Continue ==>
        Run(engine, old(Value()), fetch, fuel) == Run(engine, Value(), fetch, fuel - 1)
    {
      var fetched := fetch(script.pc);
      if fetched.Panic? {
        return Some(fetched.fault), Yield;
      }
      RunStep(engine, Value(), fetch, fuel, fetched.value);
      script := script.(pc := fetched.value.next);
      fault, flow := ExecCmd(engine, fetched.value.cmd);
    }

    /** One instruction: the arms of the match in `process`. */
    method ExecCmd(engine: Engine, cmd: ChannelCmds.ChannelCmd) returns (fault: Option<Fault>, flow: Flow)
      requires Valid()
      modifies this, layers
      ensures Valid() && fresh(Repr - old(Repr))
      ensures Exec(engine, old(Value()), cmd) == (if fault.Some? then Panic(fault.value) else Ok(Step(Value(), flow)))
    {
      if cmd.End? || cmd.Delay1? || cmd.Delay? {
        fault, flow := ExecControl(engine, cmd);
      } else if cmd.SetLayer? {
        fault, flow := ExecSetLayer(engine, cmd);
      } else if cmd.Transpose? || cmd.LargeNotesOn? || cmd.SetVol? {
        fault, flow := ExecSound(engine, cmd);
      } else if cmd.SetNotePriority? || cmd.SetPan? || cmd.SetReverb? || cmd.SetInstr? {
        fault, flow := ExecMix(engine, cmd);
      } else {
        fault, flow := Some(Unhandled), Continue;
      }
    }

    /** `End`, `Delay1` and `Delay`. */
    method ExecControl(engine: Engine, cmd: ChannelCmds.ChannelCmd) returns (fault: Option<Fault>, flow: Flow)
      requires cmd.End? || cmd.Delay1? || cmd.Delay?
      requires Valid()
      modifies this, layers
      ensures Valid() && fresh(Repr - old(Repr))
      ensures Exec(engine, old(Value()), cmd) == (if fault.Some? then Panic(fault.value) else Ok(Step(Value(), flow)))
    {
      fault, flow := None, Yield;
      if cmd.End? {
        if script.depth == 0 {
          enabled, finished := false, true;
        } else {
          script := Return(script);
          flow := Continue;
        }
      } else if cmd.Delay? {
        delay := cmd.ticks;
      }
    }

    /** `SetLayer`: slot `j` of a four-slot array. */
    method ExecSetLayer(engine: Engine, cmd: ChannelCmds.ChannelCmd) returns (fault: Option<Fault>, flow: Flow)
      requires cmd.SetLayer?
      requires Valid()
      modifies this, layers
      ensures Valid() && fresh(Repr - old(Repr))
      ensures Exec(engine, old(Value()), cmd) == (if fault.Some? then Panic(fault.value) else Ok(Step(Value(), flow)))
    {
      flow := Continue;
      if cmd.slot >= LAYERS_MAX {
        fault := Some(OutOfBounds);
      } else {
        SetLayer(cmd.slot, cmd.addr);
        fault := None;
      }
    }

    /** `Transpose`, `LargeNotesOn` and `SetVol`. */
    method ExecSound(engine: Engine, cmd: ChannelCmds.ChannelCmd) returns (fault: Option<Fault>, flow: Flow)
      requires cmd.Transpose? || cmd.LargeNotesOn? || cmd.SetVol?
      requires Valid()
      modifies this, layers
      ensures Valid() && fresh(Repr - old(Repr))
      ensures Exec(engine, old(Value()), cmd) == (if fault.Some? then Panic(fault.value) else Ok(Step(Value(), flow)))
    {
      fault, flow := None, Continue;
      if cmd.Transpose? {
        if engine == M64 {
          fault := Some(Unhandled);
        } else {
          transposition := cmd.semitones;
        }
      } else if cmd.LargeNotesOn? {
        largeNotes := true;
      } else {
        volume := cmd.val;
      }
    }

    /** `SetNotePriority`, `SetPan`, `SetReverb` and `SetInstr`. */
    method ExecMix(engine: Engine, cmd: ChannelCmds.ChannelCmd) returns (fault: Option<Fault>, flow: Flow)
      requires cmd.SetNotePriority? || cmd.SetPan? || cmd.SetReverb? || cmd.SetInstr?
      requires Valid()
      modifies this, layers
      ensures Valid() && fresh(Repr - old(Repr))
      ensures Exec(engine, old(Value()), cmd) == (if fault.Some? then Panic(fault.value) else Ok(Step(Value(), flow)))
    {
      fault, flow := None, Continue;
      if cmd.SetNotePriority? {
        notePriority := cmd.slot;
      } else if cmd.SetPan? {
        pan := cmd.val;
      } else if cmd.SetReverb? {
        reverb := cmd.val;
      }
    }

    /** `seq_channel_set_layer`: a new layer at `addr` in slot `j`. */
    method SetLayer(j: int, addr: U16)
      requires Valid() && 0 <= j < LAYERS_MAX
      modifies this, layers
      ensures Valid() && fresh(Repr - old(Repr))
      ensures Value() == old(Value()).(layers := old(Value()).layers[j := Some(Layers.NewLayer(addr))])
    {
      var layer := new Layers.SequenceLayer(addr);
      layers[j] := layer;
      Repr := Repr + {layer};
    }

    /** `sequence_channel_enable`: run the script from `addr`, with no layers. */
    method Enable(addr: U16)
      requires Valid()
      modifies this, layers
      ensures Valid() && Repr == old(Repr)
      ensures Value() == Enabled(old(Value()), addr)
    {
      enabled, finished := true, false;
      script := script.(depth := 0, pc := addr);
      delay := 0;
      forall j | 0 <= j < LAYERS_MAX {
        layers[j] := null;
      }
    }
  }

  /** One turn of the script loop: fetch, then execute; a yield ends the run. */
  lemma RunStep(engine: Engine, c: ChannelState, fetch: Decoder, fuel: nat, fetched: Fetched)
    requires fuel > 0 && fetch(c.script.pc) == Ok(fetched)
    ensures var e := Exec(engine, c.(script := c.script.(pc := fetched.next)), fetched.cmd);
      Run(engine, c, fetch, fuel) ==
        match e
        case Panic(f) => Panic(f)
        case Ok(step) => if step.flow == Yield then Ok(step.state) else Run(engine, step.state, fetch, fuel - 1)
  {
  }
}
