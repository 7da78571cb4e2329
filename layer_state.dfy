/** The layer tier of the interpreter: `SequenceLayer` (m64/src/state.rs:452-601,
    m64play/src/state/layer.rs). A layer plays notes: its script sets a
    delay and a note duration, and while the delay runs it only counts down. */
module Layers {
  import opened Bytes
  import opened Outcomes
  import opened Scripts
  import opened Engines
  import LayerCmds

  /** The play percentage a note stores: a variable-length operand, so below 0x8000. */
  type Percentage = U15

  datatype LayerState = LayerState(
    enabled: bool,
    finished: bool,
    stopSomething: bool,
    continuousNotes: bool,
    noteDuration: Byte,
    transposition: I16,
    /** `velocity_square`: the square of the last note's velocity (exact in `f32`). */
    velocitySquare: nat,
    playPercentage: Option<Percentage>,
    delay: I16,
    duration: I16,
    delayUnused: I16,
    script: ScriptState,
    pitch: Option<Byte>)

  /** `SequenceLayer::new(addr, _)`. */
  function NewLayer(addr: U16): (l: LayerState)
    ensures l.enabled && !l.finished && !l.stopSomething && !l.continuousNotes
    ensures l.script == NewScript(addr) && l.noteDuration == 0x80
    ensures l.delay == 0 && l.duration == 0 && l.delayUnused == 0 && l.transposition == 0
    ensures l.velocitySquare == 0 && l.playPercentage == None && l.pitch == None
  {
    LayerState(true, false, false, false, 0x80, 0, 0, None, 0, 0, 0, NewScript(addr), None)
  }

  datatype Step = Step(state: LayerState, flow: Flow)

  /** `duration = note_duration * percentage / 256`: in `i16` with an overflow
      panic in the m64 copy, in `u32` narrowed to `i16` in the m64play copy. */
  function NoteDuration(engine: Engine, nd: Byte, pct: Percentage): (r: Outcome<I16>)
    ensures engine == M64Play ==> r == Ok(nd * pct / 256)
    ensures engine == M64 ==> (r.Ok? <==> nd * pct < 0x8000)
    ensures r.Ok? ==> r.value == nd * pct / 256
    ensures r.Panic? ==> r == Panic(Overflow)
  {
    if engine == M64 && nd * pct >= 0x8000 then Panic(Overflow)
    else
      DurationWithinDelay(nd, pct);
      Ok(nd * pct / 256)
  }

  /** `velocity_square = velocity * velocity`, the velocity read as a fraction squared. */
  function Square(v: Byte): nat
  {
    v * v
  }

  /** One instruction of the layer script (the match in `process`). */
  function Exec(engine: Engine, l: LayerState, cmd: LayerCmds.LayerCmd): Outcome<Step>
  {
    match cmd
    case End =>
      if l.script.depth == 0 then Ok(Step(l.(enabled := false), Yield))
      else Ok(Step(l.(script := Return(l.script)), Continue))
    case Delay(d) => Ok(Step(l.(delay := d, stopSomething := true), Yield))
    case Call(addr) =>
      if engine == M64 then Panic(Unhandled)
      else (match Scripts.Call(l.script, addr)
        case Ok(s) => Ok(Step(l.(script := s), Continue))
        case Panic(f) => Panic(f))
    case Transpose(t) =>
      if engine == M64 then Panic(Unhandled)
      else Ok(Step(l.(transposition := t), Continue))
    case Note0(pitch, pct, velocity, nd) => Sound(engine, l, pitch, pct, velocity, nd)
    case Note1(pitch, pct, velocity) =>
      Ok(Step(l.(noteDuration := 0, playPercentage := Some(pct), velocitySquare := Square(velocity),
                 delay := pct, duration := 0, pitch := Some(pitch)), Yield))
    case Note2(pitch, velocity, nd) =>
      if l.playPercentage.None? then Panic(UnwrapNone)
      else Sound(engine, l, pitch, l.playPercentage.value, velocity, nd)
    case _ => Panic(Unhandled)
  }

  /** The common part of `Note0` and `Note2`: a note of `pct` ticks whose
      first `NoteDuration` ticks sound. (`Note2` stores the percentage it
      reuses, which leaves `playPercentage` as it was.) */
  function Sound(engine: Engine, l: LayerState, pitch: Byte, pct: Percentage, velocity: Byte, nd: Byte): Outcome<Step>
  {
    match NoteDuration(engine, nd, pct)
    case Ok(d) => Ok(Step(l.(stopSomething := false, noteDuration := nd, playPercentage := Some(pct),
                              velocitySquare := Square(velocity), delay := pct, duration := d,
                              pitch := Some(pitch)), Yield))
    case Panic(f) => Panic(f)
  }

  datatype Fetched = Fetched(cmd: LayerCmds.LayerCmd, next: U16)

  /** Decode the instruction at `pc` (`data[pc..]`) and advance `pc` past it. */
  function Fetch(pc: U16, largeNotes: bool, data: seq<Byte>): (r: Outcome<Fetched>)
    ensures pc > |data| ==> r == Panic(OutOfBounds)
    ensures r.Ok? ==> pc < r.value.next <= |data|
  {
    if pc > |data| then Panic(OutOfBounds)
    else match LayerCmds.Read(data[pc..], largeNotes)
      case Panic(f) => Panic(f)
      case Ok(d) =>
        match Advance(pc, d.size)
        case Ok(next) => Ok(Fetched(d.cmd, next))
        case Panic(f) => Panic(f)
  }

  /** The instruction at each `pc`: the script loop sees its bytecode only through this. */
  type Decoder = U16 -> Outcome<Fetched>

  /** The decoder of a layer script: `data` read with the channel's note mode. */
  function FetchAt(largeNotes: bool, data: seq<Byte>): Decoder
  {
    (pc: U16) => Fetch(pc, largeNotes, data)
  }

  /** The two readings of one layer script buffer, by note mode. */
  datatype LayerCode = LayerCode(small: Decoder, large: Decoder)

  /** The reading a channel with the given note mode applies. */
  function Decoding(code: LayerCode, largeNotes: bool): Decoder
  {
    if largeNotes then code.large else code.small
  }

  /** Both readings of `data`. */
  function LayerCodeAt(data: seq<Byte>): LayerCode
  {
    LayerCode(FetchAt(false, data), FetchAt(true, data))
  }

  /** The script loop, bounded by `fuel` instructions. */
  function Run(engine: Engine, l: LayerState, fetch: Decoder, fuel: nat): Outcome<LayerState>
    decreases fuel
  {
    if fuel == 0 then Panic(OutOfFuel)
    else match fetch(l.script.pc)
      case Panic(f) => Panic(f)
      case Ok(fetched) =>
        match Exec(engine, l.(script := l.script.(pc := fetched.next)), fetched.cmd)
        case Panic(f) => Panic(f)
        case Ok(step) =>
          if step.flow == Yield then Ok(step.state)
          else Run(engine, step.state, fetch, fuel - 1)
  }

  /** The countdown while a delay runs: once the delay reaches the note's
      duration the note is released (stop flag set, pitch cleared). */
  function Countdown(l: LayerState): (r: LayerState)
    requires l.delay > 1
    ensures r.delay == l.delay - 1
    ensures r == l.(delay := r.delay, stopSomething := r.stopSomething, pitch := r.pitch)
    ensures (!l.stopSomething && r.delay <= l.duration) ==> r.stopSomething && r.pitch == None
    ensures !(!l.stopSomething && r.delay <= l.duration) ==> r == l.(delay := l.delay - 1)
  {
    var d := l.delay - 1;
    if !l.stopSomething && d <= l.duration then l.(delay := d, stopSomething := true, pitch := None)
    else l.(delay := d)
  }

  /** `SequenceLayer::process(channel, data)`; `fetch` reads `data` with the
      channel's note mode (`Decoding(LayerCodeAt(data), largeNotes)`). */
  function ProcessLayer(engine: Engine, l: LayerState, fetch: Decoder, fuel: nat): Outcome<LayerState>
  {
    if !l.enabled then Ok(l)
    else if l.delay > 1 then Ok(Countdown(l))
    else Run(engine, l, fetch, fuel)
  }

  // ---------------------------------------------------------------------
  // Properties

  /** A disabled layer is left exactly as it is. */
  lemma DisabledIsNoOp(engine: Engine, l: LayerState, fetch: Decoder, fuel: nat)
    requires !l.enabled
    ensures ProcessLayer(engine, l, fetch, fuel) == Ok(l)
  {
  }

  /** `k` calls of `process` in a row. */
  function ProcessN(engine: Engine, l: LayerState, fetch: Decoder, fuel: nat, k: nat): Outcome<LayerState>
  {
    if k == 0 then Ok(l)
    else match ProcessN(engine, l, fetch, fuel, k - 1)
      case Ok(m) => ProcessLayer(engine, m, fetch, fuel)
      case Panic(f) => Panic(f)
  }

  /** An enabled layer with delay `d > 1` spends the next `d - 1` calls only
      counting down, without touching its script, and the note it plays is
      released exactly when the delay first falls to its duration. */
  lemma {:induction false} DelayCountsDown(engine: Engine, l: LayerState, fetch: Decoder, fuel: nat, k: nat)
    requires l.enabled && k < l.delay
    ensures var r := ProcessN(engine, l, fetch, fuel, k);
      && r.Ok?
      && r.value.delay == l.delay - k
      && r.value.script == l.script
      && r.value.enabled
      && r.value.noteDuration == l.noteDuration && r.value.duration == l.duration
      && (r.value.stopSomething <==> l.stopSomething || (k > 0 && l.delay - k <= l.duration))
      && (r.value.pitch == if r.value.stopSomething && !l.stopSomething then None else l.pitch)
  {
    if k > 0 {
      DelayCountsDown(engine, l, fetch, fuel, k - 1);
    }
  }

  /** `Note0` starts a note lasting `percentage` ticks, of which the first
      `duration = note_duration * percentage / 256` sound; the m64 copy
      faults when the `i16` product overflows, the m64play copy never does
      and its duration never exceeds the delay. */
  lemma Note0Timing(engine: Engine, l: LayerState, pitch: Byte, pct: Percentage, velocity: Byte, nd: Byte)
    ensures var r := Exec(engine, l, LayerCmds.Note0(pitch, pct, velocity, nd));
      && (engine == M64 && nd * pct >= 0x8000 ==> r == Panic(Overflow))
      && (engine == M64Play || nd * pct < 0x8000 ==>
            r.Ok? && r.value.flow == Yield
            && r.value.state.delay == pct && r.value.state.duration == nd * pct / 256
            && 0 <= r.value.state.duration <= r.value.state.delay
            && r.value.state.playPercentage == Some(pct)
            && r.value.state.pitch == Some(pitch) && !r.value.state.stopSomething
            && r.value.state.velocitySquare == velocity * velocity
            && r.value.state.script == l.script)
  {
    DurationWithinDelay(nd, pct);
  }

  /** The sounding part of a note never exceeds its delay. */
  lemma DurationWithinDelay(nd: Byte, pct: Percentage)
    ensures 0 <= nd * pct / 256 <= pct
  {
    MulBound(nd, pct);
    DivBound(nd * pct, pct);
  }

  lemma MulBound(a: nat, b: nat)
    requires a <= 256
    ensures a * b <= 256 * b
  {
  }

  lemma DivBound(x: nat, b: nat)
    requires x <= 256 * b
    ensures x / 256 <= b
  {
  }

  /** A worked case: note duration 0x80 and percentage 128 give a 128-tick
      delay with a 64-tick sounding part, in both copies. */
  lemma Note0Example(engine: Engine, l: LayerState)
    ensures var r := Exec(engine, l, LayerCmds.Note0(60, 128, 100, 0x80));
      r.Ok? && r.value.state.delay == 128 && r.value.state.duration == 64
  {
  }

  /** In the m64 copy the product is an `i16`: e.g. 255 * 200 overflows. */
  lemma Note0OverflowExample(l: LayerState)
    ensures Exec(M64, l, LayerCmds.Note0(60, 200, 100, 255)) == Panic(Overflow)
    ensures Exec(M64Play, l, LayerCmds.Note0(60, 200, 100, 255)).Ok?
  {
  }

  /** `Note2` reuses the stored play percentage and panics when no note has stored one. */
  lemma Note2NeedsPercentage(engine: Engine, l: LayerState, pitch: Byte, velocity: Byte, nd: Byte)
    ensures l.playPercentage.None? ==> Exec(engine, l, LayerCmds.Note2(pitch, velocity, nd)) == Panic(UnwrapNone)
    ensures l.playPercentage.Some? && engine == M64Play ==>
      var r := Exec(engine, l, LayerCmds.Note2(pitch, velocity, nd));
      r.Ok? && r.value.state.delay == l.playPercentage.value
      && r.value.state.playPercentage == l.playPercentage
  {
  }

  /** `Note1` has no sounding duration and leaves the stop flag alone. */
  lemma Note1Timing(engine: Engine, l: LayerState, pitch: Byte, pct: Percentage, velocity: Byte)
    ensures var r := Exec(engine, l, LayerCmds.Note1(pitch, pct, velocity));
      r.Ok? && r.value.state.delay == pct && r.value.state.duration == 0
      && r.value.state.noteDuration == 0 && r.value.state.stopSomething == l.stopSomething
  {
  }

  /** `Delay` sets the stop flag and yields; `End` at the top level disables
      the layer, which makes every later call a no-op. */
  lemma DelayAndEnd(engine: Engine, l: LayerState, d: U15)
    ensures Exec(engine, l, LayerCmds.Delay(d)) == Ok(Step(l.(delay := d, stopSomething := true), Yield))
    ensures l.script.depth == 0 ==> Exec(engine, l, LayerCmds.End) == Ok(Step(l.(enabled := false), Yield))
    ensures l.script.depth > 0 ==>
      Exec(engine, l, LayerCmds.End) == Ok(Step(l.(script := Return(l.script)), Continue))
  {
  }

  /** Only the m64play copy has `Call` and `Transpose` arms; its `Call` at
      depth 4 indexes past the stack. */
  lemma CallAndTransposeByEngine(l: LayerState, addr: U16, t: Byte)
    ensures Exec(M64, l, LayerCmds.Call(addr)) == Panic(Unhandled)
    ensures Exec(M64, l, LayerCmds.Transpose(t)) == Panic(Unhandled)
    ensures l.script.depth == 4 ==> Exec(M64Play, l, LayerCmds.Call(addr)) == Panic(OutOfBounds)
    ensures l.script.depth < 4 ==> Exec(M64Play, l, LayerCmds.Call(addr)).Ok?
    ensures Exec(M64Play, l, LayerCmds.Transpose(t)) == Ok(Step(l.(transposition := t), Continue))
  {
  }

  /** A script run ends in a yield: a disabled layer, a delay or a note, and
      never with a note whose pitch is out of the 64-note range. */
  lemma {:induction false} RunEndsInYield(engine: Engine, l: LayerState, largeNotes: bool, data: seq<Byte>, fuel: nat)
    requires Run(engine, l, FetchAt(largeNotes, data), fuel).Ok?
    requires l.pitch.None? || l.pitch.value < 0x40
    decreases fuel
    ensures var r := Run(engine, l, FetchAt(largeNotes, data), fuel).value;
      (!r.enabled || r.stopSomething || r.pitch.Some?)
      && (r.pitch.None? || r.pitch.value < 0x40)
  {
    var fetched := Fetch(l.script.pc, largeNotes, data).value;
    var l1 := l.(script := l.script.(pc := fetched.next));
    FetchedPitch(l.script.pc, largeNotes, data);
    ExecYields(engine, l1, fetched.cmd);
    var step := Exec(engine, l1, fetched.cmd).value;
    if step.flow == Continue {
      RunEndsInYield(engine, step.state, largeNotes, data, fuel - 1);
    }
  }

  /** An instruction that yields has disabled the layer, set a delay or started
      a note; the pitch it leaves is the note's or the one already there. */
  lemma ExecYields(engine: Engine, l: LayerState, cmd: LayerCmds.LayerCmd)
    requires Exec(engine, l, cmd).Ok?
    ensures var step := Exec(engine, l, cmd).value;
      && (step.flow == Yield ==> !step.state.enabled || step.state.stopSomething || step.state.pitch.Some?)
      && (step.state.pitch == l.pitch || ((cmd.Note0? || cmd.Note1? || cmd.Note2?) && step.state.pitch == Some(cmd.pitch)))
  {
  }

  /** One turn of the script loop: fetch, then execute; a yield ends the run. */
  lemma RunStep(engine: Engine, l: LayerState, fetch: Decoder, fuel: nat, fetched: Fetched)
    requires fuel > 0 && fetch(l.script.pc) == Ok(fetched)
    ensures var e := Exec(engine, l.(script := l.script.(pc := fetched.next)), fetched.cmd);
      Run(engine, l, fetch, fuel) ==
        match e
        case Panic(f) => Panic(f)
        case Ok(step) => if step.flow == Yield then Ok(step.state) else Run(engine, step.state, fetch, fuel - 1)
  {
  }

  /** In small-notes mode the layer fetches with the decoder as written: an
      opcode below 0x40 whose operand selects the `SmallNote1` arm panics on
      the pitch subtraction. */
  lemma SmallNoteFetchOverflows(pc: U16, data: seq<Byte>)
    requires pc as int + 2 <= |data| && data[pc] < 0x40 && 0x40 <= data[pc + 1] < 0x80
    ensures Fetch(pc, false, data) == Panic(Overflow)
  {
    assert data[pc..][0] == data[pc] && data[pc..][1] == data[pc + 1];
  }

  /** Every large note the decoder produces has a pitch below 64. */
  lemma FetchedPitch(pc: U16, largeNotes: bool, data: seq<Byte>)
    requires Fetch(pc, largeNotes, data).Ok?
    ensures var c := Fetch(pc, largeNotes, data).value.cmd;
      (c.Note0? || c.Note1? || c.Note2?) ==> c.pitch < 0x40
  {
  }

  // ---------------------------------------------------------------------
  // The layer object

  class SequenceLayer {
    var enabled: bool
    var finished: bool
    var stopSomething: bool
    var continuousNotes: bool
    var noteDuration: Byte
    var transposition: I16
    var velocitySquare: nat
    var playPercentage: Option<Percentage>
    var delay: I16
    var duration: I16
    var delayUnused: I16
    var script: ScriptState
    var pitch: Option<Byte>

    ghost function Value(): LayerState
      reads this
    {
      LayerState(enabled, finished, stopSomething, continuousNotes, noteDuration, transposition,
                 velocitySquare, playPercentage, delay, duration, delayUnused, script, pitch)
    }

    constructor (addr: U16)
      ensures Value() == NewLayer(addr)
    {
      enabled := true;
      finished := false;
      stopSomething := false;
      continuousNotes := false;
      noteDuration := 0x80;
      transposition := 0;
      velocitySquare := 0;
      playPercentage := None;
      delay := 0;
      duration := 0;
      delayUnused := 0;
      script := NewScript(addr);
      pitch := None;
    }

    /** `process`: returns the fault a panic would raise, if any; the state
        after a fault is not specified. */
    method Process(engine: Engine, fetch: Decoder, fuel: nat) returns (fault: Option<Fault>)
      modifies this
      ensures ProcessLayer(engine, old(Value()), fetch, fuel) ==
        (if fault.Some? then Panic(fault.value) else Ok(Value()))
    {
      if !enabled {
        return None;
      }
      if delay > 1 {
        delay := delay - 1;
        if !stopSomething && delay <= duration {
          stopSomething := true;
          pitch := None;
        }
        return None;
      }
      fault := RunScript(engine, fetch, fuel);
    }

    /** The script loop of `process`. */
    method RunScript(engine: Engine, fetch: Decoder, fuel: nat) returns (fault: Option<Fault>)
      modifies this
      ensures Run(engine, old(Value()), fetch, fuel) ==
        (if fault.Some? then Panic(fault.value) else Ok(Value()))
    {
      var f: nat := fuel;
      while true
        invariant f <= fuel
        invariant Run(engine, Value(), fetch, f) == Run(engine, old(Value()), fetch, fuel)
        decreases f
      {
        if f == 0 {
          return Some(OutOfFuel);
        }
        var flow;
        fault, flow := Turn(engine, fetch, f);
        if fault.Some? || flow == Yield {
          return;
        }
        f := f - 1;
      }
    }

    /** One turn of the script loop: fetch the instruction at `pc`, advance
        `pc` past it and execute it. */
    method Turn(engine: Engine, fetch: Decoder, fuel: nat) returns (fault: Option<Fault>, flow: Flow)
      requires fuel > 0
      modifies this
      ensures fault.Some? ==> Run(engine, old(Value()), fetch, fuel) == Panic(fault.value)
      ensures fault.None? && flow == Yield ==> Run(engine, old(Value()), fetch, fuel) == Ok(Value())
      ensures fault.None? && flow == Continue ==>
        Run(engine, old(Value()), fetch, fuel) == Run(engine, Value(), fetch, fuel - 1)
    {
      var fetched := fetch(script.pc);
      if fetched.Panic? {
        return Some(fetched.fault), Yield;
      }
      RunStep(engine, Value(), fetch, fuel, fetched.value);
      script := script.(pc := fetched.value.next);
      fault, flow := ExecCmd(engine, fetched.value.cmd);
    }

    /** One instruction: the arms of the match in `process`. */
    method ExecCmd(engine: Engine, cmd: LayerCmds.LayerCmd) returns (fault: Option<Fault>, flow: Flow)
      modifies this
      ensures Exec(engine, old(Value()), cmd) ==
        (if fault.Some? then Panic(fault.value) else Ok(Step(Value(), flow)))
    {
      if cmd.End? || cmd.Delay? || cmd.Call? || cmd.Transpose? {
        fault, flow := ExecControl(engine, cmd);
      } else if cmd.Note0? || cmd.Note2? {
        fault, flow := ExecNote(engine, cmd);
      } else if cmd.Note1? {
        fault, flow := ExecNote1(engine, cmd);
      } else {
        fault, flow := Some(Unhandled), Continue;
      }
    }

    /** `End`, `Delay`, `Call` and `Transpose`. */
    method ExecControl(engine: Engine, cmd: LayerCmds.LayerCmd) returns (fault: Option<Fault>, flow: Flow)
      requires cmd.End? || cmd.Delay? || cmd.Call? || cmd.Transpose?
      modifies this
      ensures Exec(engine, old(Value()), cmd) ==
        (if fault.Some? then Panic(fault.value) else Ok(Step(Value(), flow)))
    {
      fault, flow := None, Continue;
      if cmd.End? {
        if script.depth == 0 {
          enabled := false;
          flow := Yield;
        } else {
          script := Return(script);
        }
      } else if cmd.Delay? {
        delay := cmd.ticks;
        stopSomething := true;
        flow := Yield;
      } else if cmd.Call? {
        if engine == M64 || script.depth == 4 {
          fault := Some(if engine == M64 then Unhandled else OutOfBounds);
        } else {
          script := ScriptState(cmd.addr, script.stack[script.depth := script.pc], script.remLoopIters, script.depth + 1);
        }
      } else {
        if engine == M64 {
          fault := Some(Unhandled);
        } else {
          transposition := cmd.semitones;
        }
      }
    }

    /** `Note0` and `Note2`, which compute a sounding duration. */
    method ExecNote(engine: Engine, cmd: LayerCmds.LayerCmd) returns (fault: Option<Fault>, flow: Flow)
      requires cmd.Note0? || cmd.Note2?
      modifies this
      ensures Exec(engine, old(Value()), cmd) ==
        (if fault.Some? then Panic(fault.value) else Ok(Step(Value(), flow)))
    {
      flow := Yield;
      if cmd.Note0? {
        fault := SoundNote(engine, cmd.pitch, cmd.percentage, cmd.velocity, cmd.duration);
      } else if playPercentage.None? {
        fault := Some(UnwrapNone);
      } else {
        fault := SoundNote(engine, cmd.pitch, playPercentage.value, cmd.velocity, cmd.duration);
      }
    }

    /** `Note1`: a note without a sounding duration. */
    method ExecNote1(engine: Engine, cmd: LayerCmds.LayerCmd) returns (fault: Option<Fault>, flow: Flow)
      requires cmd.Note1?
      modifies this
      ensures Exec(engine, old(Value()), cmd) ==
        (if fault.Some? then Panic(fault.value) else Ok(Step(Value(), flow)))
    {
      noteDuration := 0;
      playPercentage := Some(cmd.percentage);
      velocitySquare := Square(cmd.velocity);
      delay := cmd.percentage;
      duration := 0;
      pitch := Some(cmd.pitch);
      fault, flow := None, Yield;
    }

    /** `Note0`, and `Note2` with the stored percentage. */
    method SoundNote(engine: Engine, p: Byte, pct: Percentage, velocity: Byte, nd: Byte) returns (fault: Option<Fault>)
      modifies this
      ensures Sound(engine, old(Value()), p, pct, velocity, nd) ==
        (if fault.Some? then Panic(fault.value) else Ok(Step(Value(), Yield)))
    {
      var d := NoteDuration(engine, nd, pct);
      if d.Panic? {
        return Some(d.fault);
      }
      stopSomething := false;
      noteDuration := nd;
      playPercentage := Some(pct);
      velocitySquare := Square(velocity);
      delay := pct;
      duration := d.value;
      pitch := Some(p);
      fault := None;
    }
  }
}
