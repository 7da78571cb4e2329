/** Constants and flags shared by the three tiers of the sequence interpreter
    (m64/src/state.rs:1-26, m64play/src/state.rs:8-34). The repository holds
    two copies of the interpreter; `Engine` says which one is meant wherever
    they differ. */
module Engines {
  import opened Bytes

  /** `M64` is m64/src/state.rs; `M64Play` is m64play/src/state/. */
  datatype Engine = M64 | M64Play

  const CHANNELS_MAX: nat := 16
  const LAYERS_MAX: nat := 4
  const TATUMS_PER_BEAT: nat := 48
  const TEMPO_SCALE: nat := TATUMS_PER_BEAT
  const FREQUENCY: nat := 32000
  const SAMPLES_PER_FRAME_TARGET: nat := FREQUENCY / 60
  const UPDATES_PER_FRAME: nat := SAMPLES_PER_FRAME_TARGET / 160 + 1
  /** The tempo threshold: the integer part of
      `UPDATES_PER_FRAME * 2_880_000 / TATUMS_PER_BEAT / 16.713`. */
  const TEMPO_INTERNAL_TO_EXTERNAL: nat := 14360
  const NOTE_PRIORITY_DEFAULT: Byte := 3
  /** The largest tempo `SetTempo` can store: 255 beats per minute, scaled. */
  const MAX_SET_TEMPO: nat := 255 * TEMPO_SCALE

  /** The threshold is the truncated quotient, with 16.713 written as 16713/1000;
      the quotient's fractional part (about 0.07) leaves room for the rounding
      of the single-precision computation. */
  lemma TempoThreshold()
    ensures UPDATES_PER_FRAME == 4
    ensures TEMPO_INTERNAL_TO_EXTERNAL * 16713 <= UPDATES_PER_FRAME * 2_880_000 * 1000 / TATUMS_PER_BEAT
    ensures UPDATES_PER_FRAME * 2_880_000 * 1000 / TATUMS_PER_BEAT < (TEMPO_INTERNAL_TO_EXTERNAL + 1) * 16713
    ensures TEMPO_INTERNAL_TO_EXTERNAL < 0x1_0000
  {
  }

  /** The `MuteBehavior` bit set: STOP_SCRIPT is 0x80, STOP_NOTES 0x40, SOFTEN 0x20. */
  datatype MuteBehavior = MuteBehavior(stopScript: bool, stopNotes: bool, soften: bool)

  /** `MuteBehavior::all()`. */
  const ALL_MUTE: MuteBehavior := MuteBehavior(true, true, true)

  /** `MuteBehavior::from_bits_truncate`: unknown bits are dropped. */
  function FromBitsTruncate(b: Byte): MuteBehavior
  {
    MuteBehavior(b >= 0x80, b % 0x80 >= 0x40, b % 0x40 >= 0x20)
  }

  /** `MuteBehavior::bits`. */
  function Bits(m: MuteBehavior): (b: Byte)
    ensures b % 0x20 == 0
  {
    (if m.stopScript then 0x80 else 0) + (if m.stopNotes then 0x40 else 0) + (if m.soften then 0x20 else 0)
  }

  /** Truncation keeps exactly the three known bits, every flag set survives
      the trip through its bits, and `all()` is 0xe0. */
  lemma MuteBitsRoundTrip(b: Byte, m: MuteBehavior)
    ensures Bits(FromBitsTruncate(b)) == b - b % 0x20
    ensures FromBitsTruncate(Bits(m)) == m
    ensures Bits(ALL_MUTE) == 0xe0
  {
  }
}

/** `ScriptState`: the program counter, the four-entry return stack, the four
    loop counters and the nesting depth every tier carries
    (m64/src/state.rs:28-45, m64play/src/state.rs:36-53), and the stack
    operations the three interpreters share. */
module Scripts {
  import opened Bytes
  import opened Outcomes

  type Stack = s: seq<U16> | |s| == 4 witness [0, 0, 0, 0]
  type Counters = s: seq<Byte> | |s| == 4 witness [0, 0, 0, 0]
  /** `depth` is a `usize`; every operation keeps it at most 4. */
  type Depth = d: int | 0 <= d <= 4

  datatype ScriptState = ScriptState(pc: U16, stack: Stack, remLoopIters: Counters, depth: Depth)

  /** Whether the script loop goes on to the next instruction or stops for this call. */
  datatype Flow = Continue | Yield

  /** `ScriptState::new(pc)`. */
  function NewScript(pc: U16): (s: ScriptState)
    ensures s.pc == pc && s.depth == 0
    ensures forall i | 0 <= i < 4 :: s.stack[i] == 0 && s.remLoopIters[i] == 0
  {
    ScriptState(pc, [0, 0, 0, 0], [0, 0, 0, 0], 0)
  }

  /** `pc += size as u16`, which panics past 0xffff. */
  function Advance(pc: U16, size: nat): (r: Outcome<U16>)
    ensures r.Ok? <==> pc + size < 0x1_0000
    ensures r.Ok? ==> r.value == pc + size
    ensures r.Panic? ==> r.fault == Overflow
  {
    if pc + size < 0x1_0000 then Ok(pc + size) else Panic(Overflow)
  }

  /** `Call(addr)`: push the return address and jump; `stack[4]` is out of bounds. */
  function Call(s: ScriptState, addr: U16): (r: Outcome<ScriptState>)
    ensures s.depth == 4 <==> r == Panic(OutOfBounds)
    ensures r.Ok? ==> (r.value.pc == addr && r.value.depth == s.depth + 1
      && r.value.stack == s.stack[s.depth := s.pc] && r.value.remLoopIters == s.remLoopIters)
  {
    if s.depth == 4 then Panic(OutOfBounds)
    else Ok(ScriptState(addr, s.stack[s.depth := s.pc], s.remLoopIters, s.depth + 1))
  }

  /** `Loop(count)`: store the count, push the loop start (the current `pc`). */
  function LoopStart(s: ScriptState, count: Byte): (r: Outcome<ScriptState>)
    ensures s.depth == 4 <==> r == Panic(OutOfBounds)
    ensures r.Ok? ==> (r.value.pc == s.pc && r.value.depth == s.depth + 1
      && r.value.stack == s.stack[s.depth := s.pc] && r.value.remLoopIters == s.remLoopIters[s.depth := count])
  {
    if s.depth == 4 then Panic(OutOfBounds)
    else Ok(ScriptState(s.pc, s.stack[s.depth := s.pc], s.remLoopIters[s.depth := count], s.depth + 1))
  }

  /** `LoopEnd`: decrement the innermost counter with wrap-around; jump back
      while it is non-zero, otherwise leave the loop. At depth 0 the index
      `depth - 1` underflows. */
  function LoopEnd(s: ScriptState): (r: Outcome<ScriptState>)
    ensures s.depth == 0 <==> r == Panic(Overflow)
  {
    if s.depth == 0 then Panic(Overflow)
    else
      var d := s.depth - 1;
      var n := (s.remLoopIters[d] as int + 0xff) % 0x100;
      var iters := s.remLoopIters[d := n];
      if n != 0 then Ok(ScriptState(s.stack[d], s.stack, iters, s.depth))
      else Ok(ScriptState(s.pc, s.stack, iters, d))
  }

  /** `End` below the top level: pop and resume at the saved address. */
  function Return(s: ScriptState): (r: ScriptState)
    requires s.depth > 0
    ensures r.depth == s.depth - 1 && r.pc == s.stack[s.depth - 1]
    ensures r.stack == s.stack && r.remLoopIters == s.remLoopIters
  {
    s.(depth := s.depth - 1, pc := s.stack[s.depth - 1])
  }

  /** A call followed by its `End` resumes right after the call at the caller's depth. */
  lemma CallThenReturn(s: ScriptState, addr: U16)
    requires s.depth < 4
    ensures Call(s, addr).Ok?
    ensures Return(Call(s, addr).value).pc == s.pc
    ensures Return(Call(s, addr).value).depth == s.depth
  {
  }

  /** How many times `Loop(count)` runs its body: `count`, or 256 for 0. */
  function Iterations(count: Byte): nat
  {
    if count == 0 then 256 else count
  }

  /** `k` consecutive `LoopEnd`s, each reached with an otherwise unchanged stack. */
  function LoopEnds(s: ScriptState, k: nat): Outcome<ScriptState>
  {
    if k == 0 then Ok(s)
    else match LoopEnds(s, k - 1)
      case Ok(t) => LoopEnd(t)
      case Panic(f) => Panic(f)
  }

  /** After `Loop(count)` the first `Iterations(count) - 1` `LoopEnd`s jump
      back to the loop start and the next one leaves the loop, restoring the
      depth: the body runs `count` times, or 256 times for `Loop(0)`. */
  lemma {:induction false} LoopRunsBody(s: ScriptState, count: Byte, k: nat)
    requires s.depth < 4
    requires 1 <= k <= Iterations(count)
    ensures var t := LoopStart(s, count).value;
      var r := LoopEnds(t, k);
      && r.Ok?
      && (k < Iterations(count) ==>
            r.value.pc == s.pc && r.value.depth == s.depth + 1
            && r.value.remLoopIters[s.depth] == Iterations(count) - k
            && r.value.stack == t.stack)
      && (k == Iterations(count) ==>
            r.value.depth == s.depth && r.value.pc == s.pc && r.value.remLoopIters[s.depth] == 0)
  {
    var t := LoopStart(s, count).value;
    if k == 1 {
      assert LoopEnds(t, 0) == Ok(t);
    } else {
      LoopRunsBody(s, count, k - 1);
    }
  }
}
