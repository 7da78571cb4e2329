/** The chunk bodies the AIFF reader knows: common (COMM), instrument
    (INST), marker (MARK) and sound data (SSND). */
module AiffChunks {
  import opened Bytes
  import Outcomes
  import opened AiffTypes

  // ---------------------------------------------------------------------
  // COMM

  /** The common chunk; the sample rate is the bit pattern of an `f64`. */
  datatype CommonChunk = CommonChunk(
    numChannels: U16,
    numSampleFrames: U32,
    sampleSize: U16,
    sampleRate: U64)

  /** `CommonChunk::read`: exactly 18 bytes, the rate an extended float read
      by `read_f80` as written. */
  function CommonChunkAt(data: seq<Byte>): (r: Res<CommonChunk>)
  {
    if |data| != 18 then Err(InvalidFormat)
    else match ReadF80AsWritten(data[8..18])
      case Ok(rate) => Ok(CommonChunk(BeU16At(data, 0), BeU32At(data, 2), BeU16At(data, 6), rate))
      case Err(e) => Err(e)
      case Panic(f) => Panic(f)
  }

  /** The 18 bytes of a common chunk whose rate is the extended float `rate`. */
  function CommonChunkBytes(channels: U16, frames: U32, sampleSize: U16, rate: seq<Byte>): (r: seq<Byte>)
    requires |rate| == 10
    ensures |r| == 18
  {
    U16Bytes(channels) + U32Bytes(frames) + U16Bytes(sampleSize) + rate
  }

  /** Each field reads back; the rate is what `read_f80` as written makes of
      the extended float. */
  lemma CommonChunkRoundTrip(channels: U16, frames: U32, sampleSize: U16, rate: seq<Byte>)
    requires |rate| == 10
    ensures var r := CommonChunkAt(CommonChunkBytes(channels, frames, sampleSize, rate));
      match ReadF80AsWritten(rate)
      case Ok(bits) => r == Ok(CommonChunk(channels, frames, sampleSize, bits))
      case Err(e) => r == Err(e)
      case Panic(f) => r == Panic(f)
  {
    var data := CommonChunkBytes(channels, frames, sampleSize, rate);
    assert data[0..2] == U16Bytes(channels);
    assert data[2..6] == U32Bytes(frames);
    assert data[6..8] == U16Bytes(sampleSize);
    assert data[8..18] == rate;
    assert BeU16At(data, 0) == BeU16At(U16Bytes(channels), 0);
    assert BeU32At(data, 2) == BeU32At(U32Bytes(frames), 0);
    assert BeU16At(data, 6) == BeU16At(U16Bytes(sampleSize), 0);
  }

  /** A common chunk is refused exactly when its size is not 18, and it
      panics only on a rate `read_f80` does not support. */
  lemma CommonChunkOutcomes(data: seq<Byte>)
    ensures CommonChunkAt(data).Err? <==> |data| != 18
    ensures CommonChunkAt(data).Panic? ==> |data| == 18 && !ReadF80AsWritten(data[8..18]).Ok?
  {
  }

  // ---------------------------------------------------------------------
  // INST

  datatype PlayMode = NoLooping | ForwardLooping | ForwardBackwardLooping

  /** `PlayMode::try_from`. */
  function PlayModeFrom(value: U16): (r: Res<PlayMode>)
  {
    match value
    case 0 => Ok(NoLooping)
    case 1 => Ok(ForwardLooping)
    case 2 => Ok(ForwardBackwardLooping)
    case _ => Err(InvalidPlayMode(value))
  }

  /** The code of a play mode in a loop record. */
  function PlayModeCode(mode: PlayMode): (r: U16)
    ensures r <= 2
  {
    match mode
    case NoLooping => 0
    case ForwardLooping => 1
    case ForwardBackwardLooping => 2
  }

  /** The play mode codes are 0, 1 and 2, each naming one mode; any other
      code is refused with the code itself. */
  lemma PlayModeCodes(value: U16, mode: PlayMode)
    ensures PlayModeFrom(PlayModeCode(mode)) == Ok(mode)
    ensures PlayModeFrom(value).Ok? <==> value <= 2
    ensures PlayModeFrom(value).Ok? ==> PlayModeCode(PlayModeFrom(value).value) == value
    ensures !PlayModeFrom(value).Ok? ==> PlayModeFrom(value) == Err(InvalidPlayMode(value))
  {
  }

  datatype Loop = Loop(playMode: PlayMode, beginLoop: U16, endLoop: U16)

  /** `Loop::read`: a play mode code and two marker IDs, six bytes in all. */
  function LoopAt(data: seq<Byte>): (r: Res<Loop>)
  {
    if |data| < 6 then Err(InvalidFormat)
    else match PlayModeFrom(BeU16At(data, 0))
      case Ok(mode) => Ok(Loop(mode, BeU16At(data, 2), BeU16At(data, 4)))
      case Err(e) => Err(e)
      case Panic(f) => Panic(f)
  }

  function LoopBytes(l: Loop): (r: seq<Byte>)
    ensures |r| == 6
  {
    U16Bytes(PlayModeCode(l.playMode)) + U16Bytes(l.beginLoop) + U16Bytes(l.endLoop)
  }

  lemma LoopRoundTrip(l: Loop, rest: seq<Byte>)
    ensures LoopAt(LoopBytes(l) + rest) == Ok(l)
  {
    var data := LoopBytes(l) + rest;
    assert data[0..2] == U16Bytes(PlayModeCode(l.playMode));
    assert data[2..4] == U16Bytes(l.beginLoop);
    assert data[4..6] == U16Bytes(l.endLoop);
    assert BeU16At(data, 0) == BeU16At(U16Bytes(PlayModeCode(l.playMode)), 0);
    assert BeU16At(data, 2) == BeU16At(U16Bytes(l.beginLoop), 0);
    assert BeU16At(data, 4) == BeU16At(U16Bytes(l.endLoop), 0);
    PlayModeCodes(0, l.playMode);
  }

  /** A loop record never panics: it is refused for being short, or for
      its play mode code. */
  lemma LoopOutcomes(data: seq<Byte>)
    ensures !LoopAt(data).Panic?
    ensures LoopAt(data).Err? <==> |data| < 6 || BeU16At(data, 0) > 2
    ensures |data| >= 6 && BeU16At(data, 0) > 2 ==> LoopAt(data) == Err(InvalidPlayMode(BeU16At(data, 0)))
  {
  }

  datatype InstrumentChunk = InstrumentChunk(
    baseNote: I8,
    detune: I8,
    lowNote: I8,
    highNote: I8,
    lowVelocity: I8,
    highVelocity: I8,
    gain: I16,
    sustainLoop: Loop,
    releaseLoop: Loop)

  /** `InstrumentChunk::read`: six signed bytes, a signed gain, then the
      sustain and release loops; bytes past the twentieth are ignored. */
  function InstrumentChunkAt(data: seq<Byte>): (r: Res<InstrumentChunk>)
  {
    if |data| < 20 then Err(InvalidFormat)
    else match LoopAt(data[8..14])
      case Err(e) => Err(e)
      case Panic(f) => Panic(f)
      case Ok(sustain) =>
        match LoopAt(data[14..20])
        case Err(e) => Err(e)
        case Panic(f) => Panic(f)
        case Ok(release) =>
          Ok(InstrumentChunk(AsI8(data[0]), AsI8(data[1]), AsI8(data[2]), AsI8(data[3]),
                             AsI8(data[4]), AsI8(data[5]), BeI16At(data, 6), sustain, release))
  }

  function InstrumentChunkBytes(i: InstrumentChunk): (r: seq<Byte>)
    ensures |r| == 20
  {
    [I8Byte(i.baseNote), I8Byte(i.detune), I8Byte(i.lowNote), I8Byte(i.highNote),
     I8Byte(i.lowVelocity), I8Byte(i.highVelocity)]
    + I16Bytes(i.gain) + LoopBytes(i.sustainLoop) + LoopBytes(i.releaseLoop)
  }

  lemma InstrumentChunkRoundTrip(i: InstrumentChunk, rest: seq<Byte>)
    ensures InstrumentChunkAt(InstrumentChunkBytes(i) + rest) == Ok(i)
  {
    var data := InstrumentChunkBytes(i) + rest;
    assert data[6..8] == I16Bytes(i.gain);
    assert BeI16At(data, 6) == BeI16At(I16Bytes(i.gain), 0);
    assert data[8..14] == LoopBytes(i.sustainLoop) + [];
    assert data[14..20] == LoopBytes(i.releaseLoop) + [];
    LoopRoundTrip(i.sustainLoop, []);
    LoopRoundTrip(i.releaseLoop, []);
  }

  /** An instrument chunk is refused for being short, or for the play mode
      of its sustain loop and, only when that one is good, of its release
      loop. */
  lemma InstrumentChunkOutcomes(data: seq<Byte>)
    ensures !InstrumentChunkAt(data).Panic?
    ensures |data| < 20 ==> InstrumentChunkAt(data) == Err(InvalidFormat)
    ensures |data| >= 20 && BeU16At(data, 8) > 2 ==>
      InstrumentChunkAt(data) == Err(InvalidPlayMode(BeU16At(data, 8)))
    ensures |data| >= 20 && BeU16At(data, 8) <= 2 && BeU16At(data, 14) > 2 ==>
      InstrumentChunkAt(data) == Err(InvalidPlayMode(BeU16At(data, 14)))
    ensures InstrumentChunkAt(data).Ok? <==> |data| >= 20 && BeU16At(data, 8) <= 2 && BeU16At(data, 14) <= 2
  {
    if |data| >= 20 {
      assert BeU16At(data[8..14], 0) == BeU16At(data, 8);
      assert BeU16At(data[14..20], 0) == BeU16At(data, 14);
      LoopOutcomes(data[8..14]);
      LoopOutcomes(data[14..20]);
    }
  }

  // ---------------------------------------------------------------------
  // MARK

  /** A marker; its name is kept as the bytes of the Pascal string. */
  datatype Marker = Marker(id: U16, position: U32, name: seq<Byte>)

  /** `Marker::read`: an ID, a position and a Pascal string name. */
  function MarkerAt(data: seq<Byte>): (r: Res<Taken<Marker>>)
    ensures r.Ok? ==> |r.value.rest| < |data|
  {
    if |data| < 6 then Err(InvalidFormat)
    else match PStringAt(data[6..])
      case Ok(name) => Ok(Taken(Marker(BeU16At(data, 0), BeU32At(data, 2), name.value), name.rest))
      case Err(e) => Err(e)
      case Panic(f) => Panic(f)
  }

  /** `Marker::read(&mut data)`: the cursor ends past the marker. */
  method ReadMarker(cursor: Cursor) returns (r: Res<Marker>)
    modifies cursor
    ensures match MarkerAt(old(cursor.data))
      case Ok(t) => r == Ok(t.value) && cursor.data == t.rest
      case Err(e) => r == Err(e)
      case Panic(f) => r == Panic(f)
  {
    if |cursor.data| < 6 {
      return Err(InvalidFormat);
    }
    var id := BeU16At(cursor.data, 0);
    var position := BeU32At(cursor.data, 2);
    cursor.data := cursor.data[6..];
    var name := cursor.ReadPString();
    match name
    case Ok(text) => return Ok(Marker(id, position, text));
    case Err(e) => return Err(e);
    case Panic(f) => return Panic(f);
  }

  datatype MarkerChunk = MarkerChunk(markers: seq<Marker>)

  /** `count` markers, one after another. */
  function MarkersAt(data: seq<Byte>, count: nat): (r: Res<seq<Marker>>)
    decreases count
  {
    if count == 0 then Ok([])
    else match MarkerAt(data)
      case Err(e) => Err(e)
      case Panic(f) => Panic(f)
      case Ok(first) => Prepend(first.value, MarkersAt(first.rest, count - 1))
  }

  /** `marker` in front of the markers read after it. */
  function Prepend(marker: Marker, r: Res<seq<Marker>>): Res<seq<Marker>>
  {
    match r
    case Ok(ms) => Ok([marker] + ms)
    case Err(e) => Err(e)
    case Panic(f) => Panic(f)
  }

  /** `done` in front of the markers read after them. */
  function After(done: seq<Marker>, r: Res<seq<Marker>>): Res<seq<Marker>>
  {
    match r
    case Ok(ms) => Ok(done + ms)
    case Err(e) => Err(e)
    case Panic(f) => Panic(f)
  }

  /** No markers read before: the result is the rest's. */
  lemma AfterNothing(r: Res<seq<Marker>>)
    ensures After([], r) == r
  {
    if r.Ok? {
      assert [] + r.value == r.value;
    }
  }

  /** One more marker moved from the rest to the markers read before. */
  lemma AfterPrepend(done: seq<Marker>, marker: Marker, r: Res<seq<Marker>>)
    ensures After(done, Prepend(marker, r)) == After(done + [marker], r)
  {
    if r.Ok? {
      assert done + ([marker] + r.value) == done + [marker] + r.value;
    }
  }

  /** `MarkerChunk::read`: a count, then that many markers. */
  function MarkerChunkAt(data: seq<Byte>): (r: Res<MarkerChunk>)
  {
    if |data| < 2 then Err(InvalidFormat)
    else match MarkersAt(data[2..], BeU16At(data, 0))
      case Ok(ms) => Ok(MarkerChunk(ms))
      case Err(e) => Err(e)
      case Panic(f) => Panic(f)
  }

  /** `MarkerChunk::read`, reading the markers one by one from a cursor. */
  method ReadMarkerChunk(data: seq<Byte>) returns (r: Res<MarkerChunk>)
    ensures r == MarkerChunkAt(data)
  {
    if |data| < 2 {
      return Err(InvalidFormat);
    }
    var count := BeU16At(data, 0);
    var markers: seq<Marker> := [];
    var cursor := new Cursor(data[2..]);
    AfterNothing(MarkersAt(cursor.data, count));
    for i := 0 to count
      invariant MarkersAt(data[2..], count) == After(markers, MarkersAt(cursor.data, count - i))
    {
      var m := ReadMarker(cursor);
      match m
      case Ok(marker) =>
        AfterPrepend(markers, marker, MarkersAt(cursor.data, count - i - 1));
        markers := markers + [marker];
      case Err(e) =>
        return Err(e);
      case Panic(f) =>
        return Panic(f);
    }
    assert markers + [] == markers;
    return Ok(MarkerChunk(markers));
  }

  /** The bytes of a marker. */
  function MarkerBytes(m: Marker): (r: seq<Byte>)
    requires |m.name| < 0x100
  {
    U16Bytes(m.id) + U32Bytes(m.position) + PStringBytes(m.name)
  }

  predicate Writable(ms: seq<Marker>)
  {
    forall i | 0 <= i < |ms| :: |ms[i].name| < 0x100
  }

  /** The bytes of markers one after another. */
  function MarkersBytes(ms: seq<Marker>): (r: seq<Byte>)
    requires Writable(ms)
  {
    if ms == [] then [] else MarkerBytes(ms[0]) + MarkersBytes(ms[1..])
  }

  lemma MarkerRoundTrip(m: Marker, rest: seq<Byte>)
    requires |m.name| < 0x100
    ensures MarkerAt(MarkerBytes(m) + rest) == Ok(Taken(m, rest))
  {
    var data := MarkerBytes(m) + rest;
    assert data[0..2] == U16Bytes(m.id);
    assert data[2..6] == U32Bytes(m.position);
    assert BeU16At(data, 0) == BeU16At(U16Bytes(m.id), 0);
    assert BeU32At(data, 2) == BeU32At(U32Bytes(m.position), 0);
    assert data[6..] == PStringBytes(m.name) + rest;
    PStringRoundTrip(m.name, rest);
  }

  lemma {:induction false} MarkersRoundTrip(ms: seq<Marker>, rest: seq<Byte>)
    requires Writable(ms)
    ensures MarkersAt(MarkersBytes(ms) + rest, |ms|) == Ok(ms)
    decreases |ms|
  {
    if ms != [] {
      assert MarkersBytes(ms) + rest == MarkerBytes(ms[0]) + (MarkersBytes(ms[1..]) + rest);
      MarkerRoundTrip(ms[0], MarkersBytes(ms[1..]) + rest);
      MarkersRoundTrip(ms[1..], rest);
      assert [ms[0]] + ms[1..] == ms;
    }
  }

  /** A marker chunk written with its count reads back; what follows the
      last marker is ignored. */
  lemma MarkerChunkRoundTrip(ms: seq<Marker>, rest: seq<Byte>)
    requires Writable(ms) && |ms| < 0x1_0000
    ensures MarkerChunkAt(U16Bytes(|ms|) + (MarkersBytes(ms) + rest)) == Ok(MarkerChunk(ms))
  {
    CountThenBody(U16Bytes(|ms|), MarkersBytes(ms) + rest);
    MarkersRoundTrip(ms, rest);
  }

  lemma CountThenBody(count: seq<Byte>, body: seq<Byte>)
    requires |count| == 2
    ensures (count + body)[2..] == body
    ensures BeU16At(count + body, 0) == BeU16At(count, 0)
  {
  }

  /** A marker chunk that reads holds exactly as many markers as it says. */
  lemma {:induction false} MarkersCount(data: seq<Byte>, count: nat)
    requires MarkersAt(data, count).Ok?
    ensures |MarkersAt(data, count).value| == count
    decreases count
  {
    if count > 0 {
      var first := MarkerAt(data).value;
      MarkersCount(first.rest, count - 1);
    }
  }

  // ---------------------------------------------------------------------
  // SSND

  /** The sound data chunk; `raw_data` is its `rawData`. */
  datatype SoundDataChunk = SoundDataChunk(rawData: seq<Byte>)

  /** `SoundDataChunk::read`: an offset and a block size, both of which must
      be zero, then the samples. */
  function SoundDataChunkAt(data: seq<Byte>): (r: Res<SoundDataChunk>)
  {
    if |data| < 8 then Err(InvalidFormat)
    else if BeU32At(data, 0) != 0 then Panic(Outcomes.Unsupported)
    else if BeU32At(data, 4) != 0 then Panic(Outcomes.Unsupported)
    else Ok(SoundDataChunk(data[8..]))
  }

  const NO_OFFSET_OR_BLOCKING: seq<Byte> := [0, 0, 0, 0, 0, 0, 0, 0]

  /** Sound data reads exactly when the header is eight zero bytes, and the
      samples are everything after it. */
  lemma SoundDataChunkOutcomes(data: seq<Byte>)
    ensures SoundDataChunkAt(data).Err? <==> |data| < 8
    ensures SoundDataChunkAt(data).Ok? <==> |data| >= 8 && data[..8] == NO_OFFSET_OR_BLOCKING
    ensures SoundDataChunkAt(data).Ok? ==> data == NO_OFFSET_OR_BLOCKING + SoundDataChunkAt(data).value.rawData
  {
    if |data| >= 8 && data[..8] == NO_OFFSET_OR_BLOCKING {
      assert BeU32At(data, 0) == 0 && BeU32At(data, 4) == 0;
    }
    if |data| >= 8 && BeU32At(data, 0) == 0 && BeU32At(data, 4) == 0 {
      assert data[..8] == NO_OFFSET_OR_BLOCKING;
    }
  }
}
