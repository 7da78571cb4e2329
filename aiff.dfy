/** Reading an AIFF file: the outer FORM chunk, its form type, and the
    chunks inside it. */
module AiffFile {
  import opened Bytes
  import Outcomes
  import opened AiffTypes
  import opened AiffChunks

  const FORM: Id := [0x46, 0x4f, 0x52, 0x4d]
  const AIFF: Id := [0x41, 0x49, 0x46, 0x46]
  const COMM: Id := [0x43, 0x4f, 0x4d, 0x4d]

  /** A read file: its common chunk, and the data of every other chunk by ID. */
  datatype Aiff = Aiff(comm: CommonChunk, otherChunks: map<Id, seq<Byte>>)

  /** What the chunk loop has gathered so far. */
  datatype Gathered = Gathered(comm: Outcomes.Option<CommonChunk>, others: map<Id, seq<Byte>>)

  const NOTHING: Gathered := Gathered(Outcomes.None, map[])

  /** One chunk of the loop: a COMM chunk is parsed and replaces any earlier
      one; any other chunk replaces an earlier chunk with the same ID. */
  function Gather(g: Gathered, id: Id, body: seq<Byte>): (r: Res<Gathered>)
  {
    if id == COMM then
      match CommonChunkAt(body)
      case Ok(c) => Ok(Gathered(Outcomes.Some(c), g.others))
      case Err(e) => Err(e)
      case Panic(f) => Panic(f)
    else Ok(Gathered(g.comm, g.others[id := body]))
  }

  /** The chunk loop of `Aiff::read`, on the unread part of the form. */
  function GatherFrom(data: seq<Byte>, g: Gathered): (r: Res<Gathered>)
    ensures r.Err? ==> r.error == InvalidFormat
    decreases |data|
  {
    if |data| == 0 then Ok(g)
    else match ChunkAt(data)
      case Err(e) => Err(e)
      case Panic(f) => Panic(f)
      case Ok(c) =>
        match Gather(g, c.id, c.body)
        case Ok(g2) => GatherFrom(c.rest, g2)
        case Err(e) => Err(e)
        case Panic(f) => Panic(f)
  }

  /** `Aiff::read`. Bytes after the FORM chunk are not looked at. */
  function AiffAt(data: seq<Byte>): (r: Res<Aiff>)
  {
    match ChunkAt(data)
    case Err(e) => Err(e)
    case Panic(f) => Panic(f)
    case Ok(form) =>
      if form.id != FORM then Err(InvalidFormat)
      else if |form.body| < 4 then Panic(Outcomes.OutOfBounds)
      else if !ValidId(form.body[..4]) then Err(InvalidFormat)
      else if form.body[..4] != AIFF then Err(InvalidFormType(form.body[..4]))
      else match GatherFrom(form.body[4..], NOTHING)
        case Err(e) => Err(e)
        case Panic(f) => Panic(f)
        case Ok(g) =>
          if g.comm.None? then Err(MissingComm) else Ok(Aiff(g.comm.value, g.others))
  }

  /** `Aiff::read`, advancing a cursor over the file and then over the form. */
  method Read(data: seq<Byte>) returns (r: Res<Aiff>)
    ensures r == AiffAt(data)
  {
    var cursor := new Cursor(data);
    var form := cursor.ReadChunk();
    if form.Err? {
      return Err(form.error);
    } else if form.Panic? {
      return Panic(form.fault);
    }
    var (formId, formData) := form.value;
    if formId != FORM {
      return Err(InvalidFormat);
    }
    if |formData| < 4 {
      return Panic(Outcomes.OutOfBounds);
    }
    var formType := IdTryFrom(formData[0..4]);
    if !formType.Ok? {
      return Err(InvalidFormat);
    }
    if formType.value != AIFF {
      return Err(InvalidFormType(formType.value));
    }

    var comm: Outcomes.Option<CommonChunk> := Outcomes.None;
    var others: map<Id, seq<Byte>> := map[];
    var body := new Cursor(formData[4..]);
    while |body.data| > 0
      invariant GatherFrom(formData[4..], NOTHING) == GatherFrom(body.data, Gathered(comm, others))
      decreases |body.data|
    {
      var chunk := body.ReadChunk();
      if chunk.Err? {
        return Err(chunk.error);
      } else if chunk.Panic? {
        return Panic(chunk.fault);
      }
      var (id, chunkData) := chunk.value;
      if id == COMM {
        var c := CommonChunkAt(chunkData);
        if c.Err? {
          return Err(c.error);
        } else if c.Panic? {
          return Panic(c.fault);
        }
        comm := Outcomes.Some(c.value);
      } else {
        others := others[id := chunkData];
      }
    }
    if comm.None? {
      return Err(MissingComm);
    }
    return Ok(Aiff(comm.value, others));
  }

  lemma FormIsValid()
    ensures ValidId(FORM) && ValidId(AIFF) && ValidId(COMM)
  {
  }

  /** The bytes after the FORM chunk do not change what is read. */
  lemma TrailingBytesIgnored(body: seq<Byte>, rest: seq<Byte>)
    requires |body| < 0x1_0000_0000
    ensures AiffAt(ChunkBytes(FORM, body) + rest) == AiffAt(ChunkBytes(FORM, body))
  {
    FormIsValid();
    ChunkRoundTrip(FORM, body, rest);
    ChunkRoundTrip(FORM, body, []);
    assert ChunkBytes(FORM, body) + [] == ChunkBytes(FORM, body);
  }

  /** A form of another type is refused with that type. */
  lemma OtherFormType(formType: Id, chunks: seq<Byte>)
    requires ValidId(formType) && formType != AIFF && |formType + chunks| < 0x1_0000_0000
    ensures AiffAt(ChunkBytes(FORM, formType + chunks)) == Err(InvalidFormType(formType))
  {
    FormIsValid();
    ChunkRoundTrip(FORM, formType + chunks, []);
    assert ChunkBytes(FORM, formType + chunks) + [] == ChunkBytes(FORM, formType + chunks);
    assert (formType + chunks)[..4] == formType;
  }

  // ---------------------------------------------------------------------
  // Which chunks the reader keeps

  /** A chunk's ID and data, without the bytes around it. */
  datatype Frame = Frame(id: Id, body: seq<Byte>)

  /** The chunks of `data`, framed one after another. */
  function FramesFrom(data: seq<Byte>): (r: Res<seq<Frame>>)
    decreases |data|
  {
    if |data| == 0 then Ok([])
    else match ChunkAt(data)
      case Err(e) => Err(e)
      case Panic(f) => Panic(f)
      case Ok(c) =>
        match FramesFrom(c.rest)
        case Ok(fs) => Ok([Frame(c.id, c.body)] + fs)
        case Err(e) => Err(e)
        case Panic(f) => Panic(f)
  }

  /** The gathering of framed chunks, first to last. */
  function GatherAll(fs: seq<Frame>, g: Gathered): (r: Res<Gathered>)
    decreases |fs|
  {
    if fs == [] then Ok(g)
    else match Gather(g, fs[0].id, fs[0].body)
      case Ok(g2) => GatherAll(fs[1..], g2)
      case Err(e) => Err(e)
      case Panic(f) => Panic(f)
  }

  /** The data of the last frame with ID `id`. */
  function LastBody(fs: seq<Frame>, id: Id): (r: Outcomes.Option<seq<Byte>>)
    decreases |fs|
  {
    if fs == [] then Outcomes.None
    else match LastBody(fs[1..], id)
      case Some(b) => Outcomes.Some(b)
      case None => if fs[0].id == id then Outcomes.Some(fs[0].body) else Outcomes.None
  }

  /** Frame `k` has ID `id` and no frame after it does. */
  predicate LastWith(fs: seq<Frame>, id: Id, k: int)
  {
    0 <= k < |fs| && fs[k].id == id && forall j | k < j < |fs| :: fs[j].id != id
  }

  /** `LastBody` finds the last frame with the ID, and only misses when
      there is none. */
  lemma {:induction false} LastBodyIsLast(fs: seq<Frame>, id: Id, k: int)
    ensures LastWith(fs, id, k) ==> LastBody(fs, id) == Outcomes.Some(fs[k].body)
    ensures LastBody(fs, id).None? <==> forall j | 0 <= j < |fs| :: fs[j].id != id
    decreases |fs|
  {
    if fs != [] {
      LastBodyIsLast(fs[1..], id, k - 1);
      if LastWith(fs, id, k) && k > 0 {
        assert LastWith(fs[1..], id, k - 1) by {
          forall j | k - 1 < j < |fs| - 1
            ensures fs[1..][j].id != id
          {
            assert fs[1..][j] == fs[j + 1];
          }
        }
      }
      if LastWith(fs, id, k) && k == 0 {
        assert forall j | 0 <= j < |fs| - 1 :: fs[1..][j].id != id by {
          forall j | 0 <= j < |fs| - 1
            ensures fs[1..][j].id != id
          {
            assert fs[1..][j] == fs[j + 1];
          }
        }
      }
      if LastBody(fs, id).None? {
        forall j | 0 <= j < |fs|
          ensures fs[j].id != id
        {
          if j > 0 {
            assert fs[j] == fs[1..][j - 1];
          }
        }
      }
      if forall j | 0 <= j < |fs| :: fs[j].id != id {
        forall j | 0 <= j < |fs| - 1
          ensures fs[1..][j].id != id
        {
          assert fs[1..][j] == fs[j + 1];
        }
      }
    }
  }

  /** The chunk loop is the gathering of the framed chunks. */
  lemma {:induction false} GatherFromFrames(data: seq<Byte>, g: Gathered)
    requires FramesFrom(data).Ok?
    ensures GatherFrom(data, g) == GatherAll(FramesFrom(data).value, g)
    decreases |data|
  {
    if |data| > 0 {
      var c := ChunkAt(data).value;
      var fs := FramesFrom(c.rest).value;
      assert FramesFrom(data).value == [Frame(c.id, c.body)] + fs;
      assert ([Frame(c.id, c.body)] + fs)[1..] == fs;
      match Gather(g, c.id, c.body)
      case Ok(g2) => GatherFromFrames(c.rest, g2);
      case Err(_) =>
      case Panic(_) =>
    }
  }

  /** A chunk loop that finishes framed every chunk. */
  lemma {:induction false} GatheredIsFramed(data: seq<Byte>, g: Gathered)
    requires GatherFrom(data, g).Ok?
    ensures FramesFrom(data).Ok?
    decreases |data|
  {
    if |data| > 0 {
      var c := ChunkAt(data).value;
      GatheredIsFramed(c.rest, Gather(g, c.id, c.body).value);
    }
  }

  /** After gathering, the common chunk is that of the last COMM frame, and
      every other ID holds the data of its last frame: later chunks replace
      earlier ones. */
  lemma {:induction false} LastChunkWins(fs: seq<Frame>, g: Gathered)
    requires GatherAll(fs, g).Ok?
    ensures var out := GatherAll(fs, g).value;
      && (LastBody(fs, COMM).Some? ==>
            && CommonChunkAt(LastBody(fs, COMM).value).Ok?
            && out.comm == Outcomes.Some(CommonChunkAt(LastBody(fs, COMM).value).value))
      && (LastBody(fs, COMM).None? ==> out.comm == g.comm)
    ensures var out := GatherAll(fs, g).value;
      forall id: Id | id != COMM ::
        && (LastBody(fs, id).Some? ==> id in out.others && out.others[id] == LastBody(fs, id).value)
        && (LastBody(fs, id).None? ==> (id in out.others <==> id in g.others))
        && (LastBody(fs, id).None? && id in g.others ==> out.others[id] == g.others[id])
    ensures (COMM in GatherAll(fs, g).value.others <==> COMM in g.others)
    decreases |fs|
  {
    if fs != [] {
      var g2 := Gather(g, fs[0].id, fs[0].body).value;
      LastChunkWins(fs[1..], g2);
    }
  }

  /** What a successful read keeps: the last COMM chunk, parsed, and the data
      of the last chunk of every other ID; a file is refused with
      `MissingComm` exactly when its chunks frame and none is a COMM chunk. */
  lemma ReadKeepsLastChunks(data: seq<Byte>)
    requires AiffAt(data).Ok? || AiffAt(data) == Err(MissingComm)
    ensures ChunkAt(data).Ok? && |ChunkAt(data).value.body| >= 4
    ensures FramesFrom(ChunkAt(data).value.body[4..]).Ok?
    ensures var fs := FramesFrom(ChunkAt(data).value.body[4..]).value;
      AiffAt(data).Ok? <==> LastBody(fs, COMM).Some?
    ensures var fs := FramesFrom(ChunkAt(data).value.body[4..]).value;
      AiffAt(data).Ok? ==>
        var a := AiffAt(data).value;
        && LastBody(fs, COMM).Some?
        && CommonChunkAt(LastBody(fs, COMM).value) == Ok(a.comm)
        && COMM !in a.otherChunks
        && forall id: Id | id != COMM ::
             && (id in a.otherChunks <==> LastBody(fs, id).Some?)
             && (id in a.otherChunks ==> a.otherChunks[id] == LastBody(fs, id).value)
  {
    var form := ChunkAt(data).value.body;
    assert GatherFrom(form[4..], NOTHING).Ok?;
    GatheredIsFramed(form[4..], NOTHING);
    var fs := FramesFrom(form[4..]).value;
    GatherFromFrames(form[4..], NOTHING);
    LastChunkWins(fs, NOTHING);
  }

  /** `Samples`: an iterator over the sound data. */
  class Samples {
    var data: seq<Byte>
    var sampleSize: I16

    /** `Samples::next`: no sample is ever decoded, whether data is left or not. */
    method Next() returns (r: Outcomes.Option<int>)
      ensures r == Outcomes.None
    {
      if |data| == 0 {
        return Outcomes.None;
      } else {
        return Outcomes.None;
      }
    }
  }
}
