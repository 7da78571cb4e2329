/** The AIFF container's building blocks: chunk IDs, chunk framing, Pascal
    strings and 80-bit extended floats, all read from a byte cursor. */
module AiffTypes {
  import opened Bytes
  import Outcomes

  datatype AiffError =
    | InvalidFormat
    | InvalidFormType(formType: Id)
    | MissingComm
    | MissingSsnd
    | InvalidPlayMode(mode: U16)

  /** A parser's result: a value, an error it returns, or a panic. */
  datatype Res<+T> = Ok(value: T) | Err(error: AiffError) | Panic(fault: Outcomes.Fault)

  /** A value read from the front of the input, and the input after it. */
  datatype Taken<+T> = Taken(value: T, rest: seq<Byte>)

  const SPACE: Byte := 0x20

  /** A four-byte chunk ID (`struct ID([u8; 4])`). */
  type Id = s: seq<Byte> | |s| == 4 witness [SPACE, SPACE, SPACE, SPACE]

  /** IDs are printable ASCII, and a space may only be followed by spaces. */
  predicate ValidId(s: seq<Byte>)
  {
    && (forall i | 0 <= i < |s| :: SPACE <= s[i] <= 0x7e)
    && (forall i, j | 0 <= i < j < |s| :: s[i] == SPACE ==> s[j] == SPACE)
  }

  /** `ID::try_from`: the caller must pass exactly four bytes. */
  method IdTryFrom(value: seq<Byte>) returns (r: Res<Id>)
    requires |value| == 4
    ensures ValidId(value) ==> r == Ok(value)
    ensures !ValidId(value) ==> r == Err(InvalidFormat)
  {
    var hasSpaces := false;
    for i := 0 to 4
      invariant ValidId(value[..i])
      invariant hasSpaces <==> exists k | 0 <= k < i :: value[k] == SPACE
    {
      var b := value[i];
      if b == SPACE {
        hasSpaces := true;
      } else if 0x21 <= b <= 0x7e {
        if hasSpaces {
          var k :| 0 <= k < i && value[k] == SPACE;
          assert !(value[k] == SPACE ==> value[i] == SPACE);
          return Err(InvalidFormat);
        }
      } else {
        return Err(InvalidFormat);
      }
      assert value[..i + 1] == value[..i] + [b];
    }
    assert value[..4] == value;
    return Ok(value);
  }

  /** The first `n` bytes of `s` are visible characters and the rest spaces. */
  predicate PaddedAfter(s: seq<Byte>, n: nat)
  {
    && n <= |s|
    && (forall i | 0 <= i < n :: 0x21 <= s[i] <= 0x7e)
    && (forall i | n <= i < |s| :: s[i] == SPACE)
  }

  /** A valid ID is a run of visible characters padded with trailing spaces. */
  lemma {:induction false} ValidIdIsPadded(s: seq<Byte>)
    ensures ValidId(s) <==> exists n :: PaddedAfter(s, n)
  {
    if ValidId(s) {
      var n := 0;
      while n < |s| && s[n] != SPACE
        invariant 0 <= n <= |s|
        invariant forall i | 0 <= i < n :: 0x21 <= s[i] <= 0x7e
      {
        n := n + 1;
      }
      assert PaddedAfter(s, n);
    }
    if exists n :: PaddedAfter(s, n) {
      var n: nat :| PaddedAfter(s, n);
      forall i, j | 0 <= i < j < |s| && s[i] == SPACE
        ensures s[j] == SPACE
      {
        assert n <= i;
      }
    }
  }

  /** A chunk read by `read_chunk`: its ID, its data, and the input after it. */
  datatype Chunk = Chunk(id: Id, body: seq<Byte>, rest: seq<Byte>)

  /** `read_chunk`: an 8-byte header (ID, big-endian size), the data, and a
      pad byte after data of odd size. An ID that is not valid panics. */
  function ChunkAt(data: seq<Byte>): (r: Res<Chunk>)
    ensures r.Ok? ==> |r.value.rest| + 8 <= |data|
  {
    if |data| < 8 then Err(InvalidFormat)
    else
      var size := BeU32At(data, 4);
      if |data| < 8 + size then Err(InvalidFormat)
      else
        var after := data[8 + size..];
        if size % 2 == 1 && |after| == 0 then Panic(Outcomes.OutOfBounds)
        else if !ValidId(data[..4]) then Panic(Outcomes.UnwrapErr)
        else Ok(Chunk(data[..4], data[8..8 + size], if size % 2 == 1 then after[1..] else after))
  }

  /** The bytes of a chunk, with its pad byte. */
  function ChunkBytes(id: Id, body: seq<Byte>): (r: seq<Byte>)
    requires |body| < 0x1_0000_0000
    ensures |r| == 8 + |body| + |body| % 2
  {
    id + U32Bytes(|body|) + body + (if |body| % 2 == 1 then [0] else [])
  }

  /** Reading a chunk written by `ChunkBytes` gives back its ID and data,
      and leaves exactly what followed it. */
  lemma ChunkRoundTrip(id: Id, body: seq<Byte>, rest: seq<Byte>)
    requires ValidId(id) && |body| < 0x1_0000_0000
    ensures ChunkAt(ChunkBytes(id, body) + rest) == Ok(Chunk(id, body, rest))
  {
    var data := ChunkBytes(id, body) + rest;
    assert data[4..8] == U32Bytes(|body|);
    assert BeU32At(data, 4) == BeU32At(U32Bytes(|body|), 0);
    assert data[..4] == id;
    assert data[8..8 + |body|] == body;
  }

  /** Conversely, a chunk that reads is an ID, a size, the data, an even
      number of bytes in all, and the rest. */
  lemma ChunkFraming(data: seq<Byte>)
    requires ChunkAt(data).Ok?
    ensures var c := ChunkAt(data).value; |data| - |c.rest| == 8 + |c.body| + |c.body| % 2
    ensures var c := ChunkAt(data).value; (|data| - |c.rest|) % 2 == 0
    ensures var c := ChunkAt(data).value; data[..4] == c.id && BeU32At(data, 4) == |c.body|
    ensures var c := ChunkAt(data).value; data[8..8 + |c.body|] == c.body
    ensures var c := ChunkAt(data).value; data[|data| - |c.rest|..] == c.rest
  {
    var size: nat := BeU32At(data, 4);
    assert 8 + size <= |data|;
    var c := ChunkAt(data).value;
    assert c.body == data[8..8 + size];
    assert c.rest == if size % 2 == 1 then data[8 + size + 1..] else data[8 + size..];
    PaddedIsEven(8, size);
  }

  /** An even header followed by data padded to even length is even. */
  lemma PaddedIsEven(header: nat, n: nat)
    requires header % 2 == 0
    ensures (header + n + n % 2) % 2 == 0
  {
    assert header + n + n % 2 == 2 * (header / 2 + n / 2 + n % 2);
  }

  /** `read_pstring`: a length byte, the text, and a pad byte that keeps the
      total even. The text is kept as bytes. */
  function PStringAt(data: seq<Byte>): (r: Res<Taken<seq<Byte>>>)
    ensures r.Ok? ==> |r.value.rest| < |data|
  {
    if |data| == 0 then Err(InvalidFormat)
    else
      var len := data[0];
      var after := data[1..];
      if |after| < len then Err(InvalidFormat)
      else if len % 2 == 0 && |after| == len then Panic(Outcomes.OutOfBounds)
      else Ok(Taken(after[..len], if len % 2 == 0 then after[len + 1..] else after[len..]))
  }

  /** The bytes of a Pascal string, with its pad byte. */
  function PStringBytes(text: seq<Byte>): (r: seq<Byte>)
    requires |text| < 0x100
    ensures |r| % 2 == 0
  {
    [|text|] + text + (if |text| % 2 == 0 then [0] else [])
  }

  lemma PStringRoundTrip(text: seq<Byte>, rest: seq<Byte>)
    requires |text| < 0x100
    ensures PStringAt(PStringBytes(text) + rest) == Ok(Taken(text, rest))
  {
    var data := PStringBytes(text) + rest;
    assert data[1..][..|text|] == text;
  }

  /** A Pascal string always takes an even number of bytes: its length byte,
      its text and, for text of even length, a pad byte. */
  lemma PStringFraming(data: seq<Byte>)
    requires PStringAt(data).Ok?
    ensures var t := PStringAt(data).value;
      && var used := |data| - |t.rest|;
      && used == 1 + |t.value| + (1 - |t.value| % 2)
      && used % 2 == 0
      && data[0] == |t.value|
      && data[1..1 + |t.value|] == t.value
      && data[used..] == t.rest
  {
  }

  /** `&mut &[u8]`: the unread part of an input, advanced by each read. */
  class Cursor {
    var data: seq<Byte>

    constructor (data: seq<Byte>)
      ensures this.data == data
    {
      this.data := data;
    }

    /** `read_chunk(&mut data)`; on an error the cursor does not move. */
    method ReadChunk() returns (r: Res<(Id, seq<Byte>)>)
      modifies this
      ensures match ChunkAt(old(data))
        case Ok(c) => r == Ok((c.id, c.body)) && data == c.rest
        case Err(e) => r == Err(e) && data == old(data)
        case Panic(f) => r == Panic(f)
    {
      if |data| < 8 {
        return Err(InvalidFormat);
      }
      ghost var start := data;
      var id := data[0..4];
      var size: nat := BeU32At(data, 4);
      if |data| < 8 + size {
        return Err(InvalidFormat);
      }
      var body := data[8..][..size];
      assert body == start[8..8 + size];
      data := data[8..][size..];
      assert data == start[8 + size..];
      if size % 2 == 1 {
        if |data| == 0 {
          return Panic(Outcomes.OutOfBounds);
        }
        data := data[1..];
      }
      var parsed := IdTryFrom(id);
      if !parsed.Ok? {
        return Panic(Outcomes.UnwrapErr);
      }
      assert ChunkAt(start) == Ok(Chunk(id, body, data));
      return Ok((parsed.value, body));
    }

    /** `read_pstring(&mut data)`; once the length byte is read the cursor
        is past it, even when the text that follows is too short. */
    method ReadPString() returns (r: Res<seq<Byte>>)
      modifies this
      ensures match PStringAt(old(data))
        case Ok(t) => r == Ok(t.value) && data == t.rest
        case Err(e) => r == Err(e) && data == (if |old(data)| == 0 then old(data) else old(data)[1..])
        case Panic(f) => r == Panic(f)
    {
      if |data| == 0 {
        return Err(InvalidFormat);
      }
      var len := data[0];
      data := data[1..];
      if |data| < len {
        return Err(InvalidFormat);
      }
      var text := data[..len];
      data := data[len..];
      if len % 2 == 0 {
        if |data| == 0 {
          return Panic(Outcomes.OutOfBounds);
        }
        data := data[1..];
      }
      return Ok(text);
    }
  }

  // ---------------------------------------------------------------------
  // 80-bit extended floats

  const TWO_52: int := 0x10_0000_0000_0000
  const TWO_11: int := 0x800
  const TWO_12: int := 0x1000

  /** The values `read_f80` supports: signed zeros and normal numbers with
      the explicit integer bit set (`mantissa >= 2^63`) and an exponent
      that an `f64` can hold. */
  datatype Extended =
    | SignedZero(negative: bool)
    | Normal(negative: bool, exponent: int, mantissa: U64)

  /** The field checks of `read_f80`: the caller must pass ten bytes. */
  function ExtendedAt(data: seq<Byte>): (r: Res<Extended>)
    requires |data| >= 10
    ensures !r.Err?
    ensures r.Ok? && r.value.Normal? ==>
      && TWO_63 <= r.value.mantissa
      && -1022 <= r.value.exponent <= 1023
  {
    var field := BeU16At(data, 0);
    var mantissa := BeU64At(data, 2);
    var negative := field >= 0x8000;
    var biased := field % 0x8000;
    if biased == 0 then
      if mantissa < TWO_63 then
        if mantissa == 0 then Ok(SignedZero(negative))
        else Panic(Outcomes.Unsupported)  // denormal
      else Panic(Outcomes.Unsupported)    // pseudo-denormal
    else if biased == 0x7fff then Panic(Outcomes.Unsupported)  // infinity or NaN
    else if mantissa < TWO_63 then Panic(Outcomes.Unsupported) // unnormal
    else
      var exponent := biased - 16383;
      if exponent < -1022 || exponent > 1023 then Panic(Outcomes.Unsupported)
      else Ok(Normal(negative, exponent, mantissa))
  }

  /** The bit pattern of an `f64` from its sign, biased exponent and fraction. */
  function F64Bits(negative: bool, biased: nat, fraction: nat): (r: U64)
    requires biased < 0x800 && fraction < TWO_52
  {
    (if negative then TWO_63 else 0) + biased * TWO_52 + fraction
  }

  /** The sign bit of an `f64` bit pattern. */
  predicate F64Negative(bits: U64) { bits >= TWO_63 }
  /** The biased exponent field of an `f64` bit pattern. */
  function F64Exponent(bits: U64): nat { (bits / TWO_52) % 0x800 }
  /** The fraction field of an `f64` bit pattern. */
  function F64Fraction(bits: U64): nat { bits % TWO_52 }

  lemma F64FieldsOfBits(negative: bool, biased: nat, fraction: nat)
    requires biased < 0x800 && fraction < TWO_52
    ensures var bits := F64Bits(negative, biased, fraction);
      F64Negative(bits) == negative && F64Exponent(bits) == biased && F64Fraction(bits) == fraction
  {
    var bits := F64Bits(negative, biased, fraction);
    var low := biased * TWO_52 + fraction;
    assert low < TWO_63;
    assert low / TWO_52 == biased && low % TWO_52 == fraction;
    if negative {
      assert bits == 0x800 * TWO_52 + low;
      assert bits / TWO_52 == 0x800 + biased;
    }
  }

  /** `read_f80` as written: the fraction is the mantissa shifted right by
      12, so the explicit integer bit lands in the top fraction bit. */
  function ReadF80AsWritten(data: seq<Byte>): (r: Res<U64>)
    requires |data| >= 10
  {
    match ExtendedAt(data)
    case Ok(SignedZero(negative)) => Ok(F64Bits(negative, 0, 0))
    case Ok(Normal(negative, exponent, mantissa)) => Ok(F64Bits(negative, exponent + 1023, mantissa / TWO_12))
    case Err(e) => Err(e)
    case Panic(f) => Panic(f)
  }

  /** `read_f80` corrected: the integer bit is implicit in an `f64`, so the
      fraction is the 52 mantissa bits after it. */
  function ReadF80(data: seq<Byte>): (r: Res<U64>)
    requires |data| >= 10
  {
    match ExtendedAt(data)
    case Ok(SignedZero(negative)) => Ok(F64Bits(negative, 0, 0))
    case Ok(Normal(negative, exponent, mantissa)) => Ok(F64Bits(negative, exponent + 1023, (mantissa - TWO_63) / TWO_11))
    case Err(e) => Err(e)
    case Panic(f) => Panic(f)
  }

  /** What `read_f80` accepts: zeros, and normal numbers in range. */
  lemma ReadF80Supported(data: seq<Byte>)
    requires |data| >= 10
    ensures var biased := BeU16At(data, 0) % 0x8000;
      var mantissa := BeU64At(data, 2);
      && (ReadF80(data).Ok? <==>
          (biased == 0 && mantissa == 0)
          || (biased != 0x7fff && mantissa >= TWO_63 && -1022 <= biased - 16383 <= 1023))
      && (ReadF80(data).Ok? <==> ReadF80AsWritten(data).Ok?)
      && (!ReadF80(data).Ok? ==> ReadF80(data) == Panic(Outcomes.Unsupported))
  {
  }

  /** Dropping the integer bit and shifting right by 11 keeps the top 53
      bits of a mantissa whose integer bit is set. */
  lemma SignificandTruncates(mantissa: int)
    requires TWO_63 <= mantissa
    ensures (TWO_52 + (mantissa - TWO_63) / TWO_11) * TWO_11 + mantissa % TWO_11 == mantissa
  {
    var low := mantissa - TWO_63;
    assert TWO_63 == TWO_52 * TWO_11;
    assert low == (low / TWO_11) * TWO_11 + low % TWO_11;
    assert mantissa == (TWO_52 + low / TWO_11) * TWO_11 + low % TWO_11;
  }

  /** The corrected read keeps the sign and the exponent, and its 53-bit
      significand (the implicit 1 and the fraction) is the extended
      significand truncated to 53 bits: the `f64` is the extended value
      rounded toward zero. A zero reads as a zero of the same sign. */
  lemma ReadF80Meaning(data: seq<Byte>)
    requires |data| >= 10 && ReadF80(data).Ok?
    ensures var bits := ReadF80(data).value;
      && F64Negative(bits) == (BeU16At(data, 0) >= 0x8000)
      && (match ExtendedAt(data).value
          case SignedZero(_) => F64Exponent(bits) == 0 && F64Fraction(bits) == 0
          case Normal(_, exponent, mantissa) =>
            && F64Exponent(bits) == exponent + 1023
            && (TWO_52 + F64Fraction(bits)) * TWO_11 + mantissa % TWO_11 == mantissa)
  {
    match ExtendedAt(data).value
    case SignedZero(negative) => F64FieldsOfBits(negative, 0, 0);
    case Normal(negative, exponent, mantissa) =>
      F64FieldsOfBits(negative, exponent + 1023, (mantissa - TWO_63) / TWO_11);
      SignificandTruncates(mantissa);
  }

  /** As written, the top fraction bit is always set, so every normal number
      reads as at least one and a half times its power of two. */
  lemma ReadF80AsWrittenTopBitSet(data: seq<Byte>)
    requires |data| >= 10 && ExtendedAt(data).Ok? && ExtendedAt(data).value.Normal?
    ensures ReadF80AsWritten(data).Ok?
    ensures F64Fraction(ReadF80AsWritten(data).value) >= TWO_52 / 2
  {
    var x := ExtendedAt(data).value;
    F64FieldsOfBits(x.negative, x.exponent + 1023, x.mantissa / TWO_12);
  }

  /** As written, the read keeps the sign and the exponent, but its 52-bit
      fraction is the top 52 bits of the 64-bit mantissa, explicit integer
      bit included. A zero reads as a zero of the same sign. */
  lemma ReadF80AsWrittenMeaning(data: seq<Byte>)
    requires |data| >= 10 && ReadF80AsWritten(data).Ok?
    ensures var bits := ReadF80AsWritten(data).value;
      && F64Negative(bits) == (BeU16At(data, 0) >= 0x8000)
      && (match ExtendedAt(data).value
          case SignedZero(_) => F64Exponent(bits) == 0 && F64Fraction(bits) == 0
          case Normal(_, exponent, mantissa) =>
            && F64Exponent(bits) == exponent + 1023
            && F64Fraction(bits) * TWO_12 + mantissa % TWO_12 == mantissa)
  {
    match ExtendedAt(data).value
    case SignedZero(negative) => F64FieldsOfBits(negative, 0, 0);
    case Normal(negative, exponent, mantissa) =>
      F64FieldsOfBits(negative, exponent + 1023, mantissa / TWO_12);
  }

  /** The two reads agree on every zero and, for a normal number, on the
      sign and the exponent; the fraction as written is the corrected one
      shifted right by one with the integer bit put in on top. */
  lemma ReadF80Versions(data: seq<Byte>)
    requires |data| >= 10 && ReadF80(data).Ok?
    ensures ReadF80AsWritten(data).Ok?
    ensures var asWritten := ReadF80AsWritten(data).value;
      var corrected := ReadF80(data).value;
      && F64Negative(asWritten) == F64Negative(corrected)
      && F64Exponent(asWritten) == F64Exponent(corrected)
      && (ExtendedAt(data).value.SignedZero? ==> asWritten == corrected)
      && (ExtendedAt(data).value.Normal? ==>
            F64Fraction(asWritten) == TWO_52 / 2 + F64Fraction(corrected) / 2)
  {
    ReadF80AsWrittenMeaning(data);
    ReadF80Meaning(data);
    match ExtendedAt(data).value
    case SignedZero(_) =>
    case Normal(negative, exponent, mantissa) =>
      var low := mantissa - TWO_63;
      assert TWO_63 == (TWO_52 / 2) * TWO_12;
      assert TWO_12 == 2 * TWO_11;
      assert mantissa / TWO_12 == TWO_52 / 2 + low / TWO_12;
      assert low / TWO_12 == (low / TWO_11) / 2;
  }

  /** 44100 as an extended float: exponent 16383 + 15, mantissa 44100 << 48. */
  const RATE_44100: seq<Byte> := [0x40, 0x0e, 0xac, 0x44, 0, 0, 0, 0, 0, 0]

  /** The fields of 44100 as an extended float. */
  lemma ExtendedOf44100()
    ensures ExtendedAt(RATE_44100) == Ok(Normal(false, 15, 0xac44_0000_0000_0000))
  {
    assert BeU16At(RATE_44100, 0) == 0x400e;
    assert BeU64At(RATE_44100, 2) == 0xac44_0000_0000_0000;
  }

  /** The sample rate 44100 reads as written as the bits of 54818, and
      corrected as the bits of 44100. */
  lemma ReadF80Of44100()
    ensures ReadF80AsWritten(RATE_44100) == Ok(0x40ea_c440_0000_0000)
    ensures ReadF80(RATE_44100) == Ok(0x40e5_8880_0000_0000)
  {
    ExtendedOf44100();
    var mantissa := 0xac44_0000_0000_0000;
    assert mantissa / TWO_12 == 0xa_c440_0000_0000;
    assert (mantissa - TWO_63) / TWO_11 == 0x5_8880_0000_0000;
  }
}
