/** The variable-length operand of the m64 bytecode (m64/src/lib.rs):
    a value below 0x80 is one byte; otherwise the first byte carries the
    top bit as a marker and the high seven bits, the second byte the low eight. */
module VarInt {
  import opened Bytes
  import opened Outcomes

  datatype Var = Var(value: U16, size: nat)

  /** `read_var`: the value and the number of bytes it occupies. */
  function ReadVar(data: seq<Byte>): (r: Outcome<Var>)
    ensures |data| == 0 ==> r == Panic(OutOfBounds)
    ensures |data| > 0 && data[0] < 0x80 ==> r == Ok(Var(data[0], 1))
    ensures |data| > 0 && data[0] >= 0x80 && |data| < 2 ==> r == Panic(OutOfBounds)
    ensures |data| >= 2 && data[0] >= 0x80 ==> r == Ok(Var((data[0] as int - 0x80) * 0x100 + data[1], 2))
    ensures r.Ok? ==> r.value.value < 0x8000 && 1 <= r.value.size <= 2 && r.value.size <= |data|
  {
    if |data| == 0 then Panic(OutOfBounds)
    else if data[0] < 0x80 then Ok(Var(data[0], 1))
    else if |data| < 2 then Panic(OutOfBounds)
    else Ok(Var(BeU16(data[0] - 0x80, data[1]), 2))
  }

  /** The encoding `read_var` inverts: one byte below 0x80, two bytes otherwise. */
  function EncodeVar(v: nat): (r: seq<Byte>)
    requires v < 0x8000
    ensures |r| == (if v < 0x80 then 1 else 2)
    ensures r[0] >= 0x80 <==> v >= 0x80
  {
    if v < 0x80 then [v] else [0x80 + v / 0x100, v % 0x100]
  }

  /** Decoding an encoded value gives it back with its encoded length,
      whatever bytes follow it. */
  lemma ReadVarRoundTrip(v: nat, rest: seq<Byte>)
    requires v < 0x8000
    ensures ReadVar(EncodeVar(v) + rest) == Ok(Var(v, |EncodeVar(v)|))
  {
    var e := EncodeVar(v) + rest;
    if v >= 0x80 {
      assert e[0] == 0x80 + v / 0x100 && e[1] == v % 0x100;
    }
  }
}
