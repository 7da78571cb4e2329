/** Fixed-width integers as bounded mathematical integers, and the
    big-endian field reads every decoder of the project is built on. */
module Bytes {

  type Byte = x: int | 0 <= x < 0x100
  type U16 = x: int | 0 <= x < 0x1_0000
  type U32 = x: int | 0 <= x < 0x1_0000_0000
  type U64 = x: int | 0 <= x < 0x1_0000_0000_0000_0000
  type I8 = x: int | -0x80 <= x < 0x80
  /** The low four bits of an opcode, used as a slot number. */
  type Nibble = x: int | 0 <= x < 0x10
  /** What a variable-length operand can hold. */
  type U15 = x: int | 0 <= x < 0x8000
  type I16 = x: int | -0x8000 <= x < 0x8000

  const TWO_63: int := 0x8000_0000_0000_0000

  /** `b as i8`: two's-complement reinterpretation of a byte. */
  function AsI8(b: Byte): (r: I8)
    ensures r == b || r == b - 0x100
    ensures (r < 0) <==> (b >= 0x80)
  {
    if b < 0x80 then b else b - 0x100
  }

  /** The byte that `b as i8` reinterprets back to `b`. */
  function I8Byte(b: I8): (r: Byte)
    ensures AsI8(r) == b
  {
    if b < 0 then b + 0x100 else b
  }

  /** `BE::read_u16` of two bytes. */
  function BeU16(hi: Byte, lo: Byte): (r: U16)
    ensures r / 0x100 == hi && r % 0x100 == lo
  {
    hi * 0x100 + lo
  }

  /** `BE::read_u16(&s[i..i + 2])`. */
  function BeU16At(s: seq<Byte>, i: nat): (r: U16)
    requires i + 2 <= |s|
    ensures r / 0x100 == s[i] && r % 0x100 == s[i + 1]
  {
    BeU16(s[i], s[i + 1])
  }

  /** `BE::read_u32(&s[i..i + 4])`. */
  function BeU32At(s: seq<Byte>, i: nat): (r: U32)
    requires i + 4 <= |s|
    ensures r / 0x1_0000 == BeU16At(s, i) && r % 0x1_0000 == BeU16At(s, i + 2)
  {
    BeU16At(s, i) * 0x1_0000 + BeU16At(s, i + 2)
  }

  /** `BE::read_u64(&s[i..i + 8])`. */
  function BeU64At(s: seq<Byte>, i: nat): (r: U64)
    requires i + 8 <= |s|
    ensures r / 0x1_0000_0000 == BeU32At(s, i) && r % 0x1_0000_0000 == BeU32At(s, i + 4)
  {
    BeU32At(s, i) * 0x1_0000_0000 + BeU32At(s, i + 4)
  }

  /** `BE::read_i16(&s[i..i + 2])`. */
  function BeI16At(s: seq<Byte>, i: nat): (r: I16)
    requires i + 2 <= |s|
    ensures r == BeU16At(s, i) || r == BeU16At(s, i) - 0x1_0000
    ensures (r < 0) <==> (s[i] >= 0x80)
  {
    var u := BeU16At(s, i);
    if u < 0x8000 then u else u - 0x1_0000
  }

  /** The two big-endian bytes of a 16-bit value. */
  function U16Bytes(v: U16): (r: seq<Byte>)
    ensures |r| == 2 && BeU16At(r, 0) == v
  {
    [v / 0x100, v % 0x100]
  }

  /** The two big-endian bytes of a 16-bit two's-complement value. */
  function I16Bytes(v: I16): (r: seq<Byte>)
    ensures |r| == 2 && BeI16At(r, 0) == v
  {
    U16Bytes(if v < 0 then v + 0x1_0000 else v)
  }

  /** The four big-endian bytes of a 32-bit value. */
  function U32Bytes(v: U32): (r: seq<Byte>)
    ensures |r| == 4 && BeU32At(r, 0) == v
  {
    U16Bytes(v / 0x1_0000) + U16Bytes(v % 0x1_0000)
  }

  /** `x >> k`. */
  function Shr(x: nat, k: nat): nat
  {
    if k == 0 then x else Shr(x, k - 1) / 2
  }

  /** Bit k of x, as `x >> k & 1 != 0`. */
  predicate Bit(x: nat, k: nat)
  {
    Shr(x, k) % 2 == 1
  }
}

/** What a Rust panic would be, as a value: the model never aborts silently. */
module Outcomes {

  datatype Fault =
    | OutOfBounds           // index or slice past the end, or a fixed array indexed past its length
    | Overflow              // integer overflow or underflow (a debug-build panic)
    | UnwrapNone            // `Option::unwrap` of `None`
    | UnwrapErr             // `Result::unwrap` of an `Err`
    | UnknownOpcode(op: int)  // a decoder's `todo!`/`unimplemented!` arm
    | Unhandled             // an interpreter's `todo!`/`unimplemented!` arm
    | Unsupported           // `unimplemented!` on a value the parser does not support
    | OutOfFuel             // the model's instruction bound was reached before the script yielded

  datatype Outcome<+T> = Ok(value: T) | Panic(fault: Fault)

  datatype Option<+T> = None | Some(value: T)

  /** A decoded instruction and the number of bytes the decoder reports for it. */
  datatype Decoded<+C> = Decoded(cmd: C, size: nat)
}
