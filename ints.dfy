/** Rust's fixed-width integers and the `as` casts the literal builder uses.
    Integers are mathematical here; every width is a subset type of `int`,
    and every cast that changes the bit pattern is written out. `isize` and
    `usize` are taken to be 64 bits wide. */
module RustInts {

  const TWO_64: int := 0x1_0000_0000_0000_0000

  type int8 = x: int | -0x80 <= x < 0x80
  type int16 = x: int | -0x8000 <= x < 0x8000
  type int32 = x: int | -0x8000_0000 <= x < 0x8000_0000
  type int64 = x: int | -0x8000_0000_0000_0000 <= x < 0x8000_0000_0000_0000
  type uint8 = x: int | 0 <= x < 0x100
  type uint16 = x: int | 0 <= x < 0x1_0000
  type uint32 = x: int | 0 <= x < 0x1_0000_0000
  type uint64 = x: int | 0 <= x < 0x1_0000_0000_0000_0000
  type isize = int64
  type usize = uint64

  /** The bit widths of the fixed-width integer types. */
  datatype Width = W8 | W16 | W32 | W64

  /** 2^w: the number of distinct bit patterns of width w. */
  function Modulus(w: Width): (m: nat)
    ensures 0x100 <= m <= TWO_64 && m % 2 == 0
  {
    match w
    case W8 => 0x100
    case W16 => 0x1_0000
    case W32 => 0x1_0000_0000
    case W64 => TWO_64
  }

  /** v is a value of the signed type of width w. */
  predicate InSigned(v: int, w: Width) {
    var half: int := Modulus(w) / 2;
    -half <= v < half
  }

  /** The two's-complement bit pattern of a signed value of width w, read as
      an unsigned number. */
  function Bits(v: int, w: Width): (b: nat)
    requires InSigned(v, w)
    ensures b < Modulus(w)
    ensures (b - v) % Modulus(w) == 0
    ensures (b < Modulus(w) / 2) == (0 <= v)
  {
    if v < 0 then v + Modulus(w) else v
  }

  /** Bit-level sign extension of a w-bit pattern to 64 bits: the top bit of
      the pattern is copied into every higher bit. */
  function SignExtend(b: nat, w: Width): uint64
    requires b < Modulus(w)
  {
    if b < Modulus(w) / 2 then b else b + (TWO_64 - Modulus(w))
  }

  /** Bit-level zero extension of a w-bit pattern to 64 bits: the higher bits
      are cleared, which leaves the pattern's number unchanged. */
  function ZeroExtend(b: nat, w: Width): uint64
    requires b < Modulus(w)
  {
    b
  }

  /** `v as u64` for `v: i64`: the same 64 bits, read as unsigned. */
  function I64AsU64(v: int64): (u: uint64)
    ensures (u - v) % TWO_64 == 0
    ensures U64AsI64(u) == v
  {
    if v < 0 then v + TWO_64 else v
  }

  /** `u as i64` for `u: u64`: the same 64 bits, read as two's complement. */
  function U64AsI64(u: uint64): (v: int64)
    ensures (u - v) % TWO_64 == 0
    ensures (v < 0) == (0x8000_0000_0000_0000 <= u)
  {
    if u < 0x8000_0000_0000_0000 then u else u - TWO_64
  }

  /** The reinterpretation is a bijection: going from `u64` to `i64` and back
      loses nothing either. */
  lemma U64AsI64RoundTrip(u: uint64)
    ensures I64AsU64(U64AsI64(u)) == u
  {
  }

  /** `v as i64` for a signed `v` of width w: reinterpret the sign-extended
      bit pattern. Sign extension keeps the mathematical value. */
  function WidenSigned(v: int, w: Width): (x: int64)
    requires InSigned(v, w)
    ensures x == v
    ensures I64AsU64(x) == SignExtend(Bits(v, w), w)
  {
    U64AsI64(SignExtend(Bits(v, w), w))
  }

  /** `v as u64` for an unsigned `v` of width w: zero extension keeps the
      value, which stays below 2^w. */
  function WidenUnsigned(v: nat, w: Width): (x: uint64)
    requires v < Modulus(w)
    ensures x == v && x < Modulus(w)
  {
    ZeroExtend(v, w)
  }
}
