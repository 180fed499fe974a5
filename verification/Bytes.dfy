/** Fixed-width little-endian integers, as Rust's `to_le_bytes` and `from_le_bytes` lay them out. */
module Bytes {

  type Byte = x: int | 0 <= x < 0x100
  type U16 = x: int | 0 <= x < 0x1_0000
  type U32 = x: int | 0 <= x < 0x1_0000_0000
  type U64 = x: int | 0 <= x < 0x1_0000_0000_0000_0000
  type I16 = x: int | -0x8000 <= x < 0x8000
  type I32 = x: int | -0x8000_0000 <= x < 0x8000_0000
  type I64 = x: int | -0x8000_0000_0000_0000 <= x < 0x8000_0000_0000_0000

  const TWO8: int := 0x100
  const TWO16: int := 0x1_0000
  const TWO32: int := 0x1_0000_0000
  const TWO64: int := 0x1_0000_0000_0000_0000

  function Clamp(v: int, lo: int, hi: int): (r: int)
    requires lo <= hi
    ensures lo <= r <= hi
    ensures lo <= v <= hi ==> r == v
  {
    if v < lo then lo else if v > hi then hi else v
  }

  function PutU16(v: U16): (s: seq<Byte>)
    ensures |s| == 2
  {
    [v % TWO8, v / TWO8]
  }

  function PutU32(v: U32): (s: seq<Byte>)
    ensures |s| == 4
  {
    PutU16(v % TWO16) + PutU16(v / TWO16)
  }

  function PutU64(v: U64): (s: seq<Byte>)
    ensures |s| == 8
  {
    PutU32(v % TWO32) + PutU32(v / TWO32)
  }

  function GetU16(s: seq<Byte>): U16
    requires |s| == 2
  {
    s[0] + TWO8 * s[1]
  }

  function GetU32(s: seq<Byte>): U32
    requires |s| == 4
  {
    GetU16(s[..2]) + TWO16 * GetU16(s[2..])
  }

  function GetU64(s: seq<Byte>): U64
    requires |s| == 8
  {
    GetU32(s[..4]) + TWO32 * GetU32(s[4..])
  }

  // Two's complement.

  function PutI16(v: I16): (s: seq<Byte>)
    ensures |s| == 2
  {
    PutU16(if v < 0 then v + TWO16 else v)
  }

  function PutI32(v: I32): (s: seq<Byte>)
    ensures |s| == 4
  {
    PutU32(if v < 0 then v + TWO32 else v)
  }

  function PutI64(v: I64): (s: seq<Byte>)
    ensures |s| == 8
  {
    PutU64(if v < 0 then v + TWO64 else v)
  }

  function GetI16(s: seq<Byte>): I16
    requires |s| == 2
  {
    var u := GetU16(s); if u >= 0x8000 then u - TWO16 else u
  }

  function GetI32(s: seq<Byte>): I32
    requires |s| == 4
  {
    var u := GetU32(s); if u >= 0x8000_0000 then u - TWO32 else u
  }

  function GetI64(s: seq<Byte>): I64
    requires |s| == 8
  {
    var u := GetU64(s); if u >= 0x8000_0000_0000_0000 then u - TWO64 else u
  }

  lemma Slices(b: seq<Byte>, i: nat, j: nat, k: nat)
    requires i <= j <= k <= |b|
    ensures b[i..k] == b[i..j] + b[j..k]
  {
  }

  lemma Cancel(x: seq<Byte>, y: seq<Byte>, z: seq<Byte>)
    ensures x + y == x + z <==> y == z
  {
    assert (x + y)[|x|..] == y && (x + z)[|x|..] == z;
  }

  lemma GetPutU16(v: U16)
    ensures GetU16(PutU16(v)) == v
  {
  }

  lemma GetPutU32(v: U32)
    ensures GetU32(PutU32(v)) == v
  {
    var s := PutU32(v);
    assert s[..2] == PutU16(v % TWO16) && s[2..] == PutU16(v / TWO16);
  }

  lemma GetPutU64(v: U64)
    ensures GetU64(PutU64(v)) == v
  {
    var s := PutU64(v);
    assert s[..4] == PutU32(v % TWO32) && s[4..] == PutU32(v / TWO32);
    GetPutU32(v % TWO32);
    GetPutU32(v / TWO32);
  }

  lemma PutGetU16(s: seq<Byte>)
    requires |s| == 2
    ensures PutU16(GetU16(s)) == s
  {
  }

  lemma PutGetU32(s: seq<Byte>)
    requires |s| == 4
    ensures PutU32(GetU32(s)) == s
  {
    var lo, hi := GetU16(s[..2]), GetU16(s[2..]);
    assert GetU32(s) % TWO16 == lo && GetU32(s) / TWO16 == hi;
    assert PutU16(lo) == s[..2] && PutU16(hi) == s[2..];
    assert s == s[..2] + s[2..];
  }

  lemma PutGetU64(s: seq<Byte>)
    requires |s| == 8
    ensures PutU64(GetU64(s)) == s
  {
    var lo, hi := GetU32(s[..4]), GetU32(s[4..]);
    PutGetU32(s[..4]);
    PutGetU32(s[4..]);
    assert GetU64(s) % TWO32 == lo && GetU64(s) / TWO32 == hi;
    assert s == s[..4] + s[4..];
  }

  /** Every signed width reads back what was written. */
  lemma GetPutSigned(a: I16, b: I32, c: I64)
    ensures GetI16(PutI16(a)) == a
    ensures GetI32(PutI32(b)) == b
    ensures GetI64(PutI64(c)) == c
  {
    GetPutU32(if b < 0 then b + TWO32 else b);
    GetPutU64(if c < 0 then c + TWO64 else c);
  }

  /** Every byte string of the width is the encoding of the number it reads as. */
  lemma PutGetSigned(a: seq<Byte>, b: seq<Byte>, c: seq<Byte>)
    requires |a| == 2 && |b| == 4 && |c| == 8
    ensures PutI16(GetI16(a)) == a
    ensures PutI32(GetI32(b)) == b
    ensures PutI64(GetI64(c)) == c
  {
    PutGetU32(b);
    PutGetU64(c);
  }

  // ---- Byte order ----

  /** The number whose base-256 digits are `s`, the lowest first. */
  function Positional(s: seq<Byte>): int {
    if s == [] then 0 else s[0] as int + 256 * Positional(s[1..])
  }

  lemma TwoDigits(s: seq<Byte>)
    requires |s| >= 2
    ensures Positional(s) == s[0] as int + 256 * (s[1] as int) + 65_536 * Positional(s[2..])
  {
    assert s[1..][1..] == s[2..] && s[1..][0] == s[1];
  }

  lemma {:induction false} PositionalConcat(s: seq<Byte>, t: seq<Byte>, high: int)
    requires (|s| == 2 && high == 65_536) || (|s| == 4 && high == 4_294_967_296)
    ensures Positional(s + t) == Positional(s) + high * Positional(t)
  {
    if |s| == 2 {
      TwoDigits(s + t);
      TwoDigits(s);
      assert (s + t)[2..] == t && s[2..] == [];
    } else {
      assert s == s[..2] + s[2..] && s + t == s[..2] + (s[2..] + t);
      PositionalConcat(s[..2], s[2..] + t, 65_536);
      PositionalConcat(s[2..], t, 65_536);
      PositionalConcat(s[..2], s[2..], 65_536);
    }
  }

  lemma TwoBytes(s: seq<Byte>)
    requires |s| == 2
    ensures GetU16(s) == Positional(s)
  {
    TwoDigits(s);
  }

  lemma FourBytes(s: seq<Byte>)
    requires |s| == 4
    ensures GetU32(s) == Positional(s)
  {
    TwoBytes(s[..2]);
    TwoBytes(s[2..]);
    PositionalConcat(s[..2], s[2..], 65_536);
    assert s == s[..2] + s[2..];
    hide Positional, GetU16;
  }

  /** Integers read and are written lowest byte first, and negative ones in two's complement. */
  lemma LittleEndian(a: seq<Byte>, b: seq<Byte>, c: seq<Byte>)
    requires |a| == 2 && |b| == 4 && |c| == 8
    ensures GetU16(a) == Positional(a) && GetU32(b) == Positional(b) && GetU64(c) == Positional(c)
    ensures GetI16(a) == if Positional(a) < 32_768 then Positional(a) else Positional(a) - 65_536
    ensures GetI32(b) == if Positional(b) < 2_147_483_648 then Positional(b) else Positional(b) - 4_294_967_296
    ensures GetI64(c) == if Positional(c) < 9_223_372_036_854_775_808 then Positional(c) else Positional(c) - 18_446_744_073_709_551_616
  {
    TwoBytes(a);
    FourBytes(b);
    FourBytes(c[..4]);
    FourBytes(c[4..]);
    PositionalConcat(c[..4], c[4..], 4_294_967_296);
    assert c == c[..4] + c[4..];
    hide Positional, GetU16, GetU32;
  }

  lemma PutLittleEndian(u: U16, v: U32, w: U64)
    ensures Positional(PutU16(u)) == u && Positional(PutU32(v)) == v && Positional(PutU64(w)) == w
  {
    LittleEndian(PutU16(u), PutU32(v), PutU64(w));
    GetPutU16(u);
    GetPutU32(v);
    GetPutU64(w);
    hide Positional, GetU16, GetU32, GetU64, PutU16, PutU32, PutU64;
  }

  lemma PutTwosComplement(a: I16, b: I32, c: I64)
    ensures Positional(PutI16(a)) == if a < 0 then a + 65_536 else a
    ensures Positional(PutI32(b)) == if b < 0 then b + 4_294_967_296 else b
    ensures Positional(PutI64(c)) == if c < 0 then c + 18_446_744_073_709_551_616 else c
  {
    PutLittleEndian(if a < 0 then a + TWO16 else a, if b < 0 then b + TWO32 else b, if c < 0 then c + TWO64 else c);
    hide Positional, PutU16, PutU32, PutU64;
  }
}
