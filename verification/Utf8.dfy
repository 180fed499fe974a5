/** Well-formed UTF-8 (section 4 of RFC 3629): what `String::from_utf8` accepts. */
module Utf8 {
  import opened Bytes

  predicate Tail(b: Byte) {
    0x80 <= b <= 0xBF
  }

  /** Length of the well-formed character at the head of `s`, or 0 when there is none. */
  function CharLength(s: seq<Byte>): (n: nat)
    requires s != []
    ensures n <= |s|
  {
    var b := s[0];
    if b <= 0x7F then 1
    else if |s| < 2 || !Tail(s[1]) then 0
    else if 0xC2 <= b <= 0xDF then 2
    else if |s| < 3 || !Tail(s[2]) then 0
    else if 0xE0 <= b <= 0xEF then
      if (b == 0xE0 && s[1] < 0xA0) || (b == 0xED && s[1] > 0x9F) then 0 else 3
    else if |s| < 4 || !Tail(s[3]) then 0
    else if 0xF0 <= b <= 0xF4 then
      if (b == 0xF0 && s[1] < 0x90) || (b == 0xF4 && s[1] > 0x8F) then 0 else 4
    else 0
  }

  predicate ValidUtf8(s: seq<Byte>) {
    s == [] || (CharLength(s) != 0 && ValidUtf8(s[CharLength(s)..]))
  }

  /** Rust's `String`, by its bytes. */
  type Str = s: seq<Byte> | ValidUtf8(s)

  // ---- The same from the characters' side: section 3 of RFC 3629 ----

  /** A Unicode scalar value: surrogates are none. */
  type Scalar = c: int | 0 <= c <= 0xD7FF || 0xE000 <= c <= 0x10FFFF

  /** Six bits of a character. */
  function Trail(d: int): Byte
    requires 0 <= d < 64
  {
    0x80 + d
  }

  function Utf8Of(c: Scalar): (s: seq<Byte>)
    ensures 1 <= |s| <= 4
  {
    var d1, d2, d3 := c / 64, c / 64 / 64, c / 64 / 64 / 64;
    if c <= 0x7F then [c]
    else if c <= 0x7FF then [0xC0 + d1, Trail(c % 64)]
    else if c <= 0xFFFF then [0xE0 + d2, Trail(d1 % 64), Trail(c % 64)]
    else [0xF0 + d3, Trail(d2 % 64), Trail(d1 % 64), Trail(c % 64)]
  }

  function TextOf(cs: seq<Scalar>): seq<Byte> {
    if cs == [] then [] else Utf8Of(cs[0]) + TextOf(cs[1..])
  }

  /** The head of what a character encodes to has its length. */
  lemma CharOf(c: Scalar, rest: seq<Byte>)
    ensures CharLength(Utf8Of(c) + rest) == |Utf8Of(c)|
  {
    var s := Utf8Of(c) + rest;
    assert forall k :: 0 <= k < |Utf8Of(c)| ==> s[k] == Utf8Of(c)[k];
    if 0x7FF < c <= 0xFFFF {
      ThreeBytes(c);
    } else if 0xFFFF < c {
      FourBytesOf(c);
    }
  }

  lemma ThreeBytes(c: Scalar)
    requires 0x800 <= c <= 0xFFFF
    ensures var a, b := c / 64 / 64, c / 64 % 64; 0 <= a <= 15 && (a == 0 ==> b >= 0x20) && (a == 0xD ==> b <= 0x1F)
  {
  }

  lemma FourBytesOf(c: Scalar)
    requires 0x1_0000 <= c
    ensures var a, b := c / 64 / 64 / 64, c / 64 / 64 % 64; 0 <= a <= 4 && (a == 0 ==> b >= 0x10) && (a == 4 ==> b <= 0x0F)
  {
  }

  lemma Digits(q: int, r: int)
    requires 0 <= r < 64
    ensures (64 * q + r) / 64 == q && (64 * q + r) % 64 == r
  {
  }

  /** And what has a length is a character. */
  lemma CharFrom(s: seq<Byte>) returns (c: Scalar)
    requires s != [] && CharLength(s) != 0
    ensures Utf8Of(c) == s[..CharLength(s)]
  {
    var n := CharLength(s);
    if n == 1 {
      c := s[0];
    } else if n == 2 {
      c := From2(s[0], s[1]);
    } else if n == 3 {
      c := From3(s[0], s[1], s[2]);
    } else {
      c := From4(s[0], s[1], s[2], s[3]);
    }
    hide Utf8Of;
  }

  lemma From2(a: Byte, b: Byte) returns (c: Scalar)
    requires 0xC2 <= a <= 0xDF && Tail(b)
    ensures Utf8Of(c) == [a, b]
  {
    var x: int := a as int - 0xC0;
    var y: int := b as int - 0x80;
    Digits(x, y);
    c := 64 * x + y;
  }

  lemma From3(a: Byte, b: Byte, d: Byte) returns (c: Scalar)
    requires 0xE0 <= a <= 0xEF && Tail(b) && Tail(d) && !((a == 0xE0 && b < 0xA0) || (a == 0xED && b > 0x9F))
    ensures Utf8Of(c) == [a, b, d]
  {
    var x: int := a as int - 0xE0;
    var y: int := b as int - 0x80;
    var z: int := d as int - 0x80;
    Digits(x, y);
    Digits(64 * x + y, z);
    c := 64 * (64 * x + y) + z;
  }

  lemma From4(a: Byte, b: Byte, d: Byte, e: Byte) returns (c: Scalar)
    requires 0xF0 <= a <= 0xF4 && Tail(b) && Tail(d) && Tail(e) && !((a == 0xF0 && b < 0x90) || (a == 0xF4 && b > 0x8F))
    ensures Utf8Of(c) == [a, b, d, e]
  {
    var x: int := a as int - 0xF0;
    var y: int := b as int - 0x80;
    var z: int := d as int - 0x80;
    var w: int := e as int - 0x80;
    Digits(x, y);
    Digits(64 * x + y, z);
    Digits(64 * (64 * x + y) + z, w);
    c := 64 * (64 * (64 * x + y) + z) + w;
  }

  lemma {:induction false} TextIsValid(cs: seq<Scalar>)
    ensures ValidUtf8(TextOf(cs))
    decreases cs
  {
    if cs != [] {
      var x, rest := Utf8Of(cs[0]), TextOf(cs[1..]);
      CharOf(cs[0], rest);
      TextIsValid(cs[1..]);
      assert (x + rest)[|x|..] == rest;
    }
  }

  lemma {:induction false} ValidIsText(s: seq<Byte>) returns (cs: seq<Scalar>)
    requires ValidUtf8(s)
    ensures TextOf(cs) == s
    decreases |s|
  {
    if s == [] {
      cs := [];
    } else {
      var n := CharLength(s);
      var c := CharFrom(s);
      var rest := ValidIsText(s[n..]);
      cs := [c] + rest;
      assert cs[1..] == rest && s[..n] + s[n..] == s;
    }
  }

  /** Bytes are well-formed exactly when they encode some sequence of scalar values. */
  lemma ValidIff(s: seq<Byte>)
    ensures ValidUtf8(s) <==> exists cs :: TextOf(cs) == s
  {
    if ValidUtf8(s) {
      var cs := ValidIsText(s);
    }
    if cs :| TextOf(cs) == s {
      TextIsValid(cs);
    }
  }
}
