/**
 Base 64 with padding, as section 4 of RFC 4648 defines it. Decoding is strict about
 unused bits, and accepts padding at the end of any group of four characters.
 */
module Base64 {
  import opened Prelude

  type Byte = b: int | 0 <= b < 256
  type Bytes = seq<Byte>

  const PAD: Byte := 61

  function Symbol(v: int): (c: Byte)
    requires 0 <= v < 64
    ensures c != PAD && Value(c) == Some(v)
  {
    if v < 26 then v + 65 else if v < 52 then v + 71 else if v < 62 then v - 4 else if v == 62 then 43 else 47
  }

  function Value(c: Byte): (v: Option<int>)
    ensures v.Some? ==> 0 <= v.value < 64
  {
    if 65 <= c <= 90 then Some(c - 65)
    else if 97 <= c <= 122 then Some(c - 71)
    else if 48 <= c <= 57 then Some(c + 4)
    else if c == 43 then Some(62)
    else if c == 47 then Some(63)
    else None
  }

  /** The four characters for one, two or three bytes. */
  function Characters(b: Bytes): (e: Bytes)
    requires 1 <= |b| <= 3
    ensures |e| == 4
  {
    if |b| == 1 then
      [Symbol(b[0] / 4), Symbol(b[0] % 4 * 16), PAD, PAD]
    else if |b| == 2 then
      [Symbol(b[0] / 4), Symbol(b[0] % 4 * 16 + b[1] / 16), Symbol(b[1] % 16 * 4), PAD]
    else
      [Symbol(b[0] / 4), Symbol(b[0] % 4 * 16 + b[1] / 16), Symbol(b[1] % 16 * 4 + b[2] / 64), Symbol(b[2] % 64)]
  }

  function Encode(b: Bytes): Bytes {
    if b == [] then []
    else if |b| <= 3 then Characters(b)
    else Characters(b[..3]) + Encode(b[3..])
  }

  /** One group of four characters. */
  function Group(c0: Byte, c1: Byte, c2: Byte, c3: Byte): (r: Option<Bytes>)
    ensures r.Some? ==> 1 <= |r.value| <= 3
  {
    var v0, v1, v2, v3 := Value(c0), Value(c1), Value(c2), Value(c3);
    if v0.None? || v1.None? then None
    else if c2 == PAD && c3 == PAD then
      if v1.value % 16 != 0 then None else Some([v0.value * 4 + v1.value / 16])
    else if v2.None? then None
    else if c3 == PAD then
      if v2.value % 4 != 0 then None
      else Some([v0.value * 4 + v1.value / 16, v1.value % 16 * 16 + v2.value / 4])
    else if v3.None? then None
    else Some([v0.value * 4 + v1.value / 16, v1.value % 16 * 16 + v2.value / 4, v2.value % 4 * 64 + v3.value])
  }

  function Decode(s: Bytes): (r: Option<Bytes>)
    ensures r.Some? ==> |r.value| <= |s|
  {
    if s == [] then Some([])
    else if |s| < 4 then None
    else
      match Group(s[0], s[1], s[2], s[3])
      case None => None
      case Some(head) =>
        match Decode(s[4..])
        case None => None
        case Some(tail) => Some(head + tail)
  }

  lemma GroupOfValues(c0: Byte, c1: Byte, c2: Byte, c3: Byte, v0: int, v1: int, v2: int, v3: int)
    requires Value(c0) == Some(v0) && Value(c1) == Some(v1) && Value(c2) == Some(v2) && Value(c3) == Some(v3)
    ensures Group(c0, c1, c2, c3) == Some([v0 * 4 + v1 / 16, v1 % 16 * 16 + v2 / 4, v2 % 4 * 64 + v3])
  {}

  lemma ThreeBytes(x: Byte, y: Byte, z: Byte)
    ensures var a, b, c, d := x / 4, x % 4 * 16 + y / 16, y % 16 * 4 + z / 64, z % 64;
            && 0 <= a < 64 && 0 <= b < 64 && 0 <= c < 64 && 0 <= d < 64
            && a * 4 + b / 16 == x && b % 16 * 16 + c / 4 == y && c % 4 * 64 + d == z
  {}

  lemma SymbolsInvert(a: int, b: int, c: int, d: int)
    requires 0 <= a < 64 && 0 <= b < 64 && 0 <= c < 64 && 0 <= d < 64
    ensures Group(Symbol(a), Symbol(b), Symbol(c), Symbol(d)) == Some([a * 4 + b / 16, b % 16 * 16 + c / 4, c % 4 * 64 + d])
  {
    GroupOfValues(Symbol(a), Symbol(b), Symbol(c), Symbol(d), a, b, c, d);
  }

  lemma FullGroupInverts(x: Byte, y: Byte, z: Byte)
    ensures var a, b, c, d := x / 4, x % 4 * 16 + y / 16, y % 16 * 4 + z / 64, z % 64;
            && 0 <= a < 64 && 0 <= b < 64 && 0 <= c < 64 && 0 <= d < 64
            && Group(Symbol(a), Symbol(b), Symbol(c), Symbol(d)) == Some([x, y, z])
  {
    ThreeBytes(x, y, z);
    var a, b, c, d := x / 4, x % 4 * 16 + y / 16, y % 16 * 4 + z / 64, z % 64;
    SymbolsInvert(a, b, c, d);
  }

  lemma PaddedGroupInverts(x: Byte, y: Byte)
    ensures var e := Characters([x]); Group(e[0], e[1], e[2], e[3]) == Some([x])
    ensures var e := Characters([x, y]); Group(e[0], e[1], e[2], e[3]) == Some([x, y])
  {}

  lemma GroupInverts(b: Bytes)
    requires 1 <= |b| <= 3
    ensures var e := Characters(b); Group(e[0], e[1], e[2], e[3]) == Some(b)
  {
    if |b| < 3 {
      PaddedGroupInverts(b[0], if |b| == 2 then b[1] else 0);
      assert b == if |b| == 1 then [b[0]] else [b[0], b[1]];
    } else {
      FullGroupInverts(b[0], b[1], b[2]);
      assert b == [b[0], b[1], b[2]];
    }
  }

  lemma {:induction false} DecodeUndoesEncode(b: Bytes)
    ensures Decode(Encode(b)) == Some(b)
  {
    if 1 <= |b| <= 3 {
      GroupInverts(b);
      assert Encode(b)[4..] == [] && b == b + [];
    } else if b != [] {
      GroupInverts(b[..3]);
      DecodeUndoesEncode(b[3..]);
      assert Encode(b)[4..] == Encode(b[3..]) && b == b[..3] + b[3..];
    }
  }
}
