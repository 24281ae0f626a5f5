/** TextEncoder's UTF-8 encoding of UTF-16 text (encoding.ts). A lone surrogate is replaced by U+FFFD. */
module Utf8Text {
  import opened Common
  import opened NumberText
  import opened StringText

  type Byte = b: int | 0 <= b < 256

  type Scalar = c: int | 0 <= c < 0x110000

  /** The code point a surrogate pair stands for. */
  function Combine(hi: Unit, lo: Unit): Scalar
    requires IsHigh(hi) && IsLow(lo)
  {
    var h: int := hi; var l: int := lo;
    0x10000 + (h - 0xD800) * 0x400 + (l - 0xDC00)
  }

  function EncodeScalar(c: Scalar): (r: seq<Byte>)
    ensures 0 < |r|
  {
    var v: int := c;
    if v < 0x80 then [v]
    else if v < 0x800 then [0xC0 + v / 0x40, 0x80 + v % 0x40]
    else if v < 0x10000 then [0xE0 + v / 0x1000, 0x80 + v / 0x40 % 0x40, 0x80 + v % 0x40]
    else [0xF0 + v / 0x40000, 0x80 + v / 0x1000 % 0x40, 0x80 + v / 0x40 % 0x40, 0x80 + v % 0x40]
  }

  /** The shortest form: as few bytes as the code point needs, the first telling how many, the others continuation
   *  bytes. */
  lemma EncodeShape(c: Scalar)
    ensures var r := EncodeScalar(c);
            |r| == (if c < 0x80 then 1 else if c < 0x800 then 2 else if c < 0x10000 then 3 else 4) &&
            (|r| == 1 ==> r[0] < 0x80) && (|r| == 2 ==> 0xC0 <= r[0] < 0xE0) && (|r| == 3 ==> 0xE0 <= r[0] < 0xF0) &&
            (|r| == 4 ==> 0xF0 <= r[0] < 0xF8) && forall i :: 1 <= i < |r| ==> 0x80 <= r[i] < 0xC0
  {
  }

  /** The code points of a text. */
  function Scalars(t: Text): seq<Scalar> {
    if t == [] then []
    else if StartsPair(t) then [Combine(t[0], t[1])] + Scalars(t[2..])
    else if IsHigh(t[0]) || IsLow(t[0]) then [0xFFFD] + Scalars(t[1..])
    else var c: int := t[0]; [c] + Scalars(t[1..])
  }

  function EncodeAll(cs: seq<Scalar>): seq<Byte> {
    if cs == [] then [] else EncodeScalar(cs[0]) + EncodeAll(cs[1..])
  }

  function Encode(t: Text): seq<Byte> { EncodeAll(Scalars(t)) }

  // ---------------------------------------------------------------------------------------------
  // Decoding
  // ---------------------------------------------------------------------------------------------

  /** The first code point and the number of bytes it takes. */
  function DecodeFirst(b: seq<Byte>): (r: Option<(Scalar, nat)>)
    ensures r.Some? ==> 0 < r.value.1 <= |b|
  {
    if b == [] then None
    else
      var x: int := b[0];
      if x < 0x80 then Some((x, 1))
      else if |b| < 2 || x < 0xC0 then None
      else
        var y: int := b[1];
        if x < 0xE0 then Point((x - 0xC0) * 0x40 + (y - 0x80), 2)
        else if |b| < 3 then None
        else
          var z: int := b[2];
          if x < 0xF0 then Point(((x - 0xE0) * 0x40 + (y - 0x80)) * 0x40 + (z - 0x80), 3)
          else if |b| < 4 then None
          else
            var w: int := b[3];
            Point((((x - 0xF0) * 0x40 + (y - 0x80)) * 0x40 + (z - 0x80)) * 0x40 + (w - 0x80), 4)
  }

  function Point(v: int, n: nat): Option<(Scalar, nat)> {
    if 0 <= v < 0x110000 then Some((v, n)) else None
  }

  function UnitsOf(c: Scalar): Text {
    var v: int := c;
    if v < 0x10000 then [v] else [0xD800 + (v - 0x10000) / 0x400, 0xDC00 + (v - 0x10000) % 0x400]
  }

  function Decode(b: seq<Byte>): Text
    decreases |b|
  {
    var f := DecodeFirst(b);
    if f.None? then [] else UnitsOf(f.value.0) + Decode(b[f.value.1..])
  }

  lemma ReadsTwo(c: Scalar, rest: seq<Byte>)
    requires 0x80 <= c < 0x800
    ensures DecodeFirst(EncodeScalar(c) + rest) == Some((c, 2))
  {
    var v: int := c;
    var b := EncodeScalar(c) + rest;
    assert b[0] == 0xC0 + v / 0x40 && b[1] == 0x80 + v % 0x40;
  }

  lemma ReadsThree(c: Scalar, rest: seq<Byte>)
    requires 0x800 <= c < 0x10000
    ensures DecodeFirst(EncodeScalar(c) + rest) == Some((c, 3))
  {
    var v: int := c;
    var b := EncodeScalar(c) + rest;
    assert b[0] == 0xE0 + v / 0x1000 && b[1] == 0x80 + v / 0x40 % 0x40 && b[2] == 0x80 + v % 0x40;
    assert v / 0x40 / 0x40 == v / 0x1000;
  }

  lemma ReadsFour(c: Scalar, rest: seq<Byte>)
    requires 0x10000 <= c
    ensures DecodeFirst(EncodeScalar(c) + rest) == Some((c, 4))
  {
    var v: int := c;
    var b := EncodeScalar(c) + rest;
    assert b[0] == 0xF0 + v / 0x40000 && b[1] == 0x80 + v / 0x1000 % 0x40;
    assert b[2] == 0x80 + v / 0x40 % 0x40 && b[3] == 0x80 + v % 0x40;
    assert v / 0x40 / 0x40 == v / 0x1000 && v / 0x1000 / 0x40 == v / 0x40000;
  }

  lemma ReadsScalar(c: Scalar, rest: seq<Byte>)
    ensures DecodeFirst(EncodeScalar(c) + rest) == Some((c, |EncodeScalar(c)|))
  {
    if c < 0x80 { assert (EncodeScalar(c) + rest)[0] == c; }
    else if c < 0x800 { ReadsTwo(c, rest); }
    else if c < 0x10000 { ReadsThree(c, rest); }
    else { ReadsFour(c, rest); }
  }

  lemma DecodesFirst(c: Scalar, rest: seq<Byte>)
    ensures Decode(EncodeScalar(c) + rest) == UnitsOf(c) + Decode(rest)
  {
    ReadsScalar(c, rest);
    assert (EncodeScalar(c) + rest)[|EncodeScalar(c)|..] == rest;
  }

  /** The first code point of a text without lone surrogates, and the units after it. */
  lemma FirstScalar(t: Text) returns (c: Scalar, more: Text)
    requires WellFormed(t) && t != []
    ensures Scalars(t) == [c] + Scalars(more) && t == UnitsOf(c) + more && WellFormed(more) && |more| < |t|
  {
    if IsHigh(t[0]) {
      c, more := Combine(t[0], t[1]), t[2..];
      CombineSplits(t[0], t[1]);
      assert t == [t[0], t[1]] + more;
    } else {
      var v: int := t[0];
      c, more := v, t[1..];
      assert t == [t[0]] + more;
    }
  }

  lemma CombineSplits(hi: Unit, lo: Unit)
    requires IsHigh(hi) && IsLow(lo)
    ensures UnitsOf(Combine(hi, lo)) == [hi, lo]
  {
  }

  /** Text without lone surrogates is recovered from its bytes. */
  lemma {:induction false} DecodesBack(t: Text)
    requires WellFormed(t)
    ensures Decode(Encode(t)) == t
    decreases |t|
  {
    if t == [] {
    } else {
      var c, more := FirstScalar(t);
      DecodesBack(more);
      DecodesFirst(c, Encode(more));
      assert ([c] + Scalars(more))[1..] == Scalars(more);
    }
  }

  /** Why quoting escapes lone surrogates: raw, they would share their bytes with another text. */
  lemma LoneSurrogatesCollide()
    ensures Encode([0xD800]) == Encode([0xFFFD]) && [0xD800 as Unit] != [0xFFFD as Unit]
  {
    assert Scalars([0xD800]) == [0xFFFD] == Scalars([0xFFFD]);
    assert [0xD800 as Unit][0] != [0xFFFD as Unit][0];
  }
}
