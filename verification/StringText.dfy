/** How JSON.stringify quotes a string of UTF-16 code units, and how a quoted string is read back. */
module StringText {
  import opened Common
  import opened NumberText

  const QUOTE: Unit := 34
  const BACKSLASH: Unit := 92
  const LOWER_U: Unit := 117

  predicate IsHigh(u: Unit) { 0xD800 <= u < 0xDC00 }

  predicate IsLow(u: Unit) { 0xDC00 <= u < 0xE000 }

  /** No surrogate without its partner: the texts that have a UTF-8 encoding. */
  predicate WellFormed(t: Text) {
    if t == [] then true
    else if IsHigh(t[0]) then |t| > 1 && IsLow(t[1]) && WellFormed(t[2..])
    else !IsLow(t[0]) && WellFormed(t[1..])
  }

  type Hex = h: int | 0 <= h < 16

  function HexUnit(h: Hex): Unit {
    var v: int := h;
    if v < 10 then 48 + v else 87 + v
  }

  function HexValue(u: Unit): Option<Hex> {
    var v: int := u;
    if 48 <= v < 58 then Some(v - 48) else if 97 <= v < 103 then Some(v - 87) else None
  }

  /** The last `k` hexadecimal digits of `v`. */
  function HexDigits(v: nat, k: nat): (t: Text)
    ensures |t| == k && forall i :: 0 <= i < k ==> t[i] < 0xD800
  {
    if k == 0 then [] else HexDigits(v / 16, k - 1) + [HexUnit(v % 16)]
  }

  function ReadHex(t: Text): Option<nat> {
    if t == [] then Some(0)
    else
      var high, low := ReadHex(t[..|t| - 1]), HexValue(t[|t| - 1]);
      if high.None? || low.None? then None else Some(16 * high.value + low.value)
  }

  function Power16(k: nat): nat {
    if k == 0 then 1 else 16 * Power16(k - 1)
  }

  /** The letter of a two-character escape. */
  function Short(u: Unit): Option<Unit> {
    if u == QUOTE then Some(QUOTE)
    else if u == BACKSLASH then Some(BACKSLASH)
    else if u == 8 then Some(98)
    else if u == 9 then Some(116)
    else if u == 10 then Some(110)
    else if u == 12 then Some(102)
    else if u == 13 then Some(114)
    else None
  }

  function Long(c: Unit): Option<Unit> {
    if c == QUOTE then Some(QUOTE)
    else if c == BACKSLASH then Some(BACKSLASH)
    else if c == 98 then Some(8)
    else if c == 116 then Some(9)
    else if c == 110 then Some(10)
    else if c == 102 then Some(12)
    else if c == 114 then Some(13)
    else None
  }

  /** One unit that is not the start of a surrogate pair. */
  function EscapeUnit(u: Unit): Text {
    if Short(u).Some? then [BACKSLASH, Short(u).value]
    else if u < 32 || IsHigh(u) || IsLow(u) then [BACKSLASH, LOWER_U] + HexDigits(u, 4)
    else [u]
  }

  predicate StartsPair(s: Text) { |s| > 1 && IsHigh(s[0]) && IsLow(s[1]) }

  /** The characters between the quotes: paired surrogates stay as they are, lone ones are escaped. */
  function Escape(s: Text): Text {
    if s == [] then []
    else if StartsPair(s) then s[..2] + Escape(s[2..])
    else EscapeUnit(s[0]) + Escape(s[1..])
  }

  function Quote(s: Text): Text { [QUOTE] + (Escape(s) + [QUOTE]) }

  /** What has to be escaped: the quote, the backslash, control characters and surrogates without a partner. */
  predicate MustEscape(u: Unit) { u == QUOTE || u == BACKSLASH || u < 32 || IsHigh(u) || IsLow(u) }

  /** Nothing else is escaped, and the short form is taken where there is one. */
  lemma EscapesIff(u: Unit)
    ensures |EscapeUnit(u)| == (if !MustEscape(u) then 1
                                else if u in {8, 9, 10, 12, 13, QUOTE, BACKSLASH} then 2 else 6)
    ensures !MustEscape(u) ==> EscapeUnit(u) == [u]
    ensures MustEscape(u) ==> EscapeUnit(u)[0] == BACKSLASH
  {
  }

  /** Reads one unit, raw or escaped. */
  function ReadUnit(t: Text): (r: Option<(Unit, Text)>)
    ensures r.Some? ==> |r.value.1| < |t|
  {
    if t == [] || t[0] == QUOTE || t[0] < 32 then None
    else if t[0] != BACKSLASH then Some((t[0], t[1..]))
    else if |t| < 2 then None
    else if t[1] == LOWER_U then
      if |t| < 6 then None
      else
        var h := ReadHex(t[2..6]);
        if h.None? || h.value >= 0x10000 then None else Some((h.value, t[6..]))
    else
      var c := Long(t[1]);
      if c.None? then None else Some((c.value, t[2..]))
  }

  /** Reads up to the closing quote; the result is the string and what follows the quote. */
  function ReadRest(t: Text): (r: Option<(Text, Text)>)
    ensures r.Some? ==> |r.value.1| < |t|
    decreases |t|
  {
    if t != [] && t[0] == QUOTE then Some(([], t[1..]))
    else
      var u := ReadUnit(t);
      if u.None? then None
      else
        var more := ReadRest(u.value.1);
        if more.None? then None else Some(([u.value.0] + more.value.0, more.value.1))
  }

  lemma HexReadsBack(h: Hex)
    ensures HexValue(HexUnit(h)) == Some(h)
  {
  }

  lemma {:induction false} HexDigitsReadBack(v: nat, k: nat)
    requires v < Power16(k)
    ensures ReadHex(HexDigits(v, k)) == Some(v)
  {
    if k == 0 {
    } else {
      HexDigitsReadBack(v / 16, k - 1);
      HexReadsBack(v % 16);
      var t := HexDigits(v, k);
      assert t[..|t| - 1] == HexDigits(v / 16, k - 1);
    }
  }

  lemma UnitReadsBack(u: Unit, rest: Text)
    ensures EscapeUnit(u) != [] && EscapeUnit(u)[0] != QUOTE
    ensures ReadUnit(EscapeUnit(u) + rest) == Some((u, rest))
  {
    var t := EscapeUnit(u) + rest;
    if Short(u).Some? {
      assert t[0] == BACKSLASH && t[1] == Short(u).value && t[2..] == rest;
    } else if u < 32 || IsHigh(u) || IsLow(u) {
      assert t[0] == BACKSLASH && t[1] == LOWER_U;
      assert t[2..6] == HexDigits(u, 4) && t[6..] == rest;
      assert Power16(4) == 16 * Power16(3) == 256 * Power16(2) == 4096 * Power16(1) == 0x10000;
      HexDigitsReadBack(u, 4);
    } else {
      assert t[0] == u && t[1..] == rest;
    }
  }

  lemma ReadsOne(u: Unit, piece: Text, more: Text, s: Text, rest: Text)
    requires piece != [] && piece[0] != QUOTE && ReadUnit(piece + more) == Some((u, more))
    requires ReadRest(more) == Some((s, rest))
    ensures ReadRest(piece + more) == Some(([u] + s, rest))
  {
    assert (piece + more)[0] == piece[0];
  }

  lemma RawUnit(u: Unit, more: Text)
    requires IsHigh(u) || IsLow(u)
    ensures ReadUnit([u] + more) == Some((u, more))
  {
    assert ([u] + more)[1..] == more;
  }

  lemma ReadsPair(hi: Unit, lo: Unit, more: Text, s: Text, rest: Text)
    requires IsHigh(hi) && IsLow(lo) && ReadRest(more) == Some((s, rest))
    ensures ReadRest([hi] + ([lo] + more)) == Some(([hi] + ([lo] + s), rest))
  {
    RawUnit(lo, more);
    ReadsOne(lo, [lo], more, s, rest);
    RawUnit(hi, [lo] + more);
    ReadsOne(hi, [hi], [lo] + more, [lo] + s, rest);
  }

  lemma SplitPair(s: Text, t: Text)
    requires StartsPair(s)
    ensures Escape(s) + t == [s[0]] + ([s[1]] + (Escape(s[2..]) + t))
    ensures s == [s[0]] + ([s[1]] + s[2..])
  {
  }

  lemma SplitUnit(s: Text, t: Text)
    requires s != [] && !StartsPair(s)
    ensures Escape(s) + t == EscapeUnit(s[0]) + (Escape(s[1..]) + t)
    ensures s == [s[0]] + s[1..]
  {
    Associative(EscapeUnit(s[0]), Escape(s[1..]), t);
  }

  /** A quoted string is read back exactly, whatever follows it. */
  lemma {:induction false} ReadsString(s: Text, rest: Text)
    ensures ReadRest(Escape(s) + ([QUOTE] + rest)) == Some((s, rest))
    decreases |s|
  {
    var t := [QUOTE] + rest;
    if s == [] {
      assert Escape(s) + t == t;
      assert t[1..] == rest;
    } else if StartsPair(s) {
      ReadsString(s[2..], rest);
      SplitPair(s, t);
      ReadsPair(s[0], s[1], Escape(s[2..]) + t, s[2..], rest);
    } else {
      ReadsString(s[1..], rest);
      SplitUnit(s, t);
      UnitReadsBack(s[0], Escape(s[1..]) + t);
      ReadsOne(s[0], EscapeUnit(s[0]), Escape(s[1..]) + t, s[1..], rest);
    }
  }

  lemma {:induction false} JoinWellFormed(a: Text, b: Text)
    requires WellFormed(a) && WellFormed(b)
    ensures WellFormed(a + b)
    decreases |a|
  {
    if a == [] {
      assert a + b == b;
    } else if IsHigh(a[0]) {
      JoinWellFormed(a[2..], b);
      assert (a + b)[2..] == a[2..] + b;
    } else {
      JoinWellFormed(a[1..], b);
      assert (a + b)[1..] == a[1..] + b;
    }
  }

  lemma {:induction false} PlainWellFormed(t: Text)
    requires forall i :: 0 <= i < |t| ==> !IsHigh(t[i]) && !IsLow(t[i])
    ensures WellFormed(t)
  {
    if t == [] {
    } else {
      PlainWellFormed(t[1..]);
    }
  }

  lemma EscapeUnitPlain(u: Unit)
    ensures WellFormed(EscapeUnit(u))
  {
    var t := EscapeUnit(u);
    assert forall i :: 0 <= i < |t| ==> t[i] < 0xD800 || t[i] >= 0xE000;
    PlainWellFormed(t);
  }

  /** Quoting leaves no lone surrogate, whatever the string holds. */
  lemma {:induction false} EscapeWellFormed(s: Text)
    ensures WellFormed(Escape(s))
    decreases |s|
  {
    if s == [] {
    } else if StartsPair(s) {
      EscapeWellFormed(s[2..]);
      assert s[..2][2..] == [];
      JoinWellFormed(s[..2], Escape(s[2..]));
    } else {
      EscapeWellFormed(s[1..]);
      EscapeUnitPlain(s[0]);
      JoinWellFormed(EscapeUnit(s[0]), Escape(s[1..]));
    }
  }

  lemma QuoteWellFormed(s: Text)
    ensures WellFormed(Quote(s))
  {
    EscapeWellFormed(s);
    PlainWellFormed([QUOTE]);
    JoinWellFormed(Escape(s), [QUOTE]);
    JoinWellFormed([QUOTE], Escape(s) + [QUOTE]);
  }
}
