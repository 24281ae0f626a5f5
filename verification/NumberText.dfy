/** How JSON.stringify writes a finite number (Number::toString of ECMA-262), and how it is read back.
 *  A finite double is represented by its sign and the shortest decimal digits that identify it.
 */
module NumberText {
  import opened Common

  /** A UTF-16 code unit. */
  type Unit = u: int | 0 <= u < 0x10000

  type Text = seq<Unit>

  type Digit = d: int | 0 <= d < 10

  /** (-1)^negative * 0.d1 d2 ... dk * 10^point; zero has no digits. */
  datatype Number = Number(negative: bool, digits: seq<Digit>, point: int)

  predicate Valid(x: Number) {
    if x.digits == [] then x.point == 0 else x.digits[0] != 0 && x.digits[|x.digits| - 1] != 0
  }

  const ZERO: Unit := 48
  const MINUS: Unit := 45
  const PLUS: Unit := 43
  const POINT: Unit := 46
  const EXPONENT: Unit := 101

  function UnitOf(d: Digit): Unit {
    var v: int := d;
    ZERO + v
  }

  function DigitOf(u: Unit): Digit
    requires IsDigitUnit(u)
  {
    var v: int := u;
    v - ZERO
  }

  function Chars(ds: seq<Digit>): (t: Text)
    ensures |t| == |ds| && forall i :: 0 <= i < |t| ==> t[i] == UnitOf(ds[i])
  {
    seq(|ds|, i requires 0 <= i < |ds| => UnitOf(ds[i]))
  }

  function Zeros(k: nat): (t: Text)
    ensures |t| == k && forall i :: 0 <= i < k ==> t[i] == ZERO
  {
    seq(k, _ => ZERO)
  }

  /** Decimal notation of an exponent. */
  function Decimal(n: nat): (t: Text)
    ensures |t| > 0 && forall i :: 0 <= i < |t| ==> 48 <= t[i] <= 57
  {
    if n < 10 then [UnitOf(n)] else Decimal(n / 10) + [UnitOf(n % 10)]
  }

  function Mantissa(ds: seq<Digit>): Text
    requires ds != []
  {
    if |ds| == 1 then Chars(ds) else Chars(ds[..1]) + [POINT] + Chars(ds[1..])
  }

  function ExponentText(e: int): Text {
    if e < 0 then [MINUS] + Decimal(-e) else [PLUS] + Decimal(e)
  }

  /** The four layouts, chosen by where the decimal point falls. */
  function Magnitude(ds: seq<Digit>, point: int): Text
    requires ds != []
  {
    var k := |ds|;
    if k <= point <= 21 then Chars(ds) + Zeros(point - k)
    else if 0 < point <= 21 then Chars(ds[..point]) + [POINT] + Chars(ds[point..])
    else if -6 < point <= 0 then [ZERO, POINT] + Zeros(-point) + Chars(ds)
    else Mantissa(ds) + [EXPONENT] + ExponentText(point - 1)
  }

  /** Negative zero is written as zero. */
  function Print(x: Number): Text {
    if x.digits == [] then [ZERO] else (if x.negative then [MINUS] else []) + Magnitude(x.digits, x.point)
  }

  /** The value: the sign of zero is not part of it. */
  function OneZero(x: Number): Number {
    if x.digits == [] then Number(false, [], 0) else x
  }

  predicate IsDigitUnit(u: Unit) { 48 <= u <= 57 }

  predicate IsNumberUnit(u: Unit) {
    IsDigitUnit(u) || u == MINUS || u == PLUS || u == POINT || u == EXPONENT
  }

  // ---------------------------------------------------------------------------------------------
  // Reading
  // ---------------------------------------------------------------------------------------------

  /** The first position of `u` in `t`, or |t|. */
  function Find(t: Text, u: Unit): (i: nat)
    ensures i <= |t| && (i < |t| ==> t[i] == u) && forall j :: 0 <= j < i ==> t[j] != u
  {
    if t == [] || t[0] == u then 0 else 1 + Find(t[1..], u)
  }

  function Values(t: Text): Option<seq<Digit>> {
    if forall i :: 0 <= i < |t| ==> IsDigitUnit(t[i])
    then Some(seq(|t|, i requires 0 <= i < |t| && IsDigitUnit(t[i]) => DigitOf(t[i]))) else None
  }

  function Leading(t: Text): (k: nat)
    ensures k <= |t| && (forall i :: 0 <= i < k ==> t[i] == ZERO) && (k < |t| ==> t[k] != ZERO)
  {
    if t == [] || t[0] != ZERO then 0 else 1 + Leading(t[1..])
  }

  function TrimRight(t: Text): (r: Text)
    ensures |r| <= |t| && r == t[..|r|] && (forall i :: |r| <= i < |t| ==> t[i] == ZERO)
    ensures r != [] ==> r[|r| - 1] != ZERO
  {
    if t == [] || t[|t| - 1] != ZERO then t else TrimRight(t[..|t| - 1])
  }

  function ReadDecimal(t: Text): int {
    if t == [] then 0 else var u: int := t[|t| - 1]; ReadDecimal(t[..|t| - 1]) * 10 + (u - 48)
  }

  function ReadExponent(t: Text): int {
    if t == [] then 0 else if t[0] == MINUS then -ReadDecimal(t[1..]) else ReadDecimal(t[1..])
  }

  function Make(negative: bool, digits: Text, point: int): Option<Number> {
    var v := Values(digits);
    if v.None? then None else Some(Number(negative, v.value, point))
  }

  function WithoutPoint(m: Text): Text {
    var p := Find(m, POINT);
    if p < |m| then m[..p] + m[p + 1..] else m
  }

  function ReadPlain(negative: bool, t: Text): Option<Number> {
    var p := Find(t, POINT);
    if p == |t| then Make(negative, TrimRight(t), |t|)
    else if t[..p] == [ZERO] then
      var k: int := Leading(t[p + 1..]);
      Make(negative, t[p + 1..][k..], -k)
    else Make(negative, t[..p] + t[p + 1..], p)
  }

  function ReadMagnitude(negative: bool, t: Text): Option<Number> {
    var e := Find(t, EXPONENT);
    if e < |t| then Make(negative, WithoutPoint(t[..e]), ReadExponent(t[e + 1..]) + 1)
    else ReadPlain(negative, t)
  }

  function Read(t: Text): Option<Number> {
    if t == [ZERO] then Some(Number(false, [], 0))
    else if t != [] && t[0] == MINUS then ReadMagnitude(true, t[1..])
    else ReadMagnitude(false, t)
  }

  // ---------------------------------------------------------------------------------------------
  // Reading undoes writing
  // ---------------------------------------------------------------------------------------------

  lemma ValuesOfChars(ds: seq<Digit>)
    ensures Values(Chars(ds)) == Some(ds)
  {
    assert Values(Chars(ds)).value == ds;
  }

  lemma {:induction false} ReadsDecimal(n: nat)
    ensures ReadDecimal(Decimal(n)) == n
  {
    if n < 10 {
      assert Decimal(n)[..0] == [];
      assert ReadDecimal([]) == 0;
    } else {
      ReadsDecimal(n / 10);
      var t := Decimal(n);
      assert t[..|t| - 1] == Decimal(n / 10);
    }
  }

  lemma FindAt(a: Text, u: Unit, b: Text)
    requires forall i :: 0 <= i < |a| ==> a[i] != u
    ensures Find(a + [u] + b, u) == |a|
  {
    assert (a + [u] + b)[|a|] == u;
  }

  lemma FindNone(t: Text, u: Unit)
    requires forall i :: 0 <= i < |t| ==> t[i] != u
    ensures Find(t, u) == |t|
  {
  }

  lemma ReadsInteger(negative: bool, ds: seq<Digit>, point: int)
    requires ds != [] && ds[|ds| - 1] != 0 && |ds| <= point
    ensures ReadMagnitude(negative, Chars(ds) + Zeros(point - |ds|)) == Some(Number(negative, ds, point))
  {
    var t := Chars(ds) + Zeros(point - |ds|);
    FindNone(t, EXPONENT);
    FindNone(t, POINT);
    var r := TrimRight(t);
    assert t[|ds| - 1] == UnitOf(ds[|ds| - 1]);
    assert |r| >= |ds|;
    assert forall i :: |ds| <= i < |t| ==> t[i] == ZERO;
    assert r == Chars(ds);
    ValuesOfChars(ds);
  }

  /** The parts of a decimal. */
  lemma FractionParts(a: Text, b: Text)
    requires AllDigits(a) && AllDigits(b)
    ensures var t := a + [POINT] + b;
            Find(t, EXPONENT) == |t| && Find(t, POINT) == |a| && t[..|a|] == a && t[|a| + 1..] == b
  {
    FindNone(a + [POINT] + b, EXPONENT);
    FindAt(a, POINT, b);
  }

  lemma ReadsFraction(negative: bool, ds: seq<Digit>, point: int)
    requires ds != [] && ds[0] != 0 && 0 < point < |ds|
    ensures ReadMagnitude(negative, Chars(ds[..point]) + [POINT] + Chars(ds[point..])) == Some(Number(negative, ds, point))
  {
    var a, b := Chars(ds[..point]), Chars(ds[point..]);
    FractionParts(a, b);
    assert a[0] == UnitOf(ds[0]);
    assert a + b == Chars(ds);
    ValuesOfChars(ds);
  }

  lemma ReadsSmall(negative: bool, ds: seq<Digit>, point: int)
    requires ds != [] && ds[0] != 0 && point <= 0
    ensures ReadMagnitude(negative, [ZERO, POINT] + Zeros(-point) + Chars(ds)) == Some(Number(negative, ds, point))
  {
    var t := [ZERO, POINT] + Zeros(-point) + Chars(ds);
    FindNone(t, EXPONENT);
    assert t == [ZERO] + [POINT] + (Zeros(-point) + Chars(ds));
    FindAt([ZERO], POINT, Zeros(-point) + Chars(ds));
    var f := t[2..];
    assert f == Zeros(-point) + Chars(ds);
    assert t[..1] == [ZERO];
    var k := Leading(f);
    assert f[-point] == UnitOf(ds[0]);
    assert k == -point;
    assert f[k..] == Chars(ds);
    ValuesOfChars(ds);
  }

  lemma ReadsExponent(e: int)
    ensures ReadExponent(ExponentText(e)) == e
  {
    var n := if e < 0 then -e else e;
    assert ExponentText(e)[1..] == Decimal(n);
    ReadsDecimal(n);
  }

  lemma MantissaDigits(ds: seq<Digit>)
    requires ds != []
    ensures WithoutPoint(Mantissa(ds)) == Chars(ds)
    ensures forall i :: 0 <= i < |Mantissa(ds)| ==> Mantissa(ds)[i] != EXPONENT
  {
    var m := Mantissa(ds);
    if |ds| > 1 {
      var a, b := Chars(ds[..1]), Chars(ds[1..]);
      FindAt(a, POINT, b);
      assert a + b == Chars(ds);
      assert m[..1] == a && m[2..] == b;
    } else {
      FindNone(m, POINT);
    }
  }

  lemma ReadsScientific(negative: bool, ds: seq<Digit>, point: int)
    requires ds != []
    ensures ReadMagnitude(negative, Mantissa(ds) + [EXPONENT] + ExponentText(point - 1)) == Some(Number(negative, ds, point))
  {
    var m, x := Mantissa(ds), ExponentText(point - 1);
    var t := m + [EXPONENT] + x;
    MantissaDigits(ds);
    FindAt(m, EXPONENT, x);
    assert t[..|m|] == m && t[|m| + 1..] == x;
    ReadsExponent(point - 1);
    ValuesOfChars(ds);
  }

  lemma ReadsMagnitude(negative: bool, ds: seq<Digit>, point: int)
    requires ds != [] && ds[0] != 0 && ds[|ds| - 1] != 0
    ensures ReadMagnitude(negative, Magnitude(ds, point)) == Some(Number(negative, ds, point))
  {
    if |ds| <= point <= 21 { ReadsInteger(negative, ds, point); }
    else if 0 < point <= 21 { ReadsFraction(negative, ds, point); }
    else if -6 < point <= 0 { ReadsSmall(negative, ds, point); }
    else { ReadsScientific(negative, ds, point); }
  }

  /** The first character is a digit; a leading zero is followed by a point. */
  lemma Start(ds: seq<Digit>, point: int)
    requires ds != [] && ds[0] != 0
    ensures var m := Magnitude(ds, point); m != [] && m != [ZERO] && IsDigitUnit(m[0])
  {
    if |ds| <= point <= 21 { assert Magnitude(ds, point)[0] == UnitOf(ds[0]); }
    else if 0 < point <= 21 { assert Magnitude(ds, point)[0] == UnitOf(ds[0]); }
    else if -6 < point <= 0 { assert Magnitude(ds, point)[0] == ZERO; }
    else { assert Mantissa(ds)[0] == UnitOf(ds[0]); }
  }

  /** Every finite number is read back from its text, up to the sign of zero. */
  lemma ReadsBack(x: Number)
    requires Valid(x)
    ensures Read(Print(x)) == Some(OneZero(x))
  {
    if x.digits != [] {
      var m := Magnitude(x.digits, x.point);
      ReadsMagnitude(x.negative, x.digits, x.point);
      Start(x.digits, x.point);
      if x.negative {
        assert Print(x) == [MINUS] + m;
        assert Print(x)[1..] == m;
      } else {
        assert Print(x) == m;
      }
    }
  }

  predicate AllDigits(t: Text) { forall i :: 0 <= i < |t| ==> IsDigitUnit(t[i]) }

  lemma InJoin(a: Text, b: Text, u: Unit)
    ensures u in a + b <==> u in a || u in b
  {
  }

  lemma MantissaUnits(ds: seq<Digit>)
    requires ds != []
    ensures var a := Mantissa(ds);
            a != [] && a[0] == UnitOf(ds[0]) && EXPONENT !in a && PLUS !in a && MINUS !in a && (POINT in a <==> |ds| > 1)
  {
    var a := Mantissa(ds);
    if |ds| > 1 { assert a[1] == POINT; }
    assert forall i :: 0 <= i < |a| ==> IsDigitUnit(a[i]) || (a[i] == POINT && |ds| > 1);
  }

  lemma ExponentUnits(e: int)
    ensures var x := ExponentText(e); EXPONENT !in x && POINT !in x && (PLUS in x <==> e >= 0) && (MINUS in x <==> e < 0)
  {
    var x := ExponentText(e);
    assert forall i :: 0 < i < |x| ==> IsDigitUnit(x[i]);
    assert x[0] == if e < 0 then MINUS else PLUS;
  }

  lemma ScientificUnits(ds: seq<Digit>, point: int)
    requires ds != []
    ensures var m := Mantissa(ds) + [EXPONENT] + ExponentText(point - 1);
            EXPONENT in m && (PLUS in m <==> point > 0) && (MINUS in m <==> point <= 0) && (POINT in m <==> |ds| > 1)
    ensures Mantissa(ds)[0] == UnitOf(ds[0])
  {
    var a, x := Mantissa(ds), ExponentText(point - 1);
    MantissaUnits(ds);
    ExponentUnits(point - 1);
    forall u ensures u in a + [EXPONENT] + x <==> u in a || u == EXPONENT || u in x {
      InJoin(a, [EXPONENT], u);
      InJoin(a + [EXPONENT], x, u);
    }
  }

  lemma DecimalUnits(t: Text)
    requires forall i :: 0 <= i < |t| ==> IsDigitUnit(t[i]) || t[i] == POINT
    ensures EXPONENT !in t && PLUS !in t && MINUS !in t
  {
  }

  /** Which layout a number gets, by its value: with 10^(point-1) <= x < 10^point, an exponent is written exactly
   *  from 10^21 on and below 10^-6, signed in both cases; a decimal point exactly for the digits that need one; a
   *  leading zero exactly for decimals below one; and no other zeros than those that the place of the point asks
   *  for. */
  lemma LayoutIff(ds: seq<Digit>, point: int)
    requires ds != [] && ds[0] != 0
    ensures var m, scientific := Magnitude(ds, point), point > 21 || point <= -6;
            m != [] && (EXPONENT in m <==> scientific) && (PLUS in m <==> point > 21) && (MINUS in m <==> point <= -6) &&
            (POINT in m <==> |ds| > if scientific then 1 else point) &&
            (m[0] == ZERO <==> -6 < point <= 0) &&
            (!scientific ==> |m| == if point >= |ds| then point else if point > 0 then |ds| + 1 else |ds| + 2 - point)
  {
    var m := Magnitude(ds, point);
    if point > 21 || point <= -6 {
      ScientificUnits(ds, point);
      assert m[0] == UnitOf(ds[0]);
    } else if |ds| <= point {
      assert m[0] == UnitOf(ds[0]);
      assert AllDigits(m);
    } else if 0 < point {
      assert m[0] == UnitOf(ds[0]) && m[point] == POINT;
      DecimalUnits(m);
    } else {
      assert m[0] == ZERO && m[1] == POINT;
      DecimalUnits(m);
    }
  }

  predicate Numeric(t: Text) { forall i :: 0 <= i < |t| ==> IsNumberUnit(t[i]) }

  lemma NumericJoin(a: Text, b: Text)
    requires Numeric(a) && Numeric(b)
    ensures Numeric(a + b)
  {
  }

  lemma NumericMagnitude(ds: seq<Digit>, point: int)
    requires ds != []
    ensures Numeric(Magnitude(ds, point))
  {
    assert Numeric(Chars(ds)) && Numeric([POINT]) && Numeric([EXPONENT]);
    if |ds| <= point <= 21 { NumericJoin(Chars(ds), Zeros(point - |ds|)); }
    else if 0 < point <= 21 {
      NumericJoin(Chars(ds[..point]), [POINT]);
      NumericJoin(Chars(ds[..point]) + [POINT], Chars(ds[point..]));
    } else if -6 < point <= 0 {
      NumericJoin([ZERO, POINT], Zeros(-point));
      NumericJoin([ZERO, POINT] + Zeros(-point), Chars(ds));
    } else {
      NumericJoin(Chars(ds[..1]), [POINT]);
      NumericJoin(Chars(ds[..1]) + [POINT], Chars(ds[1..]));
      NumericJoin(Mantissa(ds), [EXPONENT]);
      var e := point - 1;
      NumericJoin([if e < 0 then MINUS else PLUS], Decimal(if e < 0 then -e else e));
      NumericJoin(Mantissa(ds) + [EXPONENT], ExponentText(e));
    }
  }

  /** The text is made of number characters only, so it ends where they end; it starts like no other value. */
  lemma NumberUnits(x: Number)
    requires Valid(x)
    ensures Print(x) != [] && (IsDigitUnit(Print(x)[0]) || Print(x)[0] == MINUS) && Numeric(Print(x))
  {
    if x.digits != [] {
      Start(x.digits, x.point);
      NumericMagnitude(x.digits, x.point);
      var m := Magnitude(x.digits, x.point);
      if x.negative { NumericJoin([MINUS], m); } else { assert Print(x) == m; }
    }
  }
}
