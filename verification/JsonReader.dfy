/** Reading JSON text back, and what this shows of the canonical printer: its text determines the
 *  meaning of the value, the meaning determines the text, and no text is a prefix of another's meaning.
 */
module JsonReader {
  import opened Common
  import opened NumberText
  import opened StringText
  import opened TextOrder
  import opened Canonical
  import Utf8Text

  /** The length of the longest prefix of number characters. */
  function Span(t: Text): (k: nat)
    ensures k <= |t| && (forall i :: 0 <= i < k ==> IsNumberUnit(t[i])) && (k < |t| ==> !IsNumberUnit(t[k]))
  {
    if t == [] || !IsNumberUnit(t[0]) then 0 else 1 + Span(t[1..])
  }

  function ParseValue(t: Text): (r: Option<(Norm, Text)>)
    ensures r.Some? ==> |r.value.1| < |t|
    decreases |t|, 0
  {
    if t == [] then None
    else if t[0] == QUOTE then
      var s := ReadRest(t[1..]);
      if s.None? then None else Some((NStr(s.value.0), s.value.1))
    else if t[0] == OPEN_LIST then
      if |t| > 1 && t[1] == CLOSE_LIST then Some((NArr([]), t[2..]))
      else
        var xs := ParseItems(t[1..]);
        if xs.None? then None else Some((NArr(xs.value.0), xs.value.1))
    else if t[0] == OPEN_OBJECT then
      if |t| > 1 && t[1] == CLOSE_OBJECT then Some((NObj(map[]), t[2..]))
      else
        var m := ParseFields(t[1..]);
        if m.None? then None else Some((NObj(m.value.0), m.value.1))
    else if TEXT_NULL <= t then Some((NNull, t[4..]))
    else if TEXT_TRUE <= t then Some((NBool(true), t[4..]))
    else if TEXT_FALSE <= t then Some((NBool(false), t[5..]))
    else ParseNumber(t)
  }

  function ParseNumber(t: Text): (r: Option<(Norm, Text)>)
    ensures r.Some? ==> |r.value.1| < |t|
  {
    var k := Span(t);
    var x := Read(t[..k]);
    if k == 0 || x.None? then None else Some((NNum(x.value), t[k..]))
  }

  /** One or more elements and the closing bracket. */
  function ParseItems(t: Text): (r: Option<(seq<Norm>, Text)>)
    ensures r.Some? ==> |r.value.1| < |t|
    decreases |t|, 1
  {
    var x := ParseValue(t);
    if x.None? || x.value.1 == [] then None
    else if x.value.1[0] == CLOSE_LIST then Some(([x.value.0], x.value.1[1..]))
    else if x.value.1[0] != COMMA then None
    else
      var more := ParseItems(x.value.1[1..]);
      if more.None? then None else Some(([x.value.0] + more.value.0, more.value.1))
  }

  function ParseKey(t: Text): (r: Option<(Text, Text)>)
    ensures r.Some? ==> |r.value.1| < |t|
  {
    if t == [] || t[0] != QUOTE then None
    else
      var k := ReadRest(t[1..]);
      if k.None? || k.value.1 == [] || k.value.1[0] != COLON then None else Some((k.value.0, k.value.1[1..]))
  }

  /** One or more properties and the closing brace; of two with the same key the later one counts. */
  function ParseFields(t: Text): (r: Option<(map<Text, Norm>, Text)>)
    ensures r.Some? ==> |r.value.1| < |t|
    decreases |t|, 1
  {
    var k := ParseKey(t);
    if k.None? then None
    else
      var x := ParseValue(k.value.1);
      if x.None? || x.value.1 == [] then None
      else if x.value.1[0] == CLOSE_OBJECT then Some((map[k.value.0 := x.value.0], x.value.1[1..]))
      else if x.value.1[0] != COMMA then None
      else
        var more := ParseFields(x.value.1[1..]);
        if more.None? then None else Some((map[k.value.0 := x.value.0] + more.value.0, more.value.1))
  }

  // ---------------------------------------------------------------------------------------------
  // Which values print
  // ---------------------------------------------------------------------------------------------

  lemma {:induction false} PrintsIff(v: Value, sorted: bool)
    ensures Write(v, sorted).Some? <==> Printable(v)
    decreases v, 1, 0
  {
    match v
    case Arr(items) => ItemsPrintIff(v, items, sorted);
    case Obj(fields) =>
      FieldsPrintIff(v, Order(fields, sorted), sorted);
      ByKeyOrIndex(fields);
      PrintableIsFine(fields);
      assert forall k :: k in Order(fields, sorted) <==> k in Keys(fields);
    case _ =>
  }

  predicate Fine(v: Value) { v.Undefined? || Printable(v) }

  /** Going through the properties by key or by position. */
  lemma ByKeyOrIndex(fs: Fields<Value>)
    ensures (forall k :: k in Keys(fs) ==> Fine(Get(fs, k))) <==> (forall i :: 0 <= i < |fs| ==> Fine(fs[i].value))
  {
    if forall i :: 0 <= i < |fs| ==> Fine(fs[i].value) {
      forall k | k in Keys(fs) ensures Fine(Get(fs, k)) {
        var i :| 0 <= i < |fs| && Get(fs, k) == fs[i].value;
      }
    }
    if forall k :: k in Keys(fs) ==> Fine(Get(fs, k)) {
      forall i | 0 <= i < |fs| ensures Fine(fs[i].value) { GetAt(fs, i); }
    }
  }

  lemma PrintableIsFine(fs: Fields<Value>)
    ensures Printable(Obj(fs)) <==> forall i :: 0 <= i < |fs| ==> Fine(fs[i].value)
  {
  }

  lemma {:induction false} GetAt(fs: seq<Field<Value>>, i: nat)
    requires Distinct(fs) && i < |fs|
    ensures fs[i].key in Keys(fs) && Get(fs, fs[i].key) == fs[i].value
  {
    assert Keys(fs)[i] == fs[i].key;
    if i == 0 {
    } else {
      assert Keys(fs)[1..] == Keys(fs[1..]);
      GetAt(fs[1..], i - 1);
    }
  }

  lemma {:induction false} ItemsPrintIff(v: Value, items: seq<Value>, sorted: bool)
    requires v.Arr? && |items| <= |v.items| && items == v.items[|v.items| - |items|..]
    ensures ItemParts(v, items, sorted).Some? <==> forall i :: 0 <= i < |items| ==> Printable(items[i])
    decreases v, 0, |items|
  {
    if items == [] {
    } else {
      var x := v.items[|v.items| - |items|];
      assert items == [x] + items[1..];
      PrintsIff(x, sorted);
      ItemsPrintIff(v, items[1..], sorted);
    }
  }

  lemma {:induction false} FieldsPrintIff(v: Value, keys: seq<Text>, sorted: bool)
    requires v.Obj? && forall k :: k in keys ==> k in Keys(v.fields)
    ensures FieldParts(v, keys, sorted).Some? <==>
            forall k :: k in keys ==> Fine(Get(v.fields, k))
    decreases v, 0, |keys|
  {
    if keys == [] {
    } else {
      var x := Get(v.fields, keys[0]);
      assert keys == [keys[0]] + keys[1..];
      PrintsIff(x, sorted);
      FieldsPrintIff(v, keys[1..], sorted);
    }
  }

  // ---------------------------------------------------------------------------------------------
  // Reading undoes printing
  // ---------------------------------------------------------------------------------------------

  /** What may follow a value: not more digits. */
  predicate Delimited(rest: Text) { rest == [] || !IsNumberUnit(rest[0]) }

  lemma FirstUnit(v: Value, sorted: bool)
    requires Write(v, sorted).Some?
    ensures var t := Write(v, sorted).value; t != [] && t[0] != CLOSE_LIST && t[0] != CLOSE_OBJECT
  {
    match v
    case Num(x) => NumberUnits(x);
    case _ =>
  }

  lemma SpanOf(p: Text, rest: Text)
    requires Numeric(p) && Delimited(rest)
    ensures Span(p + rest) == |p|
  {
    var t, k := p + rest, Span(p + rest);
    assert forall i :: 0 <= i < |p| ==> t[i] == p[i];
    assert |p| < |t| ==> t[|p|] == rest[0];
  }

  lemma NumberStarts(t: Text)
    requires t != [] && (IsDigitUnit(t[0]) || t[0] == MINUS)
    ensures ParseValue(t) == ParseNumber(t)
  {
  }

  lemma ReadsNumber(x: Finite, rest: Text)
    requires Delimited(rest)
    ensures ParseValue(Print(x) + rest) == Some((NNum(NumberText.OneZero(x)), rest))
  {
    var p := Print(x);
    NumberUnits(x);
    ReadsBack(x);
    SpanOf(p, rest);
    NumberStarts(p + rest);
    assert (p + rest)[..|p|] == p && (p + rest)[|p|..] == rest;
  }

  lemma ReadsQuoted(s: Text, rest: Text)
    ensures Quote(s) + rest == [QUOTE] + (Escape(s) + ([QUOTE] + rest))
    ensures ReadRest((Quote(s) + rest)[1..]) == Some((s, rest)) && (Quote(s) + rest)[0] == QUOTE
  {
    ReadsString(s, rest);
    Associative([QUOTE], Escape(s) + [QUOTE], rest);
    Associative(Escape(s), [QUOTE], rest);
    assert (Quote(s) + rest)[1..] == Escape(s) + ([QUOTE] + rest);
  }

  lemma ReadsLiteral(lit: Text, n: Norm, rest: Text)
    requires (lit == TEXT_NULL && n == NNull) || (lit == TEXT_TRUE && n == NBool(true)) || (lit == TEXT_FALSE && n == NBool(false))
    ensures ParseValue(lit + rest) == Some((n, rest))
  {
    var t := lit + rest;
    assert t[0] == lit[0] && t[|lit|..] == rest;
    assert lit <= t;
  }

  /** The text of a value, followed by anything that does not continue a number, is read as its
   *  meaning, and what follows is left over: whether or not the keys are sorted. */
  lemma {:induction false} ReadsValue(v: Value, sorted: bool, rest: Text)
    requires Write(v, sorted).Some? && Delimited(rest)
    ensures Printable(v) && ParseValue(Write(v, sorted).value + rest) == Some((Mean(v), rest))
    decreases v, 2, 0
  {
    PrintsIff(v, sorted);
    match v
    case Null => ReadsLiteral(TEXT_NULL, NNull, rest);
    case Bool(b) => ReadsLiteral(if b then TEXT_TRUE else TEXT_FALSE, NBool(b), rest);
    case Num(x) => ReadsNumber(x, rest);
    case Str(s) => ReadsQuoted(s, rest);
    case Arr(items) => ReadsArray(v, sorted, rest);
    case Obj(fields) => ReadsObject(v, sorted, rest);
  }

  lemma ReadsNoItems(rest: Text)
    ensures ParseValue([OPEN_LIST, CLOSE_LIST] + rest) == Some((NArr([]), rest))
  {
    var t := [OPEN_LIST, CLOSE_LIST] + rest;
    assert t[0] == OPEN_LIST && t[1] == CLOSE_LIST && t[2..] == rest;
  }

  lemma ReadsListed(t: Text, ns: seq<Norm>, rest: Text)
    requires |t| > 1 && t[0] == OPEN_LIST && t[1] != CLOSE_LIST && ParseItems(t[1..]) == Some((ns, rest))
    ensures ParseValue(t) == Some((NArr(ns), rest))
  {
  }

  lemma {:induction false} ReadsArray(v: Value, sorted: bool, rest: Text)
    requires v.Arr? && Write(v, sorted).Some? && Printable(v)
    ensures ParseValue(Write(v, sorted).value + rest) == Some((Mean(v), rest))
    decreases v, 1, 0
  {
    var items := v.items;
    if items == [] {
      ReadsNoItems(rest);
      assert Write(v, sorted).value == [OPEN_LIST, CLOSE_LIST];
      assert Mean(v) == NArr([]);
    } else {
      ReadsItems(v, items, sorted, rest);
      FirstUnit(items[0], sorted);
      ItemsAsWritten(v, sorted, rest);
      ReadsListed(Write(v, sorted).value + rest, Means(items), rest);
      assert Mean(v).items == Means(items);
    }
  }

  /** The text of a non-empty array: the bracket, and the first item's text. */
  lemma ItemsAsWritten(v: Value, sorted: bool, rest: Text)
    requires v.Arr? && v.items != [] && Write(v, sorted).Some? && Printable(v)
    requires Write(v.items[0], sorted).Some? && Write(v.items[0], sorted).value != []
    ensures ItemParts(v, v.items, sorted).Some?
    ensures var t := Write(v, sorted).value + rest;
            |t| > 1 && t[0] == OPEN_LIST && t[1] == Write(v.items[0], sorted).value[0] &&
            t[1..] == Join(ItemParts(v, v.items, sorted).value) + ([CLOSE_LIST] + rest)
  {
    var t := Write(v, sorted).value + rest;
    var body := Join(ItemParts(v, v.items, sorted).value);
    assert t == [OPEN_LIST] + (body + ([CLOSE_LIST] + rest));
    assert body[0] == Write(v.items[0], sorted).value[0];
  }

  function Means(items: seq<Value>): seq<Norm>
    requires forall i :: 0 <= i < |items| ==> Printable(items[i])
  {
    seq(|items|, i requires 0 <= i < |items| => Mean(items[i]))
  }

  lemma LastItem(t: Text, n: Norm, rest: Text)
    requires ParseValue(t) == Some((n, [CLOSE_LIST] + rest))
    ensures ParseItems(t) == Some(([n], rest))
  {
    assert ([CLOSE_LIST] + rest)[1..] == rest;
  }

  lemma NextItem(t: Text, n: Norm, more: Text, ns: seq<Norm>, rest: Text)
    requires ParseValue(t) == Some((n, [COMMA] + more)) && ParseItems(more) == Some((ns, rest))
    ensures ParseItems(t) == Some(([n] + ns, rest))
  {
    assert ([COMMA] + more)[1..] == more;
  }

  lemma {:induction false} ReadsItems(v: Value, items: seq<Value>, sorted: bool, rest: Text)
    requires v.Arr? && 0 < |items| <= |v.items| && items == v.items[|v.items| - |items|..]
    requires ItemParts(v, items, sorted).Some? && forall i :: 0 <= i < |items| ==> Printable(items[i])
    ensures ParseItems(Join(ItemParts(v, items, sorted).value) + ([CLOSE_LIST] + rest)) == Some((Means(items), rest))
    decreases v, 0, |items|
  {
    var tail := ItemParts(v, items[1..], sorted).value;
    var x := v.items[|v.items| - |items|];
    var text, after := Write(x, sorted).value, AfterItem(tail, rest);
    assert x == items[0];
    if |items| > 1 { ReadsItems(v, items[1..], sorted, rest); }
    ReadsValue(x, sorted, after);
    ReadsElement(text + after, Mean(x), tail, Means(items[1..]), rest);
    ElementText(text, tail, rest);
    MeansCons(items);
  }

  lemma MeansCons(items: seq<Value>)
    requires items != [] && forall i :: 0 <= i < |items| ==> Printable(items[i])
    ensures Means(items) == [Mean(items[0])] + Means(items[1..])
  {
  }

  /** What follows an element in the text of a list. */
  function AfterItem(tail: seq<Text>, rest: Text): Text {
    var close := [CLOSE_LIST] + rest;
    if tail == [] then close else [COMMA] + (Join(tail) + close)
  }

  lemma ElementText(text: Text, tail: seq<Text>, rest: Text)
    ensures Join([text] + tail) + ([CLOSE_LIST] + rest) == text + AfterItem(tail, rest)
  {
    if tail != [] {
      JoinMore(text, tail);
      Associative(text, [COMMA] + Join(tail), [CLOSE_LIST] + rest);
      Associative([COMMA], Join(tail), [CLOSE_LIST] + rest);
    } else {
      assert Join([text] + tail) == text;
    }
  }

  lemma ReadsElement(t: Text, n: Norm, tail: seq<Text>, ns: seq<Norm>, rest: Text)
    requires ParseValue(t) == Some((n, AfterItem(tail, rest)))
    requires if tail == [] then ns == [] else ParseItems(Join(tail) + ([CLOSE_LIST] + rest)) == Some((ns, rest))
    ensures ParseItems(t) == Some(([n] + ns, rest))
  {
    if tail == [] {
      LastItem(t, n, rest);
      assert [n] + ns == [n];
    } else {
      NextItem(t, n, Join(tail) + ([CLOSE_LIST] + rest), ns, rest);
    }
  }

  /** The meaning of the listed properties. */
  function MeanOf(v: Value, keys: seq<Text>): map<Text, Norm>
    requires v.Obj? && Printable(v) && forall k :: k in keys ==> k in Keys(v.fields)
  {
    map k | k in keys && !Get(v.fields, k).Undefined? :: Mean(Get(v.fields, k))
  }

  lemma EmptyObject(rest: Text)
    ensures ParseValue([OPEN_OBJECT, CLOSE_OBJECT] + rest) == Some((NObj(map[]), rest))
  {
    assert ([OPEN_OBJECT, CLOSE_OBJECT] + rest)[2..] == rest;
  }

  lemma OpensObject(body: Text)
    requires body != [] && body[0] == QUOTE && ParseFields(body).Some?
    ensures ParseValue([OPEN_OBJECT] + body) == Some((NObj(ParseFields(body).value.0), ParseFields(body).value.1))
  {
    assert ([OPEN_OBJECT] + body)[1..] == body;
  }

  lemma {:induction false} ReadsObject(v: Value, sorted: bool, rest: Text)
    requires v.Obj? && Write(v, sorted).Some? && Printable(v)
    ensures ParseValue(Write(v, sorted).value + rest) == Some((Mean(v), rest))
    decreases v, 1, 0
  {
    var keys := Order(v.fields, sorted);
    var parts := FieldParts(v, keys, sorted).value;
    assert MeanOf(v, keys) == Mean(v).fields;
    ReadsFields(v, keys, sorted, rest);
    Wrapped(OPEN_OBJECT, Join(parts), CLOSE_OBJECT, rest);
    if parts == [] {
      EmptyObject(rest);
    } else {
      JoinStarts(parts);
      OpensObject(Join(parts) + ([CLOSE_OBJECT] + rest));
    }
  }

  lemma Wrapped(open: Unit, body: Text, close: Unit, rest: Text)
    ensures ([open] + body + [close]) + rest == [open] + (body + ([close] + rest))
    ensures body == [] ==> ([open] + body + [close]) + rest == [open, close] + rest
  {
  }

  lemma JoinStarts(parts: seq<Text>)
    requires parts != [] && parts[0] != []
    ensures Join(parts) != [] && Join(parts)[0] == parts[0][0]
  {
  }

  lemma ReadsKey(k: Text, tail: Text)
    ensures ParseKey(Quote(k) + ([COLON] + tail)) == Some((k, tail))
  {
    ReadsQuoted(k, [COLON] + tail);
    assert ([COLON] + tail)[1..] == tail;
  }

  lemma LastField(k: Text, n: Norm, tail: Text, rest: Text)
    requires ParseValue(tail) == Some((n, [CLOSE_OBJECT] + rest))
    ensures ParseFields(Quote(k) + ([COLON] + tail)) == Some((map[k := n], rest))
  {
    ReadsKey(k, tail);
    assert ([CLOSE_OBJECT] + rest)[1..] == rest;
  }

  lemma NextField(k: Text, n: Norm, tail: Text, more: Text, m: map<Text, Norm>, rest: Text)
    requires ParseValue(tail) == Some((n, [COMMA] + more)) && ParseFields(more) == Some((m, rest))
    ensures ParseFields(Quote(k) + ([COLON] + tail)) == Some((map[k := n] + m, rest))
  {
    ReadsKey(k, tail);
    assert ([COMMA] + more)[1..] == more;
  }

  lemma {:induction false} ReadsFields(v: Value, keys: seq<Text>, sorted: bool, rest: Text)
    requires v.Obj? && Printable(v) && (forall k :: k in keys ==> k in Keys(v.fields))
    requires forall i, j :: 0 <= i < j < |keys| ==> keys[i] != keys[j]
    requires FieldParts(v, keys, sorted).Some?
    ensures var parts := FieldParts(v, keys, sorted).value;
            if parts == [] then MeanOf(v, keys) == map[]
            else parts[0] != [] && parts[0][0] == QUOTE &&
                 ParseFields(Join(parts) + ([CLOSE_OBJECT] + rest)) == Some((MeanOf(v, keys), rest))
    decreases v, 0, |keys|
  {
    if keys == [] {
    } else {
      var k, ks := keys[0], keys[1..];
      assert keys == [k] + ks;
      ReadsFields(v, ks, sorted, rest);
      if Get(v.fields, k).Undefined? {
        assert MeanOf(v, keys) == MeanOf(v, ks);
      } else {
        ReadsPresent(v, keys, sorted, rest);
      }
    }
  }

  /** What follows a property in the text of an object. */
  function After(tail: seq<Text>, rest: Text): Text {
    var close := [CLOSE_OBJECT] + rest;
    if tail == [] then close else [COMMA] + (Join(tail) + close)
  }

  lemma AfterFirst(entry: Text, tail: seq<Text>, rest: Text)
    ensures Join([entry] + tail) + ([CLOSE_OBJECT] + rest) == entry + After(tail, rest)
  {
    if tail != [] {
      JoinMore(entry, tail);
      Associative(entry, [COMMA] + Join(tail), [CLOSE_OBJECT] + rest);
      Associative([COMMA], Join(tail), [CLOSE_OBJECT] + rest);
    } else {
      assert Join([entry] + tail) == entry;
    }
  }

  lemma ReadsEntry(k: Text, n: Norm, text: Text, tail: seq<Text>, m: map<Text, Norm>, rest: Text)
    requires ParseValue(text + After(tail, rest)) == Some((n, After(tail, rest)))
    requires if tail == [] then m == map[] else ParseFields(Join(tail) + ([CLOSE_OBJECT] + rest)) == Some((m, rest))
    ensures ParseFields((Quote(k) + ([COLON] + text)) + After(tail, rest)) == Some((map[k := n] + m, rest))
  {
    var after := After(tail, rest);
    Associative(Quote(k), [COLON] + text, after);
    Associative([COLON], text, after);
    if tail == [] {
      LastField(k, n, text + after, rest);
      assert map[k := n] + m == map[k := n];
    } else {
      NextField(k, n, text + after, Join(tail) + ([CLOSE_OBJECT] + rest), m, rest);
    }
  }

  lemma {:induction false} ReadsPresent(v: Value, keys: seq<Text>, sorted: bool, rest: Text)
    requires v.Obj? && Printable(v) && (forall k :: k in keys ==> k in Keys(v.fields))
    requires keys != [] && keys[0] !in keys[1..] && !Get(v.fields, keys[0]).Undefined?
    requires FieldParts(v, keys, sorted).Some?
    requires var parts := FieldParts(v, keys[1..], sorted).value;
             if parts == [] then MeanOf(v, keys[1..]) == map[]
             else ParseFields(Join(parts) + ([CLOSE_OBJECT] + rest)) == Some((MeanOf(v, keys[1..]), rest))
    ensures ParseFields(Join(FieldParts(v, keys, sorted).value) + ([CLOSE_OBJECT] + rest)) == Some((MeanOf(v, keys), rest))
    decreases v, 0, |keys| - 1
  {
    var k, ks := keys[0], keys[1..];
    var x := Get(v.fields, k);
    var text, tail := Write(x, sorted).value, FieldParts(v, ks, sorted).value;
    MeanOfCons(v, keys);
    ReadsValue(x, sorted, After(tail, rest));
    ReadsEntry(k, Mean(x), text, tail, MeanOf(v, ks), rest);
    AfterFirst(Quote(k) + ([COLON] + text), tail, rest);
  }

  lemma JoinMore(p: Text, tail: seq<Text>)
    requires tail != []
    ensures Join([p] + tail) == p + ([COMMA] + Join(tail))
  {
    assert ([p] + tail)[1..] == tail;
  }

  lemma MeanOfCons(v: Value, keys: seq<Text>)
    requires v.Obj? && Printable(v) && (forall k :: k in keys ==> k in Keys(v.fields))
    requires keys != [] && keys[0] !in keys[1..] && !Get(v.fields, keys[0]).Undefined?
    ensures Printable(Get(v.fields, keys[0]))
    ensures MeanOf(v, keys) == map[keys[0] := Mean(Get(v.fields, keys[0]))] + MeanOf(v, keys[1..])
  {
    var a, b := MeanOf(v, keys), map[keys[0] := Mean(Get(v.fields, keys[0]))] + MeanOf(v, keys[1..]);
    assert forall k :: k in keys <==> k == keys[0] || k in keys[1..] by { assert keys == [keys[0]] + keys[1..]; }
    assert a.Keys == b.Keys;
    assert forall k :: k in a ==> a[k] == b[k];
  }

  // ---------------------------------------------------------------------------------------------
  // Text and meaning determine each other
  // ---------------------------------------------------------------------------------------------

  /** The canonical texts of two values agree exactly when the values mean the same. */
  lemma CanonicalIffSameMeaning(v: Value, w: Value)
    requires Printable(v) && Printable(w)
    ensures Canon(v).Some? && Canon(w).Some? && (Canon(v) == Canon(w) <==> Mean(v) == Mean(w))
  {
    PrintsIff(v, true);
    PrintsIff(w, true);
    if Mean(v) == Mean(w) { SameMeaningSameText(v, w); }
    if Canon(v) == Canon(w) {
      ReadsValue(v, true, []);
      ReadsValue(w, true, []);
    }
  }

  /** A canonical text never starts another one, unless the two are numbers. */
  lemma PrefixFree(v: Value, w: Value, more: Text)
    requires Printable(v) && Printable(w) && Canon(v).Some? && Canon(w).Some?
    requires Canon(w).value == Canon(v).value + more && !v.Num?
    ensures more == []
  {
    ReadsValue(w, true, []);
    ReadsAnyRest(v, more);
    assert Canon(w).value + [] == Canon(v).value + more;
  }

  /** Only a number needs a delimiter after it. */
  lemma ReadsAnyRest(v: Value, rest: Text)
    requires Canon(v).Some? && Printable(v) && !v.Num?
    ensures ParseValue(Canon(v).value + rest) == Some((Mean(v), rest))
  {
    match v
    case Null => ReadsLiteral(TEXT_NULL, NNull, rest);
    case Bool(b) => ReadsLiteral(if b then TEXT_TRUE else TEXT_FALSE, NBool(b), rest);
    case Str(s) => ReadsQuoted(s, rest);
    case Arr(items) => ReadsArray(v, true, rest);
    case Obj(fields) => ReadsObject(v, true, rest);
  }

  lemma {:induction false} SameMeaningSameText(v: Value, w: Value)
    requires Printable(v) && Printable(w) && Mean(v) == Mean(w)
    ensures Canon(v) == Canon(w)
    decreases v
  {
    match v {
      case Arr(items) =>
        assert |Mean(v).items| == |items| && |Mean(w).items| == |w.items|;
        forall i | 0 <= i < |items| ensures Canon(items[i]) == Canon(w.items[i]) {
          assert Mean(v).items[i] == Mean(items[i]) && Mean(w).items[i] == Mean(w.items[i]);
          SameMeaningSameText(items[i], w.items[i]);
        }
        SameItems(v, w, items, w.items);
      case Obj(fields) =>
        assert Mean(v).fields.Keys == Present(fields) && Mean(w).fields.Keys == Present(w.fields);
        forall k | k in Present(fields) ensures Canon(Get(fields, k)) == Canon(Get(w.fields, k)) {
          assert Mean(v).fields[k] == Mean(Get(fields, k)) && Mean(w).fields[k] == Mean(Get(w.fields, k));
          SameMeaningSameText(Get(fields, k), Get(w.fields, k));
        }
        SameFields(v, w);
      case Num(x) =>
        assert Mean(w).NNum?;
      case _ =>
    }
  }

  lemma {:induction false} SameItems(v: Value, w: Value, a: seq<Value>, b: seq<Value>)
    requires v.Arr? && w.Arr? && |v.items| == |w.items| && |a| == |b| <= |v.items|
    requires a == v.items[|v.items| - |a|..] && b == w.items[|w.items| - |b|..]
    requires forall i :: 0 <= i < |a| ==> Canon(a[i]) == Canon(b[i])
    ensures ItemParts(v, a, true) == ItemParts(w, b, true)
    decreases |a|
  {
    if a == [] {
    } else {
      SameItems(v, w, a[1..], b[1..]);
      assert v.items[|v.items| - |a|] == a[0] && w.items[|w.items| - |b|] == b[0];
    }
  }

  /** The listed keys whose values are not undefined. */
  function Defined(v: Value, keys: seq<Text>): seq<Text>
    requires v.Obj? && forall k :: k in keys ==> k in Keys(v.fields)
  {
    if keys == [] then []
    else
      var rest := Defined(v, keys[1..]);
      if Get(v.fields, keys[0]).Undefined? then rest else [keys[0]] + rest
  }

  lemma HeadLess(keys: seq<Text>, k: Text)
    requires Sorted(keys) && keys != [] && k in keys[1..]
    ensures Less(keys[0], k)
  {
    var i :| 0 <= i < |keys| - 1 && keys[1..][i] == k;
    assert keys[i + 1] == k;
  }

  lemma SortedCons(k: Text, ks: seq<Text>)
    requires Sorted(ks) && forall x :: x in ks ==> Less(k, x)
    ensures Sorted([k] + ks)
  {
  }

  lemma {:induction false} DefinedIs(v: Value, keys: seq<Text>)
    requires v.Obj? && (forall k :: k in keys ==> k in Keys(v.fields)) && Sorted(keys)
    ensures var d := Defined(v, keys);
            Sorted(d) && (forall k :: k in d <==> k in keys && !Get(v.fields, k).Undefined?)
  {
    if keys == [] {
    } else {
      var ks := keys[1..];
      DefinedIs(v, ks);
      assert keys == [keys[0]] + ks;
      if !Get(v.fields, keys[0]).Undefined? {
        forall x | x in Defined(v, ks) ensures Less(keys[0], x) { HeadLess(keys, x); }
        SortedCons(keys[0], Defined(v, ks));
      }
    }
  }

  lemma {:induction false} DefinedParts(v: Value, keys: seq<Text>)
    requires v.Obj? && (forall k :: k in keys ==> k in Keys(v.fields))
    ensures forall k :: k in Defined(v, keys) ==> k in Keys(v.fields)
    ensures FieldParts(v, keys, true) == FieldParts(v, Defined(v, keys), true)
  {
    if keys == [] {
    } else {
      DefinedParts(v, keys[1..]);
      var rest := Defined(v, keys[1..]);
      assert ([keys[0]] + rest)[1..] == rest;
    }
  }

  lemma SameFields(v: Value, w: Value)
    requires v.Obj? && w.Obj? && Present(v.fields) == Present(w.fields)
    requires forall k :: k in Present(v.fields) ==> Canon(Get(v.fields, k)) == Canon(Get(w.fields, k))
    ensures Canon(v) == Canon(w)
  {
    var ks, ls := Order(v.fields, true), Order(w.fields, true);
    DefinedIs(v, ks);
    DefinedIs(w, ls);
    DefinedParts(v, ks);
    DefinedParts(w, ls);
    DefinedKeys(v);
    DefinedKeys(w);
    SortedIsUnique(Defined(v, ks), Defined(w, ls));
    SameParts(v, w, Defined(v, ks));
  }

  lemma DefinedKeys(v: Value)
    requires v.Obj?
    ensures var d := Defined(v, Order(v.fields, true));
            Elements(d) == Present(v.fields) && forall k :: k in d <==> k in Present(v.fields)
  {
    var d := Defined(v, Order(v.fields, true));
    DefinedIs(v, Order(v.fields, true));
    assert forall k :: k in d <==> k in Present(v.fields);
    InElements(d);
  }

  lemma {:induction false} SameParts(v: Value, w: Value, keys: seq<Text>)
    requires v.Obj? && w.Obj?
    requires forall k :: k in keys ==> k in Keys(v.fields) && k in Keys(w.fields)
    requires forall k :: k in keys ==> k in Present(v.fields) && k in Present(w.fields)
    requires forall k :: k in keys ==> Canon(Get(v.fields, k)) == Canon(Get(w.fields, k))
    ensures FieldParts(v, keys, true) == FieldParts(w, keys, true)
  {
    if keys == [] {
    } else {
      SameParts(v, w, keys[1..]);
    }
  }

  // ---------------------------------------------------------------------------------------------
  // Bytes
  // ---------------------------------------------------------------------------------------------

  lemma LeafWellFormed(v: Value)
    requires Canon(v).Some? && !v.Arr? && !v.Obj?
    ensures WellFormed(Canon(v).value)
  {
    match v
    case Num(x) => NumberUnits(x); PlainWellFormed(Print(x));
    case Str(s) => QuoteWellFormed(s);
    case Null => PlainWellFormed(TEXT_NULL);
    case Bool(b) => PlainWellFormed(if b then TEXT_TRUE else TEXT_FALSE);
  }

  lemma {:induction false} CanonWellFormed(v: Value)
    requires Canon(v).Some?
    ensures WellFormed(Canon(v).value)
    decreases v, 1, 0
  {
    match v
    case Arr(items) =>
      ItemsWellFormed(v, items);
      Bracketed(OPEN_LIST, Join(ItemParts(v, items, true).value), CLOSE_LIST);
    case Obj(fields) =>
      FieldsWellFormed(v, Order(fields, true));
      Bracketed(OPEN_OBJECT, Join(FieldParts(v, Order(fields, true), true).value), CLOSE_OBJECT);
    case _ => LeafWellFormed(v);
  }

  lemma Bracketed(a: Unit, t: Text, b: Unit)
    requires WellFormed(t) && a < 0xD800 && b < 0xD800
    ensures WellFormed([a] + t + [b])
  {
    JoinWellFormed([a], t);
    JoinWellFormed([a] + t, [b]);
  }

  lemma Joined(p: Text, ps: seq<Text>)
    requires WellFormed(p) && WellFormed(Join(ps))
    ensures WellFormed(Join([p] + ps))
  {
    if ps != [] {
      JoinMore(p, ps);
      JoinWellFormed([COMMA], Join(ps));
      JoinWellFormed(p, [COMMA] + Join(ps));
    }
  }

  lemma {:induction false} ItemsWellFormed(v: Value, items: seq<Value>)
    requires v.Arr? && |items| <= |v.items| && items == v.items[|v.items| - |items|..]
    requires ItemParts(v, items, true).Some?
    ensures WellFormed(Join(ItemParts(v, items, true).value))
    decreases v, 0, |items|
  {
    if items == [] {
    } else {
      var x := v.items[|v.items| - |items|];
      CanonWellFormed(x);
      ItemsWellFormed(v, items[1..]);
      Joined(Canon(x).value, ItemParts(v, items[1..], true).value);
    }
  }

  lemma {:induction false} FieldsWellFormed(v: Value, keys: seq<Text>)
    requires v.Obj? && forall k :: k in keys ==> k in Keys(v.fields)
    requires FieldParts(v, keys, true).Some?
    ensures WellFormed(Join(FieldParts(v, keys, true).value))
    decreases v, 0, |keys|
  {
    if keys == [] {
    } else {
      var x := Get(v.fields, keys[0]);
      FieldsWellFormed(v, keys[1..]);
      if !x.Undefined? {
        var text := Canon(x).value;
        CanonWellFormed(x);
        QuoteWellFormed(keys[0]);
        JoinWellFormed([COLON], text);
        JoinWellFormed(Quote(keys[0]), [COLON] + text);
        Joined(Quote(keys[0]) + ([COLON] + text), FieldParts(v, keys[1..], true).value);
      }
    }
  }

  /** canonicalBytes: the preimage that is signed. */
  function CanonBytes(v: Value): Option<seq<Utf8Text.Byte>> {
    var t := Canon(v);
    if t.None? then None else Some(Utf8Text.Encode(t.value))
  }

  /** The preimage determines the text. */
  lemma CanonDecodes(v: Value)
    requires Printable(v)
    ensures Canon(v).Some? && CanonBytes(v).Some? && Utf8Text.Decode(CanonBytes(v).value) == Canon(v).value
  {
    PrintsIff(v, true);
    CanonWellFormed(v);
    Utf8Text.DecodesBack(Canon(v).value);
  }

  /** Two values have the same preimage exactly when they mean the same. */
  lemma BytesIffSameMeaning(v: Value, w: Value)
    requires Printable(v) && Printable(w)
    ensures CanonBytes(v).Some? && CanonBytes(w).Some? && (CanonBytes(v) == CanonBytes(w) <==> Mean(v) == Mean(w))
  {
    CanonicalIffSameMeaning(v, w);
    CanonDecodes(v);
    CanonDecodes(w);
  }
}
