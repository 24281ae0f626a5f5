/** The canonical JSON printer of orp-ref/core/canonical.ts: deterministic text for signing. */
module Canonical {
  import opened Common
  import opened NumberText
  import opened StringText
  import opened TextOrder

  type Finite = x: Number | NumberText.Valid(x) witness Number(false, [], 0)

  datatype Field<+V> = Field(key: Text, value: V)

  predicate Distinct<V>(fs: seq<Field<V>>) {
    forall i, j :: 0 <= i < j < |fs| ==> fs[i].key != fs[j].key
  }

  /** An object's own enumerable properties, in insertion order. */
  type Fields<+V> = fs: seq<Field<V>> | Distinct(fs)

  /** A JavaScript value: `Unsupported` stands for functions, symbols and big integers. */
  datatype Value =
    | Undefined
    | Null
    | Bool(b: bool)
    | Num(x: Finite)
    | NonFinite
    | Unsupported
    | Str(s: Text)
    | Arr(items: seq<Value>)
    | Obj(fields: Fields<Value>)

  /** What a value says: no property order, no undefined properties, one zero. */
  datatype Norm =
    | NNull
    | NBool(b: bool)
    | NNum(x: Number)
    | NStr(s: Text)
    | NArr(items: seq<Norm>)
    | NObj(fields: map<Text, Norm>)

  function Keys(fs: seq<Field<Value>>): (ks: seq<Text>)
    ensures |ks| == |fs| && forall i :: 0 <= i < |ks| ==> ks[i] == fs[i].key
  {
    seq(|fs|, i requires 0 <= i < |fs| => fs[i].key)
  }

  function Get(fs: seq<Field<Value>>, k: Text): (v: Value)
    requires k in Keys(fs)
    ensures exists i :: 0 <= i < |fs| && fs[i].key == k && v == fs[i].value
  {
    if fs[0].key == k then fs[0].value else assert Keys(fs)[1..] == Keys(fs[1..]); Get(fs[1..], k)
  }

  /** The properties that are not undefined. */
  function Present(fs: seq<Field<Value>>): set<Text> {
    set k | k in Keys(fs) && !Get(fs, k).Undefined?
  }

  /** The values `canon` accepts: an undefined property is fine, an undefined element is not. */
  predicate Printable(v: Value)
    decreases v
  {
    match v
    case Undefined => false
    case NonFinite => false
    case Unsupported => false
    case Arr(items) => forall i :: 0 <= i < |items| ==> Printable(items[i])
    case Obj(fields) => forall i :: 0 <= i < |fields| ==> fields[i].value.Undefined? || Printable(fields[i].value)
    case _ => true
  }

  function Mean(v: Value): Norm
    requires Printable(v)
    decreases v
  {
    match v
    case Null => NNull
    case Bool(b) => NBool(b)
    case Num(x) => NNum(NumberText.OneZero(x))
    case Str(s) => NStr(s)
    case Arr(items) => NArr(seq(|items|, i requires 0 <= i < |items| => Mean(items[i])))
    case Obj(fields) => NObj(map k | k in Present(fields) :: Mean(Get(fields, k)))
  }

  // ---------------------------------------------------------------------------------------------
  // Printing
  // ---------------------------------------------------------------------------------------------

  const COMMA: Unit := 44
  const COLON: Unit := 58
  const OPEN_LIST: Unit := 91
  const CLOSE_LIST: Unit := 93
  const OPEN_OBJECT: Unit := 123
  const CLOSE_OBJECT: Unit := 125

  const TEXT_NULL: Text := [110, 117, 108, 108]
  const TEXT_TRUE: Text := [116, 114, 117, 101]
  const TEXT_FALSE: Text := [102, 97, 108, 115, 101]

  function Join(parts: seq<Text>): Text {
    if parts == [] then []
    else if |parts| == 1 then parts[0]
    else parts[0] + ([COMMA] + Join(parts[1..]))
  }

  /** With `sorted`, the canonical text; without, what JSON.stringify writes for the same value.
   *  None is the exception `canon` throws. */
  function Write(v: Value, sorted: bool): Option<Text>
    decreases v, 1, 0
  {
    match v
    case Null => Some(TEXT_NULL)
    case Bool(b) => Some(if b then TEXT_TRUE else TEXT_FALSE)
    case Num(x) => Some(Print(x))
    case Str(s) => Some(Quote(s))
    case Arr(items) =>
      var parts := ItemParts(v, items, sorted);
      if parts.None? then None else Some([OPEN_LIST] + Join(parts.value) + [CLOSE_LIST])
    case Obj(fields) =>
      var parts := FieldParts(v, Order(fields, sorted), sorted);
      if parts.None? then None else Some([OPEN_OBJECT] + Join(parts.value) + [CLOSE_OBJECT])
    case _ => None
  }

  function Order(fs: Fields<Value>, sorted: bool): (ks: seq<Text>)
    ensures forall k :: k in ks <==> k in Keys(fs)
    ensures forall i, j :: 0 <= i < j < |ks| ==> ks[i] != ks[j]
    ensures sorted ==> Sorted(ks)
  {
    OrderIsSorted(Keys(fs));
    if sorted then Sort(Keys(fs)) else Keys(fs)
  }

  lemma OrderIsSorted(ks: seq<Text>)
    requires forall i, j :: 0 <= i < j < |ks| ==> ks[i] != ks[j]
    ensures Sorted(Sort(ks)) && (forall k :: k in Sort(ks) <==> k in ks)
    ensures forall i, j :: 0 <= i < j < |Sort(ks)| ==> Sort(ks)[i] != Sort(ks)[j]
  {
    SortIsSorted(ks);
    var r := Sort(ks);
    forall k ensures k in r <==> k in ks {
      assert k in Elements(r) <==> k in Elements(ks);
    }
    forall i, j | 0 <= i < j < |r| ensures r[i] != r[j] { Irreflexive(r[i]); }
  }

  function ItemParts(v: Value, items: seq<Value>, sorted: bool): Option<seq<Text>>
    requires v.Arr? && |items| <= |v.items| && items == v.items[|v.items| - |items|..]
    decreases v, 0, |items|
  {
    if items == [] then Some([])
    else
      var first := Write(v.items[|v.items| - |items|], sorted);
      var rest := ItemParts(v, items[1..], sorted);
      if first.None? || rest.None? then None else Some([first.value] + rest.value)
  }

  function FieldParts(v: Value, keys: seq<Text>, sorted: bool): Option<seq<Text>>
    requires v.Obj? && forall k :: k in keys ==> k in Keys(v.fields)
    decreases v, 0, |keys|
  {
    if keys == [] then Some([])
    else
      var rest := FieldParts(v, keys[1..], sorted);
      var x := Get(v.fields, keys[0]);
      if x.Undefined? then rest
      else
        var text := Write(x, sorted);
        if text.None? || rest.None? then None else Some([Quote(keys[0]) + ([COLON] + text.value)] + rest.value)
  }

  function Canon(v: Value): Option<Text> { Write(v, true) }

  function Stringify(v: Value): Option<Text> { Write(v, false) }

  function Prepend(parts: seq<Text>, rest: Option<seq<Text>>): Option<seq<Text>> {
    if rest.None? then None else Some(parts + rest.value)
  }

  lemma PrependEnds(parts: seq<Text>, rest: Option<seq<Text>>)
    ensures Prepend([], rest) == rest && Prepend(parts, Some([])) == Some(parts)
  {
    assert parts + [] == parts;
    if rest.Some? { assert [] + rest.value == rest.value; }
  }

  lemma PrependMore(parts: seq<Text>, text: Text, rest: Option<seq<Text>>)
    ensures Prepend(parts, if rest.None? then None else Some([text] + rest.value)) == Prepend(parts + [text], rest)
  {
    if rest.Some? { assert parts + ([text] + rest.value) == parts + [text] + rest.value; }
  }

  lemma ItemPartsFrom(v: Value, i: nat)
    requires v.Arr? && i < |v.items|
    ensures var first, rest := Write(v.items[i], true), ItemParts(v, v.items[i + 1..], true);
            ItemParts(v, v.items[i..], true) ==
            if first.None? || rest.None? then None else Some([first.value] + rest.value)
  {
    assert v.items[i..][1..] == v.items[i + 1..];
  }

  /** `canon`: None is the exception. */
  method Canonicalize(v: Value) returns (r: Option<Text>)
    ensures r == Canon(v)
    decreases v, 1
  {
    match v {
      case Null => r := Some(TEXT_NULL);
      case Bool(b) => r := Some(if b then TEXT_TRUE else TEXT_FALSE);
      case Num(x) => r := Some(Print(x));
      case Str(s) => r := Some(Quote(s));
      case Arr(items) =>
        var parts := CanonicalizeItems(v);
        r := if parts.None? then None else Some([OPEN_LIST] + Join(parts.value) + [CLOSE_LIST]);
      case Obj(fields) =>
        var parts := CanonicalizeFields(v);
        r := if parts.None? then None else Some([OPEN_OBJECT] + Join(parts.value) + [CLOSE_OBJECT]);
      case _ => r := None;
    }
  }

  method CanonicalizeItems(v: Value) returns (r: Option<seq<Text>>)
    requires v.Arr?
    ensures r == ItemParts(v, v.items, true)
    decreases v, 0
  {
    var items, parts := v.items, [];
    assert items[0..] == items;
    PrependEnds(parts, ItemParts(v, items, true));
    for i := 0 to |items|
      invariant items == v.items && ItemParts(v, items, true) == Prepend(parts, ItemParts(v, items[i..], true))
    {
      var text := Canonicalize(items[i]);
      ItemPartsFrom(v, i);
      if text.None? { return None; }
      PrependMore(parts, text.value, ItemParts(v, items[i + 1..], true));
      parts := parts + [text.value];
    }
    PrependEnds(parts, None);
    r := Some(parts);
  }

  method CanonicalizeFields(v: Value) returns (r: Option<seq<Text>>)
    requires v.Obj?
    ensures r == FieldParts(v, Order(v.fields, true), true)
    decreases v, 0
  {
    var keys, parts := Order(v.fields, true), [];
    assert keys[0..] == keys;
    PrependEnds(parts, FieldParts(v, keys, true));
    for i := 0 to |keys|
      invariant FieldParts(v, keys, true) == Prepend(parts, FieldParts(v, keys[i..], true))
    {
      var k := keys[i];
      var x := Get(v.fields, k);
      assert keys[i..][1..] == keys[i + 1..];
      if x.Undefined? { continue; }
      var text := Canonicalize(x);
      if text.None? { return None; }
      PrependMore(parts, Quote(k) + ([COLON] + text.value), FieldParts(v, keys[i + 1..], true));
      parts := parts + [Quote(k) + ([COLON] + text.value)];
    }
    PrependEnds(parts, None);
    r := Some(parts);
  }
}
