/** Signing wire records (orp-ref/core/sign.ts) and the bodies of every signed record kind.
 *
 *  Signatures are symbolic: the signature of a preimage names the key and the preimage, so it
 *  verifies exactly under that key for those bytes.
 */
module Signing {
  import opened Common
  import opened NumberText
  import opened StringText
  import opened Canonical
  import opened JsonReader
  import Utf8Text

  type Key = Text

  type Record = Fields<Value>

  function ByteUnits(bytes: seq<Utf8Text.Byte>): (t: Text)
    ensures |t| == |bytes| && forall i :: 0 <= i < |t| ==> t[i] == bytes[i]
  {
    seq(|bytes|, i requires 0 <= i < |bytes| => var v: int := bytes[i]; v)
  }

  /** The signature made with the private half of `key` over `preimage`. */
  function Sig(key: Key, preimage: seq<Utf8Text.Byte>): (t: Text)
    ensures t != []
  {
    Quote(key) + ByteUnits(preimage)
  }

  lemma SigIsFree(k: Key, a: seq<Utf8Text.Byte>, l: Key, b: seq<Utf8Text.Byte>)
    ensures Sig(k, a) == Sig(l, b) <==> k == l && a == b
  {
    if Sig(k, a) == Sig(l, b) {
      ReadsQuoted(k, ByteUnits(a));
      ReadsQuoted(l, ByteUnits(b));
      assert k == l && ByteUnits(a) == ByteUnits(b);
      forall i | 0 <= i < |a| ensures a[i] == b[i] { assert ByteUnits(a)[i] == ByteUnits(b)[i]; }
    }
  }

  function Ascii(s: string): (t: Text)
    ensures |t| == |s| && forall i :: 0 <= i < |s| && s[i] < 0x80 as char ==> t[i] == s[i] as int
  {
    seq(|s|, i requires 0 <= i < |s| => if s[i] < 0x80 as char then s[i] as int else 0)
  }

  // ---------------------------------------------------------------------------------------------
  // Properties of a record
  // ---------------------------------------------------------------------------------------------

  /** record[k]; a missing property reads as undefined. */
  function Prop(r: Record, k: Text): Value {
    if k in Keys(r) then Get(r, k) else Undefined
  }

  /** `const { [k]: _, ...rest } = r` */
  function Without(r: Record, k: Text): (q: Record)
    ensures forall x :: x in Keys(q) <==> x in Keys(r) && x != k
    ensures forall x :: x != k ==> Prop(q, x) == Prop(r, x)
    ensures Prop(q, k) == Undefined
  {
    if r == [] then []
    else
      var rest := Without(Tail(r), k);
      TailKeys(r);
      if r[0].key == k then rest else Cons(r[0], rest)
  }

  function Tail(r: Record): Record
    requires r != []
  {
    r[1..]
  }

  function Cons(f: Field<Value>, r: Record): (q: Record)
    requires f.key !in Keys(r)
    ensures forall x :: x in Keys(q) <==> x in Keys(r) || x == f.key
    ensures forall x :: x != f.key ==> Prop(q, x) == Prop(r, x)
    ensures Prop(q, f.key) == f.value && q == [f] + r
  {
    assert forall i :: 0 <= i < |r| ==> Keys(r)[i] == r[i].key;
    var q := [f] + r;
    assert q[1..] == r;
    assert Keys(q) == [f.key] + Keys(r);
    q
  }

  lemma TailKeys(r: Record)
    requires r != []
    ensures forall x :: x in Keys(r) <==> x in Keys(Tail(r)) || x == r[0].key
    ensures r[0].key !in Keys(Tail(r)) && Prop(r, r[0].key) == r[0].value
    ensures forall x :: x != r[0].key ==> Prop(r, x) == Prop(Tail(r), x)
  {
    assert Keys(r) == [r[0].key] + Keys(r[1..]);
    assert forall i :: 0 <= i < |r| - 1 ==> Keys(r[1..])[i] == r[i + 1].key;
  }

  /** `{ ...r, [k]: v }`: in place when present, else at the end. */
  function With(r: Record, k: Text, v: Value): (q: Record)
    ensures forall x :: x in Keys(q) <==> x in Keys(r) || x == k
    ensures forall x :: x != k ==> Prop(q, x) == Prop(r, x)
    ensures Prop(q, k) == v
  {
    if r == [] then Cons(Field(k, v), [])
    else
      TailKeys(r);
      if r[0].key == k then Cons(Field(k, v), Tail(r)) else Cons(r[0], With(Tail(r), k, v))
  }

  /** A record prints when each of its properties is undefined or prints. */
  lemma PropsPrintable(r: Record)
    ensures Printable(Obj(r)) <==> forall k :: k in Keys(r) ==> Prop(r, k).Undefined? || Printable(Prop(r, k))
  {
    forall i | 0 <= i < |r| ensures Keys(r)[i] in Keys(r) && Prop(r, Keys(r)[i]) == r[i].value {
      assert Keys(r)[i] in Keys(r);
      GetAt(r, i);
    }
  }

  lemma PropMeans(r: Record, k: Text)
    requires Printable(Obj(r))
    ensures k in Mean(Obj(r)).fields <==> !Prop(r, k).Undefined?
    ensures !Prop(r, k).Undefined? ==> Printable(Prop(r, k)) && Mean(Obj(r)).fields[k] == Mean(Prop(r, k))
  {
    PropsPrintable(r);
    if k in Keys(r) { assert k in Present(r) <==> !Get(r, k).Undefined?; }
  }

  lemma WithoutPrintable(r: Record, k: Text)
    requires Printable(Obj(r))
    ensures Printable(Obj(Without(r, k)))
  {
    PropsPrintable(Without(r, k));
    PropsPrintable(r);
  }

  /** The meanings of a record's properties. */
  function Says(r: Record): map<Text, Norm>
    requires Printable(Obj(r))
  {
    Mean(Obj(r)).fields
  }

  lemma WithoutAt(r: Record, k: Text, x: Text)
    requires Printable(Obj(r)) && Printable(Obj(Without(r, k)))
    ensures var m, n := Says(Without(r, k)), Says(r);
            (x in m <==> x in n && x != k) && (x in m ==> m[x] == n[x])
  {
    PropMeans(Without(r, k), x);
    PropMeans(r, x);
  }

  lemma Restricted(m: map<Text, Norm>, n: map<Text, Norm>, k: Text)
    requires forall x :: (x in m <==> x in n && x != k) && (x in m ==> m[x] == n[x])
    ensures m == n - {k}
  {
  }

  /** Removing a property removes it from the meaning and nothing else. */
  lemma WithoutMeans(r: Record, k: Text)
    requires Printable(Obj(r))
    ensures Printable(Obj(Without(r, k))) && Says(Without(r, k)) == Says(r) - {k}
  {
    WithoutPrintable(r, k);
    var m, n := Says(Without(r, k)), Says(r);
    forall x ensures (x in m <==> x in n && x != k) && (x in m ==> m[x] == n[x]) {
      WithoutAt(r, k, x);
    }
    Restricted(m, n, k);
  }

  // ---------------------------------------------------------------------------------------------
  // signObject and verifyObject
  // ---------------------------------------------------------------------------------------------

  function SIGNATURE(): Text { Ascii("signature") }

  function Preimage(body: Record): Option<seq<Utf8Text.Byte>> { CanonBytes(Obj(body)) }

  function SignObject(record: Record, key: Key): Option<Record> {
    var preimage := Preimage(Without(record, SIGNATURE()));
    if preimage.None? then None else Some(With(record, SIGNATURE(), Str(Sig(key, preimage.value))))
  }

  function VerifyObject(record: Record, key: Key): bool {
    var sig := Prop(record, SIGNATURE());
    var preimage := Preimage(Without(record, SIGNATURE()));
    sig.Str? && sig.s != [] && preimage.Some? && sig.s == Sig(key, preimage.value)
  }

  /** What the record says apart from its signature. */
  ghost function BodyMeaning(r: Record): Norm
    requires Printable(Obj(Without(r, SIGNATURE())))
  {
    Mean(Obj(Without(r, SIGNATURE())))
  }

  lemma SameBody(r: Record, v: Value)
    ensures Preimage(Without(With(r, SIGNATURE(), v), SIGNATURE())) == Preimage(Without(r, SIGNATURE()))
  {
    var a, b := Without(With(r, SIGNATURE(), v), SIGNATURE()), Without(r, SIGNATURE());
    assert forall x :: Prop(a, x) == Prop(b, x) && (x in Keys(a) <==> x in Keys(b));
    SamePropsSameBytes(a, b);
  }

  lemma SamePropsSameBytes(a: Record, b: Record)
    requires forall x :: Prop(a, x) == Prop(b, x) && (x in Keys(a) <==> x in Keys(b))
    ensures Printable(Obj(a)) <==> Printable(Obj(b))
    ensures Printable(Obj(a)) ==> Mean(Obj(a)) == Mean(Obj(b))
    ensures Preimage(a) == Preimage(b)
  {
    PropsPrintable(a);
    PropsPrintable(b);
    PrintsIff(Obj(a), true);
    PrintsIff(Obj(b), true);
    if Printable(Obj(a)) {
      forall x ensures x in Present(a) <==> x in Present(b) { assert Prop(a, x) == Prop(b, x); }
      forall x | x in Present(a) ensures Get(a, x) == Get(b, x) { assert Prop(a, x) == Prop(b, x); }
      assert Mean(Obj(a)).fields == Mean(Obj(b)).fields;
      BytesIffSameMeaning(Obj(a), Obj(b));
    }
  }

  /** Signing fails only for a body that does not print, whatever stale signature the record carries. */
  lemma SignsIff(record: Record, key: Key)
    ensures SignObject(record, key).Some? <==> Printable(Obj(Without(record, SIGNATURE())))
  {
    PrintsIff(Obj(Without(record, SIGNATURE())), true);
  }

  /** The full account of a signed record: a record carrying its signature verifies under a key exactly
   *  when that is the signing key and the two say the same apart from the signature. */
  lemma VerifiesIff(record: Record, signer: Key, other: Record, key: Key)
    requires SignObject(record, signer).Some?
    requires Prop(other, SIGNATURE()) == Prop(SignObject(record, signer).value, SIGNATURE())
    ensures Printable(Obj(Without(record, SIGNATURE())))
    ensures VerifyObject(other, key) <==>
            key == signer && Printable(Obj(Without(other, SIGNATURE()))) && BodyMeaning(other) == BodyMeaning(record)
  {
    var a, b := Without(record, SIGNATURE()), Without(other, SIGNATURE());
    PrintsIff(Obj(a), true);
    PrintsIff(Obj(b), true);
    if Printable(Obj(b)) {
      SigIsFree(key, Preimage(b).value, signer, Preimage(a).value);
      BytesIffSameMeaning(Obj(a), Obj(b));
    }
  }

  lemma SignedPrints(record: Record, key: Key)
    requires SignObject(record, key).Some?
    ensures Printable(Obj(SignObject(record, key).value)) && Stringify(Obj(SignObject(record, key).value)).Some?
  {
    var signed := SignObject(record, key).value;
    var body := Without(record, SIGNATURE());
    SignsIff(record, key);
    PropsPrintable(body);
    PropsPrintable(signed);
    forall k | k in Keys(signed) ensures Prop(signed, k).Undefined? || Printable(Prop(signed, k)) {
      if k != SIGNATURE() { assert Prop(signed, k) == Prop(body, k) && k in Keys(body); }
    }
    PrintsIff(Obj(signed), false);
  }

  /** A signed record survives JSON.stringify and JSON.parse: undefined properties are dropped on the
   *  way, a stale signature was replaced, and whatever object the text is read as verifies. */
  lemma VerifiesAfterTransport(record: Record, key: Key, text: Text, received: Record)
    requires SignObject(record, key).Some? && Printable(Obj(received))
    requires Stringify(Obj(SignObject(record, key).value)) == Some(text)
    requires ParseValue(text) == Some((Mean(Obj(received)), []))
    ensures VerifyObject(received, key)
  {
    var signed := SignObject(record, key).value;
    SignedPrints(record, key);
    ReadsValue(Obj(signed), false, []);
    assert text + [] == text;
    WithoutMeans(received, SIGNATURE());
    WithoutMeans(signed, SIGNATURE());
    SameBody(record, Prop(signed, SIGNATURE()));
    BytesIffSameMeaning(Obj(Without(received, SIGNATURE())), Obj(Without(signed, SIGNATURE())));
    StringProp(signed, received, SIGNATURE());
  }

  /** A string property is part of the meaning. */
  lemma StringProp(a: Record, b: Record, k: Text)
    requires Printable(Obj(a)) && Printable(Obj(b)) && Mean(Obj(a)) == Mean(Obj(b))
    requires Prop(a, k).Str?
    ensures Prop(b, k) == Prop(a, k)
  {
    assert k in Present(a);
    assert k in Mean(Obj(a)).fields && Mean(Obj(a)).fields[k] == NStr(Prop(a, k).s);
    assert k in Present(b) && Mean(Obj(b)).fields[k] == Mean(Get(b, k));
  }
}
