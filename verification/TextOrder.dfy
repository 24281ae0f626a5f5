/** The order of Array.prototype.sort() on strings, by UTF-16 code units, and sorting by it. */
module TextOrder {
  import opened NumberText

  predicate Less(a: Text, b: Text) {
    if b == [] then false
    else if a == [] then true
    else a[0] < b[0] || (a[0] == b[0] && Less(a[1..], b[1..]))
  }

  lemma {:induction false} Irreflexive(a: Text)
    ensures !Less(a, a)
  {
    if a == [] {
    } else {
      Irreflexive(a[1..]);
    }
  }

  lemma {:induction false} Transitive(a: Text, b: Text, c: Text)
    requires Less(a, b) && Less(b, c)
    ensures Less(a, c)
  {
    if a != [] && a[0] == b[0] == c[0] { Transitive(a[1..], b[1..], c[1..]); }
  }

  lemma {:induction false} Total(a: Text, b: Text)
    ensures a == b || Less(a, b) || Less(b, a)
  {
    if a != [] && b != [] && a[0] == b[0] {
      Total(a[1..], b[1..]);
      if a[1..] == b[1..] {
        assert a == [a[0]] + a[1..] == [b[0]] + b[1..] == b;
      }
    }
  }

  predicate Sorted(ks: seq<Text>) {
    forall i, j :: 0 <= i < j < |ks| ==> Less(ks[i], ks[j])
  }

  function Insert(k: Text, ks: seq<Text>): seq<Text> {
    if ks == [] || k == ks[0] || Less(k, ks[0]) then [k] + ks else [ks[0]] + Insert(k, ks[1..])
  }

  function Sort(ks: seq<Text>): seq<Text> {
    if ks == [] then [] else Insert(ks[0], Sort(ks[1..]))
  }

  function Elements(ks: seq<Text>): set<Text> { set i | 0 <= i < |ks| :: ks[i] }

  lemma InElements(ks: seq<Text>)
    ensures forall k :: k in ks <==> k in Elements(ks)
    ensures ks != [] ==> ks[0] in Elements(ks)
  {
  }

  lemma {:induction false} InsertKeeps(k: Text, ks: seq<Text>)
    requires Sorted(ks) && k !in ks
    ensures Sorted(Insert(k, ks)) && Elements(Insert(k, ks)) == Elements(ks) + {k}
    ensures |Insert(k, ks)| == |ks| + 1
  {
    var r := Insert(k, ks);
    if ks == [] {
    } else if Less(k, ks[0]) {
      forall j | 0 <= j < |ks| ensures Less(k, ks[j]) {
        if j > 0 { Transitive(k, ks[0], ks[j]); }
      }
      assert ks == r[1..];
      assert Elements(r) == {r[0]} + Elements(r[1..]);
    } else {
      Total(k, ks[0]);
      InsertKeeps(k, ks[1..]);
      assert ks == [ks[0]] + ks[1..];
      assert Elements(ks) == {ks[0]} + Elements(ks[1..]);
      assert Elements(r) == {r[0]} + Elements(r[1..]);
      forall j | 0 < j < |r| ensures Less(ks[0], r[j]) {
        assert r[j] in Elements(Insert(k, ks[1..]));
      }
    }
  }

  /** Sorting distinct strings gives exactly those strings, in order. */
  lemma {:induction false} SortIsSorted(ks: seq<Text>)
    requires forall i, j :: 0 <= i < j < |ks| ==> ks[i] != ks[j]
    ensures Sorted(Sort(ks)) && Elements(Sort(ks)) == Elements(ks) && |Sort(ks)| == |ks|
  {
    if ks == [] {
    } else {
      SortIsSorted(ks[1..]);
      assert ks[0] !in Elements(ks[1..]);
      InElements(Sort(ks[1..]));
      InsertKeeps(ks[0], Sort(ks[1..]));
      assert ks == [ks[0]] + ks[1..];
    }
  }

  /** A set of strings has one sorted listing. */
  lemma {:induction false} SortedIsUnique(a: seq<Text>, b: seq<Text>)
    requires Sorted(a) && Sorted(b) && Elements(a) == Elements(b)
    ensures a == b
  {
    InElements(a);
    InElements(b);
    if a == [] {
    } else {
      assert a[0] in Elements(a) && a[0] in Elements(b);
      assert b != [];
      assert b[0] in Elements(b) && b[0] in Elements(a);
      LeastFirst(a, b[0]);
      LeastFirst(b, a[0]);
      if a[0] != b[0] { Transitive(a[0], b[0], a[0]); Irreflexive(a[0]); }
      RestElements(a);
      RestElements(b);
      SortedIsUnique(a[1..], b[1..]);
      assert a == [a[0]] + a[1..] && b == [b[0]] + b[1..];
    }
  }

  lemma LeastFirst(a: seq<Text>, k: Text)
    requires Sorted(a) && k in Elements(a)
    ensures a[0] == k || Less(a[0], k)
  {
  }

  lemma RestElements(a: seq<Text>)
    requires Sorted(a) && a != []
    ensures Elements(a[1..]) == Elements(a) - {a[0]}
  {
    Irreflexive(a[0]);
    forall k | k in Elements(a) && k != a[0] ensures k in Elements(a[1..]) {
      var i :| 0 <= i < |a| && a[i] == k;
      assert a[1..][i - 1] == k;
    }
  }
}
