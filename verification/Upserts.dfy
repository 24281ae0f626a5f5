/** Keyed rows, put one after another into a map: the loops of backup restore and bulk import. */
module Upserts {
  /** Every row once, under its own key. */
  predicate Lists<K, V(==)>(xs: seq<V>, m: map<K, V>, id: V -> K) {
    (forall k :: k in m ==> id(m[k]) == k && m[k] in xs) &&
    (forall i :: 0 <= i < |xs| ==> id(xs[i]) in m && m[id(xs[i])] == xs[i])
  }

  predicate Keyed<K, V>(m: map<K, V>, id: V -> K) { forall k :: k in m ==> id(m[k]) == k }

  function PutAll<K, V>(m: map<K, V>, xs: seq<V>, id: V -> K): map<K, V>
    decreases |xs|
  {
    if xs == [] then m else PutAll(m[id(xs[0]) := xs[0]], xs[1..], id)
  }

  function PutAbsent<K, V>(m: map<K, V>, xs: seq<V>, id: V -> K): map<K, V>
    decreases |xs|
  {
    if xs == [] then m else PutAbsent(if id(xs[0]) in m then m else m[id(xs[0]) := xs[0]], xs[1..], id)
  }

  /** How many rows PutAbsent adds. */
  function Added<K, V>(m: map<K, V>, xs: seq<V>, id: V -> K): nat
    decreases |xs|
  {
    if xs == [] then 0
    else if id(xs[0]) in m then Added(m, xs[1..], id)
    else 1 + Added(m[id(xs[0]) := xs[0]], xs[1..], id)
  }

  /** Putting absent rows changes no row that is there, and leaves every key present. */
  lemma {:induction false} PutAbsentKeeps<K, V>(m: map<K, V>, xs: seq<V>, id: V -> K)
    ensures var r := PutAbsent(m, xs, id);
            (forall k :: k in m ==> k in r && r[k] == m[k]) && (forall i :: 0 <= i < |xs| ==> id(xs[i]) in r) &&
            (forall k :: k in r && k !in m ==> r[k] in xs && id(r[k]) == k)
    decreases |xs|
  {
    if xs == [] {
    } else {
      PutAbsentKeeps(if id(xs[0]) in m then m else m[id(xs[0]) := xs[0]], xs[1..], id);
      assert xs == [xs[0]] + xs[1..];
    }
  }

  /** The rows added are the map's growth. */
  lemma {:induction false} AddedGrows<K, V>(m: map<K, V>, xs: seq<V>, id: V -> K)
    ensures |PutAbsent(m, xs, id)| == |m| + Added(m, xs, id)
    decreases |xs|
  {
    if xs == [] {
    } else {
      var k := id(xs[0]);
      if k in m {
        AddedGrows(m, xs[1..], id);
      } else {
        AddedGrows(m[k := xs[0]], xs[1..], id);
        assert m[k := xs[0]].Keys == m.Keys + {k};
        assert |m[k := xs[0]]| == |m[k := xs[0]].Keys| && |m| == |m.Keys|;
      }
    }
  }

  /** Nothing to put: every key is there. */
  lemma {:induction false} PutAbsentNothing<K, V>(m: map<K, V>, xs: seq<V>, id: V -> K)
    requires forall i :: 0 <= i < |xs| ==> id(xs[i]) in m
    ensures PutAbsent(m, xs, id) == m && Added(m, xs, id) == 0
    decreases |xs|
  {
    if xs == [] {
    } else {
      assert id(xs[0]) in m;
      PutAbsentNothing(m, xs[1..], id);
    }
  }

  lemma PutAbsentTwice<K, V>(m: map<K, V>, xs: seq<V>, id: V -> K)
    ensures PutAbsent(PutAbsent(m, xs, id), xs, id) == PutAbsent(m, xs, id)
    ensures Added(PutAbsent(m, xs, id), xs, id) == 0
  {
    PutAbsentKeeps(m, xs, id);
    PutAbsentNothing(PutAbsent(m, xs, id), xs, id);
  }

  /** The last row put under a key is the one there. */
  lemma {:induction false} PutAllIs<K, V>(m: map<K, V>, xs: seq<V>, id: V -> K)
    ensures var r := PutAll(m, xs, id);
            (forall i :: 0 <= i < |xs| ==> id(xs[i]) in r) &&
            (forall k :: k in r ==> (k in m && r[k] == m[k]) || (r[k] in xs && id(r[k]) == k))
    ensures forall k :: k in m ==> k in PutAll(m, xs, id)
    ensures forall k :: k in m && (forall i :: 0 <= i < |xs| ==> id(xs[i]) != k) ==> PutAll(m, xs, id)[k] == m[k]
    decreases |xs|
  {
    if xs == [] {
    } else {
      PutAllIs(m[id(xs[0]) := xs[0]], xs[1..], id);
      assert xs == [xs[0]] + xs[1..];
    }
  }

  predicate HasKey<K(==), V>(xs: seq<V>, id: V -> K, k: K) { exists i :: 0 <= i < |xs| && id(xs[i]) == k }

  /** Position `i` is the first, or the last, of the rows with key `k`. */
  predicate IsFirst<K(==), V>(xs: seq<V>, id: V -> K, k: K, i: nat) {
    i < |xs| && id(xs[i]) == k && forall j :: 0 <= j < i ==> id(xs[j]) != k
  }

  predicate IsLast<K(==), V>(xs: seq<V>, id: V -> K, k: K, i: nat) {
    i < |xs| && id(xs[i]) == k && forall j :: i < j < |xs| ==> id(xs[j]) != k
  }

  lemma HasKeyMore<K, V>(xs: seq<V>, id: V -> K, k: K)
    requires xs != []
    ensures HasKey(xs, id, k) <==> id(xs[0]) == k || HasKey(xs[1..], id, k)
  {
    if HasKey(xs[1..], id, k) {
      var i :| 0 <= i < |xs| - 1 && id(xs[1..][i]) == k;
      assert id(xs[i + 1]) == k;
    }
    if HasKey(xs, id, k) && id(xs[0]) != k {
      var i :| 0 <= i < |xs| && id(xs[i]) == k;
      assert id(xs[1..][i - 1]) == k;
    }
  }

  /** Putting absent rows keeps what is there, and otherwise holds the first row of each key; no other keys. */
  lemma {:induction false} PutAbsentIs<K, V>(m: map<K, V>, xs: seq<V>, id: V -> K, k: K)
    ensures k in PutAbsent(m, xs, id) <==> k in m || HasKey(xs, id, k)
    ensures k in m ==> PutAbsent(m, xs, id)[k] == m[k]
    ensures forall i: nat :: k !in m && IsFirst(xs, id, k, i) ==> PutAbsent(m, xs, id)[k] == xs[i]
    decreases |xs|
  {
    if xs == [] {
    } else {
      HasKeyMore(xs, id, k);
      PutAbsentIs(if id(xs[0]) in m then m else m[id(xs[0]) := xs[0]], xs[1..], id, k);
      forall i: nat | k !in m && IsFirst(xs, id, k, i) ensures PutAbsent(m, xs, id)[k] == xs[i] {
        if i > 0 {
          assert xs[1..][i - 1] == xs[i] && forall j :: 0 <= j < i - 1 ==> xs[1..][j] == xs[j + 1];
          assert IsFirst(xs[1..], id, k, i - 1);
        }
      }
    }
  }

  /** Putting all rows leaves the last row of each key, and of the old ones those without a new row. */
  lemma {:induction false} PutAllHolds<K, V>(m: map<K, V>, xs: seq<V>, id: V -> K, k: K)
    ensures k in PutAll(m, xs, id) <==> k in m || HasKey(xs, id, k)
    ensures k in m && !HasKey(xs, id, k) ==> PutAll(m, xs, id)[k] == m[k]
    ensures forall i: nat :: IsLast(xs, id, k, i) ==> PutAll(m, xs, id)[k] == xs[i]
    decreases |xs|
  {
    if xs == [] {
    } else {
      HasKeyMore(xs, id, k);
      PutAllHolds(m[id(xs[0]) := xs[0]], xs[1..], id, k);
      forall i: nat | IsLast(xs, id, k, i) ensures PutAll(m, xs, id)[k] == xs[i] {
        assert forall j :: 0 <= j < |xs| - 1 ==> xs[1..][j] == xs[j + 1];
        if i > 0 { assert IsLast(xs[1..], id, k, i - 1); } else { assert !HasKey(xs[1..], id, k); }
      }
    }
  }

  /** Putting a listing of a map into an empty one gives that map, in whatever order it is listed. */
  lemma PutAllOfListing<K, V>(xs: seq<V>, m: map<K, V>, id: V -> K)
    requires Lists(xs, m, id)
    ensures PutAll(map[], xs, id) == m
  {
    PutAllIs(map[], xs, id);
    var r := PutAll(map[], xs, id);
    forall k | k in m ensures k in r && r[k] == m[k] {
      var i :| 0 <= i < |xs| && xs[i] == m[k];
    }
    forall k | k in r ensures k in m {
      var i :| 0 <= i < |xs| && xs[i] == r[k];
    }
  }

  lemma {:induction false} PutAllMore<K, V>(m: map<K, V>, xs: seq<V>, x: V, id: V -> K)
    ensures PutAll(m, xs + [x], id) == PutAll(m, xs, id)[id(x) := x]
    decreases |xs|
  {
    if xs == [] {
      assert [] + [x] == [x];
    } else {
      assert (xs + [x])[0] == xs[0] && (xs + [x])[1..] == xs[1..] + [x];
      PutAllMore(m[id(xs[0]) := xs[0]], xs[1..], x, id);
    }
  }

  lemma {:induction false} PutAbsentMore<K, V>(m: map<K, V>, xs: seq<V>, x: V, id: V -> K)
    ensures var r := PutAbsent(m, xs, id);
            PutAbsent(m, xs + [x], id) == (if id(x) in r then r else r[id(x) := x]) &&
            Added(m, xs + [x], id) == Added(m, xs, id) + (if id(x) in r then 0 else 1)
    decreases |xs|
  {
    if xs == [] {
      assert [] + [x] == [x];
      assert [x][1..] == [];
    } else {
      assert (xs + [x])[0] == xs[0] && (xs + [x])[1..] == xs[1..] + [x];
      PutAbsentMore(if id(xs[0]) in m then m else m[id(xs[0]) := xs[0]], xs[1..], x, id);
    }
  }
}
