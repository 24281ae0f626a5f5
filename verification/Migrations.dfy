/** A recipient's record of accepted key migrations and its chain walk (orp-ref/core/migration.ts). */
module Migrations {
  import opened Common

  type Key = nat
  type Pub = nat

  /** `signer` is the key whose signature the binding carries. */
  datatype Binding = Binding(identity: Key, transport: Pub, signer: Key)

  /** Signatures are symbolic: a signer stands for a valid signature over exactly this record's body.
   *  `retireAfter` is None when the timestamp does not parse. */
  datatype KeyMigration = KeyMigration(
    oldKey: Key, newKey: Key, newBinding: Binding, retireAfter: Option<int>, oldSigner: Key, newSigner: Key)

  datatype Accepted = Accepted(newKey: Key, newBinding: Binding, retireAfter: int)

  datatype Verdict = Valid | SameKey | BadBinding | BindingMismatch | BadOldSignature | BadNewSignature | BadRetireAfter

  type Records = map<Key, Accepted>

  function Verify(m: KeyMigration): Verdict {
    if m.oldKey == m.newKey then SameKey
    else if m.newBinding.signer != m.newBinding.identity then BadBinding
    else if m.newBinding.identity != m.newKey then BindingMismatch
    else if m.oldSigner != m.oldKey then BadOldSignature
    else if m.newSigner != m.newKey then BadNewSignature
    else Valid
  }

  function Accept(m: Records, r: KeyMigration): (Records, Verdict) {
    var v := Verify(r);
    if !v.Valid? then (m, v)
    else if r.retireAfter.None? then (m, BadRetireAfter)
    else (m[r.oldKey := Accepted(r.newKey, r.newBinding, r.retireAfter.value)], Valid)
  }

  /** What every accepted record satisfies. */
  predicate Sound(m: Records) {
    forall k :: k in m ==> m[k].newKey != k && m[k].newBinding.identity == m[k].newKey
  }

  lemma AcceptIsSound(m: Records, r: KeyMigration)
    requires Sound(m)
    ensures Sound(Accept(m, r).0)
    ensures Accept(m, r).1.Valid? ==> r.oldSigner == r.oldKey && r.newSigner == r.newKey && r.oldKey in Accept(m, r).0
    ensures !Accept(m, r).1.Valid? ==> Accept(m, r).0 == m
  {
  }

  /** What a verdict says is true of the record. */
  predicate Deserves(r: KeyMigration, v: Verdict) {
    match v
    case Valid => true
    case SameKey => r.oldKey == r.newKey
    case BadBinding => r.newBinding.signer != r.newBinding.identity
    case BindingMismatch => r.newBinding.identity != r.newKey
    case BadOldSignature => r.oldSigner != r.oldKey
    case BadNewSignature => r.newSigner != r.newKey
    case BadRetireAfter => r.retireAfter.None?
  }

  /** A migration is recorded, under the old key and in place of an earlier one, if and only if the keys differ,
   *  both signed it, the new key's binding is its own and the cutoff parses; any other changes nothing, and the
   *  verdict tells why. */
  lemma AcceptIff(m: Records, r: KeyMigration)
    ensures Accept(m, r).1.Valid? <==>
            r.oldKey != r.newKey && r.oldSigner == r.oldKey && r.newSigner == r.newKey &&
            r.newBinding == Binding(r.newKey, r.newBinding.transport, r.newKey) && r.retireAfter.Some?
    ensures Accept(m, r).1.Valid? ==> Accept(m, r).0 == m[r.oldKey := Accepted(r.newKey, r.newBinding, r.retireAfter.value)]
    ensures !Accept(m, r).1.Valid? ==> Accept(m, r).0 == m && Deserves(r, Accept(m, r).1)
  {
  }

  // ---------------------------------------------------------------------------------------------
  // The walk
  // ---------------------------------------------------------------------------------------------

  /** The loop of currentKey and currentBinding: the key and binding reached, and the hops taken. */
  function Walk(m: Records, cur: Key, seen: set<Key>, binding: Option<Binding>): (r: (Key, Option<Binding>, nat))
    requires cur in seen
    ensures r.2 <= |m.Keys - (seen - {cur})|
    decreases m.Keys - (seen - {cur})
  {
    if cur !in m || m[cur].newKey in seen then (cur, binding, 0)
    else
      var next := m[cur].newKey;
      assert (seen + {next}) - {next} == seen;
      assert cur in m.Keys - (seen - {cur}) && m.Keys - seen <= (m.Keys - (seen - {cur})) - {cur};
      SubsetSize(m.Keys - seen, (m.Keys - (seen - {cur})) - {cur});
      var r := Walk(m, next, seen + {next}, Some(m[cur].newBinding));
      (r.0, r.1, r.2 + 1)
  }

  function CurrentKey(m: Records, k: Key): Key { Walk(m, k, {k}, None).0 }

  function CurrentBinding(m: Records, k: Key): Option<Binding> { Walk(m, k, {k}, None).1 }

  /** The walk visits each recorded migration at most once. */
  lemma WalkIsBounded(m: Records, k: Key)
    ensures Walk(m, k, {k}, None).2 <= |m|
  {
    assert m.Keys - ({k} - {k}) == m.Keys;
    assert |m| == |m.Keys|;
  }

  lemma {:induction false} WalkBinding(m: Records, cur: Key, seen: set<Key>, binding: Option<Binding>)
    requires Sound(m) && cur in seen
    requires binding.Some? ==> binding.value.identity == cur
    ensures var r := Walk(m, cur, seen, binding);
            (r.1.Some? ==> r.1.value.identity == r.0) && (r.1.None? <==> binding.None? && r.2 == 0) &&
            (r.2 == 0 ==> r.0 == cur && r.1 == binding) && (r.2 > 0 ==> r.0 !in seen)
    decreases m.Keys - (seen - {cur})
  {
    if cur in m && m[cur].newKey !in seen {
      var next := m[cur].newKey;
      assert (seen + {next}) - {next} == seen;
      WalkBinding(m, next, seen + {next}, Some(m[cur].newBinding));
    }
  }

  /** There is no binding exactly when the key stands for itself; otherwise it is the current key's. */
  lemma BindingIsCurrents(m: Records, k: Key)
    requires Sound(m)
    ensures CurrentBinding(m, k).None? <==> CurrentKey(m, k) == k
    ensures CurrentBinding(m, k).Some? ==> CurrentBinding(m, k).value.identity == CurrentKey(m, k)
  {
    WalkBinding(m, k, {k}, None);
  }

  // ---------------------------------------------------------------------------------------------
  // Chains
  // ---------------------------------------------------------------------------------------------

  /** The key after up to n hops. */
  function Follow(m: Records, k: Key, n: nat): Key
    decreases n
  {
    if n == 0 || k !in m then k else Follow(m, m[k].newKey, n - 1)
  }

  ghost predicate Reaches(m: Records, a: Key, b: Key) { exists n: nat :: Follow(m, a, n) == b }

  /** No key with a migration leads back to itself. */
  ghost predicate Acyclic(m: Records) {
    forall k, n: nat :: k in m && n > 0 ==> Follow(m, k, n) != k
  }

  lemma {:induction false} FollowAdds(m: Records, a: Key, i: nat, j: nat)
    ensures Follow(m, a, i + j) == Follow(m, Follow(m, a, i), j)
    decreases i
  {
    if i > 0 && a in m { FollowAdds(m, m[a].newKey, i - 1, j); }
  }

  lemma UniqueEnd(m: Records, a: Key, i: nat, j: nat)
    requires Follow(m, a, i) !in m && Follow(m, a, j) !in m
    ensures Follow(m, a, i) == Follow(m, a, j)
  {
    if i <= j { FollowAdds(m, a, i, j - i); } else { FollowAdds(m, a, j, i - j); }
  }

  ghost predicate LedHere(m: Records, seen: set<Key>, cur: Key) {
    forall s :: s in seen ==> Reaches(m, s, cur)
  }

  lemma NeverSeen(m: Records, cur: Key, seen: set<Key>)
    requires Acyclic(m) && cur in m && LedHere(m, seen, cur)
    ensures m[cur].newKey !in seen && LedHere(m, seen + {m[cur].newKey}, m[cur].newKey)
  {
    var next := m[cur].newKey;
    if next in seen {
      var n: nat :| Follow(m, next, n) == cur;
      assert Follow(m, cur, n + 1) == cur;
    }
    forall s | s in seen + {next} ensures Reaches(m, s, next) {
      if s == next {
        assert Follow(m, s, 0) == next;
      } else {
        var n: nat :| Follow(m, s, n) == cur;
        FollowAdds(m, s, n, 1);
        assert Follow(m, cur, 1) == Follow(m, next, 0) == next;
        assert Follow(m, s, n + 1) == next;
      }
    }
  }

  lemma {:induction false} WalkReachesEnd(m: Records, cur: Key, seen: set<Key>, binding: Option<Binding>) returns (n: nat)
    requires Acyclic(m) && cur in seen && LedHere(m, seen, cur)
    ensures Walk(m, cur, seen, binding).0 !in m && Follow(m, cur, n) == Walk(m, cur, seen, binding).0
    decreases m.Keys - (seen - {cur})
  {
    if cur !in m {
      n := 0;
    } else {
      NeverSeen(m, cur, seen);
      var next := m[cur].newKey;
      assert (seen + {next}) - {next} == seen;
      n := WalkReachesEnd(m, next, seen + {next}, Some(m[cur].newBinding));
      n := n + 1;
    }
  }

  /** On an acyclic registry the current key is the one key without a migration that the chain reaches. */
  lemma CurrentKeyIsTerminal(m: Records, k: Key, t: Key)
    requires Acyclic(m)
    ensures CurrentKey(m, k) == t <==> t !in m && Reaches(m, k, t)
  {
    assert Follow(m, k, 0) == k;
    var n := WalkReachesEnd(m, k, {k}, None);
    assert Reaches(m, k, CurrentKey(m, k));
    if t !in m && Reaches(m, k, t) {
      var j: nat :| Follow(m, k, j) == t;
      UniqueEnd(m, k, n, j);
    }
  }

  /** Resolving twice changes nothing exactly when the first result has no migration of its own, as on
   *  every acyclic registry. */
  lemma IdempotentIff(m: Records, k: Key)
    requires Sound(m)
    ensures CurrentKey(m, CurrentKey(m, k)) == CurrentKey(m, k) <==> CurrentKey(m, k) !in m
  {
    WalkBinding(m, CurrentKey(m, k), {CurrentKey(m, k)}, None);
  }

  /** Two accepted migrations in a circle: each key resolves to the other. */
  lemma CircleIsNotIdempotent(a: Key, b: Key, ba: Binding, bb: Binding)
    requires a != b && ba.identity == a && bb.identity == b
    ensures var m := map[a := Accepted(b, bb, 0), b := Accepted(a, ba, 0)];
            Sound(m) && CurrentKey(m, a) == b && CurrentKey(m, b) == a
  {
    var m: Records := map[a := Accepted(b, bb, 0), b := Accepted(a, ba, 0)];
    assert Walk(m, b, {a} + {b}, Some(bb)).0 == b;
    assert Walk(m, a, {b} + {a}, Some(ba)).0 == a;
  }

  // ---------------------------------------------------------------------------------------------
  // Accepting one more migration
  // ---------------------------------------------------------------------------------------------

  /** Registries that differ only at `o`. */
  ghost predicate SameExcept(m: Records, m': Records, o: Key) {
    forall k :: k != o ==> (k in m <==> k in m') && (k in m ==> m[k] == m'[k])
  }

  /** Chains agree until they meet `o`. */
  lemma {:induction false} SameUntil(m: Records, m': Records, o: Key, k: Key, n: nat)
    requires SameExcept(m, m', o) && forall j: nat :: j < n ==> Follow(m, k, j) != o
    ensures Follow(m', k, n) == Follow(m, k, n)
    decreases n
  {
    if n == 0 {
    } else {
      assert Follow(m, k, 0) == k;
      if k in m {
        forall j: nat | j < n - 1 ensures Follow(m, m[k].newKey, j) != o {
          assert Follow(m, k, j + 1) == Follow(m, m[k].newKey, j);
        }
        SameUntil(m, m', o, m[k].newKey, n - 1);
      }
    }
  }

  /** The first hop at which a chain meets `o`. */
  lemma {:induction false} FirstMeeting(m: Records, k: Key, o: Key, n: nat) returns (i: nat)
    requires Follow(m, k, n) == o
    ensures i <= n && Follow(m, k, i) == o && forall j: nat :: j < i ==> Follow(m, k, j) != o
  {
    i := 0;
    while Follow(m, k, i) != o
      invariant i <= n && forall j: nat :: j < i ==> Follow(m, k, j) != o
      decreases n - i
    {
      i := i + 1;
    }
  }

  /** What one chain reaches at `o`, the other reaches too. */
  lemma ReachesBoth(m: Records, m': Records, o: Key, k: Key)
    requires SameExcept(m, m', o)
    ensures Reaches(m, k, o) <==> Reaches(m', k, o)
  {
    if Reaches(m, k, o) {
      var n: nat :| Follow(m, k, n) == o;
      var i := FirstMeeting(m, k, o, n);
      SameUntil(m, m', o, k, i);
    }
    if Reaches(m', k, o) {
      var n: nat :| Follow(m', k, n) == o;
      var i := FirstMeeting(m', k, o, n);
      SameUntil(m', m, o, k, i);
    }
  }

  /** A cycle through `o` can be entered at `o`. */
  lemma Rotate(m: Records, k: Key, p: nat, j: nat, o: Key)
    requires Follow(m, k, p) == k && Follow(m, k, j) == o
    ensures Follow(m, o, p) == o
  {
    FollowAdds(m, k, j, p);
    FollowAdds(m, k, p, j);
  }

  /** Recording o -> n keeps an acyclic registry acyclic exactly when n does not already lead to o. */
  lemma StaysAcyclicIff(m: Records, o: Key, a: Accepted)
    requires Acyclic(m)
    ensures Acyclic(m[o := a]) <==> !Reaches(m, a.newKey, o)
  {
    var m' := m[o := a];
    var n := a.newKey;
    assert SameExcept(m, m', o) && SameExcept(m', m, o);
    ReachesBoth(m, m', o, n);
    if Reaches(m', n, o) {
      var i: nat :| Follow(m', n, i) == o;
      assert Follow(m', o, i + 1) == o;
    } else {
      forall k, p: nat | k in m' && p > 0 ensures Follow(m', k, p) != k {
        if Follow(m', k, p) == k { CycleIsOldOrMeets(m, m', o, k, p); }
      }
    }
  }

  lemma CycleIsOldOrMeets(m: Records, m': Records, o: Key, k: Key, p: nat)
    requires SameExcept(m, m', o) && SameExcept(m', m, o) && o in m'
    requires k in m' && p > 0 && Follow(m', k, p) == k
    ensures Reaches(m', m'[o].newKey, o) || (k in m && Follow(m, k, p) == k)
  {
    if j: nat :| j < p && Follow(m', k, j) == o {
      Rotate(m', k, p, j, o);
      assert Follow(m', m'[o].newKey, p - 1) == o;
    } else {
      assert Follow(m', k, 0) == k;
      SameUntil(m', m, o, k, p);
    }
  }

  /** A chain that does not end at the terminal t keeps its end. */
  lemma EndKept(m: Records, m': Records, t: Key, k: Key)
    requires Acyclic(m) && t !in m && SameExcept(m, m', t) && CurrentKey(m, k) != t
    ensures CurrentKey(m, k) !in m' && Reaches(m', k, CurrentKey(m, k))
  {
    var u := CurrentKey(m, k);
    CurrentKeyIsTerminal(m, k, u);
    CurrentKeyIsTerminal(m, k, t);
    var n: nat :| Follow(m, k, n) == u;
    SameUntil(m, m', t, k, n);
  }

  lemma ThroughT(m': Records, k: Key, t: Key, u: Key)
    requires t in m' && Reaches(m', k, t) && Reaches(m', m'[t].newKey, u)
    ensures Reaches(m', k, u)
  {
    var i: nat :| Follow(m', k, i) == t;
    var j: nat :| Follow(m', m'[t].newKey, j) == u;
    FollowAdds(m', k, i, j + 1);
    assert Follow(m', t, j + 1) == u;
  }

  /** Accepting t -> n for a terminal t, when n does not lead back to t, redirects exactly the keys that
   *  ended at t, to where n ends. */
  lemma AcceptRedirects(m: Records, t: Key, a: Accepted, k: Key)
    requires Acyclic(m) && t !in m && CurrentKey(m, a.newKey) != t
    ensures Acyclic(m[t := a])
    ensures CurrentKey(m[t := a], k) == if CurrentKey(m, k) == t then CurrentKey(m, a.newKey) else CurrentKey(m, k)
  {
    var m', n := m[t := a], a.newKey;
    CurrentKeyIsTerminal(m, n, t);
    StaysAcyclicIff(m, t, a);
    if CurrentKey(m, k) == t {
      Redirected(m, m', t, n, k);
    } else {
      EndKept(m, m', t, k);
      CurrentKeyIsTerminal(m', k, CurrentKey(m, k));
    }
  }

  lemma Redirected(m: Records, m': Records, t: Key, n: Key, k: Key)
    requires Acyclic(m) && Acyclic(m') && t !in m && SameExcept(m, m', t) && t in m' && m'[t].newKey == n
    requires CurrentKey(m, n) != t && CurrentKey(m, k) == t
    ensures CurrentKey(m', k) == CurrentKey(m, n)
  {
    CurrentKeyIsTerminal(m, k, t);
    ReachesBoth(m, m', t, k);
    EndKept(m, m', t, n);
    ThroughT(m', k, t, CurrentKey(m, n));
    CurrentKeyIsTerminal(m', k, CurrentKey(m, n));
  }

  function AcceptAll(m: Records, rs: seq<KeyMigration>): Records
    decreases |rs|
  {
    if rs == [] then m else AcceptAll(Accept(m, rs[0]).0, rs[1..])
  }

  /** After any sequence of migrations, valid or not, every lookup ends within the number of recorded
   *  migrations and gives a binding of the current key, or none for a key that stands for itself. */
  lemma {:induction false} EveryLookupIsSound(m: Records, rs: seq<KeyMigration>, k: Key)
    requires Sound(m)
    ensures var r := AcceptAll(m, rs);
            Sound(r) && Walk(r, k, {k}, None).2 <= |r| &&
            (CurrentBinding(r, k).None? <==> CurrentKey(r, k) == k) &&
            (CurrentBinding(r, k).Some? ==> CurrentBinding(r, k).value.identity == CurrentKey(r, k))
    decreases |rs|
  {
    if rs == [] {
      WalkIsBounded(m, k);
      BindingIsCurrents(m, k);
    } else {
      AcceptIsSound(m, rs[0]);
      EveryLookupIsSound(Accept(m, rs[0]).0, rs[1..], k);
    }
  }

  // ---------------------------------------------------------------------------------------------
  // The object
  // ---------------------------------------------------------------------------------------------

  class MigrationRegistry {
    var byOldKey: Records

    ghost predicate Valid()
      reads this
    {
      Sound(byOldKey)
    }

    constructor ()
      ensures Valid() && byOldKey == map[] && Acyclic(byOldKey)
    {
      byOldKey := map[];
    }

    method AcceptMigration(migration: KeyMigration) returns (result: Verdict)
      requires Valid()
      modifies this
      ensures Valid() && (byOldKey, result) == Accept(old(byOldKey), migration)
    {
      result := Verify(migration);
      if result != Verdict.Valid { return; }
      if migration.retireAfter == None { return BadRetireAfter; }
      byOldKey := byOldKey[migration.oldKey := Accepted(migration.newKey, migration.newBinding, migration.retireAfter.value)];
    }

    method HasMigration(key: Key) returns (r: bool)
      ensures r == (key in byOldKey)
    {
      r := key in byOldKey;
    }

    method FindCurrentKey(key: Key) returns (cur: Key)
      ensures cur == CurrentKey(byOldKey, key)
    {
      cur := key;
      var seen := {cur};
      ghost var binding := None;
      while cur in byOldKey && byOldKey[cur].newKey !in seen
        invariant cur in seen
        invariant CurrentKey(byOldKey, key) == Walk(byOldKey, cur, seen, binding).0
        decreases byOldKey.Keys - (seen - {cur})
      {
        var next := byOldKey[cur].newKey;
        assert (seen + {next}) - {next} == seen;
        binding := Some(byOldKey[cur].newBinding);
        seen := seen + {next};
        cur := next;
      }
    }

    method FindCurrentBinding(key: Key) returns (binding: Option<Binding>)
      requires Valid()
      ensures binding == CurrentBinding(byOldKey, key)
    {
      var cur := key;
      binding := None;
      var seen := {cur};
      while cur in byOldKey && byOldKey[cur].newKey !in seen
        invariant cur in seen
        invariant CurrentBinding(byOldKey, key) == Walk(byOldKey, cur, seen, binding).1
        decreases byOldKey.Keys - (seen - {cur})
      {
        var next := byOldKey[cur].newKey;
        assert (seen + {next}) - {next} == seen;
        binding := Some(byOldKey[cur].newBinding);
        seen := seen + {next};
        cur := next;
      }
    }

    method IsRetired(key: Key, now: int) returns (r: bool)
      ensures r <==> key in byOldKey && byOldKey[key].retireAfter <= now
    {
      r := key in byOldKey && now >= byOldKey[key].retireAfter;
    }
  }
}
