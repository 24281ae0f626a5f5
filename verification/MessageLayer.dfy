/** Direction-separated channel keys (orp-ref/core/messagelayer.ts). */
module MessageLayer {
  type Byte = b: int | 0 <= b < 256

  /** An X25519 public key. */
  type Pub = k: seq<Byte> | |k| == 32 witness seq(32, _ => 0)

  /** a[i] < b[i] at the first difference, or a proper prefix. */
  predicate LexLess(a: seq<Byte>, b: seq<Byte>) {
    exists n :: 0 <= n <= |a| && FirstDifference(a, b, n) && n < |b| && (n == |a| || a[n] < b[n])
  }

  predicate FirstDifference(a: seq<Byte>, b: seq<Byte>, n: nat) {
    n <= |a| && n <= |b| && (forall i :: 0 <= i < n ==> a[i] == b[i]) && (n < |a| && n < |b| ==> a[n] != b[n])
  }

  method IsLexLess(a: seq<Byte>, b: seq<Byte>) returns (r: bool)
    ensures r == LexLess(a, b)
  {
    var n := if |a| < |b| then |a| else |b|;
    for i := 0 to n
      invariant forall j :: 0 <= j < i ==> a[j] == b[j]
    {
      if a[i] != b[i] {
        Decided(a, b, i);
        return a[i] < b[i];
      }
    }
    Decided(a, b, n);
    return |a| < |b|;
  }

  /** The first difference settles the comparison. */
  lemma Decided(a: seq<Byte>, b: seq<Byte>, n: nat)
    requires FirstDifference(a, b, n) && (n == |a| || n == |b| || a[n] != b[n])
    ensures LexLess(a, b) <==> n < |b| && (n == |a| || a[n] < b[n])
  {
    forall m: nat | FirstDifference(a, b, m) && (m == |a| || m == |b| || a[m] != b[m]) ensures m == n {
    }
  }

  lemma {:induction false} SomeDifference(a: seq<Byte>, b: seq<Byte>) returns (n: nat)
    ensures FirstDifference(a, b, n) && (n == |a| || n == |b| || a[n] != b[n])
  {
    n := 0;
    while n < |a| && n < |b| && a[n] == b[n]
      invariant n <= |a| && n <= |b| && forall i :: 0 <= i < n ==> a[i] == b[i]
    {
      n := n + 1;
    }
  }

  /** Of two keys exactly one is the low one, unless they are equal. */
  lemma ExactlyOneLow(a: Pub, b: Pub)
    ensures a != b ==> (LexLess(a, b) <==> !LexLess(b, a))
    ensures a == b ==> !LexLess(a, b)
  {
    var n := SomeDifference(a, b);
    Decided(a, b, n);
    Decided(b, a, n);
    if n == 32 { assert a == b; }
  }

  // ---------------------------------------------------------------------------------------------
  // Symbolic key derivation
  // ---------------------------------------------------------------------------------------------

  /** The Diffie-Hellman secret of two key pairs: known by whoever holds either private key. */
  datatype Secret = Shared(ends: set<Pub>)

  datatype Direction = LoHi | HiLo

  /** HKDF output: a free function of secret, salt and label. */
  datatype ChannelKey = Derived(secret: Secret, salt: seq<Byte>, direction: Direction)

  datatype Keys = Keys(send: ChannelKey, recv: ChannelKey)

  function DirectionalKeys(mine: Pub, theirs: Pub): Keys {
    var shared := Shared({mine, theirs});
    var iAmLo := LexLess(mine, theirs);
    var lo, hi := if iAmLo then mine else theirs, if iAmLo then theirs else mine;
    var loHi, hiLo := Derived(shared, lo + hi, LoHi), Derived(shared, lo + hi, HiLo);
    if iAmLo then Keys(loHi, hiLo) else Keys(hiLo, loHi)
  }

  /** The two ends' keys mirror each other exactly when the ends are different keys. */
  lemma MirroredIffDistinct(a: Pub, b: Pub)
    ensures var x, y := DirectionalKeys(a, b), DirectionalKeys(b, a);
            x.send == y.recv && x.recv == y.send <==> a != b
  {
    ExactlyOneLow(a, b);
    assert {a, b} == {b, a};
  }

  /** A send key serves one direction of one pair: no other end sends with it, and the only end that
   *  receives with it is the peer. */
  lemma OneDirectionOnly(a: Pub, b: Pub, c: Pub, d: Pub)
    requires a != b && c != d
    ensures DirectionalKeys(a, b).send == DirectionalKeys(c, d).send <==> a == c && b == d
    ensures DirectionalKeys(a, b).send == DirectionalKeys(c, d).recv <==> a == d && b == c
    ensures DirectionalKeys(a, b).send != DirectionalKeys(a, b).recv
  {
    MirroredIffDistinct(c, d);
    SameSend(a, b, c, d);
    SameSend(a, b, d, c);
  }

  lemma SameSend(a: Pub, b: Pub, c: Pub, d: Pub)
    requires a != b && c != d
    ensures DirectionalKeys(a, b).send == DirectionalKeys(c, d).send <==> a == c && b == d
  {
    ExactlyOneLow(a, b);
    if {a, b} == {c, d} {
      assert a in {c, d} && b in {c, d} && c in {a, b} && d in {a, b};
      assert (a == c && b == d) || (a == d && b == c);
    }
  }
}
