/** The chunk arithmetic of file-transfer.ts, and the sink that puts the chunks together again. */
module Chunks {
  import opened Common

  type byte = b: int | 0 <= b < 256

  /** Math.ceil(size / chunkSize), and 0 for an empty file. */
  function ChunkCount(size: nat, chunkSize: nat): nat
    requires chunkSize > 0
  {
    if size == 0 then 0 else (size + chunkSize - 1) / chunkSize
  }

  function Length(size: nat, chunkSize: nat, i: nat): int
    requires chunkSize > 0
  {
    var rest := size - i * chunkSize;
    if chunkSize < rest then chunkSize else rest
  }

  /** What readChunk returns for chunk `i`. */
  function Slice(source: seq<byte>, chunkSize: nat, i: nat): seq<byte>
    requires chunkSize > 0 && i < ChunkCount(|source|, chunkSize)
  {
    InRange(|source|, chunkSize, i);
    source[i * chunkSize..i * chunkSize + Length(|source|, chunkSize, i)]
  }

  lemma MulMono(a: int, b: int, c: int)
    requires a <= b && c >= 0
    ensures a * c <= b * c
  {
  }

  /** The count is the exact ceiling: one chunk fewer would not reach the end of the file. */
  lemma CountIsCeiling(size: nat, chunkSize: nat)
    requires chunkSize > 0
    ensures var n := ChunkCount(size, chunkSize);
            n * chunkSize >= size && (n > 0 ==> (n - 1) * chunkSize < size)
  {
    if size > 0 {
      var n := ChunkCount(size, chunkSize);
      assert (size + chunkSize - 1) == n * chunkSize + (size + chunkSize - 1) % chunkSize;
      assert (n - 1) * chunkSize == n * chunkSize - chunkSize;
    }
  }

  lemma InRange(size: nat, chunkSize: nat, i: nat)
    requires chunkSize > 0 && i < ChunkCount(size, chunkSize)
    ensures 0 <= i * chunkSize < size
    ensures 0 < Length(size, chunkSize, i) <= chunkSize
    ensures i * chunkSize + Length(size, chunkSize, i) <= size
  {
    CountIsCeiling(size, chunkSize);
    MulMono(i, ChunkCount(size, chunkSize) - 1, chunkSize);
  }

  /** Chunk `i` ends exactly where chunk `i + 1` begins, and the last one at the end of the file. */
  lemma Consecutive(size: nat, chunkSize: nat, i: nat)
    requires chunkSize > 0 && i < ChunkCount(size, chunkSize)
    ensures var end := i * chunkSize + Length(size, chunkSize, i);
            end == if i + 1 < ChunkCount(size, chunkSize) then (i + 1) * chunkSize else size
  {
    CountIsCeiling(size, chunkSize);
    assert (i + 1) * chunkSize == i * chunkSize + chunkSize;
    if i + 1 < ChunkCount(size, chunkSize) {
      InRange(size, chunkSize, i + 1);
    }
  }

  /** The slices tile [0, size): every position lies in exactly one chunk. */
  lemma Tiling(size: nat, chunkSize: nat, p: nat)
    requires chunkSize > 0 && p < size
    ensures p / chunkSize < ChunkCount(size, chunkSize)
    ensures forall i: nat :: i < ChunkCount(size, chunkSize) ==>
              (i * chunkSize <= p < i * chunkSize + Length(size, chunkSize, i) <==> i == p / chunkSize)
  {
    var q := p / chunkSize;
    var n := ChunkCount(size, chunkSize);
    CountIsCeiling(size, chunkSize);
    assert p == q * chunkSize + p % chunkSize;
    if q >= n { MulMono(n, q, chunkSize); }
    forall i: nat | i < n
      ensures i * chunkSize <= p < i * chunkSize + Length(size, chunkSize, i) <==> i == q
    {
      InRange(size, chunkSize, i);
      if i < q {
        MulMono(i + 1, q, chunkSize);
        assert (i + 1) * chunkSize == i * chunkSize + chunkSize;
      } else if i > q {
        MulMono(q + 1, i, chunkSize);
        assert (q + 1) * chunkSize == q * chunkSize + chunkSize;
      }
    }
  }

  /** The bytes in those of the first `n` chunks that are in `have`. */
  ghost function Volume(size: nat, chunkSize: nat, n: nat, have: set<nat>): int
    requires chunkSize > 0
  {
    if n == 0 then 0
    else Volume(size, chunkSize, n - 1, have) + if n - 1 in have then Length(size, chunkSize, n - 1) else 0
  }

  lemma {:induction false} VolumeAdds(size: nat, chunkSize: nat, n: nat, have: set<nat>, i: nat)
    requires chunkSize > 0 && i !in have
    ensures Volume(size, chunkSize, n, have + {i})
         == Volume(size, chunkSize, n, have) + if i < n then Length(size, chunkSize, i) else 0
  {
    if n == 0 {
    } else {
      VolumeAdds(size, chunkSize, n - 1, have, i);
      assert n - 1 in have + {i} <==> n - 1 in have || n - 1 == i;
    }
  }

  /** All chunks together hold exactly the bytes of the file. */
  lemma {:induction false} VolumeOfPrefix(size: nat, chunkSize: nat, n: nat, have: set<nat>)
    requires chunkSize > 0 && n <= ChunkCount(size, chunkSize)
    requires forall i: nat :: i < n ==> i in have
    ensures Volume(size, chunkSize, n, have)
         == if n == ChunkCount(size, chunkSize) then size else n * chunkSize
  {
    CountIsCeiling(size, chunkSize);
    if n == 0 {
    } else {
      VolumeOfPrefix(size, chunkSize, n - 1, have);
      Consecutive(size, chunkSize, n - 1);
    }
  }

  lemma {:induction false} VolumeOfNone(size: nat, chunkSize: nat, n: nat)
    requires chunkSize > 0
    ensures Volume(size, chunkSize, n, {}) == 0
  {
    if n == 0 {
    } else {
      VolumeOfNone(size, chunkSize, n - 1);
    }
  }

  lemma {:induction false} VolumeNonNegative(size: nat, chunkSize: nat, n: nat, have: set<nat>)
    requires chunkSize > 0 && n <= ChunkCount(size, chunkSize)
    ensures Volume(size, chunkSize, n, have) >= 0
  {
    if n == 0 {
    } else {
      InRange(size, chunkSize, n - 1);
      VolumeNonNegative(size, chunkSize, n - 1, have);
    }
  }

  /** A subset of {0, ..., n-1} with n elements is all of it: counting chunks is enough. */
  lemma {:induction false} FullByCount(have: set<nat>, n: nat)
    requires forall i :: i in have ==> i < n
    ensures |have| <= n
    ensures |have| == n <==> forall i: nat :: i < n ==> i in have
  {
    if n > 0 {
      FullByCount(have - {n - 1}, n - 1);
      if n - 1 in have {
        assert have == (have - {n - 1}) + {n - 1};
      } else {
        assert have - {n - 1} == have;
      }
    } else {
      assert have == {};
    }
  }

  // ---------------------------------------------------------------------------------------------
  // InMemoryFileSink
  // ---------------------------------------------------------------------------------------------

  /** The parts written so far, by offset. */
  type Parts = map<nat, seq<byte>>

  predicate Reaches(parts: Parts, o: nat, p: int) {
    o in parts && o <= p < o + |parts[o]|
  }

  /** `buf` is what laying out the parts at the offsets in `done` in ascending order leaves: where parts
   *  overlap, the one with the greatest offset wins, and where there is none the buffer stays 0. */
  ghost predicate LaidOut(parts: Parts, done: set<nat>, buf: seq<byte>)
    requires done <= parts.Keys
  {
    forall p :: 0 <= p < |buf| ==> LaidOutAt(parts, done, buf, p)
  }

  ghost predicate LaidOutAt(parts: Parts, done: set<nat>, buf: seq<byte>, p: int)
    requires done <= parts.Keys && 0 <= p < |buf|
  {
    && (forall o :: o in done && Reaches(parts, o, p) && (forall o' :: o' in done && Reaches(parts, o', p) ==> o' <= o)
          ==> buf[p] == parts[o][p - o])
    && ((forall o :: o in done ==> !Reaches(parts, o, p)) ==> buf[p] == 0)
  }

  /** `parts` is what the sink holds once the chunks in `have` have been written. */
  ghost predicate Holds(parts: Parts, source: seq<byte>, chunkSize: nat, have: set<nat>)
    requires chunkSize > 0
  {
    && (forall i :: i in have ==> i < ChunkCount(|source|, chunkSize))
    && (forall i :: i in have ==> i * chunkSize in parts && parts[i * chunkSize] == Slice(source, chunkSize, i))
    && (forall o :: o in parts ==> exists i :: i in have && o == i * chunkSize)
  }

  lemma SameOffset(i: int, j: int, chunkSize: nat)
    requires chunkSize > 0 && i * chunkSize == j * chunkSize
    ensures i == j
  {
    if i < j { MulMono(i + 1, j, chunkSize); } else if j < i { MulMono(j + 1, i, chunkSize); }
  }

  lemma HoldsMore(parts: Parts, source: seq<byte>, chunkSize: nat, have: set<nat>, i: nat)
    requires chunkSize > 0 && Holds(parts, source, chunkSize, have) && i < ChunkCount(|source|, chunkSize)
    ensures Holds(parts[i * chunkSize := Slice(source, chunkSize, i)], source, chunkSize, have + {i})
    ensures i * chunkSize in parts <==> i in have
  {
    var p := parts[i * chunkSize := Slice(source, chunkSize, i)];
    if i * chunkSize in parts {
      var j :| j in have && i * chunkSize == j * chunkSize;
      SameOffset(i, j, chunkSize);
    }
    forall o | o in p ensures exists j :: j in have + {i} && o == j * chunkSize {
      if o in parts {
        var j :| j in have && o == j * chunkSize;
        assert j in have + {i};
      } else {
        assert i in have + {i};
      }
    }
    SlicesOfMore(parts, source, chunkSize, have, i);
  }

  /** Writing one slice leaves the others. */
  lemma SlicesOfMore(parts: Parts, source: seq<byte>, chunkSize: nat, have: set<nat>, i: nat)
    requires chunkSize > 0 && Holds(parts, source, chunkSize, have) && i < ChunkCount(|source|, chunkSize)
    ensures var p := parts[i * chunkSize := Slice(source, chunkSize, i)];
            forall j :: j in have + {i} ==> j * chunkSize in p && p[j * chunkSize] == Slice(source, chunkSize, j)
  {
    var p := parts[i * chunkSize := Slice(source, chunkSize, i)];
    forall j | j in have + {i} ensures j * chunkSize in p && p[j * chunkSize] == Slice(source, chunkSize, j) {
      if j * chunkSize == i * chunkSize { SameOffset(i, j, chunkSize); }
    }
  }

  class InMemoryFileSink {
    var parts: Parts
    var total: nat

    constructor ()
      ensures parts == map[] && total == 0
    {
      parts, total := map[], 0;
    }

    /** Writing the same part twice counts its bytes once. */
    method WriteChunk(offset: nat, data: seq<byte>)
      modifies this
      ensures parts == old(parts)[offset := data]
      ensures total == old(total) + if offset in old(parts) then 0 else |data|
    {
      if offset !in parts { total := total + |data|; }
      parts := parts[offset := data];
    }

    /** The assembled bytes, or None where a part would overrun the buffer (a RangeError). */
    method Finalize() returns (out: Option<seq<byte>>)
      ensures out.Some? <==> forall o :: o in parts ==> o + |parts[o]| <= total
      ensures out.Some? ==> |out.value| == total && LaidOut(parts, parts.Keys, out.value)
    {
      var left: set<nat> := parts.Keys;
      var buf: seq<byte> := seq(total, _ => 0);
      while left != {}
        invariant left <= parts.Keys && |buf| == total
        invariant forall o, o' :: o in left && o' in parts.Keys - left ==> o' < o
        invariant forall o :: o in parts.Keys - left ==> o + |parts[o]| <= total
        invariant LaidOut(parts, parts.Keys - left, buf)
        decreases left
      {
        var o: nat := Least(left);
        if o + |parts[o]| > total { return None; }
        var next := buf[..o] + parts[o] + buf[o + |parts[o]|..];
        OnePart(parts, parts.Keys - left, o, buf, next);
        assert parts.Keys - (left - {o}) == (parts.Keys - left) + {o};
        buf := next;
        left := left - {o};
      }
      assert parts.Keys - left == parts.Keys;
      out := Some(buf);
    }
  }

  /** Laying out the part at `o`, after those at smaller offsets. */
  lemma OnePart(parts: Parts, done: set<nat>, o: nat, buf: seq<byte>, next: seq<byte>)
    requires done <= parts.Keys && o in parts && o + |parts[o]| <= |buf|
    requires next == buf[..o] + parts[o] + buf[o + |parts[o]|..]
    requires forall o' :: o' in done ==> o' < o
    requires LaidOut(parts, done, buf)
    ensures LaidOut(parts, done + {o}, next)
  {
    forall p | 0 <= p < |next| ensures LaidOutAt(parts, done + {o}, next, p) {
      assert LaidOutAt(parts, done, buf, p);
      if Reaches(parts, o, p) {
        assert next[p] == parts[o][p - o];
      } else {
        assert next[p] == buf[p];
      }
    }
  }

  /** Once every slice of a file has been written, the assembled bytes are the file. */
  lemma Reassembly(parts: Parts, source: seq<byte>, chunkSize: nat, have: set<nat>, out: seq<byte>)
    requires chunkSize > 0 && Holds(parts, source, chunkSize, have)
    requires forall i: nat :: i < ChunkCount(|source|, chunkSize) ==> i in have
    requires |out| == |source| && LaidOut(parts, parts.Keys, out)
    ensures out == source
  {
    forall p | 0 <= p < |out| ensures out[p] == source[p] {
      Tiling(|source|, chunkSize, p);
      var i := p / chunkSize;
      InRange(|source|, chunkSize, i);
      assert i in have;
      var o := i * chunkSize;
      assert Reaches(parts, o, p);
      forall o' | o' in parts && Reaches(parts, o', p) ensures o' == o {
        var j :| j in have && o' == j * chunkSize;
        InRange(|source|, chunkSize, j);
      }
      assert LaidOutAt(parts, parts.Keys, out, p);
    }
  }

  /** No part of a file can overrun a buffer of the file's size. */
  lemma PartsFit(parts: Parts, source: seq<byte>, chunkSize: nat, have: set<nat>)
    requires chunkSize > 0 && Holds(parts, source, chunkSize, have)
    ensures forall o :: o in parts ==> o + |parts[o]| <= |source|
  {
    forall o | o in parts ensures o + |parts[o]| <= |source| {
      var i :| i in have && o == i * chunkSize;
      InRange(|source|, chunkSize, i);
    }
  }

  /** The smallest offset: the parts are laid out in ascending order. */
  method Least(s: set<nat>) returns (m: nat)
    requires s != {}
    ensures m in s && forall x :: x in s ==> m <= x
  {
    m :| m in s;
    var rest := s - {m};
    while rest != {}
      invariant rest <= s && m in s
      invariant forall x :: x in s && x !in rest ==> m <= x
      decreases rest
    {
      var x :| x in rest;
      if x < m { m := x; }
      rest := rest - {x};
    }
  }
}
