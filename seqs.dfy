/** Sequence operations shared by the producers and the dashboard: Python
    slicing, concatenation of batches, consecutive fixed-size chunks,
    first-seen de-duplication and sorting by a caller-given order. */
module Seqs {

  function Min(a: int, b: int): int {
    if a < b then a else b
  }

  /** Python's `s[:n]` for n >= 0. */
  function Take<T>(s: seq<T>, n: nat): (r: seq<T>)
    ensures |r| == Min(n, |s|) && r == s[..|r|]
  {
    s[..Min(n, |s|)]
  }

  /** Concatenation of a sequence of sequences, in order. */
  function Flatten<T>(ss: seq<seq<T>>): seq<T>
    decreases |ss|
  {
    if ss == [] then [] else Flatten(ss[..|ss| - 1]) + ss[|ss| - 1]
  }

  lemma {:induction false} FlattenAppend<T>(a: seq<seq<T>>, b: seq<seq<T>>)
    ensures Flatten(a + b) == Flatten(a) + Flatten(b)
    decreases |b|
  {
    if b != [] {
      var b' := b[..|b| - 1];
      assert (a + b)[..|a + b| - 1] == a + b';
      assert (a + b)[|a + b| - 1] == b[|b| - 1];
      assert Flatten(a + b) == Flatten(a + b') + b[|b| - 1];
      FlattenAppend(a, b');
      assert Flatten(b) == Flatten(b') + b[|b| - 1];
    } else {
      assert a + b == a;
    }
  }

  /** Each block of a concatenation sits right after the blocks before it. */
  lemma FlattenBlock<T>(ss: seq<seq<T>>, i: nat)
    requires i < |ss|
    ensures |Flatten(ss[..i])| + |ss[i]| <= |Flatten(ss)|
    ensures Flatten(ss)[|Flatten(ss[..i])|..|Flatten(ss[..i])| + |ss[i]|] == ss[i]
  {
    assert ss == ss[..i] + [ss[i]] + ss[i + 1..];
    FlattenAppend(ss[..i] + [ss[i]], ss[i + 1..]);
    FlattenAppend(ss[..i], [ss[i]]);
    assert Flatten([ss[i]]) == ss[i] by {
      assert [ss[i]][..0] == [];
    }
  }

  /** The consecutive slices `s[i:i + n]` for i = 0, n, 2n, ... */
  function Chunks<T>(s: seq<T>, n: nat): seq<seq<T>>
    requires n > 0
    decreases |s|
  {
    if s == [] then [] else
      var k := Min(n, |s|);
      [s[..k]] + Chunks(s[k..], n)
  }

  /** Concatenating the chunks gives the sequence back. */
  lemma {:induction false} ChunksFlatten<T>(s: seq<T>, n: nat)
    requires n > 0
    ensures Flatten(Chunks(s, n)) == s
    decreases |s|
  {
    if s != [] {
      var k := Min(n, |s|);
      ChunksFlatten(s[k..], n);
      FlattenAppend([s[..k]], Chunks(s[k..], n));
      assert Flatten([s[..k]]) == s[..k] by {
        assert [s[..k]][..0] == [];
      }
      assert s == s[..k] + s[k..];
    }
  }

  /** Every chunk is non-empty and at most n long; all but the last are exactly n long. */
  lemma {:induction false} ChunksShape<T>(s: seq<T>, n: nat)
    requires n > 0
    ensures forall i :: 0 <= i < |Chunks(s, n)| ==> 0 < |Chunks(s, n)[i]| <= n
    ensures forall i :: 0 <= i < |Chunks(s, n)| - 1 ==> |Chunks(s, n)[i]| == n
    decreases |s|
  {
    if s != [] {
      var k := Min(n, |s|);
      ChunksShape(s[k..], n);
      var c := Chunks(s, n);
      assert c == [s[..k]] + Chunks(s[k..], n);
      assert forall i :: 1 <= i < |c| ==> c[i] == Chunks(s[k..], n)[i - 1];
      assert |c| > 1 ==> k == n;
    }
  }

  lemma MulAtLeast(k: int, n: int)
    requires k >= 1 && n > 0
    ensures k * n >= n
  {
    assert k * n == (k - 1) * n + n;
  }

  /** The quotient is determined by any representation with a remainder below n. */
  lemma DivUnique(x: int, n: int, a: int, b: int)
    requires n > 0 && x == a * n + b && 0 <= b < n
    ensures x / n == a
  {
    var q, r := x / n, x % n;
    assert (q - a) * n == b - r;
    if q > a {
      MulAtLeast(q - a, n);
    } else if q < a {
      MulAtLeast(a - q, n);
    }
  }

  lemma DivStep(m: nat, n: nat)
    requires n > 0
    ensures (m + n) / n == m / n + 1
  {
    var q, r := m / n, m % n;
    assert m + n == (q + 1) * n + r;
    DivUnique(m + n, n, q + 1, r);
  }

  /** There are ceil(|s| / n) chunks. */
  lemma {:induction false} ChunksCount<T>(s: seq<T>, n: nat)
    requires n > 0
    ensures |Chunks(s, n)| == (|s| + n - 1) / n
    decreases |s|
  {
    if s == [] {
      assert (n - 1) / n == 0;
    } else if |s| <= n {
      assert (|s| + n - 1) / n == 1;
    } else {
      ChunksCount(s[n..], n);
      DivStep(|s| - n + n - 1, n);
    }
  }

  /** The chunks of s are its first chunk followed by the chunks of the rest. */
  lemma ChunksUnfold<T>(s: seq<T>, n: nat)
    requires n > 0 && s != []
    ensures Chunks(s, n) == [s[..Min(n, |s|)]] + Chunks(s[Min(n, |s|)..], n)
  {
  }

  /** Every index is below n. */
  predicate IndicesBelow(idx: seq<nat>, n: nat) {
    forall j :: 0 <= j < |idx| ==> idx[j] < n
  }

  /** `[0, 1, ..., n - 1]`. */
  function Range(n: nat): (r: seq<nat>)
    ensures |r| == n && IndicesBelow(r, n)
    ensures forall i :: 0 <= i < n ==> r[i] == i
  {
    seq(n, i requires 0 <= i < n => i)
  }

  /** The blocks at the given indices, concatenated in index order. */
  function Gather<T>(blocks: seq<seq<T>>, idx: seq<nat>): seq<T>
    requires IndicesBelow(idx, |blocks|)
    decreases |idx|
  {
    if idx == [] then [] else Gather(blocks, idx[..|idx| - 1]) + blocks[idx[|idx| - 1]]
  }

  lemma {:induction false} GatherAppend<T>(blocks: seq<seq<T>>, a: seq<nat>, b: seq<nat>)
    requires IndicesBelow(a, |blocks|) && IndicesBelow(b, |blocks|)
    ensures IndicesBelow(a + b, |blocks|)
    ensures Gather(blocks, a + b) == Gather(blocks, a) + Gather(blocks, b)
    decreases |b|
  {
    if b == [] {
      assert a + b == a;
    } else {
      var n := |b| - 1;
      assert (a + b)[..|a + b| - 1] == a + b[..n];
      GatherAppend(blocks, a, b[..n]);
    }
  }

  /** Taking one index out of the middle takes its block out of the gathered elements. */
  lemma {:induction false} GatherRemove<T>(blocks: seq<seq<T>>, b: seq<nat>, p: nat)
    requires IndicesBelow(b, |blocks|) && p < |b|
    ensures IndicesBelow(b[..p] + b[p + 1..], |blocks|)
    ensures multiset(Gather(blocks, b))
      == multiset(Gather(blocks, b[..p] + b[p + 1..])) + multiset(blocks[b[p]])
  {
    var x := b[p];
    var front, back := b[..p], b[p + 1..];
    assert b == front + [x] + back;
    assert Gather(blocks, [x]) == blocks[x] by {
      assert [x][..0] == [];
    }
    GatherAppend(blocks, front, [x]);
    var g1 := Gather(blocks, front + [x]);
    assert g1 == Gather(blocks, front) + blocks[x];
    GatherAppend(blocks, front + [x], back);
    var g2 := Gather(blocks, b);
    assert g2 == g1 + Gather(blocks, back);
    GatherAppend(blocks, front, back);
    var g3 := Gather(blocks, front + back);
    assert g3 == Gather(blocks, front) + Gather(blocks, back);
    assert multiset(g2) == multiset(Gather(blocks, front)) + multiset(blocks[x]) + multiset(Gather(blocks, back));
  }

  /** Gathering the blocks in any order gives the same elements with the same
      multiplicities. */
  lemma {:induction false} GatherPermutation<T>(blocks: seq<seq<T>>, a: seq<nat>, b: seq<nat>)
    requires IndicesBelow(a, |blocks|) && IndicesBelow(b, |blocks|)
    requires multiset(a) == multiset(b)
    ensures multiset(Gather(blocks, a)) == multiset(Gather(blocks, b))
    decreases |a|
  {
    if a == [] {
      assert |b| == |multiset(b)| == 0;
    } else {
      var n := |a| - 1;
      var x := a[n];
      assert a == a[..n] + [x];
      assert x in multiset(b);
      var p :| 0 <= p < |b| && b[p] == x;
      var rest := b[..p] + b[p + 1..];
      assert b == b[..p] + [x] + b[p + 1..];
      calc {
        multiset(rest);
        multiset(b[..p]) + multiset(b[p + 1..]);
        multiset(b) - multiset{x};
        multiset(a) - multiset{x};
        multiset(a[..n]);
      }
      GatherRemove(blocks, b, p);
      GatherPermutation(blocks, a[..n], rest);
    }
  }

  /** Gathering every block in order is concatenating them. */
  lemma {:induction false} GatherRange<T>(blocks: seq<seq<T>>, n: nat)
    requires n <= |blocks|
    ensures Gather(blocks, Range(n)) == Flatten(blocks[..n])
    decreases n
  {
    if n > 0 {
      GatherRange(blocks, n - 1);
      assert Range(n)[..n - 1] == Range(n - 1);
      assert blocks[..n][..n - 1] == blocks[..n - 1];
    }
  }

  predicate Distinct<T(==)>(s: seq<T>) {
    forall i, j :: 0 <= i < j < |s| ==> s[i] != s[j]
  }

  /** Appending an element not yet present keeps a sequence distinct. */
  lemma DistinctAppend<T>(s: seq<T>, x: T)
    requires Distinct(s) && x !in s
    ensures Distinct(s + [x])
  {
  }

  /** A sequence without repetitions has as many distinct elements as entries. */
  lemma {:induction false} DistinctCardinality<T>(s: seq<T>)
    requires Distinct(s)
    ensures |(set x | x in s)| == |s|
    decreases |s|
  {
    if s != [] {
      var n := |s| - 1;
      var front := s[..n];
      DistinctCardinality(front);
      assert (set x | x in s) == (set x | x in front) + {s[n]} by {
        assert s == front + [s[n]];
      }
      assert s[n] !in (set x | x in front);
    }
  }

  lemma {:induction false} DistinctCount<T>(s: seq<T>, x: T)
    requires Distinct(s)
    ensures multiset(s)[x] <= 1
    decreases |s|
  {
    if s != [] {
      var n := |s| - 1;
      assert s == s[..n] + [s[n]];
      DistinctCount(s[..n], x);
      if x == s[n] {
        assert x !in s[..n];
      }
    }
  }

  lemma RepeatedCount<T>(s: seq<T>, i: nat, j: nat)
    requires i < j < |s| && s[i] == s[j]
    ensures multiset(s)[s[i]] >= 2
  {
    assert s == s[..j] + [s[j]] + s[j + 1..];
    assert s[..j][i] == s[i];
    assert s[i] in multiset(s[..j]);
  }

  /** A permutation of a sequence without repetitions has none either. */
  lemma DistinctPermutation<T>(a: seq<T>, b: seq<T>)
    requires Distinct(a) && multiset(a) == multiset(b)
    ensures Distinct(b)
  {
    forall i, j | 0 <= i < j < |b|
      ensures b[i] != b[j]
    {
      if b[i] == b[j] {
        RepeatedCount(b, i, j);
        DistinctCount(a, b[i]);
      }
    }
  }

  /** The chunks of `s[i:]` are `s[i:i + n]` followed by the chunks after it. */
  lemma ChunksFrom<T>(s: seq<T>, i: nat, n: nat)
    requires n > 0 && i < |s|
    ensures Chunks(s[i..], n) == [s[i..Min(i + n, |s|)]] + Chunks(s[Min(i + n, |s|)..], n)
  {
    var t := s[i..];
    ChunksUnfold(t, n);
    assert t[..Min(n, |t|)] == s[i..Min(i + n, |s|)];
    assert t[Min(n, |t|)..] == s[Min(i + n, |s|)..];
  }

  /** The distinct elements of s in order of first occurrence. */
  function Dedup<T(==, !new)>(s: seq<T>): (r: seq<T>)
    ensures forall x :: x in r <==> x in s
    ensures Distinct(r)
    ensures |r| <= |s|
    decreases |s|
  {
    if s == [] then [] else
      var d := Dedup(s[..|s| - 1]);
      if s[|s| - 1] in d then d else d + [s[|s| - 1]]
  }

  /** le is total and transitive. */
  ghost predicate TotalPreorder<T(!new)>(le: (T, T) -> bool) {
    && (forall a, b :: le(a, b) || le(b, a))
    && (forall a, b, c :: le(a, b) && le(b, c) ==> le(a, c))
  }

  predicate SortedBy<T>(s: seq<T>, le: (T, T) -> bool) {
    forall i, j :: 0 <= i < j < |s| ==> le(s[i], s[j])
  }

  /** Insert x before the first element it is le-below. */
  function Insert<T>(x: T, s: seq<T>, le: (T, T) -> bool): (r: seq<T>)
    ensures multiset(r) == multiset(s) + multiset{x}
    decreases |s|
  {
    if s == [] then [x]
    else if le(x, s[0]) then [x] + s
    else
      assert s == [s[0]] + s[1..];
      [s[0]] + Insert(x, s[1..], le)
  }

  /** What lies above a bound b, together with x above b, lies above b after
      the insertion. */
  lemma InsertBelow<T>(x: T, s: seq<T>, le: (T, T) -> bool, b: T)
    requires le(b, x) && forall k :: 0 <= k < |s| ==> le(b, s[k])
    ensures forall j :: 0 <= j < |Insert(x, s, le)| ==> le(b, Insert(x, s, le)[j])
  {
    var r := Insert(x, s, le);
    forall j | 0 <= j < |r| ensures le(b, r[j]) {
      assert r[j] in multiset(r);
      if r[j] != x {
        assert r[j] in multiset(s);
        var k :| 0 <= k < |s| && s[k] == r[j];
      }
    }
  }

  lemma {:induction false} InsertSorted<T(!new)>(x: T, s: seq<T>, le: (T, T) -> bool)
    requires TotalPreorder(le) && SortedBy(s, le)
    ensures SortedBy(Insert(x, s, le), le)
    decreases |s|
  {
    if s != [] && !le(x, s[0]) {
      var tail := Insert(x, s[1..], le);
      InsertSorted(x, s[1..], le);
      assert le(s[0], x);
      forall k | 0 <= k < |s[1..]| ensures le(s[0], s[1..][k]) {
        assert s[1..][k] == s[k + 1];
      }
      InsertBelow(x, s[1..], le, s[0]);
      var r := Insert(x, s, le);
      assert r == [s[0]] + tail;
      forall i, j | 0 <= i < j < |r| ensures le(r[i], r[j]) {
        if i == 0 {
          assert r[j] == tail[j - 1];
        } else {
          assert r[i] == tail[i - 1] && r[j] == tail[j - 1];
        }
      }
    }
  }

  /** Insertion sort by le: a permutation of s. */
  function SortBy<T>(s: seq<T>, le: (T, T) -> bool): (r: seq<T>)
    ensures multiset(r) == multiset(s) && |r| == |s|
    decreases |s|
  {
    if s == [] then []
    else
      var r := Insert(s[|s| - 1], SortBy(s[..|s| - 1], le), le);
      assert s == s[..|s| - 1] + [s[|s| - 1]];
      assert |r| == |multiset(r)|;
      r
  }

  /** Under a total preorder the sort is sorted. */
  lemma {:induction false} SortBySorted<T(!new)>(s: seq<T>, le: (T, T) -> bool)
    requires TotalPreorder(le)
    ensures SortedBy(SortBy(s, le), le)
    decreases |s|
  {
    if s != [] {
      SortBySorted(s[..|s| - 1], le);
      InsertSorted(s[|s| - 1], SortBy(s[..|s| - 1], le), le);
    }
  }
}
