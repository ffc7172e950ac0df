/** Python list operations the scrapers rely on: slicing with negative bounds,
    first-occurrence de-duplication, membership counting, and the subsequence order
    that dict projections and filters keep. */
module Lists {

  predicate Distinct<T(==)>(xs: seq<T>) {
    forall i, j :: 0 <= i < j < |xs| ==> xs[i] != xs[j]
  }

  /** Number of occurrences of `x` in `xs` (`xs.count(x)`). */
  function Count<T(==)>(xs: seq<T>, x: T): (n: nat)
    ensures n <= |xs|
    ensures n == 0 <==> x !in xs
  {
    if |xs| == 0 then 0 else Count(xs[..|xs| - 1], x) + (if xs[|xs| - 1] == x then 1 else 0)
  }

  /** The elements of `xs` in order of first occurrence, each once: what a loop
      `if x not in out: out.append(x)` builds. */
  function Dedup<T(==)>(xs: seq<T>): (r: seq<T>)
    ensures Distinct(r)
    ensures forall i :: 0 <= i < |r| ==> r[i] in xs
    ensures forall i :: 0 <= i < |xs| ==> xs[i] in r
    ensures |r| <= |xs|
  {
    if |xs| == 0 then []
    else
      var p := Dedup(xs[..|xs| - 1]);
      if xs[|xs| - 1] in p then p else p + [xs[|xs| - 1]]
  }

  /** Appending one element keeps it only when it is new. */
  lemma DedupSnoc<T>(xs: seq<T>, x: T)
    ensures Dedup(xs + [x]) == if x in Dedup(xs) then Dedup(xs) else Dedup(xs) + [x]
  {
    assert (xs + [x])[..|xs|] == xs;
  }

  /** `xs.index(x)` when `x` occurs, `|xs|` otherwise. */
  function FirstIndex<T(==)>(xs: seq<T>, x: T): (i: nat)
    ensures i <= |xs|
    ensures i < |xs| <==> x in xs
    ensures i < |xs| ==> xs[i] == x
    ensures forall j :: 0 <= j < i ==> xs[j] != x
  {
    if |xs| == 0 then 0
    else if xs[0] == x then 0
    else 1 + FirstIndex(xs[1..], x)
  }

  /** An element absent from the first `m` positions is first found at `m`. */
  lemma FirstIndexAt<T>(xs: seq<T>, m: nat, x: T)
    requires m < |xs| && xs[m] == x && x !in xs[..m]
    ensures FirstIndex(xs, x) == m
  {
    forall j | 0 <= j < m ensures xs[j] != x {
      assert xs[j] == xs[..m][j];
    }
  }

  /** `xs` can be obtained from `ys` by deleting elements. */
  predicate IsSubseq<T(==)>(xs: seq<T>, ys: seq<T>)
    decreases |ys|
  {
    |xs| == 0 ||
    (|ys| > 0 &&
      if xs[|xs| - 1] == ys[|ys| - 1] then IsSubseq(xs[..|xs| - 1], ys[..|ys| - 1])
      else IsSubseq(xs, ys[..|ys| - 1]))
  }

  lemma {:induction false} SubseqDropLast<T>(xs: seq<T>, ys: seq<T>)
    requires |xs| > 0 && IsSubseq(xs, ys)
    ensures IsSubseq(xs[..|xs| - 1], ys)
    decreases |ys|, 0
  {
    var xs' := xs[..|xs| - 1];
    if |xs'| > 0 {
      var ys' := ys[..|ys| - 1];
      if xs[|xs| - 1] == ys[|ys| - 1] {
        assert IsSubseq(xs', ys');
        SubseqExtend(xs', ys', ys[|ys| - 1]);
        assert ys' + [ys[|ys| - 1]] == ys;
      } else {
        SubseqDropLast(xs, ys');
        SubseqExtend(xs', ys', ys[|ys| - 1]);
        assert ys' + [ys[|ys| - 1]] == ys;
      }
    }
  }

  /** A subsequence stays one when the longer sequence grows at the end. */
  lemma {:induction false} SubseqExtend<T>(xs: seq<T>, ys: seq<T>, y: T)
    requires IsSubseq(xs, ys)
    ensures IsSubseq(xs, ys + [y])
    decreases |ys|, 1
  {
    var zs := ys + [y];
    assert zs[..|zs| - 1] == ys;
    if |xs| > 0 && xs[|xs| - 1] == y {
      SubseqDropLast(xs, ys);
    }
  }

  lemma SubseqAppendBoth<T>(xs: seq<T>, ys: seq<T>, y: T)
    requires IsSubseq(xs, ys)
    ensures IsSubseq(xs + [y], ys + [y])
  {
    assert (xs + [y])[..|xs|] == xs;
    assert (ys + [y])[..|ys|] == ys;
  }

  /** Every element kept by `Dedup` appears in the same relative order as in the input. */
  lemma {:induction false} DedupIsSubseq<T>(xs: seq<T>)
    ensures IsSubseq(Dedup(xs), xs)
  {
    if |xs| > 0 {
      var xs' := xs[..|xs| - 1];
      var y := xs[|xs| - 1];
      var p := Dedup(xs');
      DedupIsSubseq(xs');
      assert xs' + [y] == xs;
      if y in p {
        SubseqExtend(p, xs', y);
      } else {
        SubseqAppendBoth(p, xs', y);
      }
    }
  }

  lemma {:induction false} SubseqRefl<T>(xs: seq<T>)
    ensures IsSubseq(xs, xs)
  {
    if |xs| > 0 {
      SubseqRefl(xs[..|xs| - 1]);
    }
  }

  /** Deleting the element at position `i` leaves a subsequence. */
  lemma {:induction false} DeleteAtSubseq<T>(xs: seq<T>, i: nat)
    requires i < |xs|
    ensures IsSubseq(xs[..i] + xs[i + 1..], xs)
  {
    var r := xs[..i] + xs[i + 1..];
    var xs' := xs[..|xs| - 1];
    if i == |xs| - 1 {
      assert r == xs';
      SubseqRefl(xs');
      SubseqExtend(xs', xs', xs[|xs| - 1]);
      assert xs' + [xs[|xs| - 1]] == xs;
    } else {
      DeleteAtSubseq(xs', i);
      assert r[..|r| - 1] == xs'[..i] + xs'[i + 1..];
      assert r[|r| - 1] == xs[|xs| - 1];
    }
  }

  lemma {:induction false} SubseqMembers<T>(xs: seq<T>, ys: seq<T>)
    requires IsSubseq(xs, ys)
    ensures forall x :: x in xs ==> x in ys
    decreases |ys|
  {
    if |xs| > 0 {
      var ys' := ys[..|ys| - 1];
      if xs[|xs| - 1] == ys[|ys| - 1] {
        SubseqMembers(xs[..|xs| - 1], ys');
        assert xs == xs[..|xs| - 1] + [xs[|xs| - 1]];
        assert ys == ys' + [ys[|ys| - 1]];
      } else {
        SubseqMembers(xs, ys');
        assert ys == ys' + [ys[|ys| - 1]];
      }
    }
  }

  /** `[f(0), …, f(n - 1)]`, built as a loop appending one element at a time builds it. */
  function Tabulate<T>(f: nat -> T, n: nat): (r: seq<T>)
    ensures |r| == n
    ensures forall i :: 0 <= i < n ==> r[i] == f(i)
  {
    if n == 0 then [] else Tabulate(f, n - 1) + [f(n - 1)]
  }

  // ---------------------------------------------------------------- slicing

  /** Python's normalisation of a slice bound against a length `n`. */
  function SliceIndex(i: int, n: nat): (r: nat)
    ensures r <= n
    ensures 0 <= i <= n ==> r == i
    ensures -(n as int) <= i < 0 ==> r == (n as int) + i
  {
    if i < 0 then (if i + n < 0 then 0 else i + n) else if i > n then n else i
  }

  /** `xs[lo:hi]` */
  function Slice<T>(xs: seq<T>, lo: int, hi: int): (r: seq<T>)
    ensures |r| <= |xs|
  {
    var a := SliceIndex(lo, |xs|);
    var b := SliceIndex(hi, |xs|);
    if a < b then xs[a..b] else []
  }

  /** `xs[lo:]` */
  function SliceFrom<T>(xs: seq<T>, lo: int): (r: seq<T>)
    ensures r == Slice(xs, lo, |xs|)
  {
    xs[SliceIndex(lo, |xs|)..]
  }

  /** `xs[:-k]` for `k > 0` drops the last `k` elements, but `xs[:-0]` is `xs[:0]`,
      which is empty. */
  lemma DropLastSlice<T>(xs: seq<T>, k: nat)
    ensures 0 < k <= |xs| ==> Slice(xs, 0, -(k as int)) == xs[..|xs| - k]
    ensures k >= |xs| ==> Slice(xs, 0, -(k as int)) == []
    ensures Slice(xs, 0, -0) == []
  {
  }
}
