/** Sums, run-length repetition and block sums shared by the calendar scanner,
    the aggregation engine and the diagnostics. */
module Sums {

  /** Sum of an integer sequence, peeled from the back so that a loop that adds
      one more element matches one unfolding. */
  function Sum(s: seq<int>): int
  {
    if |s| == 0 then 0 else Sum(s[..|s| - 1]) + s[|s| - 1]
  }

  lemma {:induction false} SumConcat(a: seq<int>, b: seq<int>)
    ensures Sum(a + b) == Sum(a) + Sum(b)
    decreases |b|
  {
    if |b| == 0 {
      assert a + b == a;
    } else {
      assert (a + b)[..|a + b| - 1] == a + b[..|b| - 1];
      SumConcat(a, b[..|b| - 1]);
    }
  }

  lemma SumSnoc(s: seq<int>, i: nat)
    requires i < |s|
    ensures Sum(s[..i + 1]) == Sum(s[..i]) + s[i]
  {
    assert s[..i + 1][..i] == s[..i];
  }

  /** Replacing the last element changes the sum by the difference. */
  lemma SumUpdateLast(s: seq<int>, x: int)
    requires |s| > 0
    ensures Sum(s[|s| - 1 := x]) == Sum(s) - s[|s| - 1] + x
  {
    assert s[|s| - 1 := x][..|s| - 1] == s[..|s| - 1];
  }

  /** Sum of a real sequence (the C code's doubles, taken as exact reals). */
  function SumR(s: seq<real>): real
  {
    if |s| == 0 then 0.0 else SumR(s[..|s| - 1]) + s[|s| - 1]
  }

  lemma {:induction false} SumRConcat(a: seq<real>, b: seq<real>)
    ensures SumR(a + b) == SumR(a) + SumR(b)
    decreases |b|
  {
    if |b| == 0 {
      assert a + b == a;
    } else {
      assert (a + b)[..|a + b| - 1] == a + b[..|b| - 1];
      SumRConcat(a, b[..|b| - 1]);
    }
  }

  /** n copies of v; a non-positive n gives no copies, as a C loop
      `while (count > 0)` does. */
  function Rep(v: int, n: int): (r: seq<int>)
    ensures |r| == if n <= 0 then 0 else n
    decreases n
  {
    if n <= 0 then [] else [v] + Rep(v, n - 1)
  }

  lemma {:induction false} RepAt(v: int, n: int, i: nat)
    requires i < |Rep(v, n)|
    ensures Rep(v, n)[i] == v
    decreases n
  {
    if i > 0 {
      RepAt(v, n - 1, i - 1);
    }
  }

  /** A C loop `for (j = 0; j < n; j++)` runs max(n, 0) times. */
  function Clamp(n: int): nat
  {
    if n < 0 then 0 else n
  }

  /** Number of rows covered by consecutive blocks of the given sizes. */
  function ClampTotal(steps: seq<int>): nat
  {
    if |steps| == 0 then 0 else ClampTotal(steps[..|steps| - 1]) + Clamp(steps[|steps| - 1])
  }

  lemma ClampTotalSnoc(steps: seq<int>, i: nat)
    requires i < |steps|
    ensures ClampTotal(steps[..i + 1]) == ClampTotal(steps[..i]) + Clamp(steps[i])
  {
    assert steps[..i + 1][..i] == steps[..i];
  }

  lemma {:induction false} ClampTotalPrefix(steps: seq<int>, i: nat)
    requires i <= |steps|
    ensures ClampTotal(steps[..i]) <= ClampTotal(steps)
    decreases |steps| - i
  {
    if i < |steps| {
      ClampTotalSnoc(steps, i);
      ClampTotalPrefix(steps, i + 1);
      assert steps[..|steps|] == steps;
    } else {
      assert steps[..i] == steps;
    }
  }

  lemma {:induction false} ClampTotalConcat(a: seq<int>, b: seq<int>)
    ensures ClampTotal(a + b) == ClampTotal(a) + ClampTotal(b)
    decreases |b|
  {
    if |b| == 0 {
      assert a + b == a;
    } else {
      assert (a + b)[..|a + b| - 1] == a + b[..|b| - 1];
      ClampTotalConcat(a, b[..|b| - 1]);
    }
  }

  /** The rows covered by the first i blocks never exceed those of the first k. */
  lemma ClampTotalMono(steps: seq<int>, i: nat, k: nat)
    requires i <= k <= |steps|
    ensures ClampTotal(steps[..i]) <= ClampTotal(steps[..k])
  {
    ClampTotalPrefix(steps[..k], i);
    assert steps[..k][..i] == steps[..i];
  }

  /** The blocks cover the rows: every row d below the total lies in some
      block i, the block with C(i) <= d < C(i + 1), where C(i) counts the rows
      of the first i blocks. */
  lemma {:induction false} BlockCover(steps: seq<int>, d: nat, i: nat)
    requires i <= |steps| && ClampTotal(steps[..i]) <= d < ClampTotal(steps)
    ensures exists k :: i <= k < |steps| && ClampTotal(steps[..k]) <= d < ClampTotal(steps[..k + 1])
    decreases |steps| - i
  {
    assert steps[..|steps|] == steps;
    if ClampTotal(steps[..i + 1]) <= d {
      BlockCover(steps, d, i + 1);
    }
  }

  /** ... and in only one: the blocks do not overlap. */
  lemma BlockUnique(steps: seq<int>, d: nat, i: nat, k: nat)
    requires i < |steps| && ClampTotal(steps[..i]) <= d < ClampTotal(steps[..i + 1])
    requires k < |steps| && ClampTotal(steps[..k]) <= d < ClampTotal(steps[..k + 1])
    ensures i == k
  {
    if i < k {
      ClampTotalMono(steps, i + 1, k);
    } else if k < i {
      ClampTotalMono(steps, k + 1, i);
    }
  }

  /** With no negative block, the clamped total is the plain sum. */
  lemma {:induction false} ClampTotalNonNeg(steps: seq<int>)
    requires forall i :: 0 <= i < |steps| ==> steps[i] >= 0
    ensures ClampTotal(steps) == Sum(steps)
    decreases |steps|
  {
    if |steps| > 0 {
      ClampTotalNonNeg(steps[..|steps| - 1]);
    }
  }

  /** col[lo] + ... + col[hi - 1]; empty when hi <= lo. */
  function RangeSum(col: seq<real>, lo: int, hi: int): real
    requires hi <= lo || (0 <= lo && hi <= |col|)
    decreases hi - lo
  {
    if hi <= lo then 0.0 else RangeSum(col, lo, hi - 1) + col[hi - 1]
  }

  /** The range sum over all of col is its sum. */
  lemma {:induction false} RangeSumAll(col: seq<real>, hi: nat)
    requires hi <= |col|
    ensures RangeSum(col, 0, hi) == SumR(col[..hi])
    decreases hi
  {
    if hi > 0 {
      RangeSumAll(col, hi - 1);
      assert col[..hi][..hi - 1] == col[..hi - 1];
    }
  }

  lemma {:induction false} RangeSumSplit(col: seq<real>, lo: int, mid: int, hi: int)
    requires 0 <= lo <= mid <= hi <= |col|
    ensures RangeSum(col, lo, hi) == RangeSum(col, lo, mid) + RangeSum(col, mid, hi)
    decreases hi - mid
  {
    if mid < hi {
      RangeSumSplit(col, lo, mid, hi - 1);
    }
  }

  /** Two columns that agree on [lo, hi) have the same range sum there. */
  lemma {:induction false} RangeSumAgree(a: seq<real>, b: seq<real>, lo: int, hi: int)
    requires 0 <= lo && hi <= |a| && hi <= |b|
    requires forall r :: lo <= r < hi ==> a[r] == b[r]
    ensures RangeSum(a, lo, hi) == RangeSum(b, lo, hi)
    decreases hi - lo
  {
    if lo < hi {
      RangeSumAgree(a, b, lo, hi - 1);
    }
  }

  /** The reference aggregation: entry i is the sum of the Clamp(steps[i])
      rows that follow the rows of the earlier blocks, starting at row lo. */
  function BlockSums(col: seq<real>, steps: seq<int>, lo: int): (r: seq<real>)
    requires ClampTotal(steps) == 0 || (0 <= lo && lo + ClampTotal(steps) <= |col|)
    ensures |r| == |steps|
  {
    if |steps| == 0 then []
    else
      var init := steps[..|steps| - 1];
      BlockSums(col, init, lo) + [RangeSum(col, lo + ClampTotal(init), lo + ClampTotal(steps))]
  }

  /** Blocks that cover no row aggregate to zeros, wherever they start. */
  lemma {:induction false} BlockSumsNone(col: seq<real>, steps: seq<int>, lo: int, i: nat)
    requires ClampTotal(steps) == 0 && i < |steps|
    ensures BlockSums(col, steps, lo)[i] == 0.0
    decreases |steps|
  {
    var init := steps[..|steps| - 1];
    if i < |steps| - 1 {
      BlockSumsNone(col, init, lo, i);
    }
  }

  /** Entry i of the aggregation sums exactly rows [lo + C(i), lo + C(i + 1)),
      where C(i) counts the rows of the first i blocks: no gap, no overlap. */
  lemma {:induction false} BlockSumsAt(col: seq<real>, steps: seq<int>, lo: int, i: nat)
    requires 0 <= lo && lo + ClampTotal(steps) <= |col|
    requires i < |steps|
    ensures lo + ClampTotal(steps[..i + 1]) <= |col|
    ensures BlockSums(col, steps, lo)[i]
         == RangeSum(col, lo + ClampTotal(steps[..i]), lo + ClampTotal(steps[..i + 1]))
    decreases |steps|
  {
    ClampTotalPrefix(steps, i + 1);
    var init := steps[..|steps| - 1];
    if i == |steps| - 1 {
      assert steps[..i] == init;
      assert steps[..i + 1] == steps;
    } else {
      ClampTotalPrefix(steps, |steps| - 1);
      assert init[..i] == steps[..i];
      assert init[..i + 1] == steps[..i + 1];
      BlockSumsAt(col, init, lo, i);
    }
  }

  /** Aggregation conserves the total: the block sums add up to the sum of the
      rows they cover. */
  lemma {:induction false} BlockSumsTotal(col: seq<real>, steps: seq<int>, lo: int)
    requires 0 <= lo && lo + ClampTotal(steps) <= |col|
    ensures SumR(BlockSums(col, steps, lo)) == RangeSum(col, lo, lo + ClampTotal(steps))
    decreases |steps|
  {
    if |steps| > 0 {
      var init := steps[..|steps| - 1];
      BlockSumsTotal(col, init, lo);
      var last := [RangeSum(col, lo + ClampTotal(init), lo + ClampTotal(steps))];
      SumRConcat(BlockSums(col, init, lo), last);
      assert SumR(last) == last[0] by {
        assert last[..0] == [];
      }
      RangeSumSplit(col, lo, lo + ClampTotal(init), lo + ClampTotal(steps));
    }
  }

  /** Aggregation only looks at the rows it covers. */
  lemma {:induction false} BlockSumsAgree(a: seq<real>, b: seq<real>, steps: seq<int>, lo: int)
    requires 0 <= lo && lo + ClampTotal(steps) <= |a| && lo + ClampTotal(steps) <= |b|
    requires forall r :: lo <= r < lo + ClampTotal(steps) ==> a[r] == b[r]
    ensures BlockSums(a, steps, lo) == BlockSums(b, steps, lo)
    decreases |steps|
  {
    if |steps| > 0 {
      var init := steps[..|steps| - 1];
      BlockSumsAgree(a, b, init, lo);
      RangeSumAgree(a, b, lo + ClampTotal(init), lo + ClampTotal(steps));
    }
  }

  /** The range sum of an aggregation over the blocks [a, b) is the range sum
      of the rows those blocks cover. */
  lemma {:induction false} BlockSumsRange(col: seq<real>, steps: seq<int>, lo: int, a: nat, b: nat)
    requires 0 <= lo && lo + ClampTotal(steps) <= |col|
    requires a <= b <= |steps|
    ensures lo + ClampTotal(steps[..b]) <= |col|
    ensures RangeSum(BlockSums(col, steps, lo), a, b)
         == RangeSum(col, lo + ClampTotal(steps[..a]), lo + ClampTotal(steps[..b]))
    decreases b - a
  {
    ClampTotalPrefix(steps, b);
    ClampTotalMono(steps, a, b);
    if a < b {
      BlockSumsRange(col, steps, lo, a, b - 1);
      BlockSumsAt(col, steps, lo, b - 1);
      ClampTotalMono(steps, a, b - 1);
      ClampTotalMono(steps, b - 1, b);
      RangeSumSplit(col, lo + ClampTotal(steps[..a]), lo + ClampTotal(steps[..b - 1]),
                    lo + ClampTotal(steps[..b]));
    }
  }

  /** The block sizes of aggregating twice in one step: block j of outer
      takes Clamp(outer[j]) consecutive blocks of inner, and its size is the
      number of rows those inner blocks cover. */
  function Merge(inner: seq<int>, outer: seq<int>): (r: seq<int>)
    requires ClampTotal(outer) <= |inner|
    ensures |r| == |outer|
  {
    if |outer| == 0 then []
    else
      var init := outer[..|outer| - 1];
      ClampTotalPrefix(outer, |outer| - 1);
      Merge(inner, init) + [ClampTotal(inner[ClampTotal(init)..ClampTotal(outer)])]
  }

  /** The merged blocks cover the rows that the inner blocks taken by outer
      cover. */
  lemma {:induction false} MergeTotal(inner: seq<int>, outer: seq<int>)
    requires ClampTotal(outer) <= |inner|
    ensures ClampTotal(Merge(inner, outer)) == ClampTotal(inner[..ClampTotal(outer)])
    decreases |outer|
  {
    if |outer| > 0 {
      var init := outer[..|outer| - 1];
      ClampTotalPrefix(outer, |outer| - 1);
      var a, b := ClampTotal(init), ClampTotal(outer);
      MergeTotal(inner, init);
      var x := ClampTotal(inner[a..b]);
      ClampTotalConcat(Merge(inner, init), [x]);
      assert [x][..0] == [];
      assert inner[..b] == inner[..a] + inner[a..b];
      ClampTotalConcat(inner[..a], inner[a..b]);
    }
  }

  /** The first j merged sizes are the merged sizes of the first j outer
      blocks. */
  lemma {:induction false} MergePrefix(inner: seq<int>, outer: seq<int>, j: nat)
    requires ClampTotal(outer) <= |inner| && j <= |outer|
    ensures ClampTotal(outer[..j]) <= |inner|
    ensures Merge(inner, outer)[..j] == Merge(inner, outer[..j])
    decreases |outer|
  {
    ClampTotalPrefix(outer, j);
    if j < |outer| {
      var init := outer[..|outer| - 1];
      ClampTotalPrefix(outer, |outer| - 1);
      MergePrefix(inner, init, j);
      assert init[..j] == outer[..j];
      assert Merge(inner, outer)[..j] == Merge(inner, init)[..j];
    } else {
      assert outer[..j] == outer;
    }
  }

  /** Aggregating an aggregation: grouping the blocks of inner by the sizes
      of outer gives the aggregation by the merged sizes. */
  lemma BlockSumsCompose(col: seq<real>, inner: seq<int>, outer: seq<int>, lo: int)
    requires 0 <= lo && lo + ClampTotal(inner) <= |col|
    requires ClampTotal(outer) <= |inner|
    ensures lo + ClampTotal(Merge(inner, outer)) <= |col|
    ensures BlockSums(BlockSums(col, inner, lo), outer, 0) == BlockSums(col, Merge(inner, outer), lo)
  {
    MergeTotal(inner, outer);
    ClampTotalPrefix(inner, ClampTotal(outer));
    var m := Merge(inner, outer);
    forall j | 0 <= j < |outer|
      ensures BlockSums(BlockSums(col, inner, lo), outer, 0)[j] == BlockSums(col, m, lo)[j]
    {
      MergeBounds(inner, outer, j);
      MergeStep(col, inner, outer, m, lo, j);
    }
  }

  /** Block j of both sides of BlockSumsCompose sums the same input rows;
      m stands for the merged sizes, of which only the rows before block j
      and up to its end matter. */
  lemma MergeStep(col: seq<real>, inner: seq<int>, outer: seq<int>, m: seq<int>, lo: int, j: nat)
    requires 0 <= lo && lo + ClampTotal(inner) <= |col|
    requires ClampTotal(outer) <= |inner| && j < |outer| == |m| && lo + ClampTotal(m) <= |col|
    requires ClampTotal(outer[..j]) <= ClampTotal(outer[..j + 1]) <= |inner|
    requires ClampTotal(m[..j]) == ClampTotal(inner[..ClampTotal(outer[..j])])
    requires ClampTotal(m[..j + 1]) == ClampTotal(inner[..ClampTotal(outer[..j + 1])])
    ensures BlockSums(BlockSums(col, inner, lo), outer, 0)[j] == BlockSums(col, m, lo)[j]
  {
    var a, b := ClampTotal(outer[..j]), ClampTotal(outer[..j + 1]);
    BlockSumsRange(col, inner, lo, a, b);
    SameRows(col, inner, m, lo, a, b, j);
    BlockPair(BlockSums(col, inner, lo), col, outer, m, lo, j, a, b);
  }

  /** Rows bounded by equal totals sum equally. */
  lemma SameRows(col: seq<real>, inner: seq<int>, m: seq<int>, lo: int, a: nat, b: nat, j: nat)
    requires 0 <= lo && j < |m| && a <= b <= |inner|
    requires ClampTotal(m[..j]) == ClampTotal(inner[..a])
    requires ClampTotal(m[..j + 1]) == ClampTotal(inner[..b])
    requires lo + ClampTotal(m[..j + 1]) <= |col|
    ensures RangeSum(col, lo + ClampTotal(m[..j]), lo + ClampTotal(m[..j + 1]))
         == RangeSum(col, lo + ClampTotal(inner[..a]), lo + ClampTotal(inner[..b]))
  {
  }

  /** Block j of x over outer and block j of col over m agree when the rows
      they sum agree. */
  lemma BlockPair(x: seq<real>, col: seq<real>, outer: seq<int>, m: seq<int>, lo: int, j: nat, a: nat, b: nat)
    requires 0 <= lo && ClampTotal(outer) <= |x| && j < |outer| == |m|
    requires lo + ClampTotal(m) <= |col| && lo + ClampTotal(m[..j + 1]) <= |col|
    requires a == ClampTotal(outer[..j]) && b == ClampTotal(outer[..j + 1]) && a <= b <= |x|
    requires RangeSum(x, a, b) == RangeSum(col, lo + ClampTotal(m[..j]), lo + ClampTotal(m[..j + 1]))
    ensures BlockSums(x, outer, 0)[j] == BlockSums(col, m, lo)[j]
  {
    BlockSumsAt(x, outer, 0, j);
    BlockSumsAt(col, m, lo, j);
  }

  /** The rows before merged block j, and up to its end, are those before
      the inner blocks that outer block j starts and ends at. */
  lemma MergeBounds(inner: seq<int>, outer: seq<int>, j: nat)
    requires ClampTotal(outer) <= |inner| && j < |outer|
    ensures ClampTotal(outer[..j]) <= ClampTotal(outer[..j + 1]) <= |inner|
    ensures ClampTotal(Merge(inner, outer)[..j]) == ClampTotal(inner[..ClampTotal(outer[..j])])
    ensures ClampTotal(Merge(inner, outer)[..j + 1]) == ClampTotal(inner[..ClampTotal(outer[..j + 1])])
  {
    MergePrefix(inner, outer, j);
    MergePrefix(inner, outer, j + 1);
    ClampTotalMono(outer, j, j + 1);
    MergeTotal(inner, outer[..j]);
    MergeTotal(inner, outer[..j + 1]);
  }
}
