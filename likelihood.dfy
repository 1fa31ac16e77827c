/** The counting and weighting skeleton of aggedDifference (lines 224-290).
    numDataTypes counts every measured type twice: types 0..half-1 are the
    unaggregated ones, types half..2*half-1 the same types aggregated, where
    half = numDataTypes / 2. Per type the score keeps a sum of squared
    differences and a count of the points in it; the per-type log and square
    root term is the parameter contrib. */
module Likelihood {
  import opened Sums
  import opened Aggregation

  function Sq(x: real): real
  {
    x * x
  }

  /** The number of valid points of type t in rows [lo, hi). */
  function ValidCount(valid: array2<bool>, t: nat, lo: int, hi: int): nat
    reads valid
    requires t < valid.Length1 && 0 <= lo && hi <= valid.Length0
    decreases hi - lo
  {
    if hi <= lo then 0 else ValidCount(valid, t, lo, hi - 1) + (if valid[hi - 1, t] then 1 else 0)
  }

  /** The squared differences of type t over the valid points of rows [lo, hi). */
  function ValidSqSum(model: array2<real>, data: array2<real>, valid: array2<bool>, t: nat,
                      lo: int, hi: int): real
    reads model, data, valid
    requires t < model.Length1 && t < data.Length1 && t < valid.Length1
    requires 0 <= lo && hi <= model.Length0 && hi <= data.Length0 && hi <= valid.Length0
    decreases hi - lo
  {
    if hi <= lo then 0.0
    else
      ValidSqSum(model, data, valid, t, lo, hi - 1)
      + (if valid[hi - 1, t] then Sq(model[hi - 1, t] - data[hi - 1, t]) else 0.0)
  }

  /** The squared differences of type t over the first k aggregated steps. */
  function AggSqSum(aggedModel: array2<real>, aggedData: array2<real>, t: nat, k: nat): real
    reads aggedModel, aggedData
    requires t < aggedModel.Length1 && t < aggedData.Length1
    requires k <= aggedModel.Length0 && k <= aggedData.Length0
  {
    if k == 0 then 0.0
    else AggSqSum(aggedModel, aggedData, t, k - 1) + Sq(aggedModel[k - 1, t] - aggedData[k - 1, t])
  }

  /** The unaggregated count never exceeds the number of rows in the window. */
  lemma {:induction false} ValidCountBound(valid: array2<bool>, t: nat, lo: int, hi: int)
    requires t < valid.Length1 && 0 <= lo && hi <= valid.Length0
    ensures ValidCount(valid, t, lo, hi) <= Clamp(hi - lo)
    decreases hi - lo
  {
    if hi > lo {
      ValidCountBound(valid, t, lo, hi - 1);
    }
  }

  /** Sums of squares are never negative, so the square root taken of
      sumSquares / n at line 280 has a non-negative argument. */
  lemma {:induction false} ValidSqSumNonNeg(model: array2<real>, data: array2<real>, valid: array2<bool>,
                                            t: nat, lo: int, hi: int)
    requires t < model.Length1 && t < data.Length1 && t < valid.Length1
    requires 0 <= lo && hi <= model.Length0 && hi <= data.Length0 && hi <= valid.Length0
    ensures ValidSqSum(model, data, valid, t, lo, hi) >= 0.0
    decreases hi - lo
  {
    if hi > lo {
      ValidSqSumNonNeg(model, data, valid, t, lo, hi - 1);
    }
  }

  lemma {:induction false} AggSqSumNonNeg(aggedModel: array2<real>, aggedData: array2<real>, t: nat, k: nat)
    requires t < aggedModel.Length1 && t < aggedData.Length1
    requires k <= aggedModel.Length0 && k <= aggedData.Length0
    ensures AggSqSum(aggedModel, aggedData, t, k) >= 0.0
  {
    if k > 0 {
      AggSqSumNonNeg(aggedModel, aggedData, t, k - 1);
    }
  }

  /** The unaggregated sum depends only on the valid points of the window:
      two measured series that agree there give the same sum. */
  lemma {:induction false} ValidSqSumOnlyValid(model: array2<real>, data: array2<real>,
                                               data2: array2<real>, valid: array2<bool>,
                                               t: nat, lo: int, hi: int)
    requires t < model.Length1 && t < data.Length1 && t < data2.Length1 && t < valid.Length1
    requires 0 <= lo && hi <= model.Length0 && hi <= data.Length0 && hi <= data2.Length0
    requires hi <= valid.Length0
    requires forall i :: lo <= i < hi && valid[i, t] ==> data[i, t] == data2[i, t]
    ensures ValidSqSum(model, data, valid, t, lo, hi) == ValidSqSum(model, data2, valid, t, lo, hi)
    decreases hi - lo
  {
    if hi > lo {
      ValidSqSumOnlyValid(model, data, data2, valid, t, lo, hi - 1);
    }
  }

  /** The reset loop of lines 245-248 on the freshly allocated sums and
      counts. */
  method NewSums(numDataTypes: nat) returns (ss: array<real>, n: array<int>)
    ensures fresh(ss) && fresh(n) && ss.Length == numDataTypes && n.Length == numDataTypes
    ensures forall d :: 0 <= d < numDataTypes ==> ss[d] == 0.0 && n[d] == 0
  {
    ss := new real[numDataTypes];
    n := new int[numDataTypes];
    var d := 0;
    while d < numDataTypes
      invariant 0 <= d <= numDataTypes
      invariant forall k :: 0 <= k < d ==> ss[k] == 0.0 && n[k] == 0
    {
      ss[d] := 0.0;
      n[d] := 0;
      d := d + 1;
    }
  }

  /** One row i of the unaggregated loop (lines 252-257): every valid point
      of the row is added to its type's sum and count. */
  method AddRow(model: array2<real>, data: array2<real>, valid: array2<bool>, lo: int, i: int,
                half: nat, ss: array<real>, n: array<int>)
    modifies ss, n
    requires half <= model.Length1 && half <= data.Length1 && half <= valid.Length1
    requires 0 <= lo <= i && i < model.Length0 && i < data.Length0 && i < valid.Length0
    requires half <= ss.Length && ss.Length == n.Length
    requires forall k :: 0 <= k < half ==>
               ss[k] == ValidSqSum(model, data, valid, k, lo, i) && n[k] == ValidCount(valid, k, lo, i)
    ensures forall k :: 0 <= k < half ==>
              ss[k] == ValidSqSum(model, data, valid, k, lo, i + 1) && n[k] == ValidCount(valid, k, lo, i + 1)
    ensures forall k :: half <= k < ss.Length ==> ss[k] == old(ss[k]) && n[k] == old(n[k])
  {
    var d := 0;
    while d < half
      invariant 0 <= d <= half
      invariant forall k :: 0 <= k < d ==>
                  ss[k] == ValidSqSum(model, data, valid, k, lo, i + 1) && n[k] == ValidCount(valid, k, lo, i + 1)
      invariant forall k :: d <= k < half ==>
                  ss[k] == ValidSqSum(model, data, valid, k, lo, i) && n[k] == ValidCount(valid, k, lo, i)
      invariant forall k :: half <= k < ss.Length ==> ss[k] == old(ss[k]) && n[k] == old(n[k])
    {
      if valid[i, d] {
        ss[d] := ss[d] + Sq(model[i, d] - data[i, d]);
        n[d] := n[d] + 1;
      }
      d := d + 1;
    }
  }

  /** The unaggregated loop of lines 251-258: rows startOpt - 1 .. endOpt - 1
      (here [lo, hi)), valid points only, into entries 0..half-1. */
  method UnaggedSums(model: array2<real>, data: array2<real>, valid: array2<bool>, lo: int, hi: int,
                     half: nat, ss: array<real>, n: array<int>)
    modifies ss, n
    requires half <= model.Length1 && half <= data.Length1 && half <= valid.Length1
    requires 0 <= lo && hi <= model.Length0 && hi <= data.Length0 && hi <= valid.Length0
    requires half <= ss.Length && ss.Length == n.Length
    requires forall d :: 0 <= d < half ==> ss[d] == 0.0 && n[d] == 0
    ensures forall d :: 0 <= d < half ==>
              ss[d] == ValidSqSum(model, data, valid, d, lo, hi) && n[d] == ValidCount(valid, d, lo, hi)
    ensures forall d :: half <= d < ss.Length ==> ss[d] == old(ss[d]) && n[d] == old(n[d])
  {
    var i := lo;
    while i < hi
      invariant lo <= i && (lo <= hi ==> i <= hi)
      invariant forall d :: 0 <= d < half ==>
                  var top := if i < hi then i else hi;
                  ss[d] == ValidSqSum(model, data, valid, d, lo, top) && n[d] == ValidCount(valid, d, lo, top)
      invariant forall d :: half <= d < ss.Length ==> ss[d] == old(ss[d]) && n[d] == old(n[d])
    {
      AddRow(model, data, valid, lo, i, half, ss, n);
      i := i + 1;
    }
  }

  /** One aggregated step i (lines 262-265): every type's difference is
      added to its aggregated sum, and each aggregated count goes up by one. */
  method AddAggStep(aggedModel: array2<real>, aggedData: array2<real>, i: nat, half: nat,
                    ss: array<real>, n: array<int>)
    modifies ss, n
    requires half <= aggedModel.Length1 && half <= aggedData.Length1
    requires i < aggedModel.Length0 && i < aggedData.Length0
    requires 2 * half <= ss.Length && ss.Length == n.Length
    requires forall k :: half <= k < 2 * half ==>
               ss[k] == AggSqSum(aggedModel, aggedData, k - half, i) && n[k] == i
    ensures forall k :: half <= k < 2 * half ==>
              ss[k] == AggSqSum(aggedModel, aggedData, k - half, i + 1) && n[k] == i + 1
    ensures forall k :: 0 <= k < ss.Length && !(half <= k < 2 * half) ==> ss[k] == old(ss[k]) && n[k] == old(n[k])
  {
    var d := 0;
    while d < half
      invariant 0 <= d <= half
      invariant forall k :: half <= k < half + d ==>
                  ss[k] == AggSqSum(aggedModel, aggedData, k - half, i + 1) && n[k] == i + 1
      invariant forall k :: half + d <= k < 2 * half ==>
                  ss[k] == AggSqSum(aggedModel, aggedData, k - half, i) && n[k] == i
      invariant forall k :: 0 <= k < ss.Length && !(half <= k < 2 * half) ==> ss[k] == old(ss[k]) && n[k] == old(n[k])
    {
      ss[half + d] := ss[half + d] + Sq(aggedModel[i, d] - aggedData[i, d]);
      n[half + d] := n[half + d] + 1;
      d := d + 1;
    }
  }

  /** The aggregated loop of lines 261-266: every aggregated step, valid or
      not, into entries half..2*half-1, so each of these counts ends at
      numAggSteps. */
  method AggedSums(aggedModel: array2<real>, aggedData: array2<real>, numAggSteps: nat, half: nat,
                   ss: array<real>, n: array<int>)
    modifies ss, n
    requires half <= aggedModel.Length1 && half <= aggedData.Length1
    requires numAggSteps <= aggedModel.Length0 && numAggSteps <= aggedData.Length0
    requires 2 * half <= ss.Length && ss.Length == n.Length
    requires forall d :: half <= d < 2 * half ==> ss[d] == 0.0 && n[d] == 0
    ensures forall d :: half <= d < 2 * half ==>
              ss[d] == AggSqSum(aggedModel, aggedData, d - half, numAggSteps) && n[d] == numAggSteps
    ensures forall d :: 0 <= d < ss.Length && !(half <= d < 2 * half) ==> ss[d] == old(ss[d]) && n[d] == old(n[d])
  {
    var i := 0;
    while i < numAggSteps
      invariant 0 <= i <= numAggSteps
      invariant forall d :: half <= d < 2 * half ==>
                  ss[d] == AggSqSum(aggedModel, aggedData, d - half, i) && n[d] == i
      invariant forall d :: 0 <= d < ss.Length && !(half <= d < 2 * half) ==> ss[d] == old(ss[d]) && n[d] == old(n[d])
    {
      AddAggStep(aggedModel, aggedData, i, half, ss, n);
      i := i + 1;
    }
  }

  /** The per-type terms, contrib(n, sumSquares) for every type. */
  function Contribs(ss: seq<real>, n: seq<int>, contrib: (int, real) -> real): (cs: seq<real>)
    requires |ss| == |n|
    ensures |cs| == |ss|
  {
    if |ss| == 0 then [] else Contribs(ss[..|ss| - 1], n[..|n| - 1], contrib) + [contrib(n[|n| - 1], ss[|ss| - 1])]
  }

  /** Term d of Contribs is contrib applied to type d's count and sum. */
  lemma {:induction false} ContribsAt(ss: seq<real>, n: seq<int>, contrib: (int, real) -> real, d: nat)
    requires |ss| == |n| && d < |ss|
    ensures Contribs(ss, n, contrib)[d] == contrib(n[d], ss[d])
    decreases |ss|
  {
    if d < |ss| - 1 {
      ContribsAt(ss[..|ss| - 1], n[..|n| - 1], contrib, d);
    }
  }

  /** The score the loop of lines 278-290 adds up: the unaggregated terms
      weighted once by unaggedWeight, then the rest unweighted; with fewer
      than two types there is no unaggregated half and no weight. */
  function WeightedTotal(cs: seq<real>, unaggedWeight: real): real
  {
    var half := |cs| / 2;
    if half >= 1 then SumR(cs[..half]) * unaggedWeight + SumR(cs[half..]) else SumR(cs)
  }

  /** The running total after the first d terms. */
  function Partial(cs: seq<real>, d: nat, unaggedWeight: real): real
    requires d <= |cs|
  {
    var half := |cs| / 2;
    if half >= 1 && d >= half then SumR(cs[..half]) * unaggedWeight + SumR(cs[half..d]) else SumR(cs[..d])
  }

  /** One turn of the combination loop: add term d, and apply the weight
      right after the last unaggregated term. */
  lemma PartialStep(cs: seq<real>, d: nat, unaggedWeight: real)
    requires d < |cs|
    ensures Partial(cs, d + 1, unaggedWeight)
         == var x := Partial(cs, d, unaggedWeight) + cs[d];
            if d == |cs| / 2 - 1 then x * unaggedWeight else x
  {
    var half := |cs| / 2;
    if half >= 1 && d >= half {
      SumRSnocRange(cs, half, d);
    } else {
      SumRSnocRange(cs, 0, d);
      assert cs[0..d + 1] == cs[..d + 1] && cs[0..d] == cs[..d];
      if d == half - 1 {
        assert cs[half..d + 1] == [];
      }
    }
  }

  /** A weight of 1 leaves the plain total. */
  lemma WeightOne(cs: seq<real>)
    ensures WeightedTotal(cs, 1.0) == SumR(cs)
  {
    var half := |cs| / 2;
    if half >= 1 {
      SumRConcat(cs[..half], cs[half..]);
      assert cs[..half] + cs[half..] == cs;
      assert SumR(cs[..half]) * 1.0 == SumR(cs[..half]);
    }
  }

  lemma SumRSnocRange(cs: seq<real>, a: nat, d: nat)
    requires a <= d < |cs|
    ensures SumR(cs[a..d + 1]) == SumR(cs[a..d]) + cs[d]
  {
    assert cs[a..d + 1][..d - a] == cs[a..d];
  }

  /** The combination loop of lines 278-290, with the per-type term given by
      contrib: the weight is applied to the running total exactly once, right
      after the last unaggregated type. */
  method Combine(ss: seq<real>, n: seq<int>, contrib: (int, real) -> real, unaggedWeight: real)
    returns (logLike: real)
    requires |ss| == |n|
    ensures logLike == WeightedTotal(Contribs(ss, n, contrib), unaggedWeight)
  {
    ghost var cs := Contribs(ss, n, contrib);
    var half := |ss| / 2;
    logLike := 0.0;
    var d := 0;
    while d < |ss|
      invariant 0 <= d <= |ss|
      invariant logLike == Partial(cs, d, unaggedWeight)
    {
      PartialStep(cs, d, unaggedWeight);
      ContribsAt(ss, n, contrib, d);
      logLike := logLike + contrib(n[d], ss[d]);
      if d == half - 1 {
        logLike := logLike * unaggedWeight;
      }
      d := d + 1;
    }
    assert cs[..d] == cs && cs[half..d] == cs[half..];
  }

  /** The array shapes the score reads: half types on both sides, rows
      [lo, hi) of the unaggregated series and numAggSteps aggregated steps. */
  predicate Shapes(model: array2<real>, data: array2<real>, valid: array2<bool>,
                   aggedModel: array2<real>, aggedData: array2<real>, numAggSteps: nat,
                   lo: int, hi: int, half: nat)
  {
    && half <= model.Length1 && half <= data.Length1 && half <= valid.Length1
    && half <= aggedModel.Length1 && half <= aggedData.Length1
    && 0 <= lo && hi <= model.Length0 && hi <= data.Length0 && hi <= valid.Length0
    && numAggSteps <= aggedModel.Length0 && numAggSteps <= aggedData.Length0
  }

  /** The sum of squares of type d (lines 244-266): for an unaggregated type
      the valid points of rows [lo, hi), for an aggregated type all
      numAggSteps aggregated steps, and nothing for the odd type out. */
  function TypeSum(model: array2<real>, data: array2<real>, valid: array2<bool>,
                   aggedModel: array2<real>, aggedData: array2<real>, numAggSteps: nat,
                   lo: int, hi: int, half: nat, d: nat): real
    reads model, data, valid, aggedModel, aggedData
    requires Shapes(model, data, valid, aggedModel, aggedData, numAggSteps, lo, hi, half)
  {
    if d < half then ValidSqSum(model, data, valid, d, lo, hi)
    else if d < 2 * half then AggSqSum(aggedModel, aggedData, d - half, numAggSteps)
    else 0.0
  }

  /** The number of points behind TypeSum. */
  function TypeCount(valid: array2<bool>, numAggSteps: nat, lo: int, hi: int, half: nat, d: nat): int
    reads valid
    requires half <= valid.Length1 && 0 <= lo && hi <= valid.Length0
  {
    if d < half then ValidCount(valid, d, lo, hi) else if d < 2 * half then numAggSteps else 0
  }

  /** TypeSum for the types 0..k-1. */
  function AllSums(model: array2<real>, data: array2<real>, valid: array2<bool>,
                   aggedModel: array2<real>, aggedData: array2<real>, numAggSteps: nat,
                   lo: int, hi: int, half: nat, k: nat): (r: seq<real>)
    reads model, data, valid, aggedModel, aggedData
    requires Shapes(model, data, valid, aggedModel, aggedData, numAggSteps, lo, hi, half)
    ensures |r| == k
  {
    if k == 0 then []
    else AllSums(model, data, valid, aggedModel, aggedData, numAggSteps, lo, hi, half, k - 1)
         + [TypeSum(model, data, valid, aggedModel, aggedData, numAggSteps, lo, hi, half, k - 1)]
  }

  /** TypeCount for the types 0..k-1. */
  function AllCounts(valid: array2<bool>, numAggSteps: nat, lo: int, hi: int, half: nat, k: nat): (r: seq<int>)
    reads valid
    requires half <= valid.Length1 && 0 <= lo && hi <= valid.Length0
    ensures |r| == k
  {
    if k == 0 then [] else AllCounts(valid, numAggSteps, lo, hi, half, k - 1) + [TypeCount(valid, numAggSteps, lo, hi, half, k - 1)]
  }

  /** Entry d of AllSums and AllCounts is type d's sum and count. */
  lemma {:induction false} AllAt(model: array2<real>, data: array2<real>, valid: array2<bool>,
                                 aggedModel: array2<real>, aggedData: array2<real>, numAggSteps: nat,
                                 lo: int, hi: int, half: nat, k: nat, d: nat)
    requires Shapes(model, data, valid, aggedModel, aggedData, numAggSteps, lo, hi, half)
    requires d < k
    ensures AllSums(model, data, valid, aggedModel, aggedData, numAggSteps, lo, hi, half, k)[d]
            == TypeSum(model, data, valid, aggedModel, aggedData, numAggSteps, lo, hi, half, d)
    ensures AllCounts(valid, numAggSteps, lo, hi, half, k)[d] == TypeCount(valid, numAggSteps, lo, hi, half, d)
  {
    if d < k - 1 {
      AllAt(model, data, valid, aggedModel, aggedData, numAggSteps, lo, hi, half, k - 1, d);
    }
  }

  /** Lines 238-266: the sums of squares and counts of every type. */
  method SumSquares(model: array2<real>, data: array2<real>, valid: array2<bool>,
                    aggedModel: array2<real>, aggedData: array2<real>, numAggSteps: nat,
                    lo: int, hi: int, numDataTypes: nat)
    returns (ss: array<real>, n: array<int>)
    requires var half := numDataTypes / 2;
             && half <= model.Length1 && half <= data.Length1 && half <= valid.Length1
             && half <= aggedModel.Length1 && half <= aggedData.Length1
    requires 0 <= lo && hi <= model.Length0 && hi <= data.Length0 && hi <= valid.Length0
    requires numAggSteps <= aggedModel.Length0 && numAggSteps <= aggedData.Length0
    ensures fresh(ss) && fresh(n)
    ensures ss[..] == AllSums(model, data, valid, aggedModel, aggedData, numAggSteps, lo, hi,
                              numDataTypes / 2, numDataTypes)
    ensures n[..] == AllCounts(valid, numAggSteps, lo, hi, numDataTypes / 2, numDataTypes)
  {
    var half := numDataTypes / 2;
    ss, n := NewSums(numDataTypes);
    UnaggedSums(model, data, valid, lo, hi, half, ss, n);
    AggedSums(aggedModel, aggedData, numAggSteps, half, ss, n);
    forall d | 0 <= d < numDataTypes
      ensures ss[d] == AllSums(model, data, valid, aggedModel, aggedData, numAggSteps, lo, hi, half, numDataTypes)[d]
      ensures n[d] == AllCounts(valid, numAggSteps, lo, hi, half, numDataTypes)[d]
    {
      AllAt(model, data, valid, aggedModel, aggedData, numAggSteps, lo, hi, half, numDataTypes, d);
    }
  }

  /** Lines 244-290 once the model is aggregated: the sums and counts of
      every type, and the score they combine to. */
  method Score(model: array2<real>, data: array2<real>, valid: array2<bool>,
               aggedModel: array2<real>, aggedData: array2<real>, numAggSteps: nat,
               lo: int, hi: int, numDataTypes: nat, contrib: (int, real) -> real, unaggedWeight: real)
    returns (logLike: real, sums: seq<real>, counts: seq<int>)
    requires Shapes(model, data, valid, aggedModel, aggedData, numAggSteps, lo, hi, numDataTypes / 2)
    ensures sums == AllSums(model, data, valid, aggedModel, aggedData, numAggSteps, lo, hi,
                            numDataTypes / 2, numDataTypes)
    ensures counts == AllCounts(valid, numAggSteps, lo, hi, numDataTypes / 2, numDataTypes)
    ensures logLike == WeightedTotal(Contribs(sums, counts, contrib), unaggedWeight)
  {
    var ss, n := SumSquares(model, data, valid, aggedModel, aggedData, numAggSteps, lo, hi, numDataTypes);
    sums, counts := ss[..], n[..];
    label summed:
    logLike := Combine(sums, counts, contrib, unaggedWeight);
    assert unchanged@summed(model, data, valid, aggedModel, aggedData);
  }

  /** aggedDifference (lines 224-290) after the model has run: aggregate the
      model output into aggedModel by the location's block sizes, add up the
      squared differences and counts of both halves, and combine the per-type
      terms. */
  method AggedDifference(model: array2<real>, data: array2<real>, valid: array2<bool>,
                         aggedModel: array2<real>, aggedData: array2<real>, aggSteps: seq<int>,
                         startOpt: int, endOpt: int, numDataTypes: nat,
                         contrib: (int, real) -> real, unaggedWeight: real)
    returns (logLike: real, sums: seq<real>, counts: seq<int>)
    modifies aggedModel
    requires aggedModel != model && aggedModel != data && aggedModel != aggedData
    requires var half := numDataTypes / 2;
             && half <= model.Length1 && half <= data.Length1 && half <= valid.Length1
             && half <= aggedModel.Length1 && half <= aggedData.Length1
             && |aggSteps| <= aggedModel.Length0 && |aggSteps| <= aggedData.Length0
    requires 1 <= startOpt && startOpt - 1 + ClampTotal(aggSteps) <= model.Length0
    requires endOpt <= model.Length0 && endOpt <= data.Length0 && endOpt <= valid.Length0
    ensures Aggregated(aggedModel, model, aggSteps, startOpt, numDataTypes / 2)
    ensures forall r, t :: 0 <= r < aggedModel.Length0 && 0 <= t < aggedModel.Length1 && !(r < |aggSteps| && t < numDataTypes / 2) ==> aggedModel[r, t] == old(aggedModel[r, t])
    ensures sums == AllSums(model, data, valid, aggedModel, aggedData, |aggSteps|, startOpt - 1, endOpt,
                            numDataTypes / 2, numDataTypes)
    ensures counts == AllCounts(valid, |aggSteps|, startOpt - 1, endOpt, numDataTypes / 2, numDataTypes)
    ensures logLike == WeightedTotal(Contribs(sums, counts, contrib), unaggedWeight)
  {
    var half := numDataTypes / 2;
    ComputeAggedData(aggedModel, model, aggSteps, startOpt, half);
    label aggregated:
    logLike, sums, counts := ScoreAggregated(model, data, valid, aggedModel, aggedData, aggSteps, startOpt, endOpt,
                                             numDataTypes, contrib, unaggedWeight);
    assert unchanged@aggregated(aggedModel);
  }

  /** Score once aggedModel holds the aggregated model output: the
      aggregation is still there afterwards, and aggedModel is not written. */
  method ScoreAggregated(model: array2<real>, data: array2<real>, valid: array2<bool>,
                         aggedModel: array2<real>, aggedData: array2<real>, aggSteps: seq<int>,
                         startOpt: int, endOpt: int, numDataTypes: nat,
                         contrib: (int, real) -> real, unaggedWeight: real)
    returns (logLike: real, sums: seq<real>, counts: seq<int>)
    requires Shapes(model, data, valid, aggedModel, aggedData, |aggSteps|, startOpt - 1, endOpt, numDataTypes / 2)
    requires Aggregated(aggedModel, model, aggSteps, startOpt, numDataTypes / 2)
    ensures Aggregated(aggedModel, model, aggSteps, startOpt, numDataTypes / 2)
    ensures sums == AllSums(model, data, valid, aggedModel, aggedData, |aggSteps|, startOpt - 1, endOpt,
                            numDataTypes / 2, numDataTypes)
    ensures counts == AllCounts(valid, |aggSteps|, startOpt - 1, endOpt, numDataTypes / 2, numDataTypes)
    ensures logLike == WeightedTotal(Contribs(sums, counts, contrib), unaggedWeight)
  {
    label before:
    logLike, sums, counts := Score(model, data, valid, aggedModel, aggedData, |aggSteps|, startOpt - 1, endOpt,
                                   numDataTypes, contrib, unaggedWeight);
    assert unchanged@before(model, aggedModel);
    forall t | 0 <= t < numDataTypes / 2
      ensures Col(model, t) == old@before(Col(model, t))
    {
    }
  }

  /** With unaggedWeight = 0 the score is the aggregated terms alone, so two
      sets of sums and counts that agree on the aggregated half score the
      same. */
  lemma ZeroWeightSuffix(ss1: seq<real>, n1: seq<int>, ss2: seq<real>, n2: seq<int>,
                         contrib: (int, real) -> real)
    requires |ss1| == |n1| == |ss2| == |n2| >= 2
    requires ss1[|ss1| / 2..] == ss2[|ss2| / 2..] && n1[|n1| / 2..] == n2[|n2| / 2..]
    ensures WeightedTotal(Contribs(ss1, n1, contrib), 0.0) == SumR(Contribs(ss1, n1, contrib)[|ss1| / 2..])
    ensures WeightedTotal(Contribs(ss1, n1, contrib), 0.0) == WeightedTotal(Contribs(ss2, n2, contrib), 0.0)
  {
    var half := |ss1| / 2;
    var c1, c2 := Contribs(ss1, n1, contrib), Contribs(ss2, n2, contrib);
    forall d | half <= d < |ss1|
      ensures c1[d] == c2[d]
    {
      ContribsAt(ss1, n1, contrib, d);
      ContribsAt(ss2, n2, contrib, d);
      assert ss1[d] == ss1[half..][d - half] == ss2[half..][d - half] == ss2[d];
      assert n1[d] == n1[half..][d - half] == n2[half..][d - half] == n2[d];
    }
    assert c1[half..] == c2[half..];
  }

  /** The aggregated sum of squares only reads the first k aggregated model
      rows. */
  lemma {:induction false} AggSqSumAgree(am1: array2<real>, am2: array2<real>, ad: array2<real>, t: nat, k: nat)
    requires t < am1.Length1 && t < am2.Length1 && t < ad.Length1
    requires k <= am1.Length0 && k <= am2.Length0 && k <= ad.Length0
    requires forall i :: 0 <= i < k ==> am1[i, t] == am2[i, t]
    ensures AggSqSum(am1, ad, t, k) == AggSqSum(am2, ad, t, k)
  {
    if k > 0 {
      AggSqSumAgree(am1, am2, ad, t, k - 1);
    }
  }

  lemma AggregatedAt(agged: array2<real>, orig: array2<real>, steps: seq<int>, startOpt: int, half: nat,
                     i: nat, t: nat)
    requires Aggregated(agged, orig, steps, startOpt, half) && i < |steps| && t < half
    ensures agged[i, t] == BlockSums(Col(orig, t), steps, startOpt - 1)[i]
  {
  }

  /** Two model outputs that agree on the rows the aggregation covers give
      the same aggregated model. */
  lemma AggregatedAgree(agged1: array2<real>, model1: array2<real>, agged2: array2<real>, model2: array2<real>,
                        steps: seq<int>, startOpt: int, half: nat)
    requires Aggregated(agged1, model1, steps, startOpt, half) && Aggregated(agged2, model2, steps, startOpt, half)
    requires forall r, t :: startOpt - 1 <= r < startOpt - 1 + ClampTotal(steps) && 0 <= t < half ==>
               model1[r, t] == model2[r, t]
    ensures forall i, t :: 0 <= i < |steps| && 0 <= t < half ==> agged1[i, t] == agged2[i, t]
  {
    var lo := startOpt - 1;
    forall i, t | 0 <= i < |steps| && 0 <= t < half
      ensures agged1[i, t] == agged2[i, t]
    {
      var c1, c2 := Col(model1, t), Col(model2, t);
      if ClampTotal(steps) == 0 {
        BlockSumsNone(c1, steps, lo, i);
        BlockSumsNone(c2, steps, lo, i);
      } else {
        assert forall r :: lo <= r < lo + ClampTotal(steps) ==> c1[r] == model1[r, t] == model2[r, t] == c2[r];
        BlockSumsAgree(c1, c2, steps, lo);
      }
      AggregatedAt(agged1, model1, steps, startOpt, half, i, t);
      AggregatedAt(agged2, model2, steps, startOpt, half, i, t);
    }
  }

  /** Two aggregated models that agree on the first numAggSteps rows give
      the same sums for the aggregated types, whatever the unaggregated
      model output. */
  lemma {:induction false} AggedSumsAgree(model1: array2<real>, agged1: array2<real>, model2: array2<real>,
                                          agged2: array2<real>, data: array2<real>, valid: array2<bool>,
                                          aggedData: array2<real>, numAggSteps: nat, lo: int, hi: int,
                                          half: nat, k: nat)
    requires Shapes(model1, data, valid, agged1, aggedData, numAggSteps, lo, hi, half)
    requires Shapes(model2, data, valid, agged2, aggedData, numAggSteps, lo, hi, half)
    requires forall i, t :: 0 <= i < numAggSteps && 0 <= t < half ==> agged1[i, t] == agged2[i, t]
    requires half <= k
    ensures AllSums(model1, data, valid, agged1, aggedData, numAggSteps, lo, hi, half, k)[half..]
         == AllSums(model2, data, valid, agged2, aggedData, numAggSteps, lo, hi, half, k)[half..]
  {
    if k > half {
      AggedSumsAgree(model1, agged1, model2, agged2, data, valid, aggedData, numAggSteps, lo, hi, half, k - 1);
      var p1 := AllSums(model1, data, valid, agged1, aggedData, numAggSteps, lo, hi, half, k - 1);
      var p2 := AllSums(model2, data, valid, agged2, aggedData, numAggSteps, lo, hi, half, k - 1);
      var x1 := TypeSum(model1, data, valid, agged1, aggedData, numAggSteps, lo, hi, half, k - 1);
      var x2 := TypeSum(model2, data, valid, agged2, aggedData, numAggSteps, lo, hi, half, k - 1);
      if k - 1 < 2 * half {
        AggSqSumAgree(agged1, agged2, aggedData, k - 1 - half, numAggSteps);
      }
      assert (p1 + [x1])[half..] == p1[half..] + [x1];
      assert (p2 + [x2])[half..] == p2[half..] + [x2];
    }
  }

  /** Two model outputs that agree on the rows the aggregation covers, each
      aggregated by the same block sizes, give the same sums for the
      aggregated types. */
  lemma ModelAgreeSums(model1: array2<real>, agged1: array2<real>, model2: array2<real>, agged2: array2<real>,
                       data: array2<real>, valid: array2<bool>, aggedData: array2<real>, steps: seq<int>,
                       startOpt: int, endOpt: int, numDataTypes: nat)
    requires Shapes(model1, data, valid, agged1, aggedData, |steps|, startOpt - 1, endOpt, numDataTypes / 2)
    requires Shapes(model2, data, valid, agged2, aggedData, |steps|, startOpt - 1, endOpt, numDataTypes / 2)
    requires Aggregated(agged1, model1, steps, startOpt, numDataTypes / 2)
    requires Aggregated(agged2, model2, steps, startOpt, numDataTypes / 2)
    requires forall r, t :: startOpt - 1 <= r < startOpt - 1 + ClampTotal(steps) && 0 <= t < numDataTypes / 2 ==>
               model1[r, t] == model2[r, t]
    ensures AllSums(model1, data, valid, agged1, aggedData, |steps|, startOpt - 1, endOpt, numDataTypes / 2,
                    numDataTypes)[numDataTypes / 2..]
         == AllSums(model2, data, valid, agged2, aggedData, |steps|, startOpt - 1, endOpt, numDataTypes / 2,
                    numDataTypes)[numDataTypes / 2..]
  {
    var half := numDataTypes / 2;
    AggregatedAgree(agged1, model1, agged2, model2, steps, startOpt, half);
    AggedSumsAgree(model1, agged1, model2, agged2, data, valid, aggedData, |steps|, startOpt - 1, endOpt, half,
                   numDataTypes);
  }

  /** With unaggedWeight = 0 the score does not depend on the model output
      outside the rows the aggregation covers: two model outputs that agree
      there, each aggregated by the same block sizes, score the same. */
  lemma ZeroWeightScore(model1: array2<real>, agged1: array2<real>, model2: array2<real>, agged2: array2<real>,
                        data: array2<real>, valid: array2<bool>, aggedData: array2<real>, steps: seq<int>,
                        startOpt: int, endOpt: int, numDataTypes: nat, contrib: (int, real) -> real)
    requires numDataTypes >= 2
    requires Shapes(model1, data, valid, agged1, aggedData, |steps|, startOpt - 1, endOpt, numDataTypes / 2)
    requires Shapes(model2, data, valid, agged2, aggedData, |steps|, startOpt - 1, endOpt, numDataTypes / 2)
    requires Aggregated(agged1, model1, steps, startOpt, numDataTypes / 2)
    requires Aggregated(agged2, model2, steps, startOpt, numDataTypes / 2)
    requires forall r, t :: startOpt - 1 <= r < startOpt - 1 + ClampTotal(steps) && 0 <= t < numDataTypes / 2 ==>
               model1[r, t] == model2[r, t]
    ensures var counts := AllCounts(valid, |steps|, startOpt - 1, endOpt, numDataTypes / 2, numDataTypes);
            WeightedTotal(Contribs(AllSums(model1, data, valid, agged1, aggedData, |steps|, startOpt - 1, endOpt,
                                           numDataTypes / 2, numDataTypes), counts, contrib), 0.0)
            == WeightedTotal(Contribs(AllSums(model2, data, valid, agged2, aggedData, |steps|, startOpt - 1, endOpt,
                                              numDataTypes / 2, numDataTypes), counts, contrib), 0.0)
  {
    var half := numDataTypes / 2;
    var lo := startOpt - 1;
    ModelAgreeSums(model1, agged1, model2, agged2, data, valid, aggedData, steps, startOpt, endOpt, numDataTypes);
    var s1 := AllSums(model1, data, valid, agged1, aggedData, |steps|, lo, endOpt, half, numDataTypes);
    var s2 := AllSums(model2, data, valid, agged2, aggedData, |steps|, lo, endOpt, half, numDataTypes);
    var counts := AllCounts(valid, |steps|, lo, endOpt, half, numDataTypes);
    ZeroWeightSuffix(s1, counts, s2, counts, contrib);
  }
}
