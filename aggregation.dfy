/** Aggregation of time steps into blocks (computeAggedData) and the reader
    of the block sizes (readFileForAgg). A data array has one row per time
    step and one column per data type. */
module Aggregation {
  import opened Sums

  /** Column t of a data array, as a sequence of rows. */
  function Col(a: array2<real>, t: nat): (c: seq<real>)
    reads a
    requires t < a.Length1
    ensures |c| == a.Length0 && forall r :: 0 <= r < a.Length0 ==> c[r] == a[r, t]
  {
    ColPrefix(a, t, a.Length0)
  }

  /** The first n rows of column t. */
  function ColPrefix(a: array2<real>, t: nat, n: nat): (c: seq<real>)
    reads a
    requires t < a.Length1 && n <= a.Length0
    ensures |c| == n && forall r :: 0 <= r < n ==> c[r] == a[r, t]
  {
    if n == 0 then [] else ColPrefix(a, t, n - 1) + [a[n - 1, t]]
  }

  // ---------------------------------------------------------------------
  // computeAggedData

  /** The reset loop of lines 184-185: row i of the first numDataTypes columns
      becomes 0. */
  method ZeroRow(agged: array2<real>, i: nat, numDataTypes: nat)
    modifies agged
    requires i < agged.Length0 && numDataTypes <= agged.Length1
    ensures forall t :: 0 <= t < numDataTypes ==> agged[i, t] == 0.0
    ensures forall r, t :: 0 <= r < agged.Length0 && 0 <= t < agged.Length1 && !(r == i && t < numDataTypes) ==>
              agged[r, t] == old(agged[r, t])
  {
    var t := 0;
    while t < numDataTypes
      invariant 0 <= t <= numDataTypes
      invariant forall u :: 0 <= u < t ==> agged[i, u] == 0.0
      invariant forall r, u :: 0 <= r < agged.Length0 && 0 <= u < agged.Length1 && !(r == i && u < t) ==>
              agged[r, u] == old(agged[r, u])
    {
      agged[i, t] := 0.0;
      t := t + 1;
    }
  }

  /** The accumulation loop of lines 188-189: input row index is added to
      output row i, column by column. */
  method AddRow(agged: array2<real>, orig: array2<real>, i: nat, index: nat, numDataTypes: nat)
    modifies agged
    requires agged != orig
    requires i < agged.Length0 && index < orig.Length0
    requires numDataTypes <= agged.Length1 && numDataTypes <= orig.Length1
    ensures forall t :: 0 <= t < numDataTypes ==> agged[i, t] == old(agged[i, t]) + orig[index, t]
    ensures forall r, t :: 0 <= r < agged.Length0 && 0 <= t < agged.Length1 && !(r == i && t < numDataTypes) ==>
              agged[r, t] == old(agged[r, t])
  {
    var t := 0;
    while t < numDataTypes
      invariant 0 <= t <= numDataTypes
      invariant forall u :: 0 <= u < t ==> agged[i, u] == old(agged[i, u]) + orig[index, u]
      invariant forall r, u :: 0 <= r < agged.Length0 && 0 <= u < agged.Length1 && !(r == i && u < t) ==>
              agged[r, u] == old(agged[r, u])
    {
      agged[i, t] := agged[i, t] + orig[index, t];
      t := t + 1;
    }
  }

  /** One aggregated step (lines 184-191): output row i becomes the sum of
      the n input rows from index0 on (none when n <= 0, as the C loop
      `j < n` does), and the input index moves past them. With no row to
      take, index0 may lie outside the input: nothing is read. */
  method AggregateRow(agged: array2<real>, orig: array2<real>, i: nat, index0: int, n: int,
                      numDataTypes: nat)
    returns (index: int)
    modifies agged
    requires agged != orig
    requires i < agged.Length0 && (Clamp(n) == 0 || (0 <= index0 && index0 + Clamp(n) <= orig.Length0))
    requires numDataTypes <= agged.Length1 && numDataTypes <= orig.Length1
    ensures index == index0 + Clamp(n)
    ensures forall t :: 0 <= t < numDataTypes ==> agged[i, t] == RangeSum(Col(orig, t), index0, index)
    ensures forall r, t :: 0 <= r < agged.Length0 && 0 <= t < agged.Length1 && !(r == i && t < numDataTypes) ==>
              agged[r, t] == old(agged[r, t])
  {
    ZeroRow(agged, i, numDataTypes);
    index := index0;
    var j := 0;
    while j < n
      invariant 0 <= j <= Clamp(n) && index == index0 + j
      invariant forall t :: 0 <= t < numDataTypes ==> agged[i, t] == RangeSum(Col(orig, t), index0, index)
      invariant forall r, t :: 0 <= r < agged.Length0 && 0 <= t < agged.Length1 && !(r == i && t < numDataTypes) ==>
              agged[r, t] == old(agged[r, t])
    {
      AddRow(agged, orig, i, index, numDataTypes);
      index := index + 1;
      j := j + 1;
    }
  }

  /** Whether rows 0..|steps|-1 of agged hold, for every data type t below
      numDataTypes, the block sums of column t of orig by the block sizes
      steps, the first block starting at the 1-indexed step startOpt. Blocks
      that cover no row make every such row 0, whatever startOpt is. */
  predicate Aggregated(agged: array2<real>, orig: array2<real>, steps: seq<int>, startOpt: int,
                       numDataTypes: nat)
    reads agged, orig
  {
    && |steps| <= agged.Length0 && numDataTypes <= agged.Length1 && numDataTypes <= orig.Length1
    && (ClampTotal(steps) == 0 || (1 <= startOpt && startOpt - 1 + ClampTotal(steps) <= orig.Length0))
    && forall i, t :: 0 <= i < |steps| && 0 <= t < numDataTypes ==>
         agged[i, t] == BlockSums(Col(orig, t), steps, startOpt - 1)[i]
  }

  /** computeAggedData (lines 179-193): for every data type t, output row i
      is the sum of the steps[i] input rows that follow the rows of the
      earlier blocks, the first block starting at the 1-indexed step
      startOpt; nothing else of the output is written, and the input is only
      read. When the blocks cover no row, no input row is read and startOpt
      may be anything. */
  method ComputeAggedData(agged: array2<real>, orig: array2<real>, steps: seq<int>, startOpt: int,
                          numDataTypes: nat)
    modifies agged
    requires agged != orig
    requires |steps| <= agged.Length0 && numDataTypes <= agged.Length1 && numDataTypes <= orig.Length1
    requires ClampTotal(steps) == 0 || (1 <= startOpt && startOpt - 1 + ClampTotal(steps) <= orig.Length0)
    ensures Aggregated(agged, orig, steps, startOpt, numDataTypes)
    ensures forall r, t :: 0 <= r < agged.Length0 && 0 <= t < agged.Length1 && !(r < |steps| && t < numDataTypes) ==>
              agged[r, t] == old(agged[r, t])
  {
    var lo := startOpt - 1;
    var index := lo;
    var i := 0;
    assert steps[..0] == [];
    forall r | 0 <= r <= |steps|
      ensures ClampTotal(steps[..r]) <= ClampTotal(steps)
    {
      ClampTotalPrefix(steps, r);
    }
    while i < |steps|
      invariant 0 <= i <= |steps|
      invariant index == lo + ClampTotal(steps[..i])
      invariant forall r, t :: 0 <= r < i && 0 <= t < numDataTypes ==>
                  agged[r, t] == RangeSum(Col(orig, t), lo + ClampTotal(steps[..r]),
                                             lo + ClampTotal(steps[..r + 1]))
      invariant forall r, t :: 0 <= r < agged.Length0 && 0 <= t < agged.Length1 && !(r < i && t < numDataTypes) ==>
              agged[r, t] == old(agged[r, t])
    {
      ClampTotalSnoc(steps, i);
      index := AggregateRow(agged, orig, i, index, steps[i], numDataTypes);
      i := i + 1;
    }
    forall i, t | 0 <= i < |steps| && 0 <= t < numDataTypes
      ensures agged[i, t] == BlockSums(Col(orig, t), steps, lo)[i]
    {
      if ClampTotal(steps) == 0 {
        assert ClampTotal(steps[..i]) <= 0 && ClampTotal(steps[..i + 1]) <= 0;
        assert agged[i, t] == RangeSum(Col(orig, t), lo, lo) == 0.0;
        BlockSumsNone(Col(orig, t), steps, lo, i);
      } else {
        BlockSumsAt(Col(orig, t), steps, lo, i);
      }
    }
  }

  // ---------------------------------------------------------------------
  // The block-size file

  /** Index of the first -1 at or after p, or |ints| when there is none. */
  function NextMinusOne(ints: seq<int>, p: nat): (e: nat)
    requires p <= |ints|
    ensures p <= e <= |ints|
    ensures e < |ints| ==> ints[e] == -1
    decreases |ints| - p
  {
    if p == |ints| || ints[p] == -1 then p else NextMinusOne(ints, p + 1)
  }

  /** NextMinusOne finds the first -1 from p on: e is it exactly when there is
      no -1 in [p, e) and e is a -1 or the end of the stream. */
  lemma {:induction false} NextMinusOneFirst(ints: seq<int>, p: nat, e: nat)
    requires p <= e <= |ints|
    ensures NextMinusOne(ints, p) == e <==>
              (forall j :: p <= j < e ==> ints[j] != -1) && (e < |ints| ==> ints[e] == -1)
    decreases |ints| - p
  {
    if p < e && p < |ints| && ints[p] != -1 {
      NextMinusOneFirst(ints, p + 1, e);
    }
  }

  /** Where the line of location loc starts: right after the -1 of the line
      before; None when an earlier line has no -1. */
  function LineStart(ints: seq<int>, loc: nat): (r: Option<nat>)
    ensures r.Some? ==> r.value <= |ints|
  {
    if loc == 0 then Some(0)
    else
      match LineStart(ints, loc - 1)
      case None => None
      case Some(p) =>
        var e := NextMinusOne(ints, p);
        if e < |ints| then Some(e + 1) else None
  }

  /** The block sizes of location loc: the integers of its line before the
      -1. */
  function Line(ints: seq<int>, loc: nat): Option<seq<int>>
  {
    match LineStart(ints, loc)
    case None => None
    case Some(p) =>
      var e := NextMinusOne(ints, p);
      if e < |ints| then Some(ints[p..e]) else None
  }

  datatype Option<T> = None | Some(value: T)

  /** The count pass (lines 748-754): the number of integers before the next
      -1; ok is false when the stream ends first. */
  method CountValues(ints: seq<int>, pos: nat) returns (ok: bool, count: nat)
    requires pos <= |ints|
    ensures ok <==> NextMinusOne(ints, pos) < |ints|
    ensures ok ==> count == NextMinusOne(ints, pos) - pos
  {
    count := 0;
    if pos == |ints| {
      NextMinusOneFirst(ints, pos, pos);
      return false, count;
    }
    var p := pos + 1;
    var curr := ints[pos];
    while curr != -1
      invariant pos < p <= |ints| && p == pos + count + 1 && curr == ints[p - 1]
      invariant forall j :: pos <= j < p - 1 ==> ints[j] != -1
      decreases |ints| - p
    {
      count := count + 1;
      if p == |ints| {
        NextMinusOneFirst(ints, pos, p);
        return false, count;
      }
      curr := ints[p];
      p := p + 1;
    }
    NextMinusOneFirst(ints, pos, p - 1);
    ok := true;
  }

  /** The fill pass (lines 761-768): read count integers into a new array
      and add them up. */
  method FillValues(ints: seq<int>, pos: nat, count: nat) returns (a: array<int>, sum: int)
    requires pos + count <= |ints|
    ensures fresh(a) && a[..] == ints[pos..pos + count] && sum == Sum(a[..])
  {
    a := new int[count];
    sum := 0;
    var i := 0;
    assert ints[pos..pos] == [];
    while i < count
      invariant 0 <= i <= count
      invariant a[..i] == ints[pos..pos + i] && sum == Sum(ints[pos..pos + i])
    {
      a[i] := ints[pos + i];
      assert a[..i + 1] == a[..i] + [a[i]];
      assert ints[pos..pos + i + 1] == ints[pos..pos + i] + [ints[pos + i]];
      sum := sum + a[i];
      i := i + 1;
    }
    assert a[..] == a[..count];
  }

  // ---------------------------------------------------------------------
  // The total check and its gap

  /** The check of line 770 as written: only the total of the block sizes
      is compared with the window length. */
  predicate SumCheckAsWritten(steps: seq<int>, startOpt: int, endOpt: int)
  {
    Sum(steps) == endOpt - startOpt + 1
  }

  /** A negative block size passes the check of line 770 as written, and
      computeAggedData then reads rows past the window. The line `5 -3 1 -1`
      holds the sizes 5, -3, 1, which add up to 3, the length of the window
      [1, 3]; the reader accepts it for a location with 6 rows, and the loop
      of line 187 then takes 5 + 0 + 1 = 6 rows, the rows 0 to 5, while the
      window ends at row 2. */
  lemma SumCheckOverread()
    ensures Line([5, -3, 1, -1], 0) == Some([5, -3, 1])
    ensures SumCheckAsWritten([5, -3, 1], 1, 3)
    ensures LocSpec([5, -3, 1, -1], 0, 1, 3, 6) == Success([5, -3, 1])
    ensures ClampTotal([5, -3, 1]) == 6 > 3 - 1 + 1
  {
    assert NextMinusOne([5, -3, 1, -1], 3) == 3;
    assert [5, -3, 1, -1][0..3] == [5, -3, 1];
    assert [5, -3, 1][..2] == [5, -3];
    assert [5, -3][..1] == [5];
    assert [5][..0] == [];
  }

  predicate NonNegative(steps: seq<int>)
  {
    forall i :: 0 <= i < |steps| ==> steps[i] >= 0
  }

  /** The check the file format calls for: every block size non-negative,
      and the total equal to the window length. */
  predicate AggCheck(steps: seq<int>, startOpt: int, endOpt: int)
  {
    NonNegative(steps) && Sum(steps) == endOpt - startOpt + 1
  }

  /** With the full check, computeAggedData reads exactly the rows of the
      window, startOpt - 1 to endOpt - 1: its blocks cover
      endOpt - startOpt + 1 rows from row startOpt - 1 on. */
  lemma AggCheckRows(steps: seq<int>, startOpt: int, endOpt: int)
    requires AggCheck(steps, startOpt, endOpt)
    ensures startOpt - 1 + ClampTotal(steps) == endOpt
  {
    ClampTotalNonNeg(steps);
  }

  // ---------------------------------------------------------------------
  // readFileForAgg

  /** MissingEnd: the stream ends before the line's -1, where the count loop
      of lines 751-754 would not terminate. BadTotal: the exit of line 770.
      Overread: the blocks take at least one row and start before row 0 or
      take more rows than the location's data has, where computeAggedData
      would read outside the array. NegativeSize: the corrected check only. */
  datatype AggError = MissingEnd | BadTotal | Overread | NegativeSize

  /** What readFileForAgg does with location loc, whose data has rows rows:
      the block sizes of its line, or why it stops there. The check is that
      of line 770 as written; negative sizes are accepted. */
  function LocSpec(ints: seq<int>, loc: nat, startOpt: int, endOpt: int, rows: int): Result<seq<int>>
  {
    match Line(ints, loc)
    case None => Failure(MissingEnd)
    case Some(steps) =>
      if !SumCheckAsWritten(steps, startOpt, endOpt) then Failure(BadTotal)
      else if ClampTotal(steps) > 0 && (startOpt < 1 || startOpt - 1 + ClampTotal(steps) > rows) then Failure(Overread)
      else Success(steps)
  }

  /** A line whose blocks cover no row is never an overread: computeAggedData
      then reads no row, whatever the window. */
  lemma NoRowsNoOverread(ints: seq<int>, loc: nat, startOpt: int, endOpt: int, rows: int)
    requires Line(ints, loc).Some? && ClampTotal(Line(ints, loc).value) == 0
    ensures LocSpec(ints, loc, startOpt, endOpt, rows) != Failure(Overread)
  {
  }

  /** The empty line `-1` for the window [-2, -3] passes line 770, since
      0 == -3 - (-2) + 1, and is accepted for any data. */
  lemma EmptyLineBeforeStart(rows: int)
    ensures LocSpec([-1], 0, -2, -3, rows) == Success([])
  {
    assert NextMinusOne([-1], 0) == 0;
    assert [-1][0..0] == [];
  }

  /** The corrected reading of a line: the sizes must also be non-negative. */
  function LocSpecChecked(ints: seq<int>, loc: nat, startOpt: int, endOpt: int): Result<seq<int>>
  {
    match Line(ints, loc)
    case None => Failure(MissingEnd)
    case Some(steps) =>
      if !SumCheckAsWritten(steps, startOpt, endOpt) then Failure(BadTotal)
      else if !NonNegative(steps) then Failure(NegativeSize)
      else Success(steps)
  }

  /** The corrected check accepts exactly the lines that the check as written
      accepts and whose sizes are non-negative, with the same sizes; those
      lines never overread, since their blocks end at row endOpt - 1. */
  lemma CheckedRefines(ints: seq<int>, loc: nat, startOpt: int, endOpt: int, rows: int)
    requires 1 <= startOpt && endOpt <= rows
    ensures LocSpecChecked(ints, loc, startOpt, endOpt).Success? <==>
              LocSpec(ints, loc, startOpt, endOpt, rows).Success?
              && NonNegative(LocSpec(ints, loc, startOpt, endOpt, rows).value)
    ensures LocSpecChecked(ints, loc, startOpt, endOpt).Success? ==>
              LocSpec(ints, loc, startOpt, endOpt, rows) == LocSpecChecked(ints, loc, startOpt, endOpt)
              && startOpt - 1 + ClampTotal(LocSpecChecked(ints, loc, startOpt, endOpt).value) == endOpt
  {
    match Line(ints, loc)
    case None =>
    case Some(steps) =>
      if SumCheckAsWritten(steps, startOpt, endOpt) && NonNegative(steps) {
        AggCheckRows(steps, startOpt, endOpt);
      }
  }

  datatype Result<T> = Success(value: T) | Failure(error: AggError)

  /** Whether agged holds the aggregation of the first numDataTypes columns of
      data by the block sizes steps, from the 1-indexed step startOpt on. */
  predicate AggedOk(agged: array2<real>, data: array2<real>, steps: seq<int>, startOpt: int,
                    numDataTypes: nat)
    reads agged, data
  {
    && agged.Length0 == |steps| && agged.Length1 == numDataTypes
    && Aggregated(agged, data, steps, startOpt, numDataTypes)
  }

  /** One location of readFileForAgg (lines 747-777): read its line from
      position pos, check it, and aggregate the location's data. next is the
      position after the line's -1. */
  method ReadAggLocation(ints: seq<int>, pos: nat, startOpt: int, endOpt: int,
                         data: array2<real>, numDataTypes: nat, ghost loc: nat)
    returns (r: Result<seq<int>>, agged: array2<real>, next: nat)
    requires LineStart(ints, loc) == Some(pos)
    requires numDataTypes <= data.Length1
    ensures r == LocSpec(ints, loc, startOpt, endOpt, data.Length0)
    ensures r.Success? ==> LineStart(ints, loc + 1) == Some(next)
    ensures fresh(agged)
    ensures r.Success? ==> AggedOk(agged, data, r.value, startOpt, numDataTypes)
  {
    agged := new real[0, numDataTypes];
    next := pos;
    var ok, count := CountValues(ints, pos);
    if !ok {
      return Failure(MissingEnd), agged, next;
    }
    var a, sum := FillValues(ints, pos, count);
    var steps := a[..];
    next := pos + count + 1;
    assert Line(ints, loc) == Some(steps);
    if sum != endOpt - startOpt + 1 {
      return Failure(BadTotal), agged, next;
    }
    if ClampTotal(steps) > 0 && (startOpt < 1 || startOpt - 1 + ClampTotal(steps) > data.Length0) {
      // the C code would read past the location's data here
      return Failure(Overread), agged, next;
    }
    agged := new real[count, numDataTypes];
    ComputeAggedData(agged, data, steps, startOpt, numDataTypes);
    r := Success(steps);
  }

  /** Largest entry of s, 0 for an empty s: maxCount of lines 745 and 757-758. */
  function MaxOf(s: seq<nat>): nat
  {
    if |s| == 0 then 0
    else
      var m := MaxOf(s[..|s| - 1]);
      if s[|s| - 1] > m then s[|s| - 1] else m
  }

  /** MaxOf is the maximum: no entry exceeds it, and a non-empty s attains it. */
  lemma {:induction false} MaxOfIsMax(s: seq<nat>)
    ensures forall i :: 0 <= i < |s| ==> s[i] <= MaxOf(s)
    ensures |s| > 0 ==> exists i :: 0 <= i < |s| && s[i] == MaxOf(s)
    ensures |s| == 0 ==> MaxOf(s) == 0
    decreases |s|
  {
    if |s| > 0 {
      var init := s[..|s| - 1];
      MaxOfIsMax(init);
      assert forall i :: 0 <= i < |init| ==> s[i] == init[i];
      if s[|s| - 1] <= MaxOf(init) && |init| > 0 {
        var j :| 0 <= j < |init| && init[j] == MaxOf(init);
        assert s[j] == MaxOf(s);
      }
    }
  }

  lemma MaxOfSnoc(s: seq<nat>, x: nat)
    ensures MaxOf(s + [x]) == if x > MaxOf(s) then x else MaxOf(s)
  {
    assert (s + [x])[..|s|] == s;
  }

  /** Location loc was read in full: its line is steps, of length n, and
      agged holds the aggregation of its data d. */
  predicate LocRead(ints: seq<int>, loc: nat, startOpt: int, endOpt: int, d: array2<real>,
                    numDataTypes: nat, steps: seq<int>, n: nat, agged: array2<real>)
    reads agged, d
  {
    && LocSpec(ints, loc, startOpt, endOpt, d.Length0) == Success(steps)
    && n == |steps|
    && AggedOk(agged, d, steps, startOpt, numDataTypes)
  }

  /** What readFileForAgg leaves in its globals: numAggSteps, aggSteps,
      aggedData and aggedModel. */
  datatype AggTables = AggTables(numAggSteps: seq<nat>, aggSteps: seq<seq<int>>,
                                 aggedData: seq<array2<real>>, aggedModel: array2<real>)

  /** The location loop of readFileForAgg (lines 746-778): every location in
      turn, stopping at the first whose line is missing its -1, fails the
      total check or would be read outside its data. On success the lines, their lengths and the fresh aggregated
      arrays of all locations, with maxCount the longest line. */
  method ReadLocations(ints: seq<int>, startOpt: seq<int>, endOpt: seq<int>,
                       data: seq<array2<real>>, numDataTypes: nat)
    returns (err: Option<AggError>, nums: seq<nat>, stepsAll: seq<seq<int>>,
             aggedAll: seq<array2<real>>, maxCount: nat, ghost failAt: nat)
    requires |startOpt| == |data| && |endOpt| == |data|
    requires forall loc :: 0 <= loc < |data| ==>
               numDataTypes <= data[loc].Length1
    ensures err.Some? ==>
              && failAt < |data|
              && LocSpec(ints, failAt, startOpt[failAt], endOpt[failAt], data[failAt].Length0) == Failure(err.value)
              && forall l :: 0 <= l < failAt ==> LocSpec(ints, l, startOpt[l], endOpt[l], data[l].Length0).Success?
    ensures err.None? ==>
              && |nums| == |data| && |stepsAll| == |data| && |aggedAll| == |data|
              && maxCount == MaxOf(nums)
              && (forall l :: 0 <= l < |data| ==> fresh(aggedAll[l]))
              && (forall l :: 0 <= l < |data| ==>
                    LocRead(ints, l, startOpt[l], endOpt[l], data[l], numDataTypes,
                            stepsAll[l], nums[l], aggedAll[l]))
  {
    nums, stepsAll, aggedAll, maxCount := [], [], [], 0;
    var pos := 0;
    var loc := 0;
    while loc < |data|
      invariant 0 <= loc <= |data|
      invariant LineStart(ints, loc) == Some(pos)
      invariant |nums| == loc && |stepsAll| == loc && |aggedAll| == loc
      invariant maxCount == MaxOf(nums)
      invariant forall l :: 0 <= l < loc ==> fresh(aggedAll[l])
      invariant forall l :: 0 <= l < loc ==>
                  LocRead(ints, l, startOpt[l], endOpt[l], data[l], numDataTypes, stepsAll[l], nums[l], aggedAll[l])
    {
      var s, agged, next := ReadAggLocation(ints, pos, startOpt[loc], endOpt[loc], data[loc], numDataTypes, loc);
      if s.Failure? {
        return Some(s.error), nums, stepsAll, aggedAll, maxCount, loc;
      }
      MaxOfSnoc(nums, |s.value|);
      if |s.value| > maxCount {
        maxCount := |s.value|;
      }
      nums := nums + [|s.value|];
      stepsAll := stepsAll + [s.value];
      aggedAll := aggedAll + [agged];
      pos := next;
      loc := loc + 1;
    }
    err, failAt := None, loc;
  }

  /** readFileForAgg (lines 733-784), with the check of line 770 as
      written: it succeeds exactly when every location passes, and fails with
      the error of the first location that does not. On success every
      location's block sizes are its line, aggregated data are fresh arrays
      holding the block sums of that location's data, and the model buffer
      has as many rows as the longest line. */
  method ReadFileForAgg(ints: seq<int>, startOpt: seq<int>, endOpt: seq<int>,
                        data: seq<array2<real>>, numDataTypes: nat)
    returns (r: Result<AggTables>)
    requires |startOpt| == |data| && |endOpt| == |data|
    requires forall loc :: 0 <= loc < |data| ==>
               numDataTypes <= data[loc].Length1
    ensures r.Success? <==>
              forall loc :: 0 <= loc < |data| ==> LocSpec(ints, loc, startOpt[loc], endOpt[loc], data[loc].Length0).Success?
    ensures r.Failure? ==>
              exists loc :: 0 <= loc < |data|
                && LocSpec(ints, loc, startOpt[loc], endOpt[loc], data[loc].Length0) == Failure(r.error)
                && forall l :: 0 <= l < loc ==> LocSpec(ints, l, startOpt[l], endOpt[l], data[l].Length0).Success?
    ensures r.Success? ==>
              var tb := r.value;
              && |tb.aggSteps| == |data| && |tb.numAggSteps| == |data| && |tb.aggedData| == |data|
              && (forall loc :: 0 <= loc < |data| ==> fresh(tb.aggedData[loc]))
              && (forall loc :: 0 <= loc < |data| ==>
                    LocRead(ints, loc, startOpt[loc], endOpt[loc], data[loc], numDataTypes,
                            tb.aggSteps[loc], tb.numAggSteps[loc], tb.aggedData[loc]))
              && fresh(tb.aggedModel)
              && tb.aggedModel.Length0 == MaxOf(tb.numAggSteps) && tb.aggedModel.Length1 == numDataTypes
  {
    var err, nums, stepsAll, aggedAll, maxCount, failAt := ReadLocations(ints, startOpt, endOpt, data, numDataTypes);
    if err.Some? {
      return Failure(err.value);
    }
    var aggedModel := new real[maxCount, numDataTypes];
    r := Success(AggTables(nums, stepsAll, aggedAll, aggedModel));
  }
}
