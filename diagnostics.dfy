/** The structural part of aggregates (lines 310-380): the daily rollup of
    the model output driven by the steps-per-day calendar, and the walk that
    puts every day into a year bucket; with the OutputInfo records it fills,
    newOutputInfo that allocates them and copyOutputInfo. */
module Diagnostics {
  import opened Sums
  import opened Calendar
  import opened Aggregation
  import opened CalendarProps

  /** One entry of the C outputInfo array: the two error measures, and the
      yearly totals years[0..numYears-1]. */
  class OutputInfo {
    var meanError: real
    var daysError: real
    var numYears: int
    var years: array<real>

    /** An entry whose years buffer holds size values (the C fields are left
        uninitialised by malloc; here they start at zero). */
    constructor (size: nat)
      ensures fresh(years) && years.Length == size && numYears == 0
    {
      meanError := 0.0;
      daysError := 0.0;
      numYears := 0;
      years := new real[size];
    }
  }

  /** The years buffer size of line 796: the most years numDays days can
      touch. */
  function YearsBound(numDays: nat): nat
  {
    numDays / 365 + 2
  }

  /** newOutputInfo (lines 789-801): numDataTypes entries, each with its own
      fresh years buffer of YearsBound(numDays) values. */
  method NewOutputInfo(numDataTypes: nat, numDays: nat) returns (infos: seq<OutputInfo>)
    ensures |infos| == numDataTypes
    ensures forall i :: 0 <= i < numDataTypes ==>
              fresh(infos[i]) && fresh(infos[i].years) && infos[i].years.Length == YearsBound(numDays)
    ensures forall i, k :: 0 <= i < k < numDataTypes ==>
              infos[i] != infos[k] && infos[i].years != infos[k].years
  {
    infos := [];
    var i := 0;
    while i < numDataTypes
      invariant 0 <= i <= numDataTypes && |infos| == i
      invariant forall l :: 0 <= l < i ==>
                  fresh(infos[l]) && fresh(infos[l].years) && infos[l].years.Length == YearsBound(numDays)
      invariant forall l, k :: 0 <= l < k < i ==> infos[l] != infos[k] && infos[l].years != infos[k].years
    {
      var o := new OutputInfo(YearsBound(numDays));
      infos := infos + [o];
      i := i + 1;
    }
  }

  // ---------------------------------------------------------------------
  // The daily rollup

  /** The daily loop of lines 334-345: day d is the sum of the spd[d] model
      rows that follow those of the earlier days, from row startPt - 1 on. It
      is the block aggregation of computeAggedData with the days as the
      blocks. */
  method DailyTotals(model: array2<real>, dataNum: nat, spd: seq<int>, startPt: int)
    returns (modelD: array<real>)
    requires dataNum < model.Length1
    requires 1 <= startPt && startPt - 1 + ClampTotal(spd) <= model.Length0
    ensures fresh(modelD)
    ensures modelD[..] == BlockSums(Col(model, dataNum), spd, startPt - 1)
  {
    modelD := new real[|spd|];
    ghost var col := Col(model, dataNum);
    var lo := startPt - 1;
    var index := lo;
    var day := 0;
    assert spd[..0] == [];
    forall d | 0 <= d <= |spd|
      ensures ClampTotal(spd[..d]) <= ClampTotal(spd)
    {
      ClampTotalPrefix(spd, d);
    }
    while day < |spd|
      invariant 0 <= day <= |spd|
      invariant index == lo + ClampTotal(spd[..day])
      invariant forall d :: 0 <= d < day ==>
                  modelD[d] == RangeSum(col, lo + ClampTotal(spd[..d]), lo + ClampTotal(spd[..d + 1]))
    {
      ClampTotalSnoc(spd, day);
      var index0 := index;
      var net := 0.0;
      var j := 0;
      while j < spd[day]
        invariant 0 <= j <= Clamp(spd[day]) && index == index0 + j
        invariant net == RangeSum(col, index0, index)
      {
        net := net + model[index, dataNum];
        index := index + 1;
        j := j + 1;
      }
      modelD[day] := net;
      day := day + 1;
    }
    forall d | 0 <= d < |spd|
      ensures modelD[d] == BlockSums(col, spd, lo)[d]
    {
      BlockSumsAt(col, spd, lo, d);
    }
  }

  /** For a calendar the scanner produced from non-negative step counts, the
      daily rollup reads exactly the model rows of the comparison window,
      startPt - 1 to endPt - 1. */
  lemma ScanRowsExact(b: SpdBlock, startPt: int, endPt: int)
    requires ScanSpec(b, startPt, endPt).Ok? && NonNegSteps(b.toks) && startPt <= endPt
    ensures startPt - 1 + ClampTotal(ScanSpec(b, startPt, endPt).value.spd) == endPt
  {
    ScanConservation(b, startPt, endPt);
    ScanCountsPositive(b, startPt, endPt);
    ClampTotalNonNeg(ScanSpec(b, startPt, endPt).value.spd);
  }

  // ---------------------------------------------------------------------
  // Year buckets

  /** Days the walk of lines 360-365 puts into the bucket of a year that it
      enters on julian day j with n days left: up to the year's last day
      (365, or 366 when year % 4 == 0), none when j is already past it. */
  function FirstYearDays(n: nat, year: int, j: int): nat
  {
    if j > DaysInYear(year) then 0
    else if n < DaysInYear(year) - j + 1 then n
    else DaysInYear(year) - j + 1
  }

  /** The sizes of the year buckets of n days starting on julian day j of
      year: after the first bucket, every year is entered on day 1. */
  function YearSizes(n: nat, year: int, j: int): seq<int>
    decreases n, if j == 1 then 0 else 1
  {
    if n == 0 then []
    else
      var k := FirstYearDays(n, year, j);
      [k] + YearSizes(n - k, year + 1, 1)
  }

  lemma YearSizesHead(n: nat, year: int, j: int)
    requires n > 0
    ensures YearSizes(n, year, j)
         == [FirstYearDays(n, year, j)] + YearSizes(n - FirstYearDays(n, year, j), year + 1, 1)
  {
  }

  /** The buckets take every day once: their sizes are non-negative and add up
      to n. */
  lemma {:induction false} YearSizesTotal(n: nat, year: int, j: int)
    ensures ClampTotal(YearSizes(n, year, j)) == n
    ensures forall i :: 0 <= i < |YearSizes(n, year, j)| ==> YearSizes(n, year, j)[i] >= 0
    decreases n, if j == 1 then 0 else 1
  {
    if n > 0 {
      var k := FirstYearDays(n, year, j);
      YearSizesTotal(n - k, year + 1, 1);
      ClampTotalConcat([k], YearSizes(n - k, year + 1, 1));
      assert [k][..0] == [];
    }
  }

  /** The bucket of a year entered on day 1 is the whole year, or the rest of
      the days when fewer remain. */
  lemma {:induction false} YearSizesFromDayOne(n: nat, year: int)
    ensures |YearSizes(n, year, 1)| <= (n + 364) / 365
    decreases n
  {
    if n > 0 {
      var k := FirstYearDays(n, year, 1);
      assert k >= 365 || k == n;
      YearSizesFromDayOne(n - k, year + 1);
    }
  }

  /** n >= 1 days fill at least one bucket and at most n / 365 + 2, the size
      of the buffer newOutputInfo allocates at line 796. */
  lemma YearSizesCount(n: nat, year: int, j: int)
    ensures n >= 1 ==> |YearSizes(n, year, j)| >= 1
    ensures |YearSizes(n, year, j)| <= YearsBound(n)
  {
    if n > 0 {
      var k := FirstYearDays(n, year, j);
      YearSizesFromDayOne(n - k, year + 1);
      if j == 1 {
        YearSizesFromDayOne(n, year);
      }
    }
  }

  /** A bucket strictly between the first and the last is a whole year. */
  lemma {:induction false} YearSizesWholeYears(n: nat, year: int, j: int, i: nat)
    requires 0 < i < |YearSizes(n, year, j)| - 1
    ensures YearSizes(n, year, j)[i] == DaysInYear(year + i)
    decreases n, if j == 1 then 0 else 1
  {
    var k := FirstYearDays(n, year, j);
    var rest := YearSizes(n - k, year + 1, 1);
    assert YearSizes(n, year, j)[i] == rest[i - 1];
    if i == 1 {
      var k2 := FirstYearDays(n - k, year + 1, 1);
      assert rest == [k2] + YearSizes(n - k - k2, year + 2, 1);
      assert n - k - k2 != 0;
    } else {
      YearSizesWholeYears(n - k, year + 1, 1, i - 1);
    }
  }

  /** The yearly totals of lines 358-375: bucket i is the sum of the days of
      the i-th year the window touches. */
  function YearTotals(daily: seq<real>, start: Date): (r: seq<real>)
    ensures |r| == |YearSizes(|daily|, start.year, start.julianDay)|
  {
    YearSizesTotal(|daily|, start.year, start.julianDay);
    BlockSums(daily, YearSizes(|daily|, start.year, start.julianDay), 0)
  }

  /** Each day lies in a year bucket: the buckets follow the days in order,
      bucket i holding days [C(i), C(i + 1)), where C(i) is the number of days
      in the buckets before it. */
  lemma DayInYear(n: nat, year: int, j: int, d: nat)
    requires d < n
    ensures exists i :: 0 <= i < |YearSizes(n, year, j)|
              && ClampTotal(YearSizes(n, year, j)[..i]) <= d < ClampTotal(YearSizes(n, year, j)[..i + 1])
  {
    var sizes := YearSizes(n, year, j);
    YearSizesTotal(n, year, j);
    assert sizes[..0] == [];
    BlockCover(sizes, d, 0);
  }

  /** ... and in only one. */
  lemma DayInOneYear(n: nat, year: int, j: int, d: nat, i: nat, k: nat)
    requires i < |YearSizes(n, year, j)|
    requires ClampTotal(YearSizes(n, year, j)[..i]) <= d < ClampTotal(YearSizes(n, year, j)[..i + 1])
    requires k < |YearSizes(n, year, j)|
    requires ClampTotal(YearSizes(n, year, j)[..k]) <= d < ClampTotal(YearSizes(n, year, j)[..k + 1])
    ensures i == k
  {
    BlockUnique(YearSizes(n, year, j), d, i, k);
  }

  /** The year totals add up to the daily totals. */
  lemma YearTotalsConserve(daily: seq<real>, start: Date)
    ensures SumR(YearTotals(daily, start)) == SumR(daily)
  {
    var sizes := YearSizes(|daily|, start.year, start.julianDay);
    YearSizesTotal(|daily|, start.year, start.julianDay);
    BlockSumsTotal(daily, sizes, 0);
    RangeSumAll(daily, |daily|);
    assert daily[..|daily|] == daily;
  }

  /** The inner walk of lines 360-365: from day day0, entered on julian day
      j0 of year, add up the days up to the end of that year or of the
      window. */
  method YearTotal(modelD: array<real>, day0: nat, year: int, j0: int) returns (net: real, day: nat)
    requires day0 <= modelD.Length
    ensures day == day0 + FirstYearDays(modelD.Length - day0, year, j0) <= modelD.Length
    ensures net == RangeSum(modelD[..], day0, day)
  {
    var julianDay := j0;
    day := day0;
    net := 0.0;
    while julianDay <= DaysInYear(year) && day < modelD.Length
      invariant day0 <= day <= modelD.Length && julianDay == j0 + (day - day0)
      invariant j0 > DaysInYear(year) ==> day == day0
      invariant j0 <= DaysInYear(year) ==> julianDay <= DaysInYear(year) + 1
      invariant net == RangeSum(modelD[..], day0, day)
    {
      net := net + modelD[day];
      day := day + 1;
      julianDay := julianDay + 1;
    }
  }

  /** The year walk of lines 353-376 over the daily totals modelD, starting
      on the given date: it writes the year totals into years[0..numYears-1]
      and nothing past them. */
  method YearBuckets(modelD: array<real>, start: Date, years: array<real>) returns (numYears: nat)
    modifies years
    requires modelD != years
    requires years.Length >= YearsBound(modelD.Length)
    ensures numYears == |YearTotals(modelD[..], start)| <= years.Length
    ensures years[..numYears] == YearTotals(modelD[..], start)
    ensures forall k :: numYears <= k < years.Length ==> years[k] == old(years[k])
  {
    var n := modelD.Length;
    ghost var col := modelD[..];
    ghost var all := YearSizes(n, start.year, start.julianDay);
    YearSizesCount(n, start.year, start.julianDay);
    ghost var done: seq<int> := [];
    var day := 0;
    var julianDay := start.julianDay;
    var year := start.year;
    var yearIndex := 0;
    while day < n
      invariant 0 <= day <= n && |done| == yearIndex
      invariant done + YearSizes(n - day, year, julianDay) == all
      invariant ClampTotal(done) == day
      invariant years[..yearIndex] == BlockSums(col, done, 0)
      invariant forall k :: yearIndex <= k < years.Length ==> years[k] == old(years[k])
      decreases n - day, if julianDay == 1 then 0 else 1
    {
      var net, next := YearTotal(modelD, day, year, julianDay);
      ghost var k := next - day;
      WalkStep(done, all, n, day, year, julianDay, next);
      years[yearIndex] := net;
      YearStep(col, done, k);
      done := done + [k];
      day := next;
      julianDay := 1;
      year := year + 1;
      yearIndex := yearIndex + 1;
    }
    assert done == all;
    YearSizesTotal(n, start.year, start.julianDay);
    numYears := yearIndex;
  }

  /** One year of the walk: the bucket just found is the next size of the
      walk, and the rest of the walk starts on day 1 of the next year. */
  lemma WalkStep(done: seq<int>, all: seq<int>, n: nat, day: nat, year: int, j: int, next: nat)
    requires day < n && done + YearSizes(n - day, year, j) == all
    requires next == day + FirstYearDays(n - day, year, j) <= n
    ensures (done + [next - day]) + YearSizes(n - next, year + 1, 1) == all
  {
    YearSizesHead(n - day, year, j);
    assert (done + [next - day]) + YearSizes(n - next, year + 1, 1)
        == done + ([next - day] + YearSizes(n - next, year + 1, 1));
  }

  /** Appending a bucket of k days appends their sum to the totals. */
  lemma YearStep(col: seq<real>, done: seq<int>, k: nat)
    requires ClampTotal(done) + k <= |col|
    ensures ClampTotal(done + [k]) == ClampTotal(done) + k
    ensures BlockSums(col, done + [k], 0)
         == BlockSums(col, done, 0) + [RangeSum(col, ClampTotal(done), ClampTotal(done) + k)]
  {
    assert (done + [k])[..|done|] == done;
  }

  /** aggregates (lines 310-380) for data type dataNum of one location, whose
      calendar is info: the daily totals of the model column, then their year
      totals in out.years[0..numYears-1]. */
  method Aggregates(out: OutputInfo, model: array2<real>, info: AggregateInfo, dataNum: nat)
    modifies out, out.years
    requires dataNum < model.Length1 && |info.spd| == info.numDays
    requires 1 <= info.startPt && info.startPt - 1 + ClampTotal(info.spd) <= model.Length0
    requires out.years.Length >= YearsBound(info.numDays)
    ensures out.years == old(out.years)
    ensures out.meanError == old(out.meanError) && out.daysError == old(out.daysError)
    ensures var totals := YearTotals(BlockSums(Col(model, dataNum), info.spd, info.startPt - 1),
                                     Date(info.startYear, info.startDay));
            out.numYears == |totals| <= out.years.Length && out.years[..out.numYears] == totals
    ensures forall k :: out.numYears <= k < out.years.Length ==> out.years[k] == old(out.years[k])
  {
    var modelD := DailyTotals(model, dataNum, info.spd, info.startPt);
    var n := YearBuckets(modelD, Date(info.startYear, info.startDay), out.years);
    out.numYears := n;
  }

  /** copyOutputInfo (lines 805-814): the error measures, numYears, and the
      first numYears yearly totals; the rest of out.years is left alone. */
  method CopyOutputInfo(out: OutputInfo, inp: OutputInfo)
    modifies out, out.years
    requires Clamp(inp.numYears) <= inp.years.Length && Clamp(inp.numYears) <= out.years.Length
    ensures out.years == old(out.years)
    ensures out.meanError == old(inp.meanError) && out.daysError == old(inp.daysError)
    ensures out.numYears == old(inp.numYears)
    ensures forall k :: 0 <= k < Clamp(out.numYears) ==> out.years[k] == old(inp.years[k])
    ensures forall k :: Clamp(out.numYears) <= k < out.years.Length ==> out.years[k] == old(out.years[k])
  {
    var src := inp.years;
    out.meanError := inp.meanError;
    out.daysError := inp.daysError;
    out.numYears := inp.numYears;
    var i := 0;
    while i < out.numYears
      invariant 0 <= i <= Clamp(out.numYears) && out.numYears == old(inp.numYears)
      invariant out.meanError == old(inp.meanError) && out.daysError == old(inp.daysError)
      invariant out.years == old(out.years) && src == old(inp.years)
      invariant forall k :: 0 <= k < i ==> out.years[k] == old(src[k])
      invariant forall k :: i <= k < out.years.Length ==> out.years[k] == old(out.years[k])
      invariant forall k :: i <= k < src.Length ==> src[k] == old(src[k])
    {
      out.years[i] := src[i];
      i := i + 1;
    }
  }
}
