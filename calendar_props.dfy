/** What the calendar scan computes, stated on the day stream of a block:
    where the window starts and ends, that the per-day counts conserve the
    window length, that a `#n` is the same as writing the previous step count
    out n more times, and that the calendar day stays a valid date. */
module CalendarProps {
  import opened Sums
  import opened Calendar

  /** A block whose first token is a step count and which has a `-1` later:
      the blocks that the scan does not reject outright. */
  predicate HeaderOk(b: SpdBlock)
  {
    |b.toks| > 0 && b.toks[0].Steps? && End in b.toks[1..]
  }

  /** The day values after the header day, whose own value is b.toks[0].v. */
  function Days(b: SpdBlock): seq<int>
    requires |b.toks| > 0 && b.toks[0].Steps?
  {
    ExpandFrom(b.toks, 1, b.toks[0].v)
  }

  /** m is the first index at or after lo whose running total reaches target. */
  predicate ReachFrom(ds: seq<int>, acc: int, target: int, lo: nat, m: nat)
  {
    lo <= m <= |ds| && Cum(ds, acc, m) >= target
    && forall j :: lo <= j < m ==> Cum(ds, acc, j) < target
  }

  /** CountUntil returns exactly the first index whose running total reaches
      the target. */
  lemma CountUntilReach(ds: seq<int>, acc: int, target: int, n: nat)
    ensures CountUntil(ds, acc, target) == Some(n) <==> ReachFrom(ds, acc, target, 0, n)
  {
    CountUntilSpec(ds, acc, target);
  }

  /** Starting from index k with the running total at k is the same as
      starting from index 0. */
  lemma CumShift(ds: seq<int>, acc: int, k: nat, j: nat)
    requires k + j <= |ds|
    ensures Cum(ds[k..], Cum(ds, acc, k), j) == Cum(ds, acc, k + j)
  {
    assert ds[..k + j] == ds[..k] + ds[k..][..j];
    SumConcat(ds[..k], ds[k..][..j]);
  }

  /** The end search from day k: the count CountUntil returns on the rest of
      the stream is the distance to the first index from k on whose running
      total reaches the target, and None means no index from k on reaches
      it. */
  lemma CountUntilFrom(ds: seq<int>, acc: int, target: int, k: nat, m: nat)
    requires k <= |ds|
    ensures k <= m ==> (CountUntil(ds[k..], Cum(ds, acc, k), target) == Some(m - k)
                        <==> ReachFrom(ds, acc, target, k, m))
    ensures CountUntil(ds[k..], Cum(ds, acc, k), target) == None
            <==> forall j :: k <= j <= |ds| ==> Cum(ds, acc, j) < target
  {
    var tail := ds[k..];
    var s := Cum(ds, acc, k);
    forall j | 0 <= j <= |tail| {
      CumShift(ds, acc, k, j);
    }
    CountUntilSpec(tail, s, target);
    if k <= m {
      CountUntilReach(tail, s, target, m - k);
      if m <= |ds| {
        ReachShift(ds, acc, target, k, m);
      }
    }
    if forall j :: k <= j <= |ds| ==> Cum(ds, acc, j) < target {
      forall j | 0 <= j <= |tail|
        ensures Cum(tail, s, j) < target
      {
        assert Cum(ds, acc, k + j) < target;
      }
    } else {
      var j :| k <= j <= |ds| && Cum(ds, acc, j) >= target;
      assert Cum(tail, s, j - k) >= target;
    }
  }

  lemma ReachShift(ds: seq<int>, acc: int, target: int, k: nat, m: nat)
    requires k <= m <= |ds|
    ensures ReachFrom(ds[k..], Cum(ds, acc, k), target, 0, m - k) <==> ReachFrom(ds, acc, target, k, m)
  {
    var tail := ds[k..];
    var s := Cum(ds, acc, k);
    CumShift(ds, acc, k, m - k);
    if ReachFrom(ds, acc, target, k, m) {
      forall j | 0 <= j < m - k
        ensures Cum(tail, s, j) < target
      {
        CumShift(ds, acc, k, j);
        assert Cum(ds, acc, k + j) < target;
      }
    }
    if ReachFrom(tail, s, target, 0, m - k) {
      forall j | k <= j < m
        ensures Cum(ds, acc, j) < target
      {
        CumShift(ds, acc, k, j - k);
        assert Cum(tail, s, j - k) < target;
      }
    }
  }

  /** How the scan of a block fails: a block with no tokens, or with a step
      count first but no `-1`, misses its end; a `-1` or `#n` first is
      rejected; and when the header is fine, StartNotFound means that no
      running total of the block reaches startPt. */
  lemma ScanSpecErrors(b: SpdBlock, startPt: int, endPt: int)
    ensures ScanSpec(b, startPt, endPt) == Err(FirstNotSteps) <==> |b.toks| > 0 && !b.toks[0].Steps?
    ensures ScanSpec(b, startPt, endPt) == Err(MissingEnd)
            <==> |b.toks| == 0 || (b.toks[0].Steps? && End !in b.toks[1..])
    ensures ScanSpec(b, startPt, endPt) == Err(StartNotFound)
            <==> HeaderOk(b) && forall j :: 0 <= j <= |Days(b)| ==> Cum(Days(b), b.toks[0].v, j) < startPt
  {
    if HeaderOk(b) {
      var ds := Days(b);
      var v0 := b.toks[0].v;
      assert ds[0..] == ds;
      assert Cum(ds, v0, 0) == Cum(ds[0..], Cum(ds, v0, 0), 0);
      CountUntilFrom(ds, v0, startPt, 0, 0);
      assert Cum(ds, v0, 0) == v0 by {
        assert ds[..0] == [];
      }
      match CountUntil(ds, v0, startPt)
      case None =>
      case Some(k) =>
        match WindowSpec(AdvanceDays(Date(b.year, b.julianDay), k), Cum(ds, v0, k), ds[k..],
                         startPt, endPt)
        case Ok(_) =>
        case Err(e) =>
    }
  }

  /** Once the window starts on day k (the first day whose running total
      reaches startPt), the scan ends on day m exactly when m is the first day
      from k on whose running total reaches endPt, and then the window starts
      on the k-th day after the header's date, has m - k + 1 days, and keeps
      the day values between k and m with the first and the last trimmed; the
      scan fails with EndNotFound exactly when no day from k on reaches
      endPt. */
  lemma ScanSpecWindow(b: SpdBlock, startPt: int, endPt: int, k: nat, m: nat)
    requires HeaderOk(b) && ReachFrom(Days(b), b.toks[0].v, startPt, 0, k)
    ensures k <= m <= |Days(b)| ==>
              (ScanSpec(b, startPt, endPt)
                 == Ok(CalendarInfo(AdvanceDays(Date(b.year, b.julianDay), k), m - k + 1,
                                    DayCounts(Cum(Days(b), b.toks[0].v, k), Days(b)[k..m],
                                              startPt, endPt)))
               <==> ReachFrom(Days(b), b.toks[0].v, endPt, k, m))
    ensures ScanSpec(b, startPt, endPt) == Err(EndNotFound)
            <==> forall j :: k <= j <= |Days(b)| ==> Cum(Days(b), b.toks[0].v, j) < endPt
    ensures ScanSpec(b, startPt, endPt).Ok? ==>
              ScanSpec(b, startPt, endPt).value.start == AdvanceDays(Date(b.year, b.julianDay), k)
  {
    var ds := Days(b);
    var v0 := b.toks[0].v;
    CountUntilReach(ds, v0, startPt, k);
    CountUntilFrom(ds, v0, endPt, k, m);
    if k <= m <= |ds| {
      assert ds[k..][..m - k] == ds[k..m];
    }
  }

  /** Line 684 and line 706 together: the per-day counts of a window always
      add up to its length endPt - startPt + 1, whatever the running total
      s0 at the end of the first day and the middle days are. */
  lemma DayCountsSum(s0: int, mids: seq<int>, startPt: int, endPt: int)
    ensures |DayCounts(s0, mids, startPt, endPt)| == |mids| + 1
    ensures Sum(DayCounts(s0, mids, startPt, endPt)) == endPt - startPt + 1
  {
    var raw := [s0 - startPt + 1] + mids;
    SumConcat([s0 - startPt + 1], mids);
    assert Sum([s0 - startPt + 1]) == s0 - startPt + 1 by {
      assert [s0 - startPt + 1][..0] == [];
    }
    SumUpdateLast(raw, raw[|raw| - 1] - (s0 + Sum(mids) - endPt));
  }

  /** The parts of a successful scan: the start day k, the number n of days
      after it, and the descriptor built from them. */
  lemma ScanSpecParts(b: SpdBlock, startPt: int, endPt: int) returns (k: nat, n: nat)
    requires ScanSpec(b, startPt, endPt).Ok?
    ensures HeaderOk(b) && CountUntil(Days(b), b.toks[0].v, startPt) == Some(k)
    ensures var s0 := Cum(Days(b), b.toks[0].v, k);
            && CountUntil(Days(b)[k..], s0, endPt) == Some(n)
            && ScanSpec(b, startPt, endPt).value
               == CalendarInfo(AdvanceDays(Date(b.year, b.julianDay), k), n + 1,
                               DayCounts(s0, Days(b)[k..][..n], startPt, endPt))
  {
    var ds := Days(b);
    var v0 := b.toks[0].v;
    k :| CountUntil(ds, v0, startPt) == Some(k);
    n :| CountUntil(ds[k..], Cum(ds, v0, k), endPt) == Some(n);
  }

  /** A successful scan yields exactly numDays per-day counts, at least one,
      and they add up to the window length. */
  lemma ScanConservation(b: SpdBlock, startPt: int, endPt: int)
    requires ScanSpec(b, startPt, endPt).Ok?
    ensures var c := ScanSpec(b, startPt, endPt).value;
            c.numDays >= 1 && |c.spd| == c.numDays && Sum(c.spd) == endPt - startPt + 1
  {
    var k, n := ScanSpecParts(b, startPt, endPt);
    DayCountsSum(Cum(Days(b), b.toks[0].v, k), Days(b)[k..][..n], startPt, endPt);
  }

  /** Every value of the day stream is a step count of the block or the
      header's value, so with no negative step count none is negative. */
  predicate NonNegSteps(toks: seq<Token>)
  {
    forall i :: 0 <= i < |toks| && toks[i].Steps? ==> toks[i].v >= 0
  }

  lemma {:induction false} ExpandNonNeg(toks: seq<Token>, i: nat, last: int)
    requires NonNegSteps(toks) && last >= 0
    ensures forall j :: 0 <= j < |ExpandFrom(toks, i, last)| ==> ExpandFrom(toks, i, last)[j] >= 0
    decreases |toks| - i
  {
    if i < |toks| {
      match toks[i]
      case End =>
      case Repeat(n) =>
        ExpandNonNeg(toks, i + 1, last);
        forall j | 0 <= j < |Rep(last, n)| {
          RepAt(last, n, j);
        }
      case Steps(v) =>
        ExpandNonNeg(toks, i + 1, v);
    }
  }

  /** The trims at lines 684 and 706 never overshoot: when the first day's
      total s0 has reached startPt, the total before the last day is still
      below endPt and no middle day is negative, the first and the last count
      are at least one and none is negative. */
  lemma DayCountsPositive(s0: int, mids: seq<int>, startPt: int, endPt: int)
    requires s0 >= startPt && startPt <= endPt
    requires forall i :: 0 <= i < |mids| ==> mids[i] >= 0
    requires |mids| > 0 ==> s0 + Sum(mids[..|mids| - 1]) < endPt
    ensures var spd := DayCounts(s0, mids, startPt, endPt);
            && |spd| == |mids| + 1 && spd[0] >= 1 && spd[|spd| - 1] >= 1
            && forall i :: 0 <= i < |spd| ==> spd[i] >= 0
  {
    if |mids| > 0 {
      assert Sum(mids) == Sum(mids[..|mids| - 1]) + mids[|mids| - 1];
    }
  }

  /** With no negative step count and startPt <= endPt, the first and the last
      day of the window get at least one step and no day gets a negative
      count. */
  lemma ScanCountsPositive(b: SpdBlock, startPt: int, endPt: int)
    requires ScanSpec(b, startPt, endPt).Ok? && NonNegSteps(b.toks) && startPt <= endPt
    ensures var spd := ScanSpec(b, startPt, endPt).value.spd;
            && spd[0] >= 1 && spd[|spd| - 1] >= 1
            && forall i :: 0 <= i < |spd| ==> spd[i] >= 0
  {
    var ds := Days(b);
    var v0 := b.toks[0].v;
    ExpandNonNeg(b.toks, 1, v0);
    var k, n := ScanSpecParts(b, startPt, endPt);
    CountUntilSpec(ds, v0, startPt);
    var s0 := Cum(ds, v0, k);
    var tail := ds[k..];
    CountUntilSpec(tail, s0, endPt);
    var mids := tail[..n];
    if n > 0 {
      assert mids[..n - 1] == tail[..n - 1];
      assert Cum(tail, s0, n - 1) < endPt;
    }
    DayCountsPositive(s0, mids, startPt, endPt);
  }

  // ---------------------------------------------------------------------
  // `#n` as n copies of the previous step count

  /** Each day value written out as its own step-count token. */
  function StepsOf(ds: seq<int>): (r: seq<Token>)
    ensures |r| == |ds| && forall i :: 0 <= i < |ds| ==> r[i] == Steps(ds[i])
  {
    if |ds| == 0 then [] else StepsOf(ds[..|ds| - 1]) + [Steps(ds[|ds| - 1])]
  }

  /** The block with every day written out and no `#n`. */
  function Flattened(b: SpdBlock): SpdBlock
    requires |b.toks| > 0 && b.toks[0].Steps?
  {
    SpdBlock(b.year, b.julianDay, [b.toks[0]] + StepsOf(Days(b)) + [End])
  }

  /** A block of plain step counts stands for exactly those values. */
  lemma {:induction false} ExpandSteps(t0: Token, ds: seq<int>, i: nat, last: int)
    requires 1 <= i <= |ds| + 1
    ensures ExpandFrom([t0] + StepsOf(ds) + [End], i, last) == ds[i - 1..]
    decreases |ds| + 1 - i
  {
    var f := [t0] + StepsOf(ds) + [End];
    if i == |ds| + 1 {
      assert f[i] == End;
    } else {
      assert f[i] == Steps(ds[i - 1]);
      ExpandSteps(t0, ds, i + 1, ds[i - 1]);
      assert ds[i - 1..] == [ds[i - 1]] + ds[i..];
    }
  }

  /** The scan treats each `#n` as n more copies of the step count before
      it, also when the window starts or ends inside a repeat: the block with
      every day written out scans to the same result. */
  lemma ScanFlatten(b: SpdBlock, startPt: int, endPt: int)
    requires HeaderOk(b)
    ensures ScanSpec(Flattened(b), startPt, endPt) == ScanSpec(b, startPt, endPt)
  {
    var f := Flattened(b);
    var ds := Days(b);
    ExpandSteps(b.toks[0], ds, 1, b.toks[0].v);
    assert ds[0..] == ds;
    assert f.toks[1..][|ds|] == End;
  }

  /** "2 #3" is the same block as "2 2 2 2". */
  lemma RepeatExample(year: int, julianDay: int, startPt: int, endPt: int)
    ensures ScanSpec(SpdBlock(year, julianDay, [Steps(2), Repeat(3), End]), startPt, endPt)
         == ScanSpec(SpdBlock(year, julianDay, [Steps(2), Steps(2), Steps(2), Steps(2), End]),
                     startPt, endPt)
  {
    var b1 := SpdBlock(year, julianDay, [Steps(2), Repeat(3), End]);
    var b2 := SpdBlock(year, julianDay, [Steps(2), Steps(2), Steps(2), Steps(2), End]);
    assert Rep(2, 3) == [2, 2, 2];
    assert Days(b1) == [2, 2, 2] == Days(b2);
    assert End in b1.toks[1..] && End in b2.toks[1..];
  }

  // ---------------------------------------------------------------------
  // Calendar days

  predicate ValidDate(d: Date)
  {
    1 <= d.julianDay <= DaysInYear(d.year)
  }

  /** Moving k days on from a valid date gives a valid date, in the year
      of the start or later. */
  lemma {:induction false} AdvanceValid(d: Date, k: nat)
    requires ValidDate(d)
    ensures ValidDate(AdvanceDays(d, k)) && AdvanceDays(d, k).year >= d.year
  {
    if k > 0 {
      AdvanceValid(d, k - 1);
      NextDayWraps(AdvanceDays(d, k - 1));
    }
  }
}
