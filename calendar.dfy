/** The steps-per-day calendar of one location: the `.spd` block scanner of
    readData (paramchange.c:592-712) together with parseSpdValue.

    A block is its header `year julianDay` followed by tokens: a step count, a
    `#n` repeat directive ("the previous step count n more times") or the
    terminator `-1`. The file position of the C code is an index into the
    token sequence. The scanner runs in three phases (seek, measure, rewind and
    fill) and then drains the block up to its `-1`; each phase is one method
    below, and ScanSpec is the reference they are proved against. */
module Calendar {
  import opened Sums

  datatype Token = End | Repeat(n: int) | Steps(v: int)

  datatype SpdBlock = SpdBlock(year: int, julianDay: int, toks: seq<Token>)

  /** The fatal errors of the scan: `exit(1)` at lines 606-608, 615-617 and
      663-666, and a block that runs out of tokens before its `-1`. */
  datatype SpdError = FirstNotSteps | StartNotFound | EndNotFound | MissingEnd

  datatype Result<T> = Ok(value: T) | Err(error: SpdError)

  datatype Option<T> = None | Some(value: T)

  /** The out-parameters of parseSpdValue: return code, *spd and *count. */
  datatype Parsed = Parsed(status: int, spd: int, count: int)

  /** parseSpdValue: `-1` gives -1 and leaves both spd and count as they were;
      `#n` gives 0, keeps spd and sets count to n; a step count v gives 1 and
      sets spd to v and count to 1. */
  function ParseSpdValue(t: Token, spd: int, count: int): Parsed
  {
    match t
    case End => Parsed(-1, spd, count)
    case Repeat(n) => Parsed(0, spd, n)
    case Steps(v) => Parsed(1, v, 1)
  }

  /** The three results of parseSpdValue (lines 425-443): the return code
      tells the token kinds apart, `-1` leaves spd and count alone, `#n`
      keeps spd and sets count to n, a step count v sets spd to v and count
      to 1. */
  lemma ParseSpdValueCases(t: Token, spd: int, count: int)
    ensures var r := ParseSpdValue(t, spd, count);
            && (r.status == -1 <==> t.End?)
            && (r.status == 0 <==> t.Repeat?)
            && (r.status == 1 <==> t.Steps?)
            && (t.End? ==> r.spd == spd && r.count == count)
            && (t.Repeat? ==> r.spd == spd && r.count == t.n)
            && (t.Steps? ==> r.spd == t.v && r.count == 1)
  {
  }

  // ---------------------------------------------------------------------
  // The day stream

  /** The per-day step counts that the tokens from index i on stand for, up
      to the first `-1`, when the last step count read before them was
      `last`. */
  function ExpandFrom(toks: seq<Token>, i: nat, last: int): seq<int>
    decreases |toks| - i
  {
    if i >= |toks| then []
    else
      match toks[i]
      case End => []
      case Repeat(n) => Rep(last, n) + ExpandFrom(toks, i + 1, last)
      case Steps(v) => [v] + ExpandFrom(toks, i + 1, v)
  }

  /** Index of the first `-1` at or after i, or |toks| when there is none. */
  function FirstEnd(toks: seq<Token>, i: nat): (e: nat)
    requires i <= |toks|
    ensures i <= e <= |toks|
    ensures forall j :: i <= j < e ==> toks[j] != End
    ensures e < |toks| ==> toks[e] == End
    decreases |toks| - i
  {
    if i == |toks| || toks[i] == End then i else FirstEnd(toks, i + 1)
  }

  lemma HasEndIff(toks: seq<Token>)
    requires |toks| >= 1
    ensures End in toks[1..] <==> FirstEnd(toks, 1) < |toks|
  {
    var e := FirstEnd(toks, 1);
    if e < |toks| {
      assert toks[1..][e - 1] == End;
    } else {
      forall i | 0 <= i < |toks| - 1
        ensures toks[1..][i] != End
      {
        assert toks[1..][i] == toks[i + 1];
      }
    }
  }

  /** The day values still to come in scanner state (pos, spd, count): the
      count copies of spd left over from the current token, then what the
      tokens from pos up to the first `-1` (index e) stand for. */
  function Pending(toks: seq<Token>, e: nat, pos: nat, spd: int, count: int): seq<int>
    requires pos <= |toks|
  {
    Rep(spd, count) + (if pos <= e then ExpandFrom(toks, pos, spd) else [])
  }

  /** Reading one more token when no repeat is pending does not change the
      day values still to come, and the token read is the `-1` exactly when
      pos is the first `-1` of the block. */
  lemma ReadStep(toks: seq<Token>, pos: nat, spd: int, count: int)
    requires 1 <= pos < |toks|
    requires pos <= FirstEnd(toks, 1)
    requires count <= 0
    ensures ParseSpdValue(toks[pos], spd, count).status == -1 <==> pos == FirstEnd(toks, 1)
    ensures ParseSpdValue(toks[pos], spd, count).status == -1 ==> ParseSpdValue(toks[pos], spd, count).count == count
    ensures Pending(toks, FirstEnd(toks, 1), pos + 1, ParseSpdValue(toks[pos], spd, count).spd,
                    ParseSpdValue(toks[pos], spd, count).count)
         == Pending(toks, FirstEnd(toks, 1), pos, spd, count)
  {
    var p := ParseSpdValue(toks[pos], spd, count);
    if p.status == 1 {
      assert Rep(p.spd, 1) == [p.spd];
    }
  }

  // ---------------------------------------------------------------------
  // Running totals

  /** How many more day values, taken from ds onto the running total acc, it
      takes until the total reaches target; None when ds runs out first. */
  function CountUntil(ds: seq<int>, acc: int, target: int): (r: Option<nat>)
    ensures r.Some? ==> r.value <= |ds|
  {
    if acc >= target then Some(0)
    else if |ds| == 0 then None
    else
      match CountUntil(ds[1..], acc + ds[0], target)
      case None => None
      case Some(n) => Some(n + 1)
  }

  /** One day of a pending repeat: when count copies of spd followed by tl
      are the day values from index c of ds on, day c has value spd and the
      running total moves on by it. */
  lemma RepStep(spd: int, count: int, tl: seq<int>, ds: seq<int>, acc: int, c: nat)
    requires count > 0
    requires c <= |ds| && Rep(spd, count) + tl == ds[c..]
    ensures c < |ds| && ds[c] == spd
    ensures Rep(spd, count - 1) + tl == ds[c + 1..]
    ensures Cum(ds, acc, c + 1) == Cum(ds, acc, c) + spd
  {
    assert Rep(spd, count) == [spd] + Rep(spd, count - 1);
    assert ds[c..] == [spd] + (Rep(spd, count - 1) + tl);
    assert ds[c] == ds[c..][0];
    assert ds[c + 1..] == ds[c..][1..];
    SumSnoc(ds, c);
  }

  /** acc plus the first j day values of ds. */
  function Cum(ds: seq<int>, acc: int, j: nat): int
    requires j <= |ds|
  {
    acc + Sum(ds[..j])
  }

  lemma CumHead(ds: seq<int>, acc: int, j: nat)
    requires 1 <= j <= |ds|
    ensures Cum(ds, acc, j) == Cum(ds[1..], acc + ds[0], j - 1)
  {
    assert ds[..j] == [ds[0]] + ds[1..][..j - 1];
    SumConcat([ds[0]], ds[1..][..j - 1]);
    assert Sum([ds[0]]) == ds[0] by { assert [ds[0]][..0] == []; }
  }

  /** CountUntil finds the FIRST prefix of ds whose total, added to acc,
      reaches target; None means no prefix reaches it. */
  lemma {:induction false} CountUntilSpec(ds: seq<int>, acc: int, target: int)
    ensures match CountUntil(ds, acc, target)
            case Some(n) =>
              && n <= |ds|
              && Cum(ds, acc, n) >= target
              && forall j :: 0 <= j < n ==> Cum(ds, acc, j) < target
            case None =>
              forall j :: 0 <= j <= |ds| ==> Cum(ds, acc, j) < target
    decreases |ds|
  {
    assert ds[..0] == [];
    if acc < target && |ds| > 0 {
      CountUntilSpec(ds[1..], acc + ds[0], target);
      forall j | 1 <= j <= |ds| {
        CumHead(ds, acc, j);
      }
    }
  }

  /** acc plus each of the first n prefixes of ds stays below target. */
  predicate BelowFor(ds: seq<int>, acc: int, target: int, n: nat)
    requires n <= |ds|
  {
    forall j :: 0 <= j < n ==> Cum(ds, acc, j) < target
  }

  lemma BelowForStep(ds: seq<int>, acc: int, target: int, n: nat)
    requires n < |ds| && BelowFor(ds, acc, target, n) && Cum(ds, acc, n) < target
    ensures BelowFor(ds, acc, target, n + 1)
  {
  }

  /** The first prefix that reaches target is the one CountUntil finds. */
  lemma CountUntilFirst(ds: seq<int>, acc: int, target: int, n: nat)
    requires n <= |ds| && BelowFor(ds, acc, target, n)
    requires Cum(ds, acc, n) >= target
    ensures CountUntil(ds, acc, target) == Some(n)
  {
    CountUntilSpec(ds, acc, target);
  }

  /** When no prefix reaches target, CountUntil finds none. */
  lemma CountUntilNone(ds: seq<int>, acc: int, target: int)
    requires BelowFor(ds, acc, target, |ds|)
    requires Cum(ds, acc, |ds|) < target
    ensures CountUntil(ds, acc, target) == None
  {
    CountUntilSpec(ds, acc, target);
  }

  // ---------------------------------------------------------------------
  // Calendar days

  datatype Date = Date(year: int, julianDay: int)

  /** `year % 4 == 0`; C's truncating remainder and Dafny's agree on whether
      a number is divisible by 4, negative years included. No century
      exception, as in the source. */
  predicate IsLeap(year: int)
  {
    year % 4 == 0
  }

  function DaysInYear(year: int): int
  {
    if IsLeap(year) then 366 else 365
  }

  /** One day forward, as lines 622-627 do it. */
  function NextDay(d: Date): Date
  {
    var j := d.julianDay + 1;
    if (j > 365 && !IsLeap(d.year)) || j > 366 then Date(d.year + 1, 1) else Date(d.year, j)
  }

  /** The day counter wraps to day 1 of the next year after the last day of a
      year (365, or 366 in a leap year) and otherwise moves on by one. */
  lemma NextDayWraps(d: Date)
    ensures NextDay(d) == if d.julianDay + 1 > DaysInYear(d.year)
                          then Date(d.year + 1, 1)
                          else Date(d.year, d.julianDay + 1)
  {
  }

  function AdvanceDays(d: Date, k: nat): Date
  {
    if k == 0 then d else NextDay(AdvanceDays(d, k - 1))
  }

  // ---------------------------------------------------------------------
  // The reference scan

  datatype CalendarInfo = CalendarInfo(start: Date, numDays: nat, spd: seq<int>)

  /** The per-day step counts of the window: the first day keeps only the
      steps from startPt on (line 684), the middle days are taken whole, and
      the last day loses the steps after endPt (line 706). s0 is the running
      total at the end of the first day. */
  function DayCounts(s0: int, mids: seq<int>, startPt: int, endPt: int): seq<int>
  {
    var raw := [s0 - startPt + 1] + mids;
    raw[|raw| - 1 := raw[|raw| - 1] - (s0 + Sum(mids) - endPt)]
  }

  /** Trimming the last of the raw day counts by the overshoot of the final
      running total past endPt gives DayCounts. */
  lemma TrimLast(raw: seq<int>, s0: int, mids: seq<int>, startPt: int, endPt: int, total: int)
    requires raw == [s0 - startPt + 1] + mids
    requires total == s0 + Sum(mids)
    ensures raw[|raw| - 1 := raw[|raw| - 1] - (total - endPt)] == DayCounts(s0, mids, startPt, endPt)
  {
  }

  /** The calendar descriptor that the scan of block b for the comparison
      window [startPt, endPt] produces, or its error. */
  function ScanSpec(b: SpdBlock, startPt: int, endPt: int): Result<CalendarInfo>
  {
    var toks := b.toks;
    if |toks| == 0 then Err(MissingEnd)
    else if !toks[0].Steps? then Err(FirstNotSteps)
    else if End !in toks[1..] then Err(MissingEnd)
    else
      var v0 := toks[0].v;
      var rest := ExpandFrom(toks, 1, v0);
      match CountUntil(rest, v0, startPt)
      case None => Err(StartNotFound)
      case Some(k) =>
        WindowSpec(AdvanceDays(Date(b.year, b.julianDay), k), Cum(rest, v0, k), rest[k..],
                   startPt, endPt)
  }

  /** The second half of the reference scan: from the first day of the
      window, whose running total is s0 and after which the day values tail
      follow, count the days up to endPt. */
  function WindowSpec(start: Date, s0: int, tail: seq<int>, startPt: int, endPt: int)
    : Result<CalendarInfo>
  {
    match CountUntil(tail, s0, endPt)
    case None => Err(EndNotFound)
    case Some(c) => Ok(CalendarInfo(start, c + 1, DayCounts(s0, tail[..c], startPt, endPt)))
  }

  // ---------------------------------------------------------------------
  // The scanner, phase by phase

  /** The state saved at lines 635-639: file position, running total,
      remaining repeat count and last step count; plus the return code and
      the calendar day at that point. */
  datatype Checkpoint = Checkpoint(pos: nat, dataCount: int, count: int, spd: int,
                                   status: int, date: Date)

  predicate CheckpointOk(toks: seq<Token>, cp: Checkpoint)
  {
    && |toks| >= 1
    && 1 <= cp.pos <= FirstEnd(toks, 1)
    && cp.count >= 0
    && cp.status != -1
  }

  function PendingAt(toks: seq<Token>, cp: Checkpoint): seq<int>
    requires CheckpointOk(toks, cp)
  {
    Pending(toks, FirstEnd(toks, 1), cp.pos, cp.spd, cp.count)
  }

  /** The inner loop of the seek pass (lines 620-630): take the remaining
      copies of the current step count one day at a time, moving the
      calendar day on, while the running total is below startPt. When count
      copies of spd followed by tl are the day values of ds from index c0 on,
      the loop ends at the first day whose total reaches startPt or with the
      repeat used up. */
  method SeekRepeat(spd: int, count0: int, dataCount0: int, date0: Date, startPt: int,
                    ghost tl: seq<int>, ghost ds: seq<int>, ghost acc: int, ghost hdr: Date,
                    ghost c0: nat)
    returns (count: int, dataCount: int, date: Date, ghost c: nat)
    requires c0 <= |ds| && Rep(spd, count0) + tl == ds[c0..]
    requires dataCount0 == Cum(ds, acc, c0) && BelowFor(ds, acc, startPt, c0)
    requires date0 == AdvanceDays(hdr, c0)
    requires dataCount0 < startPt
    ensures c0 <= c <= |ds| && Rep(spd, count) + tl == ds[c..]
    ensures dataCount == Cum(ds, acc, c) && BelowFor(ds, acc, startPt, c)
    ensures date == AdvanceDays(hdr, c)
    ensures dataCount < startPt ==> count <= 0
    ensures dataCount >= startPt ==> count >= 0
  {
    count, dataCount, date, c := count0, dataCount0, date0, c0;
    while count > 0 && dataCount < startPt
      invariant c0 <= c <= |ds| && Rep(spd, count) + tl == ds[c..]
      invariant dataCount == Cum(ds, acc, c) && BelowFor(ds, acc, startPt, c)
      invariant date == AdvanceDays(hdr, c)
      invariant dataCount >= startPt ==> count >= 0
      decreases count
    {
      RepStep(spd, count, tl, ds, acc, c);
      BelowForStep(ds, acc, startPt, c);
      dataCount := dataCount + spd;
      date := NextDay(date);
      count := count - 1;
      c := c + 1;
    }
  }

  /** Seek pass (lines 600-642): read the first step count, then add day
      values, moving the calendar day on by one for each, until the running
      total reaches startPt. */
  method SeekStart(b: SpdBlock, startPt: int) returns (r: Result<Checkpoint>)
    ensures |b.toks| == 0 ==> r == Err(MissingEnd)
    ensures |b.toks| > 0 && !b.toks[0].Steps? ==> r == Err(FirstNotSteps)
    ensures |b.toks| > 0 && b.toks[0].Steps? ==>
              var v0 := b.toks[0].v;
              var rest := ExpandFrom(b.toks, 1, v0);
              match CountUntil(rest, v0, startPt)
              case None =>
                r == Err(if FirstEnd(b.toks, 1) < |b.toks| then StartNotFound else MissingEnd)
              case Some(k) =>
                && r.Ok?
                && CheckpointOk(b.toks, r.value)
                && PendingAt(b.toks, r.value) == rest[k..]
                && r.value.dataCount == Cum(rest, v0, k)
                && r.value.date == AdvanceDays(Date(b.year, b.julianDay), k)
  {
    var toks := b.toks;
    if |toks| == 0 {
      return Err(MissingEnd);
    }
    // spd and count are not initialised in the C code; a step count overwrites both
    var p := ParseSpdValue(toks[0], 0, 0);
    if p.status != 1 {
      return Err(FirstNotSteps);
    }
    var spd, count, status := p.spd, p.count - 1, p.status;
    var dataCount := spd;
    var date := Date(b.year, b.julianDay);
    var pos := 1;
    ghost var hdr := date;
    ghost var v0 := spd;
    ghost var e := FirstEnd(toks, 1);
    ghost var rest := ExpandFrom(toks, 1, v0);
    ghost var c: nat := 0;
    assert rest[..0] == [];
    while dataCount < startPt
      invariant 1 <= pos <= e
      invariant c <= |rest|
      invariant Pending(toks, e, pos, spd, count) == rest[c..]
      invariant dataCount == Cum(rest, v0, c) && BelowFor(rest, v0, startPt, c)
      invariant date == AdvanceDays(hdr, c)
      invariant status != -1
      invariant dataCount < startPt ==> count <= 0
      invariant dataCount >= startPt ==> count >= 0
      decreases e - pos
    {
      if pos == |toks| {
        // no `-1` in the block, and every day value has been taken
        assert |rest[c..]| == 0;
        CountUntilNone(rest, v0, startPt);
        return Err(MissingEnd);
      }
      ReadStep(toks, pos, spd, count);
      p := ParseSpdValue(toks[pos], spd, count);
      status, spd, count := p.status, p.spd, p.count;
      pos := pos + 1;
      if status == -1 {
        assert |rest[c..]| == 0;
        CountUntilNone(rest, v0, startPt);
        return Err(StartNotFound);
      }
      count, dataCount, date, c :=
        SeekRepeat(spd, count, dataCount, date, startPt, ExpandFrom(toks, pos, spd), rest, v0, hdr, c);
    }
    CountUntilFirst(rest, v0, startPt, c);
    return Ok(Checkpoint(pos, dataCount, count, spd, status, date));
  }

  /** Both later passes start from the checkpoint the same way (lines 647-650
      and 686-689): unless the seek stopped inside a `#n`, read the next
      token. ok is false when there is none. */
  method Resume(toks: seq<Token>, cp: Checkpoint, status0: int)
    returns (ok: bool, pos: nat, spd: int, count: int, status: int)
    requires CheckpointOk(toks, cp)
    ensures !ok ==> FirstEnd(toks, 1) == |toks|
    ensures ok ==> 1 <= pos <= |toks| && pos <= FirstEnd(toks, 1) + 1
    ensures ok ==> Pending(toks, FirstEnd(toks, 1), pos, spd, count) == PendingAt(toks, cp)
    ensures ok && cp.count != 0 ==> pos == cp.pos && status == status0 && count == cp.count
    ensures ok && cp.count == 0 ==>
              && pos == cp.pos + 1
              && (status == -1 <==> pos == FirstEnd(toks, 1) + 1)
              && (status == -1 ==> count == 0)
  {
    pos, spd, count, status := cp.pos, cp.spd, cp.count, status0;
    ok := true;
    if count == 0 {
      var p;
      ok, p := ReadToken(toks, pos, spd, count);
      if ok {
        status, spd, count := p.status, p.spd, p.count;
        pos := pos + 1;
      }
    }
  }

  /** fscanf of the next token and parseSpdValue on it, when no repeat is
      pending: ok is false when the block has no token left. */
  method ReadToken(toks: seq<Token>, pos: nat, spd: int, count: int) returns (ok: bool, p: Parsed)
    requires 1 <= pos <= |toks| && pos <= FirstEnd(toks, 1) && count <= 0
    ensures !ok ==> FirstEnd(toks, 1) == |toks|
    ensures ok ==> pos < |toks| && p == ParseSpdValue(toks[pos], spd, count)
    ensures ok ==> (p.status == -1 <==> pos == FirstEnd(toks, 1)) && (p.status == -1 ==> p.count == count)
    ensures ok ==> Pending(toks, FirstEnd(toks, 1), pos + 1, p.spd, p.count)
                   == Pending(toks, FirstEnd(toks, 1), pos, spd, count)
  {
    if pos == |toks| {
      return false, Parsed(0, spd, count);
    }
    ReadStep(toks, pos, spd, count);
    return true, ParseSpdValue(toks[pos], spd, count);
  }

  /** Result of the measure pass: the number of days, and the return code of
      parseSpdValue that the C variable `status` holds afterwards. */
  datatype Measured = Measured(numDays: nat, status: int)

  /** The inner loop of the measure pass (lines 653-657): count one more day
      for each remaining copy of the current step count while the running
      total is below endPt. When count copies of spd followed by tl are the
      day values of ds after the first numDays - 1, the loop ends at the
      first day whose total reaches endPt or with the repeat used up. */
  method MeasureRepeat(spd: int, count0: int, dataCount0: int, numDays0: nat, endPt: int,
                       ghost tl: seq<int>, ghost ds: seq<int>, ghost acc: int)
    returns (count: int, dataCount: int, numDays: nat)
    requires 1 <= numDays0 <= |ds| + 1 && Rep(spd, count0) + tl == ds[numDays0 - 1..]
    requires dataCount0 == Cum(ds, acc, numDays0 - 1) && BelowFor(ds, acc, endPt, numDays0 - 1)
    requires dataCount0 < endPt
    ensures numDays0 <= numDays <= |ds| + 1 && Rep(spd, count) + tl == ds[numDays - 1..]
    ensures dataCount == Cum(ds, acc, numDays - 1) && BelowFor(ds, acc, endPt, numDays - 1)
    ensures dataCount < endPt ==> count <= 0
    ensures count0 > 0 ==> numDays > numDays0
  {
    count, dataCount, numDays := count0, dataCount0, numDays0;
    while count > 0 && dataCount < endPt
      invariant numDays0 <= numDays <= |ds| + 1 && Rep(spd, count) + tl == ds[numDays - 1..]
      invariant dataCount == Cum(ds, acc, numDays - 1) && BelowFor(ds, acc, endPt, numDays - 1)
      invariant count0 > 0 && numDays == numDays0 ==> count == count0
      decreases count
    {
      RepStep(spd, count, tl, ds, acc, numDays - 1);
      BelowForStep(ds, acc, endPt, numDays - 1);
      dataCount := dataCount + spd;
      numDays := numDays + 1;
      count := count - 1;
    }
  }

  /** One round of the measure loop (lines 652-661): the days of the current
      repeat, then the next token. ok is false when the block has no token
      left to read. */
  method MeasureRound(toks: seq<Token>, pos0: nat, spd: int, count0: int, dataCount0: int,
                      numDays0: nat, endPt: int, ghost pend: seq<int>, ghost acc: int)
    returns (ok: bool, pos: nat, p: Parsed, dataCount: int, numDays: nat)
    requires |toks| >= 1 && 1 <= pos0 <= FirstEnd(toks, 1)
    requires 1 <= numDays0 <= |pend| + 1
    requires Pending(toks, FirstEnd(toks, 1), pos0, spd, count0) == pend[numDays0 - 1..]
    requires dataCount0 == Cum(pend, acc, numDays0 - 1) && BelowFor(pend, acc, endPt, numDays0 - 1)
    requires dataCount0 < endPt
    ensures !ok ==> FirstEnd(toks, 1) == |toks|
    ensures ok ==> pos0 < |toks| && pos == pos0 + 1 && (p.status == -1 <==> pos0 == FirstEnd(toks, 1))
    ensures ok ==> numDays0 <= numDays <= |pend| + 1
    ensures ok ==> dataCount == Cum(pend, acc, numDays - 1) && BelowFor(pend, acc, endPt, numDays - 1)
    ensures ok && dataCount < endPt ==>
              Pending(toks, FirstEnd(toks, 1), pos, p.spd, p.count) == pend[numDays - 1..]
    ensures ok && p.status == -1 && dataCount < endPt ==> p.count <= 0
    ensures ok && count0 > 0 ==> numDays > numDays0
  {
    var count;
    count, dataCount, numDays :=
      MeasureRepeat(spd, count0, dataCount0, numDays0, endPt, ExpandFrom(toks, pos0, spd), pend, acc);
    if pos0 == |toks| {
      return false, pos0, Parsed(0, spd, count), dataCount, numDays;
    }
    if dataCount < endPt {
      ReadStep(toks, pos0, spd, count);
    }
    p := ParseSpdValue(toks[pos0], spd, count);
    pos := pos0 + 1;
    ok := true;
  }

  /** The measure loop `while (dataCount < endPt && status != -1)` (lines
      652-661) from the state after the rewind. When it stops below endPt the
      day values have run out. */
  method MeasureLoop(toks: seq<Token>, pos0: nat, spd0: int, count0: int, status0: int,
                     dataCount0: int, endPt: int, ghost pend: seq<int>)
    returns (ok: bool, status: int, dataCount: int, numDays: nat)
    requires |toks| >= 1 && 1 <= pos0 <= |toks| && pos0 <= FirstEnd(toks, 1) + 1
    requires status0 == -1 <==> pos0 == FirstEnd(toks, 1) + 1
    requires Pending(toks, FirstEnd(toks, 1), pos0, spd0, count0) == pend
    requires pos0 == FirstEnd(toks, 1) + 1 ==> count0 <= 0
    ensures !ok ==> FirstEnd(toks, 1) == |toks|
    ensures ok ==> 1 <= numDays <= |pend| + 1 && dataCount == Cum(pend, dataCount0, numDays - 1)
    ensures ok ==> BelowFor(pend, dataCount0, endPt, numDays - 1)
    ensures ok && dataCount < endPt ==> numDays == |pend| + 1 && FirstEnd(toks, 1) < |toks|
    ensures ok && status == -1 && count0 > 0 ==> numDays > 1
  {
    ghost var e := FirstEnd(toks, 1);
    var pos, spd, count := pos0, spd0, count0;
    status, dataCount, numDays := status0, dataCount0, 1;
    ghost var started := false;
    assert pend[..0] == [];
    while dataCount < endPt && status != -1
      invariant 1 <= pos <= |toks| && pos <= e + 1
      invariant status == -1 <==> pos == e + 1
      invariant 1 <= numDays <= |pend| + 1
      invariant dataCount == Cum(pend, dataCount0, numDays - 1)
      invariant BelowFor(pend, dataCount0, endPt, numDays - 1)
      invariant dataCount < endPt ==> Pending(toks, e, pos, spd, count) == pend[numDays - 1..]
      invariant pos == e + 1 && dataCount < endPt ==> count <= 0
      invariant !started ==> status == status0 && count == count0 && numDays == 1
      invariant started && count0 > 0 ==> numDays > 1
      decreases e + 1 - pos
    {
      var p;
      ok, pos, p, dataCount, numDays := MeasureRound(toks, pos, spd, count, dataCount, numDays, endPt,
                                                     pend, dataCount0);
      if !ok {
        return;
      }
      status, spd, count := p.status, p.spd, p.count;
      started := true;
    }
    if dataCount < endPt {
      // reached the `-1` before the running total reached endPt
      assert |pend[numDays - 1..]| == 0;
    }
    ok := true;
  }

  /** Measure pass (lines 645-666): continue from the checkpoint without
      rewinding and count the days until the running total reaches endPt. */
  method MeasureDays(toks: seq<Token>, cp: Checkpoint, endPt: int) returns (r: Result<Measured>)
    requires CheckpointOk(toks, cp)
    ensures r.Ok? ==> var m := CountUntil(PendingAt(toks, cp), cp.dataCount, endPt);
                      m.Some? && r.value.numDays == m.value + 1
    ensures r.Ok? && r.value.status == -1 ==> cp.count == 0 || r.value.numDays > 1
    ensures r.Err? ==> r.error == if FirstEnd(toks, 1) < |toks| then EndNotFound else MissingEnd
    ensures FirstEnd(toks, 1) < |toks| && CountUntil(PendingAt(toks, cp), cp.dataCount, endPt).Some?
            ==> r.Ok?
  {
    ghost var pend := PendingAt(toks, cp);
    var ok, pos, spd, count, status := Resume(toks, cp, cp.status);
    if !ok {
      r := Err(MissingEnd);
    } else {
      var dataCount, numDays;
      ok, status, dataCount, numDays := MeasureLoop(toks, pos, spd, count, status, cp.dataCount,
                                                    endPt, pend);
      if !ok {
        r := Err(MissingEnd);
      } else if dataCount < endPt {
        CountUntilNone(pend, cp.dataCount, endPt);
        r := Err(EndNotFound);
      } else {
        CountUntilFirst(pend, cp.dataCount, endPt, numDays - 1);
        r := Ok(Measured(numDays, status));
      }
    }
  }

  /** The inner loop of the fill pass (lines 695-700): store one more day for
      each remaining copy of the current step count while the array is not
      full. */
  method FillRepeat(a: array<int>, index0: nat, spd: int, count0: int, dataCount0: int,
                    ghost tl: seq<int>, ghost ds: seq<int>, ghost acc: int)
    returns (index: nat, count: int, dataCount: int)
    modifies a
    requires 1 <= index0 <= a.Length <= |ds| + 1
    requires forall k :: 1 <= k < index0 ==> a[k] == ds[k - 1]
    requires Rep(spd, count0) + tl == ds[index0 - 1..]
    requires dataCount0 == Cum(ds, acc, index0 - 1)
    ensures index0 <= index <= a.Length
    ensures a[0] == old(a[0]) && forall k :: 1 <= k < index ==> a[k] == ds[k - 1]
    ensures Rep(spd, count) + tl == ds[index - 1..]
    ensures dataCount == Cum(ds, acc, index - 1)
    ensures count <= 0 || index == a.Length
    ensures count0 > 0 && index0 < a.Length ==> index > index0
  {
    index, count, dataCount := index0, count0, dataCount0;
    while count > 0 && index < a.Length
      invariant index0 <= index <= a.Length
      invariant a[0] == old(a[0]) && forall k :: 1 <= k < index ==> a[k] == ds[k - 1]
      invariant Rep(spd, count) + tl == ds[index - 1..]
      invariant dataCount == Cum(ds, acc, index - 1)
      decreases count
    {
      RepStep(spd, count, tl, ds, acc, index - 1);
      a[index] := spd;
      dataCount := dataCount + spd;
      index := index + 1;
      count := count - 1;
    }
  }

  /** One round of the fill loop (lines 694-704): the days of the current
      repeat, then the next token. ok is false when the block has no token
      left to read. */
  method FillRound(a: array<int>, toks: seq<Token>, pos0: nat, spd: int, count0: int,
                   dataCount0: int, index0: nat, ghost pend: seq<int>, ghost acc: int)
    returns (ok: bool, pos: nat, p: Parsed, dataCount: int, index: nat)
    modifies a
    requires |toks| >= 1 && 1 <= pos0 <= FirstEnd(toks, 1)
    requires 1 <= index0 < a.Length <= |pend| + 1
    requires forall k :: 1 <= k < index0 ==> a[k] == pend[k - 1]
    requires Pending(toks, FirstEnd(toks, 1), pos0, spd, count0) == pend[index0 - 1..]
    requires dataCount0 == Cum(pend, acc, index0 - 1)
    ensures a[0] == old(a[0])
    ensures !ok ==> FirstEnd(toks, 1) == |toks|
    ensures ok ==> pos0 < |toks| && pos == pos0 + 1 && (p.status == -1 <==> pos0 == FirstEnd(toks, 1))
    ensures ok ==> index0 <= index <= a.Length && forall k :: 1 <= k < index ==> a[k] == pend[k - 1]
    ensures ok ==> dataCount == Cum(pend, acc, index - 1)
    ensures ok && index < a.Length ==>
              Pending(toks, FirstEnd(toks, 1), pos, p.spd, p.count) == pend[index - 1..]
    ensures ok && p.status == -1 ==> p.count <= 0 || index == a.Length
    ensures ok && count0 > 0 ==> index > index0
  {
    var count;
    index, count, dataCount :=
      FillRepeat(a, index0, spd, count0, dataCount0, ExpandFrom(toks, pos0, spd), pend, acc);
    if pos0 == |toks| {
      return false, pos0, Parsed(0, spd, count), dataCount, index;
    }
    if index < a.Length {
      ReadStep(toks, pos0, spd, count);
    }
    p := ParseSpdValue(toks[pos0], spd, count);
    pos := pos0 + 1;
    ok := true;
  }

  /** The fill loop `while (index < numDays)` (lines 693-704) from the state
      after the rewind, for a window of at least two days. */
  method FillLoop(a: array<int>, toks: seq<Token>, pos0: nat, spd0: int, count0: int,
                  status0: int, dataCount0: int, ghost pend: seq<int>)
    returns (ok: bool, pos: nat, status: int, dataCount: int)
    modifies a
    requires |toks| >= 1 && 1 <= pos0 <= |toks| && pos0 <= FirstEnd(toks, 1) + 1
    requires 2 <= a.Length <= |pend| + 1
    requires Pending(toks, FirstEnd(toks, 1), pos0, spd0, count0) == pend
    requires pos0 == FirstEnd(toks, 1) + 1 ==> count0 <= 0
    ensures a[0] == old(a[0])
    ensures !ok ==> FirstEnd(toks, 1) == |toks|
    ensures ok ==> (forall k :: 1 <= k < a.Length ==> a[k] == pend[k - 1]) && dataCount == Cum(pend, dataCount0, a.Length - 1)
    ensures ok ==> 1 <= pos <= |toks| && pos <= FirstEnd(toks, 1) + 1
    ensures ok ==> (status == -1 <==> pos == FirstEnd(toks, 1) + 1)
  {
    ghost var e := FirstEnd(toks, 1);
    var spd, count := spd0, count0;
    pos, status, dataCount := pos0, status0, dataCount0;
    var index := 1;
    ghost var started := false;
    assert pend[..0] == [];
    while index < a.Length
      invariant 1 <= index <= a.Length
      invariant 1 <= pos <= |toks| && pos <= e + 1
      invariant a[0] == old(a[0]) && forall k :: 1 <= k < index ==> a[k] == pend[k - 1]
      invariant dataCount == Cum(pend, dataCount0, index - 1)
      invariant index < a.Length ==> Pending(toks, e, pos, spd, count) == pend[index - 1..]
      invariant pos == e + 1 ==> count <= 0 || index == a.Length
      invariant started ==> (status == -1 <==> pos == e + 1)
      invariant !started ==> index == 1
      decreases a.Length - index, e + 1 - pos
    {
      assert pos <= e;
      var p;
      ok, pos, p, dataCount, index := FillRound(a, toks, pos, spd, count, dataCount, index, pend, dataCount0);
      if !ok {
        return;
      }
      status, spd, count := p.status, p.spd, p.count;
      started := true;
    }
    ok := true;
  }

  /** The fill loop (lines 693-704) and the trim of the last day (line 706). */
  method FillDays(a: array<int>, toks: seq<Token>, pos0: nat, spd0: int, count0: int,
                  status0: int, dataCount0: int, startPt: int, endPt: int, ghost pend: seq<int>)
    returns (ok: bool, pos: nat, status: int)
    modifies a
    requires |toks| >= 1 && 1 <= pos0 <= |toks| && pos0 <= FirstEnd(toks, 1) + 1
    requires 1 <= a.Length <= |pend| + 1
    requires Pending(toks, FirstEnd(toks, 1), pos0, spd0, count0) == pend
    requires pos0 == FirstEnd(toks, 1) + 1 ==> count0 <= 0
    requires a[0] == dataCount0 - startPt + 1
    ensures !ok ==> FirstEnd(toks, 1) == |toks|
    ensures ok ==> a[..] == DayCounts(dataCount0, pend[..a.Length - 1], startPt, endPt)
    ensures ok ==> 1 <= pos <= |toks| && pos <= FirstEnd(toks, 1) + 1
    ensures ok && a.Length == 1 ==> pos == pos0 && status == status0
    ensures ok && a.Length > 1 ==> (status == -1 <==> pos == FirstEnd(toks, 1) + 1)
  {
    var dataCount := dataCount0;
    pos, status, ok := pos0, status0, true;
    if a.Length > 1 {
      ok, pos, status, dataCount := FillLoop(a, toks, pos0, spd0, count0, status0, dataCount0, pend);
    } else {
      assert pend[..0] == [];
    }
    if ok {
      TrimFill(a, dataCount0, startPt, endPt, dataCount, pend);
    }
  }

  /** Line 706 applied to the filled array: the last day loses the steps
      counted past endPt, which leaves the window's day counts. */
  method TrimFill(a: array<int>, s0: int, startPt: int, endPt: int, dataCount: int,
                  ghost pend: seq<int>)
    modifies a
    requires 1 <= a.Length <= |pend| + 1 && a[0] == s0 - startPt + 1
    requires forall k :: 1 <= k < a.Length ==> a[k] == pend[k - 1]
    requires dataCount == Cum(pend, s0, a.Length - 1)
    ensures a[..] == DayCounts(s0, pend[..a.Length - 1], startPt, endPt)
  {
    assert a[..] == [a[0]] + pend[..a.Length - 1];
    TrimLast(a[..], s0, pend[..a.Length - 1], startPt, endPt, dataCount);
    SubtractLast(a, dataCount - endPt);
  }

  /** Line 706: the last day loses the steps counted past endPt. */
  method SubtractLast(a: array<int>, excess: int)
    modifies a
    requires a.Length >= 1
    ensures a[..] == old(a[..])[a.Length - 1 := old(a[a.Length - 1]) - excess]
  {
    a[a.Length - 1] := a[a.Length - 1] - excess;
  }

  /** Rewind and fill pass (lines 671-706): restart from the checkpoint and
      write the numDays per-day step counts into a new array, trimming the
      first and the last day to the window. ok is false when the block runs
      out of tokens before its `-1`. */
  method FillSpd(toks: seq<Token>, cp: Checkpoint, numDays: nat, status0: int,
                 startPt: int, endPt: int)
    returns (a: array<int>, ok: bool, pos: nat, status: int)
    requires CheckpointOk(toks, cp)
    requires 1 <= numDays <= |PendingAt(toks, cp)| + 1
    requires status0 == -1 ==> cp.count == 0 || numDays > 1
    ensures fresh(a) && a.Length == numDays
    ensures FirstEnd(toks, 1) < |toks| ==> ok
    ensures ok ==> a[..] == DayCounts(cp.dataCount, PendingAt(toks, cp)[..numDays - 1], startPt, endPt)
    ensures ok ==> 1 <= pos <= |toks| && pos <= FirstEnd(toks, 1) + 1
    ensures ok ==> (status == -1 <==> pos == FirstEnd(toks, 1) + 1)
  {
    ghost var pend := PendingAt(toks, cp);
    a := new int[numDays];
    a[0] := cp.dataCount - startPt + 1;
    var spd, count;
    ok, pos, spd, count, status := Resume(toks, cp, status0);
    if ok {
      ok, pos, status := FillDays(a, toks, pos, spd, count, status, cp.dataCount, startPt, endPt, pend);
    }
  }

  /** Lines 708-711: read on until the `-1` that ends the block, so that the
      next block starts right after it. */
  method DrainBlock(toks: seq<Token>, pos0: nat, status0: int) returns (ok: bool, pos: nat)
    requires |toks| >= 1
    requires 1 <= pos0 <= |toks| && pos0 <= FirstEnd(toks, 1) + 1
    requires status0 == -1 <==> pos0 == FirstEnd(toks, 1) + 1
    ensures ok <==> FirstEnd(toks, 1) < |toks|
    ensures ok ==> pos == FirstEnd(toks, 1) + 1
  {
    ghost var e := FirstEnd(toks, 1);
    pos := pos0;
    var status := status0;
    while status != -1
      invariant 1 <= pos <= |toks| && pos <= e + 1
      invariant status == -1 <==> pos == e + 1
      decreases e + 1 - pos
    {
      if pos == |toks| {
        return false, pos;
      }
      // the step count and repeat count read here are not used any more
      var p := ParseSpdValue(toks[pos], 0, 0);
      status := p.status;
      pos := pos + 1;
    }
    return true, pos;
  }

  /** Everything after the seek: measure, rewind and fill, drain. next is
      the index just after the block's `-1`. */
  method ScanWindow(toks: seq<Token>, cp: Checkpoint, startPt: int, endPt: int)
    returns (r: Result<CalendarInfo>, next: nat)
    requires CheckpointOk(toks, cp)
    ensures r == if FirstEnd(toks, 1) < |toks|
                 then WindowSpec(cp.date, cp.dataCount, PendingAt(toks, cp), startPt, endPt)
                 else Err(MissingEnd)
    ensures r.Ok? ==> next == FirstEnd(toks, 1) + 1
  {
    next := 0;
    var m := MeasureDays(toks, cp, endPt);
    if m.Err? {
      return Err(m.error), next;
    }
    var a, ok, pos, status := FillSpd(toks, cp, m.value.numDays, m.value.status, startPt, endPt);
    if !ok {
      return Err(MissingEnd), next;
    }
    var drained;
    drained, next := DrainBlock(toks, pos, status);
    if !drained {
      return Err(MissingEnd), next;
    }
    r := Ok(CalendarInfo(cp.date, m.value.numDays, a[..]));
  }

  /** The whole scan of one block: seek, then the window. next is the index
      just after the block's `-1`. */
  method ScanBlock(b: SpdBlock, startPt: int, endPt: int) returns (r: Result<CalendarInfo>, next: nat)
    ensures r == ScanSpec(b, startPt, endPt)
    ensures r.Ok? ==> 1 <= |b.toks| && next == FirstEnd(b.toks, 1) + 1
  {
    var s := SeekStart(b, startPt);
    if |b.toks| > 0 {
      HasEndIff(b.toks);
    }
    if s.Err? {
      return Err(s.error), 0;
    }
    r, next := ScanWindow(b.toks, s.value, startPt, endPt);
  }

  /** aggInfo[loc] as readData leaves it: the comparison window and the
      calendar descriptor found for it. */
  datatype AggregateInfo = AggregateInfo(startPt: int, endPt: int, spd: seq<int>, numDays: nat,
                                         startYear: int, startDay: int)

  function ToAggregateInfo(startPt: int, endPt: int, c: CalendarInfo): AggregateInfo
  {
    AggregateInfo(startPt, endPt, c.spd, c.numDays, c.start.year, c.start.julianDay)
  }

  /** The per-location loop of lines 593-712: scan every block in turn; the
      first location whose block fails aborts the whole read. */
  method ReadSpdFile(blocks: seq<SpdBlock>, startPts: seq<int>, endPts: seq<int>)
    returns (r: Result<seq<AggregateInfo>>)
    requires |startPts| == |blocks| && |endPts| == |blocks|
    ensures r.Ok? <==> forall loc :: 0 <= loc < |blocks| ==> ScanSpec(blocks[loc], startPts[loc], endPts[loc]).Ok?
    ensures r.Ok? ==>
              && |r.value| == |blocks|
              && forall loc :: 0 <= loc < |blocks| ==>
                   r.value[loc] == ToAggregateInfo(startPts[loc], endPts[loc],
                                                   ScanSpec(blocks[loc], startPts[loc], endPts[loc]).value)
    ensures r.Err? ==>
              exists loc :: 0 <= loc < |blocks|
                && ScanSpec(blocks[loc], startPts[loc], endPts[loc]) == Err(r.error)
                && forall l :: 0 <= l < loc ==> ScanSpec(blocks[l], startPts[l], endPts[l]).Ok?
  {
    var infos: seq<AggregateInfo> := [];
    var loc := 0;
    while loc < |blocks|
      invariant 0 <= loc <= |blocks|
      invariant |infos| == loc
      invariant forall l :: 0 <= l < loc ==> ScanSpec(blocks[l], startPts[l], endPts[l]).Ok?
      invariant forall l :: 0 <= l < loc ==>
                  infos[l] == ToAggregateInfo(startPts[l], endPts[l],
                                              ScanSpec(blocks[l], startPts[l], endPts[l]).value)
    {
      var s, _ := ScanBlock(blocks[loc], startPts[loc], endPts[loc]);
      if s.Err? {
        return Err(s.error);
      }
      infos := infos + [ToAggregateInfo(startPts[loc], endPts[loc], s.value)];
      loc := loc + 1;
    }
    return Ok(infos);
  }
}
