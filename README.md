# paramchange.c in Dafny: the calendar, aggregation and window logic

This project models the integer and index logic of `paramchange.c`, the
data-comparison layer of a parameter-estimation program. That logic lines
model time steps up with calendar days and with aggregation blocks. It
covers:

- the steps-per-day (`.spd`) calendar scanner of `readData`, with `parseSpdValue`;
- `computeAggedData`, the block aggregation of a data array;
- `readFileForAgg`, the reader of the aggregation block sizes;
- the structural part of `aggregates`: the daily rollup, the year buckets
  and `numYears`, with `newOutputInfo` and `copyOutputInfo`;
- the window rules of `readIndicesFile`;
- the counting and weighting skeleton of `aggedDifference`.

Files are replaced by already tokenised sequences and a file position by
an index. Doubles are exact reals, and `exit(1)` becomes an error result.

Modules, one file each:

- `Sums` (`sums.dfy`) holds the shared arithmetic:
  - sums of integer and real sequences;
  - run-length repetition;
  - `Clamp`/`ClampTotal`, the number of times a C loop `for (j = 0; j < n; j++)` runs;
  - `BlockSums`, the reference definition of block aggregation, with its lemmas.
- `Calendar` (`calendar.dfy`) holds the scanner:
  - one method per phase of the C code: seek, measure, rewind and fill, drain;
  - a `Checkpoint` record for the state saved at lines 635-639;
  - `ScanSpec`, a reference definition of what a block scans to, written on the day values a block stands for.
- `CalendarProps` (`calendar_props.dfy`) has lemmas about `ScanSpec`:
  - its errors and window;
  - conservation of the window length;
  - non-negative day counts;
  - repeat expansion;
  - valid dates.
- `Aggregation` (`aggregation.dfy`).
  - `computeAggedData` works on an `array2<real>`.
  - `readFileForAgg` works on the integer stream. Its count pass, fill pass and check are methods, specified against `LocSpec`, the reading of one line with the total check of line 770 as written. `LocSpecChecked` is the corrected reading, which also rejects negative block sizes.
- `Diagnostics` (`diagnostics.dfy`).
  - `OutputInfo` is a class.
  - The daily rollup and the year walk are methods, specified against `BlockSums` and `YearTotals`.
- `Indices` (`indices.dfy`) handles `readIndicesFile`.
- `Likelihood` (`likelihood.dfy`) covers the sums of squares, the counts and the weighted combination. The per-type log/sqrt term is a function parameter.

The comment above `parseSpdValue` (lines 418-424) says that `-1` sets the
count to 0. The code of line 429 assigns 0 to the parameter variable itself instead, so the
caller's count is unchanged. The model follows the code: `ParseSpdValue`
keeps the count on `-1`.

## Model

| member | source | states |
|---|---|---|
| Calendar.ParseSpdValueCases | paramchange.c:425-443 | parseSpdValue's three cases: `-1` returns -1 and changes neither spd nor count; `#n` returns 0, keeps spd and sets count to n; a step count v returns 1, sets spd to v and count to 1. The status tells the three apart. |
| Calendar.ReadStep | paramchange.c:425-446 | parseSpdValue on a token of the block: it returns -1 exactly at the block's first `-1` and then leaves the count alone. A step count or `#n` read with no repeat pending leaves the still-to-come day values unchanged. |
| Calendar.NextDayWraps | paramchange.c:622-627 | The day counter wraps to day 1 of the next year after day 365, or 366 when `year % 4 == 0`, and otherwise moves on by one. |
| Calendar.CountUntilSpec | paramchange.c:612-630 | The running-total search finds the first prefix whose total reaches the target; None means that no prefix reaches it. |
| Calendar.SeekRepeat | paramchange.c:620-630 | The inner seek loop consumes repeat copies, one day each, and stops at the first day whose total reaches startPt. The date moves one day per day counted. |
| Calendar.SeekStart | paramchange.c:600-642 | First token not a step count: FirstNotSteps. No `-1` before startPt is reached: StartNotFound, or MissingEnd when the block has no `-1`. Otherwise the checkpoint is on the first day whose running total reaches startPt. It records the days still to come, the running total and the date that many days after the header date. |
| Calendar.Resume | paramchange.c:647-650 | Resuming from the checkpoint reads a token only when no repeat was pending. The days still to come are those of the checkpoint. |
| Calendar.ReadToken | paramchange.c:613-614 | Reading and parsing one token keeps the days still to come, and reports the block's `-1` exactly at its position. |
| Calendar.MeasureRepeat | paramchange.c:653-657 | The inner measure loop counts one day per repeat copy while the total stays below endPt. |
| Calendar.MeasureRound | paramchange.c:652-661 | One measure round: the days of the pending repeat, then the next token. |
| Calendar.MeasureLoop | paramchange.c:652-661 | The measure loop stops at the first day whose total reaches endPt, or when the day values run out. |
| Calendar.MeasureDays | paramchange.c:645-666 | numDays is one more than the number of days, after the first, needed to reach endPt. The error is EndNotFound, or MissingEnd without a `-1`. It succeeds whenever endPt is reachable. |
| Calendar.FillRepeat | paramchange.c:695-700 | The inner fill loop stores one repeat copy per day until the array is full, keeping the running total. |
| Calendar.FillRound | paramchange.c:694-704 | One fill round: the pending repeat's days, then the next token. |
| Calendar.FillLoop | paramchange.c:693-704 | Entries 1..numDays-1 become the day values after the first day, in order. |
| Calendar.FillDays | paramchange.c:693-706 | The filled and trimmed array equals DayCounts of the window. |
| Calendar.TrimFill | paramchange.c:706 | Subtracting the overshoot past endPt from the last day gives DayCounts. |
| Calendar.SubtractLast | paramchange.c:706 | Only the last entry changes, by the overshoot. |
| Calendar.FillSpd | paramchange.c:671-706 | A fresh array of numDays entries holding DayCounts of the window, computed from the checkpoint. It fails only when the block has no `-1`. |
| Calendar.DrainBlock | paramchange.c:708-711 | Reading on stops right after the block's `-1`; it fails exactly when there is none. |
| Calendar.ScanWindow | paramchange.c:643-711 | Measure, fill and drain together compute WindowSpec of the checkpoint, or MissingEnd. |
| Calendar.ScanBlock | paramchange.c:594-711 | The scan of one block computes exactly ScanSpec, and ends right after the block's `-1`. |
| Calendar.ReadSpdFile | paramchange.c:592-712 | Success exactly when every block scans. Entry loc is then its ScanSpec. Otherwise the error is that of the first block that fails. |
| CalendarProps.CountUntilReach | paramchange.c:612-630 | CountUntil returns n exactly when n is the first index whose running total reaches the target. |
| CalendarProps.CountUntilFrom | paramchange.c:652-661 | The end search from the start day finds the first later day whose total reaches endPt, and finds none exactly when no day does. |
| CalendarProps.ScanSpecErrors | paramchange.c:604-666 | The three aborts, both directions. A `-1` or `#n` first gives FirstNotSteps. StartNotFound exactly when no running total reaches startPt. MissingEnd exactly when there is no token, or a step count first and no `-1` after it. |
| CalendarProps.ScanSpecWindow | paramchange.c:600-706 | Once the window starts on day k, the scan yields the descriptor for end day m exactly when m is the first day whose total reaches endPt. EndNotFound exactly when none does. The start date is k days after the header date. |
| CalendarProps.DayCountsSum | paramchange.c:684-706 | The per-day counts of a window have |days| entries and add up to endPt - startPt + 1. |
| CalendarProps.ScanSpecParts | paramchange.c:600-706 | A successful scan is built from its start day k and its n further days. |
| CalendarProps.ScanConservation | paramchange.c:643-706 | A successful scan yields numDays >= 1 counts, exactly numDays of them, adding up to the window length. |
| CalendarProps.ExpandNonNeg | paramchange.c:620-700 | With non-negative step counts every day value is non-negative. |
| CalendarProps.DayCountsPositive | paramchange.c:684-706 | The trims never overshoot. The first and the last day get at least one step, and no day gets a negative count. |
| CalendarProps.ScanCountsPositive | paramchange.c:684-706 | For a real scan of non-negative step counts: the first and last counts are >= 1, and none is negative. |
| CalendarProps.ExpandSteps | paramchange.c:620-700 | A block of plain step counts stands for exactly those values. |
| CalendarProps.ScanFlatten | paramchange.c:620-700 | A block scans to the same result as the block with every `#n` written out as n copies. This holds also when the window starts or ends inside a repeat. |
| CalendarProps.RepeatExample | paramchange.c:620-630 | `2 #3` scans like `2 2 2 2`. |
| CalendarProps.AdvanceValid | paramchange.c:622-627 | Moving on from a valid date keeps a valid date, in the same or a later year. |
| Aggregation.ZeroRow | paramchange.c:184-185 | Row i of the first numDataTypes columns becomes 0; nothing else changes. |
| Aggregation.AddRow | paramchange.c:188-189 | Input row index is added to output row i; nothing else changes. |
| Aggregation.AggregateRow | paramchange.c:184-191 | Output row i becomes the range sum of the Clamp(n) input rows from index0. The index moves past them. |
| Aggregation.ComputeAggedData | paramchange.c:179-193 | Output row i, type t, is BlockSums of column t from row startOpt - 1. The other cells are unchanged and the input is not written. When the blocks cover no row, no input row is read and startOpt may be anything, below 1 included. |
| Aggregation.NextMinusOneFirst | paramchange.c:751-754 | The end search finds the first -1 from the position on, both directions. |
| Aggregation.CountValues | paramchange.c:748-754 | The count is the number of integers before the next -1. ok is false exactly when the stream has no further -1. |
| Aggregation.FillValues | paramchange.c:761-768 | The array holds exactly the count integers of the line, and sum is their total. |
| Aggregation.SumCheckOverread | paramchange.c:761-770 | The line `5 -3 1 -1` holds the sizes 5, -3, 1, which pass the check as written for the window [1, 3]; the reader accepts them for a location with 6 rows, and computeAggedData then reads 6 rows instead of 3. |
| Aggregation.AggCheckRows | paramchange.c:770-777 | With non-negative sizes and the total check, computeAggedData reads exactly rows startOpt - 1 to endOpt - 1. |
| Aggregation.CheckedRefines | paramchange.c:770-777 | The corrected check accepts exactly the lines the check as written accepts whose sizes are non-negative, with the same sizes, and their blocks end at row endOpt - 1. |
| Aggregation.ReadAggLocation | paramchange.c:747-777 | One location yields exactly LocSpec: its line, MissingEnd, BadTotal, or Overread when the blocks take at least one row and some of those rows lie outside the location's data. On success the next line starts after the -1, and the fresh array holds the aggregation of the location's data. |
| Aggregation.MaxOfIsMax | paramchange.c:757-758 | maxCount bounds every count and is one of them, or 0 when there are no locations. |
| Aggregation.NoRowsNoOverread | paramchange.c:179-193 | A line whose blocks cover no row is never rejected as an overread, whatever the window: computeAggedData then reads no row. |
| Aggregation.EmptyLineBeforeStart | paramchange.c:770 | The line `-1` for the window [-2, -3] passes the check of line 770 (0 == -3 - (-2) + 1) and is accepted for data of any length. |
| Aggregation.ReadLocations | paramchange.c:746-778 | The location loop stops at the first location whose LocSpec (the check of line 770 as written) fails, with that error. Otherwise every location is read in full and maxCount is the largest count. |
| Aggregation.ReadFileForAgg | paramchange.c:733-784 | Success exactly when every location passes; otherwise the first failing location's error. On success every line is read in full, its data aggregated in a fresh array, and the model buffer has MaxOf(counts) rows. |
| Sums.BlockSumsAt | paramchange.c:182-191 | Aggregated row i sums exactly the rows [lo + C(i), lo + C(i+1)), C(i) being the rows of the earlier blocks. |
| Sums.BlockSumsRange | paramchange.c:182-191 | The aggregated rows [a, b) add up to the input rows that the blocks a to b - 1 cover. |
| Sums.MergeTotal | paramchange.c:179-193 | The merged blocks cover as many rows as the inner blocks grouped by outer. |
| Sums.BlockSumsCompose | paramchange.c:179-193 | Aggregating aggregated data by outer equals aggregating the input once by the merged sizes. |
| Sums.BlockSumsTotal | paramchange.c:179-193 | The block sums add up to the sum of the rows they cover. |
| Sums.BlockCover | paramchange.c:182-191 | Every covered row lies in some block. |
| Sums.BlockUnique | paramchange.c:182-191 | No row lies in two blocks. |
| Sums.BlockSumsAgree | paramchange.c:179-193 | Aggregation reads only the rows it covers. |
| Sums.ClampTotalNonNeg | paramchange.c:187 | With no negative size, the rows the loops take are the plain sum of the sizes. |
| Diagnostics.OutputInfo.constructor | paramchange.c:796-798 | A record with a fresh years buffer of the given size. |
| Diagnostics.NewOutputInfo | paramchange.c:789-801 | numDataTypes distinct records, each with its own fresh years buffer of numDays / 365 + 2 values. |
| Diagnostics.DailyTotals | paramchange.c:334-345 | Day d is the sum of the spd[d] model rows following those of the earlier days, i.e. BlockSums with the days as blocks. |
| Diagnostics.ScanRowsExact | paramchange.c:334-345 | For a calendar scanned from non-negative step counts, the daily rollup reads exactly rows startPt - 1 to endPt - 1. |
| Diagnostics.YearSizesTotal | paramchange.c:358-375 | The buckets are non-negative and their sizes add up to numDays. |
| Diagnostics.YearSizesFromDayOne | paramchange.c:358-375 | Starting on day 1, there are at most (n + 364) / 365 buckets. |
| Diagnostics.YearSizesCount | paramchange.c:796 | numYears is at least 1 when numDays >= 1, and at most numDays / 365 + 2, the buffer size. |
| Diagnostics.YearSizesWholeYears | paramchange.c:358-375 | Every bucket strictly between the first and the last is a whole year of 365 or 366 days. |
| Diagnostics.DayInYear | paramchange.c:353-376 | Every day falls in a year bucket, in order. |
| Diagnostics.DayInOneYear | paramchange.c:353-376 | No day falls in two buckets. |
| Diagnostics.YearTotalsConserve | paramchange.c:353-376 | The year totals add up to the daily totals. |
| Diagnostics.YearTotal | paramchange.c:360-365 | The inner walk stops at the end of the year or of the window, and returns the sum of the days it passed. |
| Diagnostics.YearBuckets | paramchange.c:353-376 | years[0..numYears-1] becomes YearTotals of the daily totals and the start date. numYears fits the buffer and the rest of it is untouched. |
| Diagnostics.Aggregates | paramchange.c:310-380 | numYears and years[0..numYears-1] are the year totals of the daily rollup of the model column. The rest of the years buffer is unchanged. |
| Diagnostics.CopyOutputInfo | paramchange.c:805-814 | The error measures and numYears are copied, and the first numYears yearly totals; the rest of the target buffer is untouched. |
| Indices.EndIndex | paramchange.c:467-468 | The end never lies past the last step. An end of -1 or past the last step becomes the last step. The value read is kept exactly when it is neither -1 nor past the last step, or equals the last step. |
| Indices.WindowRules | paramchange.c:455-470 | Without a file every window is [1, steps]. No end lies past the last step. With a file the start is taken as read, and so is an end that is neither -1 nor past the last step; an end of -1 or past the last step becomes steps. |
| Indices.ReadIndicesFile | paramchange.c:450-474 | No file: every window is [1, steps]. With a file, the start is taken as read and the end follows EndIndex; a value the file no longer holds leaves the entry as it was. Entries from numLocs on are untouched. |
| Likelihood.ValidCountBound | paramchange.c:251-258 | The unaggregated count is at most the number of rows in the window. |
| Likelihood.ValidSqSumNonNeg | paramchange.c:251-258 | Unaggregated sums of squares are non-negative, so the square root of line 280 sees a non-negative sum. |
| Likelihood.AggSqSumNonNeg | paramchange.c:261-266 | Aggregated sums of squares are non-negative. |
| Likelihood.ValidSqSumOnlyValid | paramchange.c:253-256 | The unaggregated sum depends only on the valid points. |
| Likelihood.NewSums | paramchange.c:245-248 | Fresh sums and counts, all zero. |
| Likelihood.AddRow | paramchange.c:252-257 | Adding row i extends every unaggregated sum and count by that row's valid point. |
| Likelihood.UnaggedSums | paramchange.c:251-258 | Entry d < half is the sum of squares and count of the valid points of type d in rows [startOpt - 1, endOpt). The other entries are unchanged. |
| Likelihood.AddAggStep | paramchange.c:262-265 | Aggregated step i is added to every aggregated sum, and every aggregated count goes up by one. |
| Likelihood.AggedSums | paramchange.c:261-266 | Entry half + d is the sum of squares of type d over all aggregated steps, valid or not; its count is numAggSteps. The other entries are unchanged. |
| Likelihood.ContribsAt | paramchange.c:279-287 | Term d of the score is contrib applied to type d's count and sum. |
| Likelihood.PartialStep | paramchange.c:279-290 | One turn of the loop: add term d, then apply the weight right after the last unaggregated type. |
| Likelihood.WeightOne | paramchange.c:288-289 | A weight of 1 gives the plain total. |
| Likelihood.Combine | paramchange.c:278-290 | The score is the unaggregated terms times unaggedWeight, applied once, plus the aggregated terms. With fewer than two types there is no weight. |
| Likelihood.AllAt | paramchange.c:245-266 | Type d's sum and count are those of its half: valid unaggregated points, all aggregated steps, or nothing for the odd type out. |
| Likelihood.SumSquares | paramchange.c:245-266 | The sums and counts of every type are AllSums and AllCounts. |
| Likelihood.Score | paramchange.c:245-290 | The per-type sums and counts, and the weighted total of their terms. |
| Likelihood.ZeroWeightSuffix | paramchange.c:278-290 | With unaggedWeight = 0 the score is the sum of the aggregated terms alone, so sums and counts that agree on the aggregated half score the same. |
| Likelihood.AggSqSumAgree | paramchange.c:261-266 | The aggregated sum of squares of a type reads only the first numAggSteps aggregated model rows. |
| Likelihood.AggregatedAgree | paramchange.c:179-193 | Two model outputs that agree on the rows the blocks cover aggregate to the same rows. |
| Likelihood.AggedSumsAgree | paramchange.c:261-266 | Aggregated models that agree on their first numAggSteps rows give the same sums for the aggregated types, whatever the unaggregated model output. |
| Likelihood.ModelAgreeSums | paramchange.c:260-266 | Two model outputs that agree on the rows the aggregation covers, each aggregated by the same block sizes, give the same sums of squares for every aggregated type. |
| Likelihood.ZeroWeightScore | paramchange.c:224-290 | With unaggedWeight = 0, two model outputs that agree on the rows the aggregation covers, each aggregated by the same block sizes, give the same score: rows outside the aggregated range do not matter. |
| Likelihood.AggedDifference | paramchange.c:224-290 | The model output is aggregated into aggedModel by the location's block sizes. Every cell of aggedModel outside the first numAggSteps rows (one per block size) and the first numDataTypes/2 columns keeps its value. The sums and counts are those of both halves, and the score is their weighted total. |

## Left out

- File and stream handling is not modelled: fopen, fscanf, ftell/fseek, fgets, countLines, readDataLine and strtod. Inputs are token or integer sequences. A file position is an index.
- strtol with base 0, which also accepts hex and octal prefixes, is not modelled. Tokens carry already converted integers.
- Calendar.ReadSpdFile: takes one block per location. The header read of lines 596-598 and its EOF error are left out, together with the rest of the I/O.
- A `.spd` block or a line of the aggregation file that runs out before its `-1` is the error MissingEnd.
  - In the C code, fscanf then fails and the loop goes on with the old value, or reads the next block.
  - For a line of the aggregation file the C count loop (lines 751-754) does not terminate.
- Diagnostics.Aggregates: meanError and daysError (lines 325-347) are floating-point error measures and are left unchanged by the model. Only the daily rollup, the year buckets and numYears are modelled, and the `dataD` daily data series is not kept.
- Likelihood.Combine: the per-type term `n * log(sigma) + sumSquares / (2 sigma^2)` with `sigma = sqrt(sumSquares / n)` is floating-point numerics. It is left as the parameter contrib, and sigma is not returned.
- Likelihood.AggedDifference: `modelF` (line 237) is an opaque callback. The model output array is an input. The call to aggregates and copyOutputInfo inside the function (lines 269-275) is modelled separately by Diagnostics.Aggregates and Diagnostics.CopyOutputInfo.
- The unaggregated `difference` function (lines 75-170) is not part of this model; it is the floating-point score without aggregation. Two defects there are not modelled:
  - `beta` is declared at line 81 and written at line 132 without ever being allocated;
  - lines 117-118 divide by `n[dataNum]` while it is still 0 on the first valid point.
- The validity threshold of line 566 is a float comparison. `valid` is an input array.
- C int arithmetic is taken as unbounded; 32-bit overflow of running totals is not modelled.
- malloc/free, freeOutputInfo, cleanupParamchange and the fprintf diagnostics are not modelled. The OutputInfo records of newOutputInfo are one C array; the model allocates a separate object for each.
- The process-global state (aggInfo, aggSteps, aggedData, aggedModel, unaggedWeight) is passed as parameters and results. In particular unaggedWeight, which readFileForAgg stores at line 783, is a parameter of AggedDifference and is not among ReadFileForAgg's results.
- Aggregation.ReadAggLocation: when the blocks accepted by the check of line 770 take at least one row and some of them lie before row 0 or past the location's data, the C code reads outside the array, which is undefined behaviour. The model stops with the error Overread instead. ReadLocations and ReadFileForAgg inherit this error. Blocks that take no row are accepted for any window, as in the C code.
- Likelihood.ZeroWeightSuffix: holds for finite per-type terms only. contrib is a real-valued function and cannot be NaN. In the C code the term of lines 279-284 is NaN when n[d] == 0 (0/0 in sigma) or when sumSquares[d] == 0 (log(0), then 0/0). Line 289 multiplies the unaggregated total by 0.0, and NaN * 0.0 is still NaN, so the C score is NaN and not the aggregated sum.
- Likelihood.ZeroWeightScore: the same limit. It holds for finite per-type terms only; an unaggregated type with no valid point, or with an exact fit, makes the C score NaN whatever unaggedWeight is.
- Diagnostics.ScanRowsExact: needs non-negative step counts. With a negative step count, line 337 runs its loop zero times for that day, and the rows read no longer match the window.

## Findings

| source | as written | input that shows it | evidently intended | confidence | as-written member | corrected member |
|---|---|---|---|---|---|---|
| paramchange.c:770 | readFileForAgg checks only that the block sizes add up to endOpt - startOpt + 1 | the line `5 -3 1 -1` for the window [1, 3]: the sizes 5, -3, 1 add up to 3, but computeAggedData's loop `j < myAggSteps[i]` takes 5 + 0 + 1 = 6 rows, rows 0 to 5 | every block size non-negative as well, so the blocks cover exactly rows startOpt - 1 to endOpt - 1 | not executed | Aggregation.SumCheckOverread | Aggregation.CheckedRefines |
