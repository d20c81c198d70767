# Coligny calendar conversion, modelled in Dafny

`ColignyCal` in calendar.py converts a proleptic Gregorian date into a
position in the Coligny calendar. That position is a five-year cycle, a year
position within the cycle, a month (with its name and its lucky flag), a
five-day week and a day. The conversion counts days since the calendar's
epoch. It then splits that count by repeated subtraction over digits of
variable length. A year position lasts S or S + 30 days, where S is the
length of the twelve standard months. A month lasts 29 or 30 days.

The project has four modules:

- `Wrappers` (wrappers.dfy): `Option`, and `Result` with the two exceptions a
  conversion can end in (`NoMonthPassed`, `DayUnset`).
- `Decimal` (decimal.dfy): how `str.format` writes an `int`, with a parser
  as its reference.
- `ColignySpec` (coligny_spec.dfy): each step as a function of its inputs,
  and the lemmas about those functions.
  - `GetDaysAsWritten` and `DaysSinceEpoch`: the day count.
  - `CycleSplit`: the cycle split.
  - `YearScan`: the state of get_year's loop after each position.
  - `MonthScan`: the state of get_month's loop after each month.
  - `WeekStep`: get_week.
  - `RenderFields`: `__repr__`.
  - `Decompose`: the whole conversion.
- `ColignyCalendar` (coligny_calendar.dfy): the class itself.
  - Its attributes are mutable fields.
  - `GetYear`, `GetMonth` and `GetWeek` update `currDays` (and `day`) in
    place, as the source does. Each loop is proved against the matching
    `ColignySpec` function.
  - `Convert` runs `__init__` from start to end, on the day count that
    get_days computes as written.

The month tables `months`, `y1` and `y3` live in months.py, which is not
part of this model. They are parameters here: sequences of
`MonthEntry(flag, name)` of lengths 12, 13 and 13. The entry for Python key
`m` is element `m - 1`. A month lasts 30 days when its flag is set and 29
otherwise. `lucky` is the same flag.

What the proofs establish about the code as written:

- The cycle length `60 + 5·S` equals the sum of the five year lengths that
  get_year tests.
- Every loop conserves its days: what is left plus what was consumed equals
  the input.
- get_year does not always report the year that holds the day.
  - Position 2 is shorter than position 1, so a remainder in `[S, S+30)`
    fails position 1, passes position 2 and is reported as year 2.
  - Position 4 is shorter than position 3, so a remainder in
    `[3S+30, 3S+60)` is reported as year 4.
  - `YearScanClosedForm` gives the outcome for every remainder.
    `YearScanVersusSpan` shows the reported year agrees with the span that
    holds the day exactly outside these two windows. Even so, the year is
    always 1–5, and the remainder is always shorter than the reported year.
- get_month reports the last month it consumed, not the month the day falls
  in. It raises when no month fits. This happens on the first day of every
  cycle, day count 0 included (`CycleStartHasNoMonth`). It does not return
  month 1 there.
- The final `else` of get_month cannot run for any year value. The first
  test, `year != 1 and year != 3`, already takes every year except 1 and 3.
- get_week leaves `day` unset up to week 1, and `__repr__` then raises.
  Past week 1, remainders 0 and 1 both give day 1, so a snapshot does not
  determine its date. Only the partial conservation in `DecomposeConserves`
  holds.

## Model

| member | source | states |
|---|---|---|
| `ColignyCalendar.ColignyCal.CountDaysInCycle` | calendar.py:81-87 | the loop's total is 60 plus five times the twelve standard month lengths, and equals the sum of the five year-position lengths |
| `ColignySpec.CycleIsFiveYears` | calendar.py:151-161 | `days_in_cycle` is the sum of the lengths get_year gives positions 1..5 (S+30, S, S+30, S, S); with twelve months it lies in [1800, 1860], so it is positive |
| `ColignySpec.PositionEnds` | calendar.py:151-161 | positions 1..5 end at S+30, 2S+30, 3S+60, 4S+60 and 5S+60 days into the cycle |
| `ColignyCalendar.ColignyCal.constructor` | calendar.py:89-95 | after construction, `days_gone` is get_days' count as written, and `days_in_cycle`, the cycle and remainder, and the year with its leftover days are those of the specification functions; the year is 1..5 and the leftover is non-negative; the cycle is ≥ 0 from ordinal 371897 on and ≤ 0 before it |
| `ColignySpec.GetDaysAsWritten` | calendar.py:129-134 | the count the source computes falls short of the days since the epoch by twice the epoch's ordinal distance from 0 less the one day that `julian_offset` lags the Julian day number, that is by 743795 days |
| `ColignySpec.GetDaysAsWrittenMonotone` | calendar.py:129-134 | that count is strictly increasing in the ordinal |
| `ColignySpec.GetDaysAsWrittenMissesEpoch` | calendar.py:129-134 | that count is 0 at ordinal 371897 (22 March 1019 CE), is −743795 on the epoch (ordinal −371898), and is negative for the first valid date |
| `ColignySpec.DaysSinceEpoch` | calendar.py:34-36 | the day count is the date's Julian day number (ordinal + 1721425) minus the epoch's, 1349527 |
| `ColignySpec.DaysSinceEpochMonotone` | calendar.py:121-134 | the intended day count is strictly increasing in the ordinal |
| `ColignySpec.DaysSinceEpochFacts` | calendar.py:121-134 | the intended day count is 0 exactly on the day whose Julian day number is 1349527 (ordinal −371898, 21 October 1019 BCE in the Julian calendar) and positive for every date Python can represent |
| `ColignySpec.CycleSplitFacts` | calendar.py:136-144 | the remainder lies in [0, days_in_cycle); for a non-negative count, cycles·days_in_cycle + remainder equals the count with cycles ≥ 0; for a negative count, floor `%` with truncating `int()` overshoots by one cycle unless the count is a whole number of cycles |
| `ColignyCalendar.ColignyCal.GetYear` | calendar.py:146-168 | the returned year is 1 plus the positions whose test passed, and `curr_days` becomes what the five tests left |
| `ColignySpec.YearScanConserves` | calendar.py:149-168 | the days left plus the lengths of the passing positions equal the initial `curr_days` |
| `ColignySpec.YearScanClosedForm` | calendar.py:149-168 | the exact (year, leftover) for every remainder in the cycle, including the two windows where a later, shorter position passes after an earlier one failed |
| `ColignySpec.YearWithinCycle` | calendar.py:149-168 | for a remainder inside the cycle, the year is 1..5 and the leftover is non-negative and shorter than that year |
| `ColignySpec.YearScanVersusSpan` | calendar.py:149-168 | the reported year equals the position whose span holds the day if and only if the remainder is outside [S, S+30) and [3S+30, 3S+60) |
| `ColignyCalendar.ColignyCal.GetMonth` | calendar.py:170-215 | the table is chosen by year (the 12-month table unless the year is 1 or 3); `curr_days` becomes what the walk leaves; the result is the last month consumed with its name and luck, or the failure when none was consumed |
| `ColignySpec.MonthScanConserves` | calendar.py:173-214 | the days left plus the lengths of the consumed months equal the initial `curr_days` |
| `ColignySpec.MonthScanRecordsLastPass` | calendar.py:182-186 | the recorded month is the largest index whose test passed, and it is 0 exactly when no test passed |
| `ColignySpec.MonthScanNoneIff` | calendar.py:182-215 | no month is recorded, and nothing is consumed, exactly when the days are fewer than every month length of the table |
| `ColignySpec.MonthScanRemainderBelowThirty` | calendar.py:173-214 | unless every month was consumed, fewer than 30 days are left |
| `ColignyCalendar.ColignyCal.GetWeek` | calendar.py:217-226 | the week is `curr_days` divided by 5 and truncated; past week 1, `curr_days` and `day` are rewritten by the day rule, and otherwise both are unchanged |
| `ColignySpec.WeekStepFacts` | calendar.py:217-226 | for non-negative days, the week is the quotient by 5 and exceeds 1 exactly from 10 days on; past week 1, the days become the remainder by 5 and the day is that remainder (1 for remainder 0), so it is 1..4; otherwise nothing changes |
| `ColignySpec.DayRuleCollides` | calendar.py:221-224 | remainders 0 and 1 both give day 1 |
| `ColignySpec.RenewalIffTwentyDaysIn` | calendar.py:228-232 | renewal_check holds exactly when at least 20 days of the month are left to split into weeks |
| `ColignyCalendar.ColignyCal.Render` | calendar.py:102-119 | `__repr__` fails exactly when `day` was never set; otherwise the text starts with the cycle, year and month-name head, continues with "'s Renewal" exactly when renewal_check holds, and ends with the lucky-month line exactly when `lucky` is set |
| `ColignySpec.RenderRenewalIff` | calendar.py:103-114 | right after the head, the text reads "'s Renewal" if and only if the week is past the third |
| `ColignySpec.RenderLuckyIff` | calendar.py:116-119 | the text ends with "\nThis is a lucky month!" if and only if the month is lucky |
| `Decimal.ParseNatToString` | calendar.py:104-114 | the decimal digits written for a natural number parse back to that number |
| `Decimal.IntToStringRoundTrip` | calendar.py:104-114 | the text written for any integer (a minus sign, then digits) reads back as that integer |
| `ColignyCalendar.Convert` | calendar.py:89-97 | constructing a calendar for a date fails exactly when the whole conversion fails, with the same error; on success the fresh object holds the caller's tables, the ordinal and get_days' count as written, and its other attributes are the conversion's snapshot |
| `ColignySpec.DecomposeInRange` | calendar.py:43-58 | for any day count, a successful conversion has year 1..5, a month in 1..12 (1..13 in years 1 and 3) whose name and luck come from that table entry, luck exactly for a 30-day month, week 0..5, days left ≥ 0, and a day (1..4) exactly when the week exceeds 1; its cycle is ≥ 0 when the count is |
| `ColignySpec.DecomposeConserves` | calendar.py:93-97 | whole cycles, consumed years, consumed months, whole weeks (when counted) and the days left add back up to the day count; for a negative count that is not a whole number of cycles they add up to one cycle more |
| `ColignySpec.DecomposeFailsIff` | calendar.py:170-215 | the conversion raises exactly when what the year leaves is shorter than every month of its table |
| `ColignySpec.CycleStartHasNoMonth` | calendar.py:141-215 | the first day of every cycle splits into cycle k with remainder 0, and its conversion raises because no month fits |

## Findings

| source | as written | input that shows it | evidently intended | confidence | as-written member | corrected member |
|---|---|---|---|---|---|---|
| calendar.py:129-134 | `date + (day_zero_julian - julian_offset)`: adds 1349527 − 1721424 = −371897 to the ordinal instead of subtracting the epoch's ordinal; `julian_offset` (calendar.py:129) also runs one day behind the Julian day number, whose value for ordinal 0 is 1721425 | the epoch itself, ordinal −371898 (Julian day 1349527), gives −743795 instead of 0; 9 Dec 2022 (ordinal 738498) gives 366601 instead of 1110396 | days since Julian day 1349527, that is ordinal − (1349527 − 1721425) = ordinal + 371898 | high; not executed | `ColignySpec.GetDaysAsWritten` (with `ColignySpec.GetDaysAsWrittenMissesEpoch`) | `ColignySpec.DaysSinceEpoch` (with `ColignySpec.DaysSinceEpochFacts`) |

The class and `Convert` follow the source and use `GetDaysAsWritten`.
`DaysSinceEpoch` stands beside it as the corrected count. With the corrected
count every date Python can represent is after the epoch. With the count as
written, ordinals 1 to 371896 give a negative count. For those dates
get_cycle takes the pre-epoch path that `CycleSplitFacts` and
`DecomposeConserves` describe.

## Left out

- The ephemeris observer, moon and sun that the constructor clones
  (calendar.py:90-92). They come from a foreign library and the calendar
  arithmetic never uses them. year0calc.py is not part of this model.
- The interactive `__main__` block (calendar.py:234-243), and the `print` in
  get_month's unreachable branch (calendar.py:211-212). They are I/O only.
- `date.toordinal()` is a library call. The constructor takes the ordinal as
  an integer in [1, 3652059], the range of Python's `date`.
- `int(a / b)` divides floats in the source (calendar.py:142, 218). It is
  modelled as integer division truncated toward zero, which is exact for
  the magnitudes a date can produce.
- The contents of months.py. The tables are parameters with only their
  lengths fixed.
- `__len__` (calendar.py:99-100), which returns `days_gone`.
- Python's exception types. An unbound `name`/`luck` and a missing `day`
  attribute become the two `CalError` values.
