/**
 * The ColignyCal class of calendar.py: a conversion whose steps write the
 * object's attributes one after another. `curr_days` starts as the day of
 * the cycle and shrinks as get_year, get_month and get_week split parts off.
 * Each method is proved against the value-level functions of ColignySpec.
 */
module ColignyCalendar {
  import opened Wrappers
  import opened ColignySpec

  /** What get_month returns: the month index, its name and its luck. */
  datatype MonthPick = MonthPick(month: int, name: string, luck: bool)

  class ColignyCal {
    const months: seq<MonthEntry>
    const y1: seq<MonthEntry>
    const y3: seq<MonthEntry>

    var daysInCycle: int
    var gregOrdinal: int
    var daysGone: int
    var cycle: int
    var currDays: int
    var year: int
    var month: int
    var monthName: string
    var lucky: bool
    var week: int
    var day: Option<int>

    ghost predicate Valid()
      reads this
    {
      WellFormedTables(months, y1, y3) && daysInCycle == CycleDays(months)
    }

    /** The loop at the head of __init__ that totals `days_in_cycle`. */
    static method CountDaysInCycle(months: seq<MonthEntry>) returns (days: int)
      requires |months| == 12
      ensures days == CycleDays(months)
      ensures days == PositionsDays(months, 5)
    {
      days := 60;
      for y := 1 to 13
        invariant days == 60 + 5 * TableDays(months[..y - 1])
      {
        TableDaysExtend(months, y - 1);
        if months[y - 1].flag {
          days := days + 30 * 5;
        } else {
          days := days + 29 * 5;
        }
      }
      assert months[..12] == months;
      CycleIsFiveYears(months);
    }

    /** __init__ up to and including get_year: the cycle length, the day
        count, the cycle split and the year split. */
    constructor (ordinal: int, months: seq<MonthEntry>, y1: seq<MonthEntry>, y3: seq<MonthEntry>)
      requires WellFormedTables(months, y1, y3)
      requires MinOrdinal <= ordinal <= MaxOrdinal
      ensures Valid()
      ensures this.months == months && this.y1 == y1 && this.y3 == y3
      ensures gregOrdinal == ordinal && daysGone == GetDaysAsWritten(ordinal)
      ensures var cp := CycleSplit(daysGone, daysInCycle);
        var ys := YearScan(months, cp.rem, 5);
        cycle == cp.cycles && year == 1 + ys.passed && currDays == ys.left
      ensures 1 <= year <= 5 && currDays >= 0
      ensures ordinal >= 371897 ==> cycle >= 0
      ensures ordinal < 371897 ==> cycle <= 0
      ensures month == 0 && monthName == "" && !lucky && week == 0 && day == None
    {
      this.months, this.y1, this.y3 := months, y1, y3;
      var d := CountDaysInCycle(months);
      daysInCycle := d;
      gregOrdinal := ordinal;
      daysGone := GetDaysAsWritten(ordinal);
      var cp := CycleSplit(GetDaysAsWritten(ordinal), d);
      cycle, currDays := cp.cycles, cp.rem;
      year := 1;
      month, monthName, lucky, week, day := 0, "", false, 0, None;
      new;
      CycleSplitFacts(daysGone, daysInCycle);
      YearWithinCycle(months, currDays);
      year := GetYear();
    }

    /** get_year: test the five positions in order, consuming each whose
        length fits in what is left; the year is one more than the passes. */
    method GetYear() returns (year: int)
      requires Valid()
      modifies this`currDays
      ensures year == 1 + YearScan(months, old(currDays), 5).passed
      ensures currDays == YearScan(months, old(currDays), 5).left
    {
      year := 1;
      var daysLeft := currDays;
      for c := 1 to 6
        invariant year == 1 + YearScan(months, old(currDays), c - 1).passed
        invariant daysLeft == YearScan(months, old(currDays), c - 1).left
      {
        var days := 0;
        if c == 1 || c == 3 {
          days := days + 30;
        }
        for y := 1 to 13
          invariant days == (if c == 1 || c == 3 then 30 else 0) + TableDays(months[..y - 1])
        {
          TableDaysExtend(months, y - 1);
          if months[y - 1].flag {
            days := days + 30;
          } else {
            days := days + 29;
          }
        }
        assert months[..12] == months;
        if daysLeft >= days {
          year := year + 1;
          daysLeft := daysLeft - days;
        }
      }
      currDays := daysLeft;
    }

    /** get_month: walk the table for the year, consuming every month whose
        length fits and remembering the last one consumed. When none fits the
        source returns names it never bound, which is the Failure here. */
    method GetMonth() returns (r: Result<MonthPick>)
      requires Valid()
      modifies this`currDays
      ensures var t := MonthTable(year, months, y1, y3);
        var s := MonthScan(t, old(currDays), |t|);
        && currDays == s.left
        && r == if s.month == 0 then Failure(NoMonthPassed)
                else Success(MonthPick(s.month, t[s.month - 1].name, t[s.month - 1].flag))
    {
      var daysLeft := currDays;
      var month := 0;
      var name := "";
      var luck := false;
      var t: seq<MonthEntry>;
      if year != 1 && year != 3 {
        t := months;
      } else if year == 1 {
        t := y1;
      } else {
        // year == 3; the source's remaining branch cannot be reached
        t := y3;
      }
      for m := 1 to |t| + 1
        invariant MonthState(month, daysLeft) == MonthScan(t, old(currDays), m - 1)
        invariant month >= 1 ==> name == t[month - 1].name && luck == t[month - 1].flag
      {
        var daysInMonth := 0;
        if t[m - 1].flag {
          daysInMonth := 30;
        } else {
          daysInMonth := 29;
        }
        if daysLeft >= daysInMonth {
          month := m;
          name := t[m - 1].name;
          luck := t[m - 1].flag;
          daysLeft := daysLeft - daysInMonth;
        }
      }
      currDays := daysLeft;
      if month == 0 {
        r := Failure(NoMonthPassed);
      } else {
        r := Success(MonthPick(month, name, luck));
      }
    }

    /** get_week: whole weeks of five days; only past the first week are the
        remaining days and `day` rewritten. */
    method GetWeek() returns (week: int)
      modifies this`currDays, this`day
      ensures var w := WeekStep(old(currDays), old(day));
        week == w.week && currDays == w.curr && day == w.day
    {
      week := TruncDiv(currDays, 5);
      if week > 1 {
        currDays := currDays - 5 * week;
        if currDays == 0 {
          day := Some(1);
        } else {
          day := Some(currDays);
        }
      }
    }

    /** renewal_check */
    function RenewalCheck(): (r: bool)
      reads this
    {
      Renewal(week)
    }

    /** __repr__; reading an unset `day` raises, which is the Failure here. */
    function Render(): (r: Result<string>)
      reads this
      ensures r.Failure? <==> day.None?
      ensures r.Success? ==>
        var h := RenderHead(cycle, year, monthName);
        && StartsWith(r.value, h)
        && (StartsWith(r.value[|h|..], RenewalSuffix) <==> RenewalCheck())
        && (EndsWith(r.value, LuckyLine) <==> lucky)
    {
      if day.None? then Failure(DayUnset)
      else
        RenderRenewalIff(cycle, year, monthName, week, day.value, lucky);
        RenderLuckyIff(cycle, year, monthName, week, day.value, lucky);
        Success(RenderFields(cycle, year, monthName, week, day.value, lucky))
    }

    /** The attributes as a value. */
    function Attributes(): Snapshot
      reads this
    {
      ColignySpec.Snapshot(cycle, year, month, monthName, lucky, week, day, currDays)
    }
  }

  /** `ColignyCal(date)` for a date with the given ordinal: the constructor,
      then get_month (which may raise) and get_week. */
  method Convert(ordinal: int, months: seq<MonthEntry>, y1: seq<MonthEntry>, y3: seq<MonthEntry>)
    returns (r: Result<ColignyCal>)
    requires WellFormedTables(months, y1, y3)
    requires MinOrdinal <= ordinal <= MaxOrdinal
    ensures var s := Decompose(GetDaysAsWritten(ordinal), months, y1, y3);
      && (r.Failure? <==> s.Failure?)
      && (r.Failure? ==> r.error == s.error)
      && (r.Success? ==>
            && fresh(r.value) && r.value.Valid()
            && r.value.months == months && r.value.y1 == y1 && r.value.y3 == y3
            && r.value.gregOrdinal == ordinal && r.value.daysGone == GetDaysAsWritten(ordinal)
            && r.value.Attributes() == s.value)
  {
    var c := new ColignyCal(ordinal, months, y1, y3);
    var pick := c.GetMonth();
    if pick.Failure? {
      return Failure(pick.error);
    }
    c.month, c.monthName, c.lucky := pick.value.month, pick.value.name, pick.value.luck;
    var w := c.GetWeek();
    c.week := w;
    return Success(c);
  }
}
