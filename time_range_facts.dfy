/** What the word-cloud command promises about the ranges it resolves. */
module TimeRangeFacts {
  import opened Wrappers
  import opened Text
  import opened Civil
  import opened TimeRange

  predicate IsMidnight(d: DateTime) {
    d.hour == 0 && d.minute == 0 && d.second == 0 && d.microsecond == 0
  }

  predicate SameDay(a: DateTime, b: DateTime) {
    a.year == b.year && a.month == b.month && a.day == b.day && a.tz == b.tz
  }

  /** The handler's keyword and "我的" modifier are read back from the alias it matched. */
  lemma CommandNameParts(mine: bool, word: string)
    requires !StartsWith(word, MinePrefix)
    ensures SplitMine(CommandBody(CommandName(mine, word))) == (mine, word)
  {
    var name := CommandName(mine, word);
    var body := (if mine then MinePrefix else []) + word;
    assert name == body + Suffix;
    assert CommandBody(name) == body;
    if mine {
      assert StartsWith(body, MinePrefix) && body[2..] == word;
    } else {
      assert body == word;
    }
  }

  lemma KeywordWordsAreNotMine(word: string)
    requires KeywordOf(word).Some?
    ensures !StartsWith(word, MinePrefix)
  {
  }

  /** "我的" changes nothing but `my`: with and without it the handler writes the same
      `start` and `stop` and ends the same way, and `my` records which alias it was. */
  lemma MineOnlySetsMy(word: string, argText: string, now: PyDateTime, parse: string -> Option<PyDateTime>)
    requires !StartsWith(word, MinePrefix)
    ensures var a := Resolve(true, CommandName(true, word), argText, now, parse);
            var b := Resolve(true, CommandName(false, word), argText, now, parse);
            && a.ending == b.ending && a.writes.start == b.writes.start && a.writes.stop == b.writes.stop
            && a.writes.my == Some(true) && b.writes.my == Some(false)
  {
    CommandNameParts(true, word);
    CommandNameParts(false, word);
  }

  /** A range keyword other than 历史 resolves through its own branch. */
  lemma KeywordCommand(mine: bool, word: string, argText: string, now: PyDateTime, parse: string -> Option<PyDateTime>)
    requires KeywordOf(word).Some? && KeywordOf(word).value != History
    ensures var h := Resolve(true, CommandName(mine, word), argText, now, parse);
            var o := KeywordBranch(KeywordOf(word).value, now);
            h == Handled(Writes(Some(mine), o.start, o.stop), o.ending)
  {
    KeywordWordsAreNotMine(word);
    CommandNameParts(mine, word);
  }

  /** 历史 works on the stripped argument text. */
  lemma HistoryCommand(mine: bool, argText: string, now: PyDateTime, parse: string -> Option<PyDateTime>)
    ensures var h := Resolve(true, CommandName(mine, "历史"), argText, now, parse);
            var o := HistoryBranch(Strip(argText), parse);
            h == Handled(Writes(Some(mine), o.start, o.stop), o.ending)
  {
    assert KeywordOf("历史") == Some(History);
    KeywordWordsAreNotMine("历史");
    CommandNameParts(mine, "历史");
  }

  /** An unrecognised word ends the command with the usage text when the argument
      is empty and silently otherwise, writing no range. */
  lemma UnknownCommand(mine: bool, word: string, argText: string, now: PyDateTime, parse: string -> Option<PyDateTime>)
    requires KeywordOf(word).None? && !StartsWith(word, MinePrefix)
    ensures var h := Resolve(true, CommandName(mine, word), argText, now, parse);
            && h.ending == Finish(if argText == [] then Usage else Silent)
            && h.writes == Writes(Some(mine), None, None)
  {
    CommandNameParts(mine, word);
  }

  /** Outside a group-level session nothing is written and the command is refused. */
  lemma NotInGroupRefused(command: string, argText: string, now: PyDateTime, parse: string -> Option<PyDateTime>)
    ensures Resolve(false, command, argText, now, parse) == Handled(Writes(None, None, None), Finish(NotInGroup))
  {
  }

  /** 今日: from midnight of today up to now. */
  lemma TodayRange(now: PyDateTime)
    ensures var o := KeywordBranch(Today, now);
            && o.ending == Proceed && o.stop == Some(now) && o.start.Some?
            && IsMidnight(o.start.value) && SameDay(o.start.value, now)
            && Instant(o.start.value) <= Instant(now) < Instant(o.start.value) + MicrosPerDay
  {
    MidnightBounds(now);
  }

  /** 昨日: the whole day before today, ending where 今日 starts. Only on
      0001-01-01 does the start overflow. */
  lemma YesterdayRange(now: PyDateTime)
    ensures var o := KeywordBranch(Yesterday, now);
            && o.stop == KeywordBranch(Today, now).start
            && (o.ending == RaiseOverflow <==> DayNumber(now) == 0)
            && (o.ending != RaiseOverflow ==>
                  && o.ending == Proceed && o.start.Some?
                  && IsMidnight(o.start.value)
                  && DayNumber(o.start.value) == DayNumber(now) - 1
                  && Instant(o.start.value) + MicrosPerDay == Instant(o.stop.value))
  {
    var stop := Midnight(now);
    MidnightBounds(now);
    AddDaysShift(stop, -1);
    AddDaysKeepsClock(stop, -1);
    AddDaysYearBound(stop, -1);
    DayNumberSign(AddDays(stop, -1));
  }

  lemma WeekStart(now: PyDateTime)
    ensures var start := AddDays(Midnight(now), -Weekday(now));
            && start.InRange() && IsMidnight(start) && start.tz == now.tz
            && Weekday(start) == 0 && DayNumber(start) == 7 * (DayNumber(now) / 7)
            && DayNumber(start) == DayNumber(now) - Weekday(now)
  {
    var m := Midnight(now);
    MidnightBounds(now);
    AddDaysShift(m, -Weekday(now));
    AddDaysKeepsClock(m, -Weekday(now));
    AddDaysYearBound(m, -Weekday(now));
    var start := AddDays(m, -Weekday(now));
    var n := DayNumber(now);
    DayNumberSign(now);
    assert n == 7 * (n / 7) + n % 7;
    assert DayNumber(start) == 7 * (n / 7);
    DayNumberSign(start);
  }

  lemma MultipleOfSeven(q: int)
    ensures (7 * q) % 7 == 0
  {
  }

  lemma WeekBefore(now: PyDateTime)
    ensures var stop := AddDays(Midnight(now), -Weekday(now));
            var start := AddDays(stop, -DaysPerWeek);
            && (start.InRange() <==> DayNumber(now) >= 7)
            && IsMidnight(start) && Weekday(start) == 0
            && Instant(start) + DaysPerWeek * MicrosPerDay == Instant(stop)
  {
    WeekStart(now);
    var stop := AddDays(Midnight(now), -Weekday(now));
    AddDaysBack(stop, -DaysPerWeek);
    var start := AddDays(stop, -DaysPerWeek);
    var n := DayNumber(now);
    var q := n / 7;
    assert DayNumber(start) == 7 * (q - 1);
    MultipleOfSeven(q - 1);
    assert n >= 7 <==> q >= 1;
  }

  /** 本周: from the Monday midnight 0 to 6 days back up to now. */
  lemma ThisWeekRange(now: PyDateTime)
    ensures var o := KeywordBranch(ThisWeek, now);
            && o.ending == Proceed && o.stop == Some(now) && o.start.Some?
            && var start := o.start.value;
            && IsMidnight(start) && Weekday(start) == 0 && start.tz == now.tz
            && 0 <= DayNumber(now) - DayNumber(start) <= 6
            && Instant(start) <= Instant(now)
  {
    WeekStart(now);
    MidnightBounds(now);
  }

  /** 上周 ends where 本周 starts. */
  lemma LastWeekMeetsThisWeek(now: PyDateTime)
    ensures KeywordBranch(LastWeek, now).stop == KeywordBranch(ThisWeek, now).start
  {
    WeekStart(now);
  }

  /** 上周 overflows only in the first week of year 1. */
  lemma LastWeekOverflow(now: PyDateTime)
    ensures KeywordBranch(LastWeek, now).ending == RaiseOverflow <==> DayNumber(now) < 7
  {
    WeekStart(now);
    WeekBefore(now);
  }

  /** 上周: exactly seven days from a Monday midnight. */
  lemma LastWeekRange(now: PyDateTime)
    ensures var o := KeywordBranch(LastWeek, now);
            o.ending != RaiseOverflow ==>
              && o.ending == Proceed && o.start.Some? && o.stop.Some?
              && IsMidnight(o.start.value) && Weekday(o.start.value) == 0
              && Instant(o.start.value) + DaysPerWeek * MicrosPerDay == Instant(o.stop.value)
  {
    WeekStart(now);
    WeekBefore(now);
    var stop := AddDays(Midnight(now), -Weekday(now));
    var start := AddDays(stop, -DaysPerWeek);
    if start.InRange() {
      assert KeywordBranch(LastWeek, now) == Outcome(Some(start), Some(stop), Proceed);
    } else {
      assert KeywordBranch(LastWeek, now).ending == RaiseOverflow;
    }
  }

  /** 本月: from midnight of the first of the month up to now. */
  lemma ThisMonthRange(now: PyDateTime)
    ensures var o := KeywordBranch(ThisMonth, now);
            && o.ending == Proceed && o.stop == Some(now) && o.start.Some?
            && var start := o.start.value;
            && IsMidnight(start) && start.day == 1
            && start.year == now.year && start.month == now.month && start.tz == now.tz
            && Instant(start) <= Instant(now)
  {
    FirstOfMonthBounds(now);
  }

  /** 上月: the whole previous month (December of the previous year in January).
      Its stop is the last microsecond of that month, one microsecond before 本月
      starts, so the two never overlap. It overflows only in January of year 1. */
  lemma LastMonthRange(now: PyDateTime)
    ensures var o := KeywordBranch(LastMonth, now);
            var py := if now.month == 1 then now.year - 1 else now.year;
            var pm := if now.month == 1 then 12 else now.month - 1;
            && (o.ending == RaiseOverflow <==> now.year == 1 && now.month == 1)
            && (o.ending != RaiseOverflow ==>
                  && o.ending == Proceed
                  && o.start == Some(DateTime(py, pm, 1, 0, 0, 0, 0, now.tz))
                  && o.stop == Some(DateTime(py, pm, DaysInMonth(py, pm), 23, 59, 59, MicrosPerSecond - 1, now.tz))
                  && Instant(o.stop.value) + 1 == Instant(KeywordBranch(ThisMonth, now).start.value))
  {
    var first := FirstOfMonth(now);
    PrevMicrosecondShift(first);
    if now.month == 1 {
      YearStep(now.year - 1);
    } else {
      MonthStep(now.year, now.month - 1);
    }
  }

  /** 年度: from midnight of January 1 up to now. */
  lemma ThisYearRange(now: PyDateTime)
    ensures var o := KeywordBranch(ThisYear, now);
            && o.ending == Proceed && o.stop == Some(now) && o.start.Some?
            && var start := o.start.value;
            && IsMidnight(start) && start.month == 1 && start.day == 1
            && start.year == now.year && start.tz == now.tz
            && Instant(start) <= Instant(now)
  {
    FirstOfYearBounds(now);
  }

  /** 历史 with no literal writes neither bound, so the matcher prompts for both. */
  lemma HistoryWithoutLiteral(parse: string -> Option<PyDateTime>)
    ensures HistoryBranch([], parse) == Outcome(None, None, Proceed)
  {
    assert SplitHistory([]).None?;
  }

  /** A single 历史 literal means the whole day it falls on, even when it carries a
      time of day; only 9999-12-31 overflows. */
  lemma HistorySingleDay(text: string, parse: string -> Option<PyDateTime>, a: string, d: PyDateTime)
    requires SplitHistory(text) == Some((a, None)) && parse(a) == Some(d)
    ensures var o := HistoryBranch(text, parse);
            && o.start == Some(Midnight(d))
            && (o.ending == RaiseOverflow <==> d.year == MaxYear && d.month == 12 && d.day == 31)
            && (o.ending != RaiseOverflow ==>
                  && o.ending == Proceed && o.stop.Some?
                  && IsMidnight(o.stop.value)
                  && DayNumber(o.stop.value) == DayNumber(d) + 1
                  && Instant(o.stop.value) == Instant(Midnight(d)) + MicrosPerDay)
  {
    var start := Midnight(d);
    AddOneDay(start);
    AddDaysShift(start, 1);
  }

  /** Two 历史 literals are kept exactly as parsed, with no widening to whole days. */
  lemma HistoryTwoLiterals(text: string, parse: string -> Option<PyDateTime>,
                           a: string, b: string, x: PyDateTime, y: PyDateTime)
    requires SplitHistory(text) == Some((a, Some(b))) && parse(a) == Some(x) && parse(b) == Some(y)
    ensures HistoryBranch(text, parse) == Outcome(Some(x), Some(y), Proceed)
  {
  }

  /** A literal that does not parse ends the command with the invalid-date reply. */
  lemma HistoryInvalidLiteral(text: string, parse: string -> Option<PyDateTime>, a: string, b: Option<string>)
    requires SplitHistory(text) == Some((a, b))
    requires parse(a).None? || (b.Some? && parse(b.value).None?)
    ensures HistoryBranch(text, parse).ending == Finish(InvalidDate)
  {
  }
}
