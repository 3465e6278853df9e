/**
 * The report page: the time-range filter over the loaded records and the
 * figures computed from what it keeps (monthly trend, top members, top
 * items, income, expense and net).
 */
module Reports {
  import opened Wrappers
  import opened Seqs
  import opened Ledger
  import opened Calendar
  import opened Monthly
  import opened Ranking

  // ---- Range bounds, each `new Date(year, monthIndex, day)` at local midnight ----

  /** `new Date(y, m, 1)`: the first day of the current month. */
  function ThisMonthStart(now: DateTime): DateTime
    requires ValidTime(now)
  {
    NewDate(now.year, now.month - 1, 1)
  }

  /** `new Date(y, m - 1, 1)`: the first day of the previous month. */
  function LastMonthStart(now: DateTime): DateTime
    requires ValidTime(now)
  {
    NewDate(now.year, now.month - 2, 1)
  }

  /** `new Date(y, m, 0)`: the last day of the previous month, at 00:00. */
  function LastMonthEnd(now: DateTime): DateTime
    requires ValidTime(now)
  {
    NewDate(now.year, now.month - 1, 0)
  }

  /** `new Date(y, Math.floor(m / 3) * 3, 1)`: the first day of the current quarter. */
  function QuarterStart(now: DateTime): DateTime
    requires ValidTime(now)
  {
    NewDate(now.year, ((now.month - 1) / 3) * 3, 1)
  }

  // ---- Record predicates. Comparing an Invalid Date is always false. ----

  /** `new Date(record.time) >= start`. */
  function OnOrAfter(start: DateTime): Record -> bool {
    (r: Record) => ValidTime(r.time) && AtOrAfter(r.time, start)
  }

  /** `recordDate >= start && recordDate <= end`, both bounds inclusive. */
  function Between(start: DateTime, end: DateTime): Record -> bool {
    (r: Record) => ValidTime(r.time) && AtOrAfter(r.time, start) && AtOrBefore(r.time, end)
  }

  /** `recordDate >= start && recordDate < next`: a half-open range. */
  function From(start: DateTime, next: DateTime): Record -> bool {
    (r: Record) => ValidTime(r.time) && AtOrAfter(r.time, start) && Before(r.time, next)
  }

  /** The `switch (timeRange)` of the filter effect, with the last-month bound as written. */
  function FilterByRangeAsWritten(rs: seq<Record>, range: string, now: DateTime): seq<Record>
    requires ValidTime(now)
  {
    if range == "this-month" then Filter(rs, OnOrAfter(ThisMonthStart(now)))
    else if range == "last-month" then Filter(rs, Between(LastMonthStart(now), LastMonthEnd(now)))
    else if range == "this-quarter" then Filter(rs, OnOrAfter(QuarterStart(now)))
    else rs
  }

  /** The same filter with last month ending where this month starts. */
  function FilterByRange(rs: seq<Record>, range: string, now: DateTime): seq<Record>
    requires ValidTime(now)
  {
    if range == "this-month" then Filter(rs, OnOrAfter(ThisMonthStart(now)))
    else if range == "last-month" then Filter(rs, From(LastMonthStart(now), ThisMonthStart(now)))
    else if range == "this-quarter" then Filter(rs, OnOrAfter(QuarterStart(now)))
    else rs
  }

  // ---- What the bounds mean ----

  /** Against the first instant of a month, order is decided by the month alone. */
  lemma MonthStartCompare(a: DateTime, s: DateTime)
    requires ValidTime(a) && ValidTime(s) && s.day == 1 && s.millis == 0
    ensures AtOrAfter(a, s) <==> MonthOrdinal(a) >= MonthOrdinal(s)
    ensures Before(a, s) <==> MonthOrdinal(a) < MonthOrdinal(s)
  {
  }

  lemma ThisMonthBound(now: DateTime)
    requires ValidTime(now)
    ensures var s := ThisMonthStart(now); s.day == 1 && s.millis == 0 && MonthOrdinal(s) == MonthOrdinal(now)
  {
    NewDateMonth(now.year, now.month - 1, 1);
  }

  lemma LastMonthBounds(now: DateTime)
    requires ValidTime(now)
    ensures var s := LastMonthStart(now); s.day == 1 && s.millis == 0 && MonthOrdinal(s) == MonthOrdinal(now) - 1
    ensures var e := LastMonthEnd(now);
      e.millis == 0 && MonthOrdinal(e) == MonthOrdinal(now) - 1 && e.day == DaysInMonth(e.year, e.month)
  {
    NewDateMonth(now.year, now.month - 2, 1);
    NewDateMonth(now.year, now.month - 1, 0);
  }

  lemma QuarterBound(now: DateTime)
    requires ValidTime(now)
    ensures var q := QuarterStart(now);
      && q.day == 1 && q.millis == 0 && q.year == now.year
      && q.month in {1, 4, 7, 10} && q.month <= now.month < q.month + 3
  {
    NewDateMonth(now.year, ((now.month - 1) / 3) * 3, 1);
  }

  /** The four bounds fall in the current month, the previous month (twice) and the current quarter. */
  lemma BoundsSpec(now: DateTime)
    requires ValidTime(now)
    ensures var s := ThisMonthStart(now); s.day == 1 && s.millis == 0 && MonthOrdinal(s) == MonthOrdinal(now)
    ensures var s := LastMonthStart(now); s.day == 1 && s.millis == 0 && MonthOrdinal(s) == MonthOrdinal(now) - 1
    ensures var e := LastMonthEnd(now);
      e.millis == 0 && MonthOrdinal(e) == MonthOrdinal(now) - 1 && e.day == DaysInMonth(e.year, e.month)
    ensures var q := QuarterStart(now);
      && q.day == 1 && q.millis == 0 && q.year == now.year
      && q.month in {1, 4, 7, 10} && q.month <= now.month < q.month + 3
  {
    ThisMonthBound(now);
    LastMonthBounds(now);
    QuarterBound(now);
  }

  /** 'this-month' keeps every dated record from the first of this month on, later months included. */
  lemma ThisMonthMeaning(now: DateTime, r: Record)
    requires ValidTime(now)
    ensures OnOrAfter(ThisMonthStart(now))(r) <==> ValidTime(r.time) && MonthOrdinal(r.time) >= MonthOrdinal(now)
  {
    BoundsSpec(now);
    if ValidTime(r.time) {
      MonthStartCompare(r.time, ThisMonthStart(now));
    }
  }

  /** 'this-quarter' keeps every dated record from the first month of this quarter on. */
  lemma QuarterMeaning(now: DateTime, r: Record)
    requires ValidTime(now)
    ensures OnOrAfter(QuarterStart(now))(r)
        <==> ValidTime(r.time) && MonthOrdinal(r.time) >= MonthOrdinal(QuarterStart(now))
  {
    BoundsSpec(now);
    if ValidTime(r.time) {
      MonthStartCompare(r.time, QuarterStart(now));
    }
  }

  /** The corrected 'last-month' keeps exactly the records of the previous calendar month. */
  lemma LastMonthMeaning(now: DateTime, r: Record)
    requires ValidTime(now)
    ensures From(LastMonthStart(now), ThisMonthStart(now))(r)
        <==> ValidTime(r.time) && MonthOrdinal(r.time) == MonthOrdinal(now) - 1
  {
    BoundsSpec(now);
    if ValidTime(r.time) {
      MonthStartCompare(r.time, LastMonthStart(now));
      MonthStartCompare(r.time, ThisMonthStart(now));
    }
  }

  /**
   * The 'last-month' filter as written keeps the previous month's records
   * except those on its last day after midnight.
   */
  lemma LastMonthAsWrittenMeaning(now: DateTime, r: Record)
    requires ValidTime(now)
    ensures Between(LastMonthStart(now), LastMonthEnd(now))(r)
        <==> && ValidTime(r.time) && MonthOrdinal(r.time) == MonthOrdinal(now) - 1
             && (r.time.day < DaysInMonth(r.time.year, r.time.month) || r.time.millis == 0)
  {
    BoundsSpec(now);
    if ValidTime(r.time) {
      MonthStartCompare(r.time, LastMonthStart(now));
      MonthOrdinalOrder(r.time, LastMonthEnd(now));
    }
  }

  /** A record at 10:30 on 31 January, seen on 15 February 2024. */
  function LateJanuary(): Record {
    Record("4", DateTime(2024, 1, 31, 37_800_000), "張三", "課程費用", "瑜伽課程", "台北市", Some(500.0), Some(1), 500.0, Income)
  }

  const MidFebruary := DateTime(2024, 2, 15, 36_000_000)

  /** The last-month bound as written loses a record of last month that the corrected bound keeps. */
  lemma LastMonthAsWrittenDropsLastDay()
    ensures FilterByRangeAsWritten([LateJanuary()], "last-month", MidFebruary) == []
    ensures FilterByRange([LateJanuary()], "last-month", MidFebruary) == [LateJanuary()]
  {
    var r := LateJanuary();
    var asWritten := Between(LastMonthStart(MidFebruary), LastMonthEnd(MidFebruary));
    var corrected := From(LastMonthStart(MidFebruary), ThisMonthStart(MidFebruary));
    LastMonthAsWrittenMeaning(MidFebruary, r);
    LastMonthMeaning(MidFebruary, r);
    assert DaysInMonth(2024, 1) == 31;
    assert !asWritten(r) && corrected(r);
    FilterSnoc([], r, asWritten);
    FilterSnoc([], r, corrected);
  }

  /**
   * Every range keeps a subsequence of the records, under both last-month
   * bounds; 'custom' and unknown ranges keep all of them; the two filters
   * differ only on 'last-month'.
   */
  lemma FilterByRangeKeeps(rs: seq<Record>, range: string, now: DateTime)
    requires ValidTime(now)
    ensures IsSubseq(FilterByRangeAsWritten(rs, range, now), rs)
    ensures IsSubseq(FilterByRange(rs, range, now), rs)
    ensures range !in {"this-month", "last-month", "this-quarter"} ==>
      FilterByRangeAsWritten(rs, range, now) == rs && FilterByRange(rs, range, now) == rs
    ensures range != "last-month" ==> FilterByRangeAsWritten(rs, range, now) == FilterByRange(rs, range, now)
  {
    if range == "this-month" {
      FilterIsSubseq(rs, OnOrAfter(ThisMonthStart(now)));
    } else if range == "last-month" {
      FilterIsSubseq(rs, Between(LastMonthStart(now), LastMonthEnd(now)));
      FilterIsSubseq(rs, From(LastMonthStart(now), ThisMonthStart(now)));
    } else if range == "this-quarter" {
      FilterIsSubseq(rs, OnOrAfter(QuarterStart(now)));
    } else {
      FilterAll(rs, Everything());
      FilterIsSubseq(rs, Everything());
    }
  }

  // ---- The page's figures ----

  datatype Report = Report(
    filtered: seq<Record>,
    monthly: seq<MonthlyStat>,
    topMembers: seq<Ranked>,
    topItems: seq<Ranked>,
    totalIncome: real,
    totalExpense: real,
    netAmount: real)

  /** The figures the page computes from the records that a range filter kept. */
  function FiguresOf(f: seq<Record>): Report {
    Report(f, MonthlyStats(f), TopFive(f, MemberOf), TopFive(f, ItemOf),
           SumKind(f, Income), SumKind(f, Expense), SumKind(f, Income) - SumKind(f, Expense))
  }

  /** What the page shows for a list of records, a range and the current time. */
  function ReportOf(rs: seq<Record>, range: string, now: DateTime): Report
    requires ValidTime(now)
  {
    FiguresOf(FilterByRangeAsWritten(rs, range, now))
  }

  /** The same page with the whole previous month as its last-month range. */
  function IntendedReportOf(rs: seq<Record>, range: string, now: DateTime): Report
    requires ValidTime(now)
  {
    FiguresOf(FilterByRange(rs, range, now))
  }

  /**
   * The figures agree with one another: the trend's incomes and expenses add
   * up to the totals, and so do the per-member and per-item amounts.
   */
  lemma FiguresAgree(f: seq<Record>)
    ensures var rep := FiguresOf(f);
      && SumBy(rep.monthly, IncomeOf) == rep.totalIncome
      && SumBy(rep.monthly, ExpenseOf) == rep.totalExpense
      && SumBy(Ranking.Ranking(rep.filtered, MemberOf), RankAmount) == rep.totalIncome + rep.totalExpense
      && SumBy(Ranking.Ranking(rep.filtered, ItemOf), RankAmount) == rep.totalIncome + rep.totalExpense
      && rep.netAmount == rep.totalIncome - rep.totalExpense
  {
    MonthlyStatsConserve(f);
    KindsPartitionTotal(f);
    RankingConserves(f, MemberOf);
    RankingConserves(f, ItemOf);
  }

  /** On the page as written the figures agree, whatever the range. */
  lemma ReportAgrees(rs: seq<Record>, range: string, now: DateTime)
    requires ValidTime(now)
    ensures var rep := ReportOf(rs, range, now);
      && SumBy(rep.monthly, IncomeOf) == rep.totalIncome
      && SumBy(rep.monthly, ExpenseOf) == rep.totalExpense
      && SumBy(Ranking.Ranking(rep.filtered, MemberOf), RankAmount) == rep.totalIncome + rep.totalExpense
      && SumBy(Ranking.Ranking(rep.filtered, ItemOf), RankAmount) == rep.totalIncome + rep.totalExpense
      && rep.netAmount == rep.totalIncome - rep.totalExpense
  {
    FiguresAgree(FilterByRangeAsWritten(rs, range, now));
  }

  /**
   * The page as written and the intended one show the same on every range
   * but 'last-month'; on 15 February 2024 a record from late on 31 January
   * shows in the intended page's January bucket and income, and nowhere on
   * the page as written.
   */
  lemma IntendedReportDiffers(rs: seq<Record>, range: string, now: DateTime)
    requires ValidTime(now)
    ensures range != "last-month" ==> ReportOf(rs, range, now) == IntendedReportOf(rs, range, now)
    ensures ReportOf([LateJanuary()], "last-month", MidFebruary).monthly == []
    ensures ReportOf([LateJanuary()], "last-month", MidFebruary).totalIncome == 0.0
    ensures IntendedReportOf([LateJanuary()], "last-month", MidFebruary).totalIncome == 500.0
  {
    FilterByRangeKeeps(rs, range, now);
    LastMonthAsWrittenDropsLastDay();
    var one := [LateJanuary()];
    assert Filter(one, OfKind(Income)) == one by {
      FilterSnoc([], LateJanuary(), OfKind(Income));
    }
    assert SumBy(one, AmountOf) == 500.0 by {
      assert one[1..] == [];
    }
  }

  /** The filter effect followed by the page's computations. */
  method BuildReport(rs: seq<Record>, range: string, now: DateTime) returns (rep: Report)
    requires ValidTime(now)
    ensures rep == ReportOf(rs, range, now)
  {
    var filtered := FilterByRangeAsWritten(rs, range, now);
    var monthly := MonthlyStatsRunningNet(filtered);
    var members := TopMembers(filtered);
    var items := TopItems(filtered);
    var income := SumKind(filtered, Income);
    var expense := SumKind(filtered, Expense);
    rep := Report(filtered, monthly, members, items, income, expense, income - expense);
  }
}
