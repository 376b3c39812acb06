/**
 * `GET /financeiro`: the day, week and month windows the endpoint derives from
 * its `data`, `semana` and `mes` parameters, and the order count and revenue it
 * sums over each window. Dates are day numbers (see module Calendar); an order's
 * date is the day part of its timestamp.
 *
 * Line numbers in the comments refer to `backend-dogueria/server.js`.
 */
module Finance {
  import opened Wrappers
  import opened Calendar
  import opened Tokens
  import opened Store

  /** The inclusive date range of a week, as the two dates the endpoint passes to BETWEEN. */
  datatype Window = Window(start: int, end: int)

  /**
   * The range one rollup query matches: `DATE(data) BETWEEN lo AND hi`, or
   * nothing at all when the lower bound is not a date (a month token whose month
   * is outside 1..12 gives a first-day string the database reads as NULL).
   */
  datatype Range = Between(lo: int, hi: int) | Nothing

  /** The request fails (`toISOString()` of an invalid `Date` throws, answered with status 500). */
  datatype FinanceError = InvalidDate

  /** `{ totalPedidos, faturamento }` with the `|| 0` defaults applied. */
  datatype Totals = Totals(count: nat, revenue: int)

  datatype Report = Report(diario: Totals, semanal: Totals, mensal: Totals)

  /** `getDay() || 7`: the weekday with Sunday counted as 7 instead of 0. */
  function WeekDayOrSeven(day: int): (w: int)
    ensures 1 <= w <= 7 && w % 7 == WeekDay(day)
  {
    var g := WeekDay(day);
    if g == 0 then 7 else g
  }

  /**
   * Lines 103-111: week `numSemana` of year `ano` starts `(numSemana - 1) * 7`
   * days after the Monday on or before January 1 and ends six days later.
   */
  function DecodeWeek(ano: int, numSemana: int): (w: Window)
    ensures WeekDay(w.start) == 1 && w.end == w.start + 6
    ensures w.start <= MakeDay(ano, 0, 1) + 7 * (numSemana - 1) <= w.end
  {
    var primeiroDiaAno := MakeDay(ano, 0, 1);
    var diffDias := (numSemana - 1) * 7 - (WeekDayOrSeven(primeiroDiaAno) - 1);
    var start := primeiroDiaAno + diffDias;
    MondayOnOrBefore(primeiroDiaAno, numSemana - 1);
    Window(start, start + 6)
  }

  /**
   * Stepping back from `day` to the Monday of its week (Sunday counting as the
   * seventh day), then forward whole weeks, lands on a Monday.
   */
  lemma MondayOnOrBefore(day: int, weeks: int)
    ensures WeekDay(day + 7 * weeks - (WeekDayOrSeven(day) - 1)) == 1
  {
    var g := WeekDayOrSeven(day);
    var q := (day + 4) / 7;
    assert day + 4 == 7 * q + WeekDay(day);
    assert g == WeekDay(day) || g == WeekDay(day) + 7;
    var start := day + 7 * weeks - (g - 1);
    if g == WeekDay(day) {
      assert start + 4 == 7 * (q + weeks) + 1;
    } else {
      assert start + 4 == 7 * (q + weeks - 1) + 1;
    }
  }

  /** Lines 116-121: without a token, the Monday-to-Sunday week that contains today. */
  function DefaultWeek(today: int): (w: Window)
    ensures WeekDay(w.start) == 1 && w.end == w.start + 6
    ensures w.start <= today <= w.end
  {
    var start := today - WeekDayOrSeven(today) + 1;
    Window(start, start + 6)
  }

  /** Lines 98-125: the week window of the `semana` parameter (empty when absent). */
  function WeekWindow(semana: string, today: int): (r: Result<Window, FinanceError>)
    ensures r.Success? ==> WeekDay(r.value.start) == 1 && r.value.end == r.value.start + 6
    ensures semana == "" ==> r.Success? && r.value.start <= today <= r.value.end
  {
    if semana == "" then Success(DefaultWeek(today))
    else
      match Fields(semana, "-W")
      case (Some(ano), Some(numSemana)) => Success(DecodeWeek(ano, numSemana))
      case _ => Failure(InvalidDate)
  }

  /**
   * Lines 140-145: from the first of month `mesNum` (1 = January) of year `ano`
   * to `new Date(ano, mesNum, 0)`, which is the true last day of that month.
   */
  function MonthRange(ano: int, mesNum: int): (r: Range)
    ensures 1 <= mesNum <= 12 ==>
      r == Between(MakeDay(ano, mesNum - 1, 1), MakeDay(ano, mesNum - 1, DaysInMonth(ano, mesNum - 1)))
    ensures !(1 <= mesNum <= 12) ==> r == Nothing
  {
    if 1 <= mesNum <= 12 then
      LastDayOfMonth(ano, mesNum);
      Between(MakeDay(ano, mesNum - 1, 1), MakeDay(ano, mesNum, 0))
    else
      Nothing
  }

  /** Lines 133-145: the month range of the `mes` parameter, defaulting to today's month. */
  function MonthWindow(mes: string, today: CivilDate): (r: Result<Range, FinanceError>)
    requires ValidDate(today)
  {
    MonthOfToken(MonthFilter(mes, today))
  }

  /** Lines 133-134: the month token in force, `mes` or today's `YYYY-MM` when it is empty. */
  function MonthFilter(mes: string, today: CivilDate): string
    requires ValidDate(today)
  {
    if mes == "" then MonthToken(today.year, today.month + 1) else mes
  }

  /** Lines 136-145: `mesFiltro.split("-")`, `parseInt` of each piece, and the range; NaN fails the request. */
  function MonthOfToken(mesFiltro: string): Result<Range, FinanceError> {
    match Fields(mesFiltro, "-")
    case (Some(ano), Some(mesNum)) => Success(MonthRange(ano, mesNum))
    case _ => Failure(InvalidDate)
  }

  predicate InRange(day: int, r: Range) {
    match r
    case Between(lo, hi) => lo <= day <= hi
    case Nothing => false
  }

  /** Lines 150-163: `COUNT(*)` and `SUM(valor_total)` over the orders whose date is in range, 0 when none. */
  function Rollup(orders: seq<Order>, r: Range): (t: Totals)
    ensures t.count <= |orders|
  {
    if orders == [] then Totals(0, 0)
    else
      var t := Rollup(orders[..|orders| - 1], r);
      var o := orders[|orders| - 1];
      if InRange(o.data, r) then Totals(t.count + 1, t.revenue + o.valorTotal) else t
  }

  function SumTotals(orders: seq<Order>): int {
    if orders == [] then 0 else SumTotals(orders[..|orders| - 1]) + orders[|orders| - 1].valorTotal
  }

  /** The orders whose date is in range, in table order. */
  function Matching(orders: seq<Order>, r: Range): seq<Order> {
    if orders == [] then []
    else
      var o := orders[|orders| - 1];
      Matching(orders[..|orders| - 1], r) + (if InRange(o.data, r) then [o] else [])
  }

  /** The filter keeps every order in range as often as it occurs, and no other order. */
  lemma {:induction false} MatchingCounts(orders: seq<Order>, r: Range)
    ensures forall o :: multiset(Matching(orders, r))[o] == if InRange(o.data, r) then multiset(orders)[o] else 0
    ensures forall o :: o in Matching(orders, r) <==> o in orders && InRange(o.data, r)
  {
    if orders != [] {
      var o := orders[|orders| - 1];
      var init := orders[..|orders| - 1];
      MatchingCounts(init, r);
      assert orders == init + [o];
      assert multiset(orders) == multiset(init) + multiset{o};
      var t := if InRange(o.data, r) then [o] else [];
      assert multiset(Matching(orders, r)) == multiset(Matching(init, r)) + multiset(t);
    }
  }

  lemma {:induction false} SumTotalsAppend(a: seq<Order>, b: seq<Order>)
    ensures SumTotals(a + b) == SumTotals(a) + SumTotals(b)
    decreases |b|
  {
    if b == [] {
      assert a + b == a;
    } else {
      assert (a + b)[..|a + b| - 1] == a + b[..|b| - 1];
      SumTotalsAppend(a, b[..|b| - 1]);
    }
  }

  /** The filter keeps table order: filtering a concatenation filters each part. */
  lemma {:induction false} MatchingAppend(a: seq<Order>, b: seq<Order>, r: Range)
    ensures Matching(a + b, r) == Matching(a, r) + Matching(b, r)
    decreases |b|
  {
    if b == [] {
      assert a + b == a;
    } else {
      var init, o := b[..|b| - 1], b[|b| - 1];
      assert (a + b)[..|a + b| - 1] == a + init && (a + b)[|a + b| - 1] == o;
      MatchingAppend(a, init, r);
      var t := if InRange(o.data, r) then [o] else [];
      assert Matching(a + b, r) == Matching(a + init, r) + t;
      assert Matching(b, r) == Matching(init, r) + t;
    }
  }

  /** Each rollup counts exactly the orders in range and sums exactly their stored totals. */
  lemma {:induction false} RollupIsMatching(orders: seq<Order>, r: Range)
    ensures Rollup(orders, r) == Totals(|Matching(orders, r)|, SumTotals(Matching(orders, r)))
  {
    if orders != [] {
      var o := orders[|orders| - 1];
      var init := orders[..|orders| - 1];
      RollupIsMatching(init, r);
      if InRange(o.data, r) {
        SumTotalsAppend(Matching(init, r), [o]);
        assert [o][..0] == [];
      } else {
        assert Matching(orders, r) == Matching(init, r) + [];
        assert Matching(init, r) + [] == Matching(init, r);
      }
    }
  }

  /** A rollup is zero, count and revenue, exactly when no order falls in its range. */
  lemma {:induction false} RollupZeroWhenNoneMatch(orders: seq<Order>, r: Range)
    ensures Rollup(orders, r).count == 0 <==> forall i :: 0 <= i < |orders| ==> !InRange(orders[i].data, r)
    ensures Rollup(orders, r).count == 0 ==> Rollup(orders, r).revenue == 0
  {
    if orders != [] {
      var init := orders[..|orders| - 1];
      RollupZeroWhenNoneMatch(init, r);
      assert forall i :: 0 <= i < |init| ==> init[i] == orders[i];
    }
  }

  /** When every order is in range the rollup is the number of orders and the sum of all totals. */
  lemma {:induction false} RollupAllInRange(orders: seq<Order>, r: Range)
    requires forall i :: 0 <= i < |orders| ==> InRange(orders[i].data, r)
    ensures Rollup(orders, r) == Totals(|orders|, SumTotals(orders))
  {
    if orders != [] {
      var init := orders[..|orders| - 1];
      assert forall i :: 0 <= i < |init| ==> init[i] == orders[i];
      RollupAllInRange(init, r);
    }
  }

  /** A wider range never counts fewer orders. */
  lemma {:induction false} RollupMonotone(orders: seq<Order>, r1: Range, r2: Range)
    requires forall d :: InRange(d, r1) ==> InRange(d, r2)
    ensures Rollup(orders, r1).count <= Rollup(orders, r2).count
  {
    if orders != [] {
      RollupMonotone(orders[..|orders| - 1], r1, r2);
    }
  }

  /**
   * Lines 85-190: the three rollups. Without `data` the day is today; a week or
   * month token that does not parse makes the whole request fail.
   */
  function Financeiro(orders: seq<Order>, data: Option<int>, semana: string, mes: string, today: CivilDate): (r: Result<Report, FinanceError>)
    requires ValidDate(today)
    ensures r.Success? ==> r.value.diario == Rollup(orders, Between(data.GetOr(DayNumber(today)), data.GetOr(DayNumber(today))))
    ensures r.Success? <==> WeekWindow(semana, DayNumber(today)).Success? && MonthWindow(mes, today).Success?
    ensures r.Success? ==>
      var w := WeekWindow(semana, DayNumber(today)).value;
      r.value.semanal == Rollup(orders, Between(w.start, w.end)) &&
      r.value.mensal == Rollup(orders, MonthWindow(mes, today).value)
  {
    var dia := data.GetOr(DayNumber(today));
    var semanal := WeekWindow(semana, DayNumber(today));
    var mensal := MonthWindow(mes, today);
    if semanal.Failure? || mensal.Failure? then Failure(InvalidDate)
    else
      var w := semanal.value;
      Success(Report(Rollup(orders, Between(dia, dia)), Rollup(orders, Between(w.start, w.end)), Rollup(orders, mensal.value)))
  }

  /** A token `YYYY-Www` built from a year and week decodes to that week. */
  lemma WeekTokenDecodes(ano: nat, semana: nat, today: int)
    ensures WeekWindow(WeekToken(ano, semana), today) == Success(DecodeWeek(ano, semana))
  {
    WeekTokenFields(ano, semana);
  }

  /** A token `YYYY-MM` built from a year and month decodes to that month's range. */
  lemma MonthTokenDecodes(ano: nat, mes: nat, today: CivilDate)
    requires ValidDate(today)
    ensures MonthWindow(MonthToken(ano, mes), today) == Success(MonthRange(ano, mes))
  {
    assert MonthFilter(MonthToken(ano, mes), today) == MonthToken(ano, mes);
    MonthOfTokenDecodes(ano, mes);
  }

  /**
   * Without a month token the month range runs from the first to the last day
   * of today's month, and contains today.
   */
  lemma DefaultMonthIsTodaysMonth(today: CivilDate)
    requires ValidDate(today)
    ensures var y, m := today.year, today.month;
      MonthWindow("", today) == Success(Between(MakeDay(y, m, 1), MakeDay(y, m, DaysInMonth(y, m))))
    ensures InRange(DayNumber(today), MonthWindow("", today).value)
  {
    var y, m := today.year, today.month;
    DefaultMonthToken(today);
    MonthOfTokenDecodes(y, m + 1);
    assert MonthRange(y, m + 1) == Between(MakeDay(y, m, 1), MakeDay(y, m, DaysInMonth(y, m)));
    DayNumberInMonth(today);
  }

  lemma DefaultMonthToken(today: CivilDate)
    requires ValidDate(today)
    ensures MonthFilter("", today) == MonthToken(today.year, today.month + 1)
  {
  }

  lemma MonthOfTokenDecodes(ano: nat, mes: nat)
    ensures MonthOfToken(MonthToken(ano, mes)) == Success(MonthRange(ano, mes))
  {
    MonthTokenFields(ano, mes);
  }

  /** With no parameter at all, each of the three windows contains today. */
  lemma DefaultReportCoversToday(orders: seq<Order>, today: CivilDate)
    requires ValidDate(today)
    ensures Financeiro(orders, None, "", "", today).Success?
    ensures var t := DayNumber(today); var w := WeekWindow("", t).value;
      w.start <= t <= w.end && InRange(t, MonthWindow("", today).value)
  {
    DefaultMonthIsTodaysMonth(today);
  }

  /** 2024 begins on a Monday, so its week 1 is January 1 to January 7. */
  lemma FirstWeekOf2024()
    ensures MakeDay(2024, 0, 1) == 19723 && WeekDay(19723) == 1
    ensures DecodeWeek(2024, 1) == Window(MakeDay(2024, 0, 1), MakeDay(2024, 0, 7))
  {
    assert DayFromYear(2024) == 19723;
    assert MakeDay(2024, 0, 1) == 19723 && MakeDay(2024, 0, 7) == 19729;
    assert WeekDay(19723) == 1 && WeekDayOrSeven(19723) == 1;
    assert DecodeWeek(2024, 1) == Window(19723, 19729);
  }

  /** February 2024 has 29 days and February 2023 has 28. */
  lemma FebruaryRanges()
    ensures MonthRange(2024, 2) == Between(MakeDay(2024, 1, 1), MakeDay(2024, 1, 29))
    ensures MonthRange(2023, 2) == Between(MakeDay(2023, 1, 1), MakeDay(2023, 1, 28))
  {
  }

  /**
   * Three orders on consecutive days: the day rollup of the middle day sees
   * exactly the middle order, and a range spanning all three sees all of them.
   */
  lemma RollupExample(d: int)
    ensures var orders := [Order(1, d, 1, 1, 1, 1000), Order(2, d + 1, 2, 1, 1, 2000), Order(3, d + 2, 3, 1, 1, 3000)];
      Rollup(orders, Between(d + 1, d + 1)) == Totals(1, 2000)
      && Rollup(orders, Between(d, d + 2)) == Totals(3, 6000)
  {
    var o1, o2, o3 := Order(1, d, 1, 1, 1, 1000), Order(2, d + 1, 2, 1, 1, 2000), Order(3, d + 2, 3, 1, 1, 3000);
    var orders := [o1, o2, o3];
    assert orders[..2] == [o1, o2];
    assert [o1, o2][..1] == [o1];
    assert [o1][..0] == [];
    assert Rollup([o1], Between(d + 1, d + 1)) == Totals(0, 0);
    assert Rollup([o1, o2], Between(d + 1, d + 1)) == Totals(1, 2000);
    assert Rollup([o1], Between(d, d + 2)) == Totals(1, 1000);
    assert Rollup([o1, o2], Between(d, d + 2)) == Totals(2, 3000);
  }
}
