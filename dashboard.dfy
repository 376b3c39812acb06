/**
 * The dashboard's helpers: the payment label of a listed order, the week and
 * month tokens it sends as its default filters, and the list of orders the
 * operator has hidden from the screen.
 *
 * Line numbers in the comments refer to `src/app/dashboard/page.tsx`.
 */
module Dashboard {
  import opened Wrappers
  import opened Calendar
  import opened Tokens
  import opened Finance
  import opened Store

  // ---------------------------------------------------------------------------
  // Payment label
  // ---------------------------------------------------------------------------

  /** The label shown for an order's stored payment code. */
  function PaymentLabel(code: int): (shown: string)
    ensures shown == "Dinheiro" <==> code == 1
    ensures shown == "Pix" <==> code == 2
    ensures shown == "Cartão" <==> code != 1 && code != 2
  {
    if code == 1 then "Dinheiro" else if code == 2 then "Pix" else "Cartão"
  }

  /** The three labels the cart offers come back unchanged after being stored as codes. */
  lemma PaymentLabelRoundTrip(forma: string)
    requires forma == "Dinheiro" || forma == "Pix" || forma == "Cartão"
    ensures PaymentLabel(PaymentCode(forma)) == forma
  {
  }

  /** Every code the server stores is shown with the label it was stored from, and any other label as "Dinheiro". */
  lemma PaymentCodeRoundTrip(code: int, forma: string)
    requires 1 <= code <= 3
    ensures PaymentCode(PaymentLabel(code)) == code
    ensures forma != "Pix" && forma != "Cartão" ==> PaymentLabel(PaymentCode(forma)) == "Dinheiro"
  {
  }

  // ---------------------------------------------------------------------------
  // Default week token
  // ---------------------------------------------------------------------------

  /** `Math.floor((hoje - primeiroDiaAno) / 86400000)`: whole days since January 1 of today's year. */
  function DaysSinceNewYear(today: CivilDate): (d: int)
    requires ValidDate(today)
    ensures d >= 0
  {
    DayNumberInMonth(today);
    DayNumber(today) - MakeDay(today.year, 0, 1)
  }

  /** `Math.ceil(n / 7)`. */
  function Ceil7(n: int): int {
    -((-n) / 7)
  }

  /**
   * Line 37: `Math.ceil((dias + primeiroDiaAno.getDay() + 1) / 7)`, the week count of
   * Sunday-to-Saturday weeks. The result is the least `w` with `n <= 7 * w`.
   */
  function WeekNumber(today: CivilDate): (w: int)
    requires ValidDate(today)
    ensures var n := DaysSinceNewYear(today) + WeekDay(MakeDay(today.year, 0, 1)) + 1;
      7 * (w - 1) < n <= 7 * w
    ensures w >= 1
  {
    Ceil7(DaysSinceNewYear(today) + WeekDay(MakeDay(today.year, 0, 1)) + 1)
  }

  /** As the day advances within a year, the week number never decreases. */
  lemma WeekNumberMonotone(a: CivilDate, b: CivilDate)
    requires ValidDate(a) && ValidDate(b) && a.year == b.year
    requires DayNumber(a) <= DayNumber(b)
    ensures WeekNumber(a) <= WeekNumber(b)
  {
  }

  /** Lines 32-39: `${ano}-W${pad(semana)}` for today. */
  function SemanaAtual(today: CivilDate): string
    requires ValidDate(today)
  {
    WeekToken(today.year, WeekNumber(today))
  }

  /**
   * The week number that matches the server's Monday-based decoding: the number of
   * whole weeks from the Monday on or before January 1 up to today, plus one.
   */
  function WeekNumberMondayBased(today: CivilDate): (w: int)
    requires ValidDate(today)
    ensures var x := DaysSinceNewYear(today) + WeekDayOrSeven(MakeDay(today.year, 0, 1)) - 1;
      7 * (w - 1) <= x < 7 * w
    ensures w >= 1
  {
    (DaysSinceNewYear(today) + WeekDayOrSeven(MakeDay(today.year, 0, 1)) - 1) / 7 + 1
  }

  /** The week token built from the Monday-based week number. */
  function SemanaAtualCorrigida(today: CivilDate): string
    requires ValidDate(today)
  {
    WeekToken(today.year, WeekNumberMondayBased(today))
  }

  predicate InWindow(day: int, w: Window) {
    w.start <= day <= w.end
  }

  /** The week the server decodes for `semana` contains today exactly when `semana` is the Monday-based number. */
  lemma DecodedWeekContainsIff(today: CivilDate, semana: int)
    requires ValidDate(today)
    ensures InWindow(DayNumber(today), DecodeWeek(today.year, semana)) <==> semana == WeekNumberMondayBased(today)
  {
    var x := DaysSinceNewYear(today) + WeekDayOrSeven(MakeDay(today.year, 0, 1)) - 1;
    assert x >= 0;
    assert x == 7 * (x / 7) + x % 7;
  }

  /** The corrected token, sent to the server, selects a week that contains today. */
  lemma SemanaAtualCorrigidaContainsToday(today: CivilDate)
    requires ValidDate(today)
    ensures WeekWindow(SemanaAtualCorrigida(today), DayNumber(today)) == Success(DecodeWeek(today.year, WeekNumberMondayBased(today)))
    ensures InWindow(DayNumber(today), WeekWindow(SemanaAtualCorrigida(today), DayNumber(today)).value)
  {
    WeekTokenDecodes(today.year, WeekNumberMondayBased(today), DayNumber(today));
    DecodedWeekContainsIff(today, WeekNumberMondayBased(today));
  }

  /**
   * The dashboard's week number agrees with the Monday-based one exactly when today
   * and January 1 are both Sundays or both not: on Sundays of a year that does not
   * start on a Sunday it is one too high, and on the other days of a year that does
   * it is one too low.
   */
  lemma WeekNumberAgainstMondayBased(today: CivilDate)
    requires ValidDate(today)
    ensures var sunday, newYearSunday := WeekDay(DayNumber(today)) == 0, WeekDay(MakeDay(today.year, 0, 1)) == 0;
      WeekNumber(today) == WeekNumberMondayBased(today) + (if sunday && !newYearSunday then 1 else if !sunday && newYearSunday then -1 else 0)
  {
    var j := MakeDay(today.year, 0, 1);
    var d := DaysSinceNewYear(today);
    assert DayNumber(today) == j + d;
    WeekDayShift(j, d);
    WeekCounts(d, WeekDay(j));
  }

  /** Moving `d` days ahead moves the weekday `d` places round the week. */
  lemma WeekDayShift(j: int, d: int)
    ensures WeekDay(j + d) == (WeekDay(j) + d) % 7
  {
    var q := (j + 4) / 7;
    assert j + 4 == 7 * q + WeekDay(j);
    var q2 := (WeekDay(j) + d) / 7;
    assert WeekDay(j) + d == 7 * q2 + (WeekDay(j) + d) % 7;
    assert j + d + 4 == 7 * (q + q2) + (WeekDay(j) + d) % 7;
  }

  /** The two week counts for `d` days after a January 1 on weekday `g`. */
  lemma WeekCounts(d: int, g: int)
    requires d >= 0 && 0 <= g < 7
    ensures var gs := if g == 0 then 7 else g;
      var sunday := (g + d) % 7 == 0;
      Ceil7(d + g + 1) == (d + gs - 1) / 7 + 1 + (if sunday && g != 0 then 1 else if !sunday && g == 0 then -1 else 0)
  {
    var x := d + g;
    var q, r := x / 7, x % 7;
    assert x == 7 * q + r;
    assert -(x + 1) == 7 * (-q - 1) + (6 - r);
    assert Ceil7(x + 1) == q + 1;
    if g == 0 {
      assert d + 6 == 7 * q + (r + 6);
      if r == 0 {
        assert (d + 6) / 7 == q;
      } else {
        assert d + 6 == 7 * (q + 1) + (r - 1);
        assert (d + 6) / 7 == q + 1;
      }
    } else {
      if r == 0 {
        assert d + g - 1 == 7 * (q - 1) + 6;
        assert (d + g - 1) / 7 == q - 1;
      } else {
        assert d + g - 1 == 7 * q + (r - 1);
        assert (d + g - 1) / 7 == q;
      }
    }
  }

  /**
   * The token the dashboard sends by default selects a week containing today exactly
   * when today and January 1 are both Sundays or both not.
   */
  lemma SemanaAtualContainsTodayIff(today: CivilDate)
    requires ValidDate(today)
    ensures WeekWindow(SemanaAtual(today), DayNumber(today)) == Success(DecodeWeek(today.year, WeekNumber(today)))
    ensures InWindow(DayNumber(today), DecodeWeek(today.year, WeekNumber(today))) <==>
      (WeekDay(DayNumber(today)) == 0 <==> WeekDay(MakeDay(today.year, 0, 1)) == 0)
  {
    WeekTokenDecodes(today.year, WeekNumber(today), DayNumber(today));
    WeekNumberAgainstMondayBased(today);
    DecodedWeekContainsIff(today, WeekNumber(today));
  }

  /** Day numbers of the first fortnight of January 2024. */
  lemma January2024()
    ensures MakeDay(2024, 0, 1) == 19723 && MakeDay(2024, 0, 7) == 19729
    ensures MakeDay(2024, 0, 8) == 19730 && MakeDay(2024, 0, 14) == 19736
  {
    assert DayFromYear(2024) == 19723;
  }

  /** Sunday 7 January 2024: the default token is week 2, which the server reads as 8 to 14 January. */
  lemma SemanaAtualMissesSunday()
    ensures var today := CivilDate(2024, 0, 7);
      ValidDate(today) && WeekNumber(today) == 2 &&
      DecodeWeek(2024, 2) == Window(MakeDay(2024, 0, 8), MakeDay(2024, 0, 14)) &&
      !InWindow(DayNumber(today), DecodeWeek(2024, 2))
  {
    var today := CivilDate(2024, 0, 7);
    January2024();
    assert ValidDate(today);
    assert WeekDay(19723) == 1 && WeekDay(19729) == 0;
    assert WeekDayOrSeven(19723) == 1;
    assert DecodeWeek(2024, 2) == Window(19730, 19736);
    assert DaysSinceNewYear(today) == 6;
    assert WeekNumber(today) == 2 by {
      assert Ceil7(8) == 2;
    }
  }

  // ---------------------------------------------------------------------------
  // Default month token and initial filters
  // ---------------------------------------------------------------------------

  /** Lines 44-46: `${ano}-${pad(mes + 1)}` for today. */
  function MesAtual(today: CivilDate): string
    requires ValidDate(today)
  {
    MonthToken(today.year, today.month + 1)
  }

  /** The default month token reads back as today's year and 1-based month, and selects today's month. */
  lemma MesAtualSelectsThisMonth(today: CivilDate)
    requires ValidDate(today)
    ensures Fields(MesAtual(today), "-") == (Some(today.year as nat), Some(today.month + 1))
    ensures MonthWindow(MesAtual(today), today) == MonthWindow("", today)
    ensures InRange(DayNumber(today), MonthWindow(MesAtual(today), today).value)
  {
    var y, m := today.year, today.month;
    MonthTokenFields(y, m + 1);
    MonthTokenDecodes(y, m + 1, today);
    assert MonthRange(y, m + 1) == Between(MakeDay(y, m, 1), MakeDay(y, m, DaysInMonth(y, m)));
    DefaultMonthIsTodaysMonth(today);
  }

  /** The three filters the dashboard starts with: today's date, week and month. */
  datatype Filters = Filters(data: int, semana: string, mes: string)

  /** Lines 29-46: the filters the dashboard starts with. */
  function InitialFilters(today: CivilDate): Filters
    requires ValidDate(today)
  {
    Filters(DayNumber(today), SemanaAtual(today), MesAtual(today))
  }

  /**
   * The report for the initial filters succeeds, and its day and month sections
   * count today's orders. Its week section counts them exactly when today and
   * January 1 are both Sundays or both not.
   */
  lemma InitialReportCoversToday(orders: seq<Order>, today: CivilDate)
    requires ValidDate(today)
    ensures var f := InitialFilters(today);
      var r := Financeiro(orders, Some(f.data), f.semana, f.mes, today);
      r.Success? &&
      r.value.diario == Rollup(orders, Between(DayNumber(today), DayNumber(today))) &&
      InRange(DayNumber(today), MonthWindow(f.mes, today).value) &&
      (InWindow(DayNumber(today), WeekWindow(f.semana, DayNumber(today)).value) <==>
        (WeekDay(DayNumber(today)) == 0 <==> WeekDay(MakeDay(today.year, 0, 1)) == 0))
  {
    SemanaAtualContainsTodayIff(today);
    MesAtualSelectsThisMonth(today);
  }

  /** The initial filters with the Monday-based week number in place of line 37's. */
  function CorrectedInitialFilters(today: CivilDate): Filters
    requires ValidDate(today)
  {
    Filters(DayNumber(today), SemanaAtualCorrigida(today), MesAtual(today))
  }

  /** With the corrected initial filters, each of the report's three sections counts today's orders. */
  lemma CorrectedInitialReportCoversToday(orders: seq<Order>, today: CivilDate)
    requires ValidDate(today)
    ensures var f := CorrectedInitialFilters(today);
      var r := Financeiro(orders, Some(f.data), f.semana, f.mes, today);
      r.Success? &&
      r.value.diario == Rollup(orders, Between(DayNumber(today), DayNumber(today))) &&
      InWindow(DayNumber(today), WeekWindow(f.semana, DayNumber(today)).value) &&
      InRange(DayNumber(today), MonthWindow(f.mes, today).value)
  {
    SemanaAtualCorrigidaContainsToday(today);
    MesAtualSelectsThisMonth(today);
  }

  // ---------------------------------------------------------------------------
  // Hidden orders
  // ---------------------------------------------------------------------------

  /**
   * What local storage holds under `pedidosRemovidos`: nothing, valid JSON that
   * is not an array, text that is not JSON at all (`JSON.parse` throws), or an
   * array of ids.
   */
  datatype Stored = Absent | NotAnArray | Corrupt | Ids(ids: seq<int>)

  /** Lines 71-72 and 131-132: any parsable value but an array reads as the empty list. */
  function Removidos(s: Stored): seq<int> {
    if s.Ids? then s.ids else []
  }

  /** Line 74: the fetched orders whose id is not in the hidden list, in fetched order. */
  function Visible(fetched: seq<ListedOrder>, removidos: seq<int>): seq<ListedOrder> {
    if fetched == [] then []
    else (if fetched[0].id in removidos then [] else [fetched[0]]) + Visible(fetched[1..], removidos)
  }

  /** Line 130: the displayed orders without the one being hidden. */
  function RemoveId(pedidos: seq<ListedOrder>, id: int): seq<ListedOrder> {
    if pedidos == [] then []
    else (if pedidos[0].id == id then [] else [pedidos[0]]) + RemoveId(pedidos[1..], id)
  }

  /** The shown orders are exactly the fetched ones whose id is not hidden. */
  lemma {:induction false} VisibleMembers(fetched: seq<ListedOrder>, removidos: seq<int>)
    ensures forall o :: o in Visible(fetched, removidos) <==> o in fetched && o.id !in removidos
    ensures |Visible(fetched, removidos)| <= |fetched|
  {
    if fetched != [] {
      VisibleMembers(fetched[1..], removidos);
      assert fetched == [fetched[0]] + fetched[1..];
    }
  }

  /** Hiding an order keeps exactly the displayed orders with another id. */
  lemma {:induction false} RemoveIdMembers(pedidos: seq<ListedOrder>, id: int)
    ensures forall o :: o in RemoveId(pedidos, id) <==> o in pedidos && o.id != id
  {
    if pedidos != [] {
      RemoveIdMembers(pedidos[1..], id);
      assert pedidos == [pedidos[0]] + pedidos[1..];
    }
  }

  /** The filter keeps order: filtering a concatenation filters each part. */
  lemma {:induction false} VisibleAppend(a: seq<ListedOrder>, b: seq<ListedOrder>, removidos: seq<int>)
    ensures Visible(a + b, removidos) == Visible(a, removidos) + Visible(b, removidos)
  {
    if a == [] {
      assert a + b == b;
    } else {
      var ab := a + b;
      assert ab[0] == a[0] && ab[1..] == a[1..] + b;
      VisibleAppend(a[1..], b, removidos);
      var head := if a[0].id in removidos then [] else [a[0]];
      assert Visible(ab, removidos) == head + Visible(a[1..] + b, removidos);
      assert Visible(a, removidos) == head + Visible(a[1..], removidos);
    }
  }

  /** With nothing hidden, the whole fetched list is shown. */
  lemma {:induction false} VisibleNothingHidden(fetched: seq<ListedOrder>)
    ensures Visible(fetched, []) == fetched
  {
    if fetched != [] {
      VisibleNothingHidden(fetched[1..]);
    }
  }

  /** Reloading after hiding `id` shows what the screen showed after hiding it. */
  lemma {:induction false} HideThenReload(fetched: seq<ListedOrder>, removidos: seq<int>, id: int)
    ensures Visible(fetched, removidos + [id]) == RemoveId(Visible(fetched, removidos), id)
  {
    if fetched != [] {
      HideThenReload(fetched[1..], removidos, id);
      var o := fetched[0];
      var rest := Visible(fetched[1..], removidos);
      assert (o.id in removidos + [id]) == (o.id in removidos || o.id == id);
      if o.id in removidos {
        assert Visible(fetched, removidos) == [] + rest == rest;
      } else {
        var v := [o] + rest;
        assert Visible(fetched, removidos) == v;
        assert v[0] == o && v[1..] == rest;
        assert RemoveId(v, id) == (if o.id == id then [] else [o]) + RemoveId(rest, id);
      }
    }
  }

  /** Hiding the same order twice leaves the displayed list as hiding it once. */
  lemma {:induction false} RemoveIdIdempotent(pedidos: seq<ListedOrder>, id: int)
    ensures RemoveId(RemoveId(pedidos, id), id) == RemoveId(pedidos, id)
  {
    if pedidos != [] {
      RemoveIdIdempotent(pedidos[1..], id);
      var rest := RemoveId(pedidos[1..], id);
      if pedidos[0].id == id {
        assert RemoveId(pedidos, id) == [] + rest == rest;
      } else {
        var v := [pedidos[0]] + rest;
        assert RemoveId(pedidos, id) == v;
        assert v[0] == pedidos[0] && v[1..] == rest;
      }
    }
  }

  /** How the fetch of `/pedidos` ended: a parsed body (an array or not), or an exception. */
  datatype FetchResult = Fetched(body: Option<seq<ListedOrder>>) | FetchFailed

  /** The part of the dashboard's state the orders panel keeps. */
  class OrdersPanel {
    var pedidos: seq<ListedOrder>
    var storage: Stored

    constructor(storage: Stored)
      ensures this.pedidos == [] && this.storage == storage
    {
      this.pedidos := [];
      this.storage := storage;
    }

    /**
     * Lines 65-79: show the fetched array without the hidden ids. A failed fetch, or
     * stored text that `JSON.parse` rejects, is caught and leaves the list as it was.
     */
    method CarregarPedidos(fetch: FetchResult)
      modifies this
      ensures fetch.Fetched? && !old(storage).Corrupt? ==>
        pedidos == Visible(fetch.body.GetOr([]), Removidos(old(storage)))
      ensures fetch.FetchFailed? || old(storage).Corrupt? ==> pedidos == old(pedidos)
      ensures storage == old(storage)
    {
      if fetch.Fetched? && !storage.Corrupt? {
        pedidos := Visible(fetch.body.GetOr([]), Removidos(storage));
      }
    }

    /**
     * Lines 129-134: drop the order from the screen, then append its id to the stored
     * list. When the stored text is not JSON, the parse throws after the screen was
     * updated, and nothing is stored.
     */
    method RemoverPedidoDaTela(id: int)
      modifies this
      ensures pedidos == RemoveId(old(pedidos), id)
      ensures !old(storage).Corrupt? ==> storage == Ids(Removidos(old(storage)) + [id])
      ensures old(storage).Corrupt? ==> storage == old(storage)
      ensures forall o :: o in pedidos ==> o.id != id
    {
      RemoveIdMembers(pedidos, id);
      pedidos := RemoveId(pedidos, id);
      if !storage.Corrupt? {
        storage := Ids(Removidos(storage) + [id]);
      }
    }
  }

  /** After hiding an order whose id could be stored, reloading the same orders shows the same list. */
  lemma HiddenStaysHidden(fetched: seq<ListedOrder>, s: Stored, id: int)
    ensures var s2 := Ids(Removidos(s) + [id]);
      Visible(fetched, Removidos(s2)) == RemoveId(Visible(fetched, Removidos(s)), id) &&
      forall o :: o in Visible(fetched, Removidos(s2)) ==> o.id != id
  {
    HideThenReload(fetched, Removidos(s), id);
    RemoveIdMembers(Visible(fetched, Removidos(s)), id);
  }
}
