/**
 * The cash-flow projection
 * (src/insights/cash-flow-projection/cash-flow-projection.service.ts): past
 * movements are totalled by day, and the days ahead are forecast from them and
 * from the dated invoices and taxes. A day is an integer; amounts are exact.
 */
module CashFlowProjection {
  import opened Entities
  import opened CashFlowTrend
  import opened RealArithmetic
  import opened RealSums
  import opened Rounding

  datatype Dated = Dated(day: int, amount: real)
  datatype Movement = Movement(day: int, amount: real, kind: TransactionType)
  datatype ProjectionItem = ProjectionItem(day: int, income: real, expense: real, balance: real)

  const RECENT_DAYS := 60

  // Amounts per day.

  /** Sum of the amounts of one day. */
  function OnDay(xs: seq<Dated>, day: int): real {
    if xs == [] then 0.0
    else OnDay(xs[..|xs| - 1], day) + (if xs[|xs| - 1].day == day then xs[|xs| - 1].amount else 0.0)
  }

  /** Sum of the amounts whose day is listed. */
  function OnListed(xs: seq<Dated>, days: seq<int>): real {
    if xs == [] then 0.0
    else OnListed(xs[..|xs| - 1], days) + (if xs[|xs| - 1].day in days then xs[|xs| - 1].amount else 0.0)
  }

  function EachDay(xs: seq<Dated>, days: seq<int>): (r: seq<real>)
    ensures |r| == |days| && forall i :: 0 <= i < |days| ==> r[i] == OnDay(xs, days[i])
  {
    seq(|days|, i requires 0 <= i < |days| => OnDay(xs, days[i]))
  }

  ghost predicate Distinct(days: seq<int>) {
    forall i, j :: 0 <= i < j < |days| ==> days[i] != days[j]
  }

  lemma {:induction false} OnDayAppend(xs: seq<Dated>, x: Dated, day: int)
    ensures OnDay(xs + [x], day) == OnDay(xs, day) + if x.day == day then x.amount else 0.0
  {
    assert (xs + [x])[..|xs|] == xs;
  }

  function Single(x: Dated, days: seq<int>): (r: seq<real>)
    ensures |r| == |days| && forall i :: 0 <= i < |days| ==> r[i] == if x.day == days[i] then x.amount else 0.0
  {
    seq(|days|, i requires 0 <= i < |days| => if x.day == days[i] then x.amount else 0.0)
  }

  /** Over distinct days, one amount is counted once or not at all. */
  lemma {:induction false} CountedOnce(x: Dated, days: seq<int>)
    requires Distinct(days)
    ensures Sum(Single(x, days)) == if x.day in days then x.amount else 0.0
  {
    if days != [] {
      var n := |days| - 1;
      CountedOnce(x, days[..n]);
      assert Single(x, days)[..n] == Single(x, days[..n]);
      assert x.day in days <==> x.day in days[..n] || x.day == days[n];
    }
  }

  /** The daily sums over distinct days add up to the amounts dated on those days. */
  lemma {:induction false} DaysPartition(xs: seq<Dated>, days: seq<int>)
    requires Distinct(days)
    ensures Sum(EachDay(xs, days)) == OnListed(xs, days)
    decreases |xs|
  {
    if xs == [] {
      SumOfZeros(EachDay(xs, days));
    } else {
      var n := |xs| - 1;
      DaysPartition(xs[..n], days);
      CountedOnce(xs[n], days);
      SumAdd(EachDay(xs[..n], days), Single(xs[n], days));
      assert EachDay(xs, days) == Add(EachDay(xs[..n], days), Single(xs[n], days));
    }
  }

  lemma {:induction false} SumOfZeros(ts: seq<real>)
    requires forall i :: 0 <= i < |ts| ==> ts[i] == 0.0
    ensures Sum(ts) == 0.0
  {
    if ts != [] { SumOfZeros(ts[..|ts| - 1]); }
  }

  function Total(xs: seq<Dated>): real {
    if xs == [] then 0.0 else Total(xs[..|xs| - 1]) + xs[|xs| - 1].amount
  }

  lemma {:induction false} AllListed(xs: seq<Dated>, days: seq<int>)
    requires forall i :: 0 <= i < |xs| ==> xs[i].day in days
    ensures OnListed(xs, days) == Total(xs)
  {
    if xs != [] { AllListed(xs[..|xs| - 1], days); }
  }

  // History.

  /** The absolute amounts of the movements of one kind. */
  function OfKind(ts: seq<Movement>, credit: bool): seq<Dated> {
    if ts == [] then []
    else
      var t := ts[|ts| - 1];
      OfKind(ts[..|ts| - 1], credit)
      + if (t.kind == CREDIT) == credit then [Dated(t.day, RealArithmetic.Abs(t.amount))] else []
  }

  lemma {:induction false} OfKindAppend(ts: seq<Movement>, t: Movement, credit: bool)
    ensures OfKind(ts + [t], credit)
         == OfKind(ts, credit)
            + if (t.kind == CREDIT) == credit then [Dated(t.day, RealArithmetic.Abs(t.amount))] else []
  {
    assert (ts + [t])[..|ts|] == ts;
  }

  lemma {:induction false} OfKindDays(ts: seq<Movement>, credit: bool, days: seq<int>)
    requires forall i :: 0 <= i < |ts| ==> ts[i].day in days
    ensures forall i :: 0 <= i < |OfKind(ts, credit)| ==> OfKind(ts, credit)[i].day in days
  {
    if ts != [] { OfKindDays(ts[..|ts| - 1], credit, days); }
  }

  /** What the movements of one day add up to. */
  function DayTotal(ts: seq<Movement>, day: int): DailyTotal {
    DailyTotal(day, OnDay(OfKind(ts, true), day), OnDay(OfKind(ts, false), day))
  }

  function Tallied(current: DailyTotal, t: Movement): DailyTotal {
    if t.kind == CREDIT then current.(income := current.income + RealArithmetic.Abs(t.amount))
    else current.(expense := current.expense + RealArithmetic.Abs(t.amount))
  }

  lemma {:induction false} AbsentDay(ts: seq<Movement>, credit: bool, day: int)
    requires forall i :: 0 <= i < |ts| ==> ts[i].day != day
    ensures OnDay(OfKind(ts, credit), day) == 0.0
  {
    if ts != [] {
      var n := |ts| - 1;
      AbsentDay(ts[..n], credit, day);
      if (ts[n].kind == CREDIT) == credit {
        OnDayAppend(OfKind(ts[..n], credit), Dated(ts[n].day, RealArithmetic.Abs(ts[n].amount)), day);
      } else {
        assert OfKind(ts, credit) == OfKind(ts[..n], credit);
      }
    }
  }

  lemma {:induction false} DayTotalStep(ts: seq<Movement>, t: Movement, day: int)
    ensures DayTotal(ts + [t], day) == if t.day == day then Tallied(DayTotal(ts, day), t) else DayTotal(ts, day)
  {
    var x := Dated(t.day, RealArithmetic.Abs(t.amount));
    OfKindAppend(ts, t, true);
    OfKindAppend(ts, t, false);
    OnDayAppend(OfKind(ts, t.kind == CREDIT), x, day);
    assert OfKind(ts, t.kind != CREDIT) + [] == OfKind(ts, t.kind != CREDIT);
  }

  predicate DayListed(totals: seq<DailyTotal>, day: int) {
    exists i :: 0 <= i < |totals| && totals[i].day == day
  }

  predicate DayMoved(ts: seq<Movement>, day: int) {
    exists i :: 0 <= i < |ts| && ts[i].day == day
  }

  ghost predicate DistinctDays(totals: seq<DailyTotal>) {
    forall i, j :: 0 <= i < j < |totals| ==> totals[i].day != totals[j].day
  }

  /** The entries are the totals of exactly the days of the movements, each day once. */
  ghost predicate Tallies(totals: seq<DailyTotal>, ts: seq<Movement>) {
    && DistinctDays(totals)
    && (forall i :: 0 <= i < |totals| ==> totals[i] == DayTotal(ts, totals[i].day) && DayMoved(ts, totals[i].day))
    && (forall i :: 0 <= i < |ts| ==> DayListed(totals, ts[i].day))
  }

  /** Where the map holds a day; its size if it does not. */
  function IndexOfDay(totals: seq<DailyTotal>, day: int): (k: nat)
    ensures k <= |totals|
    ensures k < |totals| ==> totals[k].day == day
    ensures k == |totals| ==> !DayListed(totals, day)
  {
    if totals == [] then 0
    else if totals[|totals| - 1].day == day then |totals| - 1
    else
      var k := IndexOfDay(totals[..|totals| - 1], day);
      assert DayListed(totals, day) ==> DayListed(totals[..|totals| - 1], day) by {
        if i :| 0 <= i < |totals| && totals[i].day == day { assert totals[..|totals| - 1][i].day == day; }
      }
      if k < |totals| - 1 then k else |totals|
  }

  /** A Map's `set`: an entry keeps its place, a new one goes last. */
  function PutDay(totals: seq<DailyTotal>, t: DailyTotal): seq<DailyTotal> {
    var k := IndexOfDay(totals, t.day);
    if k < |totals| then totals[k := t] else totals + [t]
  }

  function GetDay(totals: seq<DailyTotal>, day: int): DailyTotal {
    var k := IndexOfDay(totals, day);
    if k < |totals| then totals[k] else DailyTotal(day, 0.0, 0.0)
  }

  lemma {:induction false} GetTallied(totals: seq<DailyTotal>, ts: seq<Movement>, day: int)
    requires Tallies(totals, ts)
    ensures GetDay(totals, day) == DayTotal(ts, day)
  {
    if IndexOfDay(totals, day) == |totals| {
      AbsentDay(ts, true, day);
      AbsentDay(ts, false, day);
    }
  }

  lemma {:induction false} PutListed(totals: seq<DailyTotal>, t: DailyTotal, day: int)
    ensures DayListed(PutDay(totals, t), day) <==> DayListed(totals, day) || day == t.day
  {
    var k, r := IndexOfDay(totals, t.day), PutDay(totals, t);
    if day == t.day { assert r[k].day == day; }
    if DayListed(totals, day) { var i :| 0 <= i < |totals| && totals[i].day == day; assert r[i].day == day; }
    if DayListed(r, day) && day != t.day { var i :| 0 <= i < |r| && r[i].day == day; assert totals[i].day == day; }
  }

  lemma {:induction false} TalliesStep(totals: seq<DailyTotal>, ts: seq<Movement>, t: Movement)
    requires Tallies(totals, ts)
    ensures Tallies(PutDay(totals, Tallied(GetDay(totals, t.day), t)), ts + [t])
  {
    hide OnDay, OfKind, GetDay;
    var ts', u := ts + [t], Tallied(GetDay(totals, t.day), t);
    var r, k := PutDay(totals, u), IndexOfDay(totals, t.day);
    GetTallied(totals, ts, t.day);
    DayTotalStep(ts, t, t.day);
    assert ts'[|ts|].day == t.day;
    assert r[k] == u == DayTotal(ts', t.day);
    forall i | 0 <= i < |r| && i != k ensures r[i] == DayTotal(ts', r[i].day) && DayMoved(ts', r[i].day) {
      assert r[i] == totals[i] && r[i].day != t.day;
      DayTotalStep(ts, t, r[i].day);
      var j :| 0 <= j < |ts| && ts[j].day == r[i].day;
      assert ts'[j].day == r[i].day;
    }
    forall i | 0 <= i < |ts'| ensures DayListed(r, ts'[i].day) {
      PutListed(totals, u, ts'[i].day);
    }
  }

  // The sort by day.

  ghost predicate Increasing(totals: seq<DailyTotal>) {
    forall i, j :: 0 <= i < j < |totals| ==> totals[i].day < totals[j].day
  }

  function Insert(totals: seq<DailyTotal>, t: DailyTotal): (r: seq<DailyTotal>)
    ensures multiset(r) == multiset(totals) + multiset{t}
  {
    if totals == [] || totals[|totals| - 1].day < t.day then totals + [t]
    else
      var init, last := totals[..|totals| - 1], totals[|totals| - 1];
      assert totals == init + [last];
      Insert(init, t) + [last]
  }

  lemma {:induction false} InsertIncreasing(totals: seq<DailyTotal>, t: DailyTotal)
    requires Increasing(totals) && forall u :: u in totals ==> u.day != t.day
    ensures Increasing(Insert(totals, t))
    decreases |totals|
  {
    if totals != [] && totals[|totals| - 1].day > t.day {
      var init, last := totals[..|totals| - 1], totals[|totals| - 1];
      var front := Insert(init, t);
      InsertIncreasing(init, t);
      forall i | 0 <= i < |front| ensures front[i].day < last.day {
        assert front[i] in multiset(init) + multiset{t};
      }
    }
  }

  /** The entries sorted by day; sorting moves entries and changes none. */
  method SortByDay(entries: seq<DailyTotal>) returns (totals: seq<DailyTotal>)
    requires DistinctDays(entries)
    ensures Increasing(totals) && multiset(totals) == multiset(entries)
  {
    totals := [];
    for i := 0 to |entries|
      invariant Increasing(totals) && multiset(totals) == multiset(entries[..i])
    {
      assert entries[..i + 1] == entries[..i] + [entries[i]];
      forall u | u in totals ensures u.day != entries[i].day {
        assert u in multiset(entries[..i]);
      }
      InsertIncreasing(totals, entries[i]);
      totals := Insert(totals, entries[i]);
    }
    assert entries[..|entries|] == entries;
  }

  lemma {:induction false} SortedTallies(totals: seq<DailyTotal>, entries: seq<DailyTotal>, ts: seq<Movement>)
    requires Tallies(entries, ts) && Increasing(totals) && multiset(totals) == multiset(entries)
    ensures Tallies(totals, ts)
  {
    forall i | 0 <= i < |totals| ensures totals[i] == DayTotal(ts, totals[i].day) && DayMoved(ts, totals[i].day) {
      assert totals[i] in multiset(entries);
    }
    forall i | 0 <= i < |ts| ensures DayListed(totals, ts[i].day) {
      var k :| 0 <= k < |entries| && entries[k].day == ts[i].day;
      assert entries[k] in multiset(totals);
    }
  }

  /** One total for each day with movements, in order, adding up to all credits and all debits. */
  method AggregateByDay(ts: seq<Movement>) returns (totals: seq<DailyTotal>)
    ensures Increasing(totals) && Tallies(totals, ts)
    ensures Sum(Incomes(totals)) == Total(OfKind(ts, true))
    ensures Sum(Expenses(totals)) == Total(OfKind(ts, false))
  {
    var entries: seq<DailyTotal> := [];
    for i := 0 to |ts|
      invariant Tallies(entries, ts[..i])
    {
      var current := GetDay(entries, ts[i].day);
      TalliesStep(entries, ts[..i], ts[i]);
      assert ts[..i] + [ts[i]] == ts[..i + 1];
      entries := PutDay(entries, Tallied(current, ts[i]));
    }
    assert ts[..|ts|] == ts;
    totals := SortByDay(entries);
    SortedTallies(totals, entries, ts);
    TotalsPartition(totals, ts);
  }

  function Incomes(totals: seq<DailyTotal>): (r: seq<real>)
    ensures |r| == |totals| && forall i :: 0 <= i < |totals| ==> r[i] == totals[i].income
  {
    seq(|totals|, i requires 0 <= i < |totals| => totals[i].income)
  }

  function Expenses(totals: seq<DailyTotal>): (r: seq<real>)
    ensures |r| == |totals| && forall i :: 0 <= i < |totals| ==> r[i] == totals[i].expense
  {
    seq(|totals|, i requires 0 <= i < |totals| => totals[i].expense)
  }

  function Days(totals: seq<DailyTotal>): (r: seq<int>)
    ensures |r| == |totals| && forall i :: 0 <= i < |totals| ==> r[i] == totals[i].day
  {
    seq(|totals|, i requires 0 <= i < |totals| => totals[i].day)
  }

  /** The daily totals partition all credits and all debits. */
  lemma {:induction false} TotalsPartition(totals: seq<DailyTotal>, ts: seq<Movement>)
    requires Tallies(totals, ts)
    ensures Sum(Incomes(totals)) == Total(OfKind(ts, true))
    ensures Sum(Expenses(totals)) == Total(OfKind(ts, false))
  {
    var days := Days(totals);
    forall i | 0 <= i < |ts| ensures ts[i].day in days {
      var k :| 0 <= k < |totals| && totals[k].day == ts[i].day;
      assert days[k] == ts[i].day;
    }
    KindPartition(ts, true, days);
    KindPartition(ts, false, days);
    assert Incomes(totals) == EachDay(OfKind(ts, true), days);
    assert Expenses(totals) == EachDay(OfKind(ts, false), days);
  }

  lemma {:induction false} KindPartition(ts: seq<Movement>, credit: bool, days: seq<int>)
    requires Distinct(days) && forall i :: 0 <= i < |ts| ==> ts[i].day in days
    ensures Sum(EachDay(OfKind(ts, credit), days)) == Total(OfKind(ts, credit))
  {
    OfKindDays(ts, credit, days);
    DaysPartition(OfKind(ts, credit), days);
    AllListed(OfKind(ts, credit), days);
  }

  // Forecast.

  /** What a forecast works from. */
  datatype Outlook = Outlook(
    start: int, initial: real, trended: int -> real, avgExpense: real, invoices: seq<Dated>, taxes: seq<Dated>)
  {
    function RealInvoices(i: int): real {
      OnDay(invoices, start + i)
    }

    function RealTaxes(i: int): real {
      OnDay(taxes, start + i)
    }

    /** The part of a day's income that comes from history; none on a day with invoices. */
    function IncomeFill(i: int): real {
      if RealInvoices(i) > 0.0 then 0.0 else trended(i)
    }

    function ExpenseFill(i: int): real {
      if RealTaxes(i) > 0.0 then 0.0 else avgExpense
    }

    function Income(i: int): real {
      if RealInvoices(i) > 0.0 then RealInvoices(i) else trended(i)
    }

    function Expense(i: int): real {
      RealTaxes(i) + ExpenseFill(i)
    }

    function Balance(n: nat): real {
      if n == 0 then initial else Balance(n - 1) + (Income(n - 1) - Expense(n - 1))
    }

    function Item(i: nat): ProjectionItem {
      ProjectionItem(start + i, Round2(Income(i)), Round2(Expense(i)), Round2(Balance(i + 1)))
    }
  }

  function Recent(historical: seq<DailyTotal>): seq<DailyTotal> {
    if |historical| > RECENT_DAYS then historical[|historical| - RECENT_DAYS..] else historical
  }

  function Average(amounts: seq<real>): real {
    if |amounts| > 0 then Sum(amounts) / |amounts| as real else 0.0
  }

  function OutlookFrom(historical: seq<DailyTotal>, start: int, initial: real, invoices: seq<Dated>,
          taxes: seq<Dated>): Outlook {
    var recent := Recent(historical);
    Outlook(start, initial, Trended(Average(Incomes(recent)), Trend(recent)), Average(Expenses(recent)),
            invoices, taxes)
  }

  /** The average income moved along the trend. */
  function Trended(avgIncome: real, trend: real): int -> real {
    i => avgIncome * (1.0 + trend * i as real)
  }

  /** Invoices of a positive sum replace the trended income of their day, and taxes the average expense. */
  lemma DayMeans(o: Outlook, i: int)
    ensures OnDay(o.invoices, o.start + i) > 0.0 ==> o.Income(i) == OnDay(o.invoices, o.start + i)
    ensures OnDay(o.invoices, o.start + i) <= 0.0 ==> o.Income(i) == o.trended(i)
    ensures OnDay(o.taxes, o.start + i) > 0.0 ==> o.Expense(i) == OnDay(o.taxes, o.start + i)
    ensures OnDay(o.taxes, o.start + i) == 0.0 ==> o.Expense(i) == o.avgExpense
  {
  }

  /** A day without invoices starts from the average and moves on by the average times the trend a day. */
  lemma TrendedMoves(avgIncome: real, trend: real, i: int)
    ensures Trended(avgIncome, trend)(0) == avgIncome
    ensures Trended(avgIncome, trend)(i + 1) - Trended(avgIncome, trend)(i) == avgIncome * trend
    ensures avgIncome > 0.0 ==> (Trended(avgIncome, trend)(i + 1) > Trended(avgIncome, trend)(i) <==> trend > 0.0)
  {
    var x, y := trend * (i + 1) as real, trend * i as real;
    assert (i + 1) as real == i as real + 1.0;
    assert x == y + trend;
    assert avgIncome * (1.0 + x) == avgIncome * (1.0 + y) + avgIncome * trend;
    if avgIncome > 0.0 { ProductSign(avgIncome, trend); }
  }

  lemma ProductSign(a: real, t: real)
    requires a > 0.0
    ensures a * t > 0.0 <==> t > 0.0
  {
    if t <= 0.0 { assert a * -t >= 0.0; }
  }

  /** The history a forecast looks at: the last sixty days, all of them if there are fewer. */
  lemma RecentIs(historical: seq<DailyTotal>)
    ensures |Recent(historical)| == if |historical| < 60 then |historical| else 60
    ensures Recent(historical) == historical[|historical| - |Recent(historical)|..]
  {
  }

  /** A forecast starts from the averages of that history, or from nothing without one. */
  lemma StartsFromAverages(historical: seq<DailyTotal>, start: int, initial: real, invoices: seq<Dated>,
          taxes: seq<Dated>)
    ensures var o, recent := OutlookFrom(historical, start, initial, invoices, taxes), Recent(historical);
      && o.avgExpense * |recent| as real == Sum(Expenses(recent))
      && o.trended(0) * |recent| as real == Sum(Incomes(recent))
      && (recent == [] ==> o.avgExpense == 0.0 && o.trended(0) == 0.0)
  {
    hide Trend, Average, Sum, Trended, Recent;
    var recent := Recent(historical);
    AverageTimes(Incomes(recent));
    AverageTimes(Expenses(recent));
    TrendedMoves(Average(Incomes(recent)), Trend(recent), 0);
  }

  lemma AverageTimes(amounts: seq<real>)
    ensures Average(amounts) * |amounts| as real == Sum(amounts)
    ensures amounts == [] ==> Average(amounts) == 0.0
  {
  }

  method ProjectDay(o: Outlook, i: nat) returns (income: real, expense: real)
    ensures income == o.Income(i) && expense == o.Expense(i)
  {
    var realInvoices, realTaxes := OnDay(o.invoices, o.start + i), OnDay(o.taxes, o.start + i);
    income := if realInvoices > 0.0 then realInvoices else o.trended(i);
    expense := realTaxes + (if realTaxes > 0.0 then 0.0 else o.avgExpense);
  }

  method Project(o: Outlook, days: int) returns (projection: seq<ProjectionItem>)
    ensures |projection| == if days > 0 then days else 0
    ensures forall i :: 0 <= i < |projection| ==> projection[i] == o.Item(i)
  {
    var runningBalance := o.initial;
    projection := [];
    var i := 0;
    while i < days
      invariant 0 <= i && (i <= days || i == 0)
      invariant |projection| == i && runningBalance == o.Balance(i)
      invariant forall k :: 0 <= k < i ==> projection[k] == o.Item(k)
    {
      var income, expense := ProjectDay(o, i);
      runningBalance := runningBalance + (income - expense);
      projection := projection + [ProjectionItem(o.start + i, Round2(income), Round2(expense), Round2(runningBalance))];
      i := i + 1;
    }
  }

  method Forecast(historical: seq<DailyTotal>, days: int, start: int, initial: real, invoices: seq<Dated>,
          taxes: seq<Dated>)
    returns (projection: seq<ProjectionItem>)
    ensures |projection| == if days > 0 then days else 0
    ensures var o := OutlookFrom(historical, start, initial, invoices, taxes);
      forall i :: 0 <= i < |projection| ==> projection[i] == o.Item(i)
    ensures forall i :: 0 <= i < |projection| ==> projection[i].day == start + i
  {
    var recent := Recent(historical);
    var trend := CalculateTrend(recent);
    var avgIncome, avgExpense := Average(Incomes(recent)), Average(Expenses(recent));
    var o := Outlook(start, initial, Trended(avgIncome, trend), avgExpense, invoices, taxes);
    projection := Project(o, days);
  }

  /** The days of the horizon. */
  function Horizon(start: int, n: nat): (r: seq<int>)
    ensures |r| == n && forall i :: 0 <= i < n ==> r[i] == start + i
  {
    seq(n, i => start + i)
  }

  function ProjectedIncomes(o: Outlook, n: nat): (r: seq<real>)
    ensures |r| == n && forall i :: 0 <= i < n ==> r[i] == o.Income(i)
  {
    seq(n, i => o.Income(i))
  }

  function ProjectedExpenses(o: Outlook, n: nat): (r: seq<real>)
    ensures |r| == n && forall i :: 0 <= i < n ==> r[i] == o.Expense(i)
  {
    seq(n, i => o.Expense(i))
  }

  function IncomeFills(o: Outlook, n: nat): (r: seq<real>)
    ensures |r| == n && forall i :: 0 <= i < n ==> r[i] == o.IncomeFill(i)
  {
    seq(n, i => o.IncomeFill(i))
  }

  function ExpenseFills(o: Outlook, n: nat): (r: seq<real>)
    ensures |r| == n && forall i :: 0 <= i < n ==> r[i] == o.ExpenseFill(i)
  {
    seq(n, i => o.ExpenseFill(i))
  }

  /** No drift: a published balance is the initial one plus all exact flows, to half a cent. */
  lemma {:induction false} BalanceDoesNotDrift(o: Outlook, n: nat)
    ensures o.Balance(n) == o.initial + Sum(ProjectedIncomes(o, n)) - Sum(ProjectedExpenses(o, n))
    ensures n > 0 ==> -0.005 <= o.Item(n - 1).balance
                      - (o.initial + Sum(ProjectedIncomes(o, n)) - Sum(ProjectedExpenses(o, n))) <= 0.005
  {
    if n > 0 {
      BalanceDoesNotDrift(o, n - 1);
      assert ProjectedIncomes(o, n)[..n - 1] == ProjectedIncomes(o, n - 1);
      assert ProjectedExpenses(o, n)[..n - 1] == ProjectedExpenses(o, n - 1);
      Round2Close(o.Balance(n));
    }
  }

  /** Initial balance plus the published lines of the first n days. */
  function PublishedLines(o: Outlook, n: nat): real {
    if n == 0 then o.initial else PublishedLines(o, n - 1) + (o.Item(n - 1).income - o.Item(n - 1).expense)
  }

  /** Adding up published lines errs by at most a cent a day. */
  lemma {:induction false} PublishedLinesClose(o: Outlook, n: nat)
    ensures -0.01 * n as real <= o.Balance(n) - PublishedLines(o, n) <= 0.01 * n as real
    ensures n > 0 ==>
      -0.005 - 0.01 * n as real <= o.Item(n - 1).balance - PublishedLines(o, n) <= 0.005 + 0.01 * n as real
  {
    if n > 0 {
      PublishedLinesClose(o, n - 1);
      Round2Close(o.Income(n - 1));
      Round2Close(o.Expense(n - 1));
      Round2Close(o.Balance(n));
    }
  }

  /** A dated amount inside the horizon falls on exactly one of its days, and outside on none. */
  lemma {:induction false} CountedInHorizon(o: Outlook, n: nat)
    ensures Sum(EachDay(o.invoices, Horizon(o.start, n))) == Within(o.invoices, o.start, o.start + n)
    ensures Sum(EachDay(o.taxes, Horizon(o.start, n))) == Within(o.taxes, o.start, o.start + n)
  {
    DaysPartition(o.invoices, Horizon(o.start, n));
    DaysPartition(o.taxes, Horizon(o.start, n));
    ListedIsWithin(o.invoices, o.start, n);
    ListedIsWithin(o.taxes, o.start, n);
  }

  /** Sum of the amounts dated in [from, until). */
  function Within(xs: seq<Dated>, from: int, until: int): real {
    if xs == [] then 0.0
    else
      var x := xs[|xs| - 1];
      Within(xs[..|xs| - 1], from, until) + (if from <= x.day < until then x.amount else 0.0)
  }

  lemma {:induction false} ListedIsWithin(xs: seq<Dated>, start: int, n: nat)
    ensures OnListed(xs, Horizon(start, n)) == Within(xs, start, start + n)
    decreases |xs|
  {
    if xs != [] {
      var day := xs[|xs| - 1].day;
      ListedIsWithin(xs[..|xs| - 1], start, n);
      if start <= day < start + n { assert Horizon(start, n)[day - start] == day; }
    }
  }

  /** Projected expense is every tax of the horizon plus the averages of the days without one. */
  lemma {:induction false} ExpensesConserveTaxes(o: Outlook, n: nat)
    ensures Sum(ProjectedExpenses(o, n)) == Within(o.taxes, o.start, o.start + n) + Sum(ExpenseFills(o, n))
  {
    var days := Horizon(o.start, n);
    CountedInHorizon(o, n);
    SumAdd(EachDay(o.taxes, days), ExpenseFills(o, n));
    assert ProjectedExpenses(o, n) == Add(EachDay(o.taxes, days), ExpenseFills(o, n));
  }

  /** Invoices of a day whose sum is negative are left out of the projection. */
  function LeftOut(o: Outlook, n: nat): (r: seq<real>)
    ensures |r| == n && forall i :: 0 <= i < n ==> r[i] == if o.RealInvoices(i) < 0.0 then o.RealInvoices(i) else 0.0
  {
    seq(n, i => if o.RealInvoices(i) < 0.0 then o.RealInvoices(i) else 0.0)
  }

  lemma {:induction false} IncomesConserveInvoices(o: Outlook, n: nat)
    ensures Sum(ProjectedIncomes(o, n)) + Sum(LeftOut(o, n))
         == Within(o.invoices, o.start, o.start + n) + Sum(IncomeFills(o, n))
  {
    var days := Horizon(o.start, n);
    CountedInHorizon(o, n);
    SumAdd(EachDay(o.invoices, days), IncomeFills(o, n));
    SumAdd(ProjectedIncomes(o, n), LeftOut(o, n));
    var split, whole := Add(ProjectedIncomes(o, n), LeftOut(o, n)), Add(EachDay(o.invoices, days), IncomeFills(o, n));
    forall i | 0 <= i < n ensures split[i] == whole[i] {
      assert days[i] == o.start + i;
    }
    assert split == whole;
  }

  /** All invoices of the horizon are in the projection exactly when no day's sum is negative. */
  lemma {:induction false} InvoicesConservedIff(o: Outlook, n: nat)
    ensures Sum(ProjectedIncomes(o, n)) == Within(o.invoices, o.start, o.start + n) + Sum(IncomeFills(o, n))
       <==> forall i :: 0 <= i < n ==> o.RealInvoices(i) >= 0.0
  {
    IncomesConserveInvoices(o, n);
    LeftOutZeroIff(o, n);
  }

  lemma {:induction false} LeftOutZeroIff(o: Outlook, n: nat)
    ensures Sum(LeftOut(o, n)) <= 0.0
    ensures Sum(LeftOut(o, n)) == 0.0 <==> forall i :: 0 <= i < n ==> o.RealInvoices(i) >= 0.0
  {
    if n > 0 {
      LeftOutZeroIff(o, n - 1);
      assert LeftOut(o, n)[..n - 1] == LeftOut(o, n - 1);
      assert Sum(LeftOut(o, n)) == Sum(LeftOut(o, n - 1)) + LeftOut(o, n)[n - 1];
    }
  }
}
