/**
 * The admin dashboard: one authorised request for the summary, and the rules that turn
 * the summary into the month axis of the sales chart, the top-customer card and the
 * frequent-customer table.
 */
module Dashboard {
  import opened Wrappers
  import opened Rest

  const MonthNames: seq<string> := ["January", "February", "March", "April", "May", "June",
    "July", "August", "September", "October", "November", "December"]

  /** `getMonthName(m)`: `monthNames[m - 1]`, undefined outside 1..12. */
  function GetMonthName(m: int): (r: Option<string>)
    ensures 1 <= m <= 12 <==> r.Some?
    ensures r.Some? ==> r.value == MonthNames[m - 1]
  {
    if 1 <= m <= 12 then Some(MonthNames[m - 1]) else None
  }

  /** The months are named January to December, each name once. */
  lemma MonthNamesInOrder(m: int, n: int)
    requires 1 <= m <= 12 && 1 <= n <= 12 && m != n
    ensures GetMonthName(1) == Some("January") && GetMonthName(12) == Some("December")
    ensures GetMonthName(m) != GetMonthName(n)
  {
    assert MonthNames[m - 1] != MonthNames[n - 1] by {
      assert forall i, j :: 0 <= i < j < 12 ==> MonthNames[i] != MonthNames[j];
    }
  }

  /** An entry `[name, count]` of `frequent_customers`. */
  datatype CustomerCount = CustomerCount(name: string, count: int)

  /** An entry `[[year, month], sales]` of `monthly_sales_trend`. */
  datatype MonthSales = MonthSales(year: int, month: int, sales: int)

  /** The summary the dashboard renders. */
  datatype Summary = Summary(frequent_customers: seq<CustomerCount>, monthly_sales_trend: seq<MonthSales>)

  /** One bar of the chart. */
  datatype Bar = Bar(month: Option<string>, sales: int)

  /** The chart's bars: one per month of the trend, in order; no summary, no bars. */
  function ChartBars(data: Option<Summary>): (bars: seq<Bar>)
    ensures data.None? ==> bars == []
    ensures data.Some? ==> (|bars| == |data.value.monthly_sales_trend|
      && forall i :: 0 <= i < |bars| ==>
           bars[i] == Bar(GetMonthName(data.value.monthly_sales_trend[i].month), data.value.monthly_sales_trend[i].sales))
  {
    if data.None? then []
    else
      var t := data.value.monthly_sales_trend;
      seq(|t|, i requires 0 <= i < |t| => Bar(GetMonthName(t[i].month), t[i].sales))
  }

  /** The top-customer card: the first frequent customer, with a skeleton in place of a
      falsy name or count, or "No Data Available". */
  datatype TopCard = Top(name: Option<string>, count: Option<int>) | NoData

  function TopCustomer(data: Option<Summary>): (c: TopCard)
    ensures c.NoData? <==> data.None? || data.value.frequent_customers == []
    ensures c.Top? ==> var first := data.value.frequent_customers[0];
      && (c.name.Some? <==> first.name != "") && (c.name.Some? ==> c.name.value == first.name)
      && (c.count.Some? <==> first.count != 0) && (c.count.Some? ==> c.count.value == first.count)
  {
    if data.None? || |data.value.frequent_customers| == 0 then NoData
    else
      var first := data.value.frequent_customers[0];
      Top(if first.name != "" then Some(first.name) else None, if first.count != 0 then Some(first.count) else None)
  }

  /** The frequent-customer table: the first five entries, or five skeleton rows while
      there is no summary. */
  datatype Rows = Entries(entries: seq<CustomerCount>) | SkeletonRows(count: nat)

  function FrequentRows(data: Option<Summary>): (r: Rows)
    ensures data.None? <==> r == SkeletonRows(5)
    ensures r.Entries? ==> |r.entries| <= 5 && r.entries <= data.value.frequent_customers
    ensures r.Entries? && |data.value.frequent_customers| >= 5 ==> |r.entries| == 5
    ensures r.Entries? && |data.value.frequent_customers| < 5 ==> r.entries == data.value.frequent_customers
  {
    if data.None? then SkeletonRows(5)
    else
      var fc := data.value.frequent_customers;
      Entries(if |fc| <= 5 then fc else fc[..5])
  }

  /** The card and the table agree: the card's customer heads the table. */
  lemma TopCustomerHeadsTable(data: Option<Summary>)
    requires TopCustomer(data).Top? && TopCustomer(data).name.Some?
    ensures FrequentRows(data).Entries? && FrequentRows(data).entries != []
    ensures FrequentRows(data).entries[0].name == TopCustomer(data).name.value
  {
  }

  class DashboardScreen {
    var data: Option<Summary>
    var redirected: bool

    constructor ()
      ensures data.None? && !redirected
    {
      data, redirected := None, false;
    }

    /** `fetchDashboardData()`: a response becomes the summary; an error is only reported
        and the redirect leaves the summary unset as it was. */
    method FetchDashboardData(status: nat -> int, refreshOk: nat -> bool, body: Summary)
      modifies this
      ensures var e := Fetch(status, refreshOk);
        && data == (if e.outcome.Got? then Some(body) else old(data))
        && redirected == (old(redirected) || e.outcome.Redirected?)
    {
      var e := Fetch(status, refreshOk);
      if e.outcome.Got? {
        data := Some(body);
      } else if e.outcome.Redirected? {
        redirected := true;
      }
    }
  }
}
