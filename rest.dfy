/**
 * The reporting screens that read the shop's REST back end: the authorised request with
 * its one-shot token refresh (written out identically in the low-stock, detailed-data and
 * dashboard screens), and the paged table of rows those screens accumulate and filter.
 *
 * The back end is an oracle: `status(n)` is the HTTP status of the n-th request of a call
 * and `refreshOk(n)` whether its n-th token refresh succeeds. The stored access token and
 * the request headers are not modelled.
 */
module Rest {
  import opened Wrappers
  import opened Text
  import opened Customers

  predicate Ok(status: int) { 200 <= status <= 299 }

  /** How `fetchWithAuth` ends: with a response, with the redirect to the login page (it
      returns `null`), or by throwing. */
  datatype Outcome = Got(status: int) | Redirected | Failed

  /** The outcome and how many requests and token refreshes it took. */
  datatype Exchange = Exchange(outcome: Outcome, requests: nat, refreshes: nat)

  /**
   * `fetchWithAuth(url, retryCount)`, with `sent` requests and `refreshed` refreshes already
   * made. A 401 on the first attempt refreshes the token and retries once with
   * `retryCount` 1; a failed refresh redirects. Any other response that is not ok, a
   * second 401 included, throws.
   */
  function FetchWithAuth(status: nat -> int, refreshOk: nat -> bool, retryCount: nat, sent: nat, refreshed: nat): (e: Exchange)
    decreases if retryCount == 0 then 1 else 0
    ensures e.outcome.Got? ==> Ok(e.outcome.status)
    ensures sent < e.requests <= sent + 2 && refreshed <= e.refreshes <= refreshed + 1
    ensures retryCount != 0 ==> e.requests == sent + 1 && e.refreshes == refreshed && !e.outcome.Redirected?
    ensures e.refreshes == refreshed + 1 <==> retryCount == 0 && status(sent) == 401
  {
    var st := status(sent);
    if st == 401 && retryCount == 0 then
      if refreshOk(refreshed) then FetchWithAuth(status, refreshOk, 1, sent + 1, refreshed + 1)
      else Exchange(Redirected, sent + 1, refreshed + 1)
    else if !Ok(st) then Exchange(Failed, sent + 1, refreshed)
    else Exchange(Got(st), sent + 1, refreshed)
  }

  /** A call as the screens make it: no request made yet, `retryCount` 0. */
  function Fetch(status: nat -> int, refreshOk: nat -> bool): Exchange {
    FetchWithAuth(status, refreshOk, 0, 0, 0)
  }

  /** A call makes at most two requests and one refresh, and redirects only after its one
      refresh failed. */
  lemma FetchBounded(status: nat -> int, refreshOk: nat -> bool)
    ensures var e := Fetch(status, refreshOk);
      && 1 <= e.requests <= 2 && e.refreshes <= 1
      && (e.requests == 2 <==> status(0) == 401 && refreshOk(0))
      && (e.outcome.Redirected? <==> status(0) == 401 && !refreshOk(0))
  {
  }

  /** A first 401 with a successful refresh gives the retry's outcome: its response when it
      is ok, an error otherwise, a second 401 included. */
  lemma UnauthorizedRetriedOnce(status: nat -> int, refreshOk: nat -> bool)
    requires status(0) == 401 && refreshOk(0)
    ensures Fetch(status, refreshOk) ==
      Exchange(if Ok(status(1)) then Got(status(1)) else Failed, 2, 1)
  {
  }

  /** Any other first response is final. */
  lemma OtherStatusFinal(status: nat -> int, refreshOk: nat -> bool)
    requires status(0) != 401
    ensures Fetch(status, refreshOk) == Exchange(if Ok(status(0)) then Got(status(0)) else Failed, 1, 0)
  {
  }

  /** A row of a report: the texts of its field values. */
  type Row = seq<string>

  /** The body of a report page: `{results, next}`. */
  datatype Page = Page(results: seq<Row>, next: Option<string>)

  /** `Object.values(item).some(v => v.toString().toLowerCase().includes(term.toLowerCase()))`. */
  predicate RowMatches(row: Row, term: string) {
    exists i :: 0 <= i < |row| && Matches(row[i], term)
  }

  /** `filteredData`: the matching rows, in their order. */
  function FilterRows(rows: seq<Row>, term: string): (r: seq<Row>)
    ensures |r| <= |rows|
    ensures forall x :: x in r <==> x in rows && RowMatches(x, term)
  {
    if rows == [] then []
    else (if RowMatches(rows[0], term) then [rows[0]] else []) + FilterRows(rows[1..], term)
  }

  /** The empty search term keeps every row that has a field; a row without fields is
      never shown. */
  lemma {:induction false} FilterEmptyTerm(rows: seq<Row>)
    ensures forall x :: x in FilterRows(rows, "") <==> x in rows && x != []
  {
    forall x | x in rows && x != []
      ensures RowMatches(x, "")
    {
      MatchesEmpty(x[0]);
    }
  }

  /** The report text of `nextPage` is truthy. */
  predicate HasNext(nextPage: Option<string>) {
    nextPage.Some? && nextPage.value != ""
  }

  /** The "Load More" button: disabled while loading or without a next page. */
  predicate LoadMoreEnabled(nextPage: Option<string>, isLoading: bool) {
    HasNext(nextPage) && !isLoading
  }

  /** The table state of a report screen: the accumulated rows, the next page's address,
      and the requests it sent. */
  class PagedRows {
    var data: seq<Row>
    var nextPage: Option<string>
    var isLoading: bool
    var redirected: bool
    var requested: seq<string>

    constructor ()
      ensures data == [] && nextPage.None? && !isLoading && !redirected && requested == []
    {
      data, nextPage, isLoading, redirected, requested := [], None, false, false, [];
    }

    /** `fetchData(url)`: a response appends its page's rows in order and replaces
        `nextPage`; an error leaves both as they were and ends loading; the redirect returns
        before loading is cleared. */
    method FetchData(url: string, status: nat -> int, refreshOk: nat -> bool, body: Page)
      modifies this
      ensures requested == old(requested) + [url]
      ensures var e := Fetch(status, refreshOk);
        && (e.outcome.Got? ==> data == old(data) + body.results && nextPage == body.next && !isLoading)
        && (e.outcome.Failed? ==> data == old(data) && nextPage == old(nextPage) && !isLoading)
        && (e.outcome.Redirected? ==> data == old(data) && nextPage == old(nextPage) && isLoading)
        && redirected == (old(redirected) || e.outcome.Redirected?)
    {
      isLoading := true;
      requested := requested + [url];
      var e := Fetch(status, refreshOk);
      match e.outcome {
        case Redirected =>
          redirected := true;
          return;
        case Failed =>
        case Got(_) =>
          data := data + body.results;
          nextPage := body.next;
      }
      isLoading := false;
    }

    /** The mount effect: the rows are emptied, then the first page is fetched. */
    method Open(url: string, status: nat -> int, refreshOk: nat -> bool, body: Page)
      modifies this
      ensures requested == old(requested) + [url]
      ensures var e := Fetch(status, refreshOk);
        && data == (if e.outcome.Got? then body.results else [])
        && nextPage == (if e.outcome.Got? then body.next else old(nextPage))
        && isLoading == e.outcome.Redirected?
    {
      data := [];
      FetchData(url, status, refreshOk, body);
    }

    /** `loadMore()`: fetches the next page's address when there is one, else nothing. */
    method LoadMore(status: nat -> int, refreshOk: nat -> bool, body: Page)
      modifies this
      ensures !HasNext(old(nextPage)) ==>
        data == old(data) && nextPage == old(nextPage) && requested == old(requested)
        && isLoading == old(isLoading) && redirected == old(redirected)
      ensures HasNext(old(nextPage)) ==>
        && requested == old(requested) + [old(nextPage).value]
        && (Fetch(status, refreshOk).outcome.Got? ==> data == old(data) + body.results && nextPage == body.next)
        && (!Fetch(status, refreshOk).outcome.Got? ==> data == old(data) && nextPage == old(nextPage))
        && isLoading == Fetch(status, refreshOk).outcome.Redirected?
    {
      if HasNext(nextPage) {
        FetchData(nextPage.value, status, refreshOk, body);
      }
    }

    /** A click on "Load More": a disabled button sends nothing, so while a page is
        loading, or once the last page has arrived, the table and its requests stay as
        they are; an enabled one runs `loadMore`, which asks for the next page. */
    method ClickLoadMore(status: nat -> int, refreshOk: nat -> bool, body: Page)
      modifies this
      ensures !LoadMoreEnabled(old(nextPage), old(isLoading)) ==>
        data == old(data) && nextPage == old(nextPage) && requested == old(requested)
        && isLoading == old(isLoading) && redirected == old(redirected)
      ensures LoadMoreEnabled(old(nextPage), old(isLoading)) ==>
        && requested == old(requested) + [old(nextPage).value]
        && (Fetch(status, refreshOk).outcome.Got? ==> data == old(data) + body.results && nextPage == body.next)
        && (!Fetch(status, refreshOk).outcome.Got? ==> data == old(data) && nextPage == old(nextPage))
        && isLoading == Fetch(status, refreshOk).outcome.Redirected?
    {
      if LoadMoreEnabled(nextPage, isLoading) {
        LoadMore(status, refreshOk, body);
      }
    }
  }

  /** Filtering the accumulated rows is filtering each page and joining the results: a
      page appended by `loadMore` only ever adds shown rows after those already shown. */
  lemma {:induction false} FilterAppend(first: seq<Row>, more: seq<Row>, term: string)
    ensures FilterRows(first + more, term) == FilterRows(first, term) + FilterRows(more, term)
  {
    if first != [] {
      assert (first + more)[1..] == first[1..] + more;
      FilterAppend(first[1..], more, term);
    } else {
      assert first + more == more;
    }
  }

  const LowStockUrl := "https://alltech.gachara.store/api/shop1/detailed/lowstock/"

  /** The three reports the detailed view offers. */
  datatype DataType = Sales | Products | LowStock

  function TypeName(t: DataType): string {
    match t
    case Sales => "sales"
    case Products => "products"
    case LowStock => "lowstock"
  }

  function DetailUrl(t: DataType): string {
    "https://alltech.gachara.store/api/shop1/detailed/" + TypeName(t) + "/"
  }

  /** The columns shown for each report: the product name first, then the report's own
      fields, each once. */
  function Columns(t: DataType): (cs: seq<string>)
    ensures |cs| >= 2 && cs[0] == "product_name"
    ensures forall i, j :: 0 <= i < j < |cs| ==> cs[i] != cs[j]
    ensures t == Sales ==> cs[1..] == ["price", "quantity", "customer_name"]
    ensures t == Products ==> cs[1..] == ["total_quantity"]
    ensures t == LowStock ==> cs[1..] == ["quantity"]
  {
    match t
    case Sales => ["product_name", "price", "quantity", "customer_name"]
    case Products => ["product_name", "total_quantity"]
    case LowStock => ["product_name", "quantity"]
  }

  /** Each report has its own address. */
  lemma DetailUrlsDistinct(t: DataType, u: DataType)
    requires t != u
    ensures DetailUrl(t) != DetailUrl(u)
  {
    var p := "https://alltech.gachara.store/api/shop1/detailed/";
    assert DetailUrl(t)[|p|] != DetailUrl(u)[|p|];
  }

  /** The low-stock screen fetches the same report as the detailed view's default choice. */
  lemma LowStockIsDetailReport()
    ensures LowStockUrl == DetailUrl(LowStock)
    ensures forall t :: LowStockUrl == DetailUrl(t) <==> t == LowStock
  {
    forall t | t != LowStock
      ensures LowStockUrl != DetailUrl(t)
    {
      DetailUrlsDistinct(t, LowStock);
    }
  }

  /** The low-stock screen: one table of rows over the low-stock report. */
  class LowStockView {
    const rows: PagedRows

    constructor ()
      ensures fresh(rows)
      ensures rows.data == [] && rows.nextPage.None? && !rows.isLoading && rows.requested == []
    {
      rows := new PagedRows();
    }

    /** The mount effect: the table is emptied and the low-stock report's first page is
        fetched. */
    method Mount(status: nat -> int, refreshOk: nat -> bool, body: Page)
      modifies rows
      ensures rows.requested == old(rows.requested) + [DetailUrl(LowStock)]
      ensures rows.data == (if Fetch(status, refreshOk).outcome.Got? then body.results else [])
    {
      LowStockIsDetailReport();
      rows.Open(LowStockUrl, status, refreshOk, body);
    }
  }

  /** The detailed-data screen: the chosen report over a table of rows. */
  class DetailedDataView {
    const rows: PagedRows
    var dataType: DataType

    constructor ()
      ensures fresh(rows) && dataType == LowStock
      ensures rows.data == [] && rows.nextPage.None? && !rows.isLoading && rows.requested == []
    {
      rows := new PagedRows();
      dataType := LowStock;
    }

    /** The data-type effect: choosing a report empties the table and fetches that
        report's first page. */
    method SelectType(t: DataType, status: nat -> int, refreshOk: nat -> bool, body: Page)
      modifies this, rows
      ensures dataType == t
      ensures rows.requested == old(rows.requested) + [DetailUrl(t)]
      ensures rows.data == (if Fetch(status, refreshOk).outcome.Got? then body.results else [])
    {
      dataType := t;
      rows.Open(DetailUrl(t), status, refreshOk, body);
    }
  }
}
