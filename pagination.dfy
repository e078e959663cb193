/**
 * The pagination hook shared by the screen list and the accessory list: it walks a
 * collection of the realtime database in key order, `PAGE_SIZE` products a page, by asking
 * for `PAGE_SIZE + 1` records starting at (and including) the key it remembered, showing the
 * first `PAGE_SIZE` of them and remembering the key of the last one fetched.
 *
 * The live query's callbacks are modelled as methods the store invokes: `OnValue` with the
 * records the query selects, `OnError` with a failure. Re-delivery of a snapshot after a
 * remote change and the subscriptions that are never cancelled are not modelled.
 */
module Pagination {
  import opened Wrappers
  import opened Store

  /** A listed product: `{id: key, ...record}`. */
  datatype Product = Product(id: Key, item: Item)

  /** The collection in the order `orderByKey()` delivers it: keys strictly increasing. */
  predicate KeyOrdered(col: seq<Product>) {
    forall i, j :: 0 <= i < j < |col| ==> KeyBefore(col, i, j)
  }

  /** The product at position `i` has a smaller key than the one at position `j`. */
  predicate KeyBefore(col: seq<Product>, i: nat, j: nat)
    requires i < |col| && j < |col|
  {
    col[i].id < col[j].id
  }

  /** `startAt(key)`: the products whose key is at least `key`; all of them without a key. */
  function From(col: seq<Product>, start: Option<Key>): (r: seq<Product>)
    ensures |r| <= |col| && r == col[|col| - |r|..]
  {
    if start.None? || col == [] || col[0].id >= start.value then col
    else From(col[1..], start)
  }

  /** The first `n` elements of `s`, or all of them if it is shorter: `slice(0, n)` and
      `limitToFirst(n)`. */
  function Take<T>(s: seq<T>, n: nat): (r: seq<T>)
    ensures |r| == (if |s| <= n then |s| else n) && r == s[..|r|]
  {
    if |s| <= n then s else s[..n]
  }

  /** `query(ref, orderByKey(), startAt(start), limitToFirst(limit))`. */
  function Query(col: seq<Product>, start: Option<Key>, limit: nat): (r: seq<Product>)
    ensures |r| <= limit
  {
    Take(From(col, start), limit)
  }

  /** Restarting inclusively at the key of position `i` of an ordered collection yields
      exactly the products from position `i` on. */
  lemma {:induction false} FromKeyAt(col: seq<Product>, i: nat)
    requires KeyOrdered(col) && i < |col|
    ensures From(col, Some(col[i].id)) == col[i..]
  {
    if i > 0 {
      assert KeyBefore(col, 0, i);
      forall a, b | 0 <= a < b < |col| - 1
        ensures KeyBefore(col[1..], a, b)
      {
        assert KeyBefore(col, a + 1, b + 1);
      }
      assert col[1..][i - 1] == col[i];
      FromKeyAt(col[1..], i - 1);
      assert col[1..][i - 1..] == col[i..];
    }
  }

  /** A query is a window of the collection: it starts at some position and holds the next
      products in order. */
  lemma QueryAt(col: seq<Product>, i: nat, limit: nat)
    requires KeyOrdered(col) && i < |col|
    ensures Query(col, Some(col[i].id), limit) == col[i..i + (if |col| - i <= limit then |col| - i else limit)]
  {
    FromKeyAt(col, i);
  }

  /** The state cells of the hook. `queryStart` is the `lastKey` argument of the fetch whose
      live query is current, captured by its callback; `subscribed` says that there is one. */
  class Paginator {
    const pageSize: nat
    var lastKey: Option<Key>
    var products: seq<Product>
    var hasMore: bool
    var loading: bool
    var error: Option<string>
    var queryStart: Option<Key>
    var subscribed: bool

    /** `usePagination(dataRef, PAGE_SIZE)` before its first effect runs. */
    constructor (pageSize: nat)
      requires pageSize >= 1
      ensures this.pageSize == pageSize
      ensures lastKey.None? && products == [] && !hasMore && !loading && error.None?
      ensures !subscribed && queryStart.None?
    {
      this.pageSize := pageSize;
      lastKey, products, hasMore, loading, error := None, [], false, false, None;
      queryStart, subscribed := None, false;
    }

    /** `fetchData(start)`: sets loading, clears the error and subscribes to the query that
        starts at `start`, or at the beginning of the collection. */
    method FetchData(start: Option<Key>)
      modifies this
      ensures loading && error.None? && subscribed && queryStart == start
      ensures lastKey == old(lastKey) && products == old(products) && hasMore == old(hasMore)
    {
      loading := true;
      error := None;
      queryStart, subscribed := start, true;
    }

    /** The query's value callback. `items` are the records the query selects, in key order.
        A non-empty snapshot shows its first `pageSize` products, replacing the list on the
        first page and appending to it afterwards, records the key of the last product fetched
        and says whether a further page exists; an empty one only clears `hasMore`. */
    method OnValue(items: seq<Product>)
      requires subscribed
      modifies this
      ensures !loading && error == old(error) && subscribed && queryStart == old(queryStart)
      ensures items == [] ==> !hasMore && products == old(products) && lastKey == old(lastKey)
      ensures items != [] ==>
        && lastKey == Some(items[|items| - 1].id)
        && hasMore == (|items| == pageSize + 1)
        && products == (if queryStart.Some? then old(products) else []) + Take(items, pageSize)
    {
      if items != [] {
        var page := Take(items, pageSize);
        lastKey := Some(items[|items| - 1].id);
        products := if queryStart.Some? then products + page else page;
        hasMore := |items| == pageSize + 1;
      } else {
        hasMore := false;
      }
      loading := false;
    }

    /** The query's error callback: records the error and stops loading. */
    method OnError(e: string)
      requires subscribed
      modifies this
      ensures error == Some(e) && !loading
      ensures lastKey == old(lastKey) && products == old(products) && hasMore == old(hasMore)
      ensures subscribed && queryStart == old(queryStart)
    {
      error := Some(e);
      loading := false;
    }

    /** `loadMore()`: fetches from the remembered key unless a page is loading or no further
        page exists. */
    method LoadMore()
      modifies this
      ensures old(loading) || !old(hasMore) ==>
        && loading == old(loading) && hasMore == old(hasMore) && error == old(error)
        && subscribed == old(subscribed) && queryStart == old(queryStart)
      ensures !old(loading) && old(hasMore) ==>
        loading && hasMore && error.None? && subscribed && queryStart == old(lastKey)
      ensures lastKey == old(lastKey) && products == old(products)
    {
      if !loading && hasMore {
        FetchData(lastKey);
      }
    }
  }

  /** The page the hook shows after restarting at position `j` of an ordered collection: the
      next `n` products (fewer at the end), with a further page exactly when `n + 1` were
      fetched, the last of which is where the following page starts. */
  lemma NextPage(col: seq<Product>, j: nat, n: nat)
    requires KeyOrdered(col) && j < |col| && n >= 1
    ensures var items := Query(col, Some(col[j].id), n + 1);
      && items != []
      && j + |Take(items, n)| <= |col|
      && col[..j] + Take(items, n) == col[..j + |Take(items, n)|]
      && (|items| == n + 1 <==> j + n < |col|)
      && (|items| == n + 1 ==> items[|items| - 1] == col[j + n] && |Take(items, n)| == n)
      && (|items| != n + 1 ==> j + |Take(items, n)| == |col|)
  {
    var items := Query(col, Some(col[j].id), n + 1);
    QueryAt(col, j, n + 1);
    WindowPage(col, j, n, items);
  }

  /** The same facts about any window of `n + 1` (fewer at the end) from position `j`. */
  lemma WindowPage(col: seq<Product>, j: nat, n: nat, items: seq<Product>)
    requires j < |col| && n >= 1
    requires items == col[j..j + (if |col| - j <= n + 1 then |col| - j else n + 1)]
    ensures && items != []
      && j + |Take(items, n)| <= |col|
      && col[..j] + Take(items, n) == col[..j + |Take(items, n)|]
      && (|items| == n + 1 <==> j + n < |col|)
      && (|items| == n + 1 ==> items[|items| - 1] == col[j + n] && |Take(items, n)| == n)
      && (|items| != n + 1 ==> j + |Take(items, n)| == |col|)
  {
    var t := |Take(items, n)|;
    assert Take(items, n) == col[j..j + t];
    assert col[..j] + col[j..j + t] == col[..j + t];
  }

  /** The first page: the first `n` products, with a further page exactly when the
      collection holds more than `n`. */
  lemma FirstPage(col: seq<Product>, n: nat)
    requires n >= 1
    ensures var items := Query(col, None, n + 1);
      && (items == [] <==> col == [])
      && Take(items, n) == col[..|Take(items, n)|]
      && (|items| == n + 1 <==> n < |col|)
      && (|items| == n + 1 ==> items[|items| - 1] == col[n] && |Take(items, n)| == n)
      && (|items| != n + 1 ==> |Take(items, n)| == |col|)
  {
  }

  /** What walking an unchanging collection has shown so far: a prefix of it, which is the
      whole collection once no further page exists and otherwise stops just before the key
      the next page starts at. */
  predicate Walked(col: seq<Product>, products: seq<Product>, hasMore: bool, lastKey: Option<Key>) {
    && |products| <= |col| && products == col[..|products|]
    && (hasMore ==> |products| < |col| && lastKey == Some(col[|products|].id))
    && (!hasMore ==> products == col)
  }

  /** The hook is idle over a live query, having shown what `Walked` says. */
  predicate Walking(p: Paginator, col: seq<Product>)
    reads p
  {
    p.subscribed && !p.loading && Walked(col, p.products, p.hasMore, p.lastKey)
  }

  /** Appending the page fetched from position `j` keeps the walk going and shows more. */
  lemma NextPageWalked(col: seq<Product>, j: nat, n: nat)
    requires KeyOrdered(col) && j < |col| && n >= 1
    ensures var items := Query(col, Some(col[j].id), n + 1);
      && items != []
      && Walked(col, col[..j] + Take(items, n), |items| == n + 1, Some(items[|items| - 1].id))
      && |col[..j] + Take(items, n)| > j
  {
    var items := Query(col, Some(col[j].id), n + 1);
    QueryAt(col, j, n + 1);
    WindowWalked(col, j, n, items);
  }

  /** A window from position `j` appended to the first `j` products is what `Walked`
      says. */
  lemma WindowWalked(col: seq<Product>, j: nat, n: nat, items: seq<Product>)
    requires j < |col| && n >= 1
    requires items == col[j..j + (if |col| - j <= n + 1 then |col| - j else n + 1)]
    ensures && items != []
      && Walked(col, col[..j] + Take(items, n), |items| == n + 1, Some(items[|items| - 1].id))
      && |col[..j] + Take(items, n)| > j
  {
    WindowPage(col, j, n, items);
  }

  /** One press of "Load More" answered by the store extends the list by the next page. */
  method LoadNext(p: Paginator, col: seq<Product>)
    requires KeyOrdered(col) && p.pageSize >= 1 && Walking(p, col) && p.hasMore
    modifies p
    ensures Walking(p, col) && |p.products| > old(|p.products|)
  {
    var j, n := |p.products|, p.pageSize;
    var items := Query(col, Some(col[j].id), n + 1);
    NextPageWalked(col, j, n);
    p.LoadMore();
    assert p.queryStart == Some(col[j].id) && p.products == col[..j];
    p.OnValue(items);
    assert p.products == col[..j] + Take(items, n);
  }

  /** The hook's first effect, answered by the store, shows the first page. */
  method LoadFirst(p: Paginator, col: seq<Product>)
    requires p.pageSize >= 1 && p.products == []
    modifies p
    ensures Walking(p, col)
  {
    p.FetchData(None);
    var items := Query(col, None, p.pageSize + 1);
    FirstPage(col, p.pageSize);
    p.OnValue(items);
  }

  /**
   * Mounting the hook over a collection that does not change, answering every query as the
   * store does, and pressing "Load More" until no further page exists, lists every product
   * of the collection exactly once and in key order.
   */
  method LoadAll(col: seq<Product>, pageSize: nat) returns (shown: seq<Product>)
    requires KeyOrdered(col) && pageSize >= 1
    ensures shown == col
  {
    var p := new Paginator(pageSize);
    LoadFirst(p, col);
    while p.hasMore
      invariant p.pageSize == pageSize && Walking(p, col)
      decreases |col| - |p.products|
    {
      LoadNext(p, col);
    }
    shown := p.products;
  }
}
