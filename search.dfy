/**
 * The search hook of the two inventory lists: a query text, the hits of the last search,
 * a loading flag and a notice. A search is split at its one await: `Begin` is what runs before
 * the request is sent, `Finish` is what runs when the index answers. The debounce timer that
 * schedules searches is not modelled.
 */
module Search {
  import opened Wrappers
  import opened Store

  /** A search hit: the document together with its id. */
  datatype Hit = Hit(id: Key, doc: Doc)

  /** What the index answers to `search(q)`: its hits, or an exception with its message. */
  datatype SearchReply = Hits(hits: seq<Hit>) | SearchFailed(message: string)

  datatype Status = InfoStatus | ErrorStatus

  /** The `{title, description, status}` object the hook exposes as `error`. */
  datatype Notice = Notice(title: string, description: Option<string>, status: Status)

  class SearchHook {
    var searchParam: string
    var searchResults: seq<Hit>
    var searchLoading: bool
    var error: Option<Notice>

    /** `useSearch(initialSearchParam, index)` before any search. */
    constructor (initialSearchParam: string)
      ensures searchParam == initialSearchParam
      ensures searchResults == [] && !searchLoading && error.None?
    {
      searchParam := initialSearchParam;
      searchResults, searchLoading, error := [], false, None;
    }

    /** `setSearchParam(q)`. */
    method SetSearchParam(q: string)
      modifies this
      ensures searchParam == q
      ensures searchResults == old(searchResults) && searchLoading == old(searchLoading) && error == old(error)
    {
      searchParam := q;
    }

    /** `setSearchResults(r)`. */
    method SetSearchResults(r: seq<Hit>)
      modifies this
      ensures searchResults == r
      ensures searchParam == old(searchParam) && searchLoading == old(searchLoading) && error == old(error)
    {
      searchResults := r;
    }

    /** The part of `handleSearch` before the request: an empty query clears the results and
        sends nothing; any other query starts loading, clears the notice and is sent. */
    method Begin() returns (sent: bool)
      modifies this
      ensures sent <==> old(searchParam) != ""
      ensures searchParam == old(searchParam)
      ensures !sent ==> searchResults == [] && !searchLoading && error == old(error)
      ensures sent ==> searchLoading && error.None? && searchResults == old(searchResults)
    {
      if searchParam == "" {
        searchResults := [];
        searchLoading := false;
        sent := false;
      } else {
        searchLoading := true;
        error := None;
        sent := true;
      }
    }

    /** The part of `handleSearch` after the index answers: the hits become the results
        exactly, with an "info" notice when there are none; a failure keeps the previous
        results and raises an "error" notice. Loading always ends. */
    method Finish(reply: SearchReply)
      modifies this
      ensures !searchLoading && searchParam == old(searchParam)
      ensures reply.Hits? ==> searchResults == reply.hits
      ensures reply.Hits? && reply.hits == [] ==> error == Some(Notice("No items found", None, InfoStatus))
      ensures reply.Hits? && reply.hits != [] ==> error == old(error)
      ensures reply.SearchFailed? ==>
        && searchResults == old(searchResults)
        && error == Some(Notice("Error searching items", Some(reply.message), ErrorStatus))
    {
      match reply {
        case Hits(hits) =>
          searchResults := hits;
          if |hits| == 0 {
            error := Some(Notice("No items found", None, InfoStatus));
          }
        case SearchFailed(message) =>
          error := Some(Notice("Error searching items", Some(message), ErrorStatus));
      }
      searchLoading := false;
    }

    /** A whole `handleSearch()`, with `reply` the index's answer should a request be sent. */
    method HandleSearch(reply: SearchReply)
      modifies this
      ensures !searchLoading && searchParam == old(searchParam)
      ensures old(searchParam) == "" ==> searchResults == [] && error == old(error)
      ensures old(searchParam) != "" && reply.Hits? ==>
        && searchResults == reply.hits
        && (reply.hits == [] ==> error == Some(Notice("No items found", None, InfoStatus)))
        && (reply.hits != [] ==> error.None?)
      ensures old(searchParam) != "" && reply.SearchFailed? ==>
        && searchResults == old(searchResults)
        && error.Some? && error.value.status == ErrorStatus
    {
      var sent := Begin();
      if sent {
        Finish(reply);
      }
    }
  }
}
