/** How a list slot of a view absorbs a completed listing request. Movies and
    TV shows share these rules; Home uses `Replaced` for all of its slots. */
module Paging {
  import opened Catalog

  /** A search or single-page response: on success the response replaces the
      slot wholesale, on failure the slot keeps its value. */
  function Replaced<T>(items: seq<T>, response: Outcome<seq<T>>): seq<T>
  {
    match response
    case Ok(results) => results
    case Fail => items
  }

  /** A discover response for `pageNumber`: page 1 replaces the list, any
      other page is appended after it as it came, without de-duplication. */
  function Paged<T>(items: seq<T>, pageNumber: int, response: Outcome<seq<T>>): (r: seq<T>)
    ensures response.Fail? ==> r == items
    ensures response.Ok? ==> |response.data| <= |r| && r[|r| - |response.data|..] == response.data
    ensures response.Ok? && pageNumber != 1 ==> |items| <= |r| && r[..|items|] == items
  {
    match response
    case Fail => items
    case Ok(results) => if pageNumber == 1 then results else items + results
  }

  /** A successful search or first page does not depend on what was listed before. */
  lemma ReplaceIsWholesale<T>(before: seq<T>, other: seq<T>, pageNumber: int, results: seq<T>)
    ensures Replaced(before, Ok(results)) == Replaced(other, Ok(results)) == results
    ensures pageNumber == 1 ==> Paged(before, pageNumber, Ok(results)) == Paged(other, pageNumber, Ok(results)) == results
  {
  }

  /** A later page keeps the old list as a prefix, puts the response after it
      in its own order, and keeps every duplicate. */
  lemma LaterPageAppends<T>(items: seq<T>, pageNumber: int, results: seq<T>)
    requires pageNumber != 1
    ensures |Paged(items, pageNumber, Ok(results))| == |items| + |results|
    ensures Paged(items, pageNumber, Ok(results))[..|items|] == items
    ensures Paged(items, pageNumber, Ok(results))[|items|..] == results
    ensures multiset(Paged(items, pageNumber, Ok(results))) == multiset(items) + multiset(results)
  {
  }

  /** A failed request leaves the slot as it was. */
  lemma FailureKeepsList<T>(items: seq<T>, pageNumber: int)
    ensures Replaced(items, Fail) == items
    ensures Paged(items, pageNumber, Fail) == items
  {
  }

  /** The results of the successful responses among `outcomes`, in order. */
  function Successes<T>(outcomes: seq<Outcome<seq<T>>>): seq<T>
  {
    if outcomes == [] then []
    else (match outcomes[0] case Ok(results) => results case Fail => []) + Successes(outcomes[1..])
  }

  /** A run of load-more actions from counter `page`: each one moves the
      counter up by one and receives that page's outcome. */
  function LoadMoreRun<T>(items: seq<T>, page: int, outcomes: seq<Outcome<seq<T>>>): seq<T>
    decreases |outcomes|
  {
    if outcomes == [] then items
    else LoadMoreRun(Paged(items, page + 1, outcomes[0]), page + 1, outcomes[1..])
  }

  /** From a counter of at least 1, a run of load-more actions only ever
      appends: the list ends as the old list followed by every successful
      page in order, and the page of a failed load-more is skipped for good
      because the counter has already moved past it. */
  lemma {:induction false} LoadMoreRunAppends<T>(items: seq<T>, page: int, outcomes: seq<Outcome<seq<T>>>)
    requires page >= 1
    ensures LoadMoreRun(items, page, outcomes) == items + Successes(outcomes)
    decreases |outcomes|
  {
    if outcomes != [] {
      var rest := outcomes[1..];
      var next := Paged(items, page + 1, outcomes[0]);
      LoadMoreRunAppends(next, page + 1, rest);
      assert LoadMoreRun(items, page, outcomes) == next + Successes(rest);
      if outcomes[0].Ok? {
        var results := outcomes[0].data;
        assert next == items + results;
        assert Successes(outcomes) == results + Successes(rest);
        assert (items + results) + Successes(rest) == items + (results + Successes(rest));
      } else {
        assert next == items;
        assert Successes(outcomes) == Successes(rest);
      }
    }
  }
}
