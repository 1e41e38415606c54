/** The TV Shows view: a paged discover list that a non-empty search query
    replaces with search results, and a details modal. */
module TVShows {
  import opened Catalog
  import Paging
  import Trailer

  class TVShowsView {
    var searchQuery: string
    var shows: seq<MediaItem>
    var selectedShow: Option<Detail>
    var page: nat
    var loading: bool

    /** The page counter is at least 1. It starts at 1, and only `LoadMore`
        changes it, by adding 1 (every other method leaves it out of its frame). */
    ghost predicate Valid()
      reads this
    {
      page >= 1
    }

    constructor ()
      ensures Valid()
      ensures searchQuery == "" && shows == [] && selectedShow == None && page == 1 && !loading
    {
      searchQuery := "";
      shows := [];
      selectedShow := None;
      page := 1;
      loading := false;
    }

    /** The effect on `searchQuery` (on mount and on every change): search
        for a non-empty query, otherwise ask for discover page 1. The page
        counter is not reset. */
    method QueryChanged(query: string) returns (req: Request)
      requires Valid()
      modifies this`searchQuery, this`loading
      ensures Valid()
      ensures searchQuery == query && loading
      ensures !LoadMoreOffered()
      ensures query != "" ==> req == SearchTv(query)
      ensures query == "" ==> req == DiscoverTv(1)
    {
      searchQuery := query;
      if query != "" {
        req := SearchTVShows(query);
      } else {
        req := FetchShows(1);
      }
    }

    /** `searchTVShows` up to its await: raise the loading flag and send the search. */
    method SearchTVShows(query: string) returns (req: Request)
      requires Valid()
      modifies this`loading
      ensures Valid()
      ensures loading && req == SearchTv(query)
    {
      loading := true;
      req := SearchTv(query);
    }

    /** `searchTVShows` after its await: the results replace the list; on
        failure the list stays. Either way loading ends. */
    method SearchTVShowsReceived(response: Outcome<seq<MediaItem>>)
      requires Valid()
      modifies this`shows, this`loading
      ensures Valid()
      ensures shows == Paging.Replaced(old(shows), response)
      ensures !loading
      ensures LoadMoreOffered() <==> searchQuery == ""
    {
      if response.Ok? {
        shows := response.data;
      }
      loading := false;
    }

    /** `fetchShows(pageNumber)` up to its await. */
    method FetchShows(pageNumber: int) returns (req: Request)
      requires Valid()
      modifies this`loading
      ensures Valid()
      ensures loading && req == DiscoverTv(pageNumber)
    {
      loading := true;
      req := DiscoverTv(pageNumber);
    }

    /** `fetchShows(pageNumber)` after its await: page 1 replaces the list,
        any later page is appended; on failure the list stays. */
    method FetchShowsReceived(pageNumber: int, response: Outcome<seq<MediaItem>>)
      requires Valid()
      modifies this`shows, this`loading
      ensures Valid()
      ensures shows == Paging.Paged(old(shows), pageNumber, response)
      ensures !loading
      ensures LoadMoreOffered() <==> searchQuery == ""
    {
      if response.Ok? {
        if pageNumber == 1 {
          shows := response.data;
        } else {
          shows := shows + response.data;
        }
      }
      loading := false;
    }

    /** The render guard of the load-more button: an empty query and
        `loading` false. Issuing a list request hides the button and every
        response shows it again when the query is empty. */
    function LoadMoreOffered(): (offered: bool)
      reads this
      ensures offered ==> searchQuery == "" && !loading
      ensures searchQuery == "" && !loading ==> offered
    {
      searchQuery == "" && !loading
    }

    /** `loadMore`: with a non-empty query nothing happens; otherwise the
        counter moves to the next page and that page is requested. */
    method LoadMore() returns (req: Option<Request>)
      requires Valid()
      modifies this`page, this`loading
      ensures Valid()
      ensures searchQuery != "" ==> req == None && page == old(page) && loading == old(loading)
      ensures searchQuery == "" ==> page == old(page) + 1 && req == Some(DiscoverTv(page)) && loading
      ensures searchQuery == "" ==> !LoadMoreOffered()
      ensures searchQuery == "" ==> page >= 2
    {
      if searchQuery == "" {
        var nextPage := page + 1;
        page := nextPage;
        var r := FetchShows(nextPage);
        req := Some(r);
      } else {
        req := None;
      }
    }

    /** `handleShowClick`: ask for the show's details; a record that
        arrives replaces the open one, a failure leaves it. */
    method HandleShowClick(showId: int, response: Outcome<Detail>) returns (req: Request)
      requires Valid()
      modifies this`selectedShow
      ensures Valid()
      ensures req == TvDetails(showId)
      ensures response.Ok? ==> selectedShow == Some(response.data)
      ensures response.Fail? ==> selectedShow == old(selectedShow)
    {
      req := TvDetails(showId);
      if response.Ok? {
        selectedShow := Some(response.data);
      }
    }

    /** The close button and a click on the overlay both clear the modal. */
    method CloseModal()
      requires Valid()
      modifies this`selectedShow
      ensures Valid()
      ensures selectedShow == None
    {
      selectedShow := None;
    }

    /** `fetchTrailer`: ask for the show's videos and act on the answer. */
    method FetchTrailer(showId: int, response: Outcome<seq<Video>>) returns (req: Request, effect: Trailer.Effect)
      ensures req == TvVideos(showId)
      ensures effect == Trailer.Action(response)
    {
      req := TvVideos(showId);
      effect := Trailer.Action(response);
    }
  }
}
