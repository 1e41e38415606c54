/** The Movies view: a paged discover list that a non-empty search query
    replaces with search results, and a details modal. */
module Movies {
  import opened Catalog
  import Paging
  import Trailer

  class MoviesView {
    var searchQuery: string
    var movies: seq<MediaItem>
    var selectedMovie: Option<Detail>
    var page: nat
    var loading: bool

    /** The page counter is at least 1. It starts at 1, and only `LoadMore`
        changes it, by adding 1 (every other method leaves it out of its frame). */
    ghost predicate Valid()
      reads this
    {
      page >= 1
    }

    constructor ()
      ensures Valid()
      ensures searchQuery == "" && movies == [] && selectedMovie == None && page == 1 && !loading
    {
      searchQuery := "";
      movies := [];
      selectedMovie := None;
      page := 1;
      loading := false;
    }

    /** The effect on `searchQuery` (on mount and on every change): search
        for a non-empty query, otherwise ask for discover page 1. The page
        counter is not reset. */
    method QueryChanged(query: string) returns (req: Request)
      requires Valid()
      modifies this`searchQuery, this`loading
      ensures Valid()
      ensures searchQuery == query && loading
      ensures !LoadMoreOffered()
      ensures query != "" ==> req == SearchMovie(query)
      ensures query == "" ==> req == DiscoverMovie(1)
    {
      searchQuery := query;
      if query != "" {
        req := SearchMovies(query);
      } else {
        req := FetchMovies(1);
      }
    }

    /** `searchMovies` up to its await: raise the loading flag and send the search. */
    method SearchMovies(query: string) returns (req: Request)
      requires Valid()
      modifies this`loading
      ensures Valid()
      ensures loading && req == SearchMovie(query)
    {
      loading := true;
      req := SearchMovie(query);
    }

    /** `searchMovies` after its await: the results replace the list; on
        failure the list stays. Either way loading ends. */
    method SearchMoviesReceived(response: Outcome<seq<MediaItem>>)
      requires Valid()
      modifies this`movies, this`loading
      ensures Valid()
      ensures movies == Paging.Replaced(old(movies), response)
      ensures !loading
      ensures LoadMoreOffered() <==> searchQuery == ""
    {
      if response.Ok? {
        movies := response.data;
      }
      loading := false;
    }

    /** `fetchMovies(pageNumber)` up to its await. */
    method FetchMovies(pageNumber: int) returns (req: Request)
      requires Valid()
      modifies this`loading
      ensures Valid()
      ensures loading && req == DiscoverMovie(pageNumber)
    {
      loading := true;
      req := DiscoverMovie(pageNumber);
    }

    /** `fetchMovies(pageNumber)` after its await: page 1 replaces the list,
        any later page is appended; on failure the list stays. */
    method FetchMoviesReceived(pageNumber: int, response: Outcome<seq<MediaItem>>)
      requires Valid()
      modifies this`movies, this`loading
      ensures Valid()
      ensures movies == Paging.Paged(old(movies), pageNumber, response)
      ensures !loading
      ensures LoadMoreOffered() <==> searchQuery == ""
    {
      if response.Ok? {
        if pageNumber == 1 {
          movies := response.data;
        } else {
          movies := movies + response.data;
        }
      }
      loading := false;
    }

    /** The render guard of the load-more button: an empty query and
        `loading` false. Issuing a list request hides the button and every
        response shows it again when the query is empty. */
    function LoadMoreOffered(): (offered: bool)
      reads this
      ensures offered ==> searchQuery == "" && !loading
      ensures searchQuery == "" && !loading ==> offered
    {
      searchQuery == "" && !loading
    }

    /** `loadMore`: with a non-empty query nothing happens; otherwise the
        counter moves to the next page and that page is requested. */
    method LoadMore() returns (req: Option<Request>)
      requires Valid()
      modifies this`page, this`loading
      ensures Valid()
      ensures searchQuery != "" ==> req == None && page == old(page) && loading == old(loading)
      ensures searchQuery == "" ==> page == old(page) + 1 && req == Some(DiscoverMovie(page)) && loading
      ensures searchQuery == "" ==> !LoadMoreOffered()
      ensures searchQuery == "" ==> page >= 2
    {
      if searchQuery == "" {
        var nextPage := page + 1;
        page := nextPage;
        var r := FetchMovies(nextPage);
        req := Some(r);
      } else {
        req := None;
      }
    }

    /** `handleMovieClick`: ask for the movie's details; a record that
        arrives replaces the open one, a failure leaves it. */
    method HandleMovieClick(movieId: int, response: Outcome<Detail>) returns (req: Request)
      requires Valid()
      modifies this`selectedMovie
      ensures Valid()
      ensures req == MovieDetails(movieId)
      ensures response.Ok? ==> selectedMovie == Some(response.data)
      ensures response.Fail? ==> selectedMovie == old(selectedMovie)
    {
      req := MovieDetails(movieId);
      if response.Ok? {
        selectedMovie := Some(response.data);
      }
    }

    /** The close button and a click on the overlay both clear the modal. */
    method CloseModal()
      requires Valid()
      modifies this`selectedMovie
      ensures Valid()
      ensures selectedMovie == None
    {
      selectedMovie := None;
    }

    /** `fetchTrailer`: ask for the movie's videos and act on the answer. */
    method FetchTrailer(movieId: int, response: Outcome<seq<Video>>) returns (req: Request, effect: Trailer.Effect)
      ensures req == MovieVideos(movieId)
      ensures effect == Trailer.Action(response)
    {
      req := MovieVideos(movieId);
      effect := Trailer.Action(response);
    }
  }
}
