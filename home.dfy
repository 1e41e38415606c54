/** The Home view: four lists fetched once on mount, a multi-search result
    list, case-insensitive filters over the fetched lists, and a details
    modal that always uses the movie endpoints. */
module Home {
  import opened Catalog
  import opened Text
  import Paging
  import Trailer

  /** How many cards the popular, trending-movie and trending-TV sections show. */
  const SectionLimit: nat := 6

  /** `item.title || item.name`: one of the two names; the title whenever it
      is non-empty; empty only when both are. */
  function DisplayName(item: MediaItem): (n: string)
    ensures n == item.title || n == item.name
    ensures n != item.title ==> item.title == ""
    ensures n == "" <==> item.title == "" && item.name == ""
  {
    if item.title != "" then item.title else item.name
  }

  /** Which name a filter looks at. */
  datatype NameField = Title | Name | TitleOrName

  function NameOf(item: MediaItem, field: NameField): string
  {
    match field
    case Title => item.title
    case Name => item.name
    case TitleOrName => DisplayName(item)
  }

  /** `items.filter(x => nameOf(x).toLowerCase().includes(query.toLowerCase()))`:
      an element is kept exactly when it is in the input and its name
      matches the query. */
  function Filter(items: seq<MediaItem>, field: NameField, query: string): (r: seq<MediaItem>)
    ensures |r| <= |items|
    ensures forall x :: x in r <==> x in items && Matches(NameOf(x, field), query)
    decreases |items|
  {
    if items == [] then []
    else (if Matches(NameOf(items[0], field), query) then [items[0]] else []) + Filter(items[1..], field, query)
  }

  /** A filter keeps every copy of a matching item and no copy of any other:
      duplicates survive in full. */
  lemma {:induction false} FilterCounts(items: seq<MediaItem>, field: NameField, query: string, x: MediaItem)
    ensures multiset(Filter(items, field, query))[x]
         == if Matches(NameOf(x, field), query) then multiset(items)[x] else 0
    decreases |items|
  {
    if items != [] {
      FilterCounts(items[1..], field, query, x);
      assert items == [items[0]] + items[1..];
    }
  }

  /** When every item has a title, the trending-all filter is the title
      filter: the `name` fields are never looked at. */
  lemma {:induction false} TitleOrNameIgnoresName(items: seq<MediaItem>, query: string)
    requires forall i :: 0 <= i < |items| ==> items[i].title != ""
    ensures Filter(items, TitleOrName, query) == Filter(items, Title, query)
    decreases |items|
  {
    if items != [] {
      TitleOrNameIgnoresName(items[1..], query);
    }
  }

  /** `xs` can be obtained from `ys` by deleting elements. */
  predicate IsSubsequence<T(==)>(xs: seq<T>, ys: seq<T>)
    decreases |ys|
  {
    xs == [] || (ys != [] && ((xs[0] == ys[0] && IsSubsequence(xs[1..], ys[1..])) || IsSubsequence(xs, ys[1..])))
  }

  /** A filter keeps the relative order of what it keeps. */
  lemma {:induction false} FilterIsSubsequence(items: seq<MediaItem>, field: NameField, query: string)
    ensures IsSubsequence(Filter(items, field, query), items)
    decreases |items|
  {
    if items != [] {
      var rest := Filter(items[1..], field, query);
      FilterIsSubsequence(items[1..], field, query);
      if Matches(NameOf(items[0], field), query) {
        assert Filter(items, field, query) == [items[0]] + rest;
        assert ([items[0]] + rest)[1..] == rest;
      } else {
        assert Filter(items, field, query) == rest;
      }
    }
  }

  /** With the empty query every name matches, so a filter returns its input. */
  lemma {:induction false} FilterEmptyQuery(items: seq<MediaItem>, field: NameField)
    ensures Filter(items, field, "") == items
    decreases |items|
  {
    if items != [] {
      MatchesIgnoresCase(NameOf(items[0], field), "");
      FilterEmptyQuery(items[1..], field);
      assert [items[0]] + items[1..] == items;
    }
  }

  /** `s.slice(0, n)`. */
  function Take<T>(s: seq<T>, n: nat): (r: seq<T>)
    ensures |r| <= n && |r| <= |s|
    ensures |s| >= n ==> |r| == n
    ensures |s| <= n ==> r == s
    ensures r == s[..|r|]
  {
    if |s| <= n then s else s[..n]
  }

  /** What Home renders: search results for a non-empty query, otherwise the
      featured movie and the four sections. */
  datatype Screen =
    | SearchScreen(results: seq<MediaItem>)
    | BrowseScreen(featured: Option<MediaItem>, popular: seq<MediaItem>, trendingMovies: seq<MediaItem>,
                   trendingTVShows: seq<MediaItem>, trendingThisWeek: seq<MediaItem>)

  class HomeView {
    var searchQuery: string
    var movies: seq<MediaItem>
    var trendingMovies: seq<MediaItem>
    var trendingTVShows: seq<MediaItem>
    var trendingContent: seq<MediaItem>
    var searchResults: seq<MediaItem>
    var selectedMovie: Option<Detail>
    var loading: bool

    constructor ()
      ensures searchQuery == "" && movies == [] && trendingMovies == [] && trendingTVShows == []
      ensures trendingContent == [] && searchResults == [] && selectedMovie == None && !loading
    {
      searchQuery := "";
      movies := [];
      trendingMovies := [];
      trendingTVShows := [];
      trendingContent := [];
      searchResults := [];
      selectedMovie := None;
      loading := false;
    }

    /** The mount effect: the four requests are sent together, in this
        order. The three that never touch `loading` are taken here with their
        outcomes; `fetchTrending` raises `loading` and its response arrives
        later through `FetchTrendingReceived`. */
    method Mount(popular: Outcome<seq<MediaItem>>, trending: Outcome<seq<MediaItem>>,
                 trendingTV: Outcome<seq<MediaItem>>) returns (reqs: seq<Request>)
      modifies this`movies, this`trendingMovies, this`trendingTVShows, this`loading
      ensures reqs == [MoviePopular(1), TrendingMovieWeek, TrendingTvWeek, TrendingAllWeek]
      ensures movies == Paging.Replaced(old(movies), popular)
      ensures trendingMovies == Paging.Replaced(old(trendingMovies), trending)
      ensures trendingTVShows == Paging.Replaced(old(trendingTVShows), trendingTV)
      ensures loading
    {
      var r1 := FetchPopularMovies(popular);
      var r2 := FetchTrendingMovies(trending);
      var r3 := FetchTrendingTVShows(trendingTV);
      var r4 := FetchTrending();
      reqs := [r1, r2, r3, r4];
    }

    /** `fetchPopularMovies` (mount): page 1 of the popular movies fills its
        slot; it never touches the loading flag. */
    method FetchPopularMovies(response: Outcome<seq<MediaItem>>) returns (req: Request)
      modifies this`movies
      ensures req == MoviePopular(1)
      ensures movies == Paging.Replaced(old(movies), response)
    {
      req := MoviePopular(1);
      if response.Ok? {
        movies := response.data;
      }
    }

    /** `fetchTrendingMovies` (mount). */
    method FetchTrendingMovies(response: Outcome<seq<MediaItem>>) returns (req: Request)
      modifies this`trendingMovies
      ensures req == TrendingMovieWeek
      ensures trendingMovies == Paging.Replaced(old(trendingMovies), response)
    {
      req := TrendingMovieWeek;
      if response.Ok? {
        trendingMovies := response.data;
      }
    }

    /** `fetchTrendingTVShows` (mount). */
    method FetchTrendingTVShows(response: Outcome<seq<MediaItem>>) returns (req: Request)
      modifies this`trendingTVShows
      ensures req == TrendingTvWeek
      ensures trendingTVShows == Paging.Replaced(old(trendingTVShows), response)
    {
      req := TrendingTvWeek;
      if response.Ok? {
        trendingTVShows := response.data;
      }
    }

    /** `fetchTrending` (mount) up to its await: raises the loading flag. */
    method FetchTrending() returns (req: Request)
      modifies this`loading
      ensures loading && req == TrendingAllWeek
    {
      loading := true;
      req := TrendingAllWeek;
    }

    /** `fetchTrending` after its await: fills the trending-all slot on
        success and lowers the loading flag either way. */
    method FetchTrendingReceived(response: Outcome<seq<MediaItem>>)
      modifies this`trendingContent, this`loading
      ensures trendingContent == Paging.Replaced(old(trendingContent), response)
      ensures !loading
    {
      if response.Ok? {
        trendingContent := response.data;
      }
      loading := false;
    }

    /** The effect on `searchQuery`: only a non-empty query starts a search;
        clearing the query sends nothing and keeps the old results. */
    method QueryChanged(query: string) returns (req: Option<Request>)
      modifies this`searchQuery, this`loading
      ensures searchQuery == query
      ensures query != "" ==> req == Some(SearchMulti(query)) && loading
      ensures query == "" ==> req == None && loading == old(loading)
    {
      searchQuery := query;
      if query != "" {
        var r := SearchMovies(query);
        req := Some(r);
      } else {
        req := None;
      }
    }

    /** `searchMovies` up to its await: a multi search (movies, TV and people). */
    method SearchMovies(query: string) returns (req: Request)
      modifies this`loading
      ensures loading && req == SearchMulti(query)
    {
      loading := true;
      req := SearchMulti(query);
    }

    /** `searchMovies` after its await: the results replace `searchResults`
        wholesale; on failure they stay. Loading ends either way. */
    method SearchMoviesReceived(response: Outcome<seq<MediaItem>>)
      modifies this`searchResults, this`loading
      ensures searchResults == Paging.Replaced(old(searchResults), response)
      ensures !loading
    {
      if response.Ok? {
        searchResults := response.data;
      }
      loading := false;
    }

    /** `handleMovieClick`: every card, a TV show's included, asks the movie
        details endpoint. */
    method HandleMovieClick(movieId: int, response: Outcome<Detail>) returns (req: Request)
      modifies this`selectedMovie
      ensures req == MovieDetails(movieId)
      ensures response.Ok? ==> selectedMovie == Some(response.data)
      ensures response.Fail? ==> selectedMovie == old(selectedMovie)
    {
      req := MovieDetails(movieId);
      if response.Ok? {
        selectedMovie := Some(response.data);
      }
    }

    /** The close button and a click on the overlay both clear the modal. */
    method CloseModal()
      modifies this`selectedMovie
      ensures selectedMovie == None
    {
      selectedMovie := None;
    }

    /** `fetchTrailer`: always the movie videos endpoint. */
    method FetchTrailer(movieId: int, response: Outcome<seq<Video>>) returns (req: Request, effect: Trailer.Effect)
      ensures req == MovieVideos(movieId)
      ensures effect == Trailer.Action(response)
    {
      req := MovieVideos(movieId);
      effect := Trailer.Action(response);
    }

    /** `filteredMovies`: computed on every render but never displayed (the
        popular section slices the unfiltered `movies`). An order-preserving
        selection of the popular movies, all of them for the empty query. */
    function FilteredMovies(): (r: seq<MediaItem>)
      reads this
      ensures IsSubsequence(r, movies)
      ensures searchQuery == "" ==> r == movies
    {
      FilterIsSubsequence(movies, Title, searchQuery);
      FilterEmptyQuery(movies, Title);
      Filter(movies, Title, searchQuery)
    }

    /** `filteredTrendingMovies`, matched on `title`. */
    function FilteredTrendingMovies(): (r: seq<MediaItem>)
      reads this
      ensures IsSubsequence(r, trendingMovies)
      ensures searchQuery == "" ==> r == trendingMovies
    {
      FilterIsSubsequence(trendingMovies, Title, searchQuery);
      FilterEmptyQuery(trendingMovies, Title);
      Filter(trendingMovies, Title, searchQuery)
    }

    /** `filteredTrendingTVShows`, matched on `name`. */
    function FilteredTrendingTVShows(): (r: seq<MediaItem>)
      reads this
      ensures IsSubsequence(r, trendingTVShows)
      ensures searchQuery == "" ==> r == trendingTVShows
    {
      FilterIsSubsequence(trendingTVShows, Name, searchQuery);
      FilterEmptyQuery(trendingTVShows, Name);
      Filter(trendingTVShows, Name, searchQuery)
    }

    /** `filteredTrendingContent`, matched on `title || name`. */
    function FilteredTrendingContent(): (r: seq<MediaItem>)
      reads this
      ensures IsSubsequence(r, trendingContent)
      ensures searchQuery == "" ==> r == trendingContent
    {
      FilterIsSubsequence(trendingContent, TitleOrName, searchQuery);
      FilterEmptyQuery(trendingContent, TitleOrName);
      Filter(trendingContent, TitleOrName, searchQuery)
    }

    /** The rendered screen. The sections are shown only for the empty query,
        where every filter is the identity, so each section is just the first
        cards of its fetched list (the trending-all section all of them). */
    function Rendered(): (s: Screen)
      reads this
      ensures searchQuery != "" ==> s == SearchScreen(searchResults)
      ensures searchQuery == "" ==> s == BrowseScreen(
        if movies != [] then Some(movies[0]) else None,
        Take(movies, SectionLimit), Take(trendingMovies, SectionLimit),
        Take(trendingTVShows, SectionLimit), trendingContent)
    {
      if searchQuery != "" then SearchScreen(searchResults)
      else
        BrowseScreen(
          if |movies| > 0 then Some(movies[0]) else None,
          Take(movies, SectionLimit),
          Take(FilteredTrendingMovies(), SectionLimit),
          Take(FilteredTrendingTVShows(), SectionLimit),
          FilteredTrendingContent())
    }
  }
}
