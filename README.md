# ScreenV view logic in Dafny

ScreenV is a React front end over the TMDB movie/TV catalogue. It has three
views:

- Home: four lists filled on mount, a multi-search result list, client-side
  filters and a details modal.
- Movies and TV Shows: a paged "discover" list that a search query replaces,
  a "load more" button and a details modal.
- All three have a trailer button. It opens the first YouTube trailer of an
  item, or raises an alert.

This project models the state those views keep and the handlers that update
it. Each component is a class. Its fields are its `useState` slots plus
`searchQuery`, the prop that `App.js` passes down. The prop is set by
`QueryChanged`, which stands for the effect that runs when the prop changes.

- A request that `await`s a fetch is modelled as a pair of methods. The issuing
  method does the part before the `await` (raise `loading`, return the
  `Catalog.Request` it sends). The `...Received` method does the part after it.
- A completed request is an input value: `Ok(data)`, or `Fail` for a transport
  or decode error.
- Handlers that change nothing before their `await` are single methods that
  take the outcome as a parameter. These are the detail click, the trailer
  action (`FetchTrailer`, which returns the effect instead of changing state)
  and the three Home fetches that never touch `loading`.
- Searches and page fetches of a view share one `loading` flag, and the first
  response to arrive clears it. So `loading` false does not mean that no
  request is in flight.

The shared rules are pure functions, and lemmas state their properties:

- `Paging`: how a list slot absorbs a response.
- `Trailer`: the trailer search and the watch URL.
- `Text`: ASCII `toLowerCase` and `includes`.
- `Home`: the filters and the `title || name` display name.

Modules: `Catalog` (records, outcomes, endpoints), `Text`, `Paging`,
`Trailer`, `Movies`, `TVShows`, `Home`.

Behaviour of the code that the model keeps as written:

- A search does not reset the page counter, so after a search is cleared the
  next "load more" continues from the old counter.
- A missing trailer raises "Trailer tidak tersedia". A failed videos request
  raises a different notice, "Error loading trailer".
- Missing image paths are not guarded. Such images are left out (see below).
- On Home the four filters use the current query, but the sections that
  display them are rendered only when the query is empty. There every filter
  is the identity, so each section is just the first cards of its list
  (`Home.HomeView.Rendered`). The popular section slices the unfiltered list
  in any case: `filteredMovies` is computed but never rendered.

## Model

| member | source | states |
|---|---|---|
| `Text.Lower` | src/components/Home.js:128 | ASCII `toLowerCase` of one character: capitals move 32 code points up (to the lower-case letter), everything else is kept, and the result is never a capital |
| `Text.LowerStr` | src/components/Home.js:128 | `toLowerCase` of a string keeps its length and lower-cases each character in place |
| `Text.LowerStrIdempotent` | src/components/Home.js:128 | lower-casing twice is lower-casing once |
| `Text.IncludesIffOccurs` | src/components/Home.js:128 | `includes(s, q)` holds exactly when `q` occurs in `s` at some offset (both directions) |
| `Text.Includes` | src/components/Home.js:128 | `s.includes(q)` as a left-to-right scan of the offsets of `s`. A hit needs `q` no longer than `s`, and the empty `q` always hits; `Text.IncludesIffOccurs` states what it decides |
| `Text.IncludesEmpty` | src/components/Home.js:128 | every string includes the empty string |
| `Text.Matches` | src/components/Home.js:128 | the filter test `name.toLowerCase().includes(query.toLowerCase())`; a name shorter than the query never matches |
| `Text.MatchesIgnoresCase` | src/components/Home.js:127-144 | the filter test is insensitive to the case of name and query, and every name matches the empty query |
| `Paging.Replaced` | src/components/Movies.js:24-29 | the search rule: a success makes the response the list, a failure keeps the list. Its properties are `Paging.ReplaceIsWholesale` and `Paging.FailureKeepsList` |
| `Paging.Paged` | src/components/Movies.js:39-48 | the discover rule. A failure keeps the list. A success always ends the list with the response, and for a page other than 1 the old list stays as a prefix |
| `Paging.ReplaceIsWholesale` | src/components/Movies.js:40-41 | a successful search or page-1 response becomes the list whatever the list held before |
| `Paging.LaterPageAppends` | src/components/Movies.js:42-43 | a page other than 1 appends: the old list is an unchanged prefix, the response follows in order, the lengths add up and duplicates are kept (multiset sum) |
| `Paging.FailureKeepsList` | src/components/Movies.js:46-48 | a failed search or page fetch leaves the list as it was |
| `Paging.LoadMoreRun` | src/components/Movies.js:64-68 | a run of load-more actions: each adds 1 to the counter and absorbs that page's outcome by `Paging.Paged`; `Paging.LoadMoreRunAppends` states the result |
| `Paging.LoadMoreRunAppends` | src/components/Movies.js:64-68 | any run of load-more actions from a counter of at least 1 yields the old list followed by every successful page in order; a failed page is skipped for good because the counter has already moved |
| `Trailer.IsYouTubeTrailer` | src/components/Movies.js:79 | the `find` callback: a video qualifies exactly when its type is "Trailer" and its site is "YouTube" (the same callback at TVShows.js and Home.js) |
| `Trailer.TrailerIndex` | src/components/Movies.js:78-80 | the position found is a YouTube trailer and no earlier video is one; no position means no video is one |
| `Trailer.FindTrailer` | src/components/Movies.js:78-80 | `videos.find(...)`: whatever it returns is a YouTube trailer taken from the list |
| `Trailer.FindTrailerIsFirst` | src/components/Movies.js:78-80 | `find` returns the video at the first position whose type is "Trailer" and site is "YouTube" |
| `Trailer.FindTrailerNone` | src/components/Movies.js:78-80 | `find` returns nothing exactly when no video is a YouTube trailer |
| `Trailer.WatchUrl` | src/components/Movies.js:82 | the URL is `https://www.youtube.com/watch?v=` followed by exactly the key |
| `Trailer.WatchUrlInjective` | src/components/Movies.js:82 | different keys give different watch URLs |
| `Trailer.Action` | src/components/Movies.js:78-89 | a failed videos request alerts "Error loading trailer"; otherwise a window is opened iff some video is a YouTube trailer, on the watch URL of the first one, else "Trailer tidak tersedia" is alerted |
| `Trailer.FirstYouTubeTrailerWins` | src/components/TVShows.js:78-82 | over [Teaser/YouTube/a, Trailer/YouTube/b, Trailer/Vimeo/c] the page of key "b" is opened |
| `Trailer.NoTrailerNoWindow` | src/components/TVShows.js:81-85 | when no video is both a "Trailer" and on "YouTube" (teasers and trailers on other sites included), nothing is opened and the not-available notice is raised |
| `Movies.MoviesView.constructor` | src/components/Movies.js:4-7 | empty list, no selection, page 1, not loading |
| `Movies.MoviesView.QueryChanged` | src/components/Movies.js:10-16 | a non-empty query sends a movie search, an empty one asks for discover page 1. Loading is raised, which hides the load-more button, and the page counter is left alone |
| `Movies.MoviesView.SearchMovies` | src/components/Movies.js:18-23 | raises loading and sends the movie search for the query |
| `Movies.MoviesView.SearchMoviesReceived` | src/components/Movies.js:24-30 | the response replaces the list, a failure keeps it. Loading ends false, so the load-more button shows exactly when the query is empty |
| `Movies.MoviesView.FetchMovies` | src/components/Movies.js:33-38 | raises loading and asks discover for exactly the given page |
| `Movies.MoviesView.FetchMoviesReceived` | src/components/Movies.js:39-49 | page 1 replaces the list, a later page is appended, a failure keeps it. Loading ends false, so the load-more button shows exactly when the query is empty |
| `Movies.MoviesView.LoadMoreOffered` | src/components/Movies.js:122-128 | the render guard of the load-more button: an empty query and `loading` false. `QueryChanged` and `LoadMore` hide it, and every response shows it again exactly when the query is empty |
| `Movies.MoviesView.LoadMore` | src/components/Movies.js:64-70 | with a non-empty query nothing changes. Otherwise the page counter grows by exactly 1 (so it is at least 2 and the response is appended), that page is requested and the button hides |
| `Movies.MoviesView.HandleMovieClick` | src/components/Movies.js:52-62 | asks the movie details endpoint; a record replaces the selection, a failure keeps it |
| `Movies.MoviesView.CloseModal` | src/components/Movies.js:133-135 | the close button and an overlay click clear the selection |
| `Movies.MoviesView.FetchTrailer` | src/components/Movies.js:72-90 | asks the movie videos endpoint and acts as `Trailer.Action` |
| `TVShows.TVShowsView.constructor` | src/components/TVShows.js:4-7 | empty list, no selection, page 1, not loading |
| `TVShows.TVShowsView.QueryChanged` | src/components/TVShows.js:10-16 | a non-empty query sends a TV search, an empty one asks for discover page 1. Loading is raised, which hides the load-more button, and the page counter is left alone |
| `TVShows.TVShowsView.SearchTVShows` | src/components/TVShows.js:18-23 | raises loading and sends the TV search for the query |
| `TVShows.TVShowsView.SearchTVShowsReceived` | src/components/TVShows.js:24-30 | the response replaces the shows, a failure keeps them. Loading ends false, so the load-more button shows exactly when the query is empty |
| `TVShows.TVShowsView.FetchShows` | src/components/TVShows.js:33-38 | raises loading and asks TV discover for exactly the given page |
| `TVShows.TVShowsView.FetchShowsReceived` | src/components/TVShows.js:39-49 | page 1 replaces the shows, a later page is appended after them, a failure keeps them. Loading ends false, so the load-more button shows exactly when the query is empty |
| `TVShows.TVShowsView.LoadMoreOffered` | src/components/TVShows.js:122-128 | the render guard of the load-more button: an empty query and `loading` false. `QueryChanged` and `LoadMore` hide it, and every response shows it again exactly when the query is empty |
| `TVShows.TVShowsView.LoadMore` | src/components/TVShows.js:64-70 | no-op for a non-empty query. Otherwise the counter grows by exactly 1 (so it is at least 2 and the response is appended), that page is requested and the button hides |
| `TVShows.TVShowsView.HandleShowClick` | src/components/TVShows.js:52-62 | asks the TV details endpoint; a record replaces the selection, a failure keeps it |
| `TVShows.TVShowsView.CloseModal` | src/components/TVShows.js:134-156 | the overlay click and the close button clear the selection |
| `TVShows.TVShowsView.FetchTrailer` | src/components/TVShows.js:72-90 | asks the TV videos endpoint and acts as `Trailer.Action` |
| `Home.DisplayName` | src/components/Home.js:143 | the title-or-name rule gives one of the two names, the title whenever the title is non-empty, and empty only when both are |
| `Home.NameOf` | src/components/Home.js:127-144 | the name each filter reads: `title` for the popular and trending-movie filters, `name` for the trending-TV filter, and the title-or-name rule for the trending-all filter |
| `Home.Filter` | src/components/Home.js:127-144 | an item is kept exactly when it is in the input and its lower-cased name includes the lower-cased query; never longer than the input. `Home.FilterCounts` gives the number of copies kept |
| `Home.FilterIsSubsequence` | src/components/Home.js:127-144 | a filter's result is a subsequence of its input, in the original relative order |
| `Home.FilterCounts` | src/components/Home.js:127-144 | a filter keeps every copy of a matching item and no copy of any other, so duplicates survive in full |
| `Home.FilterEmptyQuery` | src/components/Home.js:127-144 | with the empty query a filter returns its input unchanged |
| `Home.TitleOrNameIgnoresName` | src/components/Home.js:142-144 | when every item has a non-empty title, the title-or-name filter is the title filter: `name` is never looked at |
| `Home.Take` | src/components/Home.js:221 | `slice(0, n)`: the whole list when it has at most `n` items, otherwise its first `n` items |
| `Home.HomeView.constructor` | src/components/Home.js:5-12 | every list empty, no selection, not loading |
| `Home.HomeView.Mount` | src/components/Home.js:15-20 | the mount effect sends popular page 1, trending movies, trending TV and trending-all, in that order. The first three fill their slots (kept on failure), and `loading` is raised for the last |
| `Home.HomeView.FetchPopularMovies` | src/components/Home.js:43-53 | asks popular page 1; success fills `movies`, failure keeps it; loading is not touched |
| `Home.HomeView.FetchTrendingMovies` | src/components/Home.js:55-65 | asks trending movies of the week; success fills its slot, failure keeps it; loading is not touched |
| `Home.HomeView.FetchTrendingTVShows` | src/components/Home.js:67-77 | asks trending TV of the week; success fills its slot, failure keeps it; loading is not touched |
| `Home.HomeView.FetchTrending` | src/components/Home.js:79-84 | raises loading and asks trending-all of the week |
| `Home.HomeView.FetchTrendingReceived` | src/components/Home.js:85-91 | success fills `trendingContent`, failure keeps it; loading ends false |
| `Home.HomeView.QueryChanged` | src/components/Home.js:22-26 | only a non-empty query starts a multi search; clearing the query sends nothing and keeps the old results and loading flag |
| `Home.HomeView.SearchMovies` | src/components/Home.js:28-33 | raises loading and sends the multi search for the query |
| `Home.HomeView.SearchMoviesReceived` | src/components/Home.js:34-40 | the response replaces `searchResults` wholesale, a failure keeps them; loading ends false |
| `Home.HomeView.HandleMovieClick` | src/components/Home.js:94-104 | every card, TV shows included, asks the movie details endpoint; a record replaces the selection, a failure keeps it |
| `Home.HomeView.CloseModal` | src/components/Home.js:347-349 | the overlay click and the close button clear the selection |
| `Home.HomeView.FetchTrailer` | src/components/Home.js:106-124 | always asks the movie videos endpoint and acts as `Trailer.Action` |
| `Home.HomeView.FilteredMovies` | src/components/Home.js:127-129 | `filteredMovies`: an order-preserving selection of the popular movies, all of them for the empty query. It is computed but never rendered |
| `Home.HomeView.FilteredTrendingMovies` | src/components/Home.js:132-134 | an order-preserving selection of the trending movies by title, all of them for the empty query |
| `Home.HomeView.FilteredTrendingTVShows` | src/components/Home.js:137-139 | an order-preserving selection of the trending TV shows by name, all of them for the empty query |
| `Home.HomeView.FilteredTrendingContent` | src/components/Home.js:142-144 | an order-preserving selection of the trending-all items by the title-or-name rule, all of them for the empty query |
| `Home.HomeView.Rendered` | src/components/Home.js:150-343 | a non-empty query shows the search results. The empty query shows the first movie as featured, at most 6 popular, trending-movie and trending-TV cards (the first ones of each list) and the whole trending-all list. The filters change nothing on this screen |

## Left out

- Markup, styling, routing and `App.js`. The query is passed to each view as
  the argument of `QueryChanged`.
- The network: `fetch`, JSON decoding and URL building (API key, query
  string). Each endpoint is a `Catalog.Request` constructor, and each completed
  request is an `Ok`/`Fail` input.
- Asynchrony. Each half of a handler is atomic. The order in which responses
  arrive is the order in which the caller invokes the `...Received` methods.
  Stale responses can overwrite newer state in the source; in the model the
  last call wins, and nothing more about interleaving is claimed.
- `window.open`, `alert` and `console.error`. The trailer action returns a
  `Trailer.Effect` instead of performing it, and logging is dropped.
- Unicode `toLowerCase`. `Text.Lower` folds only the ASCII capitals A to Z.
- Missing `title`/`name` fields are modelled as empty strings. The source would
  throw on `undefined.toLowerCase()` in the title or name filters. Display-only
  fields (posters, backdrops, ratings, dates, budget, genres) are not modelled.
  This covers number formatting (`toFixed`, `toLocaleString`), year
  extraction and image-URL concatenation.
- The `trailerKey` state of Home (src/components/Home.js:9) is declared but
  never read or written by any handler.
- The `console.log` of the filtered trending list at render time.
- Responses with an HTTP error status. `fetch` does not reject on such a
  status, so the source decodes the error body. A list then becomes
  `undefined` instead of being kept. A later page then throws when the
  missing `results` is spread. A detail click stores the error body as the
  selection. The model's `Fail` stands only for a rejected request or an
  undecodable body, and every `Ok` carries a list or record.
