/** The records exchanged with the remote catalogue service and the requests
    the views send to it. A completed request is an `Outcome`: `Ok` with the
    decoded payload, or `Fail` for a transport or decode error. */
module Catalog {

  datatype Option<T> = None | Some(value: T)

  /** How an awaited request ended. */
  datatype Outcome<T> = Ok(data: T) | Fail

  /** An entry of a `results` list. Movies carry a `title`, TV shows a `name`;
      a field the record does not have is the empty string. Poster, backdrop
      and rating are display-only and not part of the model. */
  datatype MediaItem = MediaItem(id: int, title: string, name: string)

  /** A details-with-credits record; only its identity matters to the views. */
  datatype Detail = Detail(id: int)

  /** An entry of a videos list. */
  datatype Video = Video(kind: string, site: string, key: string)

  /** The catalogue endpoints, one constructor per path; the query string
      (API key, language, sorting) is not modelled. */
  datatype Request =
    | MoviePopular(pageNumber: int)     // /movie/popular
    | TrendingMovieWeek                 // /trending/movie/week
    | TrendingTvWeek                    // /trending/tv/week
    | TrendingAllWeek                   // /trending/all/week
    | DiscoverMovie(pageNumber: int)    // /discover/movie
    | DiscoverTv(pageNumber: int)       // /discover/tv
    | SearchMulti(query: string)        // /search/multi
    | SearchMovie(query: string)        // /search/movie
    | SearchTv(query: string)           // /search/tv
    | MovieDetails(id: int)             // /movie/{id}?append_to_response=credits
    | TvDetails(id: int)                // /tv/{id}?append_to_response=credits
    | MovieVideos(id: int)              // /movie/{id}/videos
    | TvVideos(id: int)                 // /tv/{id}/videos
}
