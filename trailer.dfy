/** The trailer action shared by the three views: fetch the item's videos,
    take the first YouTube trailer in list order and open its watch page, or
    raise a notice. */
module Trailer {
  import opened Catalog

  const WatchPrefix: string := "https://www.youtube.com/watch?v="
  const NotAvailableNotice: string := "Trailer tidak tersedia"
  const LoadErrorNotice: string := "Error loading trailer"

  /** What the action does in the browser: open a new window on a URL, or
      show a blocking alert. */
  datatype Effect = OpenWindow(url: string) | Alert(notice: string)

  /** The `find` predicate: type "Trailer" and site "YouTube". */
  predicate IsYouTubeTrailer(v: Video)
  {
    v.kind == "Trailer" && v.site == "YouTube"
  }

  /** Position of the first YouTube trailer, if any. */
  function TrailerIndex(videos: seq<Video>): (r: Option<nat>)
    ensures r.Some? ==> r.value < |videos| && IsYouTubeTrailer(videos[r.value])
    ensures r.Some? ==> forall j :: 0 <= j < r.value ==> !IsYouTubeTrailer(videos[j])
    ensures r.None? ==> forall j :: 0 <= j < |videos| ==> !IsYouTubeTrailer(videos[j])
  {
    if videos == [] then None
    else if IsYouTubeTrailer(videos[0]) then Some(0)
    else match TrailerIndex(videos[1..])
      case None => None
      case Some(i) => Some(i + 1)
  }

  /** `videos.find(isYouTubeTrailer)`. */
  function FindTrailer(videos: seq<Video>): (r: Option<Video>)
    ensures r.Some? ==> IsYouTubeTrailer(r.value) && r.value in videos
  {
    match TrailerIndex(videos)
    case None => None
    case Some(i) => Some(videos[i])
  }

  /** `find` yields the video at the first matching position, and nothing
      exactly when no video matches. */
  lemma FindTrailerIsFirst(videos: seq<Video>, i: int)
    requires 0 <= i < |videos| && IsYouTubeTrailer(videos[i])
    requires forall j :: 0 <= j < i ==> !IsYouTubeTrailer(videos[j])
    ensures FindTrailer(videos) == Some(videos[i])
  {
  }

  lemma FindTrailerNone(videos: seq<Video>)
    ensures FindTrailer(videos).None? <==> forall j :: 0 <= j < |videos| ==> !IsYouTubeTrailer(videos[j])
  {
  }

  /** The watch URL of a video key. */
  function WatchUrl(key: string): (url: string)
    ensures |url| == |WatchPrefix| + |key|
    ensures url[..|WatchPrefix|] == WatchPrefix
    ensures url[|WatchPrefix|..] == key
  {
    WatchPrefix + key
  }

  /** Distinct keys open distinct pages. */
  lemma WatchUrlInjective(a: string, b: string)
    requires WatchUrl(a) == WatchUrl(b)
    ensures a == b
  {
    assert a == WatchUrl(a)[|WatchPrefix|..];
  }

  /** The `fetchTrailer` continuation, given how the videos request ended. */
  function Action(response: Outcome<seq<Video>>): (e: Effect)
    ensures response.Fail? ==> e == Alert(LoadErrorNotice)
    ensures response.Ok? ==>
      (e.OpenWindow? <==> exists i :: 0 <= i < |response.data| && IsYouTubeTrailer(response.data[i]))
    ensures response.Ok? && e.Alert? ==> e.notice == NotAvailableNotice
    ensures response.Ok? ==>
      forall i :: 0 <= i < |response.data| && IsYouTubeTrailer(response.data[i])
        && (forall j :: 0 <= j < i ==> !IsYouTubeTrailer(response.data[j]))
        ==> e == OpenWindow(WatchUrl(response.data[i].key))
  {
    match response
    case Fail => Alert(LoadErrorNotice)
    case Ok(videos) =>
      match FindTrailer(videos)
      case Some(trailer) => OpenWindow(WatchUrl(trailer.key))
      case None => Alert(NotAvailableNotice)
  }

  /** A teaser, a YouTube trailer and a Vimeo trailer: the YouTube trailer
      is opened. */
  lemma FirstYouTubeTrailerWins()
    ensures Action(Ok([Video("Teaser", "YouTube", "a"), Video("Trailer", "YouTube", "b"), Video("Trailer", "Vimeo", "c")]))
         == OpenWindow(WatchPrefix + "b")
  {
    var videos := [Video("Teaser", "YouTube", "a"), Video("Trailer", "YouTube", "b"), Video("Trailer", "Vimeo", "c")];
    FindTrailerIsFirst(videos, 1);
  }

  /** Without a YouTube trailer nothing is opened, whatever teasers or
      other-site trailers the list holds. */
  lemma NoTrailerNoWindow(videos: seq<Video>)
    requires forall j :: 0 <= j < |videos| ==> !IsYouTubeTrailer(videos[j])
    ensures Action(Ok(videos)) == Alert(NotAvailableNotice)
  {
  }
}
