/**
 * The video-platform extractor (yt_dlp) as seen by the resolver: the request
 * it is handed, the shapes of what it can hand back, and the one piece of the
 * answer the resolver uses. The extractor itself is an opaque oracle.
 */
module Extraction {
  import opened Wrappers

  /** Where the uploaded cookie file is kept and read from. */
  const CookiePath: string := "cookies/youtube.txt"

  /** The search prefix that turns a track name into a yt_dlp search. */
  const SearchPrefix: string := "ytsearch:"

  /**
   * One call of the extractor: the options the YoutubeDL object is built
   * with, and the arguments of extract_info.
   */
  datatype ExtractCall = ExtractCall(
    format: string,
    quiet: bool,
    cookieFile: string,
    noCheckCertificate: bool,
    query: string,
    download: bool)

  /** A Python value that is either None or a string: what an entry's 'url' holds, and what the resolver returns. */
  datatype Url = Null | Text(text: string)

  /** A search hit; `url` is None when the entry has no 'url' key. */
  datatype Entry = Entry(url: Option<Url>)

  /** A results dictionary; `entries` is None when it has no 'entries' key. */
  datatype Info = Info(entries: Option<seq<Entry>>)

  /**
   * What extract_info ends in: an exception, or a results value (None
   * standing for a falsy result).
   */
  datatype Outcome = Raised(message: string) | Returned(results: Option<Info>)

  /**
   * What one use of the extractor produces: the outcome of extract_info, and
   * the cookie jar that closing the YoutubeDL object writes back into the
   * cookie file it was given, whether or not extract_info raised.
   */
  datatype Reply = Reply(outcome: Outcome, cookieJar: seq<char>)

  /** The extractor: any reply to any call, possibly a different one each time it is used. */
  type Extractor = ExtractCall -> Reply

  /** A call made, with its reply (kept only for the proofs). */
  datatype Call = Call(request: ExtractCall, reply: Reply)

  function Query(track: string): string
  {
    SearchPrefix + track
  }

  /** The one call the resolver makes for a track: audio only, with the cookie file, no download. */
  function SearchCall(track: string): ExtractCall
  {
    ExtractCall("bestaudio/best", true, CookiePath, true, Query(track), false)
  }

  /** Different tracks are searched with different queries. */
  lemma QueryInjective(a: string, b: string)
    requires Query(a) == Query(b)
    ensures a == b
  {
    assert a == Query(a)[|SearchPrefix|..];
    assert b == Query(b)[|SearchPrefix|..];
  }

  /**
   * The value the resolver stores and returns from an outcome: Some of the
   * first entry's 'url' (None or a string) when the results are truthy and
   * hold a non-empty 'entries' list whose first entry has a 'url' key. None
   * (nothing to store) for an exception, a falsy result, no or empty
   * 'entries', and a first entry without 'url', whose KeyError is caught like
   * any other exception.
   */
  function FirstUrl(o: Outcome): (u: Option<Url>)
    ensures u.Some? <==>
      o.Returned? && o.results.Some? && o.results.value.entries.Some? &&
      |o.results.value.entries.value| > 0 && o.results.value.entries.value[0].url.Some?
    ensures u.Some? ==> u == o.results.value.entries.value[0].url
  {
    match o
    case Raised(_) => None
    case Returned(None) => None
    case Returned(Some(info)) =>
      match info.entries
      case None => None
      case Some(entries) => if |entries| == 0 then None else entries[0].url
  }
}
