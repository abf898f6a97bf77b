/**
 * The memoised stream-URL resolver over the process-wide state: the files on
 * disk (only the cookie file matters) and the URL cache.
 */
module Resolver {
  import opened Wrappers
  import opened Extraction

  /** Process-wide state: the filesystem, by path, and the cache from track name to stored value. */
  datatype Server = Server(files: map<string, seq<char>>, cache: map<string, Url>)

  predicate CookiePresent(s: Server)
  {
    CookiePath in s.files
  }

  /** What one resolution returns, the cache and files it leaves, and the extractor calls it made. */
  datatype Resolution = Resolution(url: Url, cache: map<string, Url>, files: map<string, seq<char>>, calls: seq<Call>)

  /**
   * Resolve a track name to a stream URL. No cookie file: None, before the
   * cache is consulted. A cached track: the stored value, with no call.
   * Otherwise one extractor call; the first entry's 'url', when there is one,
   * is written through to the cache, anything else (no results, exception)
   * leaves the cache alone. Closing the extractor rewrites the cookie file.
   */
  function Resolve(s: Server, track: string, extract: Extractor): (r: Resolution)
    // the cookie gate comes first, even for a cached track
    ensures !CookiePresent(s) ==> r == Resolution(Null, s.cache, s.files, [])
    // a hit answers from the cache and calls nothing
    ensures CookiePresent(s) && track in s.cache ==>
      r == Resolution(s.cache[track], s.cache, s.files, [])
    // a miss calls the extractor exactly once, with the search for this track,
    // and the cookie file then holds the jar the extractor dumped
    ensures CookiePresent(s) && track !in s.cache ==>
      var reply := extract(SearchCall(track));
      r.calls == [Call(SearchCall(track), reply)] &&
      r.files == s.files[CookiePath := reply.cookieJar]
    // a found 'url' is returned and written under exactly this key ...
    ensures CookiePresent(s) && track !in s.cache && FirstUrl(extract(SearchCall(track)).outcome).Some? ==>
      var v := FirstUrl(extract(SearchCall(track)).outcome).value;
      r.url == v && r.cache == s.cache[track := v]
    // ... and a failure returns None and writes nothing
    ensures CookiePresent(s) && track !in s.cache && FirstUrl(extract(SearchCall(track)).outcome).None? ==>
      r.url == Null && r.cache == s.cache
    // cached entries are never replaced, and only the cookie file is ever written
    ensures forall k :: k in s.cache ==> k in r.cache && r.cache[k] == s.cache[k]
    ensures r.files.Keys == s.files.Keys
    ensures forall p :: p in s.files && p != CookiePath ==> r.files[p] == s.files[p]
  {
    if !CookiePresent(s) then
      Resolution(Null, s.cache, s.files, [])
    else if track in s.cache then
      Resolution(s.cache[track], s.cache, s.files, [])
    else
      var request := SearchCall(track);
      var reply := extract(request);
      var files := s.files[CookiePath := reply.cookieJar];
      match FirstUrl(reply.outcome)
      case Some(v) => Resolution(v, s.cache[track := v], files, [Call(request, reply)])
      case None => Resolution(Null, s.cache, files, [Call(request, reply)])
  }

  /** Once a track resolved, asking again gives the same value with no extractor call and no file write. */
  lemma SecondResolveServedFromCache(s: Server, track: string, e1: Extractor, e2: Extractor)
    requires CookiePresent(s) && track !in s.cache
    requires FirstUrl(e1(SearchCall(track)).outcome).Some?
    ensures var r1 := Resolve(s, track, e1);
      var s1 := Server(r1.files, r1.cache);
      Resolve(s1, track, e2) == Resolution(r1.url, s1.cache, s1.files, [])
  {
  }

  /** A failed resolution is not remembered: the next attempt calls the extractor again. */
  lemma FailureRetried(s: Server, track: string, e1: Extractor, e2: Extractor)
    requires CookiePresent(s) && track !in s.cache
    requires FirstUrl(e1(SearchCall(track)).outcome).None?
    ensures var r1 := Resolve(s, track, e1);
      var s1 := Server(r1.files, r1.cache);
      track !in s1.cache &&
      Resolve(s1, track, e2).calls == [Call(SearchCall(track), e2(SearchCall(track)))]
  {
  }
}
