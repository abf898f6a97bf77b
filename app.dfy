/**
 * The backend process itself: the module-level URL cache and the cookie file
 * on disk are fields that the handlers update in place. Each method is proved
 * against the function of the same step in Resolver and Handlers.
 */
module App {
  import opened Wrappers
  import opened Extraction
  import opened Resolver
  import opened Handlers

  class Backend {
    /** The filesystem, by path; only the cookie file is read or written. */
    var files: map<string, seq<char>>
    /** The process-wide cache from track name to the stored value (None or a URL). */
    var cache: map<string, Url>
    /** Every extractor call made so far, with its outcome. */
    ghost var calls: seq<Call>

    function State(): Server
      reads this
    {
      Server(files, cache)
    }

    /** Process start: whatever is on disk, an empty cache, no calls yet. */
    constructor (disk: map<string, seq<char>>)
      ensures files == disk && cache == map[] && calls == []
    {
      files := disk;
      cache := map[];
      calls := [];
    }

    /**
     * The resolver, step by step: cookie gate, cache lookup, one guarded
     * extractor call, write-through. Leaving the extractor's block, by a
     * return or by the swallowed exception, dumps its cookie jar into the
     * cookie file.
     */
    method GetYoutubeStreamUrl(track: string, extract: Extractor) returns (url: Url)
      modifies this
      ensures var r := Resolve(old(State()), track, extract);
        url == r.url && cache == r.cache && files == r.files && calls == old(calls) + r.calls
    {
      if CookiePath !in files {
        return Null;
      }
      if track in cache {
        return cache[track];
      }
      var request := ExtractCall("bestaudio/best", true, CookiePath, true, SearchPrefix + track, false);
      var reply := extract(request);
      calls := calls + [Call(request, reply)];
      files := files[CookiePath := reply.cookieJar];
      if reply.outcome.Raised? {
        return Null;
      }
      var results := reply.outcome.results;
      if results.None? || results.value.entries.None? || |results.value.entries.value| == 0 {
        return Null;
      }
      var first := results.value.entries.value[0];
      if first.url.None? {
        // the missing 'url' key raises, and the exception is swallowed
        return Null;
      }
      cache := cache[track := first.url.value];
      return first.url.value;
    }

    /** The stream handler: cookie gate, then the track parameter, then the resolver. */
    method StreamTrack(track: Option<string>, extract: Extractor) returns (response: Response)
      modifies this
      ensures var r := Handlers.StreamTrack(old(State()), track, extract);
        response == r.response && State() == r.server && calls == old(calls) + r.calls
    {
      if CookiePath !in files {
        return Response(400, ErrorBody(CookiesMissing));
      }
      if track.None? || track.value == "" {
        return Response(400, ErrorBody(TrackMissing));
      }
      var streamUrl := GetYoutubeStreamUrl(track.value, extract);
      if streamUrl.Text? && streamUrl.text != "" {
        response := Response(200, StreamUrlBody(streamUrl.text));
      } else {
        response := Response(404, ErrorBody(NoStreamUrl));
      }
    }

    /** The upload handler: presence and extension checks, then a save to the fixed path. */
    method UploadYoutubeCookie(file: Option<FileUpload>) returns (response: Response)
      modifies this
      ensures var r := UploadCookie(old(State()), file);
        response == r.response && State() == r.server
      ensures calls == old(calls)
    {
      if file.None? {
        return Response(400, ErrorBody(NoFileUploaded));
      }
      if !EndsWith(file.value.filename, ".txt") {
        return Response(400, ErrorBody(OnlyTxtAllowed));
      }
      var savePath := JoinPath("cookies", "youtube.txt");
      files := files[savePath := file.value.content];
      response := Response(200, StatusBody("success", UploadedMessage));
    }
  }

  /**
   * A client of the class: upload a cookie file, then stream the same track
   * twice. The second request is answered from the cache with no further
   * extractor call, whatever the extractor would now say; the cookie file
   * ends up holding the jar the one search dumped, not the upload.
   */
  method UploadThenStreamTwice(b: Backend, file: FileUpload, track: string, e1: Extractor, e2: Extractor)
    returns (first: Response, second: Response)
    requires EndsWith(file.filename, ".txt") && track != "" && b.cache == map[]
    requires FirstUrl(e1(SearchCall(track)).outcome) == Some(Text("https://cdn/x.m4a"))
    modifies b
    ensures first == Response(200, StreamUrlBody("https://cdn/x.m4a")) && second == first
    ensures b.calls == old(b.calls) + [Call(SearchCall(track), e1(SearchCall(track)))]
    ensures b.files == old(b.files)[CookiePath := e1(SearchCall(track)).cookieJar]
  {
    var uploaded := b.UploadYoutubeCookie(Some(file));
    first := b.StreamTrack(Some(track), e1);
    second := b.StreamTrack(Some(track), e2);
  }
}
