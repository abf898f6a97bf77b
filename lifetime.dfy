/**
 * The life of one server process: the requests it handles, one after another,
 * against the shared cookie file and URL cache. The cache starts empty when the
 * process starts and is never cleared.
 */
module Lifetime {
  import opened Wrappers
  import opened Extraction
  import opened Resolver
  import opened Handlers

  /** A request to one of the two handlers; a stream request carries the extractor it meets. */
  datatype Request =
    | StreamRequest(track: Option<string>, extract: Extractor)
    | UploadRequest(file: Option<FileUpload>)

  /**
   * The responses given, the state left, every extractor call made, and every
   * content written to the cookie file, each in order.
   */
  datatype Trace = Trace(responses: seq<Response>, server: Server, calls: seq<Call>, cookieWrites: seq<seq<char>>)

  /** Whether a request is an upload the handler accepts. */
  predicate AcceptedUpload(req: Request)
  {
    req.UploadRequest? && req.file.Some? && EndsWith(req.file.value.filename, ".txt")
  }

  /** Handle one request. */
  function Serve(s: Server, req: Request): (r: Served)
    // cached entries survive every request unchanged
    ensures forall k :: k in s.cache ==> k in r.server.cache && r.server.cache[k] == s.cache[k]
    // at most one extractor call, and only the search for an uncached, non-empty track
    ensures |r.calls| <= 1
    ensures |r.calls| == 1 ==>
      req.StreamRequest? && req.track.Some? && req.track.value != "" && req.track.value !in s.cache &&
      r.calls[0] == Call(SearchCall(req.track.value), req.extract(SearchCall(req.track.value)))
    // a key the request adds holds the URL its extractor call produced
    ensures forall k :: k in r.server.cache && k !in s.cache ==>
      |r.calls| == 1 && r.calls[0].request == SearchCall(k) &&
      FirstUrl(r.calls[0].reply.outcome) == Some(r.server.cache[k])
    // only the cookie file is ever written: by an accepted upload with its
    // content, or by the extractor with its cookie jar
    ensures AcceptedUpload(req) ==> r.server.files == s.files[CookiePath := req.file.value.content]
    ensures |r.calls| == 1 ==> r.server.files == s.files[CookiePath := r.calls[0].reply.cookieJar]
    ensures !AcceptedUpload(req) && r.calls == [] ==> r.server.files == s.files
  {
    match req
    case StreamRequest(track, extract) => StreamTrack(s, track, extract)
    case UploadRequest(file) => UploadCookie(s, file)
  }

  /** What a served request wrote to the cookie file: an accepted upload's content, or the extractor's jar. */
  function CookieWrites(req: Request, served: Served): seq<seq<char>>
  {
    if AcceptedUpload(req) then [req.file.value.content]
    else if |served.calls| == 1 then [served.calls[0].reply.cookieJar]
    else []
  }

  /** Handle a sequence of requests, in order, each against the state the previous one left. */
  function Run(s: Server, reqs: seq<Request>): (t: Trace)
    // one response per request, and at most one extractor call and one cookie write each
    ensures |t.responses| == |reqs| && |t.calls| <= |reqs| && |t.cookieWrites| <= |reqs|
    decreases |reqs|
  {
    if reqs == [] then
      Trace([], s, [], [])
    else
      var first := Serve(s, reqs[0]);
      var rest := Run(first.server, reqs[1..]);
      Trace([first.response] + rest.responses, rest.server, first.calls + rest.calls,
            CookieWrites(reqs[0], first) + rest.cookieWrites)
  }

  /** A cache entry, once made, is kept with the same URL for the rest of the process. */
  lemma {:induction false} CacheEntriesPermanent(s: Server, reqs: seq<Request>, k: string)
    requires k in s.cache
    ensures k in Run(s, reqs).server.cache && Run(s, reqs).server.cache[k] == s.cache[k]
    decreases |reqs|
  {
    if reqs != [] {
      CacheEntriesPermanent(Serve(s, reqs[0]).server, reqs[1..], k);
    }
  }

  /** A track that is cached is never searched for again, whatever requests follow. */
  lemma {:induction false} CachedTrackNeverSearched(s: Server, reqs: seq<Request>, track: string)
    requires track in s.cache
    ensures forall i :: 0 <= i < |Run(s, reqs).calls| ==> Run(s, reqs).calls[i].request.query != Query(track)
    decreases |reqs|
  {
    if reqs != [] {
      var first := Serve(s, reqs[0]);
      CachedTrackNeverSearched(first.server, reqs[1..], track);
      if |first.calls| == 1 {
        var searched := reqs[0].track.value;
        if Query(searched) == Query(track) {
          QueryInjective(searched, track);
        }
      }
    }
  }

  /**
   * Every URL in the cache that was not there at the start is the first-entry
   * URL of a recorded search for that very track: failures and other tracks'
   * answers never get in.
   */
  lemma {:induction false} CachedUrlsComeFromExtraction(s: Server, reqs: seq<Request>, k: string)
    requires k in Run(s, reqs).server.cache && k !in s.cache
    ensures exists i :: (0 <= i < |Run(s, reqs).calls| &&
                         Run(s, reqs).calls[i].request == SearchCall(k) &&
                         FirstUrl(Run(s, reqs).calls[i].reply.outcome) == Some(Run(s, reqs).server.cache[k]))
    decreases |reqs|
  {
    var first := Serve(s, reqs[0]);
    var rest := Run(first.server, reqs[1..]);
    if k in first.server.cache {
      CacheEntriesPermanent(first.server, reqs[1..], k);
      assert Run(s, reqs).calls[0] == first.calls[0];
    } else {
      CachedUrlsComeFromExtraction(first.server, reqs[1..], k);
      var i :| 0 <= i < |rest.calls| && rest.calls[i].request == SearchCall(k) &&
        FirstUrl(rest.calls[i].reply.outcome) == Some(rest.server.cache[k]);
      assert Run(s, reqs).calls[|first.calls| + i] == rest.calls[i];
    }
  }

  /**
   * The files after any run: the cookie file holds the last content written
   * to it (last write wins); with no write the files are as they were.
   */
  lemma {:induction false} CookieFileIsLastWrite(s: Server, reqs: seq<Request>)
    ensures var t := Run(s, reqs);
      t.server.files ==
        if t.cookieWrites == [] then s.files
        else s.files[CookiePath := t.cookieWrites[|t.cookieWrites| - 1]]
    decreases |reqs|
  {
    if reqs != [] {
      var first := Serve(s, reqs[0]);
      var rest := Run(first.server, reqs[1..]);
      CookieFileIsLastWrite(first.server, reqs[1..]);
      var w := CookieWrites(reqs[0], first);
      if rest.cookieWrites != [] {
        var last := rest.cookieWrites[|rest.cookieWrites| - 1];
        assert first.server.files[CookiePath := last] == s.files[CookiePath := last];
        assert (w + rest.cookieWrites)[|w + rest.cookieWrites| - 1] == last;
      } else {
        assert w + rest.cookieWrites == w;
      }
    }
  }

  /** Every content written to the cookie file is an accepted upload's or the jar of a recorded extractor call. */
  lemma {:induction false} CookieWritesHaveAWriter(s: Server, reqs: seq<Request>, j: nat)
    requires j < |Run(s, reqs).cookieWrites|
    ensures var t := Run(s, reqs);
      (exists i :: 0 <= i < |reqs| && AcceptedUpload(reqs[i]) && reqs[i].file.value.content == t.cookieWrites[j]) ||
      (exists i :: 0 <= i < |t.calls| && t.calls[i].reply.cookieJar == t.cookieWrites[j])
    decreases |reqs|
  {
    var t := Run(s, reqs);
    var first := Serve(s, reqs[0]);
    var rest := Run(first.server, reqs[1..]);
    var w := CookieWrites(reqs[0], first);
    if j < |w| {
      if AcceptedUpload(reqs[0]) {
        assert reqs[0].file.value.content == t.cookieWrites[j];
      } else {
        assert t.calls[0] == first.calls[0];
      }
    } else {
      assert t.cookieWrites[j] == rest.cookieWrites[j - |w|];
      CookieWritesHaveAWriter(first.server, reqs[1..], j - |w|);
      if exists i :: 0 <= i < |reqs[1..]| && AcceptedUpload(reqs[1..][i]) && reqs[1..][i].file.value.content == rest.cookieWrites[j - |w|] {
        var i :| 0 <= i < |reqs[1..]| && AcceptedUpload(reqs[1..][i]) && reqs[1..][i].file.value.content == rest.cookieWrites[j - |w|];
        assert reqs[i + 1] == reqs[1..][i];
      } else {
        var i :| 0 <= i < |rest.calls| && rest.calls[i].reply.cookieJar == rest.cookieWrites[j - |w|];
        assert t.calls[|first.calls| + i] == rest.calls[i];
      }
    }
  }

  /** The content of the last accepted upload among the requests, if any. */
  function LastUpload(reqs: seq<Request>): Option<seq<char>>
    decreases |reqs|
  {
    if reqs == [] then None
    else match LastUpload(reqs[1..])
      case Some(content) => Some(content)
      case None => if AcceptedUpload(reqs[0]) then Some(reqs[0].file.value.content) else None
  }

  /**
   * In a run that never uses the extractor, the cookie file holds the last
   * accepted upload, at the fixed path; without one the files are as they were.
   */
  lemma {:induction false} CookieFileIsLastUpload(s: Server, reqs: seq<Request>)
    requires Run(s, reqs).calls == []
    ensures Run(s, reqs).server.files ==
      match LastUpload(reqs)
      case None => s.files
      case Some(content) => s.files[CookiePath := content]
    decreases |reqs|
  {
    if reqs != [] {
      var first := Serve(s, reqs[0]);
      assert first.calls + Run(first.server, reqs[1..]).calls == [];
      CookieFileIsLastUpload(first.server, reqs[1..]);
      if LastUpload(reqs[1..]).Some? && AcceptedUpload(reqs[0]) {
        var content := LastUpload(reqs[1..]).value;
        assert first.server.files[CookiePath := content] == s.files[CookiePath := content];
      }
    }
  }

  /** Once the cookie file exists it stays: the stream handler never says "cookies not uploaded" again. */
  lemma {:induction false} CookieStaysPresent(s: Server, reqs: seq<Request>)
    requires CookiePresent(s)
    ensures CookiePresent(Run(s, reqs).server)
  {
    CookieFileIsLastWrite(s, reqs);
  }
}
