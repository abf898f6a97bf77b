/**
 * The two request handlers around the resolver: streaming a track, with its
 * validation gates in a fixed order, and uploading the cookie file.
 */
module Handlers {
  import opened Wrappers
  import opened Extraction
  import opened Resolver

  /** The JSON bodies the handlers answer with. */
  datatype Body =
    | ErrorBody(error: string)
    | StreamUrlBody(streamUrl: string)
    | StatusBody(status: string, message: string)

  /** An HTTP answer: status code and JSON body. */
  datatype Response = Response(code: int, body: Body)

  const CookiesMissing: string := "YouTube cookies not uploaded"
  const TrackMissing: string := "Track name missing"
  const NoStreamUrl: string := "Could not get stream URL"
  const NoFileUploaded: string := "No file uploaded"
  const OnlyTxtAllowed: string := "Only .txt cookie files allowed"
  const UploadedMessage: string := "YouTube cookies uploaded successfully"

  /** A file part of a multipart upload. */
  datatype FileUpload = FileUpload(filename: string, content: seq<char>)

  /** What a handler answers, the state it leaves, and the extractor calls it made. */
  datatype Served = Served(response: Response, server: Server, calls: seq<Call>)

  /** Python's str.endswith. */
  predicate EndsWith(s: string, suffix: string)
  {
    |suffix| <= |s| && s[|s| - |suffix|..] == suffix
  }

  /** A name ends with a suffix exactly when it is some stem followed by that suffix. */
  lemma EndsWithAppend(s: string, suffix: string)
    ensures EndsWith(s, suffix) ==> s == s[..|s| - |suffix|] + suffix
    ensures forall stem :: EndsWith(stem + suffix, suffix)
  {
  }

  /** os.path.join with a POSIX separator. */
  function JoinPath(dir: string, name: string): string
  {
    dir + "/" + name
  }

  /**
   * The stream handler. Checks, in order: the cookie file (400), the track
   * parameter, missing or empty (400), the resolver's answer, None or empty
   * (404); otherwise the URL. Only a request that passes both gates reaches
   * the resolver; whitespace is not rejected.
   */
  function StreamTrack(s: Server, track: Option<string>, extract: Extractor): (r: Served)
    ensures !CookiePresent(s) ==>
      r == Served(Response(400, ErrorBody(CookiesMissing)), s, [])
    ensures CookiePresent(s) && (track == None || track == Some("")) ==>
      r == Served(Response(400, ErrorBody(TrackMissing)), s, [])
    ensures CookiePresent(s) && track.Some? && track.value != "" ==>
      var res := Resolve(s, track.value, extract);
      r.server == Server(res.files, res.cache) && r.calls == res.calls &&
      (r.response.code == 200 <==> res.url.Text? && res.url.text != "") &&
      (r.response.code == 200 ==> r.response.body == StreamUrlBody(res.url.text)) &&
      (r.response.code != 200 ==> r.response == Response(404, ErrorBody(NoStreamUrl)))
    // only the cookie file is ever written, and only when the extractor was used
    ensures r.server.files.Keys == s.files.Keys
    ensures forall p :: p in s.files && p != CookiePath ==> r.server.files[p] == s.files[p]
    ensures r.calls == [] ==> r.server.files == s.files
    // a failed request leaves the cache alone, except for a found but unplayable
    // URL (None or empty), which is cached and still answered 404
    ensures r.response.code != 200 ==>
      r.server.cache == s.cache ||
      (track.Some? && (r.server.cache == s.cache[track.value := Null] ||
                       r.server.cache == s.cache[track.value := Text("")]))
  {
    if !CookiePresent(s) then
      Served(Response(400, ErrorBody(CookiesMissing)), s, [])
    else if track.None? || track.value == "" then
      Served(Response(400, ErrorBody(TrackMissing)), s, [])
    else
      var res := Resolve(s, track.value, extract);
      var s' := Server(res.files, res.cache);
      if res.url.Text? && res.url.text != "" then
        Served(Response(200, StreamUrlBody(res.url.text)), s', res.calls)
      else
        Served(Response(404, ErrorBody(NoStreamUrl)), s', res.calls)
  }

  /**
   * A found URL that is None or the empty string is cached like any other but
   * answered 404; every later request for the track is answered 404 from the
   * cache, without a new search.
   */
  lemma UnplayableUrlMemoised(s: Server, track: string, e1: Extractor, e2: Extractor)
    requires CookiePresent(s) && track != "" && track !in s.cache
    requires FirstUrl(e1(SearchCall(track)).outcome) == Some(Null) ||
             FirstUrl(e1(SearchCall(track)).outcome) == Some(Text(""))
    ensures var first := StreamTrack(s, Some(track), e1);
      first.response == Response(404, ErrorBody(NoStreamUrl)) && track in first.server.cache &&
      StreamTrack(first.server, Some(track), e2) == Served(Response(404, ErrorBody(NoStreamUrl)), first.server, [])
  {
  }

  /**
   * The cookie upload handler. A missing file or a name not ending in ".txt"
   * is refused with 400 and nothing is written; anything else is saved at the
   * one fixed path, whatever its name, replacing what was there.
   */
  function UploadCookie(s: Server, file: Option<FileUpload>): (r: Served)
    ensures r.calls == [] && r.server.cache == s.cache
    ensures r.response.code == 200 <==> file.Some? && EndsWith(file.value.filename, ".txt")
    ensures r.response.code == 200 ==>
      r.server.files == s.files[CookiePath := file.value.content] &&
      r.response.body == StatusBody("success", UploadedMessage)
    ensures r.response.code != 200 ==> r.server == s && r.response.code == 400
    ensures file.None? ==> r.response.body == ErrorBody(NoFileUploaded)
    ensures file.Some? && !EndsWith(file.value.filename, ".txt") ==>
      r.response.body == ErrorBody(OnlyTxtAllowed)
  {
    if file.None? then
      Served(Response(400, ErrorBody(NoFileUploaded)), s, [])
    else if !EndsWith(file.value.filename, ".txt") then
      Served(Response(400, ErrorBody(OnlyTxtAllowed)), s, [])
    else
      var savePath := JoinPath("cookies", "youtube.txt");
      assert savePath == CookiePath;
      Served(Response(200, StatusBody("success", UploadedMessage)),
             s.(files := s.files[savePath := file.value.content]), [])
  }

  /** After an accepted upload the stream handler no longer answers "cookies not uploaded". */
  lemma UploadOpensCookieGate(s: Server, file: FileUpload, track: Option<string>, extract: Extractor)
    requires EndsWith(file.filename, ".txt")
    ensures var s1 := UploadCookie(s, Some(file)).server;
      CookiePresent(s1) &&
      StreamTrack(s1, track, extract).response != Response(400, ErrorBody(CookiesMissing))
  {
  }

  /** ASCII whitespace, as Python's str.isspace sees it. */
  predicate IsSpace(c: char)
  {
    c == ' ' || c == '\t' || c == '\n' || c == '\r' || c == '\U{B}' || c == '\U{C}'
  }

  /** A non-empty track name made only of whitespace passes the parameter gate and is searched for as it is. */
  lemma BlankTrackReachesExtractor(s: Server, track: string, extract: Extractor)
    requires CookiePresent(s) && track !in s.cache
    requires |track| > 0 && forall i :: 0 <= i < |track| ==> IsSpace(track[i])
    ensures StreamTrack(s, Some(track), extract).response.body != ErrorBody(TrackMissing)
    ensures StreamTrack(s, Some(track), extract).calls == [Call(SearchCall(track), extract(SearchCall(track)))]
  {
  }
}
