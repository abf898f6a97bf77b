# Memoised stream-URL resolver of the spclone backend

This project models the part of the spclone Flask backend (`app.py`) that holds
state: the process-wide `url_cache` and the resolver `get_youtube_stream_url`
that fills it from the yt_dlp extractor, the `/stream_track` handler with its
validation gates, and the `/upload_youtube_cookie` handler that writes the one
cookie file the resolver depends on.

Layout, one module per component:

- `wrappers.dfy` — `Option`, for "absent" (a missing key, a missing parameter).
- `extraction.dfy` — the extractor as an opaque oracle: the call it receives
  (the `ydl_opts` dictionary, the `ytsearch:` query, `download=False`), the
  shapes of its answer (an exception, a falsy result, a results dictionary
  with or without `entries`, entries with or without `url`, a `url` holding
  `None` or a string), the cookie jar it writes back into its cookie file,
  and `FirstUrl`, the value the resolver takes from an answer.
- `resolver.dfy` — the process state (`Server`: the files on disk and the
  cache) and `Resolve`, the resolver as a function of the state, the track
  name and the extractor.
- `handlers.dfy` — the two HTTP handlers as functions from state and request
  parameters to a response, the new state and the extractor calls made.
- `lifetime.dfy` — a whole process lifetime: a sequence of requests handled in
  order, and what holds after any such sequence.
- `app.dfy` — `Backend`, the class whose fields are the cache and the
  filesystem and whose methods are the resolver and the handlers written step
  by step, each proved equal to the function of the same step.

The extractor is a parameter of type `ExtractCall -> Reply`; a new one is
passed with every request, so it may answer differently each time. A `Reply`
is the outcome of `extract_info` together with the cookie jar that closing
the `YoutubeDL` object dumps into the file named by its `cookiefile` option
(yt_dlp reads cookies from that file and writes its jar back to it on
`close()`, which the `with` block at app.py:44 runs on every exit, by return
or by exception). A ghost log `calls` records every call made and its reply,
which is how "no call" and "exactly one call, with this query" are stated.
The filesystem is a map from path to content; the cookie file counts as
present when `cookies/youtube.txt` is a key of it.

Python's `None` appears in two roles: `Option.None` for something absent (no
`entries` key, no `url` key, no `track` parameter), and `Url.Null` for the
value `None` itself, which is what the resolver returns on failure and what
an entry's `url` key may hold. The cache maps track names to `Url`.

Behaviour worth knowing, modelled as the code has it:

- A track name made only of whitespace is not rejected: the handler only
  tests for a missing or empty parameter (app.py:111), so it is searched for.
- There is no separate "credential missing" result inside the resolver: it
  returns `None` when the cookie file is absent (app.py:29-30).
- A first entry whose `url` is `None` or the empty string is written to the
  cache (app.py:53) but the handler treats it as falsy and answers 404
  (app.py:116-119); from then on that track is answered 404 from the cache
  and never searched again (`Handlers.UnplayableUrlMemoised`). Only failures
  before the write (an exception, including a missing `url` key, or no
  usable `entries`) are retried.
- Every search rewrites the cookie file with yt_dlp's cookie jar, so an
  uploaded file survives unchanged only until the next cache miss
  (`Lifetime.CookieFileIsLastWrite`).
- Cache entries never expire and are never replaced: a track is only looked
  up while it is absent from the cache (`Lifetime.CacheEntriesPermanent`).

## Model

| member | source | states |
|---|---|---|
| `Extraction.QueryInjective` | app.py:45 | two different track names are never searched with the same query |
| `Extraction.FirstUrl` | app.py:47-50 | a value is taken exactly when the results are truthy, have an `entries` key with a non-empty list, and the first entry has a `url` key; the value is whatever that key holds, `None` included |
| `Resolver.Resolve` | app.py:26-58 | no cookie file: `None`, cache and files unchanged, no call, even for a cached track; cached track: the stored value, no call; otherwise exactly one call, a search for `"ytsearch:" + track` with `download=False` and the cookie file, after which the cookie file holds the extractor's jar; a found `url` is returned and written under exactly that key, any failure returns `None` with the cache unchanged; existing entries are never altered and no other file is written |
| `Resolver.SecondResolveServedFromCache` | app.py:33-54 | after a resolution that wrote the cache, resolving the same track again returns the same value with no extractor call and no file write, whatever the extractor would say |
| `Resolver.FailureRetried` | app.py:47-58 | after a resolution that found no `url` the track is still absent from the cache, so the next attempt calls the extractor again |
| `Handlers.EndsWithAppend` | app.py:129 | the `.txt` test accepts a name exactly when it is some stem followed by `.txt` |
| `Handlers.StreamTrack` | app.py:104-119 | gates in order: cookie file absent gives 400 "YouTube cookies not uploaded" before the track is looked at; missing or empty track gives 400 "Track name missing" with no resolver call; then the resolver runs and a non-empty string gives 200 `{"stream_url": url}`, `None` or `""` gives 404; only the cookie file may change, and only when the extractor was called; a failed request leaves the cache alone except for a cached `None` or `""` |
| `Handlers.UnplayableUrlMemoised` | app.py:50-54 | a found `url` of `None` or `""` is cached and answered 404, and every later request for that track is answered 404 from the cache with no new search |
| `Handlers.UploadCookie` | app.py:122-140 | 200 exactly when a file is present and its name ends in `.txt`; then its content is saved at `cookies/youtube.txt` whatever its name, replacing the old file, and nothing else changes; otherwise 400 with "No file uploaded" or "Only .txt cookie files allowed" and the state is unchanged; the cache is never touched |
| `Handlers.UploadOpensCookieGate` | app.py:106-135 | after an accepted upload the cookie file exists and the stream handler no longer answers "YouTube cookies not uploaded" |
| `Handlers.BlankTrackReachesExtractor` | app.py:109-114 | any non-empty track name made only of whitespace passes the parameter gate and is searched for as it is |
| `Lifetime.Serve` | app.py:104-140 | one request keeps every cache entry, makes at most one extractor call and only the search for an uncached non-empty track, adds only the key it searched with the value that search produced, and writes only the cookie file: with an accepted upload's content or with the jar of the call it made |
| `Lifetime.Run` | app.py:104-140 | over any sequence of requests there is one response per request and at most one extractor call and one cookie-file write per request |
| `Lifetime.CacheEntriesPermanent` | app.py:23-54 | once a track is cached, its value stays in the cache unchanged through any sequence of requests |
| `Lifetime.CachedTrackNeverSearched` | app.py:33-45 | once a track is cached, no later request ever calls the extractor with that track's query |
| `Lifetime.CachedUrlsComeFromExtraction` | app.py:43-54 | every value that entered the cache during a run is the first-entry `url` of a recorded search for that same track |
| `Lifetime.CookieFileIsLastWrite` | app.py:39-45 | after any run the cookie file holds the last content written to it (last write wins), and the files are as they were if nothing was written |
| `Lifetime.CookieWritesHaveAWriter` | app.py:132-135 | every content written to the cookie file is an accepted upload's content or the jar of a recorded extractor call |
| `Lifetime.CookieFileIsLastUpload` | app.py:129-135 | in a run that never calls the extractor, the cookie file holds the content of the last accepted upload, or the files are as they were if there was none |
| `Lifetime.CookieStaysPresent` | app.py:106-107 | once the cookie file exists no request removes it |
| `App.Backend.constructor` | app.py:23 | at process start the cache is empty and no extractor call has been made |
| `App.Backend.GetYoutubeStreamUrl` | app.py:26-58 | the in-place resolver returns what `Resolver.Resolve` returns, leaves the cache and files it describes, and logs the calls it makes |
| `App.Backend.StreamTrack` | app.py:104-119 | the in-place handler answers and updates state exactly as `Handlers.StreamTrack` says |
| `App.Backend.UploadYoutubeCookie` | app.py:122-140 | the in-place upload answers and updates state exactly as `Handlers.UploadCookie` says and makes no extractor call |
| `App.UploadThenStreamTwice` | app.py:104-140 | upload, then two streams of the same track: both answer 200 with the first search's URL, only one extractor call is made, and the cookie file ends up holding that call's jar |

## Left out

- Flask routing, CORS, `jsonify`, parsing of `request.args` and
  `request.files`, and `app.run`: handler inputs and outputs are plain values
  (`Option<string>` for the `track` parameter, `Option<FileUpload>` for the
  `file` part, `Response` for the status code and JSON body).
- The Spotify client and the `/`, `/recommendations` and `/search` handlers:
  calls to a foreign API and reshaping of its JSON, with no state.
- The internals of yt_dlp: the extractor is an arbitrary function passed in
  with each request, and the cookie jar it dumps is an arbitrary string; how
  that jar relates to the uploaded file is not modelled.
- Extraction.Entry: an entry's `url` is `None` or a string; other values
  (numbers, lists) that Python would also cache and return are not modelled.
- `os.makedirs('cookies', exist_ok=True)`: directories are not modelled; the
  filesystem is a map from path to content. `os.path.exists` is membership in
  that map and `file.save` an update of it.
- An uploaded file part whose `filename` is `None`: `upload_youtube_cookie`
  would raise `AttributeError` at the `.txt` test, outside any `try`, and
  Flask would answer 500; the model's file names are always strings.
- An error raised while yt_dlp writes its cookie jar back, and the case where
  building the `YoutubeDL` object fails before any search.
- The `print` of the swallowed exception, environment configuration and the
  port setting.
- Concurrency between request workers: requests are handled one after
  another, so races on the cache and on the cookie file are not modelled.
- Session and OAuth token management, proxy support and cache expiry: none of
  them is in `app.py`.
