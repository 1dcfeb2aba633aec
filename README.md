# hls-relay stream interceptor, modelled in Dafny

hls-relay is an HTTP relay for HLS streams. Every request that reaches the
relay goes through a `StreamInterceptor`. The interceptor:

- resolves the requested path against the upstream base URL;
- classifies the path as a `MANIFEST` (a playlist) or a `SEGMENT` (media data) by its suffix;
- logs a `[TRACK SWITCH]` line when a manifest request follows a segment request;
- logs an `[IN]` line, calls the injected request executor once, and logs an `[OUT]` line with the elapsed time;
- remembers the request's type and returns the executor's response unchanged.

The model has four modules:

- `Wrappers` (wrappers.dfy): `Option`.
- `MediaTypes` (media_type.dfy): the `MediaType` enumeration and the suffix classifier `FromURI`, which is pure.
- `Interceptor` (interceptor.dfy): the log-line formats, the lines one call writes (`StepLog`), and the class `StreamInterceptor`. The class has the mutable fields `output` (the lines written so far) and `lastRequestType`, plus a ghost trace `executed` of the URLs handed to the executor.
- `InterceptorRuns` (interceptor_runs.dfy): the log that a sequence of requests writes, as a function `RunLog` of the requests. `InterceptAll` makes those calls one after another on one `StreamInterceptor` and is proved to write exactly `RunLog`, so the run-level lemmas hold of the object. The module also proves what the log says about track switches. It replays two request sequences: the one test/unit/test_interceptor.py:99-107 drives, and a segment-then-manifest sequence that no test drives.

Collaborators the interceptor receives from outside are parameters of the class:

- the request executor is a pure function from URL to response;
- `urllib.parse.urljoin` is an uninterpreted function `join`;
- the rendered elapsed time is an uninterpreted string argument of `Intercept`.

Behaviour of hlsrelay/interceptor.py worth noting:

- **Manifest suffix.** The second suffix at hlsrelay/interceptor.py:49 is `m3u`, with no dot. So `xm3u` is a MANIFEST (`ClassifierExamples`), and so is every `.m3u` path (`DottedM3uIsManifest`).
- **Switch detection.** It compares only the previous request's type with the current one (hlsrelay/interceptor.py:26). So master, `video_180.m3u8`, `video_270.m3u8` logs no switch (`ReplayMasterThenVariants`). test/unit/test_interceptor.py:99-111 expects a switch that the code does not log.
- **Responses.** No manifest is rewritten and no status code is changed. Manifests and segments alike are returned exactly as the executor produced them (hlsrelay/interceptor.py:31, 37). test/unit/test_interceptor.py:72-87 expects rewritten host names that the code does not produce.

## Model

| member | source | states |
|---|---|---|
| MediaTypes.FromURIManifestIff | hlsrelay/interceptor.py:47-49 | the result is MANIFEST exactly when the path is some prefix followed by `.m3u8` or by `m3u` (case-sensitive); every other path is SEGMENT |
| MediaTypes.EndsWithIffConcat | hlsrelay/interceptor.py:49 | `endswith(suffix)` holds exactly when the string is some prefix followed by that suffix |
| MediaTypes.EndsWithAnyIff | hlsrelay/interceptor.py:49 | `endswith` over a tuple holds exactly when some suffix of the tuple matches |
| MediaTypes.DottedM3uIsManifest | hlsrelay/interceptor.py:49 | every path ending in `.m3u` is a MANIFEST, because it ends in `m3u` |
| MediaTypes.ShortPathIsSegment | hlsrelay/interceptor.py:49 | a path shorter than three characters, the empty default path included, is a SEGMENT |
| MediaTypes.NameInjective | hlsrelay/interceptor.py:43-45 | the names `MANIFEST` and `SEGMENT` differ, so a name identifies the type |
| MediaTypes.ClassifierExamples | hlsrelay/interceptor.py:49 | the nine paths the tests request are classified by their suffix: the seven `.m3u8` paths are MANIFESTs, `video.ts` and `segment.ts` are SEGMENTs (tests assert this only for `playlist.m3u8` and `video.ts`, test/unit/test_interceptor.py:25, 36); `xm3u` is a MANIFEST; `list.M3U8` and `""` are SEGMENTs |
| Interceptor.MissingResourceIsSegment | hlsrelay/interceptor.py:22 | a request with no `resource_URI` entry is classified as a SEGMENT |
| Interceptor.InOutAreNotSwitchLines | hlsrelay/interceptor.py:27-34 | IN and OUT lines never equal the `[TRACK SWITCH]` line |
| Interceptor.InLineInjective | hlsrelay/interceptor.py:29 | the IN line `[IN][<name>] <full path>` determines both the type and the full path |
| Interceptor.OutLineShape | hlsrelay/interceptor.py:34 | the OUT line starts with `[OUT][<name>] <full path> (` and ends with `ms)` |
| Interceptor.StepLogShape | hlsrelay/interceptor.py:26-34 | one call writes 3 lines when the previous type was SEGMENT and the current type is MANIFEST, and 2 lines otherwise; the first line is `[TRACK SWITCH]` exactly in that case; the last two lines are the IN line and then the OUT line; the call writes exactly one switch line or none |
| Interceptor.FirstRequestNeverSwitches | hlsrelay/interceptor.py:19-27 | with no previous type, the switch condition is false and the call writes no `[TRACK SWITCH]` line |
| Interceptor.StreamInterceptor.constructor | hlsrelay/interceptor.py:10-19 | stores the base URL, the executor and the join; no output, no previous type, no executor calls yet |
| Interceptor.StreamInterceptor.Log | hlsrelay/interceptor.py:39-40 | appends exactly one line to the output |
| Interceptor.StreamInterceptor.Execute | hlsrelay/interceptor.py:31 | returns the executor's response for the URL and records one executor call |
| Interceptor.StreamInterceptor.Intercept | hlsrelay/interceptor.py:21-37 | the response is the executor's response for `join(base, path)`; the executor is called exactly once, with that URL; `lastRequestType` becomes the path's classification; the output grows by exactly the lines of `StepLog` for the old type |
| InterceptorRuns.InterceptAll | hlsrelay/interceptor.py:21-37 | successive calls on one interceptor append exactly `RunLog` of the requests, starting from the type remembered before them; afterwards the remembered type is the last request's type, or unchanged when there were no requests; the executor is called once per request, in order, with each resolved URL; the k-th response is the executor's response for the k-th URL |
| InterceptorRuns.RunSwitchCount | hlsrelay/interceptor.py:26-36 | a run's log holds one `[TRACK SWITCH]` line per SEGMENT-then-MANIFEST transition in the request types, counting from the starting type |
| InterceptorRuns.RunLogLength | hlsrelay/interceptor.py:26-34 | a run of n requests writes 2n lines plus one per switch line |
| InterceptorRuns.ManifestOnlyRunNeverSwitches | hlsrelay/interceptor.py:26-27 | manifest-only requests append no switch line (through `InterceptAll`, to the object's output) when the remembered type is none, as on a fresh interceptor, or MANIFEST |
| InterceptorRuns.SegmentOnlyTransitions | hlsrelay/interceptor.py:26 | segment-only requests never count as a switch, whatever came before |
| InterceptorRuns.RunSwitchPrecedesManifest | hlsrelay/interceptor.py:26-34 | in any run's log, every `[TRACK SWITCH]` line is immediately followed by a `[IN][MANIFEST]` line and then a `[OUT][MANIFEST]` line |
| InterceptorRuns.FirstRequestLog | hlsrelay/interceptor.py:21-37 | the first request on a fresh interceptor writes exactly its IN and OUT lines and returns the executor's response |
| InterceptorRuns.ReplayMasterThenVariants | hlsrelay/interceptor.py:26 | the requests of test/unit/test_interceptor.py:99-107 (`manifest.m3u8`, `video_180.m3u8`, `video_270.m3u8`) on a fresh interceptor write 6 lines and no switch line |
| InterceptorRuns.ReplaySegmentThenManifest | hlsrelay/interceptor.py:26-29 | a sequence no test drives, `video.ts` then `playlist.m3u8`, writes 5 lines with exactly one switch line, third, directly before the manifest's IN line |

## Left out

- Clock and elapsed time (hlsrelay/interceptor.py:30-33): `time.time()`, the floating-point subtraction and `round(..., 2)` are not modelled. The rendered number is an uninterpreted string.
- `urllib.parse.urljoin` (hlsrelay/interceptor.py:23): a library URL-resolution algorithm that is not modelled. It is the uninterpreted `join` field.
- Asynchrony and I/O (hlsrelay/interceptor.py:13, 31): the executor is awaited and does network I/O. It is modelled as a pure function, called synchronously. Concurrent calls that interleave at the `await` are not modelled.
- Interceptor.StreamInterceptor.Intercept: a failing executor is not modelled, because the executor is a total function. In the source, an exception raised by the awaited call at hlsrelay/interceptor.py:31 propagates after the switch line (when due) and the IN line are written. No OUT line is written and line 36 is skipped, so `_last_request_type` keeps its old value. For example, SEGMENT, then a MANIFEST whose fetch fails, then another MANIFEST logs two `[TRACK SWITCH]` lines and one IN line with no OUT line.
- InterceptorRuns.RunLogLength: "2n lines plus one per switch line" holds only for runs in which no executor call fails. For the same reason, `InterceptAll`, `RunSwitchCount` and `RunSwitchPrecedesManifest` describe only runs without failures. After a failed manifest fetch, a `[TRACK SWITCH]` line may be followed by that manifest's IN line and then a second `[TRACK SWITCH]` line, with no OUT line between.
- Output stream: `output` holds the lines this interceptor writes. Other writers to the same stream, and lines the stream splits again because a path holds a newline, are not modelled.
- Server, HTTP client and bootstrap: hlsrelay/server.py, hlsrelay/request.py, hlsrelay/client.py and hlsrelay/__main__.py are not part of this model. They are routing and client plumbing.
- Manifest URL rewriting and switch detection against a master manifest: only the tests expect these (test/unit/test_interceptor.py:72-87, 99-111), and no source file implements them.
