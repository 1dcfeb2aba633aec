/**
 * Sequences of `intercept` calls on one interceptor: the log they write as a
 * function of the requests, a driver that makes those calls on one object and
 * writes exactly that log, what the log says about track switches, and replays
 * of request sequences: the one test_detects_track_switch drives, and a
 * segment-then-manifest sequence that no test drives.
 */
module InterceptorRuns {

  import opened Wrappers
  import opened MediaTypes
  import opened Interceptor

  /** One incoming request: its route match and the elapsed-time text its OUT line will carry. */
  datatype Request = Request(matchInfo: map<string, string>, elapsedMs: string)

  function TypeOf(r: Request): MediaType
  {
    FromURI(ResourceURI(r.matchInfo))
  }

  /** The types of the requests, in order. */
  function Types(reqs: seq<Request>): seq<MediaType>
  {
    seq(|reqs|, i requires 0 <= i < |reqs| => TypeOf(reqs[i]))
  }

  /** The URL the request is resolved to. */
  function FullPath(join: (string, string) -> string, baseUrl: string, r: Request): string
  {
    join(baseUrl, ResourceURI(r.matchInfo))
  }

  /** The lines written by handling `reqs` in order, starting with remembered type `last`. */
  function RunLog(join: (string, string) -> string, baseUrl: string, last: Option<MediaType>, reqs: seq<Request>): seq<string>
    decreases |reqs|
  {
    if reqs == [] then []
    else
      StepLog(last, TypeOf(reqs[0]), FullPath(join, baseUrl, reqs[0]), reqs[0].elapsedMs)
      + RunLog(join, baseUrl, Some(TypeOf(reqs[0])), reqs[1..])
  }

  /** The remembered type after handling `reqs`, starting from `last`. */
  function After(last: Option<MediaType>, reqs: seq<Request>): Option<MediaType>
  {
    if reqs == [] then last else Some(TypeOf(reqs[|reqs| - 1]))
  }

  /** Reference count of switches: adjacent SEGMENT-then-MANIFEST pairs in the
      type sequence, with `last` standing before the first request. */
  function Transitions(last: Option<MediaType>, ts: seq<MediaType>): nat
    decreases |ts|
  {
    if ts == [] then 0
    else (if last == Some(SEGMENT) && ts[0] == MANIFEST then 1 else 0) + Transitions(Some(ts[0]), ts[1..])
  }

  /** The log of a run holds one `[TRACK SWITCH]` line per SEGMENT-to-MANIFEST transition. */
  lemma {:induction false} RunSwitchCount(join: (string, string) -> string, baseUrl: string, last: Option<MediaType>, reqs: seq<Request>)
    ensures SwitchCount(RunLog(join, baseUrl, last, reqs)) == Transitions(last, Types(reqs))
    decreases |reqs|
  {
    if reqs != [] {
      var t := TypeOf(reqs[0]);
      var step := StepLog(last, t, FullPath(join, baseUrl, reqs[0]), reqs[0].elapsedMs);
      StepLogShape(last, t, FullPath(join, baseUrl, reqs[0]), reqs[0].elapsedMs);
      SwitchCountAppend(step, RunLog(join, baseUrl, Some(t), reqs[1..]));
      RunSwitchCount(join, baseUrl, Some(t), reqs[1..]);
      assert Types(reqs)[1..] == Types(reqs[1..]);
    }
  }

  /** Every call writes an IN and an OUT line, plus its switch line if any. */
  lemma {:induction false} RunLogLength(join: (string, string) -> string, baseUrl: string, last: Option<MediaType>, reqs: seq<Request>)
    ensures |RunLog(join, baseUrl, last, reqs)| == 2 * |reqs| + SwitchCount(RunLog(join, baseUrl, last, reqs))
    decreases |reqs|
  {
    if reqs != [] {
      var t := TypeOf(reqs[0]);
      var step := StepLog(last, t, FullPath(join, baseUrl, reqs[0]), reqs[0].elapsedMs);
      StepLogShape(last, t, FullPath(join, baseUrl, reqs[0]), reqs[0].elapsedMs);
      SwitchCountAppend(step, RunLog(join, baseUrl, Some(t), reqs[1..]));
      RunLogLength(join, baseUrl, Some(t), reqs[1..]);
    }
  }

  /** With no SEGMENT before them, requests that are all MANIFESTs never log a switch. */
  lemma {:induction false} ManifestOnlyTransitions(last: Option<MediaType>, ts: seq<MediaType>)
    requires last != Some(SEGMENT)
    requires forall i :: 0 <= i < |ts| ==> ts[i] == MANIFEST
    ensures Transitions(last, ts) == 0
    decreases |ts|
  {
    if ts != [] {
      ManifestOnlyTransitions(Some(ts[0]), ts[1..]);
    }
  }

  /** A run of manifest-only requests on a fresh interceptor (or one whose last
      request was a manifest) logs no `[TRACK SWITCH]` line. */
  lemma ManifestOnlyRunNeverSwitches(join: (string, string) -> string, baseUrl: string, last: Option<MediaType>, reqs: seq<Request>)
    requires last != Some(SEGMENT)
    requires forall i :: 0 <= i < |reqs| ==> TypeOf(reqs[i]) == MANIFEST
    ensures SwitchCount(RunLog(join, baseUrl, last, reqs)) == 0
  {
    RunSwitchCount(join, baseUrl, last, reqs);
    ManifestOnlyTransitions(last, Types(reqs));
  }

  /** Requests that are all SEGMENTs never log a switch, whatever came before. */
  lemma {:induction false} SegmentOnlyTransitions(last: Option<MediaType>, ts: seq<MediaType>)
    requires forall i :: 0 <= i < |ts| ==> ts[i] == SEGMENT
    ensures Transitions(last, ts) == 0
    decreases |ts|
  {
    if ts != [] {
      SegmentOnlyTransitions(Some(ts[0]), ts[1..]);
    }
  }

  const ManifestInPrefix: string := "[IN][MANIFEST] "
  const ManifestOutPrefix: string := "[OUT][MANIFEST] "

  /** Every `[TRACK SWITCH]` line is directly followed by the IN and OUT lines of a manifest request. */
  ghost predicate SwitchPrecedesManifest(log: seq<string>)
  {
    forall k :: 0 <= k < |log| && log[k] == TrackSwitchLine ==>
      k + 2 < |log| && ManifestInPrefix <= log[k + 1] && ManifestOutPrefix <= log[k + 2]
  }

  lemma SwitchPrecedesAppend(a: seq<string>, b: seq<string>)
    requires SwitchPrecedesManifest(a) && SwitchPrecedesManifest(b)
    ensures SwitchPrecedesManifest(a + b)
  {
    forall k | 0 <= k < |a + b| && (a + b)[k] == TrackSwitchLine
      ensures k + 2 < |a + b| && ManifestInPrefix <= (a + b)[k + 1] && ManifestOutPrefix <= (a + b)[k + 2]
    {
      if k < |a| {
        assert a[k] == TrackSwitchLine;
      } else {
        assert b[k - |a|] == TrackSwitchLine;
      }
    }
  }

  lemma ManifestLinePrefixes(fullPath: string, elapsedMs: string)
    ensures ManifestInPrefix <= InLine(MANIFEST, fullPath)
    ensures ManifestOutPrefix <= OutLine(MANIFEST, fullPath, elapsedMs)
  {
    assert InLine(MANIFEST, fullPath) == ManifestInPrefix + fullPath;
    assert OutLine(MANIFEST, fullPath, elapsedMs) == ManifestOutPrefix + (fullPath + " (" + elapsedMs + "ms)");
  }

  lemma StepSwitchPrecedes(last: Option<MediaType>, current: MediaType, fullPath: string, elapsedMs: string)
    ensures SwitchPrecedesManifest(StepLog(last, current, fullPath, elapsedMs))
  {
    var log := StepLog(last, current, fullPath, elapsedMs);
    var inLine, outLine := InLine(current, fullPath), OutLine(current, fullPath, elapsedMs);
    InOutAreNotSwitchLines(current, fullPath, elapsedMs);
    if IsTrackSwitch(last, current) {
      assert log == [TrackSwitchLine, inLine, outLine];
      ManifestLinePrefixes(fullPath, elapsedMs);
      forall k | 0 <= k < |log| && log[k] == TrackSwitchLine
        ensures k + 2 < |log| && ManifestInPrefix <= log[k + 1] && ManifestOutPrefix <= log[k + 2]
      {
        assert k == 0;
      }
    } else {
      assert log == [inLine, outLine];
    }
  }

  /** In the log of any run, a `[TRACK SWITCH]` line is immediately followed by
      the `[IN][MANIFEST]` and `[OUT][MANIFEST]` lines of the request that triggered it. */
  lemma {:induction false} RunSwitchPrecedesManifest(join: (string, string) -> string, baseUrl: string, last: Option<MediaType>, reqs: seq<Request>)
    ensures SwitchPrecedesManifest(RunLog(join, baseUrl, last, reqs))
    decreases |reqs|
  {
    if reqs != [] {
      var t := TypeOf(reqs[0]);
      StepSwitchPrecedes(last, t, FullPath(join, baseUrl, reqs[0]), reqs[0].elapsedMs);
      RunSwitchPrecedesManifest(join, baseUrl, Some(t), reqs[1..]);
      SwitchPrecedesAppend(StepLog(last, t, FullPath(join, baseUrl, reqs[0]), reqs[0].elapsedMs), RunLog(join, baseUrl, Some(t), reqs[1..]));
    }
  }

  /** The URLs the requests resolve to, in order. */
  function Paths(join: (string, string) -> string, baseUrl: string, reqs: seq<Request>): seq<string>
    decreases |reqs|
  {
    if reqs == [] then [] else [FullPath(join, baseUrl, reqs[0])] + Paths(join, baseUrl, reqs[1..])
  }

  /** `Paths` lists, position by position, the URL each request resolves to. */
  lemma {:induction false} PathsAt(join: (string, string) -> string, baseUrl: string, reqs: seq<Request>)
    ensures |Paths(join, baseUrl, reqs)| == |reqs|
    ensures forall i :: 0 <= i < |reqs| ==> Paths(join, baseUrl, reqs)[i] == FullPath(join, baseUrl, reqs[i])
    decreases |reqs|
  {
    if reqs != [] {
      PathsAt(join, baseUrl, reqs[1..]);
      forall i | 0 < i < |reqs|
        ensures Paths(join, baseUrl, reqs)[i] == FullPath(join, baseUrl, reqs[i])
      {
        assert reqs[1..][i - 1] == reqs[i];
      }
    }
  }

  /** How one call followed by the rest of a run composes: the logs, the
      remembered type and the executor URLs of the whole run. */
  lemma RunCons(join: (string, string) -> string, baseUrl: string, last: Option<MediaType>, reqs: seq<Request>,
                out0: seq<string>, out1: seq<string>, out2: seq<string>,
                exec0: seq<string>, exec1: seq<string>, exec2: seq<string>)
    requires reqs != []
    requires out1 == out0 + StepLog(last, FromURI(ResourceURI(reqs[0].matchInfo)),
                                    join(baseUrl, ResourceURI(reqs[0].matchInfo)), reqs[0].elapsedMs)
    requires out2 == out1 + RunLog(join, baseUrl, Some(TypeOf(reqs[0])), reqs[1..])
    requires exec1 == exec0 + [join(baseUrl, ResourceURI(reqs[0].matchInfo))]
    requires exec2 == exec1 + Paths(join, baseUrl, reqs[1..])
    ensures out2 == out0 + RunLog(join, baseUrl, last, reqs)
    ensures exec2 == exec0 + Paths(join, baseUrl, reqs)
    ensures After(Some(TypeOf(reqs[0])), reqs[1..]) == After(last, reqs)
  {
    var step := StepLog(last, TypeOf(reqs[0]), FullPath(join, baseUrl, reqs[0]), reqs[0].elapsedMs);
    var tail := RunLog(join, baseUrl, Some(TypeOf(reqs[0])), reqs[1..]);
    assert RunLog(join, baseUrl, last, reqs) == step + tail;
    assert Paths(join, baseUrl, reqs) == [FullPath(join, baseUrl, reqs[0])] + Paths(join, baseUrl, reqs[1..]);
    if |reqs| > 1 {
      assert reqs[1..][|reqs| - 2] == reqs[|reqs| - 1];
    }
  }

  /** Successive `intercept` calls on one interceptor, as the unit tests make them:
      the object writes exactly `RunLog`, ends remembering the last request's type,
      calls the executor once per request in order, and returns its responses. */
  method InterceptAll<R>(it: StreamInterceptor<R>, reqs: seq<Request>) returns (responses: seq<R>)
    modifies it`output, it`lastRequestType, it`executed
    ensures it.output == old(it.output) + RunLog(it.join, it.baseUrl, old(it.lastRequestType), reqs)
    ensures it.lastRequestType == After(old(it.lastRequestType), reqs)
    ensures it.executed == old(it.executed) + Paths(it.join, it.baseUrl, reqs)
    ensures |responses| == |reqs|
    ensures forall k :: 0 <= k < |reqs| ==> responses[k] == it.requestExecutor(FullPath(it.join, it.baseUrl, reqs[k]))
    decreases |reqs|
  {
    if reqs == [] {
      responses := [];
      return;
    }
    ghost var last0, output0, executed0 := it.lastRequestType, it.output, it.executed;
    var first := it.Intercept(reqs[0].matchInfo, reqs[0].elapsedMs);
    ghost var output1, executed1 := it.output, it.executed;
    var rest := InterceptAll(it, reqs[1..]);
    RunCons(it.join, it.baseUrl, last0, reqs, output0, output1, it.output, executed0, executed1, it.executed);
    responses := [first] + rest;
    forall k | 0 < k < |reqs|
      ensures responses[k] == it.requestExecutor(FullPath(it.join, it.baseUrl, reqs[k]))
    {
      assert reqs[1..][k - 1] == reqs[k];
    }
  }

  /** The first request on a fresh interceptor writes exactly its IN and OUT lines. */
  method FirstRequestLog<R>(baseUrl: string, requestExecutor: string -> R, join: (string, string) -> string,
                            matchInfo: map<string, string>, elapsedMs: string)
    returns (log: seq<string>, res: R)
    ensures var uri := ResourceURI(matchInfo);
      log == [InLine(FromURI(uri), join(baseUrl, uri)), OutLine(FromURI(uri), join(baseUrl, uri), elapsedMs)]
    ensures res == requestExecutor(join(baseUrl, ResourceURI(matchInfo)))
  {
    var interceptor := new StreamInterceptor(baseUrl, requestExecutor, join);
    res := interceptor.Intercept(matchInfo, elapsedMs);
    log := interceptor.output;
  }

  /** The sequence of test_detects_track_switch (master, variant 180, variant 270,
      all manifests) on a fresh interceptor logs no switch: the code compares only
      the previous request's type. */
  method ReplayMasterThenVariants<R>(requestExecutor: string -> R, join: (string, string) -> string,
                                     e1: string, e2: string, e3: string)
    returns (log: seq<string>)
    ensures |log| == 6 && SwitchCount(log) == 0
  {
    var interceptor := new StreamInterceptor("http://test.com", requestExecutor, join);
    var reqs := [Request(map[ResourceKey := "manifest.m3u8"], e1),
                 Request(map[ResourceKey := "video_180.m3u8"], e2),
                 Request(map[ResourceKey := "video_270.m3u8"], e3)];
    assert FromURI("manifest.m3u8") == MANIFEST;
    assert FromURI("video_180.m3u8") == MANIFEST;
    assert FromURI("video_270.m3u8") == MANIFEST;
    assert forall i :: 0 <= i < |reqs| ==> TypeOf(reqs[i]) == MANIFEST;
    var _ := InterceptAll(interceptor, reqs);
    log := interceptor.output;
    assert log == RunLog(join, "http://test.com", None, reqs);
    ManifestOnlyRunNeverSwitches(join, "http://test.com", None, reqs);
    RunLogLength(join, "http://test.com", None, reqs);
  }

  /** A sequence no unit test drives: a segment followed by a manifest logs
      exactly one switch, as the third line, right before the manifest's IN line. */
  method ReplaySegmentThenManifest<R>(requestExecutor: string -> R, join: (string, string) -> string,
                                      e1: string, e2: string)
    returns (log: seq<string>)
    ensures |log| == 5 && SwitchCount(log) == 1
    ensures log[2] == TrackSwitchLine && log[3] == InLine(MANIFEST, join("http://test.com", "playlist.m3u8"))
  {
    var interceptor := new StreamInterceptor("http://test.com", requestExecutor, join);
    assert FromURI("video.ts") == SEGMENT;
    assert FromURI("playlist.m3u8") == MANIFEST;
    var _ := interceptor.Intercept(map[ResourceKey := "video.ts"], e1);
    var _ := interceptor.Intercept(map[ResourceKey := "playlist.m3u8"], e2);
    log := interceptor.output;
    var s1 := StepLog(None, SEGMENT, join("http://test.com", "video.ts"), e1);
    var s2 := StepLog(Some(SEGMENT), MANIFEST, join("http://test.com", "playlist.m3u8"), e2);
    assert log == s1 + s2;
    StepLogShape(None, SEGMENT, join("http://test.com", "video.ts"), e1);
    StepLogShape(Some(SEGMENT), MANIFEST, join("http://test.com", "playlist.m3u8"), e2);
    SwitchCountAppend(s1, s2);
  }
}
