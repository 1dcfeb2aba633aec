/**
 * The `StreamInterceptor` of hlsrelay/interceptor.py: for each request it
 * resolves the upstream URL, classifies the path, logs a track switch when a
 * manifest follows a segment, logs IN and OUT lines around one call of the
 * injected request executor, remembers the type and returns the response.
 */
module Interceptor {

  import opened Wrappers
  import opened MediaTypes

  /** The key under which the server's route stores the requested path. */
  const ResourceKey: string := "resource_URI"

  const TrackSwitchLine: string := "[TRACK SWITCH]"

  /** The requested path: the route's `resource_URI` entry, or `""` when there is none. */
  function ResourceURI(matchInfo: map<string, string>): string
  {
    if ResourceKey in matchInfo then matchInfo[ResourceKey] else ""
  }

  /** A request without a resource path is treated as the empty path, a SEGMENT. */
  lemma MissingResourceIsSegment(matchInfo: map<string, string>)
    requires ResourceKey !in matchInfo
    ensures FromURI(ResourceURI(matchInfo)) == SEGMENT
  {
    ShortPathIsSegment(ResourceURI(matchInfo));
  }

  /** The line logged before the executor is called. */
  function InLine(t: MediaType, fullPath: string): string
  {
    "[IN][" + t.Name() + "] " + fullPath
  }

  /** The line logged after the executor returns; `elapsedMs` is the rendered
      elapsed time, which the model leaves uninterpreted. */
  function OutLine(t: MediaType, fullPath: string, elapsedMs: string): string
  {
    "[OUT][" + t.Name() + "] " + fullPath + " (" + elapsedMs + "ms)"
  }

  /** The switch condition of the source: the previous request was a SEGMENT
      and the current one is a MANIFEST. */
  predicate IsTrackSwitch(last: Option<MediaType>, current: MediaType)
  {
    last == Some(SEGMENT) && current == MANIFEST
  }

  /** The lines one `intercept` call writes, in order. */
  function StepLog(last: Option<MediaType>, current: MediaType, fullPath: string, elapsedMs: string): seq<string>
  {
    (if IsTrackSwitch(last, current) then [TrackSwitchLine] else [])
    + [InLine(current, fullPath), OutLine(current, fullPath, elapsedMs)]
  }

  /** The number of `[TRACK SWITCH]` lines in a log. */
  function SwitchCount(log: seq<string>): nat
  {
    if log == [] then 0
    else (if log[0] == TrackSwitchLine then 1 else 0) + SwitchCount(log[1..])
  }

  lemma {:induction false} SwitchCountAppend(a: seq<string>, b: seq<string>)
    ensures SwitchCount(a + b) == SwitchCount(a) + SwitchCount(b)
  {
    if a != [] {
      assert (a + b)[1..] == a[1..] + b;
      SwitchCountAppend(a[1..], b);
    } else {
      assert a + b == b;
    }
  }

  /** IN and OUT lines are never mistaken for a switch line. */
  lemma InOutAreNotSwitchLines(t: MediaType, fullPath: string, elapsedMs: string)
    ensures InLine(t, fullPath) != TrackSwitchLine
    ensures OutLine(t, fullPath, elapsedMs) != TrackSwitchLine
  {
    assert InLine(t, fullPath)[1] == 'I';
    assert OutLine(t, fullPath, elapsedMs)[1] == 'O';
  }

  /** The IN line is `[IN][<name>] <full path>`; it determines both the type and the path. */
  lemma InLineInjective(t1: MediaType, f1: string, t2: MediaType, f2: string)
    ensures InLine(t1, f1) == InLine(t2, f2) <==> t1 == t2 && f1 == f2
  {
    if InLine(t1, f1) == InLine(t2, f2) {
      assert InLine(t1, f1)[5] == t1.Name()[0];
      assert InLine(t2, f2)[5] == t2.Name()[0];
      NameInjective(t1, t2);
      var n := 5 + |t1.Name()| + 2;
      assert InLine(t1, f1)[n..] == f1;
      assert InLine(t2, f2)[n..] == f2;
    }
  }

  /** The OUT line starts with `[OUT][<name>] <full path> (` and ends with `ms)`. */
  lemma OutLineShape(t: MediaType, fullPath: string, elapsedMs: string)
    ensures var prefix := "[OUT][" + t.Name() + "] " + fullPath + " (";
      OutLine(t, fullPath, elapsedMs)[..|prefix|] == prefix
    ensures EndsWith(OutLine(t, fullPath, elapsedMs), "ms)")
  {
  }

  /** One call writes two lines, or three when it detects a switch; a switch line
      comes first, then the IN line, then the OUT line, and it is there exactly
      when the switch condition holds. */
  lemma StepLogShape(last: Option<MediaType>, current: MediaType, fullPath: string, elapsedMs: string)
    ensures var log := StepLog(last, current, fullPath, elapsedMs);
      && |log| == (if IsTrackSwitch(last, current) then 3 else 2)
      && log[|log| - 2] == InLine(current, fullPath)
      && log[|log| - 1] == OutLine(current, fullPath, elapsedMs)
      && (log[0] == TrackSwitchLine <==> IsTrackSwitch(last, current))
      && SwitchCount(log) == (if IsTrackSwitch(last, current) then 1 else 0)
  {
    InOutAreNotSwitchLines(current, fullPath, elapsedMs);
    var log := StepLog(last, current, fullPath, elapsedMs);
    var pair := [InLine(current, fullPath), OutLine(current, fullPath, elapsedMs)];
    assert SwitchCount(pair) == 0 by {
      assert pair[1..] == [pair[1]];
      assert pair[1..][1..] == [];
      assert SwitchCount(pair[1..]) == 0;
    }
    if IsTrackSwitch(last, current) {
      assert log == [TrackSwitchLine] + pair;
      SwitchCountAppend([TrackSwitchLine], pair);
    } else {
      assert log == pair;
    }
  }

  /** A fresh interceptor has no previous type, so its first request never logs a switch. */
  lemma FirstRequestNeverSwitches(current: MediaType, fullPath: string, elapsedMs: string)
    ensures !IsTrackSwitch(None, current)
    ensures SwitchCount(StepLog(None, current, fullPath, elapsedMs)) == 0
  {
    StepLogShape(None, current, fullPath, elapsedMs);
  }

  class StreamInterceptor<Response> {
    const baseUrl: string
    /** The injected request executor, a pure function of the URL. */
    const requestExecutor: string -> Response
    /** `urllib.parse.urljoin`, left uninterpreted. */
    const join: (string, string) -> string

    /** The lines this interceptor has written to its output stream. */
    var output: seq<string>
    var lastRequestType: Option<MediaType>
    /** The URLs handed to the request executor, in call order. */
    ghost var executed: seq<string>

    constructor (baseUrl: string, requestExecutor: string -> Response, join: (string, string) -> string)
      ensures this.baseUrl == baseUrl && this.requestExecutor == requestExecutor && this.join == join
      ensures output == [] && lastRequestType == None && executed == []
    {
      this.baseUrl := baseUrl;
      this.requestExecutor := requestExecutor;
      this.join := join;
      output := [];
      lastRequestType := None;
      executed := [];
    }

    /** `_log`: writes one line to the output stream. */
    method Log(text: string)
      modifies this`output
      ensures output == old(output) + [text]
    {
      output := output + [text];
    }

    /** The awaited call of the request executor. */
    method Execute(url: string) returns (res: Response)
      modifies this`executed
      ensures res == requestExecutor(url)
      ensures executed == old(executed) + [url]
    {
      res := requestExecutor(url);
      executed := executed + [url];
    }

    /** `intercept`: the response is the executor's response for the resolved URL,
        the executor is called exactly once, the log grows by `StepLog` and the
        remembered type becomes this request's type. */
    method Intercept(matchInfo: map<string, string>, elapsedMs: string) returns (res: Response)
      modifies this`output, this`lastRequestType, this`executed
      ensures var uri := ResourceURI(matchInfo);
        var fullPath := join(baseUrl, uri);
        var mediaType := FromURI(uri);
        && res == requestExecutor(fullPath)
        && executed == old(executed) + [fullPath]
        && lastRequestType == Some(mediaType)
        && output == old(output) + StepLog(old(lastRequestType), mediaType, fullPath, elapsedMs)
    {
      var resourceURI := ResourceURI(matchInfo);
      var fullPath := join(baseUrl, resourceURI);
      var mediaType := FromURI(resourceURI);

      if lastRequestType == Some(SEGMENT) && mediaType == MANIFEST {
        Log(TrackSwitchLine);
      }

      Log(InLine(mediaType, fullPath));
      var streamRes := Execute(fullPath);
      Log(OutLine(mediaType, fullPath, elapsedMs));

      lastRequestType := Some(mediaType);
      res := streamRes;
    }
  }
}
