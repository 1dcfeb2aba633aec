/**
 * The media classifier of hlsrelay/interceptor.py: a resource path is a
 * MANIFEST (an HLS playlist) or a SEGMENT (media data), decided by suffix.
 */
module MediaTypes {

  datatype MediaType = MANIFEST | SEGMENT {

    /** The enum member's name, as Python's `Enum.name` gives it. */
    function Name(): string
    {
      match this
      case MANIFEST => "MANIFEST"
      case SEGMENT => "SEGMENT"
    }
  }

  /** The suffixes the classifier recognises, in the order of the source's tuple.
      The second one has no leading dot. */
  const ManifestSuffixes: seq<string> := [".m3u8", "m3u"]

  /** Python's `str.endswith` with a single suffix (case-sensitive). */
  predicate EndsWith(s: string, suffix: string)
  {
    |suffix| <= |s| && s[|s| - |suffix|..] == suffix
  }

  /** `s` ends with `suffix` exactly when `s` is some prefix followed by `suffix`. */
  lemma {:induction false} EndsWithIffConcat(s: string, suffix: string)
    ensures EndsWith(s, suffix) <==> exists p :: s == p + suffix
  {
    if EndsWith(s, suffix) {
      var p := s[..|s| - |suffix|];
      assert s == p + suffix;
    }
    if exists p :: s == p + suffix {
      var p :| s == p + suffix;
      assert s[|p|..] == suffix;
    }
  }

  /** Python's `str.endswith` with a tuple: true if any of the suffixes matches. */
  predicate EndsWithAny(s: string, suffixes: seq<string>)
  {
    |suffixes| > 0 && (EndsWith(s, suffixes[0]) || EndsWithAny(s, suffixes[1..]))
  }

  /** The tuple form holds exactly when some suffix of the tuple matches. */
  lemma {:induction false} EndsWithAnyIff(s: string, suffixes: seq<string>)
    ensures EndsWithAny(s, suffixes) <==> exists i :: 0 <= i < |suffixes| && EndsWith(s, suffixes[i])
  {
    if |suffixes| > 0 {
      EndsWithAnyIff(s, suffixes[1..]);
      if EndsWithAny(s, suffixes[1..]) {
        var i :| 0 <= i < |suffixes[1..]| && EndsWith(s, suffixes[1..][i]);
        assert EndsWith(s, suffixes[i + 1]);
      }
      if exists i :: 0 <= i < |suffixes| && EndsWith(s, suffixes[i]) {
        var i :| 0 <= i < |suffixes| && EndsWith(s, suffixes[i]);
        if i > 0 {
          assert EndsWith(s, suffixes[1..][i - 1]);
        }
      }
    }
  }

  /** `MediaType.from_URI`: the path is a MANIFEST when it ends with one of the
      manifest suffixes, and a SEGMENT otherwise. */
  function FromURI(resourceURI: string): MediaType
  {
    if EndsWithAny(resourceURI, ManifestSuffixes) then MANIFEST else SEGMENT
  }

  /** A path is a MANIFEST exactly when it is some prefix followed by ".m3u8" or
      by "m3u"; every other path, the empty one included, is a SEGMENT. */
  lemma FromURIManifestIff(resourceURI: string)
    ensures FromURI(resourceURI) == MANIFEST <==>
              (exists p :: resourceURI == p + ".m3u8") || (exists p :: resourceURI == p + "m3u")
  {
    EndsWithIffConcat(resourceURI, ".m3u8");
    EndsWithIffConcat(resourceURI, "m3u");
    EndsWithAnyIff(resourceURI, ManifestSuffixes);
    assert ManifestSuffixes[0] == ".m3u8" && ManifestSuffixes[1] == "m3u";
  }

  /** Every path with the dotted ".m3u" extension is a MANIFEST, since it ends with "m3u". */
  lemma DottedM3uIsManifest(p: string)
    ensures FromURI(p + ".m3u") == MANIFEST
  {
    assert p + ".m3u" == (p + ".") + "m3u";
    FromURIManifestIff(p + ".m3u");
  }

  /** A path shorter than both suffixes is a SEGMENT; in particular the empty path. */
  lemma ShortPathIsSegment(resourceURI: string)
    requires |resourceURI| < 3
    ensures FromURI(resourceURI) == SEGMENT
  {
    EndsWithAnyIff(resourceURI, ManifestSuffixes);
    assert |ManifestSuffixes[0]| == 5 && |ManifestSuffixes[1]| == 3;
  }

  /** The two names are distinct, so a log line's name identifies the type. */
  lemma NameInjective(a: MediaType, b: MediaType)
    ensures a.Name() == b.Name() <==> a == b
  {
    if a != b {
      assert a.Name()[0] != b.Name()[0];
    }
  }

  /** Classifications of every path the unit tests request, plus the undotted and case-sensitive edges. */
  lemma ClassifierExamples()
    ensures FromURI("playlist.m3u8") == MANIFEST
    ensures FromURI("manifest-relative.m3u8") == MANIFEST
    ensures FromURI("manifest-absolute.m3u8") == MANIFEST
    ensures FromURI("manifest.m3u8") == MANIFEST
    ensures FromURI("video_180.m3u8") == MANIFEST
    ensures FromURI("video_270.m3u8") == MANIFEST
    ensures FromURI("other_video.m3u8") == MANIFEST
    ensures FromURI("video.ts") == SEGMENT
    ensures FromURI("segment.ts") == SEGMENT
    ensures FromURI("xm3u") == MANIFEST
    ensures FromURI("list.M3U8") == SEGMENT
    ensures FromURI("") == SEGMENT
  {
  }
}
