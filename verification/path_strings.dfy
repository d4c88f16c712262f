/** ASP.NET Core's `PathString`: the implicit conversion from `string`, and
    `StartsWithSegments`, which compares ordinally ignoring case and then
    insists that the match ends on a segment boundary. Percent-decoding in the
    conversion is not modelled: base paths are taken literally. */
module PathStrings {
  import opened Wrappers
  import opened Exceptions
  import opened AsciiText

  /** The implicit `string -> PathString` conversion: null and "" give the
      empty path; any other value must start with '/', or the constructor
      throws `ArgumentException`. */
  function FromString(s: Option<string>): (r: Result<string, Exception>)
    ensures r.Success? <==> (s.None? || s.value == "" || s.value[0] == '/')
    ensures r.Success? && s.Some? ==> r.value == s.value
    ensures r.Success? && s.None? ==> r.value == ""
    ensures r.Failure? ==> r.error == ArgumentException
  {
    match s
    case None => Success("")
    case Some(v) => if v == "" || v[0] == '/' then Success(v) else Failure(ArgumentException)
  }

  /** `path.StartsWithSegments(other)`. */
  predicate StartsWithSegments(path: string, other: string)
    ensures StartsWithSegments(path, other) ==> |other| <= |path|
    ensures other == "" ==> (StartsWithSegments(path, other) <==> path == "" || path[0] == '/')
    ensures path == other ==> StartsWithSegments(path, other)
  {
    StartsWithIgnoreCase(path, other) && (|path| == |other| || path[|other|] == '/')
  }

  /** Segment alignment: `base + rest` starts with the segments of `base`
      exactly when `rest` is empty or begins a new segment. */
  lemma SegmentAligned(base: string, rest: string)
    ensures StartsWithSegments(base + rest, base) <==> (rest == "" || rest[0] == '/')
  {
  }

  /** Matching is case-insensitive in the base path. */
  lemma IgnoresCaseOfBase(path: string, a: string, b: string)
    requires EqualsIgnoreCase(a, b)
    ensures StartsWithSegments(path, a) <==> StartsWithSegments(path, b)
  {
  }

  /** Segment prefixes compose: a path under `b`, where `b` is under `c`, is
      under `c`. */
  lemma Transitive(a: string, b: string, c: string)
    requires StartsWithSegments(a, b) && StartsWithSegments(b, c)
    ensures StartsWithSegments(a, c)
  {
  }

  /** The worked cases for the hub base "/hubs". */
  lemma Examples()
    ensures StartsWithSegments("/hubs/Chat", "/hubs")
    ensures StartsWithSegments("/hubs", "/hubs")
    ensures StartsWithSegments("/HUBS/Chat", "/hubs")
    ensures !StartsWithSegments("/hubsomething/Chat", "/hubs")
    ensures !StartsWithSegments("/hubs2", "/hubs")
    ensures !StartsWithSegments("/api/data", "/hubs")
    ensures StartsWithSegments("/api/data", "")
    ensures !StartsWithSegments("/hubs", "/")
  {
  }
}
