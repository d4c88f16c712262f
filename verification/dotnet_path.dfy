/** `System.IO.Path.Combine` over a list of segments, on the two kinds of
    host platform .NET distinguishes. Windows drive letters are recognised as
    roots ("C:x"); UNC and device paths are not modelled. */
module DotNetPath {
  import opened AsciiText

  datatype Platform = Unix | Windows

  /** `Path.DirectorySeparatorChar`. */
  function DirectorySeparatorChar(p: Platform): char {
    if p == Windows then '\\' else '/'
  }

  /** '/' separates on every platform; '\' only on Windows. */
  predicate IsDirectorySeparator(p: Platform, c: char) {
    c == '/' || (p == Windows && c == '\\')
  }

  /** A Windows drive prefix such as "C:". */
  predicate IsDriveRooted(s: string) {
    |s| >= 2 && IsLetter(s[0]) && s[1] == ':'
  }

  /** `Path.IsPathRooted`. */
  predicate IsPathRooted(p: Platform, s: string) {
    (|s| > 0 && IsDirectorySeparator(p, s[0])) || (p == Windows && IsDriveRooted(s))
  }

  /** One step of `Combine`: an empty segment is skipped, a rooted segment
      discards everything before it, and otherwise the segment is appended,
      with a separator inserted only when the path so far does not already end
      in one. */
  function Join(p: Platform, path: string, segment: string): (r: string)
    ensures segment == "" ==> r == path
    ensures IsPathRooted(p, segment) ==> r == segment
    ensures segment != "" && !IsPathRooted(p, segment) ==> |r| > |path|
  {
    if segment == "" then path
    else if IsPathRooted(p, segment) then segment
    else if path == "" || IsDirectorySeparator(p, path[|path| - 1]) then path + segment
    else path + [DirectorySeparatorChar(p)] + segment
  }

  /** `Path.Combine(segments)`. */
  function Combine(p: Platform, segments: seq<string>): (r: string)
    ensures r == "" <==> forall i :: 0 <= i < |segments| ==> segments[i] == ""
    decreases |segments|
  {
    if segments == [] then ""
    else
      var init := Combine(p, segments[..|segments| - 1]);
      assert forall i :: 0 <= i < |segments| - 1 ==> segments[..|segments| - 1][i] == segments[i];
      Join(p, init, segments[|segments| - 1])
  }

  /** Appending one segment is one more `Join`. */
  lemma CombineSnoc(p: Platform, segments: seq<string>, last: string)
    ensures Combine(p, segments + [last]) == Join(p, Combine(p, segments), last)
  {
  }

  /** The three-segment form used by the route convention. */
  lemma Combine3(p: Platform, a: string, b: string, c: string)
    ensures Combine(p, [a, b, c]) == Join(p, Join(p, Join(p, "", a), b), c)
  {
    CombineSnoc(p, [], a);
    assert [] + [a] == [a];
    CombineSnoc(p, [a], b);
    assert [a] + [b] == [a, b];
    CombineSnoc(p, [a, b], c);
    assert [a, b] + [c] == [a, b, c];
  }

  /** An empty segment anywhere leaves the combined path unchanged. */
  lemma {:induction false} CombineSkipsEmpty(p: Platform, before: seq<string>, after: seq<string>)
    ensures Combine(p, before + [""] + after) == Combine(p, before + after)
    decreases |after|
  {
    if after == [] {
      assert (before + [""] + after)[..|before| + 1 - 1] == before;
      assert before + after == before;
    } else {
      var last := after[|after| - 1];
      var front := after[..|after| - 1];
      CombineSkipsEmpty(p, before, front);
      assert (before + [""] + after)[..|before + [""] + after| - 1] == before + [""] + front;
      assert (before + after)[..|before + after| - 1] == before + front;
    }
  }

  /** A rooted segment restarts the path: whatever came before it is dropped. */
  lemma {:induction false} CombineRootedRestarts(p: Platform, before: seq<string>, root: string, after: seq<string>)
    requires IsPathRooted(p, root)
    ensures Combine(p, before + [root] + after) == Combine(p, [root] + after)
    decreases |after|
  {
    if after == [] {
      assert (before + [root] + after)[..|before| + 1 - 1] == before;
      assert ([root] + after)[..0] == [];
    } else {
      var front := after[..|after| - 1];
      CombineRootedRestarts(p, before, root, front);
      assert (before + [root] + after)[..|before + [root] + after| - 1] == before + [root] + front;
      assert ([root] + after)[..|[root] + after| - 1] == [root] + front;
    }
  }

  /** A segment the two platforms read alike: no backslash, no drive prefix. */
  predicate PortableSegment(s: string) {
    '\\' !in s && !IsDriveRooted(s)
  }

  /** One `Join` on Windows, followed by turning backslashes into slashes, is
      the Unix `Join` of the already-normalised path. */
  lemma JoinPortable(path: string, segment: string)
    requires PortableSegment(segment)
    ensures Replace(Join(Windows, path, segment), '\\', '/')
         == Join(Unix, Replace(path, '\\', '/'), segment)
  {
  }

  /** Normalising backslashes to slashes makes `Combine` platform independent
      for portable segments. */
  lemma {:induction false} CombinePortable(segments: seq<string>)
    requires forall i :: 0 <= i < |segments| ==> PortableSegment(segments[i])
    ensures Replace(Combine(Windows, segments), '\\', '/') == Combine(Unix, segments)
    decreases |segments|
  {
    if segments != [] {
      var front := segments[..|segments| - 1];
      assert forall i :: 0 <= i < |front| ==> front[i] == segments[i];
      CombinePortable(front);
      JoinPortable(Combine(Windows, front), segments[|segments| - 1]);
    }
  }
}
