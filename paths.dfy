/**
 * Path handling of a resource handle: the short name of a resource is the
 * last segment of its path once trailing separators are cut off.
 * `StringUtil.URIJoin` is not part of this model: every member that joins
 * paths takes it as a parameter of type `Joiner`.
 */
module Paths {
  import opened Wrappers
  import opened Text
  import opened Wire

  /** `StringUtil.URIJoin`: builds one URI path from its segments. */
  type Joiner = seq<string> -> string

  const NO_NAME_MESSAGE: string := "Cannot determine the name from the supplied path."

  /** The path with every trailing `/` removed. */
  function TrimTrailingSlashes(path: string): (t: string)
    ensures |t| <= |path| && t == path[..|t|]
    ensures !EndsWithSlash(t)
    ensures forall k :: |t| <= k < |path| ==> path[k] == '/'
  {
    if EndsWithSlash(path) then TrimTrailingSlashes(path[..|path| - 1]) else path
  }

  /** The name `GetNameFromPath` computes, or the `FOMException` it throws. */
  function NameFromPath(path: string): (r: Result<string, Error>)
    ensures r.Success? ==> r.value != "" && '/' !in r.value
    ensures r.Failure? ==> r.error == FomException(NO_NAME_MESSAGE)
  {
    var t := TrimTrailingSlashes(path);
    if |t| > 0 then Success(t[LastIndexOf(t, '/') + 1..])
    else Failure(FomException(NO_NAME_MESSAGE))
  }

  /**
   * `path[s..e]` is the name of `path`: a non-empty run of non-separators
   * that starts the path or follows a `/`, and is followed only by `/`s.
   */
  predicate IsNameSpan(path: string, s: int, e: int)
  {
    && 0 <= s < e <= |path|
    && (s == 0 || path[s - 1] == '/')
    && (forall k :: s <= k < e ==> path[k] != '/')
    && (forall k :: e <= k < |path| ==> path[k] == '/')
  }

  predicate OnlySlashes(path: string)
  {
    forall k :: 0 <= k < |path| ==> path[k] == '/'
  }

  /** `BaseFOM.GetNameFromPath`: strip trailing `/` one at a time, then take the last segment. */
  method GetNameFromPath(path: string) returns (r: Result<string, Error>)
    ensures r == NameFromPath(path)
    ensures r.Failure? <==> OnlySlashes(path)
    ensures r.Success? ==> exists s, e :: IsNameSpan(path, s, e) && r.value == path[s..e]
  {
    var p := path;
    while EndsWithSlash(p)
      invariant TrimTrailingSlashes(p) == TrimTrailingSlashes(path)
      decreases |p|
    {
      p := p[..LastIndexOf(p, '/')];
    }
    if |p| > 0 {
      r := Success(p[LastIndexOf(p, '/') + 1..]);
    } else {
      r := Failure(FomException(NO_NAME_MESSAGE));
    }
    NameFromPathFailsIffOnlySlashes(path);
    if r.Success? {
      NameFromPathHasSpan(path);
    }
  }

  /** The name cannot be determined exactly when the path is empty or all `/`. */
  lemma NameFromPathFailsIffOnlySlashes(path: string)
    ensures NameFromPath(path).Failure? <==> OnlySlashes(path)
  {
  }

  /** A name that was found is the segment after the last `/` of the trimmed path. */
  lemma NameFromPathHasSpan(path: string)
    requires NameFromPath(path).Success?
    ensures exists s, e :: IsNameSpan(path, s, e) && NameFromPath(path).value == path[s..e]
  {
  }

  /** Any name span of a path is the one `NameFromPath` finds. */
  lemma NameSpanDeterminesName(path: string, s: int, e: int)
    requires IsNameSpan(path, s, e)
    ensures NameFromPath(path) == Success(path[s..e])
  {
    var t := TrimTrailingSlashes(path);
    assert path[e - 1] != '/';
    assert |t| == 0 || t[|t| - 1] == path[|t| - 1];
    assert t == path[..e];
    var i := LastIndexOf(t, '/');
    if s > 0 {
      assert t[s - 1] == '/';
    }
    assert i == s - 1;
  }

  /** A name is its own name: applying the function to its result changes nothing. */
  lemma NameFromPathIdempotent(path: string)
    requires NameFromPath(path).Success?
    ensures NameFromPath(NameFromPath(path).value) == NameFromPath(path)
  {
  }

  /** Working examples of the base handle's test suite: a nested path, with and without a trailing `/`. */
  lemma NameFromPathExamples()
    ensures NameFromPath("/foo/bar/baz") == Success("baz")
    ensures NameFromPath("/foo/bar/baz/") == Success("baz")
  {
    NameSpanDeterminesName("/foo/bar/baz", 9, 12);
    NameSpanDeterminesName("/foo/bar/baz/", 9, 12);
    assert "/foo/bar/baz/"[9..12] == "/foo/bar/baz"[9..12] == "baz";
  }

  /** Working examples of the base handle's test suite: a single segment, with and without a leading `/`. */
  lemma NameFromPathShortExamples()
    ensures NameFromPath("/foo") == Success("foo")
    ensures NameFromPath("foo") == Success("foo")
  {
    NameSpanDeterminesName("/foo", 1, 4);
    NameSpanDeterminesName("foo", 0, 3);
  }

  /** The failing examples of the base handle's test suite. */
  lemma NameFromPathFailingExamples()
    ensures NameFromPath("").Failure?
    ensures NameFromPath("//").Failure?
  {
  }
}
