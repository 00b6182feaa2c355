/** The request-path helper of the UCP logging middleware: the path of a
    request relative to the server's base path, as `strings.TrimPrefix` gives
    it. Go strings are byte strings; a character sequence stands for them here. */
module UcpLogging {

  /** Removes one leading `basePath` from `path` when `path` starts with it;
      any other path is returned as it is. */
  function GetRelativePath(basePath: string, path: string): (relative: string)
    ensures basePath <= path ==> basePath + relative == path
    ensures !(basePath <= path) ==> relative == path
  {
    if basePath <= path then path[|basePath|..] else path
  }

  /** The relative path is always a suffix of the path. */
  lemma RelativePathIsSuffix(basePath: string, path: string)
    ensures |GetRelativePath(basePath, path)| <= |path|
    ensures GetRelativePath(basePath, path) == path[|path| - |GetRelativePath(basePath, path)|..]
  {
    var relative := GetRelativePath(basePath, path);
    if basePath <= path {
      assert basePath + relative == path;
      assert path[|basePath|..] == relative;
    }
  }

  /** When the prefix is there, the relative path is the only string that
      completes the base path to the path. */
  lemma RelativePathUnique(basePath: string, path: string, rest: string)
    requires basePath + rest == path
    ensures GetRelativePath(basePath, path) == rest
  {
    assert basePath <= path by {
      assert path[..|basePath|] == basePath;
    }
    var relative := GetRelativePath(basePath, path);
    assert basePath + relative == basePath + rest;
    assert relative == (basePath + relative)[|basePath|..];
  }

  /** An empty base path leaves every path alone, and a path relative to
      itself is empty. */
  lemma RelativePathEdgeCases(path: string)
    ensures GetRelativePath("", path) == path
    ensures GetRelativePath(path, path) == ""
  {
  }

  /** Re-prefixing restores the path: the base path and the relative path
      together are the original request path. */
  lemma RelativePathRoundTrip(basePath: string, rest: string)
    ensures GetRelativePath(basePath, basePath + rest) == rest
  {
    RelativePathUnique(basePath, basePath + rest, rest);
  }

  /** Only one leading occurrence is removed. */
  lemma RemovesOnlyOneOccurrence()
    ensures GetRelativePath("/a", "/a/a/x") == "/a/x"
  {
    assert "/a" + "/a/x" == "/a/a/x";
    RelativePathRoundTrip("/a", "/a/x");
  }
}
