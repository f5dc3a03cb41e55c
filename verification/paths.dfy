/**
 Where the variables-file provider looks for its file: POSIX `os.path.isabs` and
 two-argument `os.path.join`, and the choice of the directory a relative path is
 resolved against.
 */
module Paths {
  import opened ConfigTypes

  /** `os.sep` on POSIX. */
  const Sep: char := '/'

  /** `os.curdir`. */
  const CurDir: string := "."

  /** `os.path.isabs` on POSIX: the path starts with the separator. */
  predicate IsAbs(path: string)
    ensures IsAbs(path) <==> [Sep] <= path
  {
    |path| > 0 && path[0] == Sep
  }

  predicate EndsWithSep(path: string) {
    |path| > 0 && path[|path| - 1] == Sep
  }

  /** Two-argument `os.path.join` on POSIX: an absolute second part replaces the
      first; otherwise the parts are concatenated with one separator at the seam,
      none being added after an empty first part or one ending in a separator. */
  function Join(a: string, b: string): (r: string)
    ensures IsAbs(b) ==> r == b
    ensures !IsAbs(b) ==> |a| + |b| <= |r| <= |a| + |b| + 1
    ensures !IsAbs(b) ==> r[..|a|] == a && r[|r| - |b|..] == b
    ensures !IsAbs(b) && a != [] ==> EndsWithSep(r[..|r| - |b|])
    ensures !IsAbs(b) && (a == [] || EndsWithSep(a)) ==> |r| == |a| + |b|
  {
    if IsAbs(b) then b
    else if a == [] || EndsWithSep(a) then a + b
    else a + [Sep] + b
  }

  /** The directory a relative path is joined onto: the configured root
      directory, or the current directory when none (or an empty one) is set. */
  function BaseDirectory(rootDirectory: Option<string>): (r: string)
    ensures r != []
    ensures rootDirectory.Some? && rootDirectory.value != [] ==> r == rootDirectory.value
    ensures rootDirectory.None? || rootDirectory.value == [] ==> r == CurDir
  {
    if rootDirectory.None? || rootDirectory.value == [] then CurDir else rootDirectory.value
  }

  /** The path the variables file is read from, given the path after placeholder
      substitution: an absolute path is joined onto the empty root and so kept
      as it is; a relative one is placed under `BaseDirectory(rootDirectory)`. */
  function ResolvePath(definedPath: string, rootDirectory: Option<string>): (r: string)
    ensures IsAbs(definedPath) ==> r == definedPath
    ensures !IsAbs(definedPath) ==>
      var base := BaseDirectory(rootDirectory);
      && |base| + |definedPath| <= |r| <= |base| + |definedPath| + 1
      && r[..|base|] == base
      && r[|r| - |definedPath|..] == definedPath
      && EndsWithSep(r[..|r| - |definedPath|])
      && (EndsWithSep(base) ==> |r| == |base| + |definedPath|)
    ensures IsAbs(r) <==> IsAbs(definedPath) || IsAbs(BaseDirectory(rootDirectory))
  {
    var root := if IsAbs(definedPath) then "" else BaseDirectory(rootDirectory);
    Join(root, definedPath)
  }

  /** A path is absolute exactly when its resolution ignores the root: the
      missing root would otherwise put it under the current directory. */
  lemma AbsoluteExactlyWhenRootIgnored(path: string)
    ensures IsAbs(path) <==> ResolvePath(path, None) == path
    ensures !IsAbs(path) ==> ResolvePath(path, None) == CurDir + [Sep] + path
  {
  }

  /** Under an absolute root every resolved path is absolute, so resolving it
      again changes nothing. */
  lemma ResolveIsIdempotentUnderAbsoluteRoot(definedPath: string, rootDirectory: Option<string>)
    requires rootDirectory.Some? && IsAbs(rootDirectory.value)
    ensures IsAbs(ResolvePath(definedPath, rootDirectory))
    ensures ResolvePath(ResolvePath(definedPath, rootDirectory), rootDirectory)
         == ResolvePath(definedPath, rootDirectory)
  {
  }
}
