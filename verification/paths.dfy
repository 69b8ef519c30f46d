/** The rule every `from` and `to` path of a redirect must follow. */
module Paths {
  import opened GoStrings

  /**
   * `isValidRelativePath`: the path starts with `/` but not with `//`
   * (so it is neither empty, nor relative to the current path, nor
   * protocol-relative); in terms of characters, it is non-empty, its first
   * byte is `/`, and its second byte, if any, is not.
   */
  predicate IsValidRelativePath(path: GoString)
    ensures IsValidRelativePath(path) <==> |path| > 0 && path[0] == '/' && (|path| == 1 || path[1] != '/')
  {
    assert |path| >= 1 ==> path[..1] == [path[0]];
    assert |path| >= 2 ==> path[..2] == [path[0], path[1]];
    HasPrefix(path, "/") && !HasPrefix(path, "//")
  }

  lemma RejectedExamples()
    ensures !IsValidRelativePath("") && !IsValidRelativePath("foo") && !IsValidRelativePath("//x")
    ensures IsValidRelativePath("/") && IsValidRelativePath("/economy/old-path")
  {
  }
}
