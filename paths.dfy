/**
 Trailing-slash normalisation of paths for rsync (`force_slashend`,
 `force_noslashend`, `rsyncformat_path`) and the posix `os.path.join` the
 upload helpers build remote paths with.
 */
module Paths {
  import opened PyValues

  /** `path.endswith('/')` */
  predicate EndsWithSlash(p: string) {
    |p| > 0 && p[|p| - 1] == '/'
  }

  /** `path.startswith('/')` */
  predicate StartsWithSlash(p: string) {
    |p| > 0 && p[0] == '/'
  }

  /** Every character of `p` from index `k` on is a slash. */
  predicate SlashesFrom(p: string, k: nat) {
    forall i :: k <= i < |p| ==> p[i] == '/'
  }

  /** `force_slashend`: `path` with a `/` appended unless it already ends with one. */
  function ForceSlashEnd(path: string): (r: string)
    ensures EndsWithSlash(r)
    ensures |path| <= |r| <= |path| + 1 && r[..|path|] == path
    ensures r == path <==> EndsWithSlash(path)
    ensures |r| == |path| + 1 ==> r[|path|] == '/'
  {
    if !EndsWithSlash(path) then path + "/" else path
  }

  lemma ForceSlashEndIdempotent(path: string)
    ensures ForceSlashEnd(ForceSlashEnd(path)) == ForceSlashEnd(path)
  {
  }

  /** `s.rstrip('/')`: drops every trailing slash and nothing else. */
  function RStripSlashes(s: string): (r: string)
    ensures |r| <= |s| && r == s[..|r|]
    ensures SlashesFrom(s, |r|)
    ensures !EndsWithSlash(r)
    decreases |s|
  {
    if EndsWithSlash(s) then RStripSlashes(s[..|s| - 1]) else s
  }

  /** `force_noslashend`: `path` with all trailing slashes removed. */
  function ForceNoSlashEnd(path: string): (r: string)
    ensures !EndsWithSlash(r)
    ensures |r| <= |path| && r == path[..|r|]
    ensures SlashesFrom(path, |r|)
    ensures !EndsWithSlash(path) ==> r == path
  {
    if EndsWithSlash(path) then RStripSlashes(path) else path
  }

  /**
   The three properties in ForceNoSlashEnd's contract determine its result:
   the longest prefix not ending with a slash behind which only slashes follow.
   */
  lemma ForceNoSlashEndUnique(path: string, q: string)
    requires |q| <= |path| && q == path[..|q|]
    requires SlashesFrom(path, |q|)
    requires !EndsWithSlash(q)
    ensures q == ForceNoSlashEnd(path)
  {
    var r := ForceNoSlashEnd(path);
    assert |r| > 0 ==> path[|r| - 1] == r[|r| - 1];
    assert |q| > 0 ==> path[|q| - 1] == q[|q| - 1];
    assert |r| <= |q|;
    assert |q| <= |r|;
  }

  lemma ForceNoSlashEndIdempotent(path: string)
    ensures ForceNoSlashEnd(ForceNoSlashEnd(path)) == ForceNoSlashEnd(path)
  {
  }

  /** A path made only of slashes, the root "/" among them, is stripped to the empty string. */
  lemma ForceNoSlashEndOfSlashes(path: string)
    requires SlashesFrom(path, 0)
    ensures ForceNoSlashEnd(path) == ""
  {
    ForceNoSlashEndUnique(path, "");
  }

  /** Appending one slash does not change the directory a path names. */
  lemma ForceNoSlashEndAppendSlash(path: string)
    ensures ForceNoSlashEnd(path + "/") == ForceNoSlashEnd(path)
  {
    var q := ForceNoSlashEnd(path);
    var p' := path + "/";
    assert p'[..|path|] == path;
    assert q == p'[..|q|];
    ForceNoSlashEndUnique(p', q);
  }

  /**
   `rsyncformat_path`: when `syncContent` is truthy (Python's `if sync_content:`)
   the source gets a trailing slash (rsync copies the directory's contents),
   otherwise every trailing slash is removed (rsync copies the directory
   itself). `syncContent` defaults to False.
   */
  function RsyncFormatPath(sourcePath: string, syncContent: PyValue := PyBool(false)): (r: string)
    ensures EndsWithSlash(r) <==> Truthy(syncContent)
    ensures ForceNoSlashEnd(r) == ForceNoSlashEnd(sourcePath)
    ensures Truthy(syncContent) ==> |sourcePath| <= |r| <= |sourcePath| + 1 && r[..|sourcePath|] == sourcePath
    ensures Truthy(syncContent) && EndsWithSlash(sourcePath) ==> r == sourcePath
    ensures !Truthy(syncContent) ==> |r| <= |sourcePath| && r == sourcePath[..|r|] && SlashesFrom(sourcePath, |r|)
  {
    if Truthy(syncContent) then
      ForceNoSlashEndAppendSlash(sourcePath);
      ForceSlashEnd(sourcePath)
    else
      ForceNoSlashEnd(sourcePath)
  }

  /** Leaving out `sync_content` syncs the directory itself. */
  lemma RsyncFormatPathDefault(sourcePath: string)
    ensures RsyncFormatPath(sourcePath) == ForceNoSlashEnd(sourcePath)
  {
  }

  /**
   The worked example of the documentation: `/etc/init.d` into a destination.
   Any truthy flag selects the contents form, the string "false" included;
   any falsy one the directory form.
   */
  lemma RsyncFormatPathExamples()
    ensures RsyncFormatPath("/etc/init.d", PyBool(true)) == "/etc/init.d/"
    ensures RsyncFormatPath("/etc/init.d", PyBool(false)) == "/etc/init.d"
    ensures RsyncFormatPath("/etc/init.d/", PyBool(false)) == "/etc/init.d"
    ensures RsyncFormatPath("/etc/init.d//", PyBool(false)) == "/etc/init.d"
    ensures RsyncFormatPath("/etc/init.d", PyStr("false")) == "/etc/init.d/"
    ensures RsyncFormatPath("/etc/init.d/", PyNone) == "/etc/init.d"
  {
    assert EndsWithSlash("/etc/init.d//");
    assert RStripSlashes("/etc/init.d//") == RStripSlashes("/etc/init.d/");
  }

  /**
   Switching a formatted path to the directory form gives the same path as
   formatting the original: no information about the directory is lost.
   */
  lemma RsyncFormatPathToDirectory(sourcePath: string, syncContent: PyValue)
    ensures RsyncFormatPath(RsyncFormatPath(sourcePath, syncContent), PyBool(false))
         == RsyncFormatPath(sourcePath, PyBool(false))
  {
  }

  /**
   posixpath.join(a, b): an absolute `b` replaces `a`; otherwise `b` is
   appended to `a`, with a `/` between them unless `a` is empty or already
   ends with one.
   */
  function Join(a: string, b: string): string {
    if StartsWithSlash(b) then b
    else if a == "" || EndsWithSlash(a) then a + b
    else a + "/" + b
  }

  /** An absolute second component replaces the first; a relative one joined onto "" stays as it is. */
  lemma JoinAbsoluteOrEmpty(a: string, b: string)
    ensures StartsWithSlash(b) ==> Join(a, b) == b
    ensures a == "" ==> Join(a, b) == b
  {
  }

  /**
   Joining a relative name onto a non-empty directory keeps the directory as
   a prefix, ends with the name, and puts exactly the one separator the
   directory lacked between them.
   */
  lemma JoinRelative(a: string, b: string)
    requires a != "" && !StartsWithSlash(b)
    ensures Join(a, b) == ForceSlashEnd(a) + b
    ensures |Join(a, b)| == |ForceSlashEnd(a)| + |b|
    ensures Join(a, b)[..|a|] == a
    ensures Join(a, b)[|Join(a, b)| - |b|..] == b
    ensures EndsWithSlash(Join(a, b)[..|Join(a, b)| - |b|])
    ensures ForceNoSlashEnd(Join(a, b)[..|Join(a, b)| - |b|]) == ForceNoSlashEnd(a)
  {
    var head := ForceSlashEnd(a);
    assert (head + b)[..|head|] == head;
    assert head[..|a|] == a;
    if head != a {
      ForceNoSlashEndAppendSlash(a);
    }
  }
}
