/**
 The privileged provisioning helpers: attribute fix-up (`sudo_chown`,
 `sudo_chmod`, `sudo_chattr`), single-file upload, directory creation and
 recursive directory upload. The remote primitives `sudo` and `put` are
 recorded as structured entries of a command log instead of being run.
 */
module Provisioning {
  import opened PyValues
  import opened Paths

  /** One remote action; the first three run through `sudo`. */
  datatype Command =
    | Chown(path: string, owner: PyValue)
    | Chmod(path: string, mode: PyValue)
    | MkdirP(path: string)
    | Put(localPath: string, remotePath: string, useSudo: bool)
  {
    /** Changes ownership or permissions rather than creating something. */
    predicate IsAttribute() {
      Chown? || Chmod?
    }

    /** The remote path the command acts on. */
    function Target(): string {
      match this
      case Chown(p, _) => p
      case Chmod(p, _) => p
      case MkdirP(p) => p
      case Put(_, r, _) => r
    }
  }

  /** The `**chattr_kw` forwarded by every upload helper: `owner` and `mode`, both defaulting to None. */
  datatype ChattrArgs = ChattrArgs(owner: PyValue := PyNone, mode: PyValue := PyNone)

  /**
   One triple of `os.walk(local_dir)`: the local directory, its path
   relative to `local_dir` ('.' for `local_dir` itself) and the names of the
   files directly inside it.
   */
  datatype WalkEntry = WalkEntry(dirpath: string, rel: string, filenames: seq<string>)

  /** What `sudo_chattr(path, owner, mode)` issues. */
  function ChattrCommands(path: string, kw: ChattrArgs): seq<Command> {
    (if Truthy(kw.owner) then [Chown(path, kw.owner)] else [])
    + (if Truthy(kw.mode) then [Chmod(path, kw.mode)] else [])
  }

  /**
   `sudo_chattr` changes the owner exactly when `owner` is truthy and the
   mode exactly when `mode` is truthy, passes both through unchanged, acts on
   `path` only, and changes the owner before the mode.
   */
  lemma ChattrCommandsSpec(path: string, kw: ChattrArgs)
    ensures forall c :: c in ChattrCommands(path, kw) ==> c.IsAttribute() && c.Target() == path
    ensures Chown(path, kw.owner) in ChattrCommands(path, kw) <==> Truthy(kw.owner)
    ensures Chmod(path, kw.mode) in ChattrCommands(path, kw) <==> Truthy(kw.mode)
    ensures forall c :: c in ChattrCommands(path, kw) && c.Chown? ==> c.owner == kw.owner
    ensures forall c :: c in ChattrCommands(path, kw) && c.Chmod? ==> c.mode == kw.mode
    ensures |ChattrCommands(path, kw)| == (if Truthy(kw.owner) then 1 else 0) + (if Truthy(kw.mode) then 1 else 0)
    ensures forall i, j ::
              (0 <= i < |ChattrCommands(path, kw)| && 0 <= j < |ChattrCommands(path, kw)|
               && ChattrCommands(path, kw)[i].Chown? && ChattrCommands(path, kw)[j].Chmod?) ==> i < j
  {
  }

  /** With neither owner nor mode given, `sudo_chattr` issues nothing; with only an owner, one chown. */
  lemma ChattrCommandsDefaults(path: string, owner: string)
    ensures ChattrCommands(path, ChattrArgs()) == []
    ensures owner != "" ==> ChattrCommands(path, ChattrArgs(owner := PyStr(owner))) == [Chown(path, PyStr(owner))]
  {
  }

  /** What `sudo_upload_file(local_path, remote_path, **kw)` issues. */
  function UploadFileCommands(localPath: string, remotePath: string, kw: ChattrArgs): seq<Command> {
    [Put(localPath, remotePath, true)] + ChattrCommands(remotePath, kw)
  }

  /**
   `sudo_upload_file` issues one privileged put of `localPath` to
   `remotePath` first, and after it only attribute commands, all on `remotePath`.
   */
  lemma UploadFileCommandsSpec(localPath: string, remotePath: string, kw: ChattrArgs)
    ensures 1 <= |UploadFileCommands(localPath, remotePath, kw)| <= 3
    ensures UploadFileCommands(localPath, remotePath, kw)[0] == Put(localPath, remotePath, true)
    ensures forall i :: 1 <= i < |UploadFileCommands(localPath, remotePath, kw)| ==>
              UploadFileCommands(localPath, remotePath, kw)[i].IsAttribute()
              && UploadFileCommands(localPath, remotePath, kw)[i].Target() == remotePath
    ensures UploadFileCommands(localPath, remotePath, kw)[1..] == ChattrCommands(remotePath, kw)
  {
    ChattrCommandsSpec(remotePath, kw);
  }

  /** What `sudo_mkdir_p(remote_path, **kw)` issues. */
  function MkdirCommands(remotePath: string, kw: ChattrArgs): seq<Command> {
    [MkdirP(remotePath)] + ChattrCommands(remotePath, kw)
  }

  /**
   `sudo_mkdir_p` issues one `mkdir -p remotePath` first, and after it only
   attribute commands, all on `remotePath`.
   */
  lemma MkdirCommandsSpec(remotePath: string, kw: ChattrArgs)
    ensures 1 <= |MkdirCommands(remotePath, kw)| <= 3
    ensures MkdirCommands(remotePath, kw)[0] == MkdirP(remotePath)
    ensures forall i :: 1 <= i < |MkdirCommands(remotePath, kw)| ==>
              MkdirCommands(remotePath, kw)[i].IsAttribute()
              && MkdirCommands(remotePath, kw)[i].Target() == remotePath
    ensures MkdirCommands(remotePath, kw)[1..] == ChattrCommands(remotePath, kw)
  {
    ChattrCommandsSpec(remotePath, kw);
  }

  /**
   The remote directory a walked directory is mirrored to: `remoteDir`
   itself for the walk's root, `join(remoteDir, rel)` for the others.
   */
  function RemoteDirFor(remoteDir: string, rel: string): string {
    if rel == "." then remoteDir else Join(remoteDir, rel)
  }

  /**
   The walk's root is mirrored to `remoteDir` itself; any other directory to
   `remoteDir`, one separating slash, and its relative path, so the local
   nesting is kept under `remoteDir`.
   */
  lemma RemoteDirForSpec(remoteDir: string, rel: string)
    ensures rel == "." ==> RemoteDirFor(remoteDir, rel) == remoteDir
    ensures rel != "." && !StartsWithSlash(rel) && remoteDir != "" ==>
              RemoteDirFor(remoteDir, rel) == ForceSlashEnd(remoteDir) + rel
              && RemoteDirFor(remoteDir, rel)[..|remoteDir|] == remoteDir
  {
    if rel != "." && !StartsWithSlash(rel) && remoteDir != "" {
      JoinRelative(remoteDir, rel);
    }
  }

  /** Uploads of the given files of one walked directory, in order. */
  function FileUploads(localDirpath: string, remoteDirpath: string, names: seq<string>, kw: ChattrArgs): seq<Command>
    decreases |names|
  {
    if names == [] then []
    else
      var name := names[|names| - 1];
      FileUploads(localDirpath, remoteDirpath, names[..|names| - 1], kw)
      + UploadFileCommands(Join(localDirpath, name), Join(remoteDirpath, name), kw)
  }

  /** Uploading one more file of the directory appends that file's commands. */
  lemma FileUploadsSnoc(localDirpath: string, remoteDirpath: string, names: seq<string>, kw: ChattrArgs, j: nat)
    requires j < |names|
    ensures FileUploads(localDirpath, remoteDirpath, names[..j + 1], kw)
         == FileUploads(localDirpath, remoteDirpath, names[..j], kw)
            + UploadFileCommands(Join(localDirpath, names[j]), Join(remoteDirpath, names[j]), kw)
  {
    assert names[..j + 1][..j] == names[..j];
    assert names[..j + 1][j] == names[j];
  }

  /** The inner loop of `sudo_upload_dir` keeps its invariant across one pass. */
  lemma FileUploadsStep(start: seq<Command>, before: seq<Command>, after: seq<Command>,
                        localDirpath: string, remoteDirpath: string, names: seq<string>, kw: ChattrArgs, j: nat)
    requires j < |names|
    requires before == start + FileUploads(localDirpath, remoteDirpath, names[..j], kw)
    requires after == before + UploadFileCommands(Join(localDirpath, names[j]), Join(remoteDirpath, names[j]), kw)
    ensures after == start + FileUploads(localDirpath, remoteDirpath, names[..j + 1], kw)
  {
    FileUploadsSnoc(localDirpath, remoteDirpath, names, kw, j);
    AppendAssoc(start, FileUploads(localDirpath, remoteDirpath, names[..j], kw),
                UploadFileCommands(Join(localDirpath, names[j]), Join(remoteDirpath, names[j]), kw));
  }

  /** When the inner loop of `sudo_upload_dir` stops, every file is uploaded. */
  lemma FileUploadsDone(start: seq<Command>, log: seq<Command>,
                        localDirpath: string, remoteDirpath: string, names: seq<string>, kw: ChattrArgs, j: nat)
    requires j == |names|
    requires log == start + FileUploads(localDirpath, remoteDirpath, names[..j], kw)
    ensures log == start + FileUploads(localDirpath, remoteDirpath, names, kw)
  {
    assert names[..j] == names;
  }

  /** What one iteration of `sudo_upload_dir`'s outer loop issues. */
  function EntryCommands(remoteDir: string, e: WalkEntry, kw: ChattrArgs): seq<Command> {
    var d := RemoteDirFor(remoteDir, e.rel);
    MkdirCommands(d, kw) + FileUploads(e.dirpath, d, e.filenames, kw)
  }

  /** What `sudo_upload_dir` issues for the walk `walk`, in walk order. */
  function UploadDirCommands(remoteDir: string, walk: seq<WalkEntry>, kw: ChattrArgs): seq<Command>
    decreases |walk|
  {
    if walk == [] then []
    else UploadDirCommands(remoteDir, walk[..|walk| - 1], kw) + EntryCommands(remoteDir, walk[|walk| - 1], kw)
  }

  /** Handling one more walked directory appends that directory's commands. */
  lemma UploadDirSnoc(remoteDir: string, walk: seq<WalkEntry>, kw: ChattrArgs, i: nat)
    requires i < |walk|
    ensures UploadDirCommands(remoteDir, walk[..i + 1], kw)
         == UploadDirCommands(remoteDir, walk[..i], kw) + EntryCommands(remoteDir, walk[i], kw)
  {
    assert walk[..i + 1][..i] == walk[..i];
    assert walk[..i + 1][i] == walk[i];
  }

  /** One pass of `sudo_upload_dir`'s outer loop issues the directory's mkdir, then its uploads. */
  lemma EntryStep(start: seq<Command>, made: seq<Command>, after: seq<Command>,
                  remoteDir: string, e: WalkEntry, kw: ChattrArgs, remoteDirpath: string)
    requires remoteDirpath == (if e.rel == "." then remoteDir else Join(remoteDir, e.rel))
    requires made == start + MkdirCommands(remoteDirpath, kw)
    requires after == made + FileUploads(e.dirpath, remoteDirpath, e.filenames, kw)
    ensures after == start + EntryCommands(remoteDir, e, kw)
  {
  }

  /** The outer loop of `sudo_upload_dir` keeps its invariant across one pass. */
  lemma UploadDirStep(start: seq<Command>, before: seq<Command>, after: seq<Command>,
                      remoteDir: string, walk: seq<WalkEntry>, kw: ChattrArgs, i: nat)
    requires i < |walk|
    requires before == start + UploadDirCommands(remoteDir, walk[..i], kw)
    requires after == before + EntryCommands(remoteDir, walk[i], kw)
    ensures after == start + UploadDirCommands(remoteDir, walk[..i + 1], kw)
  {
    UploadDirSnoc(remoteDir, walk, kw, i);
    AppendAssoc(start, UploadDirCommands(remoteDir, walk[..i], kw), EntryCommands(remoteDir, walk[i], kw));
  }

  /** Concatenation of command logs is associative. */
  lemma AppendAssoc(a: seq<Command>, b: seq<Command>, c: seq<Command>)
    ensures a + b + c == a + (b + c)
  {
  }

  /** When the outer loop of `sudo_upload_dir` stops, the whole walk is done. */
  lemma UploadDirDone(start: seq<Command>, log: seq<Command>,
                      remoteDir: string, walk: seq<WalkEntry>, kw: ChattrArgs, i: nat)
    requires i == |walk|
    requires log == start + UploadDirCommands(remoteDir, walk[..i], kw)
    ensures log == start + UploadDirCommands(remoteDir, walk, kw)
  {
    assert walk[..i] == walk;
  }

  /** Where the commands of the `k`-th walked directory begin in the log. */
  function DirStart(remoteDir: string, walk: seq<WalkEntry>, kw: ChattrArgs, k: nat): nat
    requires k <= |walk|
  {
    |UploadDirCommands(remoteDir, walk[..k], kw)|
  }

  /** Log position `b` falls inside the block of the `k`-th walked directory. */
  predicate InBlock(remoteDir: string, walk: seq<WalkEntry>, kw: ChattrArgs, k: nat, b: nat)
    requires k < |walk|
  {
    DirStart(remoteDir, walk, kw, k) <= b < DirStart(remoteDir, walk, kw, k + 1)
  }

  /** Log position `b` lies in the block of the `k`-th walked directory, after the block's opening command. */
  predicate AfterBlockStart(remoteDir: string, walk: seq<WalkEntry>, kw: ChattrArgs, k: nat, b: nat)
    requires k < |walk|
  {
    DirStart(remoteDir, walk, kw, k) < b < DirStart(remoteDir, walk, kw, k + 1)
  }

  /** The commands for a prefix of the walk are a prefix of the commands for the whole walk. */
  lemma {:induction false} UploadDirPrefix(remoteDir: string, walk: seq<WalkEntry>, kw: ChattrArgs, k: nat)
    requires k <= |walk|
    ensures |UploadDirCommands(remoteDir, walk[..k], kw)| <= |UploadDirCommands(remoteDir, walk, kw)|
    ensures UploadDirCommands(remoteDir, walk, kw)[..|UploadDirCommands(remoteDir, walk[..k], kw)|]
         == UploadDirCommands(remoteDir, walk[..k], kw)
    decreases |walk|
  {
    if k < |walk| {
      var init := walk[..|walk| - 1];
      assert init[..k] == walk[..k];
      UploadDirPrefix(remoteDir, init, kw, k);
      var whole := UploadDirCommands(remoteDir, walk, kw);
      var front := UploadDirCommands(remoteDir, init, kw);
      assert whole == front + EntryCommands(remoteDir, walk[|walk| - 1], kw);
      assert whole[..|front|] == front;
    } else {
      assert walk[..k] == walk;
    }
  }

  /**
   The `k`-th walked directory's commands sit in one block of the log, at
   DirStart, and the block opens with the `mkdir -p` of its remote directory.
   */
  lemma EntryBlock(remoteDir: string, walk: seq<WalkEntry>, kw: ChattrArgs, k: nat)
    requires k < |walk|
    ensures DirStart(remoteDir, walk, kw, k) + |EntryCommands(remoteDir, walk[k], kw)|
         == DirStart(remoteDir, walk, kw, k + 1)
         <= |UploadDirCommands(remoteDir, walk, kw)|
    ensures UploadDirCommands(remoteDir, walk, kw)
              [DirStart(remoteDir, walk, kw, k)..DirStart(remoteDir, walk, kw, k + 1)]
         == EntryCommands(remoteDir, walk[k], kw)
    ensures UploadDirCommands(remoteDir, walk, kw)[DirStart(remoteDir, walk, kw, k)]
         == MkdirP(RemoteDirFor(remoteDir, walk[k].rel))
  {
    var upto := walk[..k + 1];
    assert upto[..k] == walk[..k];
    assert upto[k] == walk[k];
    var block := UploadDirCommands(remoteDir, upto, kw);
    assert block == UploadDirCommands(remoteDir, walk[..k], kw) + EntryCommands(remoteDir, walk[k], kw);
    UploadDirPrefix(remoteDir, walk, kw, k + 1);
    var s := DirStart(remoteDir, walk, kw, k);
    var whole := UploadDirCommands(remoteDir, walk, kw);
    assert whole[..|block|] == block;
    assert whole[s..|block|] == block[s..];
    var d := RemoteDirFor(remoteDir, walk[k].rel);
    var mk := MkdirCommands(d, kw);
    assert block[s..] == mk + FileUploads(walk[k].dirpath, d, walk[k].filenames, kw);
    assert whole[s] == block[s..][0] == mk[0];
  }

  /** The `i`-th command of the `k`-th directory's block, located in the whole log. */
  lemma EntryAt(remoteDir: string, walk: seq<WalkEntry>, kw: ChattrArgs, k: nat, i: nat)
    requires k < |walk| && i < |EntryCommands(remoteDir, walk[k], kw)|
    ensures InBlock(remoteDir, walk, kw, k, DirStart(remoteDir, walk, kw, k) + i)
    ensures DirStart(remoteDir, walk, kw, k) + i < |UploadDirCommands(remoteDir, walk, kw)|
    ensures UploadDirCommands(remoteDir, walk, kw)[DirStart(remoteDir, walk, kw, k) + i]
         == EntryCommands(remoteDir, walk[k], kw)[i]
  {
    EntryBlock(remoteDir, walk, kw, k);
    var s, s' := DirStart(remoteDir, walk, kw, k), DirStart(remoteDir, walk, kw, k + 1);
    var whole := UploadDirCommands(remoteDir, walk, kw);
    assert whole[s..s'][i] == whole[s + i];
  }

  /** Block starts never decrease along the walk. */
  lemma DirStartMonotone(remoteDir: string, walk: seq<WalkEntry>, kw: ChattrArgs, i: nat, j: nat)
    requires i <= j <= |walk|
    ensures DirStart(remoteDir, walk, kw, i) <= DirStart(remoteDir, walk, kw, j)
  {
    var upto := walk[..j];
    assert upto[..i] == walk[..i];
    UploadDirPrefix(remoteDir, upto, kw, i);
  }

  /** Directories are handled in walk order: an earlier directory's block starts earlier. */
  lemma WalkOrder(remoteDir: string, walk: seq<WalkEntry>, kw: ChattrArgs, k1: nat, k2: nat)
    requires k1 < k2 < |walk|
    ensures DirStart(remoteDir, walk, kw, k1) < DirStart(remoteDir, walk, kw, k2)
  {
    EntryBlock(remoteDir, walk, kw, k1);
    var d := RemoteDirFor(remoteDir, walk[k1].rel);
    assert |EntryCommands(remoteDir, walk[k1], kw)| >= |MkdirCommands(d, kw)|;
    DirStartMonotone(remoteDir, walk, kw, k1 + 1, k2);
  }

  /** Each listed file is put from `join(localDirpath, name)` to `join(remoteDirpath, name)`. */
  lemma {:induction false} FileUploadsComplete(localDirpath: string, remoteDirpath: string, names: seq<string>, kw: ChattrArgs, j: nat)
    requires j < |names|
    ensures exists b :: 0 <= b < |FileUploads(localDirpath, remoteDirpath, names, kw)|
                        && FileUploads(localDirpath, remoteDirpath, names, kw)[b]
                           == Put(Join(localDirpath, names[j]), Join(remoteDirpath, names[j]), true)
    decreases |names|
  {
    var init := names[..|names| - 1];
    if j < |init| {
      FileUploadsComplete(localDirpath, remoteDirpath, init, kw, j);
      var b :| 0 <= b < |FileUploads(localDirpath, remoteDirpath, init, kw)|
               && FileUploads(localDirpath, remoteDirpath, init, kw)[b]
                  == Put(Join(localDirpath, init[j]), Join(remoteDirpath, init[j]), true);
      FileUploadsKeepFront(localDirpath, remoteDirpath, names, kw, b);
      assert init[j] == names[j];
    } else {
      FileUploadsLast(localDirpath, remoteDirpath, names, kw);
    }
  }

  /** Uploading one more file leaves the earlier uploads where they were. */
  lemma FileUploadsKeepFront(localDirpath: string, remoteDirpath: string, names: seq<string>, kw: ChattrArgs, b: nat)
    requires names != [] && b < |FileUploads(localDirpath, remoteDirpath, names[..|names| - 1], kw)|
    ensures b < |FileUploads(localDirpath, remoteDirpath, names, kw)|
    ensures FileUploads(localDirpath, remoteDirpath, names, kw)[b]
         == FileUploads(localDirpath, remoteDirpath, names[..|names| - 1], kw)[b]
  {
  }

  /** The last file's put comes right after the uploads of the files before it. */
  lemma FileUploadsLast(localDirpath: string, remoteDirpath: string, names: seq<string>, kw: ChattrArgs)
    requires names != []
    ensures |FileUploads(localDirpath, remoteDirpath, names[..|names| - 1], kw)| < |FileUploads(localDirpath, remoteDirpath, names, kw)|
    ensures FileUploads(localDirpath, remoteDirpath, names, kw)[|FileUploads(localDirpath, remoteDirpath, names[..|names| - 1], kw)|]
         == Put(Join(localDirpath, names[|names| - 1]), Join(remoteDirpath, names[|names| - 1]), true)
  {
    var name := names[|names| - 1];
    UploadFileCommandsSpec(Join(localDirpath, name), Join(remoteDirpath, name), kw);
  }

  /** The uploads for one directory's files create no directory, and every put among them is of a listed file. */
  lemma {:induction false} FileUploadsSound(localDirpath: string, remoteDirpath: string, names: seq<string>, kw: ChattrArgs, b: nat)
    requires b < |FileUploads(localDirpath, remoteDirpath, names, kw)|
    ensures !FileUploads(localDirpath, remoteDirpath, names, kw)[b].MkdirP?
    ensures FileUploads(localDirpath, remoteDirpath, names, kw)[b].Put? ==>
              exists j :: 0 <= j < |names| && FileUploads(localDirpath, remoteDirpath, names, kw)[b]
                                              == Put(Join(localDirpath, names[j]), Join(remoteDirpath, names[j]), true)
    decreases |names|
  {
    var init, name := names[..|names| - 1], names[|names| - 1];
    var front := FileUploads(localDirpath, remoteDirpath, init, kw);
    var tail := UploadFileCommands(Join(localDirpath, name), Join(remoteDirpath, name), kw);
    var all := FileUploads(localDirpath, remoteDirpath, names, kw);
    assert all == front + tail;
    if b < |front| {
      assert all[b] == front[b];
      FileUploadsSound(localDirpath, remoteDirpath, init, kw, b);
      if front[b].Put? {
        var j :| 0 <= j < |init| && front[b] == Put(Join(localDirpath, init[j]), Join(remoteDirpath, init[j]), true);
        assert init[j] == names[j];
      }
    } else {
      var i := b - |front|;
      assert all[b] == tail[i];
      UploadFileCommandsSpec(Join(localDirpath, name), Join(remoteDirpath, name), kw);
      assert tail[i].Put? ==> i == 0;
    }
  }

  /** Searching the blocks from the `m`-th on finds the one holding `b`. */
  lemma {:induction false} LocateBlockFrom(remoteDir: string, walk: seq<WalkEntry>, kw: ChattrArgs, b: nat, m: nat)
    requires m <= |walk| && DirStart(remoteDir, walk, kw, m) <= b < DirStart(remoteDir, walk, kw, |walk|)
    ensures exists k :: m <= k < |walk| && InBlock(remoteDir, walk, kw, k, b)
    decreases |walk| - m
  {
    if b < DirStart(remoteDir, walk, kw, m + 1) {
      assert InBlock(remoteDir, walk, kw, m, b);
    } else {
      LocateBlockFrom(remoteDir, walk, kw, b, m + 1);
    }
  }

  /** A log position inside one directory's block lies in no later directory's block. */
  lemma BlocksDisjoint(remoteDir: string, walk: seq<WalkEntry>, kw: ChattrArgs, k1: nat, k2: nat, b: nat)
    requires k1 < k2 < |walk| && InBlock(remoteDir, walk, kw, k1, b)
    ensures !InBlock(remoteDir, walk, kw, k2, b)
  {
    DirStartMonotone(remoteDir, walk, kw, k1 + 1, k2);
  }

  /** Every entry of the log belongs to the block of some walked directory. */
  lemma LocateBlock(remoteDir: string, walk: seq<WalkEntry>, kw: ChattrArgs, b: nat)
    requires b < |UploadDirCommands(remoteDir, walk, kw)|
    ensures exists k :: 0 <= k < |walk| && InBlock(remoteDir, walk, kw, k, b)
  {
    assert walk[..0] == [];
    assert walk[..|walk|] == walk;
    LocateBlockFrom(remoteDir, walk, kw, b, 0);
  }

  /** The blocks do not overlap: no log position lies in the blocks of two walked directories. */
  lemma BlocksUnique(remoteDir: string, walk: seq<WalkEntry>, kw: ChattrArgs, b: nat)
    ensures forall k1, k2 :: 0 <= k1 < k2 < |walk| && InBlock(remoteDir, walk, kw, k1, b)
                             ==> !InBlock(remoteDir, walk, kw, k2, b)
  {
    forall k1, k2 | 0 <= k1 < k2 < |walk| && InBlock(remoteDir, walk, kw, k1, b)
      ensures !InBlock(remoteDir, walk, kw, k2, b)
    {
      BlocksDisjoint(remoteDir, walk, kw, k1, k2, b);
    }
  }

  /**
   Each file of each walked directory is uploaded inside that directory's
   block, after the block's opening `mkdir -p`.
   */
  lemma FileUploadedAfterItsMkdir(remoteDir: string, walk: seq<WalkEntry>, kw: ChattrArgs, k: nat, j: nat)
    requires k < |walk| && j < |walk[k].filenames|
    ensures exists b: nat :: AfterBlockStart(remoteDir, walk, kw, k, b)
                        && b < |UploadDirCommands(remoteDir, walk, kw)|
                        && UploadDirCommands(remoteDir, walk, kw)[b]
                           == Put(Join(walk[k].dirpath, walk[k].filenames[j]),
                                  Join(RemoteDirFor(remoteDir, walk[k].rel), walk[k].filenames[j]), true)
  {
    var e := walk[k];
    EntryUploadsListedFile(remoteDir, e, kw, j);
    var i :| 0 < i < |EntryCommands(remoteDir, e, kw)|
             && EntryCommands(remoteDir, e, kw)[i]
                == Put(Join(e.dirpath, e.filenames[j]), Join(RemoteDirFor(remoteDir, e.rel), e.filenames[j]), true);
    EntryBlock(remoteDir, walk, kw, k);
    EntryAt(remoteDir, walk, kw, k, i);
    var b := DirStart(remoteDir, walk, kw, k) + i;
    assert AfterBlockStart(remoteDir, walk, kw, k, b);
  }

  /** Inside one directory's commands, each listed file is put after the `mkdir -p`. */
  lemma EntryUploadsListedFile(remoteDir: string, e: WalkEntry, kw: ChattrArgs, j: nat)
    requires j < |e.filenames|
    ensures exists i :: 0 < i < |EntryCommands(remoteDir, e, kw)|
                        && EntryCommands(remoteDir, e, kw)[i]
                           == Put(Join(e.dirpath, e.filenames[j]), Join(RemoteDirFor(remoteDir, e.rel), e.filenames[j]), true)
  {
    var d := RemoteDirFor(remoteDir, e.rel);
    var mk := MkdirCommands(d, kw);
    var fu := FileUploads(e.dirpath, d, e.filenames, kw);
    var entry := EntryCommands(remoteDir, e, kw);
    assert entry == mk + fu;
    MkdirCommandsSpec(d, kw);
    FileUploadsComplete(e.dirpath, d, e.filenames, kw, j);
    var i :| 0 <= i < |fu| && fu[i] == Put(Join(e.dirpath, e.filenames[j]), Join(d, e.filenames[j]), true);
    assert entry[|mk| + i] == fu[i];
  }

  /** Inside one directory's commands, a put comes after the `mkdir -p` and uploads a listed file. */
  lemma EntryPutIsListedFile(remoteDir: string, e: WalkEntry, kw: ChattrArgs, i: nat)
    requires i < |EntryCommands(remoteDir, e, kw)| && EntryCommands(remoteDir, e, kw)[i].Put?
    ensures 0 < i
    ensures exists j :: 0 <= j < |e.filenames|
                        && EntryCommands(remoteDir, e, kw)[i]
                           == Put(Join(e.dirpath, e.filenames[j]), Join(RemoteDirFor(remoteDir, e.rel), e.filenames[j]), true)
  {
    var d := RemoteDirFor(remoteDir, e.rel);
    var mk := MkdirCommands(d, kw);
    var fu := FileUploads(e.dirpath, d, e.filenames, kw);
    var entry := EntryCommands(remoteDir, e, kw);
    assert entry == mk + fu;
    MkdirCommandsSpec(d, kw);
    assert entry[i] == fu[i - |mk|];
    FileUploadsSound(e.dirpath, d, e.filenames, kw, i - |mk|);
  }

  /**
   Conversely, every upload in the log is the upload of a walked file, made
   inside its directory's block and hence after that directory's `mkdir -p`.
   */
  lemma UploadFollowsItsMkdir(remoteDir: string, walk: seq<WalkEntry>, kw: ChattrArgs, b: nat)
    requires b < |UploadDirCommands(remoteDir, walk, kw)| && UploadDirCommands(remoteDir, walk, kw)[b].Put?
    ensures exists k, j :: 0 <= k < |walk| && 0 <= j < |walk[k].filenames|
                           && AfterBlockStart(remoteDir, walk, kw, k, b)
                           && UploadDirCommands(remoteDir, walk, kw)[b]
                              == Put(Join(walk[k].dirpath, walk[k].filenames[j]),
                                     Join(RemoteDirFor(remoteDir, walk[k].rel), walk[k].filenames[j]), true)
  {
    LocateBlock(remoteDir, walk, kw, b);
    var k :| 0 <= k < |walk| && InBlock(remoteDir, walk, kw, k, b);
    var e := walk[k];
    var i := b - DirStart(remoteDir, walk, kw, k);
    EntryBlock(remoteDir, walk, kw, k);
    EntryAt(remoteDir, walk, kw, k, i);
    EntryPutIsListedFile(remoteDir, e, kw, i);
    var j :| 0 <= j < |e.filenames|
             && EntryCommands(remoteDir, e, kw)[i]
                == Put(Join(e.dirpath, e.filenames[j]), Join(RemoteDirFor(remoteDir, e.rel), e.filenames[j]), true);
    assert AfterBlockStart(remoteDir, walk, kw, k, b);
  }

  /**
   Uploading the tree `root/{a.txt, sub/b.txt}` to `/srv/www` with no owner
   or mode creates `/srv/www`, uploads `a.txt` into it, creates
   `/srv/www/sub`, then uploads `sub/b.txt` into that.
   */
  lemma UploadDirExample()
    ensures UploadDirCommands("/srv/www",
              [WalkEntry("root", ".", ["a.txt"]), WalkEntry("root/sub", "sub", ["b.txt"])], ChattrArgs())
         == [MkdirP("/srv/www"), Put("root/a.txt", "/srv/www/a.txt", true),
             MkdirP("/srv/www/sub"), Put("root/sub/b.txt", "/srv/www/sub/b.txt", true)]
  {
    var kw := ChattrArgs();
    var e0, e1 := WalkEntry("root", ".", ["a.txt"]), WalkEntry("root/sub", "sub", ["b.txt"]);
    var walk := [e0, e1];
    assert EntryCommands("/srv/www", e0, kw) == [MkdirP("/srv/www"), Put("root/a.txt", "/srv/www/a.txt", true)] by {
      assert ["a.txt"][..0] == [];
      assert Join("root", "a.txt") == "root/a.txt";
      assert Join("/srv/www", "a.txt") == "/srv/www/a.txt";
    }
    assert EntryCommands("/srv/www", e1, kw) == [MkdirP("/srv/www/sub"), Put("root/sub/b.txt", "/srv/www/sub/b.txt", true)] by {
      assert ["b.txt"][..0] == [];
      assert Join("/srv/www", "sub") == "/srv/www/sub";
      assert Join("root/sub", "b.txt") == "root/sub/b.txt";
      assert Join("/srv/www/sub", "b.txt") == "/srv/www/sub/b.txt";
    }
    assert UploadDirCommands("/srv/www", walk[..1], kw) == EntryCommands("/srv/www", e0, kw) by {
      assert walk[..1][..0] == [];
    }
    assert walk[..1] == walk[..|walk| - 1];
  }

  /** Within one directory's block, only the first command creates a directory. */
  lemma EntryMkdirOnlyFirst(remoteDir: string, e: WalkEntry, kw: ChattrArgs, i: nat)
    ensures 0 < i < |EntryCommands(remoteDir, e, kw)| ==> !EntryCommands(remoteDir, e, kw)[i].MkdirP?
  {
    var d := RemoteDirFor(remoteDir, e.rel);
    var mk := MkdirCommands(d, kw);
    var fu := FileUploads(e.dirpath, d, e.filenames, kw);
    var entry := EntryCommands(remoteDir, e, kw);
    assert entry == mk + fu;
    if 0 < i < |entry| {
      if i < |mk| {
        MkdirCommandsSpec(d, kw);
        assert entry[i] == mk[i];
      } else {
        assert entry[i] == fu[i - |mk|];
        FileUploadsSound(e.dirpath, d, e.filenames, kw, i - |mk|);
      }
    }
  }

  /** The only directories created are the walked ones, each at the start of its block. */
  lemma MkdirsAreWalkedDirs(remoteDir: string, walk: seq<WalkEntry>, kw: ChattrArgs, b: nat)
    requires b < |UploadDirCommands(remoteDir, walk, kw)| && UploadDirCommands(remoteDir, walk, kw)[b].MkdirP?
    ensures exists k :: 0 <= k < |walk| && b == DirStart(remoteDir, walk, kw, k)
                        && UploadDirCommands(remoteDir, walk, kw)[b] == MkdirP(RemoteDirFor(remoteDir, walk[k].rel))
  {
    LocateBlock(remoteDir, walk, kw, b);
    var k :| 0 <= k < |walk| && InBlock(remoteDir, walk, kw, k, b);
    var i := b - DirStart(remoteDir, walk, kw, k);
    EntryBlock(remoteDir, walk, kw, k);
    EntryAt(remoteDir, walk, kw, k, i);
    EntryMkdirOnlyFirst(remoteDir, walk[k], kw, i);
    assert i == 0;
    assert b == DirStart(remoteDir, walk, kw, k);
  }

  /** The remote host, seen through the log of the privileged commands issued to it. */
  class Remote {
    var log: seq<Command>

    constructor ()
      ensures log == []
    {
      log := [];
    }

    /** `sudo_chown`: `sudo chown <owner> <remote_path>`. */
    method SudoChown(remotePath: string, owner: PyValue)
      modifies this
      ensures log == old(log) + [Chown(remotePath, owner)]
    {
      log := log + [Chown(remotePath, owner)];
    }

    /** `sudo_chmod`: `sudo chmod <mode> <remote_path>`. */
    method SudoChmod(remotePath: string, mode: PyValue)
      modifies this
      ensures log == old(log) + [Chmod(remotePath, mode)]
    {
      log := log + [Chmod(remotePath, mode)];
    }

    /** `sudo_chattr`: chown if `owner` is truthy, then chmod if `mode` is truthy. */
    method SudoChattr(remotePath: string, owner: PyValue := PyNone, mode: PyValue := PyNone)
      modifies this
      ensures log == old(log) + ChattrCommands(remotePath, ChattrArgs(owner, mode))
    {
      if Truthy(owner) {
        SudoChown(remotePath, owner);
      }
      if Truthy(mode) {
        SudoChmod(remotePath, mode);
      }
    }

    /** `sudo_upload_file`: a put with `use_sudo=True`, then `sudo_chattr` on the destination. */
    method SudoUploadFile(localPath: string, remotePath: string, kw: ChattrArgs := ChattrArgs())
      modifies this
      ensures log == old(log) + UploadFileCommands(localPath, remotePath, kw)
    {
      log := log + [Put(localPath, remotePath, true)];
      SudoChattr(remotePath, kw.owner, kw.mode);
    }

    /** `sudo_mkdir_p`: `sudo mkdir -p <remote_path>`, then `sudo_chattr` on it. */
    method SudoMkdirP(remotePath: string, kw: ChattrArgs := ChattrArgs())
      modifies this
      ensures log == old(log) + MkdirCommands(remotePath, kw)
    {
      log := log + [MkdirP(remotePath)];
      SudoChattr(remotePath, kw.owner, kw.mode);
    }

    /**
     `sudo_upload_dir`: for each triple of the walk, in order, create the
     mirrored remote directory and upload the directory's files into it.
     */
    method SudoUploadDir(remoteDir: string, walk: seq<WalkEntry>, kw: ChattrArgs := ChattrArgs())
      modifies this
      ensures log == old(log) + UploadDirCommands(remoteDir, walk, kw)
    {
      var i := 0;
      while i < |walk|
        invariant 0 <= i <= |walk|
        invariant log == old(log) + UploadDirCommands(remoteDir, walk[..i], kw)
      {
        ghost var before := log;
        UploadEntry(remoteDir, walk[i], kw);
        UploadDirStep(old(log), before, log, remoteDir, walk, kw, i);
        i := i + 1;
      }
      UploadDirDone(old(log), log, remoteDir, walk, kw, i);
    }

    /** One pass of `sudo_upload_dir`'s loop: mirror one walked directory. */
    method UploadEntry(remoteDir: string, e: WalkEntry, kw: ChattrArgs)
      modifies this
      ensures log == old(log) + EntryCommands(remoteDir, e, kw)
    {
      var remoteDirpath := remoteDir;
      if e.rel != "." {
        remoteDirpath := Join(remoteDir, e.rel);
      }
      ghost var start := log;
      SudoMkdirP(remoteDirpath, kw);
      ghost var made := log;
      UploadFiles(e.dirpath, remoteDirpath, e.filenames, kw);
      EntryStep(start, made, log, remoteDir, e, kw, remoteDirpath);
    }

    /** The inner loop of `sudo_upload_dir`: upload each file of one walked directory. */
    method UploadFiles(localDirpath: string, remoteDirpath: string, names: seq<string>, kw: ChattrArgs)
      modifies this
      ensures log == old(log) + FileUploads(localDirpath, remoteDirpath, names, kw)
    {
      var j := 0;
      while j < |names|
        invariant 0 <= j <= |names|
        invariant log == old(log) + FileUploads(localDirpath, remoteDirpath, names[..j], kw)
      {
        var name := names[j];
        ghost var before := log;
        SudoUploadFile(Join(localDirpath, name), Join(remoteDirpath, name), kw);
        FileUploadsStep(old(log), before, log, localDirpath, remoteDirpath, names, kw, j);
        j := j + 1;
      }
      FileUploadsDone(old(log), log, localDirpath, remoteDirpath, names, kw, j);
    }
  }
}
