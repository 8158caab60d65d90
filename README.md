# awsfabrictasks utilities in Dafny

This project models the helper module `awsfabrictasks/utils.py`, which has two parts.

The first part is path and flag normalisation. It has four pure functions:
- `force_slashend` adds one trailing `/` when the path has none.
- `force_noslashend` strips every trailing `/`.
- `rsyncformat_path` picks between those two by the rsync convention. A trailing slash on the source means "sync the contents". No trailing slash means "sync the directory itself".
- `parse_bool` reads a boolean configuration flag.

The second part is privileged provisioning. It covers `sudo_chown`, `sudo_chmod`, `sudo_chattr`, `sudo_upload_file`, `sudo_mkdir_p` and the recursive `sudo_upload_dir`. These helpers run remote commands through Fabric's `sudo` and `put`. Here, the remote host is a class `Remote` with a command log (`seq<Command>`). Each primitive appends one structured entry to the log: `Chown`, `Chmod`, `MkdirP` or `Put`. Each helper is a method whose postcondition gives the new log. That log is an append of a specification function: `ChattrCommands`, `UploadFileCommands`, `MkdirCommands` or `UploadDirCommands`. Lemmas state what those functions promise:
- which commands are issued, and under which conditions;
- in what order;
- on which paths;
- that every directory's `mkdir -p` comes before the uploads of its files.

Files:
- `py_values.dfy` (module `PyValues`): the Python values that reach the helpers as flags, owners and modes. It also gives Python's truth test and Python's `==`, including `True == 1`.
- `flags.dfy` (module `Flags`): `parse_bool`.
- `paths.dfy` (module `Paths`): trailing-slash normalisation, `rsyncformat_path` and posix `os.path.join`.
- `provisioning.dfy` (module `Provisioning`): the command log, the specification functions, their lemmas, and the class `Remote` with one method per helper.

`sudo_upload_dir` takes the result of `os.walk(local_dir)` as input. It is a sequence of `WalkEntry(dirpath, rel, filenames)` values. `rel` is `os.path.relpath(dirpath, local_dir)`, which is `"."` for the walk's root. The nested loops of `sudo_upload_dir` are two `while` loops with invariants. The outer one is in `SudoUploadDir`. The inner one is in `UploadFiles`, and `UploadEntry` runs one pass of the outer loop.

## Model

| member | source | states |
|---|---|---|
| Flags.ParseBoolAsWritten | awsfabrictasks/utils.py:84-89 | `data in ('true', 'True', True)` as Python evaluates it. The result is true exactly for 'true', 'True', True and the integer 1, because `in` compares with `==` and `True == 1`. |
| Flags.ParseBoolAsWrittenAcceptsOne | awsfabrictasks/utils.py:89 | The integer 1 is accepted although it is not one of the three documented values. |
| Flags.ParseBool | awsfabrictasks/utils.py:84-89 | Corrected `parse_bool`: true exactly when the value is 'true', 'True' or True, and false for every other value. |
| Flags.ParseBoolAgreesExceptOne | awsfabrictasks/utils.py:89 | The corrected and as-written versions agree on every value except the integer 1. |
| Flags.ParseBoolRejectsLookalikes | awsfabrictasks/utils.py:84-89 | 'TRUE', '1', 'yes', 'false', None, 1 and False are all rejected. |
| Paths.ForceSlashEnd | awsfabrictasks/utils.py:91-98 | The result ends with `/` and starts with the whole path. It is at most one character longer, and that character is `/`. It equals the path exactly when the path already ends with `/`. |
| Paths.ForceSlashEndIdempotent | awsfabrictasks/utils.py:96-98 | Applying `force_slashend` twice gives the same result as applying it once. |
| Paths.RStripSlashes | awsfabrictasks/utils.py:105 | `rstrip('/')` returns a prefix of its input that does not end with `/`. Only slashes follow that prefix in the input. |
| Paths.ForceNoSlashEnd | awsfabrictasks/utils.py:100-106 | The result never ends with `/` and is a prefix of the path. The part removed is all slashes. A path that does not end with `/` comes back unchanged. |
| Paths.ForceNoSlashEndUnique | awsfabrictasks/utils.py:100-106 | Those three properties determine the result: any prefix with them is the result. |
| Paths.ForceNoSlashEndIdempotent | awsfabrictasks/utils.py:104-106 | Applying `force_noslashend` twice gives the same result as applying it once. |
| Paths.ForceNoSlashEndOfSlashes | awsfabrictasks/utils.py:104-105 | A path made only of slashes, including the root `/`, becomes the empty string. |
| Paths.ForceNoSlashEndAppendSlash | awsfabrictasks/utils.py:100-106 | Appending one `/` to a path does not change its `force_noslashend` form. |
| Paths.RsyncFormatPath | awsfabrictasks/utils.py:108-129 | `sync_content` is tested for truthiness, as `if sync_content:` does, so any truthy value selects the contents form, the string "false" included. The result ends with `/` if and only if `sync_content` is truthy. It names the same directory as the source, because the two `force_noslashend` forms agree. With a truthy flag, the result extends the source by at most a slash, and a source already ending with `/` comes back unchanged. With a falsy flag, the result is a prefix of the source followed by slashes only. `sync_content` defaults to False. |
| Paths.RsyncFormatPathDefault | awsfabrictasks/utils.py:108 | Leaving out `sync_content` gives `force_noslashend(source_path)`. |
| Paths.RsyncFormatPathExamples | awsfabrictasks/utils.py:113-119 | The documented `/etc/init.d` example in both modes, and with one or two trailing slashes. The string "false" selects the contents form, and None the directory form. |
| Paths.RsyncFormatPathToDirectory | awsfabrictasks/utils.py:126-129 | Reformatting either mode's output in directory mode gives the directory-mode form of the original path. |
| Paths.JoinAbsoluteOrEmpty | awsfabrictasks/utils.py:74 | `join(a, b)` is `b` when `b` is absolute or `a` is empty. |
| Paths.JoinRelative | awsfabrictasks/utils.py:74 | Joining a relative `b` onto a non-empty `a` gives `force_slashend(a) + b`. So `a` is a prefix and `b` is a suffix, and the part before `b` names the same directory as `a`. |
| Provisioning.ChattrCommandsSpec | awsfabrictasks/utils.py:19-27 | `sudo_chattr` issues a chown if and only if `owner` is truthy, and a chmod if and only if `mode` is truthy. Both values are passed through unchanged, and every command acts on `remote_path`. The count is one per truthy argument, and the chown comes first. |
| Provisioning.ChattrCommandsDefaults | awsfabrictasks/utils.py:19-25 | With neither argument given it issues nothing. With only a non-empty owner it issues a single chown. |
| Provisioning.UploadFileCommandsSpec | awsfabrictasks/utils.py:29-35 | `sudo_upload_file` issues exactly one put, with `use_sudo`, of `local_path` to `remote_path`. The put comes first. Only attribute commands on `remote_path` follow it: exactly `sudo_chattr`'s. |
| Provisioning.MkdirCommandsSpec | awsfabrictasks/utils.py:56-61 | `sudo_mkdir_p` issues exactly one `mkdir -p remote_path` first. Only `sudo_chattr`'s attribute commands on that path follow it. |
| Provisioning.RemoteDirForSpec | awsfabrictasks/utils.py:71-74 | The walk's root (`rel == '.'`) maps to `remote_dir` itself. When `remote_dir` is non-empty and `rel` is relative, as `relpath` returns it, any other directory maps to `remote_dir`, one separating `/` unless `remote_dir` already ends with one, then `rel`. So `remote_dir` is a prefix. |
| Provisioning.FileUploadsSnoc | awsfabrictasks/utils.py:77-81 | Uploading one more file appends that file's upload commands. |
| Provisioning.FileUploadsStep | awsfabrictasks/utils.py:77-81 | The inner loop keeps its invariant across one pass. |
| Provisioning.FileUploadsDone | awsfabrictasks/utils.py:77-81 | When the inner loop ends, all of the directory's files have been uploaded. |
| Provisioning.UploadDirSnoc | awsfabrictasks/utils.py:70-81 | Handling one more walked directory appends that directory's commands. |
| Provisioning.EntryStep | awsfabrictasks/utils.py:71-81 | One pass of the outer loop issues the directory's `sudo_mkdir_p`, then its file uploads. |
| Provisioning.UploadDirStep | awsfabrictasks/utils.py:70-81 | The outer loop keeps its invariant across one pass. |
| Provisioning.UploadDirDone | awsfabrictasks/utils.py:70 | When the outer loop ends, the whole walk has been handled. |
| Provisioning.UploadDirPrefix | awsfabrictasks/utils.py:70-81 | The commands for a prefix of the walk are a prefix of the commands for the whole walk. |
| Provisioning.EntryBlock | awsfabrictasks/utils.py:70-81 | Each walked directory's commands form one contiguous block of the log. The block opens with the `mkdir -p` of that directory's remote path. |
| Provisioning.EntryAt | awsfabrictasks/utils.py:70-81 | Each command in a directory's block appears at the matching position of the whole log. |
| Provisioning.DirStartMonotone | awsfabrictasks/utils.py:70 | Block start positions never decrease along the walk. |
| Provisioning.WalkOrder | awsfabrictasks/utils.py:70-81 | Directories are handled in walk order: an earlier directory's block starts strictly earlier. |
| Provisioning.FileUploadsComplete | awsfabrictasks/utils.py:77-81 | Every listed file is put from `join(local_dirpath, name)` to `join(remote_dirpath, name)`. |
| Provisioning.FileUploadsKeepFront | awsfabrictasks/utils.py:77-81 | Uploading one more file leaves the earlier commands where they were. |
| Provisioning.FileUploadsLast | awsfabrictasks/utils.py:77-81 | The last file's put comes right after the commands for the files before it. |
| Provisioning.FileUploadsSound | awsfabrictasks/utils.py:77-81 | A directory's file uploads create no directory. Every put among them is of a listed file, to its joined remote path. |
| Provisioning.LocateBlockFrom | awsfabrictasks/utils.py:70 | A log position past the block start of walked directory `m` lies in the block of some directory from `m` on. |
| Provisioning.LocateBlock | awsfabrictasks/utils.py:70-81 | Every position of the log lies in the block of some walked directory. |
| Provisioning.BlocksDisjoint | awsfabrictasks/utils.py:70-81 | A position inside one directory's block lies in no later directory's block. |
| Provisioning.BlocksUnique | awsfabrictasks/utils.py:70-81 | No position of the log lies in the blocks of two walked directories. With LocateBlock, each position lies in exactly one block. |
| Provisioning.EntryUploadsListedFile | awsfabrictasks/utils.py:76-81 | Within one directory's block, each listed file is put after the opening `mkdir -p`. |
| Provisioning.FileUploadedAfterItsMkdir | awsfabrictasks/utils.py:70-81 | Each file of each walked directory is put inside that directory's block, after its `mkdir -p`. The put goes to `join(remote_dirpath, filename)`, where `remote_dirpath` is `remote_dir` or `join(remote_dir, rel)`. |
| Provisioning.EntryPutIsListedFile | awsfabrictasks/utils.py:76-81 | Within one directory's block, every put comes after the `mkdir -p` and uploads a listed file. |
| Provisioning.UploadFollowsItsMkdir | awsfabrictasks/utils.py:70-81 | Every put in the log uploads a file of some walked directory, to that directory's remote path. It sits after that directory's `mkdir -p`. |
| Provisioning.EntryMkdirOnlyFirst | awsfabrictasks/utils.py:76-81 | Within one directory's block, only the first command creates a directory. |
| Provisioning.MkdirsAreWalkedDirs | awsfabrictasks/utils.py:70-76 | Every `mkdir -p` in the log is for a walked directory's remote path, and it sits at the start of that directory's block. |
| Provisioning.UploadDirExample | awsfabrictasks/utils.py:64-81 | The tree `root/{a.txt, sub/b.txt}` uploaded to `/srv/www` produces four commands, in order: create `/srv/www`, put `a.txt`, create `/srv/www/sub`, put `sub/b.txt`. |
| Provisioning.Remote.SudoChown | awsfabrictasks/utils.py:7-11 | Appends exactly one chown of `remote_path` to `owner`. |
| Provisioning.Remote.SudoChmod | awsfabrictasks/utils.py:13-17 | Appends exactly one chmod of `remote_path` to `mode`. |
| Provisioning.Remote.SudoChattr | awsfabrictasks/utils.py:19-27 | Appends exactly `ChattrCommands` (see ChattrCommandsSpec). `owner` and `mode` default to None. |
| Provisioning.Remote.SudoUploadFile | awsfabrictasks/utils.py:29-35 | Appends exactly `UploadFileCommands` (see UploadFileCommandsSpec). |
| Provisioning.Remote.SudoMkdirP | awsfabrictasks/utils.py:56-61 | Appends exactly `MkdirCommands` (see MkdirCommandsSpec). |
| Provisioning.Remote.SudoUploadDir | awsfabrictasks/utils.py:64-81 | Appends exactly `UploadDirCommands` for the walk. The lemmas on that function give its order and its paths. |
| Provisioning.Remote.UploadEntry | awsfabrictasks/utils.py:71-81 | One pass of the outer loop. It appends the directory's `mkdir -p` block, then its file uploads, with `remote_dirpath` chosen as at lines 71-74. |
| Provisioning.Remote.UploadFiles | awsfabrictasks/utils.py:77-81 | The inner loop. It appends the upload commands of every listed file, in list order. |

## Left out

- `sudo_upload_string_to_file` (awsfabrictasks/utils.py:37-53): creates, writes and removes a local temporary file. That is file I/O. Its only remote effect is a `sudo_upload_file` of the temporary file, which `Remote.SudoUploadFile` models.
- Fabric's `sudo` and `put`: they run over SSH. Here each is one log entry. Exit statuses, failures and exceptions raised by them are not modelled. The helpers neither catch nor retry anything.
- The shell text of the commands (`chown {owner} {remote_path}` and so on): the log records the command's kind, path and argument, not the formatted string. Quoting and escaping are not modelled.
- `os.walk` and `os.path.relpath`: the walk is an input sequence of `WalkEntry` values. Parents come before their subdirectories because `os.walk` is top-down. That order is a property of the input, not of this code. The model proves that directories are handled in the order given.
- The `local_dir` parameter of `sudo_upload_dir`: it is used only by `os.walk` and `relpath`, so it does not appear in the model.
- `**chattr_kw`: the model admits only `owner` and `mode`, the keywords `sudo_chattr` accepts. Any other keyword is a `TypeError` in Python.
- Float values passed to `parse_bool` (for example `1.0 == True`): `PyValue` has no floats.
- The docstring of `sudo_chattr` says a call is skipped when `owner` or `mode` "is None". The code tests truthiness, so `""`, `0` and `False` skip the call too. The model follows the code.
- `force_noslashend("/")` is `""`: `rstrip` removes the root's only slash as well. The model keeps this behaviour (`Paths.ForceNoSlashEndOfSlashes`). So `rsyncformat_path("/")` is the empty string.

## Findings

| source | as written | input that shows it | evidently intended | confidence | as-written member | corrected member |
|---|---|---|---|---|---|---|
| awsfabrictasks/utils.py:89 | `data in ('true', 'True', True)` compares with `==`, and in Python `1 == True` | `parse_bool(1)` returns True | true only for 'true', 'True' and True, as the docstring lists | low, since callers may pass only strings and booleans; not executed | Flags.ParseBoolAsWrittenAcceptsOne | Flags.ParseBool |
