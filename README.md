# Event-to-operation reconciliation of `sync_manager.py`

This project models the part of the directory-mirroring tool that turns
filesystem events into remote operations. A watchdog handler (`SyncHandler`)
receives one event at a time: created, modified, deleted or moved, for a file
or a directory. It converts the event into calls on a transport. Here the
transport is the recording `MockFTPSync`. Each call appends one record to that
object's `operations` list:

- an upload, with a local path and a remote target;
- a delete, with a remote target;
- a directory creation, with a remote target.

Every remote target is the local path made relative to the watch root with
pathlib's `relative_to`.

Files:

- `paths.dfy`, module `Paths`: pure POSIX paths as pathlib treats them.
  - `Parse` models `Path(s)`. `Render` models `str(p)`. `Normalize` models `str(Path(s))`.
  - `RelativeTo` models `PurePath.relative_to`. It strips the root's segments from the front of the path.
  - `Append` models `root / rel`.
  - Lemmas prove that printing a parsed path and parsing it again gives the same path back, and that `str(Path(s))` is idempotent. Printing a parsed string is not the identity: `"/w/"` prints back as `"/w"`.
  - Lemmas also prove that relativizing and re-joining are inverse.
- `reconciliation.dfy`, module `Reconciliation`: the handler's case table as values.
  - `Resolve(root, s)` is `str(Path(s).relative_to(root))`.
  - `Reconcile(root, event)` is the list of records one event produces, or the error that stops it. It branches on the event kind and on `is_directory`.
  - Lemmas prove what the table promises: when an event fails, how many records it makes, which kinds of record, where their targets point, and that a move is a delete followed by a create.
- `scenarios.dfy`, module `Scenarios`: the table on concrete paths under the root "/w".
- `sync_manager.dfy`, module `SyncManager`: the classes.
  - `MockFTPSync` holds `operations: seq<Op>`. Its methods append to it in place.
  - `SyncHandler` holds its `MockFTPSync`. Each `On…` method is proved to leave `operations` as the old list followed by exactly `Reconcile` of its event. On an error, the method leaves the list unchanged and returns the error.

Modelling choices:

- An exception is a return value. `relative_to` raises `ValueError` for a path outside the root. The model returns `Fail(NotUnderRoot(path, root))` instead. It happens before anything is appended, as in the source.
- Only the effective `delete_file` and `create_remote_directory` are modelled (sync_manager.py:80-94). They record the string they are given unchanged. `upload_file` relativizes its own argument (sync_manager.py:48).
- An event on the watch root itself resolves to "." (`RootTargetsDot`). This is the empty relative path that `relative_to` returns and `str` prints. It is passed through, not rejected, because that is what the code does.
- The model follows the code in four places where the code does not keep a promise one might expect of a mirroring tool:
  - Promise not kept: "remote targets never contain `..`". `relative_to` is lexical, so a ".." segment stays in the path: `/w/../etc` under `/w` gives the target `../etc` (`DotDotIsKept`). `RelativeTo` proves the weaker fact that a target contains ".." only if the local path does.
  - Promise not kept: "an ignored event is signalled". A deleted directory returns normally and records nothing (`pass` at sync_manager.py:123-125), exactly like a success.
  - Promise not kept: "the handler returns the operations it produced". It returns nothing and appends them to the transport's list instead. `Reconcile` is that list as a value, and the methods are proved to append exactly that value.
  - Promise not kept: "the error names the event". The error is the `ValueError` from `relative_to`, naming the path and the root, not the event kind.

## Model

| member | source | states |
|---|---|---|
| `Paths.Split` | sync_manager.py:47 | parsing a path string cuts it at every slash into at least one piece, none containing a slash |
| `Paths.JoinSplit` | sync_manager.py:47 | cutting at slashes loses nothing: re-joining the pieces gives the string back |
| `Paths.SplitJoin` | sync_manager.py:51 | joining slash-free pieces with slashes and cutting again gives the same pieces |
| `Paths.Clean` | sync_manager.py:47 | dropping empty and "." pieces leaves only valid segments, and leaves valid segments untouched; a single piece is kept unless it is empty or "." |
| `Paths.CleanAppend` | sync_manager.py:47 | cleaning goes piece by piece: the pieces kept from a concatenation are those kept from each part, in order. With `Clean`'s single-piece clause this fixes exactly which pieces survive, in order |
| `Paths.Parse` | sync_manager.py:47 | `Path(s)` always yields a well-formed path: no empty, "." or slash-containing segment |
| `Paths.Render` | sync_manager.py:48-51 | `str(p)`: an absolute path prints with a leading "/"; a well-formed path prints non-empty, and then with a leading "/" exactly when it is absolute |
| `Paths.ParseRender` | sync_manager.py:51 | `Path(str(p)) == p` for every parsed path `p` |
| `Paths.Normalize` | sync_manager.py:51 | `str(Path(s))`, the form in which an upload records its local path; its meaning is stated by `NormalizeParses` and `NormalizeIdempotent` |
| `Paths.NormalizeParses` | sync_manager.py:51 | the recorded local path `str(Path(s))` parses to the same path as `s` |
| `Paths.NormalizeIdempotent` | sync_manager.py:51 | `str(Path(...))` is idempotent, so the recorded local path is already in normal form |
| `Paths.StripPrefix` | sync_manager.py:48 | stripping the root's segments succeeds exactly when they begin the path, and what remains completes the path after them |
| `Paths.RelativeTo` | sync_manager.py:48 | `relative_to` succeeds exactly for paths at or below the root with the same anchor; otherwise it fails naming the path and the root. A result is relative, re-joins onto the root to give the path, is well formed, and contains ".." only if the path does |
| `Paths.AppendRelativeTo` | sync_manager.py:48 | `(root / rel).relative_to(root) == rel` for every relative `rel` |
| `Reconciliation.Resolve` | sync_manager.py:111 | `str(Path(s).relative_to(root))` fails exactly when `s` is outside the root, and the error names `Path(s)` and the root. On success it is a non-empty string without a leading slash |
| `Reconciliation.ResolveRejoins` | sync_manager.py:132-133 | a resolved target parses back to a relative path, and joining it onto the root gives `Path(s)` again |
| `Reconciliation.UploadOps` | sync_manager.py:43-54 | `upload_file(s)` succeeds exactly when `s` is under the root and then records a single upload; otherwise it raises naming `Path(s)` and the root |
| `Reconciliation.DeleteOps` | sync_manager.py:127-128 | the relativize-then-`delete_file` step succeeds exactly when `s` is under the root and then records a single deletion; otherwise it raises naming `Path(s)` and the root |
| `Reconciliation.CreateDirOps` | sync_manager.py:111-112 | the relativize-then-`create_remote_directory` step succeeds exactly when `s` is under the root and then records a single directory creation; otherwise it raises naming `Path(s)` and the root |
| `Reconciliation.Reconcile` | sync_manager.py:108-144 | the handler's case table: the records one event appends, or the error that stops it. What it promises is proved by `ReconcileFails`, `ReconcileCount`, `ReconcileKinds`, `ReconcileTargets` and `MovedIsDeleteThenCreate` |
| `Reconciliation.MovedRecords` | sync_manager.py:130-144 | a move whose source is outside the root fails with the source's error even when the destination is outside too; with the source inside, a destination outside fails with the destination's error; with both inside, it records the source's deletion and then the destination's creation or upload |
| `Reconciliation.CreatedRecords` | sync_manager.py:108-114 | a created directory is one directory creation, a created file one upload |
| `Reconciliation.DeletedFileRecords` | sync_manager.py:121-128 | a deleted file is one deletion of its relative path |
| `Reconciliation.FirstOutside` | sync_manager.py:132-133 | finds nothing exactly when every given path is under the root; otherwise finds the position of a path outside the root such that every earlier path is under it, that is the first one |
| `Reconciliation.ReconcileFails` | sync_manager.py:108-144 | an event succeeds when every path the handler relativizes for it is under the root; otherwise it fails with the error naming the first path outside the root, in the order the handler relativizes them (a move's source before its destination). A modified or deleted directory relativizes nothing and never fails |
| `Reconciliation.ReconcileCount` | sync_manager.py:108-144 | a move records two operations; a modified or deleted directory records none; every other event records one |
| `Reconciliation.ReconcileTargets` | sync_manager.py:43-53 | every recorded target is relative and re-joins onto the root to give the event path it stands for (the destination for a move's second record, the source otherwise); an upload's local path parses to that same path |
| `Reconciliation.ReconcileKinds` | sync_manager.py:108-144 | a directory event never uploads and a file event never creates a directory; a move records a delete first and a non-delete second; for other events a delete is recorded exactly for a deletion |
| `Reconciliation.MovedIsDeleteThenCreate` | sync_manager.py:130-144 | a move records exactly what deleting its source as a file and then creating its destination would, all-or-nothing: if either path fails, nothing is recorded |
| `Reconciliation.RootTargetsDot` | sync_manager.py:48 | the watch root itself resolves to "." |
| `Scenarios.CreatedFileUploads` | sync_manager.py:108-114 | a created file `/w/a/b.txt` records exactly `Upload("/w/a/b.txt", "a/b.txt")` |
| `Scenarios.CreatedDirectoryIsCreated` | sync_manager.py:110-112 | a created directory `/w/a/newdir` records exactly `CreateDir("a/newdir")` |
| `Scenarios.DeletedFileIsDeleted` | sync_manager.py:126-128 | a deleted file `/w/a/b.txt` records exactly `Delete("a/b.txt")` |
| `Scenarios.MovedFileIsDeletedThenUploaded` | sync_manager.py:140-144 | a file moved from `/w/old.txt` to `/w/sub/new.txt` records exactly `Delete("old.txt")` and then `Upload("/w/sub/new.txt", "sub/new.txt")` |
| `Scenarios.MoveOutOfRootRecordsNothing` | sync_manager.py:132-133 | a move to `/x`, outside the root, fails on the destination and records nothing, although its source is inside |
| `Scenarios.IgnoredDirectoryEvents` | sync_manager.py:116-125 | modified and deleted directories record nothing and never fail, whatever their paths |
| `Scenarios.TrailingSlashDropped` | sync_manager.py:47 | `Path("/w/")` is the root `/w`: the empty piece after a trailing slash is dropped |
| `Scenarios.DotDotIsKept` | sync_manager.py:48 | `/w/../etc` under `/w` resolves to `../etc`: relativization does not collapse ".." |
| `SyncManager.MockFTPSync.constructor` | sync_manager.py:33-37 | the watch root is `Path(local_path)`, the remote path is stored, and the log starts empty |
| `SyncManager.MockFTPSync.UploadFile` | sync_manager.py:43-54 | a file under the root appends exactly one upload of its normalized path to its relative target, after the earlier records; a file outside the root raises and appends nothing |
| `SyncManager.MockFTPSync.DeleteFile` | sync_manager.py:80-86 | appends exactly one delete record of the given string, unchanged, after the earlier records |
| `SyncManager.MockFTPSync.CreateRemoteDirectory` | sync_manager.py:88-94 | appends exactly one directory-creation record of the given string, unchanged, after the earlier records |
| `SyncManager.MockFTPSync.GetOperations` | sync_manager.py:96-98 | returns the recorded operations, in order |
| `SyncManager.MockFTPSync.ClearOperations` | sync_manager.py:100-102 | resets the log to empty |
| `SyncManager.SyncHandler.constructor` | sync_manager.py:105-106 | the handler drives the transport it is given |
| `SyncManager.SyncHandler.OnCreated` | sync_manager.py:108-114 | appends exactly the created-event operations (one directory creation or one upload), or raises and appends nothing |
| `SyncManager.SyncHandler.OnModified` | sync_manager.py:116-119 | a file appends exactly one upload; a directory leaves the log unchanged |
| `SyncManager.SyncHandler.OnDeleted` | sync_manager.py:121-128 | a file appends exactly one delete of its relative path; a directory leaves the log unchanged |
| `SyncManager.SyncHandler.OnMoved` | sync_manager.py:130-144 | resolves both paths before appending anything, then appends exactly a delete of the source's relative path and a directory creation or upload of the destination; a bad path appends nothing |
| `SyncManager.RecordMove` | sync_manager.py:190-192 | a recording transport and a handler wired as in the test, given one file move, end with exactly the delete and the upload of that move |

## Left out

- `load_config`, the module-level `config` and `global_config`, and `logging.basicConfig` (sync_manager.py:10-30): file I/O and global configuration.
- `connect_ftp` and every `logging.info` call: logging side effects only.
- The first definitions of `delete_file` and `create_remote_directory` (sync_manager.py:56-78): the later definitions override them and they never run.
- `main` (sync_manager.py:146-176): it starts a watchdog `Observer` thread and sleeps until interrupted. It also uses `FTPSync`, which is not part of this model.
- `test_sync_handler` (sync_manager.py:178-210): a temporary directory, an observer thread and an interactive sleep loop. `RecordMove` keeps only its wiring of transport and handler.
- Watchdog's `FileSystemEventHandler.dispatch` is not part of this model. Events are handed to the `On…` methods directly.
- The `isinstance(..., str)` conversions (sync_manager.py:46-47): dynamic typing. Paths enter as strings and are parsed once.
- Path parsing is POSIX only. A path starting with exactly two slashes keeps "//" as its own anchor in pathlib, but the model treats it like "/". Windows drives and case-insensitive comparison are not modelled.
- `SyncManager.MockFTPSync.GetOperations`: it returns the log as a value. Python returns the live list, so a caller's later changes to it would show in the object. That aliasing is not captured.
- Exceptions other than the `ValueError` of `relative_to` are not modelled, for example a non-string path.
