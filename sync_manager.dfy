/** The recording transport `MockFTPSync` and the watchdog handler
    `SyncHandler` that drives it, one event at a time. */
module SyncManager {
  import opened Paths
  import opened Reconciliation
  import Scenarios

  /** Records every remote operation it is asked for, in order, in the list
      `operations`, instead of talking to a server. */
  class MockFTPSync {
    /** The watch root, `Path(local_path)`. */
    const localPath: Path
    const remotePath: string
    var operations: seq<Op>

    constructor (localPath: string, remotePath: string)
      ensures this.localPath == Parse(localPath) && this.remotePath == remotePath
      ensures operations == []
    {
      this.localPath := Parse(localPath);
      this.remotePath := remotePath;
      operations := [];
    }

    /** `upload_file`: relativizes the local file itself. A file under the
        root adds one upload record; any other raises before recording. */
    method UploadFile(localFile: string) returns (r: Outcome)
      modifies this
      ensures Recorded(UploadOps(localPath, localFile), old(operations), operations, r)
    {
      var remote := Resolve(localPath, localFile);
      if remote.Err? {
        return Fail(remote.error);
      }
      operations := operations + [Upload(Normalize(localFile), remote.value)];
      r := Pass;
    }

    /** `delete_file`: records the target it is given, unchanged. */
    method DeleteFile(remoteFile: string)
      modifies this
      ensures operations == old(operations) + [Delete(remoteFile)]
    {
      operations := operations + [Delete(remoteFile)];
    }

    /** `create_remote_directory`: records the target it is given, unchanged. */
    method CreateRemoteDirectory(remoteDir: string)
      modifies this
      ensures operations == old(operations) + [CreateDir(remoteDir)]
    {
      operations := operations + [CreateDir(remoteDir)];
    }

    method GetOperations() returns (ops: seq<Op>)
      ensures ops == operations
    {
      ops := operations;
    }

    method ClearOperations()
      modifies this
      ensures operations == []
    {
      operations := [];
    }
  }

  /** Turns each filesystem event into calls on its `MockFTPSync`. Every
      handler method records exactly `Reconcile` of its event after the
      operations already there, or records nothing and reports the error. */
  class SyncHandler {
    const ftpSync: MockFTPSync

    constructor (ftpSync: MockFTPSync)
      ensures this.ftpSync == ftpSync
    {
      this.ftpSync := ftpSync;
    }

    /** `on_created`: a directory is created remotely, a file uploaded. */
    method OnCreated(event: FileSystemEvent) returns (r: Outcome)
      modifies ftpSync
      ensures Recorded(Reconcile(ftpSync.localPath, event.(kind := Created)),
                       old(ftpSync.operations), ftpSync.operations, r)
    {
      if event.isDirectory {
        var relative := Resolve(ftpSync.localPath, event.srcPath);
        if relative.Err? {
          return Fail(relative.error);
        }
        ftpSync.CreateRemoteDirectory(relative.value);
        r := Pass;
      } else {
        r := ftpSync.UploadFile(event.srcPath);
      }
    }

    /** `on_modified`: a file is uploaded again; a directory is ignored. */
    method OnModified(event: FileSystemEvent) returns (r: Outcome)
      modifies ftpSync
      ensures Recorded(Reconcile(ftpSync.localPath, event.(kind := Modified)),
                       old(ftpSync.operations), ftpSync.operations, r)
    {
      if !event.isDirectory {
        r := ftpSync.UploadFile(event.srcPath);
      } else {
        r := Pass;
      }
    }

    /** `on_deleted`: a file is deleted remotely; a directory is ignored,
        since its contents would need a recursive deletion. */
    method OnDeleted(event: FileSystemEvent) returns (r: Outcome)
      modifies ftpSync
      ensures Recorded(Reconcile(ftpSync.localPath, event.(kind := Deleted)),
                       old(ftpSync.operations), ftpSync.operations, r)
    {
      if event.isDirectory {
        r := Pass;
      } else {
        var relative := Resolve(ftpSync.localPath, event.srcPath);
        if relative.Err? {
          return Fail(relative.error);
        }
        ftpSync.DeleteFile(relative.value);
        r := Pass;
      }
    }

    /** `on_moved`: both paths are relativized first; then the source is
        deleted and the destination created (a directory) or uploaded (a
        file). */
    method OnMoved(event: FileSystemEvent) returns (r: Outcome)
      modifies ftpSync
      ensures Recorded(Reconcile(ftpSync.localPath, event.(kind := Moved)),
                       old(ftpSync.operations), ftpSync.operations, r)
    {
      var root := ftpSync.localPath;
      MovedRecords(root, event.(kind := Moved));
      ghost var ops := Reconcile(root, event.(kind := Moved));
      var srcRelative := Resolve(root, event.srcPath);
      if srcRelative.Err? {
        return Fail(srcRelative.error);
      }
      var destRelative := Resolve(root, event.destPath);
      if destRelative.Err? {
        return Fail(destRelative.error);
      }
      ghost var before := ftpSync.operations;
      if event.isDirectory {
        ftpSync.DeleteFile(srcRelative.value);
        ftpSync.CreateRemoteDirectory(destRelative.value);
        assert ftpSync.operations == before + ops.value;
        r := Pass;
      } else {
        ghost var upload := Upload(Normalize(event.destPath), destRelative.value);
        assert UploadOps(root, event.destPath) == Ok([upload]);
        ftpSync.DeleteFile(srcRelative.value);
        r := ftpSync.UploadFile(event.destPath);
        assert ftpSync.operations == before + [Delete(srcRelative.value)] + [upload];
        assert ftpSync.operations == before + ops.value;
      }
    }
  }

  /** The wiring of `test_sync_handler` without its observer thread: a
      recording transport on "/w", a handler over it, and one file moved
      from "/w/old.txt" to "/w/sub/new.txt", delivered by hand. */
  method RecordMove() returns (ops: seq<Op>)
    ensures ops == [Delete("old.txt"), Upload("/w/sub/new.txt", "sub/new.txt")]
  {
    var mock := new MockFTPSync("/w", "/remote/path");
    var handler := new SyncHandler(mock);
    Scenarios.MovedFileIsDeletedThenUploaded();
    var r := handler.OnMoved(FileSystemEvent(Moved, false, "/w/old.txt", "/w/sub/new.txt"));
    ops := mock.GetOperations();
  }
}
