/** The event-to-operation table of `SyncHandler`: which remote operations
    one filesystem event turns into, as values. The handler's methods in
    module SyncManager record exactly these operations. */
module Reconciliation {
  import opened Paths

  /** One record of `MockFTPSync.operations`: the dictionaries of type
      'upload', 'delete' and 'create_dir'. */
  datatype Op =
    | Upload(local: string, remote: string)
    | Delete(remote: string)
    | CreateDir(remote: string)

  /** The handler method a watchdog event is delivered to. */
  datatype EventKind = Created | Modified | Deleted | Moved

  /** A watchdog event: its kind, `is_directory`, `src_path`, and
      `dest_path`, which only a move carries a meaningful value in. */
  datatype FileSystemEvent =
    FileSystemEvent(kind: EventKind, isDirectory: bool, srcPath: string, destPath: string)

  /** How a handler call ends: a normal return, or the `ValueError` raised
      by `relative_to` for a path outside the watch root. */
  datatype Outcome = Pass | Fail(error: PathError)

  /** `str(Path(s).relative_to(root))`: the remote target of a local path.
      It fails exactly for the paths outside the root; `ResolveRejoins`
      shows that a target re-joins onto the root to give the parsed path. */
  function Resolve(root: Path, s: string): (r: Result<string>)
    ensures r.Ok? <==> IsUnder(Parse(s), root)
    ensures r.Err? ==> r.error == NotUnderRoot(Parse(s), root)
    ensures r.Ok? ==> |r.value| > 0 && r.value[0] != '/'
  {
    match RelativeTo(Parse(s), root)
    case Err(e) => Err(e)
    case Ok(rel) => Ok(Render(rel))
  }

  /** A resolved target parses to a relative path that re-joins onto the
      root to give the parsed local path back. */
  lemma ResolveRejoins(root: Path, s: string)
    requires Resolve(root, s).Ok?
    ensures !Parse(Resolve(root, s).value).absolute
    ensures Append(root, Parse(Resolve(root, s).value)) == Parse(s)
  {
    ParseRender(RelativeTo(Parse(s), root).value);
  }

  /** `upload_file(s)`: one upload of the local path, in normal form, to
      its root-relative target; a path outside the root records nothing. */
  function UploadOps(root: Path, s: string): (r: Result<seq<Op>>)
    ensures r.Ok? <==> IsUnder(Parse(s), root)
    ensures r.Err? ==> r.error == NotUnderRoot(Parse(s), root)
    ensures r.Ok? ==> |r.value| == 1 && r.value[0].Upload?
  {
    match Resolve(root, s)
    case Err(e) => Err(e)
    case Ok(remote) => Ok([Upload(Normalize(s), remote)])
  }

  /** `delete_file` of the relativized path: one deletion of the target
      that re-joins onto the root to give the local path. */
  function DeleteOps(root: Path, s: string): (r: Result<seq<Op>>)
    ensures r.Ok? <==> IsUnder(Parse(s), root)
    ensures r.Err? ==> r.error == NotUnderRoot(Parse(s), root)
    ensures r.Ok? ==> |r.value| == 1 && r.value[0].Delete?
  {
    match Resolve(root, s)
    case Err(e) => Err(e)
    case Ok(remote) => Ok([Delete(remote)])
  }

  /** `create_remote_directory` of the relativized path: one directory
      creation at the target that re-joins onto the root to give the local
      path. */
  function CreateDirOps(root: Path, s: string): (r: Result<seq<Op>>)
    ensures r.Ok? <==> IsUnder(Parse(s), root)
    ensures r.Err? ==> r.error == NotUnderRoot(Parse(s), root)
    ensures r.Ok? ==> |r.value| == 1 && r.value[0].CreateDir?
  {
    match Resolve(root, s)
    case Err(e) => Err(e)
    case Ok(remote) => Ok([CreateDir(remote)])
  }

  /** The operations recorded for one event, in order, or the error that
      stops the event before anything is recorded. A move resolves both of
      its paths before it records anything. */
  function Reconcile(root: Path, e: FileSystemEvent): Result<seq<Op>> {
    match e.kind
    case Created =>
      if e.isDirectory then CreateDirOps(root, e.srcPath) else UploadOps(root, e.srcPath)
    case Modified =>
      if e.isDirectory then Ok([]) else UploadOps(root, e.srcPath)
    case Deleted =>
      if e.isDirectory then Ok([]) else DeleteOps(root, e.srcPath)
    case Moved =>
      var src := Resolve(root, e.srcPath);
      var dest := Resolve(root, e.destPath);
      if src.Err? then Err(src.error)
      else if dest.Err? then Err(dest.error)
      else if e.isDirectory then Ok([Delete(src.value), CreateDir(dest.value)])
      else Ok([Delete(src.value), Upload(Normalize(e.destPath), dest.value)])
  }

  /** The records of a move, once each of its paths has been resolved. */
  lemma MovedRecords(root: Path, e: FileSystemEvent)
    requires e.kind == Moved
    ensures Resolve(root, e.srcPath).Err? ==>
              Reconcile(root, e) == Err(Resolve(root, e.srcPath).error)
    ensures Resolve(root, e.srcPath).Ok? && Resolve(root, e.destPath).Err? ==>
              Reconcile(root, e) == Err(Resolve(root, e.destPath).error)
    ensures Resolve(root, e.srcPath).Ok? && Resolve(root, e.destPath).Ok? ==>
              var src, dest := Resolve(root, e.srcPath).value, Resolve(root, e.destPath).value;
              Reconcile(root, e) ==
                if e.isDirectory then Ok([Delete(src), CreateDir(dest)])
                else Ok([Delete(src), Upload(Normalize(e.destPath), dest)])
  {
  }

  /** What a handler call does to the log: on success it returns normally
      and appends exactly `result`'s operations after the records already
      there; on an error it raises it and leaves the log as it was. */
  predicate Recorded(result: Result<seq<Op>>, before: seq<Op>, after: seq<Op>, r: Outcome) {
    match result
    case Ok(ops) => r == Pass && after == before + ops
    case Err(e) => r == Fail(e) && after == before
  }

  /** The paths the handler relativizes for an event, in the order it does so. */
  function ResolvedPaths(e: FileSystemEvent): seq<string> {
    match e.kind
    case Created => [e.srcPath]
    case Modified => if e.isDirectory then [] else [e.srcPath]
    case Deleted => if e.isDirectory then [] else [e.srcPath]
    case Moved => [e.srcPath, e.destPath]
  }

  /** The local path the `i`-th operation of an event stands for: the
      destination for the second operation of a move, the source otherwise. */
  function Origin(e: FileSystemEvent, i: nat): string {
    if e.kind == Moved && i == 1 then e.destPath else e.srcPath
  }

  /** Running two steps all-or-nothing: the first error wins and nothing of
      either step is kept; otherwise the operations of both, in order. */
  function Then(first: Result<seq<Op>>, second: Result<seq<Op>>): Result<seq<Op>> {
    if first.Err? then first
    else if second.Err? then second
    else Ok(first.value + second.value)
  }

  /** The local path `s` lies at or below the watch root. */
  predicate Inside(root: Path, s: string) {
    IsUnder(Parse(s), root)
  }

  /** The position of the first of `paths` that is outside the root, if any. */
  function FirstOutside(root: Path, paths: seq<string>): (r: Option<nat>)
    ensures r.None? <==> forall i :: 0 <= i < |paths| ==> Inside(root, paths[i])
    ensures r.Some? ==> r.value < |paths| && !Inside(root, paths[r.value])
    ensures r.Some? ==> forall i :: 0 <= i < r.value ==> Inside(root, paths[i])
  {
    if paths == [] then None
    else if !Inside(root, paths[0]) then Some(0)
    else match FirstOutside(root, paths[1..])
      case None => None
      case Some(k) => Some(k + 1)
  }

  /** An event fails exactly when one of the paths the handler resolves is
      outside the root, and the error names the first such path. */
  lemma ReconcileFails(root: Path, e: FileSystemEvent)
    ensures match FirstOutside(root, ResolvedPaths(e))
            case None => Reconcile(root, e).Ok?
            case Some(k) => Reconcile(root, e) == Err(NotUnderRoot(Parse(ResolvedPaths(e)[k]), root))
  {
    var ps := ResolvedPaths(e);
    if e.kind == Moved {
      MovedRecords(root, e);
      assert ps[1..] == [e.destPath] && ps[1..][1..] == [];
      if !Inside(root, e.srcPath) {
        assert FirstOutside(root, ps) == Some(0);
      } else if !Inside(root, e.destPath) {
        assert FirstOutside(root, ps[1..]) == Some(0);
        assert FirstOutside(root, ps) == Some(1);
      } else {
        assert FirstOutside(root, ps[1..]) == None;
        assert FirstOutside(root, ps) == None;
      }
    }
  }

  /** How many operations an event records: two for a move, none for a
      modified or deleted directory, one otherwise. */
  lemma ReconcileCount(root: Path, e: FileSystemEvent)
    requires Reconcile(root, e).Ok?
    ensures |Reconcile(root, e).value| ==
              if e.kind == Moved then 2
              else if e.isDirectory && (e.kind == Modified || e.kind == Deleted) then 0
              else 1
  {
  }

  /** Every recorded target is a relative path that re-joins onto the root
      to give the local path it stands for; an upload's local path is that
      same path, so the upload copies a file to its own place under the root. */
  lemma ReconcileTargets(root: Path, e: FileSystemEvent)
    requires Reconcile(root, e).Ok?
    ensures forall i :: 0 <= i < |Reconcile(root, e).value| ==>
              var op := Reconcile(root, e).value[i];
              !Parse(op.remote).absolute &&
              Append(root, Parse(op.remote)) == Parse(Origin(e, i)) &&
              (op.Upload? ==> Parse(op.local) == Parse(Origin(e, i)))
  {
    var ops := Reconcile(root, e).value;
    if e.kind == Moved {
      MovedRecords(root, e);
    }
    forall i | 0 <= i < |ops|
      ensures !Parse(ops[i].remote).absolute
      ensures Append(root, Parse(ops[i].remote)) == Parse(Origin(e, i))
      ensures ops[i].Upload? ==> Parse(ops[i].local) == Parse(Origin(e, i))
    {
      var origin := Origin(e, i);
      assert Resolve(root, origin).Ok? && ops[i].remote == Resolve(root, origin).value;
      ResolveRejoins(root, origin);
      if ops[i].Upload? {
        assert ops[i].local == Normalize(origin);
        NormalizeParses(origin);
      }
    }
  }

  /** Which kinds of operation an event can record: directories are never
      uploaded, files never created as directories, a move starts with the
      deletion of its source, and only deletions and moves delete. */
  lemma ReconcileKinds(root: Path, e: FileSystemEvent)
    requires Reconcile(root, e).Ok?
    ensures var ops := Reconcile(root, e).value;
            (e.isDirectory ==> forall i :: 0 <= i < |ops| ==> !ops[i].Upload?) &&
            (!e.isDirectory ==> forall i :: 0 <= i < |ops| ==> !ops[i].CreateDir?) &&
            (e.kind == Moved ==> ops[0].Delete? && !ops[1].Delete?) &&
            (e.kind != Moved ==> forall i :: 0 <= i < |ops| ==> (ops[i].Delete? <==> e.kind == Deleted))
  {
    var ops := Reconcile(root, e).value;
    match e.kind {
      case Moved =>
        MovedRecords(root, e);
      case Created =>
        CreatedRecords(root, e);
        assert |ops| == 1 && !ops[0].Delete? && (ops[0].Upload? <==> !e.isDirectory);
      case Modified =>
        if !e.isDirectory {
          assert Reconcile(root, e) == UploadOps(root, e.srcPath);
        }
      case Deleted =>
        if !e.isDirectory {
          assert Reconcile(root, e) == DeleteOps(root, e.srcPath);
        }
    }
  }


  /** The records of a created event, by whether it is a directory. */
  lemma CreatedRecords(root: Path, e: FileSystemEvent)
    requires e.kind == Created
    ensures Reconcile(root, e) ==
              if e.isDirectory then CreateDirOps(root, e.srcPath) else UploadOps(root, e.srcPath)
  {
  }

  /** The records of a deleted file. */
  lemma DeletedFileRecords(root: Path, e: FileSystemEvent)
    requires e.kind == Deleted && !e.isDirectory
    ensures Reconcile(root, e) == DeleteOps(root, e.srcPath)
  {
  }

  /** A move is the deletion of its source as a file followed by the
      creation of its destination, all-or-nothing: there is no rename. */
  lemma MovedIsDeleteThenCreate(root: Path, e: FileSystemEvent)
    requires e.kind == Moved
    ensures Reconcile(root, e) ==
              Then(Reconcile(root, e.(kind := Deleted, isDirectory := false)),
                   Reconcile(root, e.(kind := Created, srcPath := e.destPath)))
  {
    var del := e.(kind := Deleted, isDirectory := false);
    var create := e.(kind := Created, srcPath := e.destPath);
    MovedRecords(root, e);
    DeletedFileRecords(root, del);
    CreatedRecords(root, create);
    var src := Resolve(root, e.srcPath);
    var dest := Resolve(root, e.destPath);
    if src.Err? {
      assert DeleteOps(root, e.srcPath) == Err(src.error);
    } else {
      assert DeleteOps(root, e.srcPath) == Ok([Delete(src.value)]);
      if dest.Err? {
        assert Reconcile(root, create) == Err(dest.error);
      } else {
        var second := if e.isDirectory then CreateDir(dest.value)
                      else Upload(Normalize(e.destPath), dest.value);
        assert Reconcile(root, create) == Ok([second]);
        assert [Delete(src.value)] + [second] == [Delete(src.value), second];
      }
    }
  }



  /** An event on the watch root itself targets ".", the empty relative
      path; the model passes it through as the source does. */
  lemma RootTargetsDot(root: Path)
    requires WellFormed(root)
    ensures Resolve(root, Render(root)) == Ok(".")
  {
    ParseRender(root);
    AppendRelativeTo(root, Path(false, []));
    assert Append(root, Path(false, [])) == root;
    assert Render(Path(false, [])) == ".";
  }
}
