/** Worked events under the watch root "/w": the rows of the handler's case
    table on concrete paths, and the edge cases of relativization. */
module Scenarios {
  import opened Paths
  import opened Reconciliation

  /** An absolute path written out below a root written out resolves to the
      segments after the root, and is already in normal form. */
  lemma ResolveBelow(root: string, s: string, target: string,
                     rootSegments: seq<string>, relSegments: seq<string>)
    requires ValidSegments(rootSegments) && ValidSegments(relSegments)
    requires root == Render(Path(true, rootSegments))
    requires s == Render(Path(true, rootSegments + relSegments))
    requires target == Render(Path(false, relSegments))
    ensures Resolve(Parse(root), s) == Ok(target)
    ensures Normalize(s) == s
  {
    var p := Path(true, rootSegments + relSegments);
    assert WellFormed(p);
    ParseRender(p);
    ParseRender(Path(true, rootSegments));
    assert Append(Path(true, rootSegments), Path(false, relSegments)) == p;
    AppendRelativeTo(Path(true, rootSegments), Path(false, relSegments));
  }

  /** A trailing slash is dropped: `Path("/w/")` is the root "/w". */
  lemma TrailingSlashDropped()
    ensures Parse("/w/") == Path(true, ["w"])
  {
    var s := "/w/";
    assert s[1..] == "w/" && s[1..][1..] == "/" && s[1..][1..][1..] == "";
    assert Split("/") == ["", ""];
    var w := "w/";
    assert w[0] == 'w' && w[1..] == "/";
    assert [w[0]] + "" == "w";
    assert Split(w) == ["w", ""];
    assert Split(s) == ["", "w", ""];
    assert Clean(["", "w", ""]) == Clean(["", "w"] + [""]);
    CleanAppend(["", "w"], [""]);
    assert Clean(["", "w"]) == Clean([""] + ["w"]);
    CleanAppend([""], ["w"]);
  }

  lemma ParseRoot()
    ensures Parse("/w") == Path(true, ["w"])
  {
    assert Render(Path(true, ["w"])) == "/w";
    ParseRender(Path(true, ["w"]));
  }

  lemma RenderFile()
    ensures Render(Path(true, ["w", "a", "b.txt"])) == "/w/a/b.txt"
    ensures Render(Path(false, ["a", "b.txt"])) == "a/b.txt"
  {
  }

  lemma SampleFile()
    ensures Resolve(Parse("/w"), "/w/a/b.txt") == Ok("a/b.txt")
    ensures Normalize("/w/a/b.txt") == "/w/a/b.txt"
  {
    assert ["w"] + ["a", "b.txt"] == ["w", "a", "b.txt"];
    RenderFile();
    ResolveBelow("/w", "/w/a/b.txt", "a/b.txt", ["w"], ["a", "b.txt"]);
  }

  lemma RenderOld()
    ensures Render(Path(true, ["w", "old.txt"])) == "/w/old.txt"
    ensures Render(Path(false, ["old.txt"])) == "old.txt"
  {
  }

  lemma SampleOld()
    ensures Resolve(Parse("/w"), "/w/old.txt") == Ok("old.txt")
  {
    assert ["w"] + ["old.txt"] == ["w", "old.txt"];
    RenderOld();
    ResolveBelow("/w", "/w/old.txt", "old.txt", ["w"], ["old.txt"]);
  }

  lemma RenderNew()
    ensures Render(Path(true, ["w", "sub", "new.txt"])) == "/w/sub/new.txt"
    ensures Render(Path(false, ["sub", "new.txt"])) == "sub/new.txt"
  {
  }

  lemma SampleNew()
    ensures Resolve(Parse("/w"), "/w/sub/new.txt") == Ok("sub/new.txt")
    ensures Normalize("/w/sub/new.txt") == "/w/sub/new.txt"
  {
    assert ["w"] + ["sub", "new.txt"] == ["w", "sub", "new.txt"];
    RenderNew();
    ResolveBelow("/w", "/w/sub/new.txt", "sub/new.txt", ["w"], ["sub", "new.txt"]);
  }

  lemma RenderDir()
    ensures Render(Path(true, ["w", "a", "newdir"])) == "/w/a/newdir"
    ensures Render(Path(false, ["a", "newdir"])) == "a/newdir"
  {
  }

  lemma SampleDir()
    ensures Resolve(Parse("/w"), "/w/a/newdir") == Ok("a/newdir")
  {
    assert ["w"] + ["a", "newdir"] == ["w", "a", "newdir"];
    RenderDir();
    ResolveBelow("/w", "/w/a/newdir", "a/newdir", ["w"], ["a", "newdir"]);
  }

  lemma SampleOutside()
    ensures Resolve(Parse("/w"), "/x") == Err(NotUnderRoot(Path(true, ["x"]), Path(true, ["w"])))
  {
    ParseRoot();
    assert Render(Path(true, ["x"])) == "/x";
    ParseRender(Path(true, ["x"]));
  }

  /** A created file is uploaded from its own path to "a/b.txt". */
  lemma CreatedFileUploads()
    ensures Reconcile(Parse("/w"), FileSystemEvent(Created, false, "/w/a/b.txt", ""))
         == Ok([Upload("/w/a/b.txt", "a/b.txt")])
  {
    SampleFile();
  }

  /** A created directory becomes one directory creation at "a/newdir". */
  lemma CreatedDirectoryIsCreated()
    ensures Reconcile(Parse("/w"), FileSystemEvent(Created, true, "/w/a/newdir", ""))
         == Ok([CreateDir("a/newdir")])
  {
    SampleDir();
  }

  /** A deleted file becomes one deletion of "a/b.txt". */
  lemma DeletedFileIsDeleted()
    ensures Reconcile(Parse("/w"), FileSystemEvent(Deleted, false, "/w/a/b.txt", ""))
         == Ok([Delete("a/b.txt")])
  {
    SampleFile();
  }

  /** A moved file is deleted at "old.txt" and uploaded to "sub/new.txt". */
  lemma MovedFileIsDeletedThenUploaded()
    ensures Reconcile(Parse("/w"), FileSystemEvent(Moved, false, "/w/old.txt", "/w/sub/new.txt"))
         == Ok([Delete("old.txt"), Upload("/w/sub/new.txt", "sub/new.txt")])
  {
    SampleOld();
    SampleNew();
  }

  /** A move whose destination leaves the root records nothing, even though
      its source is inside the root. */
  lemma MoveOutOfRootRecordsNothing()
    ensures Reconcile(Parse("/w"), FileSystemEvent(Moved, false, "/w/old.txt", "/x"))
         == Err(NotUnderRoot(Path(true, ["x"]), Path(true, ["w"])))
  {
    SampleOld();
    SampleOutside();
  }

  /** Modified and deleted directories record nothing, wherever they are. */
  lemma IgnoredDirectoryEvents(src: string, dest: string, root: Path)
    ensures Reconcile(root, FileSystemEvent(Modified, true, src, dest)) == Ok([])
    ensures Reconcile(root, FileSystemEvent(Deleted, true, src, dest)) == Ok([])
  {
  }

  /** Relativization is lexical: a ".." segment is kept, so "/w/../etc"
      resolves to "../etc" and its target climbs out of the root. */
  lemma DotDotIsKept()
    ensures Resolve(Parse("/w"), "/w/../etc") == Ok("../etc")
  {
    RenderDotDot();
    assert ["w"] + ["..", "etc"] == ["w", "..", "etc"];
    ResolveBelow("/w", "/w/../etc", "../etc", ["w"], ["..", "etc"]);
  }

  lemma RenderDotDot()
    ensures Render(Path(true, ["w", "..", "etc"])) == "/w/../etc"
    ensures Render(Path(false, ["..", "etc"])) == "../etc"
  {
  }
}
