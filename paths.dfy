/** Pure POSIX paths the way `pathlib` handles them: a path string is parsed
    into an anchor and a list of segments, printed back with `str`, and one
    path is made relative to another with `PurePath.relative_to`. */
module Paths {

  /** A parsed path: whether it starts at the filesystem root ("/"), and the
      segments that follow, in order. */
  datatype Path = Path(absolute: bool, segments: seq<string>)

  /** The `ValueError` that `relative_to` raises: `path` is not under `root`. */
  datatype PathError = NotUnderRoot(path: Path, root: Path)

  datatype Result<T> = Ok(value: T) | Err(error: PathError)

  datatype Option<T> = None | Some(value: T)

  /** A segment pathlib keeps after parsing: not empty, not ".", no slash. */
  predicate ValidSegment(s: string) {
    s != "" && s != "." && '/' !in s
  }

  predicate ValidSegments(ss: seq<string>) {
    forall i :: 0 <= i < |ss| ==> ValidSegment(ss[i])
  }

  /** The form every parsed path has. */
  predicate WellFormed(p: Path) {
    ValidSegments(p.segments)
  }

  predicate NoSlash(pieces: seq<string>) {
    forall i :: 0 <= i < |pieces| ==> '/' !in pieces[i]
  }

  /** The pieces of `s` between slashes, empty pieces included. */
  function Split(s: string): (pieces: seq<string>)
    ensures |pieces| >= 1 && NoSlash(pieces)
  {
    if |s| == 0 then [""]
    else if s[0] == '/' then [""] + Split(s[1..])
    else
      var rest := Split(s[1..]);
      [[s[0]] + rest[0]] + rest[1..]
  }

  /** The pieces written one after the other with a slash between each two. */
  function Join(pieces: seq<string>): string {
    if |pieces| == 0 then ""
    else if |pieces| == 1 then pieces[0]
    else pieces[0] + "/" + Join(pieces[1..])
  }

  /** Splitting loses nothing: joining the pieces gives the string back. */
  lemma {:induction false} JoinSplit(s: string)
    ensures Join(Split(s)) == s
  {
    if |s| > 0 {
      JoinSplit(s[1..]);
      var rest := Split(s[1..]);
      if s[0] == '/' {
        assert Split(s) == [""] + rest;
        assert ([""] + rest)[1..] == rest;
        assert s == "/" + s[1..];
      } else {
        assert s == [s[0]] + s[1..];
        if |rest| > 1 {
          assert Join(rest) == rest[0] + "/" + Join(rest[1..]);
          assert Split(s)[1..] == rest[1..];
        }
      }
    }
  }

  /** A slash-free prefix glues onto the first piece of what follows it. */
  lemma {:induction false} SplitConcat(w: string, t: string)
    requires '/' !in w
    ensures Split(w + t) == [w + Split(t)[0]] + Split(t)[1..]
  {
    if |w| > 0 {
      SplitConcat(w[1..], t);
      assert (w + t)[0] == w[0];
      assert (w + t)[1..] == w[1..] + t;
      assert [w[0]] + (w[1..] + Split(t)[0]) == w + Split(t)[0];
    } else {
      var pieces := Split(t);
      assert w + t == t && w + pieces[0] == pieces[0];
      assert pieces == [pieces[0]] + pieces[1..];
    }
  }

  /** Joining slash-free pieces and splitting again gives the pieces back. */
  lemma {:induction false} SplitJoin(pieces: seq<string>)
    requires |pieces| >= 1 && NoSlash(pieces)
    ensures Split(Join(pieces)) == pieces
  {
    if |pieces| == 1 {
      SplitConcat(pieces[0], "");
      assert pieces[0] + "" == pieces[0];
    } else {
      var tail := Join(pieces[1..]);
      SplitJoin(pieces[1..]);
      assert ("/" + tail)[0] == '/' && ("/" + tail)[1..] == tail;
      assert Split("/" + tail) == [""] + pieces[1..];
      SplitConcat(pieces[0], "/" + tail);
      assert pieces[0] + "/" + tail == pieces[0] + ("/" + tail);
      assert pieces[0] + "" == pieces[0];
      assert pieces == [pieces[0]] + pieces[1..];
    }
  }

  /** Drops the empty pieces and the "." pieces, as pathlib's parser does. */
  function Clean(pieces: seq<string>): (segments: seq<string>)
    ensures |segments| <= |pieces|
    ensures NoSlash(pieces) ==> ValidSegments(segments)
    ensures ValidSegments(pieces) ==> segments == pieces
    ensures |pieces| == 1 ==>
              segments == if pieces[0] == "" || pieces[0] == "." then [] else pieces
  {
    if |pieces| == 0 then []
    else if pieces[0] == "" || pieces[0] == "." then Clean(pieces[1..])
    else [pieces[0]] + Clean(pieces[1..])
  }

  /** Cleaning works piece by piece: the pieces kept from a concatenation
      are those kept from each part, in order. */
  lemma {:induction false} CleanAppend(a: seq<string>, b: seq<string>)
    ensures Clean(a + b) == Clean(a) + Clean(b)
  {
    if a == [] {
      assert a + b == b;
    } else {
      var h, t := a[0], a[1..];
      var ab := a + b;
      assert ab[0] == h && ab[1..] == t + b;
      CleanAppend(t, b);
      if h == "" || h == "." {
        assert Clean(ab) == Clean(t + b);
      } else {
        assert Clean(ab) == [h] + Clean(t + b);
        assert Clean(a) == [h] + Clean(t);
      }
    }
  }


  /** `Path(s)`: a leading slash makes the path absolute; empty and "."
      segments disappear; ".." is kept as an ordinary segment. */
  function Parse(s: string): (p: Path)
    ensures WellFormed(p)
  {
    Path(|s| > 0 && s[0] == '/', Clean(Split(s)))
  }

  lemma {:induction false} JoinHead(pieces: seq<string>)
    requires |pieces| >= 1 && pieces[0] != ""
    ensures |Join(pieces)| > 0 && Join(pieces)[0] == pieces[0][0]
  {
    if |pieces| > 1 {
      assert Join(pieces) == pieces[0] + ("/" + Join(pieces[1..]));
    }
  }

  /** `str(p)`: "/" before an absolute path, "." for the empty relative path.
      An absolute path prints with a leading separator; a well-formed path
      prints non-empty, and a relative one without a leading separator. */
  function Render(p: Path): (r: string)
    ensures p.absolute ==> |r| > 0 && r[0] == '/'
    ensures WellFormed(p) ==> |r| > 0 && (r[0] == '/' <==> p.absolute)
  {
    if p.absolute then "/" + Join(p.segments)
    else if |p.segments| == 0 then "."
    else if p.segments[0] == "" then Join(p.segments)
    else
      JoinHead(p.segments);
      Join(p.segments)
  }

  /** Printing a parsed path and parsing it again gives the same path. */
  lemma {:induction false} ParseRender(p: Path)
    requires WellFormed(p)
    ensures Parse(Render(p)) == p
  {
    var s := Render(p);
    if p.segments == [] {
      if p.absolute {
        assert s == "/" && s[1..] == "";
        assert Split(s) == ["", ""];
      } else {
        assert s == ".";
        assert Split(s) == ["."] by {
          assert s[0] == '.' && s[1..] == "";
          assert Split(s[1..]) == [""];
          assert [s[0]] + "" == ".";
        }
      }
    } else {
      var j := Join(p.segments);
      SplitJoin(p.segments);
      JoinHead(p.segments);
      if p.absolute {
        assert s[0] == '/' && s[1..] == j;
        assert Split(s) == [""] + p.segments;
        assert Clean([""] + p.segments) == Clean(p.segments);
      } else {
        assert s == j;
      }
    }
  }

  /** `str(Path(s))`: the normal form pathlib gives a path string. */
  function Normalize(s: string): string {
    Render(Parse(s))
  }

  /** The normal form of a path string parses to the same path as the
      string itself. */
  lemma NormalizeParses(s: string)
    ensures Parse(Normalize(s)) == Parse(s)
  {
    ParseRender(Parse(s));
  }

  /** Normalizing is idempotent: `str(Path(str(Path(s)))) == str(Path(s))`. */
  lemma NormalizeIdempotent(s: string)
    ensures Normalize(Normalize(s)) == Normalize(s)
  {
    ParseRender(Parse(s));
  }

  /** `p` lies at or below `root`: same anchor, and the root's segments
      begin the path's segments. */
  predicate IsUnder(p: Path, root: Path) {
    p.absolute == root.absolute && root.segments <= p.segments
  }

  /** Removes `prefix` from the front of `s`, one segment at a time. */
  function StripPrefix(prefix: seq<string>, s: seq<string>): (r: Option<seq<string>>)
    ensures r.Some? <==> prefix <= s
    ensures r.Some? ==> prefix + r.value == s
  {
    if prefix == [] then Some(s)
    else if s == [] || s[0] != prefix[0] then None
    else StripPrefix(prefix[1..], s[1..])
  }

  /** `root / rel`, pathlib's join: an absolute right side replaces the left. */
  function Append(root: Path, rel: Path): Path {
    if rel.absolute then rel else Path(root.absolute, root.segments + rel.segments)
  }

  /** `p.relative_to(root)`. The path equal to the root gives the empty
      relative path, which prints as ".". */
  function RelativeTo(p: Path, root: Path): (r: Result<Path>)
    ensures r.Ok? <==> IsUnder(p, root)
    ensures r.Err? ==> r.error == NotUnderRoot(p, root)
    ensures r.Ok? ==> !r.value.absolute && Append(root, r.value) == p
    ensures r.Ok? && WellFormed(p) ==> WellFormed(r.value)
    ensures r.Ok? && ".." in r.value.segments ==> ".." in p.segments
  {
    if p.absolute != root.absolute then Err(NotUnderRoot(p, root))
    else match StripPrefix(root.segments, p.segments)
      case None => Err(NotUnderRoot(p, root))
      case Some(rest) =>
        assert rest == p.segments[|root.segments|..];
        Ok(Path(false, rest))
  }

  /** Joining a relative path onto the root and relativizing again gives
      that relative path back. */
  lemma AppendRelativeTo(root: Path, rel: Path)
    requires !rel.absolute
    ensures RelativeTo(Append(root, rel), root) == Ok(rel)
  {
    var p := Append(root, rel);
    assert root.segments <= p.segments;
    assert p.segments[|root.segments|..] == rel.segments;
  }
}
