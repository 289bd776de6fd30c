/** The part of the operating system the generator touches, as a value: a set
    of directory paths and a map from file path to file content. Only the
    three calls the program makes are modelled: `os.path.dirname`,
    `os.makedirs(p, exist_ok=True)` and opening a file for writing. */
module FileSystem {
  import opened Common

  /** What a file holds: the text of a label, or an image described by the
      drawing call that produced it (the raster itself is not modelled). */
  datatype Content = Text(text: string) | Image(draw: DrawFunc, props: DrawProps)

  /** One write the program asks for: a path and what to put there. */
  datatype FileWrite = FileWrite(path: string, content: Content)

  datatype OsError = FileNotFound(path: string) | IsADirectory(path: string)

  datatype Result<T> = Ok(value: T) | Err(error: OsError)

  datatype Fs = Fs(dirs: set<string>, files: map<string, Content>)

  /** Index of the last '/' in `s`, or -1. */
  function LastSlash(s: string): (i: int)
    ensures -1 <= i < |s|
    ensures 0 <= i ==> s[i] == '/'
    ensures forall j :: i < j < |s| ==> s[j] != '/'
  {
    if s == [] then -1
    else if s[|s| - 1] == '/' then |s| - 1
    else LastSlash(s[..|s| - 1])
  }

  lemma {:induction false} LastSlashAfter(a: string, b: string)
    requires '/' !in b
    ensures LastSlash(a + "/" + b) == |a|
    decreases |b|
  {
    if b != [] {
      var s := a + "/" + b;
      assert s[..|s| - 1] == a + "/" + b[..|b| - 1];
      assert s[|s| - 1] == b[|b| - 1];
      LastSlashAfter(a, b[..|b| - 1]);
    } else {
      assert a + "/" + b == a + "/";
    }
  }

  /** `os.path.dirname(p)` for paths without repeated or trailing slashes:
      everything before the last '/', "/" for a child of the root, and ""
      for a bare name. */
  function Parent(p: string): (d: string)
    ensures |d| < |p| || d == p
    ensures '/' !in p ==> d == ""
    ensures d != "" && d != "/" ==> |d| < |p| && p[..|d|] == d && p[|d|] == '/'
  {
    var i := LastSlash(p);
    if i < 0 then ""
    else if i == 0 then (assert |p| == 1 ==> p == [p[0]]; "/")
    else p[..i]
  }

  /** The '/' that `Parent` cuts at is the last one in the path: what follows
      it holds no '/'. */
  lemma ParentIsLastSlash(p: string)
    ensures var d := Parent(p);
      d != "" && d != "/" ==> '/' !in p[|d| + 1..]
    ensures Parent(p) == "/" ==> p[0] == '/' && (|p| > 1 && p[1] != '/' ==> '/' !in p[1..])
    ensures Parent(p) == "" ==> '/' !in p
  {
    var i := LastSlash(p);
    if 0 <= i {
      var rest := p[i + 1..];
      assert forall j :: 0 <= j < |rest| ==> rest[j] == p[i + 1 + j];
      assert '/' !in rest;
    }
  }

  /** The parent of `d/name` is `d` when `name` holds no '/'. */
  lemma ParentOfChild(d: string, name: string)
    requires d != "" && '/' !in name
    ensures Parent(d + "/" + name) == d
  {
    LastSlashAfter(d, name);
    assert (d + "/" + name)[..|d|] == d;
  }

  /** The directories `os.makedirs(p)` makes exist: `p` and every ancestor. */
  function DirChain(p: string): (ds: set<string>)
    ensures p in ds
    decreases |p|
  {
    var d := Parent(p);
    if d == "" || d == p then {p} else {p} + DirChain(d)
  }

  /** No directory `os.makedirs` creates is longer than the path it was given. */
  lemma {:induction false} DirChainShorter(p: string, d: string)
    requires d in DirChain(p)
    ensures |d| <= |p|
    decreases |p|
  {
    var q := Parent(p);
    if d != p && q != "" && q != p {
      DirChainShorter(q, d);
    }
  }

  /** `os.makedirs(p, exist_ok=True)`: never fails on an existing directory;
      files are untouched. */
  function MakeDirs(fs: Fs, p: string): (r: Fs)
    ensures r.files == fs.files
    ensures r.dirs == fs.dirs + DirChain(p)
  {
    fs.(dirs := fs.dirs + DirChain(p))
  }

  /** `open(path, "w")` succeeds on `path`: it is not a directory and its
      parent, if it names one, exists. */
  predicate CanWrite(fs: Fs, path: string)
  {
    path !in fs.dirs && (Parent(path) == "" || Parent(path) in fs.dirs)
  }

  /** `open(path, "w")` followed by a write of `content`. Fails when `path`
      is a directory or when its parent directory does not exist;
      otherwise the file is created or overwritten. */
  function WriteFile(fs: Fs, path: string, content: Content): (r: Result<Fs>)
    ensures r.Ok? <==> CanWrite(fs, path)
    ensures r.Ok? ==> r.value == Fs(fs.dirs, fs.files[path := content])
    ensures r.Err? ==> r.error.path == path
  {
    if path in fs.dirs then Err(IsADirectory(path))
    else if Parent(path) != "" && Parent(path) !in fs.dirs then Err(FileNotFound(path))
    else Ok(fs.(files := fs.files[path := content]))
  }
}
