/** Dataset paths and directory layout (src/utils/training_structure.py):
    `os.path.join` below BASE_DIR, the four pre-built path builders, and the
    creation of BASE_DIR/<data_type>/<split> for every pair. */
module TrainingStructure {
  import opened Common
  import opened Strings
  import opened FileSystem

  predicate StartsWithSlash(s: string)
  {
    |s| > 0 && s[0] == '/'
  }

  predicate EndsWithSlash(s: string)
  {
    |s| > 0 && s[|s| - 1] == '/'
  }

  /** A path component with no separator in it. */
  predicate Plain(s: string)
  {
    s != "" && '/' !in s
  }

  /** One step of POSIX `os.path.join`: an absolute component replaces what
      came before; otherwise a '/' is inserted unless the path so far is
      empty or already ends in one. */
  function JoinStep(path: string, b: string): string
  {
    if StartsWithSlash(b) then b
    else if path == "" || EndsWithSlash(path) then path + b
    else path + "/" + b
  }

  /** `os.path.join(a, *ps)` */
  function PathJoin(a: string, ps: seq<string>): string
    decreases |ps|
  {
    if ps == [] then a else PathJoin(JoinStep(a, ps[0]), ps[1..])
  }

  /** One join step ends with the new component; an absolute component
      replaces the path, any other keeps the path as a prefix. */
  lemma JoinStepKeepsParts(path: string, b: string)
    ensures var r := JoinStep(path, b); |r| >= |b| && r[|r| - |b|..] == b
    ensures StartsWithSlash(b) ==> JoinStep(path, b) == b
    ensures !StartsWithSlash(b) ==> path <= JoinStep(path, b)
  {
    var r := JoinStep(path, b);
    if !StartsWithSlash(b) {
      if path == "" || EndsWithSlash(path) {
        assert r == path + b;
      } else {
        assert r == path + "/" + b;
      }
    }
  }

  /** Without an absolute component, `os.path.join(a, *ps)` starts with `a`. */
  lemma {:induction false} PathJoinKeepsBase(a: string, ps: seq<string>)
    requires forall k :: 0 <= k < |ps| ==> !StartsWithSlash(ps[k])
    ensures a <= PathJoin(a, ps)
    decreases |ps|
  {
    if ps != [] {
      var a' := JoinStep(a, ps[0]);
      JoinStepKeepsParts(a, ps[0]);
      assert forall k :: 0 <= k < |ps[1..]| ==> ps[1..][k] == ps[k + 1];
      PathJoinKeepsBase(a', ps[1..]);
      var r := PathJoin(a, ps);
      assert r == PathJoin(a', ps[1..]);
      assert r[..|a|] == a'[..|a|];
    }
  }

  /** Joining one more component is one more `JoinStep`. */
  lemma {:induction false} PathJoinSnoc(a: string, ps: seq<string>, b: string)
    ensures PathJoin(a, ps + [b]) == JoinStep(PathJoin(a, ps), b)
    decreases |ps|
  {
    if ps != [] {
      assert (ps + [b])[1..] == ps[1..] + [b];
      PathJoinSnoc(JoinStep(a, ps[0]), ps[1..], b);
    }
  }

  /** On plain components `os.path.join` is `"/".join`. */
  lemma {:induction false} PathJoinPlain(a: string, ps: seq<string>)
    requires a != "" && !EndsWithSlash(a)
    requires forall k :: 0 <= k < |ps| ==> Plain(ps[k])
    ensures PathJoin(a, ps) == Join("/", [a] + ps)
    decreases |ps|
  {
    if ps != [] {
      var a' := a + "/" + ps[0];
      assert !StartsWithSlash(ps[0]) by { assert ps[0][0] in ps[0]; }
      assert JoinStep(a, ps[0]) == a';
      assert !EndsWithSlash(a') by { assert a'[|a'| - 1] == ps[0][|ps[0]| - 1]; }
      PathJoinPlain(a', ps[1..]);
      JoinCons("/", a, ps);
      if |ps| > 1 {
        var rest := Join("/", ps[1..]);
        JoinCons("/", a', ps[1..]);
        JoinCons("/", ps[0], ps[1..]);
        assert [ps[0]] + ps[1..] == ps;
        ConcatAssoc5(a, "/", ps[0], "/", rest);
      } else {
        assert [a'] + ps[1..] == [a'];
      }
    }
  }

  lemma ConcatAssoc5<T>(a: seq<T>, b: seq<T>, c: seq<T>, d: seq<T>, e: seq<T>)
    ensures a + b + c + d + e == a + b + (c + d + e)
  {
  }

  /** `dataset_file_path(*parts)`: BASE_DIR joined with the parts. */
  function DatasetFilePath(parts: seq<string>): string
  {
    PathJoin(BASE_DIR, parts)
  }

  /** Unless a part is absolute, `dataset_file_path(*parts)` lies below BASE_DIR. */
  lemma DatasetFilePathBelowBase(parts: seq<string>)
    requires forall k :: 0 <= k < |parts| ==> !StartsWithSlash(parts[k])
    ensures BASE_DIR <= DatasetFilePath(parts)
  {
    PathJoinKeepsBase(BASE_DIR, parts);
  }

  /** With plain components, `dataset_file_path(*parts)` is BASE_DIR followed
      by the parts, each after one '/'. */
  lemma DatasetFilePathPlain(parts: seq<string>)
    requires forall k :: 0 <= k < |parts| ==> Plain(parts[k])
    ensures DatasetFilePath(parts) == Join("/", [BASE_DIR] + parts)
  {
    PathJoinPlain(BASE_DIR, parts);
  }

  /** `functools.partial(dataset_file_path, *args)`: a path builder is the
      leading components it was given; calling it appends the file name. */
  datatype PathBuilder = Partial(args: seq<string>)
  {
    function Call(filename: string): string
    {
      DatasetFilePath(args + [filename])
    }
  }

  /** Calling a builder gives a path that ends with the file name and, when
      neither the bound components nor the name are absolute, lies below
      BASE_DIR. */
  lemma CallKeepsParts(builder: PathBuilder, filename: string)
    ensures var p := builder.Call(filename); |p| >= |filename| && p[|p| - |filename|..] == filename
    ensures (forall k :: 0 <= k < |builder.args| ==> !StartsWithSlash(builder.args[k])) && !StartsWithSlash(filename) ==>
      BASE_DIR <= builder.Call(filename)
  {
    var parts := builder.args + [filename];
    PathJoinSnoc(BASE_DIR, builder.args, filename);
    JoinStepKeepsParts(PathJoin(BASE_DIR, builder.args), filename);
    if (forall k :: 0 <= k < |builder.args| ==> !StartsWithSlash(builder.args[k])) && !StartsWithSlash(filename) {
      assert forall k :: 0 <= k < |parts| ==> parts[k] == if k < |builder.args| then builder.args[k] else filename;
      DatasetFilePathBelowBase(parts);
    }
  }

  /** The dictionary key `f"{data_type}_{split}"`. */
  function PathKey(dt: DataType, sp: Split): string
  {
    DataTypeName(dt) + "_" + SplitName(sp)
  }

  /** The directory BASE_DIR/<data_type>/<split>. */
  function LeafDir(dt: DataType, sp: Split): (d: string)
    ensures d == BASE_DIR + "/" + DataTypeName(dt) + "/" + SplitName(sp)
  {
    var parts := [DataTypeName(dt), SplitName(sp)];
    DatasetFilePathPlain(parts);
    assert Join("/", [BASE_DIR] + parts) == BASE_DIR + "/" + (DataTypeName(dt) + "/" + SplitName(sp)) by {
      JoinCons("/", BASE_DIR, parts);
      JoinCons("/", DataTypeName(dt), [SplitName(sp)]);
    }
    DatasetFilePath(parts)
  }

  /** The entries the inner `for split in splits` clause of the dictionary
      comprehension adds for one data type. */
  function RowPaths(dt: DataType, sps: seq<Split>): map<string, PathBuilder>
    decreases |sps|
  {
    if sps == [] then map[]
    else
      var sp := sps[|sps| - 1];
      RowPaths(dt, sps[..|sps| - 1])[PathKey(dt, sp) := Partial([DataTypeName(dt), SplitName(sp)])]
  }

  /** The dictionary comprehension of `build_all_paths`, entry by entry. */
  function PathsFor(dts: seq<DataType>, sps: seq<Split>): map<string, PathBuilder>
    decreases |dts|
  {
    if dts == [] then map[] else PathsFor(dts[..|dts| - 1], sps) + RowPaths(dts[|dts| - 1], sps)
  }

  /** `build_all_paths()`: one builder per (data type, split) pair, under
      the key of that pair, and no other key. */
  function BuildAllPaths(): (paths: map<string, PathBuilder>)
    ensures paths.Keys == {PathKey(Images, Train), PathKey(Images, Val), PathKey(Labels, Train), PathKey(Labels, Val)}
    ensures forall dt: DataType, sp: Split :: PathKey(dt, sp) in paths && paths[PathKey(dt, sp)] == Builder(dt, sp)
  {
    PathsForDefaults();
    DefaultPathsLookup(PathsFor(DATA_TYPES, SPLITS));
    PathsFor(DATA_TYPES, SPLITS)
  }

  /** The comprehension over DATA_TYPES and SPLITS, entry by entry. */
  lemma PathsForDefaults()
    ensures PathsFor(DATA_TYPES, SPLITS) == map[
      PathKey(Images, Train) := Builder(Images, Train), PathKey(Images, Val) := Builder(Images, Val),
      PathKey(Labels, Train) := Builder(Labels, Train), PathKey(Labels, Val) := Builder(Labels, Val)]
  {
    RowPathsOfSplits(Images);
    RowPathsOfSplits(Labels);
    assert DATA_TYPES[..1] == [Images] && [Images][..0] == [];
  }

  /** Reading the four-entry dictionary under the key of a pair. */
  lemma DefaultPathsLookup(m: map<string, PathBuilder>)
    requires m == map[
      PathKey(Images, Train) := Builder(Images, Train), PathKey(Images, Val) := Builder(Images, Val),
      PathKey(Labels, Train) := Builder(Labels, Train), PathKey(Labels, Val) := Builder(Labels, Val)]
    ensures forall dt: DataType, sp: Split :: PathKey(dt, sp) in m && m[PathKey(dt, sp)] == Builder(dt, sp)
  {
    forall dt: DataType, sp: Split
      ensures PathKey(dt, sp) in m && m[PathKey(dt, sp)] == Builder(dt, sp)
    {
      PathKeyChars(Images, Train);
      PathKeyChars(Images, Val);
      PathKeyChars(Labels, Train);
      PathKeyChars(Labels, Val);
    }
  }

  /** The entries for one data type: one per split. */
  lemma RowPathsOfSplits(dt: DataType)
    ensures RowPaths(dt, SPLITS) == map[PathKey(dt, Train) := Builder(dt, Train), PathKey(dt, Val) := Builder(dt, Val)]
  {
    assert SPLITS[..1] == [Train] && [Train][..0] == [];
  }

  /** The letters that tell the keys apart: the data type at 0, the split at 7. */
  lemma PathKeyChars(dt: DataType, sp: Split)
    ensures |PathKey(dt, sp)| > 7
    ensures PathKey(dt, sp)[0] == (if dt == Images then 'i' else 'l')
    ensures PathKey(dt, sp)[7] == (if sp == Train then 't' else 'v')
  {
  }

  /** The four keys, spelled out. */
  lemma PathKeysSpelled()
    ensures PathKey(Images, Train) == "images_train" && PathKey(Images, Val) == "images_val"
    ensures PathKey(Labels, Train) == "labels_train" && PathKey(Labels, Val) == "labels_val"
  {
  }

  /** The module-level `paths` dictionary. */
  const PATHS: map<string, PathBuilder> := BuildAllPaths()

  /** The builder `functools.partial(dataset_file_path, dt, sp)`. */
  function Builder(dt: DataType, sp: Split): PathBuilder
  {
    Partial([DataTypeName(dt), SplitName(sp)])
  }

  /** The dictionary holds, under the key of (dt, sp), the builder for (dt, sp). */
  lemma PathsEntry(dt: DataType, sp: Split)
    ensures PathKey(dt, sp) in PATHS && PATHS[PathKey(dt, sp)] == Builder(dt, sp)
  {
  }

  /** A dictionary that holds, under each key, the builder of that key. */
  predicate HoldsBuilders(paths: map<string, PathBuilder>)
  {
    forall dt: DataType, sp: Split :: PathKey(dt, sp) in paths && paths[PathKey(dt, sp)] == Builder(dt, sp)
  }

  lemma PathsHoldBuilders()
    ensures HoldsBuilders(PATHS)
  {
    forall dt: DataType, sp: Split
      ensures PathKey(dt, sp) in PATHS && PATHS[PathKey(dt, sp)] == Builder(dt, sp)
    {
      PathsEntry(dt, sp);
    }
  }

  /** `paths[f"{dt}_{sp}"](f)` is `dataset_file_path(dt, sp, f)`. */
  lemma BuilderCall(dt: DataType, sp: Split, f: string)
    ensures PathKey(dt, sp) in PATHS
    ensures PATHS[PathKey(dt, sp)].Call(f) == DatasetFilePath([DataTypeName(dt), SplitName(sp), f])
  {
    assert [DataTypeName(dt), SplitName(sp)] + [f] == [DataTypeName(dt), SplitName(sp), f];
  }

  /** What the builder for (dt, sp) makes of a file name that is not absolute. */
  lemma BuilderPath(dt: DataType, sp: Split, f: string)
    requires !StartsWithSlash(f)
    ensures PATHS[PathKey(dt, sp)].Call(f) == LeafDir(dt, sp) + "/" + f
  {
    BuilderCall(dt, sp, f);
    PathJoinSnoc(BASE_DIR, [DataTypeName(dt), SplitName(sp)], f);
    assert [DataTypeName(dt), SplitName(sp)] + [f] == [DataTypeName(dt), SplitName(sp), f];
  }

  /** Builders under different keys never produce the same path for the same
      (non-absolute) file name. */
  lemma BuildersDisjoint(dt1: DataType, sp1: Split, dt2: DataType, sp2: Split, f: string)
    requires !StartsWithSlash(f)
    requires (dt1, sp1) != (dt2, sp2)
    ensures PATHS[PathKey(dt1, sp1)].Call(f) != PATHS[PathKey(dt2, sp2)].Call(f)
  {
    assert PATHS[PathKey(dt1, sp1)].Call(f) == LeafDir(dt1, sp1) + "/" + f by { BuilderPath(dt1, sp1, f); }
    assert PATHS[PathKey(dt2, sp2)].Call(f) == LeafDir(dt2, sp2) + "/" + f by { BuilderPath(dt2, sp2, f); }
    LeafFilesDisjoint(dt1, sp1, dt2, sp2, f);
  }

  lemma LeafFilesDisjoint(dt1: DataType, sp1: Split, dt2: DataType, sp2: Split, f: string)
    requires (dt1, sp1) != (dt2, sp2)
    ensures LeafDir(dt1, sp1) + "/" + f != LeafDir(dt2, sp2) + "/" + f
  {
    LeafDirChars(dt1, sp1);
    LeafDirChars(dt2, sp2);
    var l1, l2 := LeafDir(dt1, sp1), LeafDir(dt2, sp2);
    assert (l1 + "/" + f)[9] == l1[9] && (l1 + "/" + f)[16] == l1[16];
    assert (l2 + "/" + f)[9] == l2[9] && (l2 + "/" + f)[16] == l2[16];
  }

  /** The characters that tell the four leaf directories apart: the data type
      name starts at 9 and the split name at 16. */
  lemma LeafDirChars(dt: DataType, sp: Split)
    ensures |LeafDir(dt, sp)| > 16
    ensures LeafDir(dt, sp)[9] == (if dt == Images then 'i' else 'l')
    ensures LeafDir(dt, sp)[16] == (if sp == Train then 't' else 'v')
  {
    var d := LeafDir(dt, sp);
    assert d == BASE_DIR + "/" + DataTypeName(dt) + "/" + SplitName(sp);
  }

  /** Directories made by the inner loop for one data type. */
  function RowDirs(dt: string, sps: seq<string>): set<string>
    decreases |sps|
  {
    if sps == [] then {}
    else RowDirs(dt, sps[..|sps| - 1]) + DirChain(DatasetFilePath([dt, sps[|sps| - 1]]))
  }

  /** Directories made by `create_dataset_structure(dts, sps)`. */
  function StructureDirs(dts: seq<string>, sps: seq<string>): set<string>
    decreases |dts|
  {
    if dts == [] then {}
    else StructureDirs(dts[..|dts| - 1], sps) + RowDirs(dts[|dts| - 1], sps)
  }

  /** `create_dataset_structure(data_types, splits)`: `os.makedirs` with
      `exist_ok=True` for every (data type, split) pair, in order. Files are
      untouched; running it when the directories exist changes nothing. */
  method CreateDatasetStructure(dataTypes: seq<string>, splits: seq<string>, fs: Fs) returns (fs': Fs)
    ensures fs'.files == fs.files
    ensures fs'.dirs == fs.dirs + StructureDirs(dataTypes, splits)
    ensures StructureDirs(dataTypes, splits) <= fs.dirs ==> fs' == fs
  {
    fs' := fs;
    for i := 0 to |dataTypes|
      invariant fs'.files == fs.files
      invariant fs'.dirs == fs.dirs + StructureDirs(dataTypes[..i], splits)
    {
      for j := 0 to |splits|
        invariant fs'.files == fs.files
        invariant fs'.dirs == fs.dirs + StructureDirs(dataTypes[..i], splits) + RowDirs(dataTypes[i], splits[..j])
      {
        fs' := MakeDirs(fs', DatasetFilePath([dataTypes[i], splits[j]]));
        RowDirsSnoc(dataTypes[i], splits, j);
      }
      StructureDirsSnoc(dataTypes, splits, i);
    }
    assert dataTypes[..|dataTypes|] == dataTypes;
    if StructureDirs(dataTypes, splits) <= fs.dirs {
      assert fs'.dirs == fs.dirs;
    }
  }

  /** One more iteration of the inner loop adds the chain of one leaf. */
  lemma RowDirsSnoc(dt: string, sps: seq<string>, j: nat)
    requires j < |sps|
    ensures RowDirs(dt, sps[..j + 1]) == RowDirs(dt, sps[..j]) + DirChain(DatasetFilePath([dt, sps[j]]))
  {
    assert sps[..j + 1][..j] == sps[..j];
  }

  /** One more iteration of the outer loop adds the directories of one row. */
  lemma StructureDirsSnoc(dts: seq<string>, sps: seq<string>, i: nat)
    requires i < |dts|
    ensures StructureDirs(dts[..i + 1], sps) == StructureDirs(dts[..i], sps) + RowDirs(dts[i], sps[..|sps|])
  {
    assert dts[..i + 1][..i] == dts[..i];
    assert sps[..|sps|] == sps;
  }

  lemma {:induction false} RowHasLeaf(dt: string, sps: seq<string>, sp: string)
    requires sp in sps
    ensures DatasetFilePath([dt, sp]) in RowDirs(dt, sps)
    decreases |sps|
  {
    if sps[|sps| - 1] != sp {
      assert sp in sps[..|sps| - 1] by {
        var k :| 0 <= k < |sps| && sps[k] == sp;
        assert sps[..|sps| - 1][k] == sp;
      }
      RowHasLeaf(dt, sps[..|sps| - 1], sp);
    }
  }

  /** Every BASE_DIR/<data_type>/<split> directory exists afterwards. */
  lemma {:induction false} StructureHasLeaf(dts: seq<string>, sps: seq<string>, dt: string, sp: string)
    requires dt in dts && sp in sps
    ensures DatasetFilePath([dt, sp]) in StructureDirs(dts, sps)
    decreases |dts|
  {
    if dts[|dts| - 1] == dt {
      RowHasLeaf(dt, sps, sp);
    } else {
      assert dt in dts[..|dts| - 1] by {
        var k :| 0 <= k < |dts| && dts[k] == dt;
        assert dts[..|dts| - 1][k] == dt;
      }
      StructureHasLeaf(dts[..|dts| - 1], sps, dt, sp);
    }
  }

  /** Everything `create_dataset_structure` makes is BASE_DIR/<dt>/<sp> or
      one of its ancestors. */
  lemma {:induction false} StructureDirsAreChains(dts: seq<string>, sps: seq<string>, d: string)
    requires d in StructureDirs(dts, sps)
    ensures exists i, j :: 0 <= i < |dts| && 0 <= j < |sps| && d in DirChain(DatasetFilePath([dts[i], sps[j]]))
    decreases |dts|
  {
    var n := |dts| - 1;
    if d in RowDirs(dts[n], sps) {
      var j := RowDirsAreChains(dts[n], sps, d);
      assert d in DirChain(DatasetFilePath([dts[n], sps[j]]));
    } else {
      StructureDirsAreChains(dts[..n], sps, d);
      var i, j :| 0 <= i < n && 0 <= j < |sps| && d in DirChain(DatasetFilePath([dts[..n][i], sps[j]]));
      assert dts[..n][i] == dts[i];
    }
  }

  lemma {:induction false} RowDirsAreChains(dt: string, sps: seq<string>, d: string) returns (j: nat)
    requires d in RowDirs(dt, sps)
    ensures j < |sps| && d in DirChain(DatasetFilePath([dt, sps[j]]))
    decreases |sps|
  {
    var n := |sps| - 1;
    if d in DirChain(DatasetFilePath([dt, sps[n]])) {
      j := n;
    } else {
      j := RowDirsAreChains(dt, sps[..n], d);
    }
  }

  /** The names the program passes: DATA_TYPES and SPLITS as strings. */
  function DataTypeNames(ds: seq<DataType>): (r: seq<string>)
    ensures |r| == |ds| && forall k :: 0 <= k < |ds| ==> r[k] == DataTypeName(ds[k])
  {
    if ds == [] then [] else [DataTypeName(ds[0])] + DataTypeNames(ds[1..])
  }

  function SplitNames(ss: seq<Split>): (r: seq<string>)
    ensures |r| == |ss| && forall k :: 0 <= k < |ss| ==> r[k] == SplitName(ss[k])
  {
    if ss == [] then [] else [SplitName(ss[0])] + SplitNames(ss[1..])
  }

  /** With the default constants, four leaf directories exist afterwards,
      one per (data type, split) pair, and they are distinct. */
  lemma DefaultStructure()
    ensures forall dt: DataType, sp: Split :: LeafDir(dt, sp) in StructureDirs(DataTypeNames(DATA_TYPES), SplitNames(SPLITS))
    ensures |{LeafDir(Images, Train), LeafDir(Images, Val), LeafDir(Labels, Train), LeafDir(Labels, Val)}| == 4
  {
    DefaultLeaves();
    LeavesDistinct();
  }

  lemma DefaultLeaves()
    ensures forall dt: DataType, sp: Split :: LeafDir(dt, sp) in StructureDirs(DataTypeNames(DATA_TYPES), SplitNames(SPLITS))
  {
    var dts := DataTypeNames(DATA_TYPES);
    var sps := SplitNames(SPLITS);
    forall dt: DataType, sp: Split
      ensures LeafDir(dt, sp) in StructureDirs(dts, sps)
    {
      var i := if dt == Images then 0 else 1;
      var j := if sp == Train then 0 else 1;
      assert dts[i] == DataTypeName(dt);
      assert sps[j] == SplitName(sp);
      StructureHasLeaf(dts, sps, dts[i], sps[j]);
    }
  }

  lemma LeavesDistinct()
    ensures |{LeafDir(Images, Train), LeafDir(Images, Val), LeafDir(Labels, Train), LeafDir(Labels, Val)}| == 4
  {
    LeafDirChars(Images, Train);
    LeafDirChars(Images, Val);
    LeafDirChars(Labels, Train);
    LeafDirChars(Labels, Val);
  }
}
