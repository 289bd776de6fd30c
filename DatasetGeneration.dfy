/** src/dataset_generation.py: the two bounded samplers, the dataset
    configuration and the `create_dataset` loop, which writes one image and
    one label for every example. The random generator is a nondeterministic
    choice within the inclusive bounds of `random.randint`. */
module DatasetGeneration {
  import opened Common
  import opened Strings
  import opened FileSystem
  import opened TrainingStructure
  import opened LabelGeneration
  import opened FilesGeneration

  // ---------------------------------------------------------------- sampling

  /** What `random_circle_params` can return: a radius in [10, 50] and a
      centre at least one radius away from every edge. */
  predicate CircleSampled(p: Params)
  {
    10 <= p.size <= 50 &&
    p.size <= p.x <= IMAGE_WIDTH - p.size && p.size <= p.y <= IMAGE_HEIGHT - p.size
  }

  /** What `random_square_params` can return: a side in [10, 50] and a
      corner that leaves room for the side on both axes. */
  predicate SquareSampled(p: Params)
  {
    10 <= p.size <= 50 &&
    0 <= p.x <= IMAGE_WIDTH - p.size && 0 <= p.y <= IMAGE_HEIGHT - p.size
  }

  predicate Sampled(shape: Shape, p: Params)
  {
    match shape
    case Circle => CircleSampled(p)
    case Square => SquareSampled(p)
  }

  /** `random_circle_params()` */
  method RandomCircleParams() returns (p: Params)
    ensures CircleSampled(p)
  {
    assert 10 <= 10 <= 50;
    var radius :| 10 <= radius <= 50;
    assert radius <= radius <= IMAGE_WIDTH - radius;
    var xCenter :| radius <= xCenter <= IMAGE_WIDTH - radius;
    var yCenter :| radius <= yCenter <= IMAGE_HEIGHT - radius;
    p := Params(xCenter, yCenter, radius);
  }

  /** `random_square_params()` */
  method RandomSquareParams() returns (p: Params)
    ensures SquareSampled(p)
  {
    assert 10 <= 10 <= 50;
    var size :| 10 <= size <= 50;
    assert 0 <= 0 <= IMAGE_WIDTH - size;
    var x :| 0 <= x <= IMAGE_WIDTH - size;
    var y :| 0 <= y <= IMAGE_HEIGHT - size;
    p := Params(x, y, size);
  }

  /** `RANDOM_PARAMS[shape]()` */
  method RandomParams(shape: Shape) returns (p: Params)
    ensures Sampled(shape, p)
  {
    match shape {
      case Circle => p := RandomCircleParams();
      case Square => p := RandomSquareParams();
    }
  }

  /** A sampled shape stays within [0, 256] in both directions: its extent
      and every point it covers lie there. The canvas itself has columns and
      rows 0 .. 255 only, so the last line of the range is outside it (see
      SampledShapesReachPastLastColumn). */
  lemma SampledInsideCanvas(shape: Shape, p: Params, px: int, py: int)
    requires Sampled(shape, p)
    ensures var e := DrawnExtent(DrawPropsOf(shape, p.x, p.y, p.size));
      0 <= e.0 <= e.2 <= IMAGE_WIDTH && 0 <= e.1 <= e.3 <= IMAGE_HEIGHT
    ensures Covers(DrawPropsOf(shape, p.x, p.y, p.size), px, py) ==>
      0 <= px <= IMAGE_WIDTH && 0 <= py <= IMAGE_HEIGHT
  {
    if Covers(DrawPropsOf(shape, p.x, p.y, p.size), px, py) {
      CoveredInsideLabelBox(shape, p.x, p.y, p.size, px, py);
    }
  }

  /** The sampled ranges reach one pixel past the canvas: a circle of radius
      20 centred at (236, 100) and a square of side 50 at (206, 0) can both
      be sampled and both cover column 256, which `cv2` clips away. */
  lemma SampledShapesReachPastLastColumn()
    ensures CircleSampled(Params(236, 100, 20)) && Covers(DrawPropsOf(Circle, 236, 100, 20), IMAGE_WIDTH, 100)
    ensures SquareSampled(Params(206, 0, 50)) && Covers(DrawPropsOf(Square, 206, 0, 50), IMAGE_WIDTH, 0)
    ensures IMAGE_WIDTH == 256
  {
    var c := DrawPropsOf(Circle, 236, 100, 20);
    assert c.center == (236, 100) && c.radius == 20;
    var q := DrawPropsOf(Square, 206, 0, 50);
    assert q.pt1 == (206, 0) && q.pt2 == (256, 50);
  }

  /** For sampled parameters the four normalised label fields lie in [0, 1],
      and so does the whole box: centre minus and plus half the side. */
  lemma SampledLabelInUnitRange(shape: Shape, p: Params)
    requires Sampled(shape, p)
    ensures var lp := LabelParams(shape, p.x, p.y, p.size);
      var b := NormalizeBbox(lp.0, lp.1, lp.2);
      (forall k :: 0 <= k < 4 ==> 0.0 <= b[k] <= 1.0) &&
      0.0 <= b[0] - b[2] / 2.0 && b[0] + b[2] / 2.0 <= 1.0 &&
      0.0 <= b[1] - b[3] / 2.0 && b[1] + b[3] / 2.0 <= 1.0
  {
    var lp := LabelParams(shape, p.x, p.y, p.size);
    SampledInsideCanvas(shape, p, 0, 0);
    NormalizedInUnitRange(lp.0, lp.1, lp.2);
  }

  // ----------------------------------------------------------- configuration

  /** One row of DATA_CONFIG: how many examples of a shape go to a split. */
  datatype ConfigEntry = ConfigEntry(shape: Shape, split: Split, count: nat)

  const DATA_CONFIG: seq<ConfigEntry> := [
    ConfigEntry(Circle, Train, 30),
    ConfigEntry(Square, Train, 30),
    ConfigEntry(Circle, Val, 3),
    ConfigEntry(Square, Val, 3)
  ]

  /** Which example an iteration of the loop produces. */
  datatype ExampleId = ExampleId(shape: Shape, split: Split, index: nat)

  /** A generated example: its identity and the parameters drawn for it. */
  datatype Example = Example(id: ExampleId, params: Params)

  /** The examples of one entry: indices 0 .. count-1, in order. */
  function EntryIds(e: ConfigEntry): (ids: seq<ExampleId>)
    ensures |ids| == e.count
    ensures forall i :: 0 <= i < e.count ==> ids[i] == ExampleId(e.shape, e.split, i)
  {
    seq(e.count, i requires 0 <= i < e.count => ExampleId(e.shape, e.split, i))
  }

  /** The examples of a whole configuration, entry after entry. */
  function ExampleIds(config: seq<ConfigEntry>): seq<ExampleId>
  {
    if config == [] then []
    else ExampleIds(config[..|config| - 1]) + EntryIds(config[|config| - 1])
  }

  function Ids(exs: seq<Example>): (ids: seq<ExampleId>)
    ensures |ids| == |exs| && forall k :: 0 <= k < |exs| ==> ids[k] == exs[k].id
  {
    seq(|exs|, k requires 0 <= k < |exs| => exs[k].id)
  }

  /** The sum of the counts of a configuration. */
  function TotalCount(config: seq<ConfigEntry>): nat
  {
    if config == [] then 0 else TotalCount(config[..|config| - 1]) + config[|config| - 1].count
  }

  /** The sum of the counts of the entries for one split. */
  function SplitCount(config: seq<ConfigEntry>, sp: Split): nat
  {
    if config == [] then 0
    else SplitCount(config[..|config| - 1], sp) + (if config[|config| - 1].split == sp then config[|config| - 1].count else 0)
  }

  /** Number of examples for one split. */
  function CountSplit(ids: seq<ExampleId>, sp: Split): nat
  {
    if ids == [] then 0 else CountSplit(ids[..|ids| - 1], sp) + (if ids[|ids| - 1].split == sp then 1 else 0)
  }

  // ------------------------------------------------------------------- names

  /** `f"{shape}_{split}_{i}"` */
  function Stem(id: ExampleId): string
  {
    ShapeName(id.shape) + "_" + SplitName(id.split) + "_" + NatToString(id.index)
  }

  function ImageName(id: ExampleId): string
  {
    Stem(id) + ".jpg"
  }

  function LabelName(id: ExampleId): string
  {
    Stem(id) + ".txt"
  }

  /** Where the loop sends the image: `paths[f"images_{split}"]`. */
  function ImagePath(id: ExampleId): string
  {
    Builder(Images, id.split).Call(ImageName(id))
  }

  /** Where the loop sends the label: `paths[f"labels_{split}"]`. */
  function LabelPath(id: ExampleId): string
  {
    Builder(Labels, id.split).Call(LabelName(id))
  }

  /** The two writes of one iteration. */
  function ImageWrite(ex: Example): FileWrite
  {
    MakeImageObject(ex.id.shape, ex.params.x, ex.params.y, ex.params.size, ImageName(ex.id), Builder(Images, ex.id.split))
  }

  function LabelWrite(ex: Example): FileWrite
  {
    MakeLabelObject(ex.id.shape, ex.params.x, ex.params.y, ex.params.size, LabelName(ex.id), Builder(Labels, ex.id.split))
  }

  // ----------------------------------------------------------------- the run

  /** The file system after a run, and the error that ended it, if any. */
  datatype Outcome = Outcome(fs: Fs, err: Option<OsError>)

  /** The two writes one pass of the inner loop issues, image first. */
  datatype Iteration = Iteration(imageWrite: FileWrite, labelWrite: FileWrite)

  /** One pass of the inner loop on the file system. `cv2.imwrite` reports
      a failed write by returning False, which the program ignores; `open`
      for the label raises, which ends the run with the image already
      written. */
  function Apply(fs: Fs, it: Iteration): (o: Outcome)
    ensures o.fs.dirs == fs.dirs
    ensures o.err.Some? ==> o.err.value.path == it.labelWrite.path
  {
    var fs1 := match WriteFile(fs, it.imageWrite.path, it.imageWrite.content) case Ok(f) => f case Err(_) => fs;
    match WriteFile(fs1, it.labelWrite.path, it.labelWrite.content)
    case Ok(f) => Outcome(f, None)
    case Err(e) => Outcome(fs1, Some(e))
  }

  /** What one pass leaves: it fails exactly when the label cannot be
      opened; an opened label holds its text, an image that could be
      written (to another path than the label) holds its drawing; files
      are only added at the paths that could be written, and no other file
      changes. */
  predicate PassEffect(fs: Fs, it: Iteration, o: Outcome)
  {
    (o.err.None? <==> CanWrite(fs, it.labelWrite.path)) &&
    (o.err.None? ==> Holds(o.fs.files, it.labelWrite)) &&
    (CanWrite(fs, it.imageWrite.path) && it.imageWrite.path != it.labelWrite.path ==>
      Holds(o.fs.files, it.imageWrite)) &&
    ChangesOnly(fs.files, WritablePaths(fs, it), o.fs.files) &&
    WritablePaths(fs, it) <= o.fs.files.Keys
  }

  /** Every pass has the effect `PassEffect` describes. */
  lemma ApplyEffect(fs: Fs, it: Iteration)
    ensures PassEffect(fs, it, Apply(fs, it))
  {
    var img, lbl := it.imageWrite, it.labelWrite;
    var fs1 := match WriteFile(fs, img.path, img.content) case Ok(f) => f case Err(_) => fs;
    assert fs1.dirs == fs.dirs;
    assert CanWrite(fs1, lbl.path) == CanWrite(fs, lbl.path);
  }

  /** The paths of a pass that `open` accepts: the ones the pass writes. */
  function WritablePaths(fs: Fs, it: Iteration): set<string>
  {
    (if CanWrite(fs, it.imageWrite.path) then {it.imageWrite.path} else {}) +
    (if CanWrite(fs, it.labelWrite.path) then {it.labelWrite.path} else {})
  }

  /** `after` keeps every file of `before`, adds files only at paths in `ts`,
      and changes no file outside `ts`. */
  predicate ChangesOnly(before: map<string, Content>, ts: set<string>, after: map<string, Content>)
  {
    before.Keys <= after.Keys && after.Keys <= before.Keys + ts &&
    forall p :: p in before && p !in ts ==> after[p] == before[p]
  }

  function IterationOf(ex: Example): Iteration
  {
    Iteration(ImageWrite(ex), LabelWrite(ex))
  }

  function Iterations(exs: seq<Example>): (its: seq<Iteration>)
    ensures |its| == |exs| && forall k :: 0 <= k < |exs| ==> its[k] == IterationOf(exs[k])
  {
    seq(|exs|, k requires 0 <= k < |exs| => IterationOf(exs[k]))
  }

  /** Passes in order, stopping at the first error. */
  function RunIterations(fs: Fs, its: seq<Iteration>): (o: Outcome)
    ensures o.fs.dirs == fs.dirs
  {
    if its == [] then Outcome(fs, None)
    else
      var o := RunIterations(fs, its[..|its| - 1]);
      if o.err.Some? then o else Apply(o.fs, its[|its| - 1])
  }

  /** A run, however it ends, keeps every file it found, writes only at the
      paths of its passes, and an error it stops at is the label of one of
      its passes. */
  lemma {:induction false} RunIterationsFrame(fs: Fs, its: seq<Iteration>)
    ensures ChangesOnly(fs.files, Targets(its), RunIterations(fs, its).fs.files)
    ensures var o := RunIterations(fs, its);
      o.err.Some? ==> exists k :: 0 <= k < |its| && o.err.value.path == its[k].labelWrite.path
  {
    if its != [] {
      var init, last := its[..|its| - 1], its[|its| - 1];
      RunIterationsFrame(fs, init);
      var o := RunIterations(fs, init);
      if o.err.Some? {
        var k :| 0 <= k < |init| && o.err.value.path == init[k].labelWrite.path;
        assert init[k] == its[k];
      } else {
        var o' := Apply(o.fs, last);
        ApplyEffect(o.fs, last);
        assert WritablePaths(o.fs, last) <= {last.imageWrite.path, last.labelWrite.path};
        assert o'.err.Some? ==> o'.err.value.path == its[|its| - 1].labelWrite.path;
      }
    }
  }

  /** The loop over a sequence of examples. */
  function Run(fs: Fs, exs: seq<Example>): (o: Outcome)
    ensures o.fs.dirs == fs.dirs
  {
    RunIterations(fs, Iterations(exs))
  }

  lemma RunSnoc(fs: Fs, exs: seq<Example>, ex: Example)
    requires Run(fs, exs).err.None?
    ensures Run(fs, exs + [ex]) == Apply(Run(fs, exs).fs, IterationOf(ex))
  {
    var its := Iterations(exs + [ex]);
    assert its[..|exs|] == Iterations(exs);
  }

  lemma {:induction false} ExampleIdsPrefix(config: seq<ConfigEntry>, j: nat)
    requires j <= |config|
    ensures ExampleIds(config[..j]) <= ExampleIds(config)
    decreases |config|
  {
    if j < |config| {
      var init := config[..|config| - 1];
      assert init[..j] == config[..j];
      ExampleIdsPrefix(init, j);
    } else {
      assert config[..j] == config;
    }
  }

  /** Every example carries parameters its shape's sampler can produce. */
  predicate AllSampled(exs: seq<Example>)
  {
    forall k :: 0 <= k < |exs| ==> Sampled(exs[k].id.shape, exs[k].params)
  }

  /** Appending the example for index i of an entry extends the generated
      identities by that example. */
  lemma IdsSnoc(exs: seq<Example>, ex: Example, prefix: seq<ExampleId>, e: ConfigEntry, i: nat)
    requires i < e.count && ex.id == ExampleId(e.shape, e.split, i)
    requires Ids(exs) == prefix + EntryIds(e)[..i]
    requires AllSampled(exs) && Sampled(ex.id.shape, ex.params)
    ensures Ids(exs + [ex]) == prefix + EntryIds(e)[..i + 1]
    ensures AllSampled(exs + [ex])
  {
    assert Ids(exs + [ex]) == Ids(exs) + [ex.id];
    assert EntryIds(e)[..i + 1] == EntryIds(e)[..i] + [ex.id];
    assert (prefix + EntryIds(e)[..i]) + [ex.id] == prefix + (EntryIds(e)[..i] + [ex.id]);
  }

  /** The examples of the first j entries followed by the first i of the
      next entry are the start of the configuration's examples. */
  lemma PartialIdsPrefix(config: seq<ConfigEntry>, j: nat, i: nat)
    requires j < |config| && i <= config[j].count
    ensures ExampleIds(config[..j]) + EntryIds(config[j])[..i] <= ExampleIds(config)
  {
    ExampleIdsPrefix(config, j + 1);
    ExampleIdsNext(config, j);
    PrefixOfConcat(ExampleIds(config[..j]), EntryIds(config[j]), ExampleIds(config), i);
  }

  /** A start of `a + b` that takes all of `a` and part of `b` is a start of
      whatever `a + b` is a start of. */
  lemma PrefixOfConcat<T>(a: seq<T>, b: seq<T>, all: seq<T>, i: nat)
    requires a + b <= all && i <= |b|
    ensures a + b[..i] <= all
  {
    assert a + b[..i] == (a + b)[..|a| + i];
  }

  lemma ExampleIdsNext(config: seq<ConfigEntry>, j: nat)
    requires j < |config|
    ensures ExampleIds(config[..j + 1]) == ExampleIds(config[..j]) + EntryIds(config[j])
  {
    assert config[..j + 1][..j] == config[..j];
  }

  /** One pass of the inner loop of `create_dataset`: draw parameters,
      name the files after the example, write the image, then the label. */
  method GenerateExample(shape: Shape, split: Split, i: nat, imgPathBuilder: PathBuilder, labelPathBuilder: PathBuilder, fs: Fs,
                         ghost start: Fs, ghost done: seq<Example>)
    returns (fs': Fs, err: Option<OsError>, ghost ex: Example)
    requires imgPathBuilder == Builder(Images, split) && labelPathBuilder == Builder(Labels, split)
    requires Run(start, done) == Outcome(fs, None)
    ensures ex.id == ExampleId(shape, split, i) && Sampled(shape, ex.params)
    ensures Run(start, done + [ex]) == Outcome(fs', err)
    ensures err.Some? ==> err.value.path == LabelPath(ex.id)
  {
    var p := RandomParams(shape);
    var filenameBase := Stem(ExampleId(shape, split, i));
    var img := MakeImageObject(shape, p.x, p.y, p.size, filenameBase + ".jpg", imgPathBuilder);
    var lbl := MakeLabelObject(shape, p.x, p.y, p.size, filenameBase + ".txt", labelPathBuilder);
    ex := Example(ExampleId(shape, split, i), p);
    fs', err := fs, None;
    match WriteFile(fs', img.path, img.content) {
      case Ok(f) => fs' := f;
      case Err(_) =>
    }
    match WriteFile(fs', lbl.path, lbl.content) {
      case Ok(f) => fs' := f;
      case Err(e) => err := Some(e);
    }
    assert Apply(fs, IterationOf(ex)) == Outcome(fs', err);
    RunSnoc(start, done, ex);
    IterationPaths(ex);
  }

  /** `create_dataset()`, with the configuration and the `paths` dictionary
      as parameters. The ghost
      `generated` records the examples the loop went through and the
      parameters drawn for them. The outcome is the run of those examples;
      they are the configuration's examples in order, each with parameters
      its shape's sampler can produce; without an error all of them were
      generated, and an error comes from the label write of the last one. */
  method CreateDataset(config: seq<ConfigEntry>, paths: map<string, PathBuilder>, fs: Fs)
    returns (fs': Fs, err: Option<OsError>, ghost generated: seq<Example>)
    requires HoldsBuilders(paths)
    ensures Run(fs, generated) == Outcome(fs', err)
    ensures Ids(generated) <= ExampleIds(config)
    ensures AllSampled(generated)
    ensures err.None? ==> Ids(generated) == ExampleIds(config)
    ensures err.Some? ==>
      |generated| > 0 && Run(fs, generated[..|generated| - 1]).err.None? &&
      err.value.path == LabelPath(generated[|generated| - 1].id)
  {
    fs', err, generated := fs, None, [];
    for j := 0 to |config|
      invariant Run(fs, generated) == Outcome(fs', None)
      invariant Ids(generated) == ExampleIds(config[..j])
      invariant AllSampled(generated)
    {
      var entry := config[j];
      var imgPathBuilder := paths[PathKey(Images, entry.split)];
      var labelPathBuilder := paths[PathKey(Labels, entry.split)];
      for i := 0 to entry.count
        invariant Run(fs, generated) == Outcome(fs', None)
        invariant Ids(generated) == ExampleIds(config[..j]) + EntryIds(entry)[..i]
        invariant AllSampled(generated)
      {
        var stepErr;
        ghost var ex;
        ghost var before := generated;
        fs', stepErr, ex := GenerateExample(entry.shape, entry.split, i, imgPathBuilder, labelPathBuilder, fs', fs, generated);
        IdsSnoc(generated, ex, ExampleIds(config[..j]), entry, i);
        generated := generated + [ex];
        if stepErr.Some? {
          err := stepErr;
          assert generated[..|generated| - 1] == before;
          PartialIdsPrefix(config, j, i + 1);
          return;
        }
      }
      ExampleIdsNext(config, j);
    }
    assert config[..|config|] == config;
  }

  // ------------------------------------------------------- names and paths

  /** The stem starts with the shape name (letter 0 tells the shapes apart),
      the split name starts at letter 7, and there is no '/' in it. */
  lemma StemChars(id: ExampleId)
    ensures |Stem(id)| >= 12
    ensures Stem(id)[0] == (if id.shape == Circle then 'c' else 's')
    ensures Stem(id)[7] == (if id.split == Train then 't' else 'v')
    ensures '/' !in Stem(id)
  {
    var digits := NatToString(id.index);
    var prefix := ShapeName(id.shape) + "_" + SplitName(id.split) + "_";
    assert Stem(id) == prefix + digits;
    assert '/' !in digits by {
      assert forall i :: 0 <= i < |digits| ==> IsDigit(digits[i]);
    }
  }

  /** Different examples have different stems. */
  lemma StemInjective(a: ExampleId, b: ExampleId)
    requires Stem(a) == Stem(b)
    ensures a == b
  {
    StemChars(a);
    StemChars(b);
    assert a.shape == b.shape && a.split == b.split;
    var prefix := ShapeName(a.shape) + "_" + SplitName(a.split) + "_";
    assert Stem(a) == prefix + NatToString(a.index);
    assert Stem(b) == prefix + NatToString(b.index);
    assert NatToString(a.index) == Stem(a)[|prefix|..];
    assert NatToString(b.index) == Stem(b)[|prefix|..];
    NatToStringInjective(a.index, b.index);
  }

  lemma NamesPlain(id: ExampleId)
    ensures '/' !in ImageName(id) && '/' !in LabelName(id)
    ensures !StartsWithSlash(ImageName(id)) && !StartsWithSlash(LabelName(id))
    ensures |ImageName(id)| >= 16 && |LabelName(id)| >= 16
  {
    StemChars(id);
    assert ImageName(id)[0] == Stem(id)[0] && LabelName(id)[0] == Stem(id)[0];
  }

  /** The image of an example lives in BASE_DIR/images/<split>, its label in
      BASE_DIR/labels/<split>, under the stem with ".jpg" and ".txt". */
  lemma ExamplePaths(id: ExampleId)
    ensures ImagePath(id) == LeafDir(Images, id.split) + "/" + ImageName(id)
    ensures LabelPath(id) == LeafDir(Labels, id.split) + "/" + LabelName(id)
    ensures Parent(ImagePath(id)) == LeafDir(Images, id.split)
    ensures Parent(LabelPath(id)) == LeafDir(Labels, id.split)
  {
    NamesPlain(id);
    PathsEntry(Images, id.split);
    PathsEntry(Labels, id.split);
    BuilderPath(Images, id.split, ImageName(id));
    BuilderPath(Labels, id.split, LabelName(id));
    ParentOfChild(LeafDir(Images, id.split), ImageName(id));
    ParentOfChild(LeafDir(Labels, id.split), LabelName(id));
  }

  /** A file directly under a leaf determines the leaf's split and its own name. */
  lemma LeafChildInjective(dt: DataType, sp1: Split, sp2: Split, n1: string, n2: string)
    requires LeafDir(dt, sp1) + "/" + n1 == LeafDir(dt, sp2) + "/" + n2
    ensures sp1 == sp2 && n1 == n2
  {
    var p := LeafDir(dt, sp1) + "/" + n1;
    LeafDirChars(dt, sp1);
    LeafDirChars(dt, sp2);
    assert p[16] == LeafDir(dt, sp1)[16] && p[16] == LeafDir(dt, sp2)[16];
    var d := LeafDir(dt, sp1);
    assert n1 == p[|d| + 1..];
  }

  /** Image files and label files sit in different trees. */
  lemma ImageNotLabel(a: ExampleId, b: ExampleId)
    ensures ImagePath(a) != LabelPath(b)
  {
    ExamplePaths(a);
    ExamplePaths(b);
    LeafDirChars(Images, a.split);
    LeafDirChars(Labels, b.split);
    assert ImagePath(a)[9] == 'i' && LabelPath(b)[9] == 'l';
  }

  /** No two examples share an image file. */
  lemma ImagePathInjective(a: ExampleId, b: ExampleId)
    requires ImagePath(a) == ImagePath(b)
    ensures a == b
  {
    ExamplePaths(a);
    ExamplePaths(b);
    LeafChildInjective(Images, a.split, b.split, ImageName(a), ImageName(b));
    assert Stem(a) == ImageName(a)[..|ImageName(a)| - 4];
    StemInjective(a, b);
  }

  /** No two examples share a label file. */
  lemma LabelPathInjective(a: ExampleId, b: ExampleId)
    requires LabelPath(a) == LabelPath(b)
    ensures a == b
  {
    ExamplePaths(a);
    ExamplePaths(b);
    LeafChildInjective(Labels, a.split, b.split, LabelName(a), LabelName(b));
    assert Stem(a) == LabelName(a)[..|LabelName(a)| - 4];
    StemInjective(a, b);
  }

  /** Images never land on labels, and no two examples share a file. */
  lemma PathsInjective(a: ExampleId, b: ExampleId)
    ensures ImagePath(a) != LabelPath(b) && LabelPath(a) != ImagePath(b)
    ensures ImagePath(a) == ImagePath(b) ==> a == b
    ensures LabelPath(a) == LabelPath(b) ==> a == b
  {
    ImageNotLabel(a, b);
    ImageNotLabel(b, a);
    if ImagePath(a) == ImagePath(b) {
      ImagePathInjective(a, b);
    }
    if LabelPath(a) == LabelPath(b) {
      LabelPathInjective(a, b);
    }
  }

  // ---------------------------------------------------- what a run writes

  /** The four leaf directories exist. */
  predicate LeavesExist(fs: Fs)
  {
    forall dt: DataType, sp: Split :: LeafDir(dt, sp) in fs.dirs
  }

  /** The leaves exist and no example's file path is taken by a directory. */
  predicate Ready(fs: Fs, exs: seq<Example>)
  {
    LeavesExist(fs) &&
    forall k :: 0 <= k < |exs| ==> ImagePath(exs[k].id) !in fs.dirs && LabelPath(exs[k].id) !in fs.dirs
  }

  predicate DistinctIds(ids: seq<ExampleId>)
  {
    forall k1, k2 :: 0 <= k1 < k2 < |ids| ==> ids[k1] != ids[k2]
  }

  lemma PrefixDistinct(a: seq<ExampleId>, b: seq<ExampleId>)
    requires a <= b && DistinctIds(b)
    ensures DistinctIds(a)
  {
    forall k1, k2 | 0 <= k1 < k2 < |a|
      ensures a[k1] != a[k2]
    {
      assert a[k1] == b[k1] && a[k2] == b[k2];
    }
  }

  /** No two writes of the passes, within one pass or across two, share a path. */
  predicate DistinctTargets(its: seq<Iteration>)
  {
    (forall k :: 0 <= k < |its| ==> its[k].imageWrite.path != its[k].labelWrite.path) &&
    forall k1, k2 :: 0 <= k1 < k2 < |its| ==>
      its[k1].imageWrite.path != its[k2].imageWrite.path && its[k1].imageWrite.path != its[k2].labelWrite.path &&
      its[k1].labelWrite.path != its[k2].imageWrite.path && its[k1].labelWrite.path != its[k2].labelWrite.path
  }

  /** The paths the passes write. */
  function Targets(its: seq<Iteration>): set<string>
  {
    if its == [] then {}
    else Targets(its[..|its| - 1]) + {its[|its| - 1].imageWrite.path, its[|its| - 1].labelWrite.path}
  }

  lemma {:induction false} TargetsMember(its: seq<Iteration>, p: string) returns (k: nat)
    requires p in Targets(its)
    ensures k < |its| && (p == its[k].imageWrite.path || p == its[k].labelWrite.path)
  {
    var init := its[..|its| - 1];
    if p in Targets(init) {
      k := TargetsMember(init, p);
    } else {
      k := |its| - 1;
    }
  }

  /** Passes whose writes have distinct paths write two files each. */
  lemma {:induction false} TargetsCount(its: seq<Iteration>)
    requires DistinctTargets(its)
    ensures |Targets(its)| == 2 * |its|
  {
    if its != [] {
      var init, last := its[..|its| - 1], its[|its| - 1];
      assert DistinctTargets(init);
      TargetsCount(init);
      forall p | p in Targets(init)
        ensures p != last.imageWrite.path && p != last.labelWrite.path
      {
        var k := TargetsMember(init, p);
        assert init[k] == its[k];
      }
      assert Targets(its) == Targets(init) + {last.imageWrite.path, last.labelWrite.path};
    }
  }

  /** `files` holds, at the path of `w`, what `w` wrote. */
  predicate Holds(files: map<string, Content>, w: FileWrite)
  {
    w.path in files && files[w.path] == w.content
  }

  /** The passes ran to the end without an error and left the directories
      of `fs` as they were; the files are those of `fs` and the targets,
      each target holds what its pass wrote, and no other file changed. */
  predicate WroteAll(fs: Fs, its: seq<Iteration>, o: Outcome)
  {
    o.err.None? && o.fs.dirs == fs.dirs &&
    o.fs.files.Keys == fs.files.Keys + Targets(its) &&
    (forall p :: p in fs.files && p !in Targets(its) ==> o.fs.files[p] == fs.files[p]) &&
    forall k :: 0 <= k < |its| ==> Holds(o.fs.files, its[k].imageWrite) && Holds(o.fs.files, its[k].labelWrite)
  }

  /** Passes that can all write, to distinct paths, fail nowhere and write
      everything. */
  lemma {:induction false} RunIterationsWritesAll(fs: Fs, its: seq<Iteration>)
    requires forall k :: 0 <= k < |its| ==> CanWrite(fs, its[k].imageWrite.path) && CanWrite(fs, its[k].labelWrite.path)
    requires DistinctTargets(its)
    ensures WroteAll(fs, its, RunIterations(fs, its))
  {
    if its != [] {
      var init, last := its[..|its| - 1], its[|its| - 1];
      assert DistinctTargets(init);
      RunIterationsWritesAll(fs, init);
      var o := RunIterations(fs, init);
      var files := o.fs.files[last.imageWrite.path := last.imageWrite.content][last.labelWrite.path := last.labelWrite.content];
      assert CanWrite(o.fs, last.imageWrite.path) && CanWrite(o.fs, last.labelWrite.path);
      assert RunIterations(fs, its) == Outcome(Fs(fs.dirs, files), None);
      forall k | 0 <= k < |its|
        ensures Holds(files, its[k].imageWrite) && Holds(files, its[k].labelWrite)
      {
        if k < |its| - 1 {
          assert its[k] == init[k];
          assert Holds(o.fs.files, init[k].imageWrite) && Holds(o.fs.files, init[k].labelWrite);
        }
      }
    }
  }

  /** The writes of an example go to its image path and its label path. */
  lemma IterationPaths(ex: Example)
    ensures IterationOf(ex).imageWrite.path == ImagePath(ex.id)
    ensures IterationOf(ex).labelWrite.path == LabelPath(ex.id)
  {
  }

  /** The paths a run over `exs` writes. */
  function WrittenPaths(exs: seq<Example>): set<string>
  {
    Targets(Iterations(exs))
  }

  /** The loop over examples, however it ends, keeps every file it found,
      writes only images and labels of its examples, and an error it stops
      at is the label of one of them. */
  lemma RunFrame(fs: Fs, exs: seq<Example>)
    ensures ChangesOnly(fs.files, WrittenPaths(exs), Run(fs, exs).fs.files)
    ensures var o := Run(fs, exs);
      o.err.Some? ==> exists k :: 0 <= k < |exs| && o.err.value.path == LabelWrite(exs[k]).path
  {
    var its := Iterations(exs);
    RunIterationsFrame(fs, its);
    var o := Run(fs, exs);
    if o.err.Some? {
      var k :| 0 <= k < |its| && o.err.value.path == its[k].labelWrite.path;
      assert its[k] == IterationOf(exs[k]);
    }
  }

  /** In a ready file system the run of distinct examples fails nowhere and
      writes, for every example, its image and its label, each with the
      content built from that example's parameters: two distinct paths per
      example, each created or overwritten. Directories do not change, and no
      other file is created or altered. */
  lemma RunWritesEveryExample(fs: Fs, exs: seq<Example>)
    requires Ready(fs, exs) && DistinctIds(Ids(exs))
    ensures WroteAll(fs, Iterations(exs), Run(fs, exs))
    ensures |WrittenPaths(exs)| == 2 * |exs|
  {
    var its := Iterations(exs);
    ExamplesCanWrite(fs, exs);
    ExampleTargetsDistinct(exs);
    RunIterationsWritesAll(fs, its);
    TargetsCount(its);
  }

  /** When none of the paths of the examples holds a file yet, the run adds
      exactly two files per example to those already there. */
  lemma RunAddsTwoFilesPerExample(fs: Fs, exs: seq<Example>)
    requires Ready(fs, exs) && DistinctIds(Ids(exs))
    requires WrittenPaths(exs) !! fs.files.Keys
    ensures |Run(fs, exs).fs.files| == |fs.files| + 2 * |exs|
  {
    RunWritesEveryExample(fs, exs);
    var keys := Run(fs, exs).fs.files.Keys;
    assert keys == fs.files.Keys + WrittenPaths(exs);
    assert |keys| == |fs.files.Keys| + |WrittenPaths(exs)|;
  }

  /** In a ready file system every write of every example can be made. */
  lemma ExamplesCanWrite(fs: Fs, exs: seq<Example>)
    requires Ready(fs, exs)
    ensures var its := Iterations(exs);
      forall k :: 0 <= k < |its| ==> CanWrite(fs, its[k].imageWrite.path) && CanWrite(fs, its[k].labelWrite.path)
  {
    var its := Iterations(exs);
    forall k | 0 <= k < |its|
      ensures CanWrite(fs, its[k].imageWrite.path) && CanWrite(fs, its[k].labelWrite.path)
    {
      IterationPaths(exs[k]);
      ExamplePaths(exs[k].id);
      assert LeafDir(Images, exs[k].id.split) in fs.dirs && LeafDir(Labels, exs[k].id.split) in fs.dirs;
    }
  }

  /** Distinct examples write to distinct paths. */
  lemma ExampleTargetsDistinct(exs: seq<Example>)
    requires DistinctIds(Ids(exs))
    ensures DistinctTargets(Iterations(exs))
  {
    var its := Iterations(exs);
    forall k | 0 <= k < |its|
      ensures its[k].imageWrite.path != its[k].labelWrite.path
    {
      IterationPaths(exs[k]);
      PathsInjective(exs[k].id, exs[k].id);
    }
    forall k1, k2 | 0 <= k1 < k2 < |its|
      ensures its[k1].imageWrite.path != its[k2].imageWrite.path && its[k1].imageWrite.path != its[k2].labelWrite.path
      ensures its[k1].labelWrite.path != its[k2].imageWrite.path && its[k1].labelWrite.path != its[k2].labelWrite.path
    {
      assert Ids(exs)[k1] != Ids(exs)[k2];
      IterationPaths(exs[k1]);
      IterationPaths(exs[k2]);
      PathsInjective(exs[k1].id, exs[k2].id);
    }
  }

  // ------------------------------------------------- the configuration's examples

  lemma {:induction false} ExampleIdsLength(config: seq<ConfigEntry>)
    ensures |ExampleIds(config)| == TotalCount(config)
  {
    if config != [] {
      ExampleIdsLength(config[..|config| - 1]);
    }
  }

  /** Each example comes from an entry with its shape and split, and its
      index is below that entry's count. */
  lemma {:induction false} ExampleIdsMember(config: seq<ConfigEntry>, k: nat) returns (j: nat)
    requires k < |ExampleIds(config)|
    ensures j < |config|
    ensures ExampleIds(config)[k].shape == config[j].shape && ExampleIds(config)[k].split == config[j].split
    ensures ExampleIds(config)[k].index < config[j].count
  {
    var init := config[..|config| - 1];
    var a := ExampleIds(init);
    if k < |a| {
      j := ExampleIdsMember(init, k);
    } else {
      j := |config| - 1;
    }
  }

  /** When no two entries share a shape and a split, no example repeats. */
  lemma {:induction false} ExampleIdsDistinct(config: seq<ConfigEntry>)
    requires forall j1, j2 :: 0 <= j1 < j2 < |config| ==>
      (config[j1].shape, config[j1].split) != (config[j2].shape, config[j2].split)
    ensures DistinctIds(ExampleIds(config))
  {
    if config != [] {
      var init, last := config[..|config| - 1], config[|config| - 1];
      ExampleIdsDistinct(init);
      var a, b := ExampleIds(init), EntryIds(last);
      var ids := ExampleIds(config);
      assert ids == a + b;
      forall k1, k2 | 0 <= k1 < k2 < |ids|
        ensures ids[k1] != ids[k2]
      {
        if k1 < |a| && k2 >= |a| {
          var j := ExampleIdsMember(init, k1);
          assert ids[k1] == a[k1] && ids[k2] == b[k2 - |a|];
        } else if k1 >= |a| {
          assert ids[k1] == b[k1 - |a|] && ids[k2] == b[k2 - |a|];
        } else {
          assert ids[k1] == a[k1] && ids[k2] == a[k2];
        }
      }
    }
  }

  /** Examples of one split among ids that all have split `s`. */
  lemma {:induction false} CountSplitUniform(ids: seq<ExampleId>, s: Split, sp: Split)
    requires forall k :: 0 <= k < |ids| ==> ids[k].split == s
    ensures CountSplit(ids, sp) == if s == sp then |ids| else 0
  {
    if ids != [] {
      CountSplitUniform(ids[..|ids| - 1], s, sp);
    }
  }

  lemma {:induction false} CountSplitAppend(a: seq<ExampleId>, b: seq<ExampleId>, sp: Split)
    ensures CountSplit(a + b, sp) == CountSplit(a, sp) + CountSplit(b, sp)
    decreases |b|
  {
    if b == [] {
      assert a + b == a;
    } else {
      assert (a + b)[..|a + b| - 1] == a + b[..|b| - 1];
      CountSplitAppend(a, b[..|b| - 1], sp);
    }
  }

  /** The examples of a split number the sum of that split's counts. */
  lemma {:induction false} CountSplitOfConfig(config: seq<ConfigEntry>, sp: Split)
    ensures CountSplit(ExampleIds(config), sp) == SplitCount(config, sp)
  {
    if config != [] {
      var init, last := config[..|config| - 1], config[|config| - 1];
      CountSplitOfConfig(init, sp);
      CountSplitAppend(ExampleIds(init), EntryIds(last), sp);
      CountSplitUniform(EntryIds(last), last.split, sp);
    }
  }

  /** Appending an entry adds its count to the total and to its split. */
  lemma CountsSnoc(config: seq<ConfigEntry>, e: ConfigEntry)
    ensures TotalCount(config + [e]) == TotalCount(config) + e.count
    ensures SplitCount(config + [e], Train) == SplitCount(config, Train) + (if e.split == Train then e.count else 0)
    ensures SplitCount(config + [e], Val) == SplitCount(config, Val) + (if e.split == Val then e.count else 0)
  {
    assert (config + [e])[..|config|] == config;
  }

  /** DATA_CONFIG yields 66 distinct examples, 60 for training and 6 for
      validation, hence 132 distinct files. */
  lemma DataConfigExamples()
    ensures |ExampleIds(DATA_CONFIG)| == 66
    ensures CountSplit(ExampleIds(DATA_CONFIG), Train) == 60
    ensures CountSplit(ExampleIds(DATA_CONFIG), Val) == 6
    ensures DistinctIds(ExampleIds(DATA_CONFIG))
  {
    var c := DATA_CONFIG;
    var p0: seq<ConfigEntry> := [];
    var p1 := p0 + [c[0]];
    var p2 := p1 + [c[1]];
    var p3 := p2 + [c[2]];
    assert c == p3 + [c[3]];
    CountsSnoc(p0, c[0]);
    CountsSnoc(p1, c[1]);
    CountsSnoc(p2, c[2]);
    CountsSnoc(p3, c[3]);
    ExampleIdsLength(c);
    CountSplitOfConfig(c, Train);
    CountSplitOfConfig(c, Val);
    ExampleIdsDistinct(c);
  }

  // ---------------------------------------------------------- end to end

  /** Every directory `create_dataset_structure(DATA_TYPES, SPLITS)` makes
      is at most as long as the longest leaf, "datasets/labels/train". */
  lemma StructureDirsShort(d: string)
    requires d in StructureDirs(DataTypeNames(DATA_TYPES), SplitNames(SPLITS))
    ensures |d| <= 21
  {
    var dts, sps := DataTypeNames(DATA_TYPES), SplitNames(SPLITS);
    StructureDirsAreChains(dts, sps, d);
    var i, j :| 0 <= i < |dts| && 0 <= j < |sps| && d in DirChain(DatasetFilePath([dts[i], sps[j]]));
    DirChainShorter(DatasetFilePath([dts[i], sps[j]]), d);
    assert DatasetFilePath([dts[i], sps[j]]) == LeafDir(DATA_TYPES[i], SPLITS[j]);
  }

  /** After `create_dataset_structure` in a working directory without
      sub-directories, every example can be written. */
  lemma FreshStructureReady(fs: Fs, exs: seq<Example>)
    requires fs.dirs == StructureDirs(DataTypeNames(DATA_TYPES), SplitNames(SPLITS))
    ensures Ready(fs, exs)
  {
    DefaultStructure();
    forall k | 0 <= k < |exs|
      ensures ImagePath(exs[k].id) !in fs.dirs && LabelPath(exs[k].id) !in fs.dirs
    {
      var id := exs[k].id;
      ExamplePaths(id);
      NamesPlain(id);
      LeafDirChars(Images, id.split);
      LeafDirChars(Labels, id.split);
      if ImagePath(id) in fs.dirs {
        StructureDirsShort(ImagePath(id));
      }
      if LabelPath(id) in fs.dirs {
        StructureDirsShort(LabelPath(id));
      }
    }
  }

  /** The examples of DATA_CONFIG, or a start of them, can all be written
      once `create_dataset_structure` has run in a working directory
      without sub-directories, and they are distinct. */
  lemma DefaultRunReady(fs: Fs, exs: seq<Example>)
    requires fs.dirs == StructureDirs(DataTypeNames(DATA_TYPES), SplitNames(SPLITS))
    requires Ids(exs) <= ExampleIds(DATA_CONFIG)
    ensures Ready(fs, exs) && DistinctIds(Ids(exs))
  {
    DataConfigExamples();
    PrefixDistinct(Ids(exs), ExampleIds(DATA_CONFIG));
    FreshStructureReady(fs, exs);
  }

  /** What a complete run over DATA_CONFIG does, from `fs` to `o`: it goes
      through all 66 examples in order and writes them all (132 distinct
      paths, each created or overwritten). */
  predicate WroteDataConfig(fs: Fs, exs: seq<Example>, o: Outcome)
  {
    Ids(exs) == ExampleIds(DATA_CONFIG) && |exs| == 66 &&
    WroteAll(fs, Iterations(exs), o) && |WrittenPaths(exs)| == 132
  }

  /** A run over a start of DATA_CONFIG's examples after
      `create_dataset_structure` that, unless it fails, goes through all of
      them, does not fail and writes the whole dataset. */
  lemma DefaultRunWritesAll(fs: Fs, exs: seq<Example>, fs': Fs, err: Option<OsError>)
    requires fs.dirs == StructureDirs(DataTypeNames(DATA_TYPES), SplitNames(SPLITS))
    requires Ids(exs) <= ExampleIds(DATA_CONFIG)
    requires Run(fs, exs) == Outcome(fs', err)
    requires err.None? ==> Ids(exs) == ExampleIds(DATA_CONFIG)
    ensures WroteDataConfig(fs, exs, Outcome(fs', err))
  {
    DefaultRunReady(fs, exs);
    RunWritesEveryExample(fs, exs);
    DataConfigExamples();
  }

  /** The program as a whole: importing the module makes the directory tree
      (line 19), then `create_dataset()` runs over DATA_CONFIG. The outcome
      is the run of the examples gone through, on the working directory plus
      the tree. Started in a working directory without sub-directories, it
      does not fail and writes the whole dataset: the run of all 66 examples
      of DATA_CONFIG on the fresh tree. */
  method GenerateDataset(fs: Fs) returns (fs': Fs, err: Option<OsError>, ghost generated: seq<Example>)
    ensures AllSampled(generated) && Ids(generated) <= ExampleIds(DATA_CONFIG)
    ensures fs'.dirs == fs.dirs + StructureDirs(DataTypeNames(DATA_TYPES), SplitNames(SPLITS))
    ensures Run(Fs(fs'.dirs, fs.files), generated) == Outcome(fs', err)
    ensures err.None? ==> Ids(generated) == ExampleIds(DATA_CONFIG)
    ensures fs.dirs == {} ==> WroteDataConfig(Fs(fs'.dirs, fs.files), generated, Outcome(fs', err))
  {
    var structured := CreateDatasetStructure(DataTypeNames(DATA_TYPES), SplitNames(SPLITS), fs);
    PathsHoldBuilders();
    fs', err, generated := CreateDataset(DATA_CONFIG, PATHS, structured);
    if fs.dirs == {} {
      DefaultRunWritesAll(structured, generated, fs', err);
    }
  }
}
