/** `build_data_yaml()` of src/generate_data_yaml.py: the YOLO dataset
    description, as the ordered key/value pairs that `yaml.safe_dump` writes
    with `sort_keys=False`. */
module DataYaml {
  import opened Common
  import opened Strings
  import opened TrainingStructure
  import opened FilesGeneration

  /** A value of the description: a plain string or the class-name table. */
  datatype YamlValue = Text(text: string) | Names(names: map<nat, string>)

  /** `dict(enumerate(shapes))`, built one pair at a time as `dict` consumes
      the enumeration: index k is sent to the name of shapes[k]. */
  function Enumerate(shapes: seq<Shape>): (m: map<nat, string>)
    ensures forall k: nat :: k in m <==> k < |shapes|
    ensures forall k :: 0 <= k < |shapes| ==> m[k] == ShapeName(shapes[k])
    decreases |shapes|
  {
    if shapes == [] then map[]
    else Enumerate(shapes[..|shapes| - 1])[|shapes| - 1 := ShapeName(shapes[|shapes| - 1])]
  }

  /** The description in insertion order: path, train, val, names. */
  function BuildDataYaml(): (doc: seq<(string, YamlValue)>)
    ensures |doc| == 4
    ensures forall i, j :: 0 <= i < j < |doc| ==> doc[i].0 != doc[j].0
  {
    [("path", Text(BASE_DIR)),
     ("train", Text(DataTypeName(DATA_TYPES[0]) + "/" + SplitName(SPLITS[0]))),
     ("val", Text(DataTypeName(DATA_TYPES[0]) + "/" + SplitName(SPLITS[1]))),
     ("names", Names(Enumerate(SHAPES)))]
  }

  /** Reading a key of the description as a dictionary: its first entry. */
  function Lookup(doc: seq<(string, YamlValue)>, key: string): (r: Option<YamlValue>)
    ensures r.None? <==> forall i :: 0 <= i < |doc| ==> doc[i].0 != key
    ensures r.Some? ==> exists i :: 0 <= i < |doc| && doc[i] == (key, r.value)
  {
    if doc == [] then None
    else if doc[0].0 == key then Some(doc[0].1)
    else Lookup(doc[1..], key)
  }

  /** The description has exactly the four keys YOLO reads, in this order. */
  lemma DataYamlKeys()
    ensures forall i :: 0 <= i < 4 ==> BuildDataYaml()[i].0 == ["path", "train", "val", "names"][i]
    ensures forall key :: Lookup(BuildDataYaml(), key).Some? <==> key in {"path", "train", "val", "names"}
  {
    var doc := BuildDataYaml();
    forall key
      ensures Lookup(doc, key).Some? <==> key in {"path", "train", "val", "names"}
    {
      if key in {"path", "train", "val", "names"} {
        assert key == doc[0].0 || key == doc[1].0 || key == doc[2].0 || key == doc[3].0;
      }
    }
  }

  /** The dataset root is BASE_DIR, and the training and validation entries,
      taken below it, are the two image directories that
      `create_dataset_structure(DATA_TYPES, SPLITS)` makes. */
  lemma DataYamlPointsAtImageDirs()
    ensures Lookup(BuildDataYaml(), "path") == Some(Text(BASE_DIR))
    ensures Lookup(BuildDataYaml(), "train").Some? && Lookup(BuildDataYaml(), "train").value.Text?
    ensures Lookup(BuildDataYaml(), "val").Some? && Lookup(BuildDataYaml(), "val").value.Text?
    ensures BASE_DIR + "/" + Lookup(BuildDataYaml(), "train").value.text == LeafDir(Images, Train)
    ensures BASE_DIR + "/" + Lookup(BuildDataYaml(), "val").value.text == LeafDir(Images, Val)
    ensures LeafDir(Images, Train) in StructureDirs(DataTypeNames(DATA_TYPES), SplitNames(SPLITS))
    ensures LeafDir(Images, Val) in StructureDirs(DataTypeNames(DATA_TYPES), SplitNames(SPLITS))
  {
    var doc := BuildDataYaml();
    assert Lookup(doc, "train") == Some(doc[1].1);
    assert Lookup(doc, "val") == Some(doc[2].1);
    assert DATA_TYPES[0] == Images && SPLITS[0] == Train && SPLITS[1] == Val;
    ConcatAssoc5(BASE_DIR, "/", DataTypeName(Images), "/", SplitName(Train));
    ConcatAssoc5(BASE_DIR, "/", DataTypeName(Images), "/", SplitName(Val));
    DefaultStructure();
  }

  /** The names entry of the description is the table `dict(enumerate(SHAPES))`. */
  lemma DataYamlNames()
    ensures Lookup(BuildDataYaml(), "names") == Some(Names(Enumerate(SHAPES)))
  {
    var doc := BuildDataYaml();
    assert doc[0].0 != "names" && doc[1].0 != "names" && doc[2].0 != "names";
  }

  /** Every class id written into a label names its own shape in that table,
      and every entry of the table is such a class id: the table and
      CLASS_IDS agree in both directions. */
  lemma ClassNamesMatchClassIds(names: map<nat, string>)
    requires names == Enumerate(SHAPES)
    ensures forall shape: Shape ::
      ParseDigits(ClassId(shape)) in names && names[ParseDigits(ClassId(shape))] == ShapeName(shape)
    ensures forall k: nat :: k in names ==> exists shape: Shape :: ParseDigits(ClassId(shape)) == k
  {
    forall k: nat | k in names
      ensures exists shape: Shape :: ParseDigits(ClassId(shape)) == k
    {
      var shape := SHAPES[k];
      assert SHAPES[0] != SHAPES[1];
      assert ParseDigits(ClassId(shape)) == k;
    }
  }

  /** Distinct shapes get distinct names, so the table is one-to-one. */
  lemma ClassNamesDistinct()
    ensures forall i, j :: 0 <= i < j < |SHAPES| ==> Enumerate(SHAPES)[i] != Enumerate(SHAPES)[j]
  {
    var names := Enumerate(SHAPES);
    assert names[0] == "circle" && names[1] == "square";
  }
}
