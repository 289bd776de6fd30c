# YOLO toy-dataset generator, modelled in Dafny

The program writes a small YOLO object-detection dataset. Each example has:

- a 256×256 image with one red, filled circle or square;
- a label file holding `"<class id> <x_center> <y_center> <width> <height>"`. The four fields are normalised to the canvas and printed with six decimals.

The examples go to `datasets/{images,labels}/{train,val}`. `DATA_CONFIG` decides the count: 30 circles and 30 squares for training, and 3 of each for validation. A `data.yaml` file names the classes for the YOLO trainer.

The model covers the chain from shape parameters to label text, the per-shape tables, the parameter samplers, the generation loop, path building, directory creation and the content of `data.yaml`.

Modules, one per source file (plus three shared ones):

- `Common`: the shape, split and data-type enumerations, the constants BASE_DIR, DATA_TYPES, SPLITS, SHAPES and the canvas size, and the drawing-argument records.
- `Strings`: decimal digits, `str(n)`, `int(s)`, `" ".join` and splitting on a separator.
- `FileSystem`: the operating system as a value `Fs(dirs, files)`. It covers `os.path.dirname`, `os.makedirs(p, exist_ok=True)` and opening a file for writing, which fails on a directory or a missing parent.
- `LabelGeneration` (`src/utils/label_generation.py`):
  - `float_to_str` as exact decimal rounding to six places, ties to even;
  - the centre, the normalisation, the formatting and the text of a label file;
  - a parser for the label line, used to state the round trip.
- `FilesGeneration` (`src/utils/files_generation.py`): the DRAW_FUNCTIONS, DRAW_PROPS, CLASS_IDS and LABEL_PARAMS tables, and the two dispatchers that turn a shape into an image write and a label write.
- `TrainingStructure` (`src/utils/training_structure.py`):
  - `os.path.join` below BASE_DIR;
  - `build_all_paths` and `paths`, as a map from key to a partial application;
  - `create_dataset_structure` as a loop over the directory set.
- `DatasetGeneration` (`src/dataset_generation.py`):
  - the samplers, chosen non-deterministically within the `randint` bounds;
  - DATA_CONFIG;
  - `create_dataset` as a nested loop that threads the file system;
  - the whole program: the directory tree made at import, then the loop.
- `DataYaml` (`src/generate_data_yaml.py`): `build_data_yaml` as the ordered key/value list that `yaml.safe_dump(..., sort_keys=False)` writes.

Numbers are exact rationals (`real`). Every normalised label field is a multiple of 1/512, so each one is exactly representable in binary. Python's `%.6f` then rounds the exact value to six places, ties to even, and that is what `FloatToStr` does.

A failed image write does not stop the run: `cv2.imwrite` returns False and the program ignores it. Only the label's `open` raises, which ends the run with the image already written. `DatasetGeneration.Apply` models that.

## Model

| member | source | states |
|---|---|---|
| LabelGeneration.RoundHalfEven | src/utils/label_generation.py:16-26 | the integer chosen is within one half of the value, and on a tie it is the even neighbour |
| LabelGeneration.RoundHalfEvenUnique | src/utils/label_generation.py:16-26 | any integer within one half of the value that is even on a tie is the rounding: the rounding is unique |
| LabelGeneration.Millionths | src/utils/label_generation.py:16-26 | the count of millionths printed is within one half of abs(value)·10^6 |
| LabelGeneration.FloatToStr | src/utils/label_generation.py:16-26 | the text is an optional '-', at least one digit with no leading zero, '.', exactly six digits; the sign is printed exactly for negative values; no space appears |
| LabelGeneration.FloatToStrRoundTrip | src/utils/label_generation.py:16-26 | reading the text back gives the value rounded to six places, sign kept, within half a millionth of the value |
| LabelGeneration.SixPlacesOnMultipleOf512 | src/utils/label_generation.py:16-26 | on k/512 the six-place rounding is integer round-half-even of 15625·k/8 |
| LabelGeneration.FloatToStrOf512 | src/utils/label_generation.py:16-26 | for k < 512, the text of k/512 is "0." followed by the six digits of that rounding |
| LabelGeneration.FloatToStrBelowOne | src/utils/label_generation.py:16-26 | a non-negative value that rounds below one million millionths prints as "0." and six digits |
| LabelGeneration.TieRoundsUp | src/utils/label_generation.py:16-26 | 30/256 = 0.1171875 prints as "0.117188" (tie, the even neighbour is above) |
| LabelGeneration.TieRoundsDown | src/utils/label_generation.py:16-26 | 10/256 = 0.0390625 prints as "0.039062" (tie, the even neighbour is below) |
| LabelGeneration.TextOf100 | src/utils/label_generation.py:16-26 | 100/256 prints as "0.390625" |
| LabelGeneration.TextOf40 | src/utils/label_generation.py:16-26 | 40/256 prints as "0.156250" |
| LabelGeneration.TextOf65 | src/utils/label_generation.py:16-26 | 65/256 prints as "0.253906" |
| LabelGeneration.TextOf75 | src/utils/label_generation.py:16-26 | 75/256 prints as "0.292969" |
| LabelGeneration.CalculateCenter | src/utils/label_generation.py:29-40 | the centre is equally far from the start and from start + size |
| LabelGeneration.CenterOfIntegerSide | src/utils/label_generation.py:29-40 | an odd integer size gives a half-integer centre and an even size an integer one |
| LabelGeneration.NormalizeBbox | src/utils/label_generation.py:43-64 | exactly four values; times W or H they give back x_center, y_center, size and size; width equals height |
| LabelGeneration.NormalizedInUnitRange | src/utils/label_generation.py:43-64 | pixel values inside the canvas normalise into [0, 1] |
| LabelGeneration.Tokens | src/utils/label_generation.py:67-77 | one formatted token per value, in order |
| LabelGeneration.FormatLabelValues | src/utils/label_generation.py:67-77 | splitting the text on spaces gives back the tokens; n values give n-1 spaces; no values give "" |
| LabelGeneration.JoinTokens | src/utils/label_generation.py:67-77 | joining space-free tokens with single spaces and splitting again is the identity, and there are n-1 spaces |
| LabelGeneration.WriteLabelFile | src/utils/label_generation.py:80-100 | the file is path_builder(filename) and holds the class id, one space, the label data, and nothing after it |
| LabelGeneration.MakeLabel | src/utils/label_generation.py:103-138 | the written path is path_builder(filename); with a space-free class id the text splits into the id and the four tokens of the normalised box |
| LabelGeneration.MakeLabelText | src/utils/label_generation.py:126-138 | the text is the id, then the texts of x/W, y/H, size/W and size/H, each after one space |
| LabelGeneration.LabelRoundTrip | src/utils/label_generation.py:103-138 | parsing the written label gives back the class id and four values each within half a millionth of the normalised box |
| FilesGeneration.DrawFunction | src/utils/files_generation.py:13-16 | cv2.circle is used exactly for circles; otherwise cv2.rectangle |
| FilesGeneration.DrawPropsOf | src/utils/files_generation.py:18-31 | red in BGR order and filled for both; circle: centre (x, y) and radius size; square: pt1 (x, y) and pt2 size further on both axes |
| FilesGeneration.DrawCallMatchesProps | src/utils/files_generation.py:13-31 | the drawing function and the kind of its keyword record always match |
| FilesGeneration.ClassId | src/utils/files_generation.py:33-36 | a one-digit id whose value is the shape's position in SHAPES |
| FilesGeneration.ShapeIndex | src/utils/files_generation.py:33-36 | the position of the shape in SHAPES |
| FilesGeneration.ClassIdIsIndex | src/utils/files_generation.py:33-36 | the class id is the decimal text of that position |
| FilesGeneration.LabelParams | src/utils/files_generation.py:38-45 | the label centre is the middle of the drawn extent and the label side is both its width and its height (circle: diameter; square: side) |
| FilesGeneration.CoveredInsideLabelBox | src/utils/files_generation.py:38-45 | every point the filled shape covers lies inside the label box |
| FilesGeneration.LabelBoxIsTight | src/utils/files_generation.py:38-45 | the shape touches all four sides of the label box |
| FilesGeneration.MakeImageObject | src/utils/files_generation.py:49-71 | one image write to path_builder(filename), drawn by DRAW_FUNCTIONS[shape] with DRAW_PROPS[shape](x, y, size) |
| FilesGeneration.MakeLabelObject | src/utils/files_generation.py:74-103 | one label write to path_builder(filename) whose text splits into CLASS_IDS[shape] and the tokens of the normalised LABEL_PARAMS box |
| FilesGeneration.LabelObjectRoundTrip | src/utils/files_generation.py:74-103 | reading the label back gives the shape's index and, to six places, the normalised box of what was drawn |
| FilesGeneration.ImageAndLabelAgree | src/utils/files_generation.py:49-103 | for the same (shape, x, y, size), the label's class selects the drawing function of the image, and its box is the image's drawn extent |
| FilesGeneration.CircleLabelExample | src/utils/files_generation.py:93-103 | circle (100, 100, 20) writes "0 0.390625 0.390625 0.156250 0.156250" |
| FilesGeneration.SquareLabelExample | src/utils/files_generation.py:93-103 | square (50, 60, 30) writes "1 0.253906 0.292969 0.117188 0.117188" |
| DatasetGeneration.RandomCircleParams | src/dataset_generation.py:23-30 | 10 ≤ r ≤ 50 and r ≤ x, y ≤ 256 − r, the inclusive randint bounds |
| DatasetGeneration.RandomSquareParams | src/dataset_generation.py:33-40 | 10 ≤ s ≤ 50 and 0 ≤ x, y ≤ 256 − s |
| DatasetGeneration.RandomParams | src/dataset_generation.py:43-46 | RANDOM_PARAMS[shape] draws within that shape's bounds |
| DatasetGeneration.SampledInsideCanvas | src/dataset_generation.py:23-40 | the drawn extent of any sampled shape, and every point it covers, lie within [0, 256] on both axes |
| DatasetGeneration.SampledShapesReachPastLastColumn | src/dataset_generation.py:23-40 | that range is one pixel wider than the canvas: circle (236, 100, 20) and square (206, 0, 50) can be sampled and both cover column 256 |
| DatasetGeneration.SampledLabelInUnitRange | src/dataset_generation.py:27-39 | for sampled parameters all four label fields are in [0, 1] and the box lies inside the unit square |
| DatasetGeneration.EntryIds | src/dataset_generation.py:61-68 | a config entry yields examples 0 .. count-1 of its shape and split, in order |
| DatasetGeneration.Apply | src/dataset_generation.py:70-85 | one pass keeps the directories, and a failure can only come from the label write |
| DatasetGeneration.ApplyEffect | src/dataset_generation.py:70-85 | a pass fails exactly when the label cannot be opened; an opened label holds its text; an image that can be written, to a path other than the label's, holds its drawing; files are added only at the paths that can be written; every file already there is kept and every other file is unchanged |
| DatasetGeneration.RunIterations | src/dataset_generation.py:61-85 | passes run in order and the run stops at the first error; the directories are never changed |
| DatasetGeneration.RunIterationsFrame | src/dataset_generation.py:61-85 | a run, however it ends, keeps every file it found, adds or changes files only at the paths of its passes, and an error it stops at is the label path of one of them |
| DatasetGeneration.Run | src/dataset_generation.py:61-85 | the loop over examples never changes the directories |
| DatasetGeneration.RunFrame | src/dataset_generation.py:61-85 | the loop keeps every file it found, changes only images and labels of its examples, and an error it stops at is the label path of one of its examples |
| DatasetGeneration.GenerateExample | src/dataset_generation.py:67-85 | one pass draws parameters within the shape's bounds and extends the run by that example's image and label writes |
| DatasetGeneration.CreateDataset | src/dataset_generation.py:57-85 | the outcome is the run of the examples gone through, which are a prefix of the configuration's examples in order, all sampled; without error it is all of them; an error ends the run at the label write of the last one |
| DatasetGeneration.StemChars | src/dataset_generation.py:68 | the stem f"{shape}_{split}_{i}" (Stem) starts with the shape's letter, has the split's letter at position 7, and holds no '/', so it names a file directly in the split's directory |
| DatasetGeneration.StemInjective | src/dataset_generation.py:68 | distinct (shape, split, i) give distinct stems |
| DatasetGeneration.ExamplePaths | src/dataset_generation.py:62-85 | "<stem>.jpg" goes to datasets/images/<split> and "<stem>.txt" to datasets/labels/<split> |
| DatasetGeneration.PathsInjective | src/dataset_generation.py:62-85 | no image path is a label path, and each path belongs to exactly one example |
| DatasetGeneration.RunWritesEveryExample | src/dataset_generation.py:61-85 | once the leaf directories exist and no example's image or label path is a directory, a run over distinct examples does not fail; it writes each example's image and label and keeps every other file; it writes 2·n distinct paths, each created or overwritten |
| DatasetGeneration.RunAddsTwoFilesPerExample | src/dataset_generation.py:61-85 | when none of those paths holds a file yet, the run adds exactly 2·n files to those already there |
| DatasetGeneration.ExampleIdsDistinct | src/dataset_generation.py:61-68 | a configuration without a repeated (shape, split) yields distinct examples |
| DatasetGeneration.ExampleIdsLength | src/dataset_generation.py:61-68 | the number of examples is the sum of the counts |
| DatasetGeneration.CountSplitOfConfig | src/dataset_generation.py:61-68 | the examples of a split number the sum of that split's counts |
| DatasetGeneration.DataConfigExamples | src/dataset_generation.py:49-54 | the constant DATA_CONFIG (30 circles and 30 squares for train, 3 and 3 for val) yields 66 distinct examples, 60 for train and 6 for val |
| DatasetGeneration.FreshStructureReady | src/dataset_generation.py:19 | after the directory tree is made in a working directory without sub-directories, every example's files can be written |
| DatasetGeneration.DefaultRunWritesAll | src/dataset_generation.py:49-85 | after the tree, a run over DATA_CONFIG that does not stop early writes 132 distinct paths, one image and one label per example, each created or overwritten |
| DatasetGeneration.GenerateDataset | src/dataset_generation.py:19-85 | the tree is added to the directories and the loop runs on it; from a working directory without sub-directories the program does not fail with the modelled errors and writes the whole dataset |
| TrainingStructure.PathJoinSnoc | src/utils/training_structure.py:16-26 | os.path.join of a longer list joins one more component onto the shorter join |
| TrainingStructure.PathJoinPlain | src/utils/training_structure.py:16-26 | joining non-empty components without '/' onto a non-empty base without a trailing slash puts exactly one '/' between neighbours |
| TrainingStructure.JoinStepKeepsParts | src/utils/training_structure.py:26 | one step of os.path.join (JoinStep) ends with the new component; an absolute component replaces the path, any other keeps the path as a prefix |
| TrainingStructure.PathJoinKeepsBase | src/utils/training_structure.py:26 | os.path.join(a, *ps) (PathJoin) starts with a when no component is absolute |
| TrainingStructure.DatasetFilePathBelowBase | src/utils/training_structure.py:16-26 | dataset_file_path(*parts) (DatasetFilePath) starts with BASE_DIR when no part is absolute |
| TrainingStructure.DatasetFilePathPlain | src/utils/training_structure.py:16-26 | for non-empty parts without '/', dataset_file_path(parts) is BASE_DIR followed by the parts joined with '/' |
| TrainingStructure.BuildAllPaths | src/utils/training_structure.py:54-67 | exactly the keys images_train, images_val, labels_train and labels_val, each bound to partial(dataset_file_path, dt, sp) |
| TrainingStructure.PathKeysSpelled | src/utils/training_structure.py:64 | the keys are the strings "images_train", "images_val", "labels_train" and "labels_val" |
| TrainingStructure.PathsHoldBuilders | src/utils/training_structure.py:71 | the module-level `paths` (the constant PATHS) holds the builder of every (data type, split) under its key |
| TrainingStructure.CallKeepsParts | src/utils/training_structure.py:64 | calling a builder (PathBuilder.Call) gives a path ending with the file name, and below BASE_DIR when neither the bound components nor the name are absolute |
| TrainingStructure.BuilderCall | src/utils/training_structure.py:64 | paths["<dt>_<sp>"](f) is dataset_file_path(dt, sp, f) |
| TrainingStructure.BuilderPath | src/utils/training_structure.py:64 | for a name not starting with '/', paths["<dt>_<sp>"](f) is datasets/<dt>/<sp>/f |
| TrainingStructure.BuildersDisjoint | src/utils/training_structure.py:64 | for a file name not starting with '/', two different keys build different paths |
| TrainingStructure.CreateDatasetStructure | src/utils/training_structure.py:29-51 | files untouched; the directories become the old ones plus every directory makedirs makes for each pair; when those all exist already nothing changes |
| TrainingStructure.StructureHasLeaf | src/utils/training_structure.py:49-51 | every BASE_DIR/<dt>/<sp> is among the directories made |
| TrainingStructure.StructureDirsAreChains | src/utils/training_structure.py:49-51 | every directory made is one of the leaves or an ancestor of one |
| TrainingStructure.DefaultStructure | src/utils/training_structure.py:49-51 | with the default constants, the four leaves exist afterwards and are four different directories |
| FileSystem.MakeDirs | src/utils/training_structure.py:51 | makedirs with exist_ok adds the path and its ancestors and leaves files alone |
| FileSystem.Parent | src/utils/training_structure.py:51 | os.path.dirname: "" for a bare name; otherwise a proper prefix of the path followed by '/', or "/"; that the '/' is the last one is ParentIsLastSlash |
| FileSystem.ParentIsLastSlash | src/utils/training_structure.py:51 | dirname cuts at the last '/': nothing after the cut holds a '/' (for a "/" result, unless the path starts with "//"), and the result is "" only for a path without '/' |
| FileSystem.WriteFile | src/utils/label_generation.py:99-100 | within the two modelled errors, open(path, "w") succeeds exactly when the path is not a directory and its parent exists; on success only that file changes |
| Strings.NatToString | src/dataset_generation.py:68 | str(i) is a non-empty run of decimal digits without a leading zero |
| Strings.ParseNatToString | src/dataset_generation.py:68 | the decimal text of i reads back as i |
| Strings.NatToStringInjective | src/dataset_generation.py:68 | distinct indices give distinct texts |
| DataYaml.Enumerate | src/generate_data_yaml.py:16 | dict(enumerate(SHAPES)) has exactly the keys 0 .. len(SHAPES)-1, and key k names SHAPES[k] |
| DataYaml.BuildDataYaml | src/generate_data_yaml.py:12-17 | four entries with distinct keys |
| DataYaml.DataYamlKeys | src/generate_data_yaml.py:12-17 | the keys are path, train, val and names, in that order, and no others |
| DataYaml.DataYamlPointsAtImageDirs | src/generate_data_yaml.py:13-15 | path is "datasets"; train and val below it are the images/train and images/val directories that create_dataset_structure makes |
| DataYaml.DataYamlNames | src/generate_data_yaml.py:16 | the names entry is dict(enumerate(SHAPES)) |
| DataYaml.ClassNamesMatchClassIds | src/generate_data_yaml.py:16 | names[int(CLASS_IDS[s])] is the name of s for every shape, and every key of names is such a class id |
| DataYaml.ClassNamesDistinct | src/generate_data_yaml.py:16 | different class indices get different names |

## Left out

- Pixel rasterisation by `cv2.circle` and `cv2.rectangle`, the numpy image and the JPEG encoding of `cv2.imwrite` (src/utils/image_generation.py). These are foreign library code and the output is lossy. An image file holds the drawing function and its keyword record instead.
- FilesGeneration.CoveredInsideLabelBox and FilesGeneration.LabelBoxIsTight: the covered points are idealised geometry, not OpenCV's rasterisation. That is a closed disc of the radius, or the closed square from pt1 to pt2.
- The training script (src/training.py) and main.py: an opaque call into the YOLO trainer, and a script that only sequences calls.
- `generate_data_yaml`: the YAML text emitted by `yaml.safe_dump` and the file write. Only the dictionary `build_data_yaml` returns is modelled, as ordered pairs.
- Floating point: values are exact reals. The normalised fields are multiples of 1/512, which binary doubles hold exactly, so the printed text is the same.
- Statistical properties of `random.randint`, such as uniformity. A sampler returns some value within the inclusive bounds; the ghost `generated` sequence records the choices.
- DatasetGeneration.SampledInsideCanvas: the samplers allow x + r and x + size up to 256, while the canvas has columns and rows 0 .. 255 only. The last line of the range is clipped by `cv2`. The lemma proves the bound [0, 256], not the canvas bound.
- FileSystem.WriteFile: `open` can also raise PermissionError, NotADirectoryError (a parent component is an ordinary file) and OSError (disk full). Only FileNotFoundError and IsADirectoryError are modelled, so "does not fail" claims hold only for those two.
- Paths are POSIX paths: `os.path.join` and `os.path.dirname` follow `posixpath`. Windows drive letters and backslashes are not modelled.
- `os.path.join` with repeated slashes, and `os.path.dirname` with trailing or repeated slashes. No path the program builds has them.
- `os.makedirs` failing because a path component is an ordinary file, and permission or disk errors. Directory creation is modelled as always succeeding.
- DatasetGeneration.CreateDataset: it takes the configuration and the `paths` dictionary as parameters instead of reading the module globals. `GenerateDataset` passes DATA_CONFIG and `paths`.
- DatasetGeneration.GenerateDataset: the directory tree that the import of src/dataset_generation.py makes at line 19 is modelled as the first step of this method, not as an import-time side effect.
- src/utils/common_type_aliases.py and src/utils/common_constants.py: they become the datatypes and constants of `Common`.
