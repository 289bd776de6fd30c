/** The dataset domain: shapes, splits, data types, the canvas size and the
    records that the generator passes around. Mirrors the constants in
    src/utils/common_constants.py and the aliases in
    src/utils/common_type_aliases.py. */
module Common {

  datatype Option<T> = None | Some(value: T)

  /** ShapeType = Literal["circle", "square"] */
  datatype Shape = Circle | Square

  /** SplitType = Literal["train", "val"] */
  datatype Split = Train | Val

  /** DataType = Literal["images", "labels"] */
  datatype DataType = Images | Labels

  function ShapeName(s: Shape): string
  {
    match s
    case Circle => "circle"
    case Square => "square"
  }

  function SplitName(s: Split): string
  {
    match s
    case Train => "train"
    case Val => "val"
  }

  function DataTypeName(d: DataType): string
  {
    match d
    case Images => "images"
    case Labels => "labels"
  }

  const BASE_DIR: string := "datasets"
  const DATA_TYPES: seq<DataType> := [Images, Labels]
  const SPLITS: seq<Split> := [Train, Val]
  const SHAPES: seq<Shape> := [Circle, Square]

  const IMAGE_WIDTH: int := 256
  const IMAGE_HEIGHT: int := 256

  /** Params = Tuple[int, int, int]: (x, y, size) in pixels. For a circle x, y
      are the centre and size the radius; for a square x, y are the top-left
      corner and size the side. */
  datatype Params = Params(x: int, y: int, size: int)

  /** The OpenCV drawing function chosen for a shape. */
  datatype DrawFunc = CvCircle | CvRectangle

  /** The keyword arguments handed to the drawing function (DrawProps). */
  datatype DrawProps =
    | CircleProps(center: (int, int), radius: int, color: (int, int, int), thickness: int)
    | RectangleProps(pt1: (int, int), pt2: (int, int), color: (int, int, int), thickness: int)
}
