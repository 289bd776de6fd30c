/** The per-shape tables of src/utils/files_generation.py (DRAW_FUNCTIONS,
    DRAW_PROPS, CLASS_IDS, LABEL_PARAMS) and the two dispatchers that read
    them: one builds the image write, the other the label write. */
module FilesGeneration {
  import opened Common
  import opened Strings
  import opened FileSystem
  import opened TrainingStructure
  import opened LabelGeneration

  /** DRAW_FUNCTIONS: the OpenCV call that draws each shape. */
  function DrawFunction(shape: Shape): (f: DrawFunc)
    ensures f == CvCircle <==> shape == Circle
  {
    match shape
    case Circle => CvCircle
    case Square => CvRectangle
  }

  /** Red in OpenCV's blue-green-red order, and the thickness that fills. */
  const RED: (int, int, int) := (0, 0, 255)
  const FILLED: int := -1

  /** DRAW_PROPS: the keyword arguments of the drawing call. A circle is
      drawn around (x, y) with radius `size`; a square spans from corner
      (x, y) to the opposite corner `size` further along both axes. Both are
      red and filled. */
  function DrawPropsOf(shape: Shape, x: int, y: int, size: int): (p: DrawProps)
    ensures p.color == RED && p.thickness == FILLED
    ensures p.CircleProps? <==> shape == Circle
    ensures p.CircleProps? ==> p.center == (x, y) && p.radius == size
    ensures p.RectangleProps? ==> p.pt1 == (x, y) && p.pt2.0 - p.pt1.0 == size && p.pt2.1 - p.pt1.1 == size
  {
    match shape
    case Circle => CircleProps((x, y), size, RED, FILLED)
    case Square => RectangleProps((x, y), (x + size, y + size), RED, FILLED)
  }

  /** The drawing function and its keyword arguments always belong together:
      cv2.circle receives circle arguments, cv2.rectangle rectangle ones. */
  lemma DrawCallMatchesProps(shape: Shape, x: int, y: int, size: int)
    ensures DrawFunction(shape) == CvCircle <==> DrawPropsOf(shape, x, y, size).CircleProps?
    ensures DrawFunction(shape) == CvRectangle <==> DrawPropsOf(shape, x, y, size).RectangleProps?
  {
  }

  /** CLASS_IDS: the class id is the shape's position in SHAPES, written in
      decimal; so the names map of data.yaml sends it back to the shape. */
  function ClassId(shape: Shape): (id: string)
    ensures |id| == 1 && AllDigits(id)
    ensures ParseDigits(id) < |SHAPES| && SHAPES[ParseDigits(id)] == shape
  {
    match shape
    case Circle => "0"
    case Square => "1"
  }

  /** The position of a shape in SHAPES. */
  function ShapeIndex(shape: Shape): (k: nat)
    ensures k < |SHAPES| && SHAPES[k] == shape
  {
    match shape
    case Circle => 0
    case Square => 1
  }

  /** The class id is the decimal text of the shape's index. */
  lemma ClassIdIsIndex(shape: Shape)
    ensures ClassId(shape) == NatToString(ShapeIndex(shape))
  {
  }

  /** Left, top, right and bottom pixel of what a drawing call covers. */
  function DrawnExtent(p: DrawProps): (int, int, int, int)
  {
    match p
    case CircleProps(c, r, _, _) => (c.0 - r, c.1 - r, c.0 + r, c.1 + r)
    case RectangleProps(p1, p2, _, _) => (p1.0, p1.1, p2.0, p2.1)
  }

  /** The points a filled drawing covers, taken as exact geometry: the disc
      of the circle, the closed rectangle between the two corners. */
  predicate Covers(p: DrawProps, px: int, py: int)
  {
    match p
    case CircleProps(c, r, _, _) => (px - c.0) * (px - c.0) + (py - c.1) * (py - c.1) <= r * r
    case RectangleProps(p1, p2, _, _) => p1.0 <= px <= p2.0 && p1.1 <= py <= p2.1
  }

  /** LABEL_PARAMS: the label's pixel centre and side. The centre is the
      middle of the drawn extent and the side is its width and its height: a
      circle's box has the diameter as side, a square's box is the square. */
  function LabelParams(shape: Shape, x: int, y: int, size: int): (lp: (real, real, real))
    ensures var e := DrawnExtent(DrawPropsOf(shape, x, y, size));
      lp.0 == (e.0 + e.2) as real / 2.0 && lp.1 == (e.1 + e.3) as real / 2.0 &&
      lp.2 == (e.2 - e.0) as real && lp.2 == (e.3 - e.1) as real
  {
    match shape
    case Circle => (x as real, y as real, (size * 2) as real)
    case Square => (CalculateCenter(x as real, size as real), CalculateCenter(y as real, size as real), size as real)
  }

  /** Every point the drawing covers lies inside the label box. */
  lemma CoveredInsideLabelBox(shape: Shape, x: int, y: int, size: int, px: int, py: int)
    requires size >= 0
    requires Covers(DrawPropsOf(shape, x, y, size), px, py)
    ensures var lp := LabelParams(shape, x, y, size);
      Abs(px as real - lp.0) <= lp.2 / 2.0 && Abs(py as real - lp.1) <= lp.2 / 2.0
  {
    if shape == Circle {
      var dx, dy := px - x, py - y;
      assert dx * dx + dy * dy <= size * size;
      SquareBound(dx, dy, size);
      SquareBound(dy, dx, size);
    }
  }

  /** A coordinate of a point of the disc is at most the radius from the centre. */
  lemma SquareBound(a: int, b: int, r: int)
    requires r >= 0 && a * a + b * b <= r * r
    ensures -r <= a <= r
  {
    var m := if a < 0 then -a else a;
    assert m * m == a * a;
    assert b * b >= 0;
  }

  /** The label box is the tightest: each of its four edges touches the drawing. */
  lemma LabelBoxIsTight(shape: Shape, x: int, y: int, size: int)
    requires size >= 0
    ensures var p := DrawPropsOf(shape, x, y, size); var e := DrawnExtent(p);
      Covers(p, e.0, y) && Covers(p, e.2, y) && Covers(p, x, e.1) && Covers(p, x, e.3)
  {
  }

  /** `make_image_object`: one image write, to `path_builder(filename)`,
      drawn by the shape's function with the shape's keyword arguments. */
  function MakeImageObject(shape: Shape, x: int, y: int, size: int, filename: string, pathBuilder: PathBuilder): (w: FileWrite)
    ensures w.path == pathBuilder.Call(filename)
    ensures w.content.Image? && w.content.draw == DrawFunction(shape)
    ensures w.content.props == DrawPropsOf(shape, x, y, size)
  {
    FileWrite(pathBuilder.Call(filename), Image(DrawFunction(shape), DrawPropsOf(shape, x, y, size)))
  }

  /** `make_label_object`: one label write, to `path_builder(filename)`,
      whose text splits into the class id and the normalised label box. */
  function MakeLabelObject(shape: Shape, x: int, y: int, size: int, filename: string, pathBuilder: PathBuilder): (w: FileWrite)
    ensures w.path == pathBuilder.Call(filename) && w.content.Text?
    ensures var lp := LabelParams(shape, x, y, size);
      SplitOn(' ', w.content.text) == [ClassId(shape)] + Tokens(NormalizeBbox(lp.0, lp.1, lp.2))
  {
    var id := ClassId(shape);
    assert ' ' !in id by { assert IsDigit(id[0]); }
    var lp := LabelParams(shape, x, y, size);
    MakeLabel(lp.0, lp.1, lp.2, filename, id, pathBuilder)
  }

  /** The centre and the sides of an extent, each over the 256-pixel canvas. */
  function ExtentBox(e: (int, int, int, int)): (box: seq<real>)
    ensures |box| == 4
    ensures box[0] * 256.0 == (e.0 + e.2) as real / 2.0 && box[1] * 256.0 == (e.1 + e.3) as real / 2.0
    ensures box[2] * 256.0 == (e.2 - e.0) as real && box[3] * 256.0 == (e.3 - e.1) as real
  {
    [(e.0 + e.2) as real / 512.0, (e.1 + e.3) as real / 512.0,
     (e.2 - e.0) as real / 256.0, (e.3 - e.1) as real / 256.0]
  }

  /** Reading a written label back gives the index of the shape in SHAPES
      and four numbers within half a millionth of the drawn extent's centre
      and sides over the canvas. */
  lemma LabelObjectRoundTrip(shape: Shape, x: int, y: int, size: int, filename: string, pathBuilder: PathBuilder)
    ensures ReadsBackAs(MakeLabelObject(shape, x, y, size, filename, pathBuilder).content.text,
                        ShapeIndex(shape), ExtentBox(DrawnExtent(DrawPropsOf(shape, x, y, size))))
  {
    var lp := LabelParams(shape, x, y, size);
    assert ExtentBox(DrawnExtent(DrawPropsOf(shape, x, y, size))) == NormalizeBbox(lp.0, lp.1, lp.2);
    ClassIdIsIndex(shape);
    LabelRoundTrip(ShapeIndex(shape), lp.0, lp.1, lp.2, filename, pathBuilder);
  }

  /** A label text describes a drawing when it reads back as the index of a
      shape drawn by the drawing's function, followed by the centre and the
      sides of the drawn extent over the canvas, to half a millionth. */
  predicate DescribesDrawing(text: string, draw: DrawFunc, props: DrawProps)
  {
    var r := ParseLabelLine(text);
    r.Some? && r.value.classId < |SHAPES| && DrawFunction(SHAPES[r.value.classId]) == draw &&
    ReadsBackAs(text, r.value.classId, ExtentBox(DrawnExtent(props)))
  }

  /** The image and the label made from the same parameters describe the
      same shape. */
  lemma ImageAndLabelAgree(shape: Shape, x: int, y: int, size: int, imageName: string, labelName: string,
                           imagePathBuilder: PathBuilder, labelPathBuilder: PathBuilder)
    ensures var img := MakeImageObject(shape, x, y, size, imageName, imagePathBuilder).content;
      DescribesDrawing(MakeLabelObject(shape, x, y, size, labelName, labelPathBuilder).content.text, img.draw, img.props)
  {
    var text := MakeLabelObject(shape, x, y, size, labelName, labelPathBuilder).content.text;
    LabelObjectRoundTrip(shape, x, y, size, labelName, labelPathBuilder);
    assert DescribesDrawing(text, DrawFunction(shape), DrawPropsOf(shape, x, y, size));
  }

  /** The label text of a circle of radius 20 centred at (100, 100):
      "0 0.390625 0.390625 0.156250 0.156250". */
  lemma CircleLabelExample(x: int, y: int, size: int, filename: string, pathBuilder: PathBuilder)
    requires x == 100 && y == 100 && size == 20
    ensures MakeLabelObject(Circle, x, y, size, filename, pathBuilder).content.text
         == "0" + " " + "0.390625" + " " + "0.390625" + " " + "0.156250" + " " + "0.156250"
  {
    var lp := LabelParams(Circle, x, y, size);
    assert lp == (100.0, 100.0, 40.0);
    TextOf100(lp.0 / 256.0);
    TextOf40(lp.2 / 256.0);
    MakeLabelText(lp.0, lp.1, lp.2, filename, "0", pathBuilder);
  }

  /** The label text of a square of side 30 with its corner at (50, 60):
      "1 0.253906 0.292969 0.117188 0.117188"; the centre is (65, 75), and
      30/256 is a tie that rounds up. */
  lemma SquareLabelExample(x: int, y: int, size: int, filename: string, pathBuilder: PathBuilder)
    requires x == 50 && y == 60 && size == 30
    ensures MakeLabelObject(Square, x, y, size, filename, pathBuilder).content.text
         == "1" + " " + "0.253906" + " " + "0.292969" + " " + "0.117188" + " " + "0.117188"
  {
    var lp := LabelParams(Square, x, y, size);
    assert lp == (65.0, 75.0, 30.0);
    TextOf65(lp.0 / 256.0);
    TextOf75(lp.1 / 256.0);
    TieRoundsUp(lp.2 / 256.0);
    MakeLabelText(lp.0, lp.1, lp.2, filename, "1", pathBuilder);
  }
}
