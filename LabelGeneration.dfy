/** YOLO label lines (src/utils/label_generation.py): the centre of a box,
    its normalisation against the 256x256 canvas, the six-decimal text of
    each number, and the line `"<class_id> <x> <y> <w> <h>"`.

    Python floats are modelled as exact reals: every value the generator
    produces is an integer or half-integer divided by 256, which a binary
    double holds exactly, so `"%.6f"` rounds the exact value. */
module LabelGeneration {
  import opened Common
  import opened Strings
  import opened FileSystem
  import opened TrainingStructure

  function Abs(v: real): (a: real)
    ensures a >= 0.0 && (a == v || a == -v)
  {
    if v < 0.0 then -v else v
  }

  /** The integer nearest to `t`; of two equally near, the even one. */
  function RoundHalfEven(t: real): (n: int)
    ensures n as real - 0.5 <= t <= n as real + 0.5
    ensures (t == n as real - 0.5 || t == n as real + 0.5) ==> n % 2 == 0
  {
    var f := t.Floor;
    var frac := t - f as real;
    if frac < 0.5 then f
    else if frac > 0.5 then f + 1
    else if f % 2 == 0 then f else f + 1
  }

  /** The two properties above pin the rounded value down. */
  lemma RoundHalfEvenUnique(t: real, m: int)
    requires m as real - 0.5 <= t <= m as real + 0.5
    requires (t == m as real - 0.5 || t == m as real + 0.5) ==> m % 2 == 0
    ensures m == RoundHalfEven(t)
  {
  }

  /** |v| rounded to six decimal places, counted in millionths. */
  function Millionths(v: real): (n: nat)
    ensures n as real - 0.5 <= Abs(v) * 1000000.0 <= n as real + 0.5
  {
    RoundHalfEven(Abs(v) * 1000000.0)
  }

  /** The shape of every `"%.6f"` output: an optional '-', at least one digit
      with no leading zero, a '.', then exactly six digits. */
  predicate IsFixed6(s: string)
  {
    var body := if |s| > 0 && s[0] == '-' then s[1..] else s;
    |body| >= 8 && body[|body| - 7] == '.' &&
    AllDigits(body[..|body| - 7]) && AllDigits(body[|body| - 6..]) &&
    (|body| > 8 ==> body[0] != '0')
  }

  /** `float_to_str(value)`, i.e. `f"{value:.6f}"`. */
  function FloatToStr(v: real): (s: string)
    ensures IsFixed6(s)
    ensures |s| > 0 && (s[0] == '-' <==> v < 0.0)
    ensures ' ' !in s
  {
    var n := Millionths(v);
    var ip, fp := NatToString(n / 1000000), FixedDigits(n % 1000000, 6);
    var s := (if v < 0.0 then "-" else "") + (ip + "." + fp);
    FixedShape(v < 0.0, ip, fp);
    s
  }

  /** An optional '-', a run of digits, '.' and six digits make a `"%.6f"`
      text, with no space in it. */
  lemma FixedShape(neg: bool, ip: string, fp: string)
    requires |ip| >= 1 && AllDigits(ip) && |fp| == 6 && AllDigits(fp)
    requires |ip| > 1 ==> ip[0] != '0'
    ensures var s := (if neg then "-" else "") + (ip + "." + fp);
      IsFixed6(s) && |s| > 0 && (s[0] == '-' <==> neg) && ' ' !in s
  {
    var digits := ip + "." + fp;
    SplitAround(ip, '.', fp);
    assert |digits| - 7 == |ip| && |digits| - 6 == |ip| + 1;
    assert IsDigit(digits[0]) && digits[0] == ip[0];
    DigitsHaveNoSpace(ip);
    DigitsHaveNoSpace(fp);
    assert IsFixed6(digits);
    if neg {
      assert ("-" + digits)[1..] == digits;
    } else {
      assert "" + digits == digits;
    }
  }

  /** Reading a `"%.6f"` string back as a number, the way `float()` does for
      strings of that shape; anything else is refused. */
  function ParseFloat6(s: string): Option<real>
  {
    var neg := |s| > 0 && s[0] == '-';
    match ParseUnsigned6(if neg then s[1..] else s)
    case None => None
    case Some(mag) => Some(if neg then -mag else mag)
  }

  /** Digits, a point and six digits, read as a non-negative number. */
  function ParseUnsigned6(body: string): Option<real>
  {
    if |body| < 8 || body[|body| - 7] != '.' || !AllDigits(body[..|body| - 7]) || !AllDigits(body[|body| - 6..]) then None
    else Some(ParseDigits(body[..|body| - 7]) as real + ParseDigits(body[|body| - 6..]) as real / 1000000.0)
  }

  /** The text `float_to_str` produces: sign, integer part, '.', six digits. */
  lemma FloatToStrParts(v: real)
    ensures var n := Millionths(v);
      FloatToStr(v) == (if v < 0.0 then "-" else "") + (NatToString(n / 1000000) + "." + FixedDigits(n % 1000000, 6))
  {
  }

  /** `ParseFloat6` strips one leading '-' and reads the rest unsigned. */
  lemma SignedBody(neg: bool, body: string, mag: real)
    requires |body| > 0 && IsDigit(body[0]) && ParseUnsigned6(body) == Some(mag)
    ensures ParseFloat6((if neg then "-" else "") + body) == Some(if neg then -mag else mag)
  {
    if neg {
      assert ("-" + body)[1..] == body;
    } else {
      assert "" + body == body;
    }
  }

  /** Reading an integer part, a point and six digits. */
  lemma ParseUnsigned6Parts(ip: string, fp: string)
    requires |ip| >= 1 && AllDigits(ip) && |fp| == 6 && AllDigits(fp)
    ensures ParseUnsigned6(ip + "." + fp) == Some(ParseDigits(ip) as real + ParseDigits(fp) as real / 1000000.0)
  {
    var body := ip + "." + fp;
    SplitAround(ip, '.', fp);
    assert |body| - 7 == |ip| && |body| - 6 == |ip| + 1;
  }

  /** The pieces of `a + [x] + b`, recovered by position. */
  lemma SplitAround<T>(a: seq<T>, x: T, b: seq<T>)
    ensures (a + [x] + b)[..|a|] == a && (a + [x] + b)[|a|] == x && (a + [x] + b)[|a| + 1..] == b
  {
    var s := a + [x] + b;
    assert s[..|a|] == a;
    assert s[|a| + 1..] == b;
  }

  /** Reading a sign, the digits of `q`, a point and six digits of `m`. */
  lemma ParseFloat6Of(neg: bool, q: nat, m: nat)
    requires m < 1000000
    ensures ParseFloat6((if neg then "-" else "") + (NatToString(q) + "." + FixedDigits(m, 6)))
         == Some(if neg then -(q as real + m as real / 1000000.0) else q as real + m as real / 1000000.0)
  {
    var body := NatToString(q) + "." + FixedDigits(m, 6);
    var mag := q as real + m as real / 1000000.0;
    assert ParseUnsigned6(body) == Some(mag) by {
      assert Pow10(6) == 1000000;
      ParseNatToString(q);
      ParseFixedDigits(m, 6);
      ParseUnsigned6Parts(NatToString(q), FixedDigits(m, 6));
    }
    assert IsDigit(body[0]) by { assert body[0] == NatToString(q)[0]; }
    SignedBody(neg, body, mag);
  }

  /** Reading back the text of a number gives the number rounded to six
      places: within half a millionth of it, with the sign kept. */
  lemma {:induction false} FloatToStrRoundTrip(v: real)
    ensures ParseFloat6(FloatToStr(v)).Some?
    ensures var p := ParseFloat6(FloatToStr(v)).value;
      -0.0000005 <= p - v <= 0.0000005 &&
      p == (if v < 0.0 then -1.0 else 1.0) * Millionths(v) as real / 1000000.0
  {
    var n := Millionths(v);
    var q, m := n / 1000000, n % 1000000;
    FloatToStrParts(v);
    ParseFloat6Of(v < 0.0, q, m);
    MillionthsSplit(n);
  }

  /** A non-negative value below one that rounds to `n` millionths prints
      as "0." followed by the six digits of `n`. */
  lemma FloatToStrBelowOne(v: real, n: nat, digits: string)
    requires 0.0 <= v && Millionths(v) == n && n < 1000000 && FixedDigits(n, 6) == digits
    ensures FloatToStr(v) == "0." + digits
  {
    var z := NatToString(0);
    assert z == "0";
    assert FloatToStr(v) == "" + (z + "." + digits) by {
      FloatToStrParts(v);
      assert n / 1000000 == 0 && n % 1000000 == n;
    }
  }

  /** The text of k/512, for 0 <= k < 512: "0." and the six digits of
      15625*k/8 rounded half to even, here given digit by digit. */
  lemma FloatToStrOf512(v: real, k: nat, a: nat, b: nat, c: nat, d: nat, e: nat, f: nat, s: string)
    requires k < 512 && v == k as real / 512.0
    requires a < 10 && b < 10 && c < 10 && d < 10 && e < 10 && f < 10
    requires IntRoundHalfEven(15625 * k, 8) == ((((a * 10 + b) * 10 + c) * 10 + d) * 10 + e) * 10 + f
    requires s == ['0', '.', DigitChar(a), DigitChar(b), DigitChar(c), DigitChar(d), DigitChar(e), DigitChar(f)]
    ensures FloatToStr(v) == s
  {
    var n := IntRoundHalfEven(15625 * k, 8);
    SixPlacesOnMultipleOf512(k);
    FixedDigitsOf6(n, a, b, c, d, e, f);
    FloatToStrBelowOne(v, n, FixedDigits(n, 6));
  }

  /** 30/256 = 0.1171875 is a tie; the even neighbour is 0.117188, above it. */
  lemma TieRoundsUp(v: real)
    requires v == 30.0 / 256.0
    ensures FloatToStr(v) == "0.117188"
  {
    FloatToStrOf512(v, 60, 1, 1, 7, 1, 8, 8, "0.117188");
  }

  /** 10/256 = 0.0390625 is a tie; the even neighbour is 0.039062, below it. */
  lemma TieRoundsDown(v: real)
    requires v == 10.0 / 256.0
    ensures FloatToStr(v) == "0.039062"
  {
    FloatToStrOf512(v, 20, 0, 3, 9, 0, 6, 2, "0.039062");
  }

  /** 100/256 = 0.390625 needs no rounding. */
  lemma TextOf100(v: real)
    requires v == 100.0 / 256.0
    ensures FloatToStr(v) == "0.390625"
  {
    FloatToStrOf512(v, 200, 3, 9, 0, 6, 2, 5, "0.390625");
  }

  /** 40/256 = 0.15625 is padded to six places. */
  lemma TextOf40(v: real)
    requires v == 40.0 / 256.0
    ensures FloatToStr(v) == "0.156250"
  {
    FloatToStrOf512(v, 80, 1, 5, 6, 2, 5, 0, "0.156250");
  }

  /** 65/256 = 0.25390625 rounds down. */
  lemma TextOf65(v: real)
    requires v == 65.0 / 256.0
    ensures FloatToStr(v) == "0.253906"
  {
    FloatToStrOf512(v, 130, 2, 5, 3, 9, 0, 6, "0.253906");
  }

  /** 75/256 = 0.29296875 rounds up. */
  lemma TextOf75(v: real)
    requires v == 75.0 / 256.0
    ensures FloatToStr(v) == "0.292969"
  {
    FloatToStrOf512(v, 150, 2, 9, 2, 9, 6, 9, "0.292969");
  }

  lemma MillionthsSplit(n: nat)
    ensures (n / 1000000) as real + (n % 1000000) as real / 1000000.0 == n as real / 1000000.0
  {
    var q, m := n / 1000000, n % 1000000;
    assert n == q * 1000000 + m;
    assert n as real == q as real * 1000000.0 + m as real;
  }

  /** Integer reference for rounding a / d to the nearest integer, ties to even. */
  function IntRoundHalfEven(a: int, d: int): int
    requires d > 0
  {
    var q, r := a / d, a % d;
    if 2 * r < d then q else if 2 * r > d then q + 1 else if q % 2 == 0 then q else q + 1
  }

  /** On a multiple k/512 of 1/512 (every normalised value of a label),
      six-place rounding is exact integer arithmetic: k/512 is
      15625*k/8 millionths, and a tie happens exactly when k % 8 == 4. */
  lemma SixPlacesOnMultipleOf512(k: nat)
    ensures Millionths(k as real / 512.0) == IntRoundHalfEven(15625 * k, 8)
  {
    var a := 15625 * k;
    var t := k as real / 512.0 * 1000000.0;
    assert t == a as real / 8.0;
    IntRoundNearest(a);
    RoundHalfEvenUnique(t, IntRoundHalfEven(a, 8));
  }

  /** The integer reference meets the specification of RoundHalfEven on a / 8. */
  lemma IntRoundNearest(a: int)
    ensures var m := IntRoundHalfEven(a, 8); var t := a as real / 8.0;
      m as real - 0.5 <= t <= m as real + 0.5 &&
      ((t == m as real - 0.5 || t == m as real + 0.5) ==> m % 2 == 0)
  {
    var q, r := a / 8, a % 8;
    assert a == 8 * q + r;
    assert a as real / 8.0 == q as real + r as real / 8.0;
  }

  /** `calculate_center(start, size)`: the midpoint of [start, start + size]. */
  function CalculateCenter(start: real, size: real): (c: real)
    ensures c - start == (start + size) - c
  {
    start + size / 2.0
  }

  /** An integer start and an odd integer size give a centre halfway between
      two pixels; an even size gives a whole pixel. */
  lemma CenterOfIntegerSide(start: int, size: int)
    ensures size % 2 == 1 ==> CalculateCenter(start as real, size as real) == (start + size / 2) as real + 0.5
    ensures size % 2 == 0 ==> CalculateCenter(start as real, size as real) == (start + size / 2) as real
  {
    assert size == 2 * (size / 2) + size % 2;
  }

  /** `normalize_bbox(x_center, y_center, size)`: four values, each the pixel
      quantity over the canvas extent on its axis; the box is square, so
      width and height both come from `size`. */
  function NormalizeBbox(xCenter: real, yCenter: real, size: real): (r: seq<real>)
    ensures |r| == 4
    ensures r[0] * IMAGE_WIDTH as real == xCenter && r[1] * IMAGE_HEIGHT as real == yCenter
    ensures r[2] * IMAGE_WIDTH as real == size && r[3] * IMAGE_HEIGHT as real == size
    ensures r[2] == r[3]
  {
    [xCenter / IMAGE_WIDTH as real, yCenter / IMAGE_HEIGHT as real,
     size / IMAGE_WIDTH as real, size / IMAGE_HEIGHT as real]
  }

  /** A box whose centre lies on the canvas and whose size is at most the
      canvas normalises to four values in [0, 1]. */
  lemma NormalizedInUnitRange(xCenter: real, yCenter: real, size: real)
    requires 0.0 <= xCenter <= IMAGE_WIDTH as real && 0.0 <= yCenter <= IMAGE_HEIGHT as real
    requires 0.0 <= size <= IMAGE_WIDTH as real
    ensures forall k :: 0 <= k < 4 ==> 0.0 <= NormalizeBbox(xCenter, yCenter, size)[k] <= 1.0
  {
  }

  /** The text of each value, in order. */
  function Tokens(values: seq<real>): (ts: seq<string>)
    ensures |ts| == |values|
    ensures forall k :: 0 <= k < |ts| ==> ts[k] == FloatToStr(values[k])
  {
    seq(|values|, k requires 0 <= k < |values| => FloatToStr(values[k]))
  }

  /** `format_label_values(values)`: the six-decimal texts joined by single
      spaces. Splitting on ' ' gives one token per value back, so n values
      give n tokens separated by n - 1 spaces. */
  function FormatLabelValues(values: seq<real>): (s: string)
    ensures values == [] ==> s == ""
    ensures values != [] ==> SplitOn(' ', s) == Tokens(values)
    ensures values != [] ==> Occurrences(' ', s) == |values| - 1
  {
    var ts := Tokens(values);
    JoinTokens(ts);
    Join(" ", ts)
  }

  lemma JoinTokens(ts: seq<string>)
    requires forall k :: 0 <= k < |ts| ==> ' ' !in ts[k]
    ensures ts != [] ==> SplitOn(' ', Join(" ", ts)) == ts
    ensures ts != [] ==> Occurrences(' ', Join(" ", ts)) == |ts| - 1
  {
    if ts != [] {
      SplitJoin(' ', ts);
      JoinOccurrences(' ', ts);
    }
  }

  /** `write_label_file`: the file at `path_builder(filename)` holds the class
      id, one space, then the label data, and nothing after it (no newline). */
  function WriteLabelFile(pathBuilder: PathBuilder, filename: string, classId: string, labelData: string): (w: FileWrite)
    ensures w.path == pathBuilder.Call(filename)
    ensures w.content.Text? && |w.content.text| == |classId| + 1 + |labelData|
    ensures w.content.text[..|classId|] == classId && w.content.text[|classId|] == ' '
    ensures w.content.text[|classId| + 1..] == labelData
  {
    FileWrite(pathBuilder.Call(filename), Text(classId + " " + labelData))
  }

  /** `make_label`: when the class id holds no space, the label file's text
      splits on spaces into the class id followed by the texts of
      x_center/W, y_center/H, size/W and size/H. */
  function MakeLabel(xCenter: real, yCenter: real, size: real, filename: string, classId: string, pathBuilder: PathBuilder): (w: FileWrite)
    ensures w.path == pathBuilder.Call(filename)
    ensures w.content.Text?
    ensures ' ' !in classId ==> SplitOn(' ', w.content.text) == [classId] + Tokens(NormalizeBbox(xCenter, yCenter, size))
  {
    var values := NormalizeBbox(xCenter, yCenter, size);
    var labelString := FormatLabelValues(values);
    var w := WriteLabelFile(pathBuilder, filename, classId, labelString);
    assert w.content.text == classId + [' '] + labelString;
    assert ' ' !in classId ==> SplitOn(' ', w.content.text) == [classId] + SplitOn(' ', labelString) by {
      if ' ' !in classId {
        SplitAfterFirst(classId, labelString);
      }
    }
    w
  }

  /** Splitting `a + " " + b` where `a` has no space peels `a` off first. */
  lemma SplitAfterFirst(a: string, b: string)
    requires ' ' !in a
    ensures SplitOn(' ', a + [' '] + b) == [a] + SplitOn(' ', b)
  {
    var s := a + [' '] + b;
    assert s[|a|] == ' ';
    var i := IndexOf(' ', s);
    assert s[..|a|] == a;
    assert i == |a|;
    assert s[i + 1..] == b;
  }

  /** The text `make_label` writes, spelled out token by token. */
  lemma MakeLabelText(xCenter: real, yCenter: real, size: real, filename: string, classId: string, pathBuilder: PathBuilder)
    ensures MakeLabel(xCenter, yCenter, size, filename, classId, pathBuilder).content.text
         == classId + " " + FloatToStr(xCenter / 256.0) + " " + FloatToStr(yCenter / 256.0)
            + " " + FloatToStr(size / 256.0) + " " + FloatToStr(size / 256.0)
  {
    var t0, t1, t2 := FloatToStr(xCenter / 256.0), FloatToStr(yCenter / 256.0), FloatToStr(size / 256.0);
    var values := NormalizeBbox(xCenter, yCenter, size);
    assert values[0] == xCenter / 256.0 && values[1] == yCenter / 256.0;
    assert values[2] == size / 256.0 && values[3] == size / 256.0;
    JoinTokensFour(values, t0, t1, t2, t2);
    MakeLabelJoined(xCenter, yCenter, size, filename, classId, pathBuilder);
    ConcatAssoc(classId, " ", t0, t1, t2, t2);
  }

  /** The text `make_label` writes is the class id, a space and the joined tokens. */
  lemma MakeLabelJoined(xCenter: real, yCenter: real, size: real, filename: string, classId: string, pathBuilder: PathBuilder)
    ensures MakeLabel(xCenter, yCenter, size, filename, classId, pathBuilder).content.text
         == classId + " " + Join(" ", Tokens(NormalizeBbox(xCenter, yCenter, size)))
  {
  }

  lemma JoinTokensFour(values: seq<real>, t0: string, t1: string, t2: string, t3: string)
    requires |values| == 4
    requires t0 == FloatToStr(values[0]) && t1 == FloatToStr(values[1])
    requires t2 == FloatToStr(values[2]) && t3 == FloatToStr(values[3])
    ensures Join(" ", Tokens(values)) == t0 + " " + t1 + " " + t2 + " " + t3
  {
    JoinFour(" ", Tokens(values));
  }

  lemma ConcatAssoc<T>(c: seq<T>, sep: seq<T>, a: seq<T>, b: seq<T>, d: seq<T>, e: seq<T>)
    ensures c + sep + (a + sep + b + sep + d + sep + e) == c + sep + a + sep + b + sep + d + sep + e
  {
  }

  lemma JoinFour(sep: string, ts: seq<string>)
    requires |ts| == 4
    ensures Join(sep, ts) == ts[0] + sep + ts[1] + sep + ts[2] + sep + ts[3]
  {
    var r1, r2 := ts[1..], ts[2..];
    assert r2[1..] == [ts[3]] && r2[0] == ts[2];
    assert Join(sep, r2) == ts[2] + sep + ts[3];
    assert r1[1..] == r2 && r1[0] == ts[1];
    assert Join(sep, r1) == ts[1] + sep + Join(sep, r2);
  }

  /** A parsed label: the integer class id and the four numbers. */
  datatype LabelRecord = LabelRecord(classId: nat, values: seq<real>)

  /** Reading a label line back: five space-separated tokens, a decimal class
      id followed by four `"%.6f"` numbers. */
  function ParseLabelLine(s: string): Option<LabelRecord>
  {
    var ts := SplitOn(' ', s);
    if |ts| != 5 || ts[0] == "" || !AllDigits(ts[0]) then None
    else
      match (ParseFloat6(ts[1]), ParseFloat6(ts[2]), ParseFloat6(ts[3]), ParseFloat6(ts[4]))
      case (Some(a), Some(b), Some(c), Some(d)) => Some(LabelRecord(ParseDigits(ts[0]), [a, b, c, d]))
      case _ => None
  }

  /** A text that splits into a class id and four tokens that read back as
      numbers parses to that id and those numbers. */
  lemma ParseLabelOfParts(s: string, classId: nat, ts: seq<string>, ps: seq<real>)
    requires |ts| == 4 && |ps| == 4
    requires SplitOn(' ', s) == [NatToString(classId)] + ts
    requires forall k :: 0 <= k < 4 ==> ParseFloat6(ts[k]) == Some(ps[k])
    ensures ParseLabelLine(s) == Some(LabelRecord(classId, ps))
  {
    ParseNatToString(classId);
    assert ParseFloat6(ts[0]) == Some(ps[0]) && ParseFloat6(ts[1]) == Some(ps[1]);
    assert ParseFloat6(ts[2]) == Some(ps[2]) && ParseFloat6(ts[3]) == Some(ps[3]);
    assert ps == [ps[0], ps[1], ps[2], ps[3]];
  }

  /** A text reads back as `classId` followed by four numbers, each within
      half a millionth of the matching entry of `box`. */
  predicate ReadsBackAs(text: string, classId: nat, box: seq<real>)
  {
    var r := ParseLabelLine(text);
    |box| == 4 && r.Some? && r.value.classId == classId && |r.value.values| == 4 &&
    forall k :: 0 <= k < 4 ==> -0.0000005 <= r.value.values[k] - box[k] <= 0.0000005
  }

  /** Any text that splits into a class id and the tokens of four values
      reads back as that id and four numbers close to the values. */
  lemma ParseLabelOfTokens(s: string, classId: nat, values: seq<real>)
    requires |values| == 4
    requires SplitOn(' ', s) == [NatToString(classId)] + Tokens(values)
    ensures ReadsBackAs(s, classId, values)
  {
    var ts := Tokens(values);
    var ps := seq(4, k requires 0 <= k < 4 => ParseFloat6(ts[k]).value);
    forall k | 0 <= k < 4
      ensures ParseFloat6(ts[k]) == Some(ps[k])
      ensures -0.0000005 <= ps[k] - values[k] <= 0.0000005
    {
      FloatToStrRoundTrip(values[k]);
    }
    ParseLabelOfParts(s, classId, ts, ps);
  }

  /** A label written by `make_label` reads back as its class id and four
      numbers each within half a millionth of the normalised box. */
  lemma LabelRoundTrip(classId: nat, xCenter: real, yCenter: real, size: real, filename: string, pathBuilder: PathBuilder)
    ensures ReadsBackAs(MakeLabel(xCenter, yCenter, size, filename, NatToString(classId), pathBuilder).content.text,
                        classId, NormalizeBbox(xCenter, yCenter, size))
  {
    var id := NatToString(classId);
    assert ' ' !in id by { assert forall i :: 0 <= i < |id| ==> IsDigit(id[i]); }
    var w := MakeLabel(xCenter, yCenter, size, filename, id, pathBuilder);
    ParseLabelOfTokens(w.content.text, classId, NormalizeBbox(xCenter, yCenter, size));
  }
}
