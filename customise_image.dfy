/**
 * The image service (`CustomiseImage`): the three `Convert` overloads and
 * `SaveImage`. Pixels are not modelled. An image is its width and height, and a
 * conversion is described by what it produces: the output canvas, the colour
 * the canvas is filled with (if any), the size of the content drawn on it, the
 * point where the content is drawn, and the encoders used to write the file.
 */
module CustomiseImage {
  import opened Int32Arith
  import opened Wrappers
  import Paths

  datatype Size = Size(width: Int32, height: Int32)
  datatype Point = Point(x: Int32, y: Int32)

  /** The encoders the output can be written with; JPEG carries its quality setting. */
  datatype Encoder = Png | Jpeg(quality: int)

  /** A border colour, as the `#RRGGBB` text the form holds. */
  type Color = string

  /**
   * The source image's aspect ratio `(Double)Width / Height`, reduced to the two
   * ways the service uses it: `(Int32)(width / ratio)` gives the height that
   * goes with a width, `(Int32)(height * ratio)` the width that goes with a
   * height. The floating-point arithmetic itself is not modelled.
   */
  datatype AspectRatio = AspectRatio(heightForWidth: Int32 -> Int32, widthForHeight: Int32 -> Int32)

  /** A decoded source image: its size and its aspect ratio. */
  datatype SourceImage = SourceImage(size: Size, aspect: AspectRatio)

  /** What one conversion produces. */
  datatype Rendered = Rendered(canvas: Size, fill: Option<Color>, content: Size, offset: Point, writes: seq<Encoder>)

  const JpegQuality: int := 100

  /**
   * The box a resize aims at. A dimension equal to the sentinel `1` is derived
   * from the other one and the aspect ratio, but only when the other one is
   * greater than 1; in every other case the requested box is kept as it is.
   * At most one dimension is derived: the box always keeps the requested width
   * or the requested height.
   */
  function TargetBox(outputHeight: Int32, outputWidth: Int32, aspect: AspectRatio): (box: Size)
    ensures box.width == outputWidth || box.height == outputHeight
    ensures box.height != outputHeight ==> outputHeight == 1 && outputWidth > 1
    ensures box.width != outputWidth ==> outputWidth == 1 && outputHeight > 1
  {
    if outputWidth > 1 && outputHeight == 1 then Size(outputWidth, aspect.heightForWidth(outputWidth))
    else if outputHeight > 1 && outputWidth == 1 then Size(aspect.widthForHeight(outputHeight), outputHeight)
    else Size(outputWidth, outputHeight)
  }

  /** The encoders `SaveImage` uses for an extension: exact, case-sensitive matches only. */
  function EncodersFor(extension: string): (encoders: seq<Encoder>)
    ensures |encoders| <= 1
    ensures Png in encoders <==> extension == ".png"
    ensures Jpeg(JpegQuality) in encoders <==> extension == ".jpg" || extension == ".jpeg"
    ensures encoders == [] <==> extension !in {".png", ".jpg", ".jpeg"}
  {
    if extension == ".png" then [Png]
    else if extension == ".jpg" || extension == ".jpeg" then [Jpeg(JpegQuality)]
    else []
  }

  /** The extensions under which an output file is actually written. */
  predicate IsSavedExtension(extension: string) {
    extension in {".png", ".jpg", ".jpeg"}
  }

  /**
   * `SaveImage`: two independent tests on the extension of the output path,
   * each of which may write the file with its encoder.
   */
  method SaveImage(outputImagePath: string) returns (writes: seq<Encoder>)
    ensures writes == EncodersFor(Paths.Extension(outputImagePath))
    ensures |writes| <= 1
  {
    var extension := Paths.Extension(outputImagePath);
    writes := [];
    if extension == ".png" {
      writes := writes + [Png];
    }
    if extension == ".jpg" || extension == ".jpeg" {
      writes := writes + [Jpeg(JpegQuality)];
    }
  }

  /**
   * The opening lines of both resizing overloads: a width above 1 with the
   * height at the sentinel derives the height, then a height above 1 with the
   * width at the sentinel derives the width.
   */
  method DeriveBox(outputHeight: Int32, outputWidth: Int32, aspect: AspectRatio) returns (width: Int32, height: Int32)
    ensures Size(width, height) == TargetBox(outputHeight, outputWidth, aspect)
  {
    height, width := outputHeight, outputWidth;
    if width > 1 && height == 1 {
      height := aspect.heightForWidth(width);
    }
    if height > 1 && width == 1 {
      width := aspect.widthForHeight(height);
    }
  }

  /**
   * `Convert(source, output, height, width, borderSize, colour)`: derive the
   * missing dimension, shrink the source to the box minus the border on each
   * side, fill a canvas of the box with the colour and draw the shrunk image at
   * (borderSize, borderSize).
   */
  method ResizeWithBorder(source: SourceImage, outputImagePath: string,
                          outputHeight: Int32, outputWidth: Int32,
                          borderSize: Int32, borderColor: Color) returns (out: Rendered)
    ensures out.canvas == TargetBox(outputHeight, outputWidth, source.aspect)
    ensures out.fill == Some(borderColor)
    ensures out.offset == Point(borderSize, borderSize)
    ensures out.content == Size(Shrink(out.canvas.width, borderSize), Shrink(out.canvas.height, borderSize))
    ensures InRange(2 * borderSize) && InRange(out.canvas.width - 2 * borderSize) ==>
              out.offset.x + out.content.width + borderSize == out.canvas.width
    ensures InRange(2 * borderSize) && InRange(out.canvas.height - 2 * borderSize) ==>
              out.offset.y + out.content.height + borderSize == out.canvas.height
    ensures out.writes == EncodersFor(Paths.Extension(outputImagePath))
  {
    var width, height := DeriveBox(outputHeight, outputWidth, source.aspect);
    var innerWidth := Shrink(width, borderSize);
    var innerHeight := Shrink(height, borderSize);
    var writes := SaveImage(outputImagePath);
    out := Rendered(Size(width, height), Some(borderColor), Size(innerWidth, innerHeight),
                    Point(borderSize, borderSize), writes);
  }

  /**
   * `Convert(source, output, height, width)`: derive the missing dimension and
   * resize the source to that box; no canvas, no border. The output is taken
   * to have exactly the size passed to `Resize`.
   */
  method ResizeOnly(source: SourceImage, outputImagePath: string,
                    outputHeight: Int32, outputWidth: Int32) returns (out: Rendered)
    ensures out.canvas == TargetBox(outputHeight, outputWidth, source.aspect)
    ensures out.content == out.canvas
    ensures out.fill == None && out.offset == Point(0, 0)
    ensures out.writes == EncodersFor(Paths.Extension(outputImagePath))
  {
    var width, height := DeriveBox(outputHeight, outputWidth, source.aspect);
    var writes := SaveImage(outputImagePath);
    out := Rendered(Size(width, height), None, Size(width, height), Point(0, 0), writes);
  }

  /**
   * `Convert(source, output, borderSize, colour)`: no resizing; a canvas larger
   * than the source by the border on each side is filled with the colour and
   * the source is drawn at (borderSize, borderSize).
   */
  method BorderOnly(source: SourceImage, outputImagePath: string,
                    borderSize: Int32, borderColor: Color) returns (out: Rendered)
    ensures out.content == source.size
    ensures out.fill == Some(borderColor)
    ensures out.offset == Point(borderSize, borderSize)
    ensures out.canvas == Size(Grow(source.size.width, borderSize), Grow(source.size.height, borderSize))
    ensures InRange(2 * borderSize) && InRange(source.size.width + 2 * borderSize) ==>
              out.canvas.width == source.size.width + 2 * borderSize &&
              out.offset.x + out.content.width + borderSize == out.canvas.width
    ensures InRange(2 * borderSize) && InRange(source.size.height + 2 * borderSize) ==>
              out.canvas.height == source.size.height + 2 * borderSize &&
              out.offset.y + out.content.height + borderSize == out.canvas.height
    ensures out.writes == EncodersFor(Paths.Extension(outputImagePath))
  {
    var outputWidth := Grow(source.size.width, borderSize);
    var outputHeight := Grow(source.size.height, borderSize);
    var writes := SaveImage(outputImagePath);
    out := Rendered(Size(outputWidth, outputHeight), Some(borderColor), source.size,
                    Point(borderSize, borderSize), writes);
  }

  /**
   * `outer - (borderSize * 2)` in Int32: the exact difference, wrapped; when
   * nothing overflows, a border on each side of the result fills `outer` exactly.
   */
  function Shrink(outer: Int32, borderSize: Int32): (inner: Int32)
    ensures inner == Wrap(outer - 2 * borderSize)
    ensures InRange(2 * borderSize) && InRange(outer - 2 * borderSize) ==>
              borderSize + inner + borderSize == outer
  {
    InsetFits(outer, borderSize);
    Wrap(outer - Wrap(borderSize * 2))
  }

  /**
   * `inner + (borderSize * 2)` in Int32: the exact sum, wrapped; when nothing
   * overflows, `inner` with a border on each side.
   */
  function Grow(inner: Int32, borderSize: Int32): (outer: Int32)
    ensures outer == Wrap(inner + 2 * borderSize)
    ensures InRange(2 * borderSize) && InRange(inner + 2 * borderSize) ==>
              outer == borderSize + inner + borderSize
  {
    OutsetFits(inner, borderSize);
    Wrap(inner + Wrap(borderSize * 2))
  }

  /** Shrinking by the border on both sides, in Int32: the content fits back exactly when nothing overflows. */
  lemma InsetFits(outer: Int32, borderSize: Int32)
    ensures Wrap(outer - Wrap(borderSize * 2)) == Wrap(outer - 2 * borderSize)
    ensures InRange(2 * borderSize) && InRange(outer - 2 * borderSize) ==>
              borderSize + Wrap(outer - 2 * borderSize) + borderSize == outer
  {
    WrapSub(outer, borderSize * 2);
  }

  /** Growing by the border on both sides, in Int32: exact when nothing overflows. */
  lemma OutsetFits(inner: Int32, borderSize: Int32)
    ensures Wrap(inner + Wrap(borderSize * 2)) == Wrap(inner + 2 * borderSize)
    ensures InRange(2 * borderSize) && InRange(inner + 2 * borderSize) ==>
              Wrap(inner + 2 * borderSize) == inner + 2 * borderSize
  {
    WrapAdd(inner, borderSize * 2);
  }

  /** Width given, height the sentinel: the width is kept and the height comes from the aspect ratio. */
  lemma TargetBoxDerivesHeight(outputWidth: Int32, aspect: AspectRatio)
    requires outputWidth > 1
    ensures TargetBox(1, outputWidth, aspect) == Size(outputWidth, aspect.heightForWidth(outputWidth))
  {
  }

  /** Height given, width the sentinel: the height is kept and the width comes from the aspect ratio. */
  lemma TargetBoxDerivesWidth(outputHeight: Int32, aspect: AspectRatio)
    requires outputHeight > 1
    ensures TargetBox(outputHeight, 1, aspect) == Size(aspect.widthForHeight(outputHeight), outputHeight)
  {
  }

  /**
   * Without the sentinel pattern (both dimensions 1, both above 1, or any
   * dimension at most 0) the requested box is used unchanged. The
   * derivation tests do not treat 0 as a sentinel.
   */
  lemma TargetBoxKeepsRequest(outputHeight: Int32, outputWidth: Int32, aspect: AspectRatio)
    requires !(outputWidth > 1 && outputHeight == 1) && !(outputHeight > 1 && outputWidth == 1)
    ensures TargetBox(outputHeight, outputWidth, aspect) == Size(outputWidth, outputHeight)
  {
  }

  /** Upper-case or otherwise different extensions are not written at all. */
  lemma OtherExtensionsAreDropped()
    ensures EncodersFor(".PNG") == [] && EncodersFor(".JPG") == [] && EncodersFor(".Jpeg") == []
    ensures EncodersFor(".bmp") == [] && EncodersFor("") == []
  {
  }

  /** Every output file whose extension is one of the three saved ones is written exactly once. */
  lemma SavedExtensionIsWrittenOnce(extension: string)
    requires IsSavedExtension(extension)
    ensures |EncodersFor(extension)| == 1
  {
  }
}
