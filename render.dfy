/**
  The render worker of src/render.rs: the context the producer owns and one
  producer iteration, which clones the stored pixel buffer, paints the
  diagonal test pattern into the clone row by row and sends it down the frame
  channel.
*/
module Render {
  import opened Channels

  /** Rust's u32; arithmetic on it must stay in range (a debug build panics otherwise). */
  newtype u32 = x: int | 0 <= x < 0x1_0000_0000

  /** The four f32 components of a pixel; the source only ever stores 0.0 and 1.0. */
  datatype Color = Color(r: real, g: real, b: real, a: real)

  /** Color::default(): every component 0.0. */
  const DefaultColor := Color(0.0, 0.0, 0.0, 0.0)
  const White := Color(1.0, 1.0, 1.0, 1.0)
  const Black := Color(0.0, 0.0, 0.0, 1.0)

  /** 4x4 transforms, kept opaque: only the constructor arguments the source uses are recorded. */
  datatype Mat4 =
    | Identity
    | Translation(x: real, y: real, z: real)
    | Perspective(aspect: real, fovy: real, znear: real, zfar: real)

  /** The view the context is created with: a translation by (0, 0, -1). */
  const InitialView := Translation(0.0, 0.0, -1.0)

  /** A frame is the whole pixel buffer, row-major. */
  type Frame = seq<Color>

  /** Where pixel (row i, column j) lives in a row-major buffer of the given width. */
  function PixelIndex(width: nat, i: nat, j: nat): nat
  {
    i * width + j
  }

  /** The colour the test pattern gives pixel (i, j). */
  function PatternColor(i: nat, j: nat): Color
  {
    if i == j then Black else White
  }

  /** Row i of the test pattern. */
  function PatternRow(width: nat, i: nat): seq<Color>
  {
    seq(width, j requires 0 <= j => PatternColor(i, j))
  }

  /** The first `height` rows of the test pattern, row-major. */
  function TestPattern(width: nat, height: nat): (f: Frame)
    ensures |f| == width * height
  {
    if height == 0 then [] else TestPattern(width, height - 1) + PatternRow(width, height - 1)
  }

  /** Every (i, j) the loops visit addresses a pixel inside a width*height buffer. */
  lemma PixelIndexInBounds(width: nat, height: nat, i: nat, j: nat)
    requires i < height && j < width
    ensures PixelIndex(width, i, j) < width * height
  {
    RowInBounds(width, height, i);
  }

  /** Row i < height ends inside a width*height buffer. */
  lemma RowInBounds(width: nat, height: nat, i: nat)
    requires i < height
    ensures i * width + width <= width * height
  {
    assert (i + 1) * width == i * width + width;
    MulMonotone(i + 1, height, width);
  }

  /** Distinct pixels of a row-major buffer have distinct indices. */
  lemma PixelIndexInjective(width: nat, i1: nat, j1: nat, i2: nat, j2: nat)
    requires j1 < width && j2 < width
    requires i1 != i2 || j1 != j2
    ensures PixelIndex(width, i1, j1) != PixelIndex(width, i2, j2)
  {
    if i1 < i2 {
      MulMonotone(i1 + 1, i2, width);
      assert (i1 + 1) * width == i1 * width + width;
    } else if i2 < i1 {
      MulMonotone(i2 + 1, i1, width);
      assert (i2 + 1) * width == i2 * width + width;
    }
  }

  lemma MulMonotone(a: nat, b: nat, c: nat)
    requires a <= b
    ensures a * c <= b * c
  {
    assert b * c == a * c + (b - a) * c;
  }

  /** Pixel (i, j) of the test pattern is black exactly on the diagonal and white elsewhere. */
  lemma {:induction false} TestPatternAt(width: nat, height: nat, i: nat, j: nat)
    requires i < height && j < width
    ensures PixelIndex(width, i, j) < |TestPattern(width, height)|
    ensures TestPattern(width, height)[PixelIndex(width, i, j)] == (if i == j then Black else White)
  {
    PixelIndexInBounds(width, height, i, j);
    var prefix := TestPattern(width, height - 1);
    if i < height - 1 {
      TestPatternAt(width, height - 1, i, j);
      assert TestPattern(width, height)[PixelIndex(width, i, j)] == prefix[PixelIndex(width, i, j)];
    } else {
      assert |prefix| == i * width;
      assert TestPattern(width, height)[PixelIndex(width, i, j)] == PatternRow(width, i)[j];
    }
  }

  /**
    The clone-and-fill of run_iteration: a fresh copy of `src` is painted in place,
    row by row and column by column, and its contents are returned. The result
    depends only on the dimensions, not on what was in `src`.
  */
  method RenderFrame(src: seq<Color>, width: u32, height: u32) returns (frame: Frame)
    requires width as int * height as int < 0x1_0000_0000
    requires |src| == width as int * height as int
    ensures frame == TestPattern(width as nat, height as nat)
  {
    var image := new Color[|src|](k requires 0 <= k < |src| => src[k]);
    var i: u32 := 0;
    while i < height
      invariant i <= height
      invariant i as nat * width as nat <= image.Length
      invariant image[..i as nat * width as nat] == TestPattern(width as nat, i as nat)
    {
      ghost var rowStart := i as nat * width as nat;
      PaintRow(image, width, height, i);
      assert (i as nat + 1) * width as nat == rowStart + width as nat;
      i := i + 1;
    }
    assert image[..] == image[..height as nat * width as nat];
    frame := image[..];
  }

  /** `s` with the slots from `at` on replaced by `row`; every other slot keeps its value. */
  function Overwrite(s: seq<Color>, at: nat, row: seq<Color>): (r: seq<Color>)
    requires at + |row| <= |s|
    ensures |r| == |s|
    ensures r[..at + |row|] == s[..at] + row
    ensures r[at + |row|..] == s[at + |row|..]
  {
    s[..at] + row + s[at + |row|..]
  }

  /** Writing one more slot right after the overwritten ones extends the overwrite by that slot. */
  lemma OverwriteExtend(s: seq<Color>, at: nat, row: seq<Color>, c: Color)
    requires at + |row| < |s|
    ensures Overwrite(s, at, row)[at + |row| := c] == Overwrite(s, at, row + [c])
  {
    assert Overwrite(s, at, row)[at + |row| := c] == s[..at] + (row + [c]) + s[at + |row| + 1..];
  }

  /** The inner loop of run_iteration: paints row i, leaving the rows before and after it alone. */
  method PaintRow(image: array<Color>, width: u32, height: u32, i: u32)
    requires width as int * height as int < 0x1_0000_0000
    requires image.Length == width as int * height as int && i < height
    modifies image
    ensures i as nat * width as nat + width as nat <= image.Length
    ensures image[..] == Overwrite(old(image[..]), i as nat * width as nat, PatternRow(width as nat, i as nat))
  {
    ghost var w := width as nat;
    ghost var rowStart := i as nat * w;
    ghost var original := image[..];
    RowInBounds(w, height as nat, i as nat);
    assert original == Overwrite(original, rowStart, []);
    var j: u32 := 0;
    while j < width
      invariant j <= width
      invariant image[..] == Overwrite(original, rowStart, PatternRow(w, i as nat)[..j])
    {
      var col := White;
      if i == j {
        col := Black;
      }
      var k := i * width + j;
      ghost var painted := PatternRow(w, i as nat)[..j];
      image[k] := col;
      OverwriteExtend(original, rowStart, painted, col);
      assert PatternRow(w, i as nat)[..j + 1] == painted + [col];
      j := j + 1;
    }
    assert PatternRow(w, i as nat)[..j] == PatternRow(w, i as nat);
  }

  /** PathTracerRenderContext: the state the producer thread owns. */
  class RenderContext {
    /** The stored pixel buffer (behind a Mutex in the source); only ever read. */
    var imageData: seq<Color>
    var resultWidth: u32
    var resultHeight: u32
    /** The last applied view; never updated by any step of the source. */
    var view: Mat4
    /** The sending end of the frame channel. */
    var tx: Unbounded<Frame>
    /** The receiving end of the camera slot. */
    var inputRx: SingleValue<Mat4>

    ghost predicate Valid()
      reads this
    {
      && resultWidth as int * resultHeight as int < 0x1_0000_0000
      && |imageData| == resultWidth as int * resultHeight as int
    }

    /** PathTracerRenderContext::new: a width*height buffer of default pixels. */
    constructor (width: u32, height: u32, tx: Unbounded<Frame>, inputRx: SingleValue<Mat4>)
      requires width as int * height as int < 0x1_0000_0000
      ensures Valid()
      ensures resultWidth == width && resultHeight == height
      ensures |imageData| == width as int * height as int
      ensures forall k :: 0 <= k < |imageData| ==> imageData[k] == DefaultColor
      ensures view == InitialView
      ensures this.tx == tx && this.inputRx == inputRx
    {
      resultHeight := height;
      resultWidth := width;
      view := InitialView;
      var pixels := width * height;
      imageData := seq(pixels as nat, _ => DefaultColor);
      this.tx := tx;
      this.inputRx := inputRx;
    }

    /**
      run_iteration: reads the camera slot (the value is only logged), paints a
      clone of the stored buffer and sends it, ignoring the send result. The
      context itself and the camera slot are left as they were.
    */
    method RunIteration()
      requires Valid()
      modifies tx
      ensures tx.queue == old(tx.queue) + [TestPattern(resultWidth as nat, resultHeight as nat)]
      ensures unchanged(this)
      ensures unchanged(inputRx)
    {
      var cameraMatrix := inputRx.Latest();
      var imageData := RenderFrame(this.imageData, resultWidth, resultHeight);
      tx.Send(imageData);
    }
  }
}
