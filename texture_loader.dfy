/**
 * `loader.TextureLoader`: turns a decoded image into the RGBA byte buffer
 * handed to OpenGL. A raster of four bytes per pixel (ABGR) has each pixel's
 * bytes reversed; a raster of three bytes per pixel (BGR) has them reversed
 * and an alpha byte appended. The buffer is sized from the image height
 * alone.
 *
 * Image decoding is outside the model: the loader is given the decoded
 * image, or none when decoding failed. The OpenGL texture id is a parameter
 * and the upload is returned as a value.
 */
module TextureLoading {
  import opened Common

  /** `BYTES_PER_PIXEL_RGBA` and `BYTES_PER_PIXEL_RGB`. */
  const BytesPerPixelRgba: int := 4
  const BytesPerPixelRgb: int := 3

  /** The alpha byte appended to three-byte pixels. */
  const RgbAlpha: bv8 := 1

  /** The alpha byte of a fully opaque pixel. */
  const OpaqueAlpha: bv8 := 255

  /** A decoded image: its size, the bytes per pixel of its raster and the raster's bytes. */
  datatype Image = Image(width: int, height: int, bytesPerPixel: int, data: seq<bv8>)

  /** An image whose raster holds exactly width · height pixels of a supported format. */
  predicate WellFormed(img: Image) {
    && 1 <= img.width && 1 <= img.height
    && (img.bytesPerPixel == BytesPerPixelRgba || img.bytesPerPixel == BytesPerPixelRgb)
    && |img.data| == img.width * img.height * img.bytesPerPixel
  }

  /** `height * height * BYTES_PER_PIXEL_RGBA`, in `int` arithmetic. */
  function CapacityAsWritten(img: Image): int {
    Wrap32(Wrap32(img.height * img.height) * BytesPerPixelRgba)
  }

  /** `width * height * BYTES_PER_PIXEL_RGBA`, in `int` arithmetic. */
  function CapacityCorrected(img: Image): int {
    Wrap32(Wrap32(img.width * img.height) * BytesPerPixelRgba)
  }

  /** Byte t of the RGBA output: output pixel t / 4 is made from input pixel t / 4. */
  function OutputByte(data: seq<bv8>, bpp: int, alpha: bv8, t: nat): bv8
    requires bpp == BytesPerPixelRgba || bpp == BytesPerPixelRgb
    requires t < 4 * (|data| / bpp)
  {
    var g := t / 4;
    var j := t % 4;
    if bpp == BytesPerPixelRgba then data[4 * g + 3 - j]
    else if j < 3 then data[3 * g + 2 - j]
    else alpha
  }

  /** The RGBA bytes for all complete input pixels, in pixel order. */
  function Converted(data: seq<bv8>, bpp: int, alpha: bv8): (out: seq<bv8>)
    requires bpp == BytesPerPixelRgba || bpp == BytesPerPixelRgb
    ensures |out| == 4 * (|data| / bpp)
    ensures forall t | 0 <= t < |out| :: out[t] == OutputByte(data, bpp, alpha, t)
  {
    seq(4 * (|data| / bpp), t requires 0 <= t < 4 * (|data| / bpp) => OutputByte(data, bpp, alpha, t))
  }

  /** Output byte j of pixel g, written out. */
  lemma OutputByteOfPixel(data: seq<bv8>, bpp: int, alpha: bv8, g: nat, j: nat)
    requires bpp == BytesPerPixelRgba || bpp == BytesPerPixelRgb
    requires bpp * g + bpp <= |data| && j < 4
    ensures 4 * g + j < 4 * (|data| / bpp)
    ensures OutputByte(data, bpp, alpha, 4 * g + j)
         == if bpp == BytesPerPixelRgba then data[4 * g + 3 - j]
            else if j < 3 then data[3 * g + 2 - j]
            else alpha
  {
    assert g < |data| / bpp by {
      assert bpp * (g + 1) <= |data|;
      DivisionBound(|data|, bpp, g + 1);
    }
    assert (4 * g + j) / 4 == g && (4 * g + j) % 4 == j;
  }

  lemma DivisionBound(n: nat, d: int, k: nat)
    requires d == 3 || d == 4
    requires d * k <= n
    ensures k <= n / d
  {
  }

  /**
   * For four bytes per pixel the conversion only reverses each pixel, so
   * converting twice gives the raster back.
   */
  lemma FourByteConversionIsInvolution(data: seq<bv8>, alpha: bv8)
    requires |data| % 4 == 0
    ensures Converted(Converted(data, BytesPerPixelRgba, alpha), BytesPerPixelRgba, alpha) == data
  {
    var once := Converted(data, BytesPerPixelRgba, alpha);
    var twice := Converted(once, BytesPerPixelRgba, alpha);
    assert |once| == |data|;
    forall t | 0 <= t < |data|
      ensures twice[t] == data[t]
    {
      var g := t / 4;
      var j := t % 4;
      assert t == 4 * g + j;
      OutputByteOfPixel(once, BytesPerPixelRgba, alpha, g, j);
      OutputByteOfPixel(data, BytesPerPixelRgba, alpha, g, 3 - j);
    }
  }

  /**
   * For three bytes per pixel no colour byte is lost: two rasters of whole
   * pixels with the same output are the same raster.
   */
  lemma ThreeByteConversionInjective(d1: seq<bv8>, d2: seq<bv8>, alpha: bv8)
    requires |d1| % 3 == 0 && |d2| % 3 == 0
    requires Converted(d1, BytesPerPixelRgb, alpha) == Converted(d2, BytesPerPixelRgb, alpha)
    ensures d1 == d2
  {
    assert |d1| / 3 == |d2| / 3;
    forall t | 0 <= t < |d1|
      ensures d1[t] == d2[t]
    {
      var g := t / 3;
      var j := t % 3;
      assert t == 3 * g + j;
      OutputByteOfPixel(d1, BytesPerPixelRgb, alpha, g, 2 - j);
      OutputByteOfPixel(d2, BytesPerPixelRgb, alpha, g, 2 - j);
    }
  }

  /**
   * The bytes handed to OpenGL for `img` with a buffer of `capacity` bytes,
   * or the exception thrown: fewer than four bytes fail the debug reads of
   * the first four; an unknown format leaves the buffer null; a negative
   * capacity is refused; more output than capacity overflows; a trailing
   * partial pixel is read past the end of the raster.
   */
  function PixelBuffer(img: Image, capacity: int, alpha: bv8): Result<seq<bv8>> {
    var bpp := img.bytesPerPixel;
    if |img.data| < 4 then Err(IndexOutOfBounds)
    else if bpp != BytesPerPixelRgba && bpp != BytesPerPixelRgb then Err(NullPointer)
    else if capacity < 0 then Err(IllegalArgument)
    else if 4 * (|img.data| / bpp) > capacity then Err(BufferOverflow)
    else if |img.data| % bpp != 0 then Err(IndexOutOfBounds)
    else Ok(Converted(img.data, bpp, alpha))
  }

  lemma WrapKeepsMultipleOfFour(y: int)
    ensures Wrap32(y * 4) % 4 == 0
  {
    var x := y * 4;
    var q := (x + 0x8000_0000) / 0x1_0000_0000;
    assert (x + 0x8000_0000) % 0x1_0000_0000 == x + 0x8000_0000 - q * 0x1_0000_0000;
    assert Wrap32(x) == 4 * (y - q * 0x4000_0000);
  }

  /** A raster of exactly n pixels has n complete pixels and no partial one. */
  lemma WholePixels(n: nat, bpp: int)
    requires bpp == BytesPerPixelRgba || bpp == BytesPerPixelRgb
    ensures (n * bpp) / bpp == n && (n * bpp) % bpp == 0
  {
  }

  /** Both sides of a product with a larger factor. */
  lemma ProductMonotone(a: int, b: int, c: int)
    requires 1 <= a <= b && 1 <= c
    ensures a * c <= b * c
    ensures a < b ==> a * c < b * c
  {
  }

  /** When the products fit in an `int`, the two wrapped multiplications are exact. */
  lemma CapacityIsExact(x: int)
    requires 0 <= x && IsJavaInt(x * BytesPerPixelRgba)
    ensures Wrap32(Wrap32(x) * BytesPerPixelRgba) == x * BytesPerPixelRgba
  {
  }

  /** A well-formed image holds `width * height` whole pixels. */
  lemma PixelCount(img: Image)
    requires WellFormed(img)
    ensures |img.data| / img.bytesPerPixel == img.width * img.height
    ensures |img.data| % img.bytesPerPixel == 0
  {
    WholePixels(img.width * img.height, img.bytesPerPixel);
  }

  /**
   * With the capacity sized from the height alone, a well-formed image wider
   * than it is tall overflows the buffer.
   */
  lemma WideImageOverflows(img: Image, alpha: bv8)
    requires WellFormed(img) && img.width > img.height
    requires IsJavaInt(4 * (img.width * img.height))
    ensures PixelBuffer(img, CapacityAsWritten(img), alpha) == Err(BufferOverflow)
  {
    var w, h := img.width, img.height;
    PixelCount(img);
    ProductMonotone(h, w, h);
    CapacityIsExact(h * h);
  }

  lemma TallImageLoads(img: Image, alpha: bv8)
    requires WellFormed(img) && img.height >= img.width
    requires IsJavaInt(4 * (img.height * img.height)) && |img.data| >= 4
    ensures PixelBuffer(img, CapacityAsWritten(img), alpha) == Ok(Converted(img.data, img.bytesPerPixel, alpha))
  {
    var w, h := img.width, img.height;
    PixelCount(img);
    ProductMonotone(w, h, h);
    CapacityIsExact(h * h);
  }

  lemma CorrectedCapacityFits(img: Image, alpha: bv8)
    requires WellFormed(img) && IsJavaInt(4 * (img.width * img.height)) && |img.data| >= 4
    ensures PixelBuffer(img, CapacityCorrected(img), alpha) == Ok(Converted(img.data, img.bytesPerPixel, alpha))
  {
    PixelCount(img);
    CapacityIsExact(img.width * img.height);
  }

  /**
   * A three-byte pixel gets alpha byte 1 instead of 255. The loader enables
   * GL_BLEND (src/loader/TextureLoader.java:155) but sets no blend function
   * (the call at :156 is commented out), so under OpenGL's default function
   * the alpha byte does not change what is drawn.
   */
  lemma RgbPixelsNearlyTransparent(data: seq<bv8>, g: nat)
    requires 3 * g + 3 <= |data|
    ensures OutputByte(data, BytesPerPixelRgb, RgbAlpha, 4 * g + 3) == 1
  {
    OutputByteOfPixel(data, BytesPerPixelRgb, RgbAlpha, g, 3);
  }

  /** With alpha 255 every three-byte pixel is opaque, and its colour bytes are kept. */
  lemma RgbPixelsOpaqueWhenCorrected(data: seq<bv8>, g: nat)
    requires 3 * g + 3 <= |data|
    ensures OutputByte(data, BytesPerPixelRgb, OpaqueAlpha, 4 * g + 3) == 255
    ensures OutputByte(data, BytesPerPixelRgb, OpaqueAlpha, 4 * g) == data[3 * g + 2]
    ensures OutputByte(data, BytesPerPixelRgb, OpaqueAlpha, 4 * g + 1) == data[3 * g + 1]
    ensures OutputByte(data, BytesPerPixelRgb, OpaqueAlpha, 4 * g + 2) == data[3 * g]
  {
    OutputByteOfPixel(data, BytesPerPixelRgb, OpaqueAlpha, g, 0);
    OutputByteOfPixel(data, BytesPerPixelRgb, OpaqueAlpha, g, 1);
    OutputByteOfPixel(data, BytesPerPixelRgb, OpaqueAlpha, g, 2);
    OutputByteOfPixel(data, BytesPerPixelRgb, OpaqueAlpha, g, 3);
  }

  /** The four `put`s of pixel g, at buffer positions 4g to 4g + 3. */
  method PutPixel(data: seq<bv8>, bpp: int, alpha: bv8, buffer: array<bv8>, i: nat, position: nat, ghost g: nat)
    requires bpp == BytesPerPixelRgba || bpp == BytesPerPixelRgb
    requires i == bpp * g && position == 4 * g
    requires i + bpp <= |data| && position + 4 <= buffer.Length
    modifies buffer
    ensures forall t | 0 <= t < 4 * g :: buffer[t] == old(buffer[t])
    ensures forall t | 4 * g <= t < 4 * g + 4 :: t < 4 * (|data| / bpp) && buffer[t] == OutputByte(data, bpp, alpha, t)
  {
    if bpp == BytesPerPixelRgba {
      buffer[position] := data[i + 3];
      buffer[position + 1] := data[i + 2];
      buffer[position + 2] := data[i + 1];
      buffer[position + 3] := data[i];
    } else {
      buffer[position] := data[i + 2];
      buffer[position + 1] := data[i + 1];
      buffer[position + 2] := data[i];
      buffer[position + 3] := alpha;
    }
    OutputByteOfPixel(data, bpp, alpha, g, 0);
    OutputByteOfPixel(data, bpp, alpha, g, 1);
    OutputByteOfPixel(data, bpp, alpha, g, 2);
    OutputByteOfPixel(data, bpp, alpha, g, 3);
  }

  /**
   * The copy loops of `loadTexture`: one pixel per iteration, four `put`s
   * into `buffer` from `position` on. A pixel read past the end of the
   * raster throws before it is put; a `put` into a full buffer overflows.
   */
  method FillBuffer(data: seq<bv8>, bpp: int, alpha: bv8, buffer: array<bv8>) returns (position: nat, error: Option<JavaError>)
    requires bpp == BytesPerPixelRgba || bpp == BytesPerPixelRgb
    requires buffer.Length % 4 == 0
    modifies buffer
    ensures error.None? <==> 4 * (|data| / bpp) <= buffer.Length && |data| % bpp == 0
    ensures error.Some? ==>
              error.value == if 4 * (|data| / bpp) > buffer.Length then BufferOverflow else IndexOutOfBounds
    ensures error.None? ==> position == 4 * (|data| / bpp) && buffer[..position] == Converted(data, bpp, alpha)
  {
    var i := 0;
    position := 0;
    ghost var g: nat := 0;
    while i < |data|
      invariant i == bpp * g && i <= |data| && position == 4 * g && position <= buffer.Length
      invariant forall t | 0 <= t < position :: t < 4 * (|data| / bpp) && buffer[t] == OutputByte(data, bpp, alpha, t)
    {
      if i + bpp - 1 >= |data| {
        assert |data| / bpp == g && |data| % bpp != 0;
        return position, Some(IndexOutOfBounds);
      }
      if position == buffer.Length {
        DivisionBound(|data|, bpp, g + 1);
        return position, Some(BufferOverflow);
      }
      PutPixel(data, bpp, alpha, buffer, i, position, g);
      position := position + 4;
      i := i + bpp;
      g := g + 1;
    }
    assert |data| / bpp == g && |data| % bpp == 0;
    error := None;
  }

  /** What `glTexImage2D` is given: texture id, size and the flipped buffer's bytes. */
  datatype TextureUpload = TextureUpload(id: int, width: int, height: int, pixels: seq<bv8>)

  class TextureLoader {
    /** The decoded image, or none when decoding failed. */
    const image: Option<Image>

    constructor (image: Option<Image>)
      ensures this.image == image
    {
      this.image := image;
    }

    /**
     * `loadTexture`: 0 without an image; otherwise the converted bytes are
     * uploaded under the texture id OpenGL generates (`generatedId`), which
     * is returned.
     */
    method LoadTexture(generatedId: int) returns (r: Result<int>, upload: Option<TextureUpload>)
      ensures image.None? ==> r == Ok(0) && upload == None
      ensures image.Some? ==>
                match PixelBuffer(image.value, CapacityAsWritten(image.value), RgbAlpha)
                case Err(e) => r == Err(e) && upload == None
                case Ok(pixels) =>
                  r == Ok(generatedId)
                  && upload == Some(TextureUpload(generatedId, image.value.width, image.value.height, pixels))
    {
      if image.None? {
        return Ok(0), None;
      }
      var img := image.value;
      var bytesPerPixel := img.bytesPerPixel;
      if |img.data| < 4 {
        // the debug output reads the first four bytes
        return Err(IndexOutOfBounds), None;
      }
      if bytesPerPixel != BytesPerPixelRgba && bytesPerPixel != BytesPerPixelRgb {
        // no buffer is created, and flipping it throws
        return Err(NullPointer), None;
      }
      var capacity := Wrap32(Wrap32(img.height * img.height) * BytesPerPixelRgba);
      if capacity < 0 {
        return Err(IllegalArgument), None;
      }
      WrapKeepsMultipleOfFour(Wrap32(img.height * img.height));
      var buffer := new bv8[capacity](_ => 0);
      var position, error := FillBuffer(img.data, bytesPerPixel, RgbAlpha, buffer);
      if error.Some? {
        return Err(error.value), None;
      }
      // after `flip` the buffer holds the bytes put so far
      var pixels := buffer[..position];
      r := Ok(generatedId);
      upload := Some(TextureUpload(generatedId, img.width, img.height, pixels));
    }
  }
}
