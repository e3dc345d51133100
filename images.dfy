/** Images and clip image sources (src/main.rs): the stride arithmetic,
    the properties an image is created with, `Image::empty`, the offset
    arithmetic of `Image::crop`, and the lookup of a clip's image at a
    frame or a time. */
module Images {
  import opened Machine
  import opened Wrappers
  import opened Status
  import opened Names
  import opened Geometry
  import opened Handles
  import P = Properties

  /** An RGBA pixel of four `f32` channels, 16 bytes. */
  datatype Pixel = Pixel(r: real, g: real, b: real, a: real)

  const ZeroPixel: Pixel := Pixel(0.0, 0.0, 0.0, 0.0)

  /** `size_of::<Pixel>()`. */
  const PIXEL_SIZE: nat := 16

  /** A frame number, a `u32`. */
  type FrameNumber = x: int | 0 <= x <= U32_MAX

  /** An image: its bounds, its pixel buffer (rows of `stride` pixels),
      the row pitch in pixels, its property set, and the address of the
      first pixel of the buffer. */
  datatype Image = Image(bounds: RectI, pixels: seq<Pixel>, stride: Usize,
                         properties: ObjId, data: Addr)

  /** `get_image_stride`: the pixels per row. Without a row size it is the
      width; with one, as many whole pixels as fit in the row, but never
      fewer than the width. */
  function ImageStride(width: Usize, rowbytes: Option<Usize>): (s: Usize)
    ensures s >= width
    ensures rowbytes.None? ==> s == width
    ensures rowbytes.Some? && rowbytes.value >= PIXEL_SIZE * width ==>
      s * PIXEL_SIZE <= rowbytes.value < (s + 1) * PIXEL_SIZE
    ensures rowbytes.Some? && rowbytes.value < PIXEL_SIZE * width ==> s == width
  {
    match rowbytes
    case None => width
    case Some(b) => Max(b / PIXEL_SIZE, width)
  }

  /** The properties `Image::new` gives an image: type, depth, components,
      premultiplication, render scale, pixel aspect ratio, data pointer,
      bounds, region of definition, row size in bytes and field order. */
  function ImagePairs(bounds: RectI, stride: Usize, data: Addr): P.Pairs {
    [ (PropType, [P.Str(TypeImage)]),
      (ImageEffectPropPixelDepth, [P.Str(BitDepthFloat)]),
      (ImageEffectPropComponents, [P.Str(ImageComponentRGBA)]),
      (ImageEffectPropPreMultiplication, [P.Str(ImagePreMultiplied)]),
      (ImageEffectPropRenderScale, [P.Double(1.0), P.Double(1.0)]),
      (ImagePropPixelAspectRatio, [P.Double(1.0)]),
      (ImagePropData, [P.Pointer(data)]),
      (ImagePropBounds, P.OfRectI(bounds)),
      (ImagePropRegionOfDefinition, P.OfRectI(bounds)),
      (ImagePropRowBytes, [P.OfUsize(WrapUsize(stride * PIXEL_SIZE))]),
      (ImagePropField, [P.Str(ImageFieldNone)]) ]
  }

  /** The property set of a new image describes its buffer: the data
      pointer, the bounds (also its region of definition) and the row size
      of `stride` pixels. */
  lemma ImagePairsDescribe(bounds: RectI, stride: Usize, data: Addr)
    ensures var m := P.FromPairs(ImagePairs(bounds, stride, data));
      && ImagePropData in m && m[ImagePropData] == [P.Pointer(data)]
      && ImagePropBounds in m && m[ImagePropBounds] == P.OfRectI(bounds)
      && ImagePropRegionOfDefinition in m && m[ImagePropRegionOfDefinition] == P.OfRectI(bounds)
      && ImagePropRowBytes in m && m[ImagePropRowBytes] == [P.OfUsize(WrapUsize(stride * PIXEL_SIZE))]
      && PropType in m && m[PropType] == [P.Str(TypeImage)]
  {
    var init := ImagePairs(bounds, stride, data);
    P.FromPairsLast(init, 0);
    P.FromPairsLast(init, 6);
    P.FromPairsLast(init, 7);
    P.FromPairsLast(init, 8);
    P.FromPairsLast(init, 9);
  }

  /** `Image::empty`: a zeroed buffer of `stride * height` pixels, with the
      stride from `ImageStride`. The product wraps modulo 2^64, and
      `Vec::resize` panics with "capacity overflow" when the buffer would
      take more than `isize::MAX` bytes. The buffer's address and the
      image's property set are supplied by the allocator. */
  function EmptyImage(bounds: RectI, rowbytes: Option<Usize>, properties: ObjId, data: Addr): (r: Result<Image, Failure>)
    ensures var n := WrapUsize(ImageStride(Width(bounds), rowbytes) * Height(bounds));
      r.Err? <==> PIXEL_SIZE * n > ISIZE_MAX
    ensures r.Err? ==> r.error == Panic("capacity overflow")
    ensures r.Ok? ==> var img := r.value;
      && img.bounds == bounds && img.properties == properties && img.data == data
      && img.stride == ImageStride(Width(bounds), rowbytes) && img.stride >= Width(bounds)
      && |img.pixels| == WrapUsize(img.stride * Height(bounds))
      && (forall i :: 0 <= i < |img.pixels| ==> img.pixels[i] == ZeroPixel)
    ensures r.Ok? && r.value.stride * Height(bounds) < USIZE_MODULUS ==>
      |r.value.pixels| == r.value.stride * Height(bounds) >= Width(bounds) * Height(bounds)
  {
    var stride := ImageStride(Width(bounds), rowbytes);
    var n := BufferLength(Width(bounds), stride, Height(bounds));
    if PIXEL_SIZE * n > ISIZE_MAX then Err(Panic("capacity overflow"))
    else Ok(Image(bounds, ZeroBuffer(n), stride, properties, data))
  }

  /** `stride * height` in `usize`: wrapped modulo 2^64, and the exact
      product, at least `width * height`, when it fits. */
  function BufferLength(width: nat, stride: Usize, height: Usize): (n: Usize)
    requires width <= stride
    ensures n == WrapUsize(stride * height)
    ensures stride * height < USIZE_MODULUS ==> n == stride * height >= width * height
  {
    MulMonotone(width, stride, height);
    WrapUsize(stride * height)
  }

  /** `n` zero pixels. */
  function ZeroBuffer(n: nat): (pixels: seq<Pixel>)
    ensures |pixels| == n
    ensures forall i :: 0 <= i < |pixels| ==> pixels[i] == ZeroPixel
  {
    seq(n, _ => ZeroPixel)
  }

  /** An inverted rectangle has width and height 2^64 - 1, whose product
      wraps to 1: the buffer holds a single pixel. */
  lemma InvertedEmptyImage(properties: ObjId, data: Addr)
    ensures var r := EmptyImage(RectI(0, 0, -1, -1), None, properties, data);
      r.Ok? && |r.value.pixels| == 1
  {
    var b := RectI(0, 0, -1, -1);
    assert Width(b) == USIZE_MODULUS - 1 && Height(b) == USIZE_MODULUS - 1;
    assert (USIZE_MODULUS - 1) * (USIZE_MODULUS - 1) == (USIZE_MODULUS - 2) * USIZE_MODULUS + 1;
    ModMultiple(1, USIZE_MODULUS - 2);
  }

  /** A 2^31 - 1 square needs about 2^66 bytes: `resize` panics. */
  lemma HugeEmptyImage(properties: ObjId, data: Addr)
    ensures EmptyImage(RectI(0, 0, I32_MAX, I32_MAX), None, properties, data) == Err(Panic("capacity overflow"))
  {
    var b := RectI(0, 0, I32_MAX, I32_MAX);
    assert Width(b) == I32_MAX && Height(b) == I32_MAX;
    assert I32_MAX * I32_MAX < USIZE_MODULUS;
  }

  lemma MulMonotone(a: nat, b: nat, c: nat)
    requires a <= b
    ensures a * c <= b * c
  {
  }

  // ---------------------------------------------------------------------
  // Image::crop
  // ---------------------------------------------------------------------

  /** The requested bounds clamped to the image's own bounds. */
  function ClampedBounds(img: Image, bounds: RectI): (c: RectI)
    ensures c == Crop(bounds, img.bounds)
    ensures forall x, y :: c.Contains(x, y) <==> bounds.Contains(x, y) && img.bounds.Contains(x, y)
  {
    RectI(Max(bounds.x1, img.bounds.x1), Max(bounds.y1, img.bounds.y1),
          Min(bounds.x2, img.bounds.x2), Min(bounds.y2, img.bounds.y2))
  }

  /** `usize as isize` on a 64-bit target. */
  function IsizeOfUsize(u: Usize): (i: int)
    ensures u < USIZE_MODULUS / 2 ==> i == u
    ensures u >= USIZE_MODULUS / 2 ==> i < 0
  {
    if u < USIZE_MODULUS / 2 then u else u - USIZE_MODULUS
  }

  /** The offset, in pixels, of the first pixel of a row-major buffer
      with rows of `pitch` pixels, at (x, y) of an image with `bounds`. */
  function PixelIndex(bounds: RectI, pitch: int, x: int, y: int): int {
    pitch * (y - bounds.y1) + (x - bounds.x1)
  }

  /** The pixel offset `Image::crop` computes, as written: the rows are
      counted in units of the image's width. The 32-bit subtractions wrap. */
  function CropOffsetAsWritten(img: Image, bounds: RectI): (offset: int)
    ensures var c := ClampedBounds(img, bounds);
      0 <= c.x1 - img.bounds.x1 <= I32_MAX && 0 <= c.y1 - img.bounds.y1 <= I32_MAX &&
      0 <= img.bounds.x2 - img.bounds.x1 <= I32_MAX ==>
      offset == PixelIndex(img.bounds, Width(img.bounds), c.x1, c.y1)
  {
    var c := ClampedBounds(img, bounds);
    IsizeOfUsize(Width(img.bounds)) * WrapInt32(c.y1 - img.bounds.y1) + WrapInt32(c.x1 - img.bounds.x1)
  }

  /** The pixel offset of the first pixel of the clamped bounds in the
      buffer, whose rows are `stride` pixels apart. */
  function CropOffset(img: Image, bounds: RectI): (offset: int)
    ensures var c := ClampedBounds(img, bounds);
      0 <= c.x1 - img.bounds.x1 <= I32_MAX && 0 <= c.y1 - img.bounds.y1 <= I32_MAX &&
      img.stride < USIZE_MODULUS / 2 ==>
      offset == PixelIndex(img.bounds, img.stride, c.x1, c.y1)
  {
    var c := ClampedBounds(img, bounds);
    IsizeOfUsize(img.stride) * WrapInt32(c.y1 - img.bounds.y1) + WrapInt32(c.x1 - img.bounds.x1)
  }

  /** The new data pointer: the buffer address moved by `offset` pixels. */
  function OffsetData(img: Image, offset: int): Addr {
    WrapUsize(img.data + PIXEL_SIZE * offset)
  }

  /** A plugin addresses pixel (x, y) of an image as the data pointer plus
      `(y - y1)` rows of row-bytes plus `(x - x1)` pixels. Cropping keeps
      the row size, so to show the same pixels the new data pointer must
      make every pixel of the cropped bounds land where it was: with the
      stride-based offset it does. */
  lemma CropKeepsPixelAddresses(img: Image, bounds: RectI, x: int, y: int)
    requires ClampedBounds(img, bounds).Contains(x, y)
    requires img.stride < USIZE_MODULUS / 2
    ensures var c := ClampedBounds(img, bounds);
      c.x1 - img.bounds.x1 <= I32_MAX && c.y1 - img.bounds.y1 <= I32_MAX ==>
      CropOffset(img, bounds) + PixelIndex(c, img.stride, x, y) == PixelIndex(img.bounds, img.stride, x, y)
  {
  }

  /** With a stride wider than the image, the offset as written points at
      the wrong pixel: an image with bounds (0,0)-(2,2) and rows of 4
      pixels, cropped to its second row, gets the first row's padding
      (offset 2) instead of the second row's first pixel (offset 4). */
  lemma CropOffsetAsWrittenMisses()
    ensures var img := Image(RectI(0, 0, 2, 2), seq(8, _ => ZeroPixel), 4, 1, 0x1000);
      var bounds := RectI(0, 1, 2, 2);
      && CropOffsetAsWritten(img, bounds) == 2
      && CropOffset(img, bounds) == 4
      && PixelIndex(img.bounds, img.stride, 0, 1) == 4
  {
    var img := Image(RectI(0, 0, 2, 2), seq(8, _ => ZeroPixel), 4, 1, 0x1000);
    var bounds := RectI(0, 1, 2, 2);
    assert ClampedBounds(img, bounds) == RectI(0, 1, 2, 2);
    assert Width(img.bounds) == 2;
  }

  /** The two offsets agree when rows are exactly as wide as the image. */
  lemma CropOffsetsAgreeWithoutPadding(img: Image, bounds: RectI)
    requires img.stride == Width(img.bounds)
    ensures CropOffsetAsWritten(img, bounds) == CropOffset(img, bounds)
  {
  }

  /** `Image::crop`'s update of the image's property set `m`: the bounds
      are replaced by the clamped bounds, and slot 0 of the data pointer
      is set to the address of their first pixel. The offset is the
      stride-based one (`CropOffset`). Every other key, and every other
      slot of the data pointer, is kept. */
  function CropProperties(img: Image, bounds: RectI, m: P.PropertyMap): (r: P.PropertyMap)
    ensures forall k :: k in r <==> k in m || k == ImagePropBounds || k == ImagePropData
    ensures forall k :: k in m && k != ImagePropBounds && k != ImagePropData ==> r[k] == m[k]
    ensures r[ImagePropBounds] == P.OfRectI(ClampedBounds(img, bounds))
    ensures P.Get(r, ImagePropData, 0) == Ok(P.Pointer(OffsetData(img, CropOffset(img, bounds))))
    ensures forall j :: 0 < j < |P.ValuesOf(m, ImagePropData)| ==>
      P.Get(r, ImagePropData, j) == P.Get(m, ImagePropData, j)
  {
    assert ImagePropBounds != ImagePropData by {
      assert |ImagePropBounds| != |ImagePropData|;
    }
    var withBounds := m[ImagePropBounds := P.OfRectI(ClampedBounds(img, bounds))];
    P.Updated(withBounds, ImagePropData, 0, P.Pointer(OffsetData(img, CropOffset(img, bounds))))
  }

  /** After the crop a plugin reads pixel (x, y) of the cropped bounds at
      the new data pointer plus `(y - y1)` rows and `(x - x1)` pixels, with
      64-bit wrapping address arithmetic; that is the address the pixel
      had before the crop. */
  lemma CropKeepsPixelPointers(img: Image, bounds: RectI, m: P.PropertyMap, x: int, y: int)
    requires ClampedBounds(img, bounds).Contains(x, y)
    requires img.stride < USIZE_MODULUS / 2
    requires var c := ClampedBounds(img, bounds);
      c.x1 - img.bounds.x1 <= I32_MAX && c.y1 - img.bounds.y1 <= I32_MAX
    ensures var c := ClampedBounds(img, bounds);
      var r := CropProperties(img, bounds, m);
      && r[ImagePropBounds] == P.OfRectI(c)
      && P.Get(r, ImagePropData, 0).Ok? && P.Get(r, ImagePropData, 0).value.Pointer?
      && WrapUsize(P.Get(r, ImagePropData, 0).value.addr + PIXEL_SIZE * PixelIndex(c, img.stride, x, y))
         == WrapUsize(img.data + PIXEL_SIZE * PixelIndex(img.bounds, img.stride, x, y))
  {
    var c := ClampedBounds(img, bounds);
    var off := CropOffset(img, bounds);
    var inCrop := PixelIndex(c, img.stride, x, y);
    var before := PixelIndex(img.bounds, img.stride, x, y);
    CropKeepsPixelAddresses(img, bounds, x, y);
    assert off + inCrop == before;
    var r := CropProperties(img, bounds, m);
    assert P.Get(r, ImagePropData, 0).value.addr == WrapUsize(img.data + PIXEL_SIZE * off);
    WrapAddLeft(img.data + PIXEL_SIZE * off, PIXEL_SIZE * inCrop);
  }

  // ---------------------------------------------------------------------
  // ClipImages
  // ---------------------------------------------------------------------

  datatype ClipImages =
    | NoImage
    | Static(image: Image)
    | Sequence(frames: map<FrameNumber, Image>)

  /** `image_at_frame`: a static image is there at every frame; a sequence
      has the images of its frames. */
  function ImageAtFrame(ci: ClipImages, frame: FrameNumber): (r: Option<Image>)
    ensures ci.NoImage? ==> r.None?
    ensures ci.Static? ==> r == Some(ci.image)
    ensures ci.Sequence? ==> (r.Some? <==> frame in ci.frames)
    ensures ci.Sequence? && r.Some? ==> r.value == ci.frames[frame]
  {
    match ci
    case Static(image) => Some(image)
    case Sequence(m) => if frame in m then Some(m[frame]) else None
    case NoImage => None
  }

  /** `time as u32` for a non-negative time: rounds toward zero and
      saturates at the largest frame number. */
  function FrameOfTime(t: real): (f: FrameNumber)
    requires t >= 0.0
    ensures t < U32_MAX as real ==> f as real <= t < (f + 1) as real
    ensures t >= U32_MAX as real ==> f == U32_MAX
  {
    Min(t.Floor, U32_MAX)
  }

  /** `image_at_time`: negative times have no image; others use the
      frame of the time. */
  function ImageAtTime(ci: ClipImages, t: real): (r: Option<Image>)
    ensures t < 0.0 || ci.NoImage? ==> r.None?
    ensures t >= 0.0 && ci.Static? ==> r == Some(ci.image)
    ensures t >= 0.0 && ci.Sequence? ==> (r.Some? <==> FrameOfTime(t) in ci.frames)
    ensures r.Some? && ci.Sequence? ==> r.value == ci.frames[FrameOfTime(t)]
  {
    if t >= 0.0 then ImageAtFrame(ci, FrameOfTime(t)) else None
  }
}
