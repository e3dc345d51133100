/** Integer and real rectangles (`OfxRectI`, `OfxRectD`) and the integer
    rectangle arithmetic of src/main.rs. A rectangle covers the pixels
    (x, y) with x1 <= x < x2 and y1 <= y < y2. */
module Geometry {
  import opened Machine

  datatype RectI = RectI(x1: Int32, y1: Int32, x2: Int32, y2: Int32) {
    predicate Contains(x: int, y: int) {
      x1 <= x < x2 && y1 <= y < y2
    }
  }

  datatype RectD = RectD(x1: real, y1: real, x2: real, y2: real)

  /** `crop`: the rectangle covering exactly the pixels both cover, with
      each edge taken from the tighter of the two. */
  function Crop(a: RectI, b: RectI): (c: RectI)
    ensures forall x, y :: c.Contains(x, y) <==> a.Contains(x, y) && b.Contains(x, y)
    ensures c.x1 >= a.x1 && c.x1 >= b.x1 && c.y1 >= a.y1 && c.y1 >= b.y1
    ensures c.x2 <= a.x2 && c.x2 <= b.x2 && c.y2 <= a.y2 && c.y2 <= b.y2
    ensures c.x1 in {a.x1, b.x1} && c.y1 in {a.y1, b.y1}
    ensures c.x2 in {a.x2, b.x2} && c.y2 in {a.y2, b.y2}
  {
    RectI(Max(a.x1, b.x1), Max(a.y1, b.y1), Min(a.x2, b.x2), Min(a.y2, b.y2))
  }

  /** `width` of an `OfxRectI`: `(x2 - x1) as usize`, the subtraction
      wrapping in 32 bits and the cast sign-extending, so an inverted
      rectangle has a huge width. */
  function Width(r: RectI): (w: Usize)
    ensures 0 <= r.x2 - r.x1 <= I32_MAX ==> w == r.x2 - r.x1
    ensures r.x2 < r.x1 && r.x1 - r.x2 <= -I32_MIN ==> w >= USIZE_MODULUS + I32_MIN
  {
    UsizeOfInt32(WrapInt32(r.x2 - r.x1))
  }

  /** `height` of an `OfxRectI`, as `Width` for the y edges. */
  function Height(r: RectI): (h: Usize)
    ensures 0 <= r.y2 - r.y1 <= I32_MAX ==> h == r.y2 - r.y1
    ensures r.y2 < r.y1 && r.y1 - r.y2 <= -I32_MIN ==> h >= USIZE_MODULUS + I32_MIN
  {
    UsizeOfInt32(WrapInt32(r.y2 - r.y1))
  }
}
