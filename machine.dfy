/** Machine-level types shared by the whole model: bytes, the C `int`
    (a 32-bit two's-complement integer), Rust's `usize` (64 bits here),
    addresses, and the conversions between them that the host performs
    with `as` casts. Dafny integers are unbounded, so every wrap-around
    the host relies on is written out. */
module Machine {

  /** A byte. It is represented by a `char` below U+0100 so that the
      OFX names (all ASCII) can be written as string literals; the value
      of the byte is `c as int`. The terminator is '\0'. */
  type Byte = c: char | c as int < 0x100

  type Bytes = seq<Byte>

  const NUL: Byte := '\0'

  const I32_MIN: int := -0x8000_0000
  const I32_MAX: int := 0x7fff_ffff
  const U32_MAX: int := 0xffff_ffff
  const USIZE_MODULUS: int := 0x1_0000_0000_0000_0000
  /** `isize::MAX`, the largest allocation a `Vec` may request, in bytes. */
  const ISIZE_MAX: int := 0x7fff_ffff_ffff_ffff

  /** The C `int` / Rust `i32`. */
  type Int32 = x: int | I32_MIN <= x <= I32_MAX

  /** Rust `usize` on a 64-bit target. */
  type Usize = x: int | 0 <= x < USIZE_MODULUS

  /** A raw address (a `void *`). The host never dereferences the pointers
      it stores on behalf of plugins; it only hands them back. */
  type Addr = nat

  /** `i as usize` for an `i32`: sign extension followed by reinterpretation,
      so a negative value becomes a very large index. */
  function UsizeOfInt32(i: Int32): (u: Usize)
    ensures i >= 0 ==> u == i
    ensures i < 0 ==> u >= USIZE_MODULUS + I32_MIN
  {
    if i >= 0 then i else USIZE_MODULUS + i
  }

  /** `u as c_int` for a `usize`: keeps the low 32 bits, read as signed. */
  function Int32OfUsize(u: Usize): (i: Int32)
    ensures u <= I32_MAX ==> i == u
    ensures (i - u) % 0x1_0000_0000 == 0
  {
    var low := u % 0x1_0000_0000;
    if low <= I32_MAX then low else low - 0x1_0000_0000
  }

  /** Reduction modulo 2^64: the value a wrapping `usize` operation
      leaves in a release build. */
  function WrapUsize(x: int): (u: Usize)
    ensures 0 <= x < USIZE_MODULUS ==> u == x
    ensures (u - x) % USIZE_MODULUS == 0
  {
    x % USIZE_MODULUS
  }

  /** Wrapping `i32` arithmetic (a release build). */
  function WrapInt32(x: int): (i: Int32)
    ensures I32_MIN <= x <= I32_MAX ==> i == x
    ensures (i - x) % 0x1_0000_0000 == 0
  {
    var low := x % 0x1_0000_0000;
    if low <= I32_MAX then low else low - 0x1_0000_0000
  }

  function Max(a: int, b: int): int { if a >= b then a else b }
  function Min(a: int, b: int): int { if a <= b then a else b }

  /** Wrapping an intermediate sum does not change a wrapped total. */
  lemma WrapAddLeft(a: int, b: int)
    ensures WrapUsize(WrapUsize(a) + b) == WrapUsize(a + b)
  {
    var q := a / USIZE_MODULUS;
    assert a == q * USIZE_MODULUS + WrapUsize(a);
    assert a + b == q * USIZE_MODULUS + (WrapUsize(a) + b);
    ModMultiple(WrapUsize(a) + b, q);
  }

  /** Adding a multiple of 2^64 does not change the wrapped value. */
  lemma {:induction false} ModMultiple(x: int, q: int)
    ensures (q * USIZE_MODULUS + x) % USIZE_MODULUS == x % USIZE_MODULUS
    decreases if q < 0 then -q else q
  {
    if q > 0 {
      ModMultiple(x, q - 1);
      assert q * USIZE_MODULUS + x == (q - 1) * USIZE_MODULUS + x + USIZE_MODULUS;
    } else if q < 0 {
      ModMultiple(x, q + 1);
      assert q * USIZE_MODULUS + x == (q + 1) * USIZE_MODULUS + x - USIZE_MODULUS;
    }
  }

  /** Sign-extending an `i32` to `usize` and truncating it back is the
      identity. */
  lemma Int32OfUsizeOfInt32(i: Int32)
    ensures Int32OfUsize(UsizeOfInt32(i)) == i
  {
    if i < 0 {
      var u := USIZE_MODULUS + i;
      assert u == 0x1_0000_0000 * 0x1_0000_0000 + i;
      assert u % 0x1_0000_0000 == 0x1_0000_0000 + i;
    }
  }
}
