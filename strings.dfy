/** `OfxStr` (src/strings.rs): a borrowed byte string that is UTF-8 and
    ends in exactly the terminator the C side expects, plus the owned
    `CString` it converts to. Constructors check the invariant and panic
    when it fails; a panic is modelled as an `Err` carrying its reason. */
module OfxStrings {
  import opened Machine
  import opened Wrappers

  // ---------------------------------------------------------------------
  // UTF-8 well-formedness (the check `str::from_utf8` / `CStr::to_str` do)
  // ---------------------------------------------------------------------

  predicate Cont(b: Byte) { 0x80 <= b as int <= 0xBF }

  predicate Between(b: Byte, lo: int, hi: int) { lo <= b as int <= hi }

  /** Length of the well-formed UTF-8 sequence that starts `s` (the table of
      well-formed byte sequences of the Unicode standard), or 0 when `s`
      does not start with one. */
  function LeadLength(s: Bytes): (n: nat)
    ensures n <= 4 && n <= |s|
    ensures n > 0 ==> forall i :: 1 <= i < n ==> Cont(s[i])
  {
    if |s| == 0 then 0
    else
      var b0 := s[0] as int;
      if b0 <= 0x7F then 1
      else if 0xC2 <= b0 <= 0xDF then
        (if |s| >= 2 && Cont(s[1]) then 2 else 0)
      else if b0 == 0xE0 then
        (if |s| >= 3 && Between(s[1], 0xA0, 0xBF) && Cont(s[2]) then 3 else 0)
      else if (0xE1 <= b0 <= 0xEC) || (0xEE <= b0 <= 0xEF) then
        (if |s| >= 3 && Cont(s[1]) && Cont(s[2]) then 3 else 0)
      else if b0 == 0xED then
        (if |s| >= 3 && Between(s[1], 0x80, 0x9F) && Cont(s[2]) then 3 else 0)
      else if b0 == 0xF0 then
        (if |s| >= 4 && Between(s[1], 0x90, 0xBF) && Cont(s[2]) && Cont(s[3]) then 4 else 0)
      else if 0xF1 <= b0 <= 0xF3 then
        (if |s| >= 4 && Cont(s[1]) && Cont(s[2]) && Cont(s[3]) then 4 else 0)
      else if b0 == 0xF4 then
        (if |s| >= 4 && Between(s[1], 0x80, 0x8F) && Cont(s[2]) && Cont(s[3]) then 4 else 0)
      else 0
  }

  /** `s` is a concatenation of well-formed UTF-8 sequences. */
  predicate ValidUtf8(s: Bytes)
    decreases |s|
  {
    |s| == 0 || (LeadLength(s) > 0 && ValidUtf8(s[LeadLength(s)..]))
  }

  /** The first sequence is decided by its own bytes: appending never
      changes it. */
  lemma LeadLengthOfAppend(s: Bytes, t: Bytes)
    requires LeadLength(s) > 0
    ensures LeadLength(s + t) == LeadLength(s)
  {
    var n := LeadLength(s);
    assert forall i :: 0 <= i < n ==> (s + t)[i] == s[i];
  }

  lemma {:induction false} ValidUtf8Append(a: Bytes, b: Bytes)
    requires ValidUtf8(a) && ValidUtf8(b)
    ensures ValidUtf8(a + b)
    decreases |a|
  {
    if |a| > 0 {
      var n := LeadLength(a);
      LeadLengthOfAppend(a, b);
      assert (a + b)[n..] == a[n..] + b;
      ValidUtf8Append(a[n..], b);
    } else {
      assert a + b == b;
    }
  }

  /** Removing a final NUL keeps a string valid: NUL is a sequence of its
      own and never a continuation byte, so no sequence straddles it. */
  lemma {:induction false} ValidUtf8DropNul(a: Bytes)
    requires ValidUtf8(a + [NUL])
    ensures ValidUtf8(a)
    decreases |a|
  {
    if |a| > 0 {
      var s := a + [NUL];
      var n := LeadLength(s);
      assert !Cont(s[|a|]);
      assert n <= |a|;
      assert s[..n] == a[..n];
      assert LeadLength(a) == n by {
        assert forall i :: 0 <= i < n ==> s[i] == a[i];
      }
      assert s[n..] == a[n..] + [NUL];
      ValidUtf8DropNul(a[n..]);
    }
  }

  /** Every byte is below 0x80. */
  predicate Ascii(s: Bytes) {
    forall i :: 0 <= i < |s| ==> s[i] as int < 0x80
  }

  /** ASCII text is UTF-8: each byte is a sequence of its own. */
  lemma {:induction false} AsciiIsUtf8(s: Bytes)
    requires Ascii(s)
    ensures ValidUtf8(s)
    decreases |s|
  {
    if |s| > 0 {
      assert LeadLength(s) == 1;
      assert Ascii(s[1..]) by {
        forall i | 0 <= i < |s| - 1 ensures s[1..][i] as int < 0x80 {
          assert s[1..][i] == s[i + 1];
        }
      }
      AsciiIsUtf8(s[1..]);
    }
  }

  /** The panics of the constructors: `bytes[bytes.len() - 1]` on an empty
      string, a missing terminator, or content that is not UTF-8. */
  datatype StrPanic = IndexOutOfBounds | NotNullTerminated | NotUtf8

  // ---------------------------------------------------------------------
  // CString: owned bytes that carry their terminator
  // ---------------------------------------------------------------------

  /** An owned C string, as the bytes it holds including the terminator. */
  datatype CString = CString(withNul: Bytes) {
    /** The last byte is the terminator. Every CString the host builds
        satisfies this. */
    predicate Terminated() {
      |withNul| > 0 && withNul[|withNul| - 1] == NUL
    }

    /** The invariant of the checked constructor: in addition, no NUL
        before the terminator. `to_cstring` copies without this check. */
    predicate WellFormed() {
      Terminated() && NUL !in withNul[..|withNul| - 1]
    }

    /** The content before the terminator (`CString::as_bytes`). */
    function Content(): Bytes
      requires Terminated()
    {
      withNul[..|withNul| - 1]
    }
  }

  /** The C strings that can occur as values: terminated ones. */
  type TerminatedCString = c: CString | c.Terminated() witness CString([NUL])

  /** `CString::new("")`. */
  const EmptyCString: TerminatedCString := CString([NUL])

  datatype NulError = NulError

  /** `CString::new`: fails when the content holds a NUL. */
  function NewCString(s: Bytes): (r: Result<TerminatedCString, NulError>)
    ensures r.Ok? <==> NUL !in s
    ensures r.Ok? ==> r.value.WellFormed() && r.value.Content() == s
  {
    if NUL in s then Err(NulError)
    else
      var c: TerminatedCString := CString(s + [NUL]);
      Ok(c)
  }

  // ---------------------------------------------------------------------
  // OfxStr
  // ---------------------------------------------------------------------

  /** Equality of OfxStr values is equality of their byte sequences. */
  datatype OfxStr = OfxStr(bytes: Bytes) {

    /** The invariant every constructor establishes: non-empty, the last
        byte is NUL, and the bytes before it are UTF-8. */
    predicate WellFormed() {
      |bytes| > 0 && bytes[|bytes| - 1] == NUL && ValidUtf8(bytes[..|bytes| - 1])
    }

    /** `as_str`: the bytes without the final terminator. */
    function AsStr(): (s: Bytes)
      requires WellFormed()
      ensures s + [NUL] == bytes
      ensures ValidUtf8(s)
    {
      bytes[..|bytes| - 1]
    }

    /** `to_cstring`: a copy made without any check, so it holds exactly
        the same bytes, terminator included. */
    function ToCString(): (c: TerminatedCString)
      requires WellFormed()
      ensures c.withNul == bytes && c.Content() == AsStr()
    {
      CString(bytes)
    }
  }

  /** `from_str`: the argument is a Rust `&str`, hence UTF-8; it must end
      in NUL. An empty string fails on the index expression. */
  function FromStr(s: Bytes): (r: Result<OfxStr, StrPanic>)
    requires ValidUtf8(s)
    ensures r.Ok? <==> |s| > 0 && s[|s| - 1] == NUL
    ensures r.Ok? ==> r.value.bytes == s && r.value.WellFormed()
    ensures |s| == 0 ==> r == Err(IndexOutOfBounds)
    ensures |s| > 0 && s[|s| - 1] != NUL ==> r == Err(NotNullTerminated)
  {
    if |s| == 0 then Err(IndexOutOfBounds)
    else if s[|s| - 1] != NUL then Err(NotNullTerminated)
    else
      assert s == s[..|s| - 1] + [NUL];
      ValidUtf8DropNul(s[..|s| - 1]);
      Ok(OfxStr(s))
  }

  /** Position of the first NUL (what `strlen` finds). */
  function NulIndex(mem: Bytes): (k: nat)
    requires NUL in mem
    ensures k < |mem| && mem[k] == NUL && NUL !in mem[..k]
  {
    if mem[0] == NUL then 0
    else
      assert NUL in mem[1..] by {
        var j :| 0 <= j < |mem| && mem[j] == NUL;
        assert mem[1..][j - 1] == NUL;
      }
      var k := 1 + NulIndex(mem[1..]);
      assert mem[..k] == [mem[0]] + mem[1..][..k - 1];
      k
  }

  /** `from_ptr`: `mem` is the memory readable from the pointer, which the
      C caller must terminate. The result keeps the bytes up to and
      including the first NUL and panics when those before it are not
      UTF-8. */
  function FromPtr(mem: Bytes): (r: Result<OfxStr, StrPanic>)
    requires NUL in mem
    ensures r.Ok? <==> ValidUtf8(mem[..NulIndex(mem)])
    ensures r.Ok? ==> r.value.bytes == mem[..NulIndex(mem) + 1] && r.value.WellFormed()
    ensures r.Ok? ==> NUL !in r.value.AsStr()
    ensures r.Err? ==> r.error == NotUtf8
  {
    var k := NulIndex(mem);
    if ValidUtf8(mem[..k]) then
      assert mem[..k + 1][..k] == mem[..k];
      Ok(OfxStr(mem[..k + 1]))
    else Err(NotUtf8)
  }

  /** `from_cstring`: goes through the C pointer, so it reads up to the
      first NUL of the CString's bytes. */
  function FromCString(c: TerminatedCString): (r: Result<OfxStr, StrPanic>)
  {
    FromPtr(c.withNul)
  }

  /** Converting to a CString and back gives the same OfxStr exactly when
      the string has no NUL before its terminator; otherwise the way back
      stops at the first NUL. */
  lemma ToCStringRoundTrip(o: OfxStr)
    requires o.WellFormed()
    ensures FromCString(o.ToCString()) == Ok(o) <==> NUL !in o.AsStr()
  {
    var b := o.bytes;
    var r := FromPtr(b);
    NulIndexOfTerminated(b);
    if NUL !in o.AsStr() {
      assert b[..|b| - 1 + 1] == b;
      assert r == Ok(o);
    } else {
      assert r.Err? || |r.value.bytes| < |b|;
    }
  }

  /** In a terminated string the first NUL is the terminator exactly when
      no NUL comes before it. */
  lemma NulIndexOfTerminated(b: Bytes)
    requires |b| > 0 && b[|b| - 1] == NUL
    ensures NulIndex(b) == |b| - 1 <==> NUL !in b[..|b| - 1]
    ensures NulIndex(b) <= |b| - 1
  {
    var k := NulIndex(b);
    if NUL in b[..|b| - 1] {
      var j :| 0 <= j < |b| - 1 && b[..|b| - 1][j] == NUL;
      assert b[j] == NUL;
      assert forall i :: 0 <= i < k ==> b[..k][i] == b[i];
      assert k <= j;
    } else {
      assert forall i :: 0 <= i < |b| - 1 ==> b[..|b| - 1][i] == b[i];
    }
  }

  /** A CString produced by the safe constructor converts to the OfxStr of
      its bytes exactly when its content is UTF-8. */
  lemma FromCStringOfNew(s: Bytes)
    requires NUL !in s
    ensures NewCString(s).Ok?
    ensures FromCString(NewCString(s).value).Ok? <==> ValidUtf8(s)
    ensures ValidUtf8(s) ==> FromCString(NewCString(s).value).value.AsStr() == s
  {
    var b := s + [NUL];
    assert b[..|s|] == s;
    NulIndexOfTerminated(b);
    assert NulIndex(b) == |s|;
    assert b[..|s| + 1] == b;
    assert NewCString(s).value.withNul == b;
  }

  /** The first unit test of src/strings.rs, restated: "test\0" converts
      to an OfxStr whose text is "test". */
  lemma FromStrTest()
    ensures FromStr("test\0").Ok? && FromStr("test\0").value.AsStr() == "test"
  {
    var s: Bytes := "test\0";
    assert ValidUtf8(s[5..]);
    assert s[4..][1..] == s[5..];
    assert s[3..][1..] == s[4..];
    assert s[2..][1..] == s[3..];
    assert s[1..][1..] == s[2..];
    assert s[0..][1..] == s[1..];
  }

  /** The second: "test" has no terminator. */
  lemma FromStrUnterminatedTest()
    ensures FromStr("test") == Err(NotNullTerminated)
  {
    var s: Bytes := "test";
    assert ValidUtf8(s[4..]);
    assert s[3..][1..] == s[4..];
    assert s[2..][1..] == s[3..];
    assert s[1..][1..] == s[2..];
    assert s[0..][1..] == s[1..];
  }

  /** The third: [0xC3, 0x28, 0] is not UTF-8, so `from_ptr` panics. */
  lemma FromPtrNotUtf8Test()
    ensures FromPtr([0xC3 as char, '(', NUL]) == Err(NotUtf8)
  {
    var m: Bytes := [0xC3 as char, '(', NUL];
    assert NulIndex(m) == 2 by {
      assert m[1..][1..][0] == NUL;
    }
    assert m[..2] == [0xC3 as char, '('];
  }
}
