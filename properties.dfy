/** The property store of src/main.rs: a `PropertySet` maps each key to a
    sequence of tagged values. The lookups (`get_all`, `get`, `get_rectd`,
    `get_type`) are functions of the map; `set` changes the set in place.
    An `OfxError` is modelled by its status alone. */
module Properties {
  import opened Machine
  import opened Status
  import opened Wrappers
  import opened OfxStrings
  import opened Geometry

  datatype PropertyValue =
    | Pointer(addr: Addr)
    | String(s: TerminatedCString)
    | Double(d: real)
    | Int(i: Int32)
    | Unset

  /** A key is the content of the name string, without its terminator. */
  type Key = Bytes

  type PropertyMap = map<Key, seq<PropertyValue>>

  // ---------------------------------------------------------------------
  // Conversions into property values (the `From` impls)
  // ---------------------------------------------------------------------

  /** The value of a string constant, or of an `OfxStr` whose content is `s`:
      the bytes followed by the terminator. */
  function Str(s: Bytes): (v: PropertyValue)
    ensures v.String? && v.s.Content() == s
  {
    var c: TerminatedCString := CString(s + [NUL]);
    assert c.Content() == s;
    String(c)
  }

  /** `From<&str>`: `CString::new(s).unwrap()`, which panics when `s`
      holds a NUL. */
  function OfRustStr(s: Bytes): (r: Result<PropertyValue, Failure>)
    ensures r.Ok? <==> NUL !in s
    ensures r.Ok? ==> r.value == Str(s) && r.value.s.WellFormed()
  {
    match NewCString(s)
    case Ok(c) => Ok(String(c))
    case Err(_) => Err(Panic("CString::new: interior NUL"))
  }

  /** `From<bool>`: OFX booleans are the integers 0 and 1. */
  function OfBool(b: bool): (v: PropertyValue)
    ensures v.Int? && (v.i == 1 <==> b) && (v.i == 0 <==> !b)
  {
    Int(if b then 1 else 0)
  }

  /** `From<usize>`: `i as c_int`, keeping the low 32 bits. */
  function OfUsize(u: Usize): (v: PropertyValue)
    ensures v.Int? && (u <= I32_MAX ==> v.i == u)
  {
    Int(Int32OfUsize(u))
  }

  /** `From<&OfxRectI>`: the four edges, as integers. */
  function OfRectI(r: RectI): seq<PropertyValue> {
    [Int(r.x1), Int(r.y1), Int(r.x2), Int(r.y2)]
  }

  // ---------------------------------------------------------------------
  // Conversions out of property values; each panics on another variant
  // ---------------------------------------------------------------------

  function AsInt(v: PropertyValue): (r: Result<Int32, Failure>)
    ensures r.Ok? <==> v.Int?
    ensures r.Ok? ==> r.value == v.i
  {
    if v.Int? then Ok(v.i) else Err(Panic("Expected Int value"))
  }

  /** `From<PropertyValue> for bool`: any non-zero integer is true. */
  function AsBool(v: PropertyValue): (r: Result<bool, Failure>)
    ensures r.Ok? <==> v.Int?
    ensures r.Ok? ==> (r.value <==> v.i != 0)
  {
    if v.Int? then Ok(v.i != 0) else Err(Panic("Expected Boolean value"))
  }

  function AsDouble(v: PropertyValue): (r: Result<real, Failure>)
    ensures r.Ok? <==> v.Double?
    ensures r.Ok? ==> r.value == v.d
  {
    if v.Double? then Ok(v.d) else Err(Panic("Expected Double value"))
  }

  function AsPointer(v: PropertyValue): (r: Result<Addr, Failure>)
    ensures r.Ok? <==> v.Pointer?
    ensures r.Ok? ==> r.value == v.addr
  {
    if v.Pointer? then Ok(v.addr) else Err(Panic("Expected Pointer value"))
  }

  function AsCString(v: PropertyValue): (r: Result<TerminatedCString, Failure>)
    ensures r.Ok? <==> v.String?
    ensures r.Ok? ==> r.value == v.s
  {
    if v.String? then Ok(v.s) else Err(Panic("Expected String value"))
  }

  /** `From<PropertyValue> for String`: `into_string().unwrap()`, which
      also panics when the content is not UTF-8. */
  function AsRustString(v: PropertyValue): (r: Result<Bytes, Failure>)
    ensures r.Ok? <==> v.String? && ValidUtf8(v.s.Content())
    ensures r.Ok? ==> r.value == v.s.Content()
  {
    if !v.String? then Err(Panic("Expected String value"))
    else if ValidUtf8(v.s.Content()) then Ok(v.s.Content())
    else Err(Panic("into_string: invalid UTF-8"))
  }

  /** Each conversion out undoes the matching conversion in. */
  lemma ConversionRoundTrips(b: bool, i: Int32, d: real, a: Addr, s: Bytes)
    ensures AsBool(OfBool(b)) == Ok(b)
    ensures AsInt(Int(i)) == Ok(i) && AsDouble(Double(d)) == Ok(d)
    ensures AsPointer(Pointer(a)) == Ok(a)
    ensures NUL !in s ==> AsCString(Str(s)).Ok? && AsCString(Str(s)).value.Content() == s
    ensures NUL !in s && ValidUtf8(s) ==> AsRustString(OfRustStr(s).value) == Ok(s)
  {
  }

  // ---------------------------------------------------------------------
  // Lookups
  // ---------------------------------------------------------------------

  /** `get_all`: the whole sequence, or ErrUnknown for a missing key. */
  function GetAll(m: PropertyMap, key: Key): (r: Result<seq<PropertyValue>, OfxStatus>)
    ensures r.Ok? <==> key in m
    ensures r.Ok? ==> r.value == m[key]
    ensures r.Err? ==> r.error == ErrUnknown
  {
    if key in m then Ok(m[key]) else Err(ErrUnknown)
  }

  /** `get`: one slot; ErrUnknown for a missing key and ErrBadIndex past
      the end. An `Unset` slot is found like any other. */
  function Get(m: PropertyMap, key: Key, index: nat): (r: Result<PropertyValue, OfxStatus>)
    ensures r == Err(ErrUnknown) <==> key !in m
    ensures r == Err(ErrBadIndex) <==> key in m && index >= |m[key]|
    ensures r.Ok? <==> key in m && index < |m[key]|
    ensures r.Ok? ==> r.value == m[key][index]
  {
    match GetAll(m, key)
    case Err(e) => Err(e)
    case Ok(values) => if index < |values| then Ok(values[index]) else Err(ErrBadIndex)
  }

  /** `get_type`: a missing key or index gives None; a present value is
      converted by `convert`, whose panic propagates. */
  function GetType<T>(m: PropertyMap, key: Key, index: nat,
                      convert: PropertyValue -> Result<T, Failure>): (r: Result<Option<T>, Failure>)
    ensures Get(m, key, index).Err? ==> r == Ok(None)
    ensures Get(m, key, index).Ok? ==>
      match convert(m[key][index])
      case Ok(x) => r == Ok(Some(x))
      case Err(f) => r == Err(f)
  {
    match Get(m, key, index)
    case Err(_) => Ok(None)
    case Ok(v) =>
      match convert(v)
      case Ok(x) => Ok(Some(x))
      case Err(f) => Err(f)
  }

  /** `get_rectd`: ErrBadIndex unless the key holds exactly four values,
      and a panic unless all four are doubles. */
  function GetRectD(m: PropertyMap, key: Key): (r: Result<RectD, Failure>)
    ensures key !in m ==> r == Err(StatusError(ErrUnknown))
    ensures key in m && |m[key]| != 4 ==> r == Err(StatusError(ErrBadIndex))
    ensures r.Ok? <==> key in m && |m[key]| == 4 && forall j :: 0 <= j < 4 ==> m[key][j].Double?
    ensures r.Ok? ==> r.value == RectD(m[key][0].d, m[key][1].d, m[key][2].d, m[key][3].d)
    ensures r.Err? && r.error.Panic? ==> key in m && |m[key]| == 4
  {
    match GetAll(m, key)
    case Err(e) => Err(StatusError(e))
    case Ok(values) =>
      if |values| != 4 then Err(StatusError(ErrBadIndex))
      else
        match (AsDouble(values[0]), AsDouble(values[1]), AsDouble(values[2]), AsDouble(values[3]))
        case (Ok(x1), Ok(y1), Ok(x2), Ok(y2)) => Ok(RectD(x1, y1, x2, y2))
        case _ => Err(Panic("Expected Double value"))
  }

  // ---------------------------------------------------------------------
  // Setting one slot
  // ---------------------------------------------------------------------

  /** The values of `key`, or the empty sequence that `or_insert(Default)`
      would create. */
  function ValuesOf(m: PropertyMap, key: Key): seq<PropertyValue> {
    if key in m then m[key] else []
  }

  /** The map after `set(key, index, v)`: the key's sequence is extended
      with Unset up to `index + 1` slots when it is shorter, then slot
      `index` is overwritten. */
  function Updated(m: PropertyMap, key: Key, index: nat, v: PropertyValue): (r: PropertyMap)
    ensures forall k :: k in r <==> k in m || k == key
    ensures forall k :: k in m && k != key ==> r[k] == m[k]
    ensures |r[key]| == Max(|ValuesOf(m, key)|, index + 1)
    ensures r[key][index] == v
    ensures forall j :: 0 <= j < |r[key]| && j != index ==>
      r[key][j] == if j < |ValuesOf(m, key)| then ValuesOf(m, key)[j] else Unset
  {
    var old_ := ValuesOf(m, key);
    var grown := if index < |old_| then old_ else old_ + seq(index + 1 - |old_|, _ => Unset);
    m[key := grown[index := v]]
  }

  /** Set then get at the same place gives back the value. */
  lemma GetAfterSet(m: PropertyMap, key: Key, index: nat, v: PropertyValue)
    ensures Get(Updated(m, key, index, v), key, index) == Ok(v)
  {
  }

  /** A set leaves every other key, and every other existing slot of the
      same key, reading as before; slots it adds read as Unset. */
  lemma GetAfterSetElsewhere(m: PropertyMap, key: Key, index: nat, v: PropertyValue,
                             k: Key, j: nat)
    requires k != key || j != index
    ensures k != key ==> Get(Updated(m, key, index, v), k, j) == Get(m, k, j)
    ensures k == key && key in m && j < |m[key]| ==>
      Get(Updated(m, key, index, v), k, j) == Get(m, k, j)
    ensures k == key && |ValuesOf(m, key)| <= j < index ==>
      Get(Updated(m, key, index, v), k, j) == Ok(Unset)
    ensures k == key && j > index && j >= |ValuesOf(m, key)| ==>
      Get(Updated(m, key, index, v), k, j) == Err(ErrBadIndex)
  {
  }

  /** Setting a slot twice keeps only the second value. */
  lemma SetTwice(m: PropertyMap, key: Key, index: nat, v: PropertyValue, w: PropertyValue)
    ensures Updated(Updated(m, key, index, v), key, index, w) == Updated(m, key, index, w)
  {
    var a := Updated(Updated(m, key, index, v), key, index, w);
    var b := Updated(m, key, index, w);
    assert a.Keys == b.Keys;
    assert a[key] == b[key];
  }

  // ---------------------------------------------------------------------
  // Construction from a list of pairs
  // ---------------------------------------------------------------------

  type Pairs = seq<(Key, seq<PropertyValue>)>

  /** The map `PropertySet::new` builds: pairs inserted first to last, so a
      later pair with the same key replaces an earlier one. */
  function FromPairs(init: Pairs): PropertyMap {
    if |init| == 0 then map[]
    else FromPairs(init[..|init| - 1])[init[|init| - 1].0 := init[|init| - 1].1]
  }

  /** The keys are exactly the keys of the pairs. */
  lemma {:induction false} FromPairsKeys(init: Pairs, k: Key)
    ensures k in FromPairs(init) <==> exists i :: 0 <= i < |init| && init[i].0 == k
  {
    if |init| > 0 {
      var front := init[..|init| - 1];
      FromPairsKeys(front, k);
      if k in FromPairs(front) {
        var i :| 0 <= i < |front| && front[i].0 == k;
        assert init[i].0 == k;
      }
      if exists i :: 0 <= i < |init| && init[i].0 == k {
        var i :| 0 <= i < |init| && init[i].0 == k;
        if i < |front| {
          assert front[i].0 == k;
        }
      }
    }
  }

  /** Each key maps to the values of its last pair. */
  lemma {:induction false} FromPairsLast(init: Pairs, i: nat)
    requires i < |init|
    requires forall j :: i < j < |init| ==> init[j].0 != init[i].0
    ensures init[i].0 in FromPairs(init) && FromPairs(init)[init[i].0] == init[i].1
  {
    if i < |init| - 1 {
      var front := init[..|init| - 1];
      forall j | i < j < |front| ensures front[j].0 != front[i].0 {
        assert front[j] == init[j];
      }
      FromPairsLast(front, i);
    }
  }

  /** `PropertySet`: a debug name and the key → values map.
      Values are owned by the set: `Updated` is the only change. */
  class PropertySet {
    var name: Bytes
    var values: PropertyMap

    /** `PropertySet::new`: inserts the pairs in order. */
    constructor(name: Bytes, init: Pairs)
      ensures this.name == name
      ensures values == FromPairs(init)
    {
      this.name := name;
      var m: PropertyMap := map[];
      for i := 0 to |init|
        invariant m == FromPairs(init[..i])
      {
        assert init[..i + 1][..i] == init[..i];
        m := m[init[i].0 := init[i].1];
      }
      assert init[..|init|] == init;
      values := m;
    }

    /** `set`: `entry(key).or_insert(default)`, `resize_with(index + 1,
        Unset)` when the index is past the end, then overwrite the slot. */
    method Set(key: Key, index: nat, value: PropertyValue)
      modifies this
      ensures name == old(name)
      ensures values == Updated(old(values), key, index, value)
    {
      var prop := if key in values then values[key] else [];
      if index >= |prop| {
        prop := prop + seq(index + 1 - |prop|, _ => Unset);
      }
      prop := prop[index := value];
      values := values[key := prop];
    }

    /** `values.insert(key, vs)`: replaces the whole sequence. */
    method Insert(key: Key, vs: seq<PropertyValue>)
      modifies this
      ensures name == old(name)
      ensures values == old(values)[key := vs]
    {
      values := values[key := vs];
    }
  }
}
