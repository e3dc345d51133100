/** Parameter values (`ParamValue` in src/main.rs) and how an instance's
    parameter gets its initial value from the descriptor the plugin
    defined (`from_descriptor`). */
module Params {
  import opened Machine
  import opened Status
  import opened Wrappers
  import opened OfxStrings
  import opened Names
  import P = Properties

  /** The parameter types the host knows. */
  datatype ParamType =
    | TBoolean | TChoice | TCustom | TDouble | TDouble2D | TDouble3D | TGroup
    | TInteger | TInteger2D | TInteger3D | TPage | TParametric | TPushButton
    | TRgb | TRgba | TString

  /** A parameter's current value. Group, Page, Parametric and PushButton
      parameters carry none. */
  datatype ParamValue =
    | Boolean(b: bool)
    | Choice(choice: Usize)
    | Custom(custom: TerminatedCString)
    | Double(d: real)
    | Double2D(d1: real, d2: real)
    | Double3D(d1: real, d2: real, d3: real)
    | Group
    | Integer(i: Int32)
    | Integer2D(i1: Int32, i2: Int32)
    | Integer3D(i1: Int32, i2: Int32, i3: Int32)
    | Page
    | Parametric
    | PushButton
    | Rgb(r: real, g: real, b3: real)
    | Rgba(r: real, g: real, b3: real, a: real)
    | String(s: TerminatedCString)

  /** The name of each type, as the `OfxParamPropType` property holds it. */
  function TypeName(t: ParamType): Bytes {
    match t
    case TBoolean => ParamTypeBoolean
    case TChoice => ParamTypeChoice
    case TCustom => ParamTypeCustom
    case TDouble => ParamTypeDouble
    case TDouble2D => ParamTypeDouble2D
    case TDouble3D => ParamTypeDouble3D
    case TGroup => ParamTypeGroup
    case TInteger => ParamTypeInteger
    case TInteger2D => ParamTypeInteger2D
    case TInteger3D => ParamTypeInteger3D
    case TPage => ParamTypePage
    case TParametric => ParamTypeParametric
    case TPushButton => ParamTypePushButton
    case TRgb => ParamTypeRGB
    case TRgba => ParamTypeRGBA
    case TString => ParamTypeString
  }

  /** The dispatch of `from_descriptor` on the type string. */
  function ParseType(s: Bytes): (r: Option<ParamType>)
    ensures r.Some? ==> TypeName(r.value) == s
  {
    if s == ParamTypeBoolean then Some(TBoolean)
    else if s == ParamTypeChoice then Some(TChoice)
    else if s == ParamTypeCustom then Some(TCustom)
    else if s == ParamTypeDouble then Some(TDouble)
    else if s == ParamTypeDouble2D then Some(TDouble2D)
    else if s == ParamTypeDouble3D then Some(TDouble3D)
    else if s == ParamTypeGroup then Some(TGroup)
    else if s == ParamTypeInteger then Some(TInteger)
    else if s == ParamTypeInteger2D then Some(TInteger2D)
    else if s == ParamTypeInteger3D then Some(TInteger3D)
    else if s == ParamTypePage then Some(TPage)
    else if s == ParamTypeParametric then Some(TParametric)
    else if s == ParamTypePushButton then Some(TPushButton)
    else if s == ParamTypeRGB then Some(TRgb)
    else if s == ParamTypeRGBA then Some(TRgba)
    else if s == ParamTypeString then Some(TString)
    else None
  }

  /** Every type name is recognised as its own type. */
  lemma ParseTypeName(t: ParamType)
    ensures ParseType(TypeName(t)) == Some(t)
  {
  }

  /** The type a value belongs to. */
  function TypeOf(v: ParamValue): ParamType {
    match v
    case Boolean(_) => TBoolean
    case Choice(_) => TChoice
    case Custom(_) => TCustom
    case Double(_) => TDouble
    case Double2D(_, _) => TDouble2D
    case Double3D(_, _, _) => TDouble3D
    case Group => TGroup
    case Integer(_) => TInteger
    case Integer2D(_, _) => TInteger2D
    case Integer3D(_, _, _) => TInteger3D
    case Page => TPage
    case Parametric => TParametric
    case PushButton => TPushButton
    case Rgb(_, _, _) => TRgb
    case Rgba(_, _, _, _) => TRgba
    case String(_) => TString
  }

  /** How many default slots a type reads: one per component. */
  function Arity(t: ParamType): nat {
    match t
    case TDouble2D | TInteger2D => 2
    case TDouble3D | TInteger3D | TRgb => 3
    case TRgba => 4
    case TGroup | TPage | TParametric | TPushButton => 0
    case _ => 1
  }

  /** The components of a value, as property values, in order. */
  function Components(v: ParamValue): seq<P.PropertyValue> {
    match v
    case Boolean(b) => [P.OfBool(b)]
    case Choice(c) => [P.OfUsize(c)]
    case Custom(c) => [P.String(c)]
    case Double(d) => [P.Double(d)]
    case Double2D(d1, d2) => [P.Double(d1), P.Double(d2)]
    case Double3D(d1, d2, d3) => [P.Double(d1), P.Double(d2), P.Double(d3)]
    case Integer(i) => [P.Int(i)]
    case Integer2D(i1, i2) => [P.Int(i1), P.Int(i2)]
    case Integer3D(i1, i2, i3) => [P.Int(i1), P.Int(i2), P.Int(i3)]
    case Rgb(r, g, b) => [P.Double(r), P.Double(g), P.Double(b)]
    case Rgba(r, g, b, a) => [P.Double(r), P.Double(g), P.Double(b), P.Double(a)]
    case String(s) => [P.String(s)]
    case _ => []
  }

  /** The value of a type when its descriptor has no default: false, 0,
      0.0 or the empty string in every component. */
  function ZeroValue(t: ParamType): (v: ParamValue)
    ensures TypeOf(v) == t
  {
    match t
    case TBoolean => Boolean(false)
    case TChoice => Choice(0)
    case TCustom => Custom(EmptyCString)
    case TDouble => Double(0.0)
    case TDouble2D => Double2D(0.0, 0.0)
    case TDouble3D => Double3D(0.0, 0.0, 0.0)
    case TGroup => Group
    case TInteger => Integer(0)
    case TInteger2D => Integer2D(0, 0)
    case TInteger3D => Integer3D(0, 0, 0)
    case TPage => Page
    case TParametric => Parametric
    case TPushButton => PushButton
    case TRgb => Rgb(0.0, 0.0, 0.0)
    case TRgba => Rgba(0.0, 0.0, 0.0, 0.0)
    case TString => String(EmptyCString)
  }

  // ---------------------------------------------------------------------
  // What the default slots promise, independently of how they are read
  // ---------------------------------------------------------------------

  /** Default slot `j` of a descriptor, when it has one. */
  function DefaultSlot(m: P.PropertyMap, j: nat): Option<P.PropertyValue> {
    if ParamPropDefault in m && j < |m[ParamPropDefault]| then Some(m[ParamPropDefault][j]) else None
  }

  /** Whether a slot holds the variant a type's components are read as. */
  predicate Fits(t: ParamType, v: P.PropertyValue) {
    match t
    case TBoolean | TChoice | TInteger | TInteger2D | TInteger3D => v.Int?
    case TCustom | TString => v.String?
    case TDouble | TDouble2D | TDouble3D | TRgb | TRgba => v.Double?
    case TGroup | TPage | TParametric | TPushButton => true
  }

  /** Every default slot a type reads that is present fits the type. */
  predicate SlotsFit(m: P.PropertyMap, t: ParamType) {
    forall j: nat :: j < Arity(t) && DefaultSlot(m, j).Some? ==> Fits(t, DefaultSlot(m, j).value)
  }

  /** The component a type has when its slot is missing. */
  function ZeroComponent(t: ParamType): P.PropertyValue {
    match t
    case TBoolean | TChoice | TInteger | TInteger2D | TInteger3D => P.Int(0)
    case TCustom | TString => P.String(EmptyCString)
    case TDouble | TDouble2D | TDouble3D | TRgb | TRgba => P.Double(0.0)
    case TGroup | TPage | TParametric | TPushButton => P.Unset
  }

  /** Component `j` as the default slots determine it: the slot itself (a
      Boolean's integer read as 0 or 1), or the zero component when the
      slot is missing. */
  function ExpectedComponent(m: P.PropertyMap, t: ParamType, j: nat): P.PropertyValue {
    match DefaultSlot(m, j)
    case None => ZeroComponent(t)
    case Some(v) => if t == TBoolean && v.Int? then P.OfBool(v.i != 0) else v
  }

  /** The components of a value are those its default slots determine. */
  predicate FromSlots(m: P.PropertyMap, t: ParamType, v: ParamValue) {
    TypeOf(v) == t && |Components(v)| == Arity(t) &&
    forall j: nat :: j < Arity(t) ==> Components(v)[j] == ExpectedComponent(m, t, j)
  }

  // ---------------------------------------------------------------------
  // Reading one default slot: `get_type::<T>(ParamPropDefault, i)`
  // followed by `unwrap_or(zero)`
  // ---------------------------------------------------------------------

  function BoolAt(m: P.PropertyMap, i: nat): (r: Result<bool, Failure>)
    ensures ParamPropDefault !in m ==> r == Ok(false)
    ensures ParamPropDefault in m && i >= |m[ParamPropDefault]| ==> r == Ok(false)
    ensures ParamPropDefault in m && i < |m[ParamPropDefault]| ==> r == P.AsBool(m[ParamPropDefault][i])
  {
    match P.GetType(m, ParamPropDefault, i, P.AsBool)
    case Ok(None) => Ok(false)
    case Ok(Some(b)) => Ok(b)
    case Err(f) => Err(f)
  }

  function IntAt(m: P.PropertyMap, i: nat): (r: Result<Int32, Failure>)
    ensures ParamPropDefault !in m ==> r == Ok(0)
    ensures ParamPropDefault in m && i >= |m[ParamPropDefault]| ==> r == Ok(0)
    ensures ParamPropDefault in m && i < |m[ParamPropDefault]| ==> r == P.AsInt(m[ParamPropDefault][i])
  {
    match P.GetType(m, ParamPropDefault, i, P.AsInt)
    case Ok(None) => Ok(0)
    case Ok(Some(x)) => Ok(x)
    case Err(f) => Err(f)
  }

  function DoubleAt(m: P.PropertyMap, i: nat): (r: Result<real, Failure>)
    ensures ParamPropDefault !in m ==> r == Ok(0.0)
    ensures ParamPropDefault in m && i >= |m[ParamPropDefault]| ==> r == Ok(0.0)
    ensures ParamPropDefault in m && i < |m[ParamPropDefault]| ==> r == P.AsDouble(m[ParamPropDefault][i])
  {
    match P.GetType(m, ParamPropDefault, i, P.AsDouble)
    case Ok(None) => Ok(0.0)
    case Ok(Some(x)) => Ok(x)
    case Err(f) => Err(f)
  }

  function CStringAt(m: P.PropertyMap, i: nat): (r: Result<TerminatedCString, Failure>)
    ensures ParamPropDefault !in m ==> r == Ok(EmptyCString)
    ensures ParamPropDefault in m && i >= |m[ParamPropDefault]| ==> r == Ok(EmptyCString)
    ensures ParamPropDefault in m && i < |m[ParamPropDefault]| ==> r == P.AsCString(m[ParamPropDefault][i])
  {
    match P.GetType(m, ParamPropDefault, i, P.AsCString)
    case Ok(None) => Ok(EmptyCString)
    case Ok(Some(c)) => Ok(c)
    case Err(f) => Err(f)
  }

  /** The value of a type made of doubles, read slot by slot. */
  function DoubleValue(m: P.PropertyMap, t: ParamType): (r: Result<ParamValue, Failure>)
    requires t in {TDouble, TDouble2D, TDouble3D, TRgb, TRgba}
    ensures r.Ok? ==> TypeOf(r.value) == t && |Components(r.value)| == Arity(t)
    ensures ParamPropDefault !in m ==> r == Ok(ZeroValue(t))
  {
    match t
    case TDouble =>
      (match DoubleAt(m, 0) case Ok(x) => Ok(Double(x)) case Err(f) => Err(f))
    case TDouble2D =>
      (match (DoubleAt(m, 0), DoubleAt(m, 1))
       case (Ok(x), Ok(y)) => Ok(Double2D(x, y))
       case (Err(f), _) => Err(f)
       case (_, Err(f)) => Err(f))
    case TDouble3D =>
      (match (DoubleAt(m, 0), DoubleAt(m, 1), DoubleAt(m, 2))
       case (Ok(x), Ok(y), Ok(z)) => Ok(Double3D(x, y, z))
       case (Err(f), _, _) => Err(f)
       case (_, Err(f), _) => Err(f)
       case (_, _, Err(f)) => Err(f))
    case TRgb =>
      (match (DoubleAt(m, 0), DoubleAt(m, 1), DoubleAt(m, 2))
       case (Ok(x), Ok(y), Ok(z)) => Ok(Rgb(x, y, z))
       case (Err(f), _, _) => Err(f)
       case (_, Err(f), _) => Err(f)
       case (_, _, Err(f)) => Err(f))
    case TRgba =>
      (match (DoubleAt(m, 0), DoubleAt(m, 1), DoubleAt(m, 2), DoubleAt(m, 3))
       case (Ok(x), Ok(y), Ok(z), Ok(w)) => Ok(Rgba(x, y, z, w))
       case (Err(f), _, _, _) => Err(f)
       case (_, Err(f), _, _) => Err(f)
       case (_, _, Err(f), _) => Err(f)
       case (_, _, _, Err(f)) => Err(f))
  }

  /** The value of a type made of integers, read slot by slot. */
  function IntValue(m: P.PropertyMap, t: ParamType): (r: Result<ParamValue, Failure>)
    requires t in {TChoice, TInteger, TInteger2D, TInteger3D}
    ensures r.Ok? ==> TypeOf(r.value) == t && |Components(r.value)| == Arity(t)
    ensures ParamPropDefault !in m ==> r == Ok(ZeroValue(t))
  {
    match t
    case TChoice =>
      (match IntAt(m, 0) case Ok(x) => Ok(Choice(UsizeOfInt32(x))) case Err(f) => Err(f))
    case TInteger =>
      (match IntAt(m, 0) case Ok(x) => Ok(Integer(x)) case Err(f) => Err(f))
    case TInteger2D =>
      (match (IntAt(m, 0), IntAt(m, 1))
       case (Ok(x), Ok(y)) => Ok(Integer2D(x, y))
       case (Err(f), _) => Err(f)
       case (_, Err(f)) => Err(f))
    case TInteger3D =>
      (match (IntAt(m, 0), IntAt(m, 1), IntAt(m, 2))
       case (Ok(x), Ok(y), Ok(z)) => Ok(Integer3D(x, y, z))
       case (Err(f), _, _) => Err(f)
       case (_, Err(f), _) => Err(f)
       case (_, _, Err(f)) => Err(f))
  }

  /** The value built for a known type, reading its default slots from
      first to last; the first slot of the wrong variant panics. */
  function ValueOfType(m: P.PropertyMap, t: ParamType): (r: Result<ParamValue, Failure>)
    ensures r.Ok? ==> TypeOf(r.value) == t && |Components(r.value)| == Arity(t)
    ensures ParamPropDefault !in m ==> r == Ok(ZeroValue(t))
  {
    match t
    case TBoolean =>
      (match BoolAt(m, 0) case Ok(b) => Ok(Boolean(b)) case Err(f) => Err(f))
    case TCustom =>
      (match CStringAt(m, 0) case Ok(c) => Ok(Custom(c)) case Err(f) => Err(f))
    case TString =>
      (match CStringAt(m, 0) case Ok(c) => Ok(String(c)) case Err(f) => Err(f))
    case TDouble => DoubleValue(m, t)
    case TDouble2D => DoubleValue(m, t)
    case TDouble3D => DoubleValue(m, t)
    case TRgb => DoubleValue(m, t)
    case TRgba => DoubleValue(m, t)
    case TChoice => IntValue(m, t)
    case TInteger => IntValue(m, t)
    case TInteger2D => IntValue(m, t)
    case TInteger3D => IntValue(m, t)
    case TGroup => Ok(Group)
    case TPage => Ok(Page)
    case TParametric => Ok(Parametric)
    case TPushButton => Ok(PushButton)
  }

  /** The type string of a descriptor: `get_type::<CString>(ParamPropType,
      0).unwrap()` and `OfxStr::from_cstring`, both of which can panic. */
  function DescriptorType(m: P.PropertyMap): (r: Result<Bytes, Failure>)
    ensures (ParamPropType !in m || |m[ParamPropType]| == 0) ==> r.Err? && r.error.Panic?
    ensures ParamPropType in m && |m[ParamPropType]| > 0 && !m[ParamPropType][0].String? ==>
      r.Err? && r.error.Panic?
    ensures r.Ok? ==> ParamPropType in m && |m[ParamPropType]| > 0 && m[ParamPropType][0].String?
  {
    match P.GetType(m, ParamPropType, 0, P.AsCString)
    case Err(f) => Err(f)
    case Ok(None) => Err(UnwrapNone)
    case Ok(Some(c)) =>
      match FromCString(c)
      case Ok(o) => Ok(o.AsStr())
      case Err(_) => Err(Panic("OfxStr::from_cstring"))
  }

  /** `ParamValue::from_descriptor`. */
  function FromDescriptor(m: P.PropertyMap): (r: Result<ParamValue, Failure>)
    ensures r.Ok? ==> DescriptorType(m).Ok? && ParseType(DescriptorType(m).value) == Some(TypeOf(r.value))
    ensures r.Ok? ==> |Components(r.value)| == Arity(TypeOf(r.value))
    ensures DescriptorType(m).Ok? && ParseType(DescriptorType(m).value).None? ==> r.Err? && r.error.Panic?
  {
    match DescriptorType(m)
    case Err(f) => Err(f)
    case Ok(name) =>
      match ParseType(name)
      case None => Err(Panic("Unknown param type"))
      case Some(t) => ValueOfType(m, t)
  }

  /** The type string of a descriptor whose type slot holds a UTF-8
      string without NUL is that string. */
  lemma DescriptorTypeOfStr(m: P.PropertyMap, kind: Bytes)
    requires ParamPropType in m && |m[ParamPropType]| > 0
    requires m[ParamPropType][0] == P.Str(kind) && NUL !in kind && ValidUtf8(kind)
    ensures DescriptorType(m) == Ok(kind)
  {
    var c := m[ParamPropType][0].s;
    assert c.withNul == kind + [NUL];
    FromCStringOfNew(kind);
    assert NewCString(kind).value == c;
  }

  /** A descriptor made by `create_param` (whose type is a UTF-8 string),
      with no default set, yields the zero value of its type. */
  lemma FromDescriptorWithoutDefault(m: P.PropertyMap, kind: Bytes, t: ParamType)
    requires ParamPropType in m && |m[ParamPropType]| > 0
    requires m[ParamPropType][0] == P.Str(kind) && NUL !in kind && ValidUtf8(kind)
    requires ParseType(kind) == Some(t)
    requires ParamPropDefault !in m
    ensures FromDescriptor(m) == Ok(ZeroValue(t))
  {
    DescriptorTypeOfStr(m, kind);
  }

  /** One double slot reads exactly when it is missing or holds a Double,
      and then gives the component the slot determines. */
  lemma DoubleSlot(m: P.PropertyMap, t: ParamType, j: nat)
    requires t in {TDouble, TDouble2D, TDouble3D, TRgb, TRgba}
    ensures DoubleAt(m, j).Ok? <==> (DefaultSlot(m, j).Some? ==> Fits(t, DefaultSlot(m, j).value))
    ensures DoubleAt(m, j).Err? ==> DoubleAt(m, j).error.Panic?
    ensures DoubleAt(m, j).Ok? ==> P.Double(DoubleAt(m, j).value) == ExpectedComponent(m, t, j)
  {
  }

  /** One integer slot reads exactly when it is missing or holds an Int,
      and then gives the component the slot determines. */
  lemma IntSlot(m: P.PropertyMap, t: ParamType, j: nat)
    requires t in {TChoice, TInteger, TInteger2D, TInteger3D}
    ensures IntAt(m, j).Ok? <==> (DefaultSlot(m, j).Some? ==> Fits(t, DefaultSlot(m, j).value))
    ensures IntAt(m, j).Err? ==> IntAt(m, j).error.Panic?
    ensures IntAt(m, j).Ok? ==> P.Int(IntAt(m, j).value) == ExpectedComponent(m, t, j)
  {
  }

  /** A type made of doubles is built exactly when every present slot it
      reads is a Double; each component is then its slot, or 0.0 where
      the slot is missing. Any other slot panics. */
  lemma DoubleValueSlots(m: P.PropertyMap, t: ParamType)
    requires t in {TDouble, TDouble2D, TDouble3D, TRgb, TRgba}
    ensures DoubleValue(m, t).Ok? <==> SlotsFit(m, t)
    ensures DoubleValue(m, t).Err? ==> DoubleValue(m, t).error.Panic?
    ensures DoubleValue(m, t).Ok? ==> FromSlots(m, t, DoubleValue(m, t).value)
  {
    var r := DoubleValue(m, t);
    DoubleSlot(m, t, 0);
    DoubleSlot(m, t, 1);
    DoubleSlot(m, t, 2);
    DoubleSlot(m, t, 3);
    if r.Ok? {
      forall j: nat | j < Arity(t)
        ensures DefaultSlot(m, j).Some? ==> Fits(t, DefaultSlot(m, j).value)
        ensures Components(r.value)[j] == ExpectedComponent(m, t, j)
      {
        assert j == 0 || j == 1 || j == 2 || j == 3;
      }
    }
  }

  /** A type made of integers is built exactly when every present slot it
      reads is an Int; each component is then its slot, or 0 where the
      slot is missing, and a Choice is the slot sign-extended to `usize`.
      Any other slot panics. */
  lemma IntValueSlots(m: P.PropertyMap, t: ParamType)
    requires t in {TChoice, TInteger, TInteger2D, TInteger3D}
    ensures IntValue(m, t).Ok? <==> SlotsFit(m, t)
    ensures IntValue(m, t).Err? ==> IntValue(m, t).error.Panic?
    ensures IntValue(m, t).Ok? ==> FromSlots(m, t, IntValue(m, t).value)
    ensures IntValue(m, t).Ok? && t == TChoice && DefaultSlot(m, 0).Some? ==>
      IntValue(m, t).value.choice == UsizeOfInt32(DefaultSlot(m, 0).value.i)
  {
    var r := IntValue(m, t);
    IntSlot(m, t, 0);
    IntSlot(m, t, 1);
    IntSlot(m, t, 2);
    if r.Ok? {
      if t == TChoice {
        Int32OfUsizeOfInt32(IntAt(m, 0).value);
      }
      forall j: nat | j < Arity(t)
        ensures DefaultSlot(m, j).Some? ==> Fits(t, DefaultSlot(m, j).value)
        ensures Components(r.value)[j] == ExpectedComponent(m, t, j)
      {
        assert j == 0 || j == 1 || j == 2;
      }
    }
  }

  /** `from_descriptor` for a known type: each component is
      `get_type(ParamPropDefault, j).unwrap_or(zero)`. The value is built
      exactly when every present slot the type reads has the right
      variant; each component is then that slot (a Boolean's integer read
      as 0 or 1, a Choice's sign-extended to `usize`), or the zero
      component where the slot, or the whole default, is missing. A slot
      of the wrong variant panics. */
  lemma ValueOfTypeSlots(m: P.PropertyMap, t: ParamType)
    ensures ValueOfType(m, t).Ok? <==> SlotsFit(m, t)
    ensures ValueOfType(m, t).Err? ==> ValueOfType(m, t).error.Panic?
    ensures ValueOfType(m, t).Ok? ==> FromSlots(m, t, ValueOfType(m, t).value)
    ensures ValueOfType(m, t).Ok? && t == TChoice && DefaultSlot(m, 0).Some? ==>
      ValueOfType(m, t).value.choice == UsizeOfInt32(DefaultSlot(m, 0).value.i)
  {
    var r := ValueOfType(m, t);
    match t
    case TBoolean =>
      if r.Ok? {
        forall j: nat | j < Arity(t)
          ensures DefaultSlot(m, j).Some? ==> Fits(t, DefaultSlot(m, j).value)
          ensures Components(r.value)[j] == ExpectedComponent(m, t, j)
        {
          assert j == 0;
        }
      } else {
        assert !Fits(t, DefaultSlot(m, 0).value);
      }
    case TCustom | TString =>
      if r.Ok? {
        forall j: nat | j < Arity(t)
          ensures DefaultSlot(m, j).Some? ==> Fits(t, DefaultSlot(m, j).value)
          ensures Components(r.value)[j] == ExpectedComponent(m, t, j)
        {
          assert j == 0;
        }
      } else {
        assert !Fits(t, DefaultSlot(m, 0).value);
      }
    case TDouble | TDouble2D | TDouble3D | TRgb | TRgba => DoubleValueSlots(m, t);
    case TChoice | TInteger | TInteger2D | TInteger3D => IntValueSlots(m, t);
    case TGroup | TPage | TParametric | TPushButton =>
  }

  /** `from_descriptor` on a descriptor whose type string names a known
      type: the defaults promise of `ValueOfTypeSlots`, and an unknown type
      string panics. */
  lemma FromDescriptorDefaults(m: P.PropertyMap, t: ParamType)
    requires DescriptorType(m).Ok? && ParseType(DescriptorType(m).value) == Some(t)
    ensures FromDescriptor(m).Ok? <==> SlotsFit(m, t)
    ensures FromDescriptor(m).Err? ==> FromDescriptor(m).error.Panic?
    ensures FromDescriptor(m).Ok? ==> FromSlots(m, t, FromDescriptor(m).value)
    ensures FromDescriptor(m).Ok? && t == TChoice && DefaultSlot(m, 0).Some? ==>
      FromDescriptor(m).value.choice == UsizeOfInt32(DefaultSlot(m, 0).value.i)
  {
    ValueOfTypeSlots(m, t);
  }

  /** A default list shorter than the type's arity: the missing slot
      reads as zero. */
  lemma ShortDefaultReadsZero(d: real)
    ensures ValueOfType(map[ParamPropDefault := [P.Double(d)]], TDouble2D) == Ok(Double2D(d, 0.0))
  {
  }

  /** Exactly the Group, Page, Parametric and PushButton types carry no
      value. */
  lemma ValuelessTypes(v: ParamValue)
    ensures Components(v) == [] <==> TypeOf(v) in {TGroup, TPage, TParametric, TPushButton}
    ensures |Components(v)| == Arity(TypeOf(v))
  {
  }
}
