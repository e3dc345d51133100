/** The suite entries of src/suite_impls.rs that a plugin calls through
    handles: the property suite's typed setters and getters and
    `propGetDimension`, and `paramDefine`, `paramGetHandle`, `clipDefine`
    and `clipGetHandle`. Each entry takes the host's store and returns
    the store it leaves, the status it returns, and what it writes
    through its out-parameters. A handle that does not resolve makes
    `with_object` panic, which is an `Err`. */
module Suites {
  import opened Machine
  import opened Status
  import opened Wrappers
  import opened OfxStrings
  import opened Names
  import opened Handles
  import P = Properties
  import opened Host
  import Params
  import Effects

  /** What a suite entry leaves behind: the store, the returned status,
      and the values written through the out-parameters, if any. */
  datatype Reply<T> = Reply(st: Store, status: OfxStatus, out: Option<T>)

  /** `CStr::from_ptr(p).to_str()`: `mem` is the memory readable from the
      pointer, which the caller must terminate. The string is the bytes up
      to the first NUL, when they are UTF-8. */
  function CStrToStr(mem: Bytes): (r: Option<Bytes>)
    requires NUL in mem
    ensures r.Some? <==> ValidUtf8(mem[..NulIndex(mem)])
    ensures r.Some? ==> r.value + [NUL] == mem[..NulIndex(mem) + 1] && NUL !in r.value
  {
    var k := NulIndex(mem);
    if ValidUtf8(mem[..k]) then Some(mem[..k]) else None
  }

  /** A terminated UTF-8 string reads back as its content. */
  lemma CStrOfTerminated(s: Bytes, rest: Bytes)
    requires NUL !in s
    ensures NUL in s + [NUL] + rest
    ensures CStrToStr(s + [NUL] + rest) == if ValidUtf8(s) then Some(s) else None
  {
    var mem := s + [NUL] + rest;
    assert mem[|s|] == NUL;
    assert mem[..|s|] == s;
  }

  // ---------------------------------------------------------------------
  // The property suite: setters
  // ---------------------------------------------------------------------

  /** `set_property`: resolve the property-set handle, then `set` at
      `index as usize`. A negative index becomes an index near 2^64, at
      which `resize_with` cannot allocate (or, for -1, `index + 1` wraps
      and the write is out of bounds): the host panics. The status is
      always OK. */
  function SetProperty(st: Store, h: Handle, key: P.Key, index: Int32, v: P.PropertyValue): (r: Result<Reply<()>, Failure>)
    requires Valid(st)
    ensures Resolve(st, KPropertySet, h).Err? ==> r == Err(PanicOf(Resolve(st, KPropertySet, h).error))
    ensures r.Ok? <==> Resolve(st, KPropertySet, h).Ok? && index >= 0
    ensures r.Ok? ==>
      && Valid(r.value.st) && Extends(st, r.value.st)
      && r.value.status == OK && r.value.out == None
      && Is(st.objects, h, KPropertySet)
      && r.value.st == SetProps(st, h, P.Updated(PSetAt(st, h).values, key, index, v))
  {
    match ObjectOf(st, KPropertySet, h)
    case Err(f) => Err(f)
    case Ok(id) =>
      if index < 0 then Err(Panic("capacity overflow"))
      else Ok(Reply(SetProps(st, id, P.Updated(PSetAt(st, id).values, key, index, v)), OK, None))
  }

  /** `propSetPointer`. */
  function PropSetPointer(st: Store, h: Handle, key: P.Key, index: Int32, value: Addr): (r: Result<Reply<()>, Failure>)
    requires Valid(st)
    ensures r.Ok? <==> Resolve(st, KPropertySet, h).Ok? && index >= 0
    ensures r.Err? ==> r.error.Panic?
    ensures r.Ok? ==>
      && r.value.status == OK && Is(st.objects, h, KPropertySet)
      && r.value.st == SetProps(st, h, P.Updated(PSetAt(st, h).values, key, index, P.Pointer(value)))
  {
    SetProperty(st, h, key, index, P.Pointer(value))
  }

  /** `propSetDouble`. */
  function PropSetDouble(st: Store, h: Handle, key: P.Key, index: Int32, value: real): (r: Result<Reply<()>, Failure>)
    requires Valid(st)
    ensures r.Ok? <==> Resolve(st, KPropertySet, h).Ok? && index >= 0
    ensures r.Err? ==> r.error.Panic?
    ensures r.Ok? ==>
      && r.value.status == OK && Is(st.objects, h, KPropertySet)
      && r.value.st == SetProps(st, h, P.Updated(PSetAt(st, h).values, key, index, P.Double(value)))
  {
    SetProperty(st, h, key, index, P.Double(value))
  }

  /** `propSetInt`. */
  function PropSetInt(st: Store, h: Handle, key: P.Key, index: Int32, value: Int32): (r: Result<Reply<()>, Failure>)
    requires Valid(st)
    ensures r.Ok? <==> Resolve(st, KPropertySet, h).Ok? && index >= 0
    ensures r.Err? ==> r.error.Panic?
    ensures r.Ok? ==>
      && r.value.status == OK && Is(st.objects, h, KPropertySet)
      && r.value.st == SetProps(st, h, P.Updated(PSetAt(st, h).values, key, index, P.Int(value)))
  {
    SetProperty(st, h, key, index, P.Int(value))
  }

  /** `propSetString`: the value must be UTF-8, which is checked before
      the handle is resolved; otherwise ErrUnknown and nothing is
      written. The stored value is the owned copy of the string. */
  function PropSetString(st: Store, h: Handle, key: P.Key, index: Int32, value: Bytes): (r: Result<Reply<()>, Failure>)
    requires Valid(st) && NUL in value
    ensures CStrToStr(value).None? ==> r == Ok(Reply(st, ErrUnknown, None))
    ensures CStrToStr(value).Some? ==>
      && P.OfRustStr(CStrToStr(value).value).Ok?
      && r == SetProperty(st, h, key, index, P.Str(CStrToStr(value).value))
  {
    match CStrToStr(value)
    case None => Ok(Reply(st, ErrUnknown, None))
    case Some(s) =>
      match P.OfRustStr(s)
      case Ok(v) => SetProperty(st, h, key, index, v)
      case Err(f) => Err(f)
  }

  // ---------------------------------------------------------------------
  // The property suite: getters
  // ---------------------------------------------------------------------

  /** The body shared by the four typed getters: resolve, `get` at
      `index as usize`, and write the value out when `pick` accepts the
      slot. A missing key or index gives `get`'s status; an Unset slot or
      another variant gives ErrUnknown. Nothing changes. */
  function TypedGet<T>(st: Store, h: Handle, key: P.Key, index: Int32,
                       pick: P.PropertyValue -> Option<T>): (r: Result<Reply<T>, Failure>)
    requires Valid(st)
    ensures Resolve(st, KPropertySet, h).Err? ==> r == Err(PanicOf(Resolve(st, KPropertySet, h).error))
    ensures r.Ok? <==> Resolve(st, KPropertySet, h).Ok?
    ensures r.Ok? ==> r.value.st == st && Is(st.objects, h, KPropertySet)
    ensures r.Ok? ==>
      match P.Get(PSetAt(st, h).values, key, UsizeOfInt32(index))
      case Err(e) => r.value.status == e && r.value.out == None
      case Ok(v) =>
        if pick(v).Some? then r.value.status == OK && r.value.out == pick(v)
        else r.value.status == ErrUnknown && r.value.out == None
  {
    match ObjectOf(st, KPropertySet, h)
    case Err(f) => Err(f)
    case Ok(id) =>
      match P.Get(PSetAt(st, id).values, key, UsizeOfInt32(index))
      case Err(e) => Ok(Reply(st, e, None))
      case Ok(v) =>
        match pick(v)
        case Some(x) => Ok(Reply(st, OK, Some(x)))
        case None => Ok(Reply(st, ErrUnknown, None))
  }

  /** The reply of a typed getter, for a slot variant recognised by
      `holds`: OK exactly when the slot exists and holds that variant,
      the status of `get` for a missing key or index, and ErrUnknown for
      an Unset slot or another variant. */
  predicate GetterReply<T>(st: Store, h: Handle, key: P.Key, index: Int32,
                           holds: P.PropertyValue -> bool, r: Reply<T>)
    requires Is(st.objects, h, KPropertySet)
  {
    var m := PSetAt(st, h).values;
    var u := UsizeOfInt32(index);
    && r.st == st
    && (r.status == OK <==> key in m && u < |m[key]| && holds(m[key][u]))
    && (r.status != OK ==> r.out == None)
    && (key !in m ==> r.status == ErrUnknown)
    && (key in m && u >= |m[key]| ==> r.status == ErrBadIndex)
    && (key in m && u < |m[key]| && !holds(m[key][u]) ==> r.status == ErrUnknown)
  }

  /** `propGetPointer`. */
  function PropGetPointer(st: Store, h: Handle, key: P.Key, index: Int32): (r: Result<Reply<Addr>, Failure>)
    requires Valid(st)
    ensures r.Ok? <==> Resolve(st, KPropertySet, h).Ok?
    ensures r.Err? ==> r.error.Panic?
    ensures r.Ok? ==> Is(st.objects, h, KPropertySet) && GetterReply(st, h, key, index, (v: P.PropertyValue) => v.Pointer?, r.value)
    ensures r.Ok? && r.value.status == OK ==>
      r.value.out == Some(PSetAt(st, h).values[key][UsizeOfInt32(index)].addr)
  {
    TypedGet(st, h, key, index, (v: P.PropertyValue) => if v.Pointer? then Some(v.addr) else None)
  }

  /** `propGetString`: the plugin receives the stored C string. */
  function PropGetString(st: Store, h: Handle, key: P.Key, index: Int32): (r: Result<Reply<TerminatedCString>, Failure>)
    requires Valid(st)
    ensures r.Ok? <==> Resolve(st, KPropertySet, h).Ok?
    ensures r.Err? ==> r.error.Panic?
    ensures r.Ok? ==> Is(st.objects, h, KPropertySet) && GetterReply(st, h, key, index, (v: P.PropertyValue) => v.String?, r.value)
    ensures r.Ok? && r.value.status == OK ==>
      r.value.out == Some(PSetAt(st, h).values[key][UsizeOfInt32(index)].s)
  {
    TypedGet(st, h, key, index, (v: P.PropertyValue) => if v.String? then Some(v.s) else None)
  }

  /** `propGetDouble`. */
  function PropGetDouble(st: Store, h: Handle, key: P.Key, index: Int32): (r: Result<Reply<real>, Failure>)
    requires Valid(st)
    ensures r.Ok? <==> Resolve(st, KPropertySet, h).Ok?
    ensures r.Err? ==> r.error.Panic?
    ensures r.Ok? ==> Is(st.objects, h, KPropertySet) && GetterReply(st, h, key, index, (v: P.PropertyValue) => v.Double?, r.value)
    ensures r.Ok? && r.value.status == OK ==>
      r.value.out == Some(PSetAt(st, h).values[key][UsizeOfInt32(index)].d)
  {
    TypedGet(st, h, key, index, (v: P.PropertyValue) => if v.Double? then Some(v.d) else None)
  }

  /** `propGetInt`. */
  function PropGetInt(st: Store, h: Handle, key: P.Key, index: Int32): (r: Result<Reply<Int32>, Failure>)
    requires Valid(st)
    ensures r.Ok? <==> Resolve(st, KPropertySet, h).Ok?
    ensures r.Err? ==> r.error.Panic?
    ensures r.Ok? ==> Is(st.objects, h, KPropertySet) && GetterReply(st, h, key, index, (v: P.PropertyValue) => v.Int?, r.value)
    ensures r.Ok? && r.value.status == OK ==>
      r.value.out == Some(PSetAt(st, h).values[key][UsizeOfInt32(index)].i)
  {
    TypedGet(st, h, key, index, (v: P.PropertyValue) => if v.Int? then Some(v.i) else None)
  }

  /** `propGetDimension`: the number of slots of the key, Unset padding
      included, as `len() as i32`; ErrUnknown for a missing key. */
  function PropGetDimension(st: Store, h: Handle, key: P.Key): (r: Result<Reply<Int32>, Failure>)
    requires Valid(st)
    ensures Resolve(st, KPropertySet, h).Err? ==> r == Err(PanicOf(Resolve(st, KPropertySet, h).error))
    ensures r.Ok? <==> Resolve(st, KPropertySet, h).Ok?
    ensures r.Ok? ==> r.value.st == st && Is(st.objects, h, KPropertySet)
    ensures r.Ok? ==> var m := PSetAt(st, h).values;
      && (r.value.status == OK <==> key in m)
      && (key in m ==> r.value.out == Some(WrapInt32(|m[key]|)))
      && (key in m && |m[key]| <= I32_MAX ==> r.value.out == Some(|m[key]|))
      && (key !in m ==> r.value.status == ErrUnknown && r.value.out == None)
  {
    match ObjectOf(st, KPropertySet, h)
    case Err(f) => Err(f)
    case Ok(id) =>
      var m := PSetAt(st, id).values;
      if key in m then Ok(Reply(st, OK, Some(WrapInt32(|m[key]|))))
      else Ok(Reply(st, ErrUnknown, None))
  }

  // ---------------------------------------------------------------------
  // Set, then get
  // ---------------------------------------------------------------------

  /** After a successful set, `get` at the same key and index finds the
      value. */
  lemma SetThenGet(st: Store, h: Handle, key: P.Key, index: Int32, v: P.PropertyValue)
    requires Valid(st) && SetProperty(st, h, key, index, v).Ok?
    ensures var s := SetProperty(st, h, key, index, v).value.st;
      Is(s.objects, h, KPropertySet) && P.Get(PSetAt(s, h).values, key, UsizeOfInt32(index)) == Ok(v)
  {
    P.GetAfterSet(PSetAt(st, h).values, key, index, v);
  }

  /** `propSetInt` then `propGetInt` at the same place returns OK and the
      integer. */
  lemma SetIntThenGetInt(st: Store, h: Handle, key: P.Key, index: Int32, value: Int32)
    requires Valid(st) && PropSetInt(st, h, key, index, value).Ok?
    ensures var s := PropSetInt(st, h, key, index, value).value.st;
      PropGetInt(s, h, key, index) == Ok(Reply(s, OK, Some(value)))
  {
    SetThenGet(st, h, key, index, P.Int(value));
  }

  /** `propSetDouble` then `propGetDouble` returns the double. */
  lemma SetDoubleThenGetDouble(st: Store, h: Handle, key: P.Key, index: Int32, value: real)
    requires Valid(st) && PropSetDouble(st, h, key, index, value).Ok?
    ensures var s := PropSetDouble(st, h, key, index, value).value.st;
      PropGetDouble(s, h, key, index) == Ok(Reply(s, OK, Some(value)))
  {
    SetThenGet(st, h, key, index, P.Double(value));
  }

  /** `propSetPointer` then `propGetPointer` returns the pointer. */
  lemma SetPointerThenGetPointer(st: Store, h: Handle, key: P.Key, index: Int32, value: Addr)
    requires Valid(st) && PropSetPointer(st, h, key, index, value).Ok?
    ensures var s := PropSetPointer(st, h, key, index, value).value.st;
      PropGetPointer(s, h, key, index) == Ok(Reply(s, OK, Some(value)))
  {
    SetThenGet(st, h, key, index, P.Pointer(value));
  }

  /** `propSetString` of a UTF-8 string then `propGetString` returns a C
      string with that content. */
  lemma SetStringThenGetString(st: Store, h: Handle, key: P.Key, index: Int32, s: Bytes)
    requires Valid(st) && NUL !in s && ValidUtf8(s)
    requires PropSetString(st, h, key, index, s + [NUL]).Ok?
    ensures var s' := PropSetString(st, h, key, index, s + [NUL]).value.st;
      && P.OfRustStr(s).Ok?
      && PropGetString(s', h, key, index) == Ok(Reply(s', OK, Some(P.Str(s).s)))
      && P.Str(s).s.Content() == s
  {
    CStrOfTerminated(s, []);
    assert s + [NUL] + [] == s + [NUL];
    SetThenGet(st, h, key, index, P.Str(s));
  }

  /** A set changes only its own slot: every other slot of every property
      set reads as before, except that slots added as padding read Unset. */
  lemma SetKeepsOtherSlots(st: Store, h: Handle, key: P.Key, index: Int32, v: P.PropertyValue,
                           h2: Handle, k2: P.Key, j: nat)
    requires Valid(st) && SetProperty(st, h, key, index, v).Ok?
    requires Is(st.objects, h2, KPropertySet)
    requires h2 != h || k2 != key || j != index
    ensures var s := SetProperty(st, h, key, index, v).value.st;
      var before := P.Get(PSetAt(st, h2).values, k2, j);
      Is(s.objects, h2, KPropertySet) &&
      (before.Ok? ==> P.Get(PSetAt(s, h2).values, k2, j) == before) &&
      (h2 != h || k2 != key ==> P.Get(PSetAt(s, h2).values, k2, j) == before)
  {
    if h2 == h {
      P.GetAfterSetElsewhere(PSetAt(st, h).values, key, index, v, k2, j);
    }
  }

  /** After a set, the dimension of the key is the larger of its old
      length and `index + 1`. */
  lemma SetThenDimension(st: Store, h: Handle, key: P.Key, index: Int32, v: P.PropertyValue)
    requires Valid(st) && SetProperty(st, h, key, index, v).Ok?
    ensures var s := SetProperty(st, h, key, index, v).value.st;
      PropGetDimension(s, h, key) ==
        Ok(Reply(s, OK, Some(WrapInt32(Max(|P.ValuesOf(PSetAt(st, h).values, key)|, index + 1)))))
  {
  }

  // ---------------------------------------------------------------------
  // The parameter suite
  // ---------------------------------------------------------------------

  /** `paramDefine`: both the type and the name must be UTF-8, else
      ErrUnknown before the handle is looked at; then `create_param` on
      the parameter set, whose new descriptor's property-set handle is
      written out. */
  function ParamDefine(st: Store, h: Handle, paramType: Bytes, name: Bytes): (r: Result<Reply<Handle>, Failure>)
    requires Valid(st) && NUL in paramType && NUL in name
    ensures CStrToStr(paramType).None? || CStrToStr(name).None? ==> r == Ok(Reply(st, ErrUnknown, None))
    ensures CStrToStr(paramType).Some? && CStrToStr(name).Some? ==>
      && (Resolve(st, KParamSet, h).Err? ==> r == Err(PanicOf(Resolve(st, KParamSet, h).error)))
      && (r.Ok? <==> Resolve(st, KParamSet, h).Ok?)
      && (r.Ok? ==>
            && Is(st.objects, h, KParamSet)
            && (var created := Effects.CreateParam(st, h, CStrToStr(paramType).value, CStrToStr(name).value);
                r.value == Reply(created.0, OK, Some(created.1))))
    ensures r.Ok? ==> Valid(r.value.st) && Extends(st, r.value.st)
  {
    match (CStrToStr(paramType), CStrToStr(name))
    case (Some(kind), Some(n)) =>
      (match ObjectOf(st, KParamSet, h)
       case Err(f) => Err(f)
       case Ok(id) =>
         var (s, props) := Effects.CreateParam(st, id, kind, n);
         Ok(Reply(s, OK, Some(props))))
    case _ => Ok(Reply(st, ErrUnknown, None))
  }

  /** A successful `paramDefine` appends exactly one descriptor to the
      parameter set: a new property set holding the name and the type
      string, whose handle is the one written out and resolves to it.
      Every other object is as it was. */
  lemma ParamDefineAppends(st: Store, h: Handle, paramType: Bytes, name: Bytes)
    requires Valid(st) && NUL in paramType && NUL in name
    requires ParamDefine(st, h, paramType, name).Ok?
    requires ParamDefine(st, h, paramType, name).value.status == OK
    ensures var r := ParamDefine(st, h, paramType, name).value;
      var kind := CStrToStr(paramType).value;
      var n := CStrToStr(name).value;
      var d := r.out.value;
      && Is(st.objects, h, KParamSet) && Is(r.st.objects, h, KParamSet)
      && d !in st.objects && Is(r.st.objects, d, KPropertySet)
      && r.st.objects[h].paramSet.descriptors == st.objects[h].paramSet.descriptors + [d]
      && r.st.objects[h].paramSet.params == st.objects[h].paramSet.params
      && PSetAt(r.st, d).values == map[PropName := [P.Str(n)], ParamPropType := [P.Str(kind)]]
      && Resolve(r.st, KPropertySet, d) == Ok(d)
      && KeepsOthers(st, r.st, {h})
  {
    var r := ParamDefine(st, h, paramType, name).value;
    var kind := CStrToStr(paramType).value;
    var n := CStrToStr(name).value;
    assert r.st == Effects.CreateParam(st, h, kind, n).0;
  }

  /** The descriptor `paramDefine` creates reads back, when the instance
      is created, as its name and the zero value of its type: it has no
      default. */
  lemma DefinedParamDescribes(st: Store, h: Handle, paramType: Bytes, name: Bytes, t: Params.ParamType)
    requires Valid(st) && NUL in paramType && NUL in name
    requires ParamDefine(st, h, paramType, name).Ok?
    requires ParamDefine(st, h, paramType, name).value.status == OK
    requires Params.ParseType(CStrToStr(paramType).value) == Some(t)
    ensures var r := ParamDefine(st, h, paramType, name).value;
      && Is(r.st.objects, r.out.value, KPropertySet)
      && Effects.Describe(PSetAt(r.st, r.out.value)) == Ok((CStrToStr(name).value, Params.ZeroValue(t)))
  {
    ParamDefineAppends(st, h, paramType, name);
    var r := ParamDefine(st, h, paramType, name).value;
    Effects.DescriptorDescribes(CStrToStr(paramType).value, CStrToStr(name).value, t, PSetAt(r.st, r.out.value).name);
  }

  /** `paramGetHandle`: the name must be UTF-8, else ErrUnknown; a name
      the parameter set has no parameter for gives ErrUnknown; otherwise
      the parameter's handle and its property set's handle are issued and
      written out. */
  function ParamGetHandle(st: Store, h: Handle, name: Bytes): (r: Result<Reply<(Handle, Handle)>, Failure>)
    requires Valid(st) && NUL in name
    ensures CStrToStr(name).None? ==> r == Ok(Reply(st, ErrUnknown, None))
    ensures CStrToStr(name).Some? ==>
      && (Resolve(st, KParamSet, h).Err? ==> r == Err(PanicOf(Resolve(st, KParamSet, h).error)))
      && (r.Ok? <==> Resolve(st, KParamSet, h).Ok?)
    ensures r.Ok? ==> Valid(r.value.st) && Extends(st, r.value.st) && r.value.st.objects == st.objects
    ensures r.Ok? ==> (r.value.status == OK <==> r.value.out.Some?)
    ensures r.Ok? && r.value.status != OK ==> r.value == Reply(st, ErrUnknown, None)
    ensures r.Ok? && CStrToStr(name).Some? ==> Is(st.objects, h, KParamSet)
    ensures r.Ok? && CStrToStr(name).Some? ==>
      var params := st.objects[h].paramSet.params;
      var n := CStrToStr(name).value;
      && (r.value.status == OK <==> n in params)
      && (n in params ==>
            var p := params[n];
            && Is(st.objects, p, KParam)
            && r.value.out == Some((p, st.objects[p].param.properties))
            && Resolve(r.value.st, KParam, p) == (if p in st.live then Ok(p) else Err(Deallocated))
            && var props := st.objects[p].param.properties;
               Resolve(r.value.st, KPropertySet, props) == (if props in st.live then Ok(props) else Err(Deallocated)))
  {
    match CStrToStr(name)
    case None => Ok(Reply(st, ErrUnknown, None))
    case Some(n) =>
      match ObjectOf(st, KParamSet, h)
      case Err(f) => Err(f)
      case Ok(id) =>
        var params := st.objects[id].paramSet.params;
        if n in params then
          var p := params[n];
          assert Refs(st.objects[id], st.objects);
          assert Refs(st.objects[p], st.objects);
          var s1 := Issue(st, KParam, p);
          var s2 := Issue(s1, KPropertySet, s1.objects[p].param.properties);
          ExtendsTransitive(st, s1, s2);
          IssueKeepsOtherKinds(s1, KPropertySet, s1.objects[p].param.properties, KParam, p);
          Ok(Reply(s2, OK, Some((p, st.objects[p].param.properties))))
        else Ok(Reply(st, ErrUnknown, None))
  }

  // ---------------------------------------------------------------------
  // The image effect suite: clips
  // ---------------------------------------------------------------------

  /** `clipDefine`: the name must be UTF-8, else ErrUnknown; then
      `create_clip` on the effect, and the handle of the new clip's
      property set is issued and written out. */
  function ClipDefine(st: Store, h: Handle, name: Bytes): (r: Result<Reply<Handle>, Failure>)
    requires Valid(st) && NUL in name
    ensures CStrToStr(name).None? ==> r == Ok(Reply(st, ErrUnknown, None))
    ensures CStrToStr(name).Some? ==>
      && (Resolve(st, KImageEffect, h).Err? ==> r == Err(PanicOf(Resolve(st, KImageEffect, h).error)))
      && (r.Ok? <==> Resolve(st, KImageEffect, h).Ok?)
    ensures r.Ok? ==> Valid(r.value.st) && Extends(st, r.value.st)
    ensures r.Ok? && CStrToStr(name).Some? ==>
      && Is(st.objects, h, KImageEffect)
      && var (s, clip) := Effects.CreateClip(st, h, CStrToStr(name).value);
         var props := s.objects[clip].clip.properties;
         && r.value.status == OK && r.value.out == Some(props)
         && r.value.st == Issue(s, KPropertySet, props)
  {
    match CStrToStr(name)
    case None => Ok(Reply(st, ErrUnknown, None))
    case Some(n) =>
      match ObjectOf(st, KImageEffect, h)
      case Err(f) => Err(f)
      case Ok(id) =>
        var (s, clip) := Effects.CreateClip(st, id, n);
        assert Refs(s.objects[clip], s.objects);
        var props := s.objects[clip].clip.properties;
        var s' := Issue(s, KPropertySet, props);
        ExtendsTransitive(st, s, s');
        Ok(Reply(s', OK, Some(props)))
  }

  /** A successful `clipDefine` puts a new clip of that name, without
      images, into the effect, replacing any clip of that name and
      keeping the others; the handle written out is its property set's,
      which holds the default clip properties and resolves. */
  lemma ClipDefineCreates(st: Store, h: Handle, name: Bytes)
    requires Valid(st) && NUL in name
    requires ClipDefine(st, h, name).Ok? && ClipDefine(st, h, name).value.status == OK
    ensures var r := ClipDefine(st, h, name).value;
      var n := CStrToStr(name).value;
      && Is(r.st.objects, h, KImageEffect)
      && Is(st.objects, h, KImageEffect)
      && n in r.st.objects[h].effect.clips
      && (var clip := r.st.objects[h].effect.clips[n];
          && r.st.objects[h].effect.clips == st.objects[h].effect.clips[n := clip]
          && clip !in st.objects && Is(r.st.objects, clip, KClip)
          && r.st.objects[clip].clip.name == n
          && r.st.objects[clip].clip.images.NoImage?
          && r.out == Some(r.st.objects[clip].clip.properties)
          && Is(r.st.objects, r.out.value, KPropertySet)
          && PSetAt(r.st, r.out.value).values == Effects.ClipProperties
          && Resolve(r.st, KPropertySet, r.out.value) == Ok(r.out.value))
  {
    var n := CStrToStr(name).value;
    var (s, clip) := Effects.CreateClip(st, h, n);
    assert s.objects[h] == Effects.WithClip(st, h, n, clip);
  }

  /** Defining a clip of the same name again drops the first clip: the
      property-set handle the first `clipDefine` wrote out then points to
      a deallocated object, and reading through it panics. */
  lemma ClipRedefineDeallocates(st: Store, h: Handle, name: Bytes, key: P.Key, index: Int32)
    requires Valid(st) && NUL in name
    requires ClipDefine(st, h, name).Ok? && ClipDefine(st, h, name).value.status == OK
    ensures var r1 := ClipDefine(st, h, name).value;
      var r2 := ClipDefine(r1.st, h, name);
      && r2.Ok? && r2.value.status == OK
      && Resolve(r2.value.st, KPropertySet, r1.out.value) == Err(Deallocated)
      && PropGetInt(r2.value.st, r1.out.value, key, index).Err?
  {
    var r1 := ClipDefine(st, h, name).value;
    var n := CStrToStr(name).value;
    ClipDefineCreates(st, h, name);
    Effects.CreateClipDrops(st, h, n);
    var first := r1.st.objects[h].effect.clips[n];
    var props := r1.out.value;
    assert h in r1.st.live;
    ResolveStable(st, r1.st, KImageEffect, h);
    var r2 := ClipDefine(r1.st, h, name);
    assert r2.Ok? && r2.value.status == OK;
    Effects.CreateClipDrops(r1.st, h, n);
    assert Effects.ClipParts(r1.st, h, n) == {first, props};
    assert props in TableOf(r1.st, KPropertySet);
    assert props in TableOf(r2.value.st, KPropertySet);
  }

  /** `clipGetHandle`: the name must be UTF-8, else ErrUnknown; an
      undefined clip name gives ErrUnknown; otherwise the clip's handle
      and its property set's handle are issued and written out. */
  function ClipGetHandle(st: Store, h: Handle, name: Bytes): (r: Result<Reply<(Handle, Handle)>, Failure>)
    requires Valid(st) && NUL in name
    ensures CStrToStr(name).None? ==> r == Ok(Reply(st, ErrUnknown, None))
    ensures CStrToStr(name).Some? ==>
      && (Resolve(st, KImageEffect, h).Err? ==> r == Err(PanicOf(Resolve(st, KImageEffect, h).error)))
      && (r.Ok? <==> Resolve(st, KImageEffect, h).Ok?)
    ensures r.Ok? ==> Valid(r.value.st) && Extends(st, r.value.st) && r.value.st.objects == st.objects
    ensures r.Ok? ==> (r.value.status == OK <==> r.value.out.Some?)
    ensures r.Ok? && r.value.status != OK ==> r.value == Reply(st, ErrUnknown, None)
    ensures r.Ok? && CStrToStr(name).Some? ==> Is(st.objects, h, KImageEffect)
    ensures r.Ok? && CStrToStr(name).Some? ==>
      var clips := st.objects[h].effect.clips;
      var n := CStrToStr(name).value;
      && (r.value.status == OK <==> n in clips)
      && (n in clips ==>
            var c := clips[n];
            && Is(st.objects, c, KClip)
            && r.value.out == Some((c, st.objects[c].clip.properties))
            && Resolve(r.value.st, KClip, c) == (if c in st.live then Ok(c) else Err(Deallocated))
            && var props := st.objects[c].clip.properties;
               Resolve(r.value.st, KPropertySet, props) == (if props in st.live then Ok(props) else Err(Deallocated)))
  {
    match CStrToStr(name)
    case None => Ok(Reply(st, ErrUnknown, None))
    case Some(n) =>
      match ObjectOf(st, KImageEffect, h)
      case Err(f) => Err(f)
      case Ok(id) =>
        var clips := st.objects[id].effect.clips;
        if n in clips then
          var c := clips[n];
          assert Refs(st.objects[id], st.objects);
          assert Refs(st.objects[c], st.objects);
          var s1 := Issue(st, KClip, c);
          var s2 := Issue(s1, KPropertySet, s1.objects[c].clip.properties);
          ExtendsTransitive(st, s1, s2);
          IssueKeepsOtherKinds(s1, KPropertySet, s1.objects[c].clip.properties, KClip, c);
          Ok(Reply(s2, OK, Some((c, st.objects[c].clip.properties))))
        else Ok(Reply(st, ErrUnknown, None))
  }

  /** After `clipDefine(name)`, `clipGetHandle(name)` finds the clip just
      defined, and the property-set handle it writes out is the one
      `clipDefine` wrote out. */
  lemma DefineThenGetClip(st: Store, h: Handle, name: Bytes)
    requires Valid(st) && NUL in name
    requires ClipDefine(st, h, name).Ok? && ClipDefine(st, h, name).value.status == OK
    ensures var r := ClipDefine(st, h, name).value;
      var g := ClipGetHandle(r.st, h, name);
      && g.Ok? && g.value.status == OK
      && g.value.out.value.1 == r.out.value
      && Resolve(g.value.st, KClip, g.value.out.value.0) == Ok(g.value.out.value.0)
      && Resolve(g.value.st, KPropertySet, r.out.value) == Ok(r.out.value)
  {
    var r := ClipDefine(st, h, name).value;
    ClipDefineCreates(st, h, name);
    var n := CStrToStr(name).value;
    var (s, clip) := Effects.CreateClip(st, h, n);
    assert clip in r.st.live && s.objects[clip].clip.properties in r.st.live;
    Effects.CreateClipDrops(st, h, n);
    assert h in r.st.live;
    ResolveStable(st, r.st, KImageEffect, h);
  }
}
