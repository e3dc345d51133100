/** The operations of src/main.rs that build and change effects, clips,
    parameter sets and parameters in the host's store: `create_param`,
    `create_clip`, the deep copy of a clip, `create_params` and
    `create_instance`. */
module Effects {
  import opened Machine
  import opened Status
  import opened Wrappers
  import opened OfxStrings
  import opened Names
  import opened Handles
  import opened Geometry
  import opened Images
  import P = Properties
  import Params
  import opened Host

  // ---------------------------------------------------------------------
  // ParamSet::create_param
  // ---------------------------------------------------------------------

  /** The properties of a new parameter descriptor: its name and its type
      string. */
  function DescriptorPairs(kind: Bytes, name: Bytes): P.Pairs {
    [(PropName, [P.Str(name)]), (ParamPropType, [P.Str(kind)])]
  }

  /** A descriptor holds exactly the two properties, the name and the
      type. */
  lemma DescriptorPairsDescribe(kind: Bytes, name: Bytes)
    ensures P.FromPairs(DescriptorPairs(kind, name)) == map[PropName := [P.Str(name)], ParamPropType := [P.Str(kind)]]
  {
    var init := DescriptorPairs(kind, name);
    assert P.FromPairs(init[..1][..0]) == map[];
    assert init[..1] == [init[0]];
  }

  /** `descriptors.push`: the parameter set at `paramSet` gets one more
      descriptor at the end. */
  function PushDescriptor(st: Store, paramSet: ObjId, props: ObjId): (r: Store)
    requires Valid(st) && Is(st.objects, paramSet, KParamSet) && Is(st.objects, props, KPropertySet)
    ensures Valid(r) && Extends(st, r)
    ensures r.objects == st.objects[paramSet := Pushed(st, paramSet, props)]
    ensures r.live == st.live && r.tables == st.tables
  {
    var s := st.objects[paramSet].paramSet;
    var s' := s.(descriptors := s.descriptors + [props]);
    assert Refs(ParamSetObject(s), st.objects);
    assert Refs(ParamSetObject(s'), st.objects) by {
      forall i | 0 <= i < |s'.descriptors| ensures Is(st.objects, s'.descriptors[i], KPropertySet) {
        if i < |s.descriptors| {
          assert s'.descriptors[i] == s.descriptors[i];
        }
      }
    }
    Replace(st, paramSet, ParamSetObject(s'))
  }

  /** The parameter set at `paramSet` with `props` appended to its
      descriptors. */
  function Pushed(st: Store, paramSet: ObjId, props: ObjId): Object
    requires Is(st.objects, paramSet, KParamSet)
  {
    var s := st.objects[paramSet].paramSet;
    ParamSetObject(s.(descriptors := s.descriptors + [props]))
  }

  /** `create_param`: a new property set named "param_" followed by the
      name, holding the name and the type string, is appended to the
      parameter set's descriptors, and its property-set handle is issued
      and returned. Nothing else changes. */
  function CreateParam(st: Store, paramSet: ObjId, kind: Bytes, name: Bytes): (r: (Store, Handle))
    requires Valid(st) && Is(st.objects, paramSet, KParamSet)
    ensures Valid(r.0) && Extends(st, r.0)
    ensures r.1 !in st.objects && r.0.live == st.live + {r.1}
    ensures r.0.objects == st.objects[r.1 := PropSetObject(PSet("param_" + name, map[PropName := [P.Str(name)], ParamPropType := [P.Str(kind)]]))][paramSet := Pushed(st, paramSet, r.1)]
    ensures r.0.tables == st.tables[KPropertySet := TableOf(st, KPropertySet)[r.1 := r.1]]
  {
    DescriptorPairsDescribe(kind, name);
    var (s1, props) := NewPropertySet(st, "param_" + name, P.FromPairs(DescriptorPairs(kind, name)));
    var s2 := PushDescriptor(s1, paramSet, props);
    var s3 := Issue(s2, KPropertySet, props);
    ExtendsTransitive(st, s1, s2);
    ExtendsTransitive(st, s2, s3);
    (s3, props)
  }

  /** The properties `create_param` gives a descriptor read back, when an
      instance is created, as its name and the zero value of its type:
      it has no default. */
  lemma DescriptorDescribes(kind: Bytes, name: Bytes, t: Params.ParamType, debugName: Bytes)
    requires NUL !in kind && ValidUtf8(kind) && NUL !in name && ValidUtf8(name)
    requires Params.ParseType(kind) == Some(t)
    ensures Describe(PSet(debugName, map[PropName := [P.Str(name)], ParamPropType := [P.Str(kind)]]))
      == Ok((name, Params.ZeroValue(t)))
  {
    var m := map[PropName := [P.Str(name)], ParamPropType := [P.Str(kind)]];
    DescriptorSlots(name, kind);
    DescribesWithoutDefault(m, kind, name, t, debugName);
  }

  /** The slots of the properties `create_param` gives a descriptor. */
  lemma DescriptorSlots(name: Bytes, kind: Bytes)
    ensures var m := map[PropName := [P.Str(name)], ParamPropType := [P.Str(kind)]];
      && PropName in m && m[PropName] == [P.Str(name)]
      && ParamPropType in m && m[ParamPropType] == [P.Str(kind)]
      && ParamPropDefault !in m
  {
    DescriptorKeysDiffer();
  }

  /** A descriptor with a UTF-8 name, a known type and no default is
      described by its name and the zero value of its type. */
  lemma DescribesWithoutDefault(m: P.PropertyMap, kind: Bytes, name: Bytes, t: Params.ParamType, debugName: Bytes)
    requires NUL !in kind && ValidUtf8(kind) && ValidUtf8(name)
    requires Params.ParseType(kind) == Some(t)
    requires PropName in m && |m[PropName]| > 0 && m[PropName][0] == P.Str(name)
    requires ParamPropType in m && |m[ParamPropType]| > 0 && m[ParamPropType][0] == P.Str(kind)
    requires ParamPropDefault !in m
    ensures Describe(PSet(debugName, m)) == Ok((name, Params.ZeroValue(t)))
  {
    Params.FromDescriptorWithoutDefault(m, kind, t);
    NameOfStr(m, name);
    DescribeOk(PSet(debugName, m), name, Params.ZeroValue(t));
  }

  lemma DescribeOk(d: PSet, name: Bytes, v: Params.ParamValue)
    requires DescriptorName(d.values) == Ok(name) && Params.FromDescriptor(d.values) == Ok(v)
    ensures Describe(d) == Ok((name, v))
  {
  }

  /** A descriptor whose name slot holds a UTF-8 string has that name. */
  lemma NameOfStr(m: P.PropertyMap, name: Bytes)
    requires PropName in m && |m[PropName]| > 0 && m[PropName][0] == P.Str(name) && ValidUtf8(name)
    ensures DescriptorName(m) == Ok(name)
  {
  }

  // ---------------------------------------------------------------------
  // ImageEffect::create_clip
  // ---------------------------------------------------------------------

  /** The properties `create_clip` gives a new clip: float RGBA pixels,
      24 frames per second, square pixels, frame range 0 to 1, connected. */
  function ClipPairs(): P.Pairs {
    [ (ImageEffectPropPixelDepth, [P.Str(BitDepthFloat)]),
      (ImageEffectPropComponents, [P.Str(ImageComponentRGBA)]),
      (ImageEffectPropFrameRate, [P.Double(24.0)]),
      (ImagePropPixelAspectRatio, [P.Double(1.0)]),
      (ImageEffectPropFrameRange, [P.Double(0.0), P.Double(1.0)]),
      (ImageClipPropConnected, [P.Int(1)]) ]
  }

  const ClipProperties: P.PropertyMap := map[
    ImageEffectPropPixelDepth := [P.Str(BitDepthFloat)],
    ImageEffectPropComponents := [P.Str(ImageComponentRGBA)],
    ImageEffectPropFrameRate := [P.Double(24.0)],
    ImagePropPixelAspectRatio := [P.Double(1.0)],
    ImageEffectPropFrameRange := [P.Double(0.0), P.Double(1.0)],
    ImageClipPropConnected := [P.Int(1)]]

  /** Inserting the six pairs in order gives exactly those six
      properties. */
  lemma ClipPairsDescribe()
    ensures P.FromPairs(ClipPairs()) == ClipProperties
  {
    var init := ClipPairs();
    assert P.FromPairs(init[..1]) == map[ImageEffectPropPixelDepth := [P.Str(BitDepthFloat)]] by {
      assert P.FromPairs(init[..1][..0]) == map[];
    }
    assert P.FromPairs(init[..2]) == P.FromPairs(init[..1])[ImageEffectPropComponents := [P.Str(ImageComponentRGBA)]] by {
      assert init[..2][..1] == init[..1];
    }
    assert P.FromPairs(init[..3]) == P.FromPairs(init[..2])[ImageEffectPropFrameRate := [P.Double(24.0)]] by {
      assert init[..3][..2] == init[..2];
    }
    assert P.FromPairs(init[..4]) == P.FromPairs(init[..3])[ImagePropPixelAspectRatio := [P.Double(1.0)]] by {
      assert init[..4][..3] == init[..3];
    }
    assert P.FromPairs(init[..5]) == P.FromPairs(init[..4])[ImageEffectPropFrameRange := [P.Double(0.0), P.Double(1.0)]] by {
      assert init[..5][..4] == init[..4];
    }
    assert P.FromPairs(init) == P.FromPairs(init[..5])[ImageClipPropConnected := [P.Int(1)]] by {
      assert init[..5] == init[..|init| - 1];
    }
  }

  /** The effect at `effect` with `clip` under `name`, replacing any clip
      of that name. */
  function WithClip(st: Store, effect: ObjId, name: Bytes, clip: ObjId): Object
    requires Is(st.objects, effect, KImageEffect)
  {
    var e := st.objects[effect].effect;
    EffectObject(e.(clips := e.clips[name := clip]))
  }

  /** `clips.insert`: the effect's clip of that name becomes `clip`. */
  function InsertClip(st: Store, effect: ObjId, name: Bytes, clip: ObjId): (r: Store)
    requires Valid(st) && Is(st.objects, effect, KImageEffect) && Is(st.objects, clip, KClip)
    ensures Valid(r) && Extends(st, r)
    ensures r.objects == st.objects[effect := WithClip(st, effect, name, clip)]
    ensures r.live == st.live && r.tables == st.tables
  {
    assert Refs(st.objects[effect], st.objects);
    Replace(st, effect, WithClip(st, effect, name, clip))
  }

  /** The clip the effect holds under `name`, if any, and its property
      set: the effect's `clips` map holds the only strong reference to
      them, so replacing that entry deallocates both. */
  function ClipParts(st: Store, effect: ObjId, name: Bytes): (r: set<ObjId>)
    requires Valid(st) && Is(st.objects, effect, KImageEffect)
    ensures r <= st.objects.Keys
    ensures name !in st.objects[effect].effect.clips <==> r == {}
    ensures name in st.objects[effect].effect.clips ==>
      var c := st.objects[effect].effect.clips[name];
      && Is(st.objects, c, KClip) && Is(st.objects, st.objects[c].clip.properties, KPropertySet)
      && r == {c, st.objects[c].clip.properties}
  {
    var e := st.objects[effect].effect;
    assert Refs(st.objects[effect], st.objects);
    if name in e.clips then
      var c := e.clips[name];
      assert Refs(st.objects[c], st.objects);
      {c, st.objects[c].clip.properties}
    else {}
  }

  /** `create_clip`: a new clip named `name`, without images or region of
      definition, whose new property set named "clip_" followed by the
      name holds the default clip properties, is stored in the effect
      under its name and returned. A clip it replaces is dropped with its
      property set, so their handles report deallocated objects. */
  function CreateClip(st: Store, effect: ObjId, name: Bytes): (r: (Store, ObjId))
    requires Valid(st) && Is(st.objects, effect, KImageEffect)
    ensures Valid(r.0) && Extends(st, r.0)
    ensures r.1 !in st.objects && Is(r.0.objects, r.1, KClip)
    ensures var props := r.0.objects[r.1].clip.properties;
      && props !in st.objects && props != r.1
      && r.0.live == (st.live - ClipParts(st, effect, name)) + {props, r.1}
      && r.0.objects == st.objects[props := PropSetObject(PSet("clip_" + name, ClipProperties))]
                                  [r.1 := ClipObject(ClipObj(name, props, NoImage, None))]
                                  [effect := WithClip(st, effect, name, r.1)]
    ensures r.0.tables == st.tables
  {
    ClipPairsDescribe();
    var replaced := ClipParts(st, effect, name);
    var (s1, props) := NewPropertySet(st, "clip_" + name, P.FromPairs(ClipPairs()));
    var (s2, clip) := Add(s1, ClipObject(ClipObj(name, props, NoImage, None)));
    var s3 := InsertClip(s2, effect, name, clip);
    var s4 := Drop(s3, replaced);
    ExtendsTransitive(st, s1, s2);
    ExtendsTransitive(st, s2, s3);
    ExtendsTransitive(st, s3, s4);
    (s4, clip)
  }

  /** `create_clip` keeps the effect alive exactly when it was, and none
      of the replaced clip's parts survives it. */
  lemma CreateClipDrops(st: Store, effect: ObjId, name: Bytes)
    requires Valid(st) && Is(st.objects, effect, KImageEffect)
    ensures var r := CreateClip(st, effect, name).0;
      && (effect in r.live <==> effect in st.live)
      && r.live * ClipParts(st, effect, name) == {}
  {
    var (s, clip) := CreateClip(st, effect, name);
    var parts := ClipParts(st, effect, name);
    if name in st.objects[effect].effect.clips {
      var c := st.objects[effect].effect.clips[name];
      assert parts == {c, st.objects[c].clip.properties};
    }
    assert effect !in parts;
  }

  /** `Image::crop` on the image's property set in the store: the set
      keeps its name and gets the cropped bounds and data pointer of
      `CropProperties`; no other object changes. */
  function CropImage(st: Store, img: Image, bounds: RectI): (r: Store)
    requires Valid(st) && Is(st.objects, img.properties, KPropertySet)
    ensures Valid(r) && Extends(st, r)
    ensures Is(r.objects, img.properties, KPropertySet)
    ensures PSetAt(r, img.properties).name == PSetAt(st, img.properties).name
    ensures PSetAt(r, img.properties).values == CropProperties(img, bounds, PSetAt(st, img.properties).values)
    ensures KeepsOthers(st, r, {img.properties}) && r.objects.Keys == st.objects.Keys
    ensures r.live == st.live && r.tables == st.tables
  {
    SetProps(st, img.properties, CropProperties(img, bounds, PSetAt(st, img.properties).values))
  }

  // ---------------------------------------------------------------------
  // Deep copies of clips (`Clone for Clip`, `copy_map`)
  // ---------------------------------------------------------------------

  /** The clip at `copy` is a copy of the clip at `c`: same name, images
      and region of definition, and its own property set with the same
      name and properties. */
  predicate ClipCopy(st: Store, copy: ObjId, c: ObjId) {
    && Is(st.objects, copy, KClip) && Is(st.objects, c, KClip)
    && var a := st.objects[copy].clip;
    && var b := st.objects[c].clip;
    && a.name == b.name && a.images == b.images && a.regionOfDefinition == b.regionOfDefinition
    && Is(st.objects, a.properties, KPropertySet) && Is(st.objects, b.properties, KPropertySet)
    && a.properties != b.properties
    && PSetAt(st, a.properties) == PSetAt(st, b.properties)
  }

  /** The clip at `copy` and its property set are new since `st`. */
  predicate NewClip(st': Store, copy: ObjId, st: Store) {
    copy !in st.objects && Is(st'.objects, copy, KClip) && st'.objects[copy].clip.properties !in st.objects
  }

  /** A copy stays a copy, and new stays new, while the objects involved
      are left alone. */
  lemma ClipCopyKept(st: Store, st': Store, copy: ObjId, c: ObjId, st0: Store)
    requires ClipCopy(st, copy, c) && NewClip(st, copy, st0)
    requires KeepsOthers(st, st', {})
    ensures ClipCopy(st', copy, c) && NewClip(st', copy, st0)
  {
    assert st.objects[copy].clip.properties in st.objects;
    assert st.objects[c].clip.properties in st.objects;
  }

  /** The property set of a clip is some other object. */
  lemma ClipPropsDiffer(st: Store, c: ObjId)
    requires Valid(st) && Is(st.objects, c, KClip)
    ensures st.objects[c].clip.properties != c
  {
    assert Refs(st.objects[c], st.objects);
  }

  /** `Clone for Clip`: the property set is copied into a new allocation,
      the rest of the clip is cloned, and the copy is allocated. */
  function CopyClip(st: Store, c: ObjId): (r: (Store, ObjId))
    requires Valid(st) && Is(st.objects, c, KClip)
    ensures Valid(r.0) && Extends(st, r.0)
    ensures ClipCopy(r.0, r.1, c) && NewClip(r.0, r.1, st)
    ensures KeepsOthers(st, r.0, {}) && r.0.tables == st.tables
  {
    var clip := st.objects[c].clip;
    assert Refs(st.objects[c], st.objects);
    var (s1, props) := NewPropertySet(st, PSetAt(st, clip.properties).name, PSetAt(st, clip.properties).values);
    RefsGrow(st.objects, props, s1.objects[props], st.objects[c]);
    var (s2, c') := Add(s1, ClipObject(clip.(properties := props)));
    ExtendsTransitive(st, s1, s2);
    (s2, c')
  }

  /** Objects that were there are kept by every later change that keeps
      others. */
  lemma KeepsOthersTransitive(a: Store, b: Store, c: Store)
    requires KeepsOthers(a, b, {}) && KeepsOthers(b, c, {})
    ensures KeepsOthers(a, c, {})
  {
  }

  /** Every clip named in `order` is a clip of `st`. */
  predicate ClipsIn(st: Store, clips: map<Bytes, ObjId>, order: seq<Bytes>) {
    forall i :: 0 <= i < |order| ==> order[i] in clips && Is(st.objects, clips[order[i]], KClip)
  }

  /** Clips that were there are still there after a change that keeps
      the old objects. */
  lemma ClipsInKept(st: Store, st': Store, clips: map<Bytes, ObjId>, order: seq<Bytes>)
    requires ClipsIn(st, clips, order) && KeepsOthers(st, st', {})
    ensures ClipsIn(st', clips, order)
  {
    forall i | 0 <= i < |order| ensures Is(st'.objects, clips[order[i]], KClip) {
      assert clips[order[i]] in st.objects;
    }
  }

  /** `copy_map`'s copies, in the order the map's iteration visits the
      names in `order`: the i-th is a new copy of the clip named
      `order[i]`, and the objects that were there are kept. */
  function CopyClipsFrom(st: Store, clips: map<Bytes, ObjId>, order: seq<Bytes>): (r: (Store, seq<ObjId>))
    requires Valid(st) && ClipsIn(st, clips, order)
    ensures Valid(r.0) && Extends(st, r.0)
    ensures KeepsOthers(st, r.0, {}) && r.0.tables == st.tables
    ensures |r.1| == |order|
    ensures forall i :: 0 <= i < |order| ==> ClipCopy(r.0, r.1[i], clips[order[i]]) && NewClip(r.0, r.1[i], st)
    decreases |order|
  {
    if |order| == 0 then (st, [])
    else
      var (s1, c') := CopyClip(st, clips[order[0]]);
      ClipsInKept(st, s1, clips, order);
      var (s2, cs) := CopyClipsFrom(s1, clips, order[1..]);
      ExtendsTransitive(st, s1, s2);
      KeepsOthersTransitive(st, s1, s2);
      CopiesStep(st, s1, s2, clips, order, c', cs);
      (s2, [c'] + cs)
  }

  /** The step of `CopyClipsFrom`: the first copy and the copies of the
      rest make the copies of all. */
  lemma CopiesStep(st: Store, s1: Store, s2: Store, clips: map<Bytes, ObjId>, order: seq<Bytes>, c': ObjId, cs: seq<ObjId>)
    requires |order| > 0 && |cs| == |order| - 1 && ClipsIn(st, clips, order)
    requires ClipCopy(s1, c', clips[order[0]]) && NewClip(s1, c', st)
    requires st.objects.Keys <= s1.objects.Keys && KeepsOthers(s1, s2, {})
    requires forall i :: 0 <= i < |order[1..]| ==> ClipCopy(s2, cs[i], clips[order[1..][i]]) && NewClip(s2, cs[i], s1)
    ensures forall i :: 0 <= i < |order| ==> ClipCopy(s2, ([c'] + cs)[i], clips[order[i]]) && NewClip(s2, ([c'] + cs)[i], st)
  {
    forall i | 0 <= i < |order|
      ensures ClipCopy(s2, ([c'] + cs)[i], clips[order[i]]) && NewClip(s2, ([c'] + cs)[i], st)
    {
      if i > 0 {
        assert order[1..][i - 1] == order[i] && ([c'] + cs)[i] == cs[i - 1];
        NewSince(s2, cs[i - 1], s1, st);
      } else {
        ClipCopyKept(s1, s2, c', clips[order[0]], st);
      }
    }
  }

  /** A clip new since a later store is new since an earlier one. */
  lemma NewSince(st': Store, copy: ObjId, s1: Store, st: Store)
    requires NewClip(st', copy, s1) && st.objects.Keys <= s1.objects.Keys
    ensures NewClip(st', copy, st)
  {
  }

  /** The map collecting `vals` under the keys in `keys`; a later key
      replaces an earlier one, as `collect` into a `HashMap` does. */
  function Collect<K, V>(keys: seq<K>, vals: seq<V>): (m: map<K, V>)
    requires |keys| == |vals|
    decreases |keys|
  {
    if |keys| == 0 then map[]
    else Collect(keys[..|keys| - 1], vals[..|vals| - 1])[keys[|keys| - 1] := vals[|vals| - 1]]
  }

  /** The collected keys are those of `keys`. */
  lemma {:induction false} CollectKeys<K, V>(keys: seq<K>, vals: seq<V>)
    requires |keys| == |vals|
    ensures forall n :: n in Collect(keys, vals) <==> n in keys
    decreases |keys|
  {
    if |keys| > 0 {
      var k := |keys| - 1;
      CollectKeys(keys[..k], vals[..k]);
      assert forall n :: n in keys <==> n in keys[..k] || n == keys[k];
    }
  }

  /** Each collected value is one of `vals`. */
  lemma {:induction false} CollectValues<K, V>(keys: seq<K>, vals: seq<V>)
    requires |keys| == |vals|
    ensures forall n :: n in Collect(keys, vals) ==> Collect(keys, vals)[n] in vals
    decreases |keys|
  {
    if |keys| > 0 {
      var k := |keys| - 1;
      CollectValues(keys[..k], vals[..k]);
      assert forall v :: v in vals[..k] ==> v in vals;
    }
  }

  /** A key maps to the value at its last position. */
  lemma {:induction false} CollectLast<K, V>(keys: seq<K>, vals: seq<V>, i: nat)
    requires |keys| == |vals| && i < |keys|
    requires forall j :: i < j < |keys| ==> keys[j] != keys[i]
    ensures keys[i] in Collect(keys, vals) && Collect(keys, vals)[keys[i]] == vals[i]
    decreases |keys|
  {
    var k := |keys| - 1;
    if i < k {
      assert keys[..k][i] == keys[i] && vals[..k][i] == vals[i];
      assert forall j :: i < j < k ==> keys[..k][j] == keys[j];
      CollectLast(keys[..k], vals[..k], i);
    }
  }

  /** `order` lists the names of `clips`, each once: the order in which
      the map's iteration visits them. */
  predicate IterationOrder<T>(m: map<Bytes, T>, order: seq<Bytes>) {
    && (forall n :: n in m ==> n in order)
    && (forall i :: 0 <= i < |order| ==> order[i] in m)
    && (forall i, j :: 0 <= i < j < |order| ==> order[i] != order[j])
  }

  /** `copies` holds, under each name of `clips`, a new copy of the clip
      of that name. */
  predicate ClipsCopied(s: Store, copies: map<Bytes, ObjId>, clips: map<Bytes, ObjId>, st: Store) {
    && copies.Keys == clips.Keys
    && forall n :: n in clips ==> ClipCopy(s, copies[n], clips[n]) && NewClip(s, copies[n], st)
  }

  /** Copies stay copies while the objects involved are left alone. */
  lemma ClipsCopiedKept(s: Store, s': Store, copies: map<Bytes, ObjId>, clips: map<Bytes, ObjId>, st: Store)
    requires ClipsCopied(s, copies, clips, st) && KeepsOthers(s, s', {})
    ensures ClipsCopied(s', copies, clips, st)
  {
    forall n | n in clips ensures ClipCopy(s', copies[n], clips[n]) && NewClip(s', copies[n], st) {
      ClipCopyKept(s, s', copies[n], clips[n], st);
    }
  }

  /** `copy_map(clips)`: a map with the same names, each holding a new
      copy of the clip of that name; the objects that were there are
      kept. */
  function CopyClips(st: Store, clips: map<Bytes, ObjId>, order: seq<Bytes>): (r: (Store, map<Bytes, ObjId>))
    requires Valid(st) && IterationOrder(clips, order)
    requires forall n :: n in clips ==> Is(st.objects, clips[n], KClip)
    ensures Valid(r.0) && Extends(st, r.0)
    ensures KeepsOthers(st, r.0, {}) && r.0.tables == st.tables
    ensures ClipsCopied(r.0, r.1, clips, st)
  {
    assert ClipsIn(st, clips, order);
    var (s, ids) := CopyClipsFrom(st, clips, order);
    CollectCopies(s, clips, order, ids, st);
    (s, Collect(order, ids))
  }

  /** The collected copies are copies by name. */
  lemma CollectCopies(s: Store, clips: map<Bytes, ObjId>, order: seq<Bytes>, ids: seq<ObjId>, st: Store)
    requires IterationOrder(clips, order) && |ids| == |order|
    requires forall i :: 0 <= i < |order| ==> ClipCopy(s, ids[i], clips[order[i]]) && NewClip(s, ids[i], st)
    ensures ClipsCopied(s, Collect(order, ids), clips, st)
  {
    CollectKeys(order, ids);
    var m := Collect(order, ids);
    forall n | n in clips ensures ClipCopy(s, m[n], clips[n]) && NewClip(s, m[n], st) {
      var i :| 0 <= i < |order| && order[i] == n;
      CollectLast(order, ids, i);
    }
  }

  // ---------------------------------------------------------------------
  // create_params
  // ---------------------------------------------------------------------

  /** The name of a descriptor: `get_type::<String>(PropName, 0).unwrap()`,
      which panics when the name is missing, not a string, or not UTF-8. */
  function DescriptorName(m: P.PropertyMap): (r: Result<Bytes, Failure>)
    ensures r.Ok? <==> PropName in m && |m[PropName]| > 0 && m[PropName][0].String? && ValidUtf8(m[PropName][0].s.Content())
    ensures r.Ok? ==> r.value == m[PropName][0].s.Content()
    ensures r.Err? ==> r.error.Panic?
  {
    match P.GetType(m, PropName, 0, P.AsRustString)
    case Err(f) => Err(f)
    case Ok(None) => Err(UnwrapNone)
    case Ok(Some(name)) => Ok(name)
  }

  /** What `create_params` reads from one descriptor, the name first:
      its name and its value, or the panic of the first that is
      missing. */
  function Describe(d: PSet): (r: Result<(Bytes, Params.ParamValue), Failure>)
    ensures r.Ok? <==> DescriptorName(d.values).Ok? && Params.FromDescriptor(d.values).Ok?
    ensures r.Ok? ==> r.value == (DescriptorName(d.values).value, Params.FromDescriptor(d.values).value)
    ensures DescriptorName(d.values).Err? ==> r == Err(DescriptorName(d.values).error)
    ensures DescriptorName(d.values).Ok? && Params.FromDescriptor(d.values).Err? ==>
      r == Err(Params.FromDescriptor(d.values).error)
  {
    match DescriptorName(d.values)
    case Err(f) => Err(f)
    case Ok(name) =>
      match Params.FromDescriptor(d.values)
      case Err(f) => Err(f)
      case Ok(v) => Ok((name, v))
  }

  /** The parameter at `id` is new since `st`, holds the value `v`, and
      its property set is a new copy of the descriptor `d`. */
  predicate MadeParam(st': Store, id: ObjId, d: PSet, v: Params.ParamValue, st: Store) {
    && id !in st.objects && Is(st'.objects, id, KParam)
    && var p := st'.objects[id].param;
    && p.value == v
    && p.properties !in st.objects && Is(st'.objects, p.properties, KPropertySet)
    && PSetAt(st', p.properties) == d
  }

  /** `Param::from_descriptor(props).into_object()` for a value already
      read: a copy of the descriptor's property set, then the parameter. */
  function MakeParam(st: Store, d: PSet, v: Params.ParamValue): (r: (Store, ObjId))
    requires Valid(st)
    ensures Valid(r.0) && Extends(st, r.0) && KeepsOthers(st, r.0, {}) && r.0.tables == st.tables
    ensures MadeParam(r.0, r.1, d, v, st)
  {
    var (s1, props) := NewPropertySet(st, d.name, d.values);
    var (s2, id) := Add(s1, ParamObject(ParamObj(v, props)));
    ExtendsTransitive(st, s1, s2);
    (s2, id)
  }

  /** A parameter made stays made while the objects involved are left
      alone. */
  lemma MadeParamKept(st: Store, st': Store, id: ObjId, d: PSet, v: Params.ParamValue, st0: Store)
    requires MadeParam(st, id, d, v, st0) && KeepsOthers(st, st', {})
    ensures MadeParam(st', id, d, v, st0)
  {
    assert st.objects[id].param.properties in st.objects;
  }

  /** The parameters made from the descriptors and their values, in
      order. */
  function MakeParams(st: Store, ds: seq<PSet>, vs: seq<Params.ParamValue>): (r: (Store, seq<ObjId>))
    requires Valid(st) && |vs| == |ds|
    ensures Valid(r.0) && Extends(st, r.0) && KeepsOthers(st, r.0, {}) && r.0.tables == st.tables
    ensures |r.1| == |ds|
    ensures forall i :: 0 <= i < |ds| ==> MadeParam(r.0, r.1[i], ds[i], vs[i], st)
    decreases |ds|
  {
    if |ds| == 0 then (st, [])
    else
      var (s1, id) := MakeParam(st, ds[0], vs[0]);
      var (s2, ids) := MakeParams(s1, ds[1..], vs[1..]);
      ExtendsTransitive(st, s1, s2);
      KeepsOthersTransitive(st, s1, s2);
      ParamsStep(st, s1, s2, ds, vs, id, ids);
      (s2, [id] + ids)
  }

  /** The step of `MakeParams`: the first parameter and the parameters of
      the rest make the parameters of all. */
  lemma ParamsStep(st: Store, s1: Store, s2: Store, ds: seq<PSet>, vs: seq<Params.ParamValue>, id: ObjId, ids: seq<ObjId>)
    requires |ds| > 0 && |vs| == |ds| && |ids| == |ds| - 1
    requires MadeParam(s1, id, ds[0], vs[0], st)
    requires st.objects.Keys <= s1.objects.Keys && KeepsOthers(s1, s2, {})
    requires forall i :: 0 <= i < |ds[1..]| ==> MadeParam(s2, ids[i], ds[1..][i], vs[1..][i], s1)
    ensures forall i :: 0 <= i < |ds| ==> MadeParam(s2, ([id] + ids)[i], ds[i], vs[i], st)
  {
    forall i | 0 <= i < |ds|
      ensures MadeParam(s2, ([id] + ids)[i], ds[i], vs[i], st)
    {
      if i > 0 {
        assert ds[1..][i - 1] == ds[i] && vs[1..][i - 1] == vs[i] && ([id] + ids)[i] == ids[i - 1];
        assert MadeParam(s2, ids[i - 1], ds[i], vs[i], s1);
      } else {
        MadeParamKept(s1, s2, id, ds[0], vs[0], st);
      }
    }
  }

  /** The descriptors' property sets, as `create_params` reads them. */
  function DescriptorSets(st: Store, descriptors: seq<ObjId>): (ds: seq<PSet>)
    requires forall i :: 0 <= i < |descriptors| ==> Is(st.objects, descriptors[i], KPropertySet)
    ensures |ds| == |descriptors| && forall i :: 0 <= i < |ds| ==> ds[i] == PSetAt(st, descriptors[i])
  {
    seq(|descriptors|, i requires 0 <= i < |descriptors| => PSetAt(st, descriptors[i]))
  }

  /** The descriptor at `i` is the last one named `n`. */
  predicate LastNamed(dvs: seq<(Bytes, Params.ParamValue)>, i: int, n: Bytes) {
    0 <= i < |dvs| && dvs[i].0 == n && forall j :: i < j < |dvs| ==> dvs[j].0 != n
  }

  /** The parameters `params` were made from the descriptors `ds`, whose
      names and values are `dvs`: one per name, from the last descriptor
      of that name. */
  predicate ParamsMade(s: Store, params: map<Bytes, ObjId>, ds: seq<PSet>, dvs: seq<(Bytes, Params.ParamValue)>, st: Store)
    requires |dvs| == |ds|
  {
    && (forall n :: n in params ==> exists i :: 0 <= i < |dvs| && dvs[i].0 == n)
    && (forall i :: 0 <= i < |dvs| ==> dvs[i].0 in params)
    && (forall n :: n in params ==> Is(s.objects, params[n], KParam))
    && (forall i :: 0 <= i < |dvs| && LastNamed(dvs, i, dvs[i].0) ==>
          MadeParam(s, params[dvs[i].0], ds[i], dvs[i].1, st))
  }

  /** Parameters made stay made while the objects involved are left
      alone. */
  lemma ParamsMadeKept(s: Store, s': Store, params: map<Bytes, ObjId>, ds: seq<PSet>, dvs: seq<(Bytes, Params.ParamValue)>, st: Store)
    requires |dvs| == |ds| && ParamsMade(s, params, ds, dvs, st) && KeepsOthers(s, s', {})
    ensures ParamsMade(s', params, ds, dvs, st)
  {
    forall n | n in params ensures Is(s'.objects, params[n], KParam) {
      assert params[n] in s.objects;
    }
    forall i | 0 <= i < |dvs| && LastNamed(dvs, i, dvs[i].0)
      ensures MadeParam(s', params[dvs[i].0], ds[i], dvs[i].1, st)
    {
      MadeParamKept(s, s', params[dvs[i].0], ds[i], dvs[i].1, st);
    }
  }

  /** Parameters new since a later store are new since an earlier one,
      and stay made while the objects involved are left alone. */
  lemma ParamsMadeSince(s: Store, s': Store, params: map<Bytes, ObjId>, ds: seq<PSet>, dvs: seq<(Bytes, Params.ParamValue)>, s0: Store, st: Store)
    requires |dvs| == |ds| && ParamsMade(s, params, ds, dvs, s0) && KeepsOthers(s, s', {})
    requires st.objects.Keys <= s0.objects.Keys
    ensures ParamsMade(s', params, ds, dvs, st)
  {
    forall n | n in params ensures Is(s'.objects, params[n], KParam) {
      assert params[n] in s.objects;
    }
    forall i | 0 <= i < |dvs| && LastNamed(dvs, i, dvs[i].0)
      ensures MadeParam(s', params[dvs[i].0], ds[i], dvs[i].1, st)
    {
      MadeParamKept(s, s', params[dvs[i].0], ds[i], dvs[i].1, s0);
    }
  }

  /** The parameters made from descriptors `ds` with names and values
      `dvs`, collected by name: the last descriptor of each name gives
      the parameter of that name. */
  function BuildParams(st: Store, ds: seq<PSet>, dvs: seq<(Bytes, Params.ParamValue)>): (r: (Store, map<Bytes, ObjId>))
    requires Valid(st) && |dvs| == |ds|
    ensures Valid(r.0) && Extends(st, r.0) && KeepsOthers(st, r.0, {}) && r.0.tables == st.tables
    ensures ParamsMade(r.0, r.1, ds, dvs, st)
  {
    var names := seq(|dvs|, i requires 0 <= i < |dvs| => dvs[i].0);
    var vs := seq(|dvs|, i requires 0 <= i < |dvs| => dvs[i].1);
    var (s, ids) := MakeParams(st, ds, vs);
    CollectParams(s, st, ds, dvs, names, vs, ids);
    (s, Collect(names, ids))
  }

  /** `create_params`: one parameter per descriptor, made from it,
      collected under the descriptor's name; a later descriptor of the
      same name replaces the parameter of an earlier one. Reading the
      descriptors panics at the first without a name or a value. */
  function CreateParams(st: Store, descriptors: seq<ObjId>): (r: Result<(Store, map<Bytes, ObjId>), Failure>)
    requires Valid(st) && forall i :: 0 <= i < |descriptors| ==> Is(st.objects, descriptors[i], KPropertySet)
    ensures var read := MapResult(DescriptorSets(st, descriptors), Describe);
      && (r.Ok? <==> read.Ok?)
      && (r.Err? ==> r.error == read.error)
      && (r.Ok? ==> r.value == BuildParams(st, DescriptorSets(st, descriptors), read.value))
  {
    var ds := DescriptorSets(st, descriptors);
    match MapResult(ds, Describe)
    case Err(f) => Err(f)
    case Ok(dvs) => Ok(BuildParams(st, ds, dvs))
  }

  /** The collected parameters are the last made under each name. */
  lemma CollectParams(s: Store, st: Store, ds: seq<PSet>, dvs: seq<(Bytes, Params.ParamValue)>,
                      names: seq<Bytes>, vs: seq<Params.ParamValue>, ids: seq<ObjId>)
    requires |dvs| == |ds| && |names| == |ds| && |vs| == |ds| && |ids| == |ds|
    requires forall i :: 0 <= i < |ds| ==> names[i] == dvs[i].0 && vs[i] == dvs[i].1
    requires forall i :: 0 <= i < |ds| ==> MadeParam(s, ids[i], ds[i], vs[i], st)
    ensures ParamsMade(s, Collect(names, ids), ds, dvs, st)
  {
    CollectKeys(names, ids);
    CollectValues(names, ids);
    var params := Collect(names, ids);
    forall n | n in params ensures exists i :: 0 <= i < |dvs| && dvs[i].0 == n {
      var i :| 0 <= i < |names| && names[i] == n;
      assert dvs[i].0 == n;
    }
    forall i | 0 <= i < |dvs| ensures dvs[i].0 in params {
      assert names[i] == dvs[i].0;
    }
    forall n | n in params ensures Is(s.objects, params[n], KParam) {
      var j :| 0 <= j < |ids| && ids[j] == params[n];
    }
    forall i | 0 <= i < |dvs| && LastNamed(dvs, i, dvs[i].0)
      ensures MadeParam(s, params[dvs[i].0], ds[i], dvs[i].1, st)
    {
      assert forall j :: i < j < |names| ==> names[j] != names[i];
      CollectLast(names, ids, i);
    }
  }

  // ---------------------------------------------------------------------
  // create_instance
  // ---------------------------------------------------------------------

  /** The properties `create_instance` gives a new instance: its context,
      the descriptor's file path, 24 frames per second, square pixels and
      a duration of one frame. */
  function InstancePairs(context: P.PropertyValue, filePath: seq<P.PropertyValue>): P.Pairs {
    [ (ImageEffectPropContext, [context]),
      (PluginPropFilePath, filePath),
      (ImageEffectPropFrameRate, [P.Double(24.0)]),
      (ImagePropPixelAspectRatio, [P.Double(1.0)]),
      (ImageEffectInstancePropEffectDuration, [P.Double(1.0)]) ]
  }

  function InstanceProperties(context: P.PropertyValue, filePath: seq<P.PropertyValue>): P.PropertyMap {
    map[ImageEffectPropContext := [context],
        PluginPropFilePath := filePath,
        ImageEffectPropFrameRate := [P.Double(24.0)],
        ImagePropPixelAspectRatio := [P.Double(1.0)],
        ImageEffectInstancePropEffectDuration := [P.Double(1.0)]]
  }

  /** Inserting the five pairs in order gives exactly those five
      properties. */
  lemma InstancePairsDescribe(context: P.PropertyValue, filePath: seq<P.PropertyValue>)
    ensures P.FromPairs(InstancePairs(context, filePath)) == InstanceProperties(context, filePath)
  {
    var init := InstancePairs(context, filePath);
    assert P.FromPairs(init[..1]) == map[ImageEffectPropContext := [context]] by {
      assert P.FromPairs(init[..1][..0]) == map[];
    }
    assert P.FromPairs(init[..2]) == P.FromPairs(init[..1])[PluginPropFilePath := filePath] by {
      assert init[..2][..1] == init[..1];
    }
    assert P.FromPairs(init[..3]) == P.FromPairs(init[..2])[ImageEffectPropFrameRate := [P.Double(24.0)]] by {
      assert init[..3][..2] == init[..2];
    }
    assert P.FromPairs(init[..4]) == P.FromPairs(init[..3])[ImagePropPixelAspectRatio := [P.Double(1.0)]] by {
      assert init[..4][..3] == init[..3];
    }
    assert P.FromPairs(init) == P.FromPairs(init[..4])[ImageEffectInstancePropEffectDuration := [P.Double(1.0)]] by {
      assert init[..4] == init[..|init| - 1];
    }
  }

  /** Every descriptor is a property set. */
  predicate DescriptorsIn(st: Store, descriptors: seq<ObjId>) {
    forall i :: 0 <= i < |descriptors| ==> Is(st.objects, descriptors[i], KPropertySet)
  }

  /** Descriptors that were there read the same after a change that keeps
      the old objects. */
  lemma DescriptorSetsKept(st: Store, s: Store, descriptors: seq<ObjId>)
    requires DescriptorsIn(st, descriptors) && KeepsOthers(st, s, {})
    ensures DescriptorsIn(s, descriptors)
    ensures DescriptorSets(s, descriptors) == DescriptorSets(st, descriptors)
  {
    forall i | 0 <= i < |descriptors| ensures Is(s.objects, descriptors[i], KPropertySet) && PSetAt(s, descriptors[i]) == PSetAt(st, descriptors[i]) {
      assert descriptors[i] in st.objects;
    }
  }

  /** The effect at `id` is an instance of the descriptor `e` in
      `context`, new since `st`: it has the default message suite
      responses, new copies of the descriptor's clips, a new property set
      named "instance" with the instance properties, and a new parameter
      set that shares the descriptor's descriptors, has a new empty
      unnamed property set, and holds the parameters made from the
      descriptors. */
  predicate InstanceOf(s: Store, id: ObjId, st: Store, e: EffectObj, context: Bytes, filePath: seq<P.PropertyValue>,
                       descriptors: seq<ObjId>, ds: seq<PSet>, dvs: seq<(Bytes, Params.ParamValue)>)
    requires |dvs| == |ds|
  {
    && id !in st.objects && Is(s.objects, id, KImageEffect)
    && var i := s.objects[id].effect;
    && i.messageSuiteResponses == DefaultMessageSuiteResponses
    && ClipsCopied(s, i.clips, e.clips, st)
    && i.properties !in st.objects && Is(s.objects, i.properties, KPropertySet)
    && PSetAt(s, i.properties) == PSet("instance", InstanceProperties(P.Str(context), filePath))
    && i.paramSet !in st.objects && Is(s.objects, i.paramSet, KParamSet)
    && var ps := s.objects[i.paramSet].paramSet;
    && ps.descriptors == descriptors
    && ps.properties !in st.objects && Is(s.objects, ps.properties, KPropertySet)
    && PSetAt(s, ps.properties) == PSet("", map[])
    && ParamsMade(s, ps.params, ds, dvs, st)
  }

  /** The descriptors of an effect's parameter set. */
  function EffectDescriptors(st: Store, e: EffectObj): seq<ObjId>
    requires Is(st.objects, e.paramSet, KParamSet)
  {
    st.objects[e.paramSet].paramSet.descriptors
  }

  /** The property sets of `create_instance`: the instance's, with the
      context and the descriptor's file path, then the parameter set's
      unnamed empty one. */
  function InstanceSets(st: Store, context: Bytes, filePath: seq<P.PropertyValue>): (r: (Store, ObjId, ObjId))
    requires Valid(st)
    ensures var (s, props, psProps) := r;
      && Valid(s) && Extends(st, s) && KeepsOthers(st, s, {}) && s.tables == st.tables
      && props !in st.objects && psProps !in st.objects
      && s.objects == st.objects[props := PropSetObject(PSet("instance", InstanceProperties(P.Str(context), filePath)))]
                                [psProps := PropSetObject(PSet("", map[]))]
  {
    InstancePairsDescribe(P.Str(context), filePath);
    var (s1, props) := NewPropertySet(st, "instance", P.FromPairs(InstancePairs(P.Str(context), filePath)));
    var (s2, psProps) := NewPropertySet(s1, "", map[]);
    ExtendsTransitive(st, s1, s2);
    (s2, props, psProps)
  }

  /** The first part of `create_instance`, once the context and the file
      path are known to be good: copies of the descriptor's clips, then
      the property sets. */
  function InstanceParts(st: Store, e: EffectObj, context: Bytes, filePath: seq<P.PropertyValue>, clipOrder: seq<Bytes>): (r: (Store, map<Bytes, ObjId>, ObjId, ObjId))
    requires Valid(st) && Refs(EffectObject(e), st.objects) && IterationOrder(e.clips, clipOrder)
    ensures var (s, clips, props, psProps) := r;
      && Valid(s) && Extends(st, s) && KeepsOthers(st, s, {}) && s.tables == st.tables
      && ClipsCopied(s, clips, e.clips, st)
      && props !in st.objects && Is(s.objects, props, KPropertySet)
      && PSetAt(s, props) == PSet("instance", InstanceProperties(P.Str(context), filePath))
      && psProps !in st.objects && Is(s.objects, psProps, KPropertySet)
      && PSetAt(s, psProps) == PSet("", map[])
  {
    var (s1, clips) := CopyClips(st, e.clips, clipOrder);
    var (s3, props, psProps) := InstanceSets(s1, context, filePath);
    ExtendsTransitive(st, s1, s3);
    KeepsOthersTransitive(st, s1, s3);
    ClipsCopiedKept(s1, s3, clips, e.clips, st);
    (s3, clips, props, psProps)
  }

  /** The last part of `create_instance(..).into_object()`: the parameter
      set, then the effect holding it. */
  function AssembleInstance(st: Store, props: ObjId, psProps: ObjId, descriptors: seq<ObjId>,
                            params: map<Bytes, ObjId>, clips: map<Bytes, ObjId>): (r: (Store, ObjId))
    requires Valid(st) && Is(st.objects, props, KPropertySet)
    requires Refs(ParamSetObject(ParamSetObj(psProps, descriptors, params)), st.objects)
    requires forall n :: n in clips ==> Is(st.objects, clips[n], KClip)
    ensures Valid(r.0) && Extends(st, r.0) && KeepsOthers(st, r.0, {}) && r.0.tables == st.tables
    ensures r.1 !in st.objects && Is(r.0.objects, r.1, KImageEffect)
    ensures var e := r.0.objects[r.1].effect;
      && e == EffectObj(props, e.paramSet, clips, DefaultMessageSuiteResponses)
      && e.paramSet !in st.objects && Is(r.0.objects, e.paramSet, KParamSet)
      && r.0.objects[e.paramSet].paramSet == ParamSetObj(psProps, descriptors, params)
  {
    var (s1, ps) := Add(st, ParamSetObject(ParamSetObj(psProps, descriptors, params)));
    var o := EffectObject(EffectObj(props, ps, clips, DefaultMessageSuiteResponses));
    ClipsGrow(st.objects, s1.objects, clips);
    var (s2, id) := Add(s1, o);
    ExtendsTransitive(st, s1, s2);
    (s2, id)
  }

  /** Clips that were there are there in a larger store. */
  lemma ClipsGrow(objects: map<ObjId, Object>, objects': map<ObjId, Object>, clips: map<Bytes, ObjId>)
    requires forall n :: n in clips ==> Is(objects, clips[n], KClip)
    requires forall id :: id in objects ==> id in objects' && objects'[id] == objects[id]
    ensures forall n :: n in clips ==> Is(objects', clips[n], KClip)
  {
    forall n | n in clips ensures Is(objects', clips[n], KClip) {
      assert clips[n] in objects;
    }
  }

  /** `create_instance(descriptor, context).into_object()`: the instance
      of the descriptor `descriptor` in `context`. It panics when the
      context holds a NUL, when the descriptor has no file path, and when
      a parameter descriptor has no name or no value. The defaults that
      are built and dropped at once are not allocated here. */
  function CreateInstance(st: Store, descriptor: ObjId, context: Bytes, clipOrder: seq<Bytes>): (r: Result<(Store, ObjId), Failure>)
    requires Valid(st) && Is(st.objects, descriptor, KImageEffect)
    requires IterationOrder(st.objects[descriptor].effect.clips, clipOrder)
    ensures var e := st.objects[descriptor].effect;
      && Is(st.objects, e.properties, KPropertySet) && Is(st.objects, e.paramSet, KParamSet)
      && var fp := PSetAt(st, e.properties).values;
      && var descriptors := EffectDescriptors(st, e);
      && DescriptorsIn(st, descriptors)
      && var ds := DescriptorSets(st, descriptors);
      && var read := MapResult(ds, Describe);
      && (NUL in context ==> r == Err(P.OfRustStr(context).error))
      && (NUL !in context && PluginPropFilePath !in fp ==> r == Err(UnwrapNone))
      && (NUL !in context && PluginPropFilePath in fp ==>
            (r.Ok? <==> read.Ok?) && (r.Err? ==> r.error == read.error))
      && (r.Ok? ==>
            && Valid(r.value.0) && Extends(st, r.value.0) && KeepsOthers(st, r.value.0, {})
            && r.value.0.tables == st.tables
            && InstanceOf(r.value.0, r.value.1, st, e, context, fp[PluginPropFilePath], descriptors, ds, read.value))
  {
    var e := st.objects[descriptor].effect;
    assert Refs(st.objects[descriptor], st.objects);
    assert Refs(st.objects[e.paramSet], st.objects);
    var descriptors := EffectDescriptors(st, e);
    var fp := PSetAt(st, e.properties).values;
    if NUL in context then Err(P.OfRustStr(context).error)
    else if PluginPropFilePath !in fp then Err(UnwrapNone)
    else
      var (s3, clips, props, psProps) := InstanceParts(st, e, context, fp[PluginPropFilePath], clipOrder);
      DescriptorSetsKept(st, s3, descriptors);
      match CreateParams(s3, descriptors)
      case Err(f) => Err(f)
      case Ok((s4, params)) =>
        var ds := DescriptorSets(st, descriptors);
        var dvs := MapResult(ds, Describe).value;
        InstanceReady(st, s3, s4, e, props, psProps, descriptors, params, clips, ds, dvs);
        var (s6, id) := AssembleInstance(s4, props, psProps, descriptors, params, clips);
        InstanceAssembled(st, s3, s4, s6, id, e, context, fp[PluginPropFilePath],
                          props, psProps, descriptors, params, clips, ds, dvs);
        ExtendsTransitive(st, s3, s4);
        ExtendsTransitive(st, s4, s6);
        KeepsOthersTransitive(st, s3, s4);
        KeepsOthersTransitive(st, s4, s6);
        Ok((s6, id))
  }

  /** After the parameters are made, the parts of the instance are all
      still there, ready to be assembled. */
  lemma InstanceReady(st: Store, s3: Store, s4: Store, e: EffectObj, props: ObjId, psProps: ObjId,
                      descriptors: seq<ObjId>, params: map<Bytes, ObjId>, clips: map<Bytes, ObjId>,
                      ds: seq<PSet>, dvs: seq<(Bytes, Params.ParamValue)>)
    requires |dvs| == |ds| && DescriptorsIn(s3, descriptors) && KeepsOthers(s3, s4, {})
    requires ParamsMade(s4, params, ds, dvs, s3)
    requires Is(s3.objects, props, KPropertySet) && Is(s3.objects, psProps, KPropertySet)
    requires ClipsCopied(s3, clips, e.clips, st)
    ensures Is(s4.objects, props, KPropertySet)
    ensures Refs(ParamSetObject(ParamSetObj(psProps, descriptors, params)), s4.objects)
    ensures forall n :: n in clips ==> Is(s4.objects, clips[n], KClip)
  {
    assert props in s3.objects && psProps in s3.objects;
    forall i | 0 <= i < |descriptors| ensures Is(s4.objects, descriptors[i], KPropertySet) {
      assert descriptors[i] in s3.objects;
    }
    forall n | n in clips ensures Is(s4.objects, clips[n], KClip) {
      assert n in e.clips;
      assert clips[n] in s3.objects;
    }
  }

  /** The assembled effect is the instance. */
  lemma InstanceAssembled(st: Store, s3: Store, s4: Store, s6: Store, id: ObjId, e: EffectObj, context: Bytes,
                          fp: seq<P.PropertyValue>, props: ObjId, psProps: ObjId, descriptors: seq<ObjId>,
                          params: map<Bytes, ObjId>, clips: map<Bytes, ObjId>,
                          ds: seq<PSet>, dvs: seq<(Bytes, Params.ParamValue)>)
    requires |dvs| == |ds|
    requires st.objects.Keys <= s3.objects.Keys <= s4.objects.Keys
    requires KeepsOthers(s3, s4, {}) && KeepsOthers(s4, s6, {})
    requires ClipsCopied(s3, clips, e.clips, st)
    requires props !in st.objects && Is(s3.objects, props, KPropertySet)
    requires PSetAt(s3, props) == PSet("instance", InstanceProperties(P.Str(context), fp))
    requires psProps !in st.objects && Is(s3.objects, psProps, KPropertySet)
    requires PSetAt(s3, psProps) == PSet("", map[])
    requires ParamsMade(s4, params, ds, dvs, s3)
    requires id !in s4.objects && Is(s6.objects, id, KImageEffect)
    requires var i := s6.objects[id].effect;
      && i == EffectObj(props, i.paramSet, clips, DefaultMessageSuiteResponses)
      && i.paramSet !in s4.objects && Is(s6.objects, i.paramSet, KParamSet)
      && s6.objects[i.paramSet].paramSet == ParamSetObj(psProps, descriptors, params)
    ensures InstanceOf(s6, id, st, e, context, fp, descriptors, ds, dvs)
  {
    KeepsOthersTransitive(s3, s4, s6);
    ClipsCopiedKept(s3, s6, clips, e.clips, st);
    ParamsMadeSince(s4, s6, params, ds, dvs, s3, st);
    assert props in s3.objects && psProps in s3.objects;
  }
}
