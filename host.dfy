/** The host's objects and its handle tables (src/main.rs, src/handles.rs).
    Every object that crosses the API boundary is an `Object<T>`, an
    `Arc<Mutex<T>>`; its address is its identity and its handle. A `Store`
    is the state of all of them at one moment: the objects of each kind by
    address, the addresses whose allocation still has an owner, and the
    table of the static `HandleManager` of each kind, as `impl_handle!`
    gives each kind its own manager.

    The allocator never reuses an address: a handle table keeps a `Weak`
    to everything it has issued, which keeps the allocation itself. */
module Host {
  import opened Machine
  import opened Status
  import opened Wrappers
  import opened Geometry
  import opened Handles
  import opened Images
  import P = Properties
  import Params

  /** The five handle kinds of `impl_handle!`. */
  datatype Kind = KImageEffect | KParamSet | KPropertySet | KClip | KParam

  /** `PropertySet`: a debug name and its property map. */
  datatype PSet = PSet(name: Bytes, values: P.PropertyMap)

  /** `ParamSet`: its properties, the descriptors defined by `paramDefine`
      in order, and the instance parameters by name. */
  datatype ParamSetObj = ParamSetObj(properties: ObjId, descriptors: seq<ObjId>, params: map<Bytes, ObjId>)

  /** `Param`: the current value and the parameter's properties. */
  datatype ParamObj = ParamObj(value: Params.ParamValue, properties: ObjId)

  /** `Clip`. */
  datatype ClipObj = ClipObj(name: Bytes, properties: ObjId, images: ClipImages,
                             regionOfDefinition: Option<RectD>)

  /** `ImageEffect`: a plugin descriptor or an instance. The message suite
      responses are stored last-first. */
  datatype EffectObj = EffectObj(properties: ObjId, paramSet: ObjId, clips: map<Bytes, ObjId>,
                                 messageSuiteResponses: seq<OfxStatus>)

  const DefaultMessageSuiteResponses: seq<OfxStatus> := [ReplyYes, ReplyNo]

  /** An object of one of the five kinds. */
  datatype Object =
    | PropSetObject(ps: PSet)
    | ParamSetObject(paramSet: ParamSetObj)
    | ClipObject(clip: ClipObj)
    | EffectObject(effect: EffectObj)
    | ParamObject(param: ParamObj)

  function KindOf(o: Object): Kind {
    match o
    case PropSetObject(_) => KPropertySet
    case ParamSetObject(_) => KParamSet
    case ClipObject(_) => KClip
    case EffectObject(_) => KImageEffect
    case ParamObject(_) => KParam
  }

  datatype Store = Store(
    nextId: nat,
    live: set<ObjId>,
    objects: map<ObjId, Object>,
    tables: map<Kind, map<Handle, ObjId>>)

  /** The state before anything is created: `HandleManager::new` for each
      kind, and the first address after null. */
  const EmptyStore: Store := Store(1, {}, map[], map[])

  // ---------------------------------------------------------------------
  // The invariant
  // ---------------------------------------------------------------------

  /** `id` is the address of an object of kind `k`. */
  predicate Is(objects: map<ObjId, Object>, id: ObjId, k: Kind) {
    id in objects && KindOf(objects[id]) == k
  }

  /** The property sets of a clip's images exist. */
  predicate ImagesIn(images: ClipImages, objects: map<ObjId, Object>) {
    match images
    case NoImage => true
    case Static(image) => Is(objects, image.properties, KPropertySet)
    case Sequence(frames) => forall f :: f in frames ==> Is(objects, frames[f].properties, KPropertySet)
  }

  /** Every reference an object holds is to an object of the right kind. */
  predicate Refs(o: Object, objects: map<ObjId, Object>) {
    match o
    case PropSetObject(_) => true
    case ParamSetObject(s) =>
      && Is(objects, s.properties, KPropertySet)
      && (forall i :: 0 <= i < |s.descriptors| ==> Is(objects, s.descriptors[i], KPropertySet))
      && (forall n :: n in s.params ==> Is(objects, s.params[n], KParam))
    case ClipObject(c) => Is(objects, c.properties, KPropertySet) && ImagesIn(c.images, objects)
    case EffectObject(e) =>
      && Is(objects, e.properties, KPropertySet) && Is(objects, e.paramSet, KParamSet)
      && (forall n :: n in e.clips ==> Is(objects, e.clips[n], KClip))
    case ParamObject(p) => Is(objects, p.properties, KPropertySet)
  }

  /** A handle table whose handles are the addresses of objects of kind
      `k`. */
  predicate IssuedFor(table: map<Handle, ObjId>, objects: map<ObjId, Object>, k: Kind) {
    forall h :: h in table ==> table[h] == h && Is(objects, h, k)
  }

  /** The allocator's part of the invariant: objects sit at non-null
      addresses below the allocator's next one, owned addresses hold
      objects, and objects refer only to objects of the right kind. */
  predicate ObjectsValid(nextId: nat, live: set<ObjId>, objects: map<ObjId, Object>) {
    && nextId > 0
    && (forall id :: id in objects ==> 0 < id < nextId)
    && (forall id :: id in live ==> id in objects)
    && (forall id {:trigger Refs(objects[id], objects)} :: id in objects ==> Refs(objects[id], objects))
  }

  /** The managers' part: each has issued handles only for objects of its
      kind, each handle being the object's address. */
  predicate TablesValid(st: Store) {
    forall k :: IssuedFor(TableOf(st, k), st.objects, k)
  }

  /** What every reachable store satisfies. */
  predicate Valid(st: Store) {
    ObjectsValid(st.nextId, st.live, st.objects) && TablesValid(st)
  }

  /** The allocator's part of a later state: it has only moved forward,
      every object is still there with its kind, and an object whose last
      owner is gone is never owned again. */
  predicate ObjectsExtend(st: Store, st': Store) {
    && st.nextId <= st'.nextId
    && (forall id :: id in st.objects ==> id in st'.objects && KindOf(st'.objects[id]) == KindOf(st.objects[id]))
    && (forall id :: id in st.objects && id !in st.live ==> id !in st'.live)
  }

  /** The managers' part: every issued handle is still issued. */
  predicate TablesExtend(st: Store, st': Store) {
    forall k :: TableOf(st, k).Keys <= TableOf(st', k).Keys
  }

  /** A later state of the host. */
  predicate Extends(st: Store, st': Store) {
    ObjectsExtend(st, st') && TablesExtend(st, st')
  }

  lemma EmptyStoreValid()
    ensures Valid(EmptyStore)
  {
  }

  lemma ExtendsTransitive(a: Store, b: Store, c: Store)
    requires Extends(a, b) && Extends(b, c)
    ensures Extends(a, c)
  {
  }

  // ---------------------------------------------------------------------
  // Handles
  // ---------------------------------------------------------------------

  /** The table of the manager of kind `k`. */
  function TableOf(st: Store, k: Kind): map<Handle, ObjId> {
    if k in st.tables then st.tables[k] else map[]
  }

  /** `Handle::as_arc` through the manager of kind `k`. */
  function Resolve(st: Store, k: Kind, h: Handle): (r: Result<ObjId, ResolveError>)
    requires Valid(st)
    ensures r.Ok? ==> r.value == h && Is(st.objects, h, k) && h in st.live
    ensures r == Err(BadHandle) <==> h !in TableOf(st, k)
    ensures r == Err(Deallocated) <==> h in TableOf(st, k) && h !in st.live
  {
    AsArc(TableOf(st, k), st.live, h)
  }

  /** A handle issued by one kind's manager is unknown to every other
      kind's manager. */
  lemma KindSeparation(st: Store, k1: Kind, k2: Kind, h: Handle)
    requires Valid(st) && k1 != k2 && h in TableOf(st, k1)
    ensures Resolve(st, k2, h) == Err(BadHandle)
  {
    assert Is(st.objects, h, k1);
  }

  /** A handle that was issued stays issued, and while its object is
      owned it resolves to the same object. */
  lemma ResolveStable(st: Store, st': Store, k: Kind, h: Handle)
    requires Valid(st) && Valid(st') && Extends(st, st')
    requires h in TableOf(st, k)
    ensures Resolve(st', k, h) != Err(BadHandle)
    ensures h in st'.live ==> Resolve(st', k, h) == Ok(h)
  {
    assert h in TableOf(st, k).Keys;
  }

  /** A handle whose object has been dropped never resolves again. */
  lemma DeadStaysDead(st: Store, st': Store, k: Kind, h: Handle)
    requires Valid(st) && Valid(st') && Extends(st, st')
    requires Resolve(st, k, h) == Err(Deallocated)
    ensures Resolve(st', k, h) == Err(Deallocated)
  {
    assert h in TableOf(st, k).Keys;
  }

  /** `From<Object<T>> for Handle`: `get_handle` on the manager of kind
      `k`, which records the object's address as its handle. */
  function Issue(st: Store, k: Kind, id: ObjId): (r: Store)
    requires Valid(st) && Is(st.objects, id, k)
    ensures Valid(r) && Extends(st, r)
    ensures TableOf(r, k) == TableOf(st, k)[id := id]
    ensures r.tables == st.tables[k := TableOf(st, k)[id := id]]
    ensures r.live == st.live && r.objects == st.objects && r.nextId == st.nextId
    ensures Resolve(r, k, id) == if id in st.live then Ok(id) else Err(Deallocated)
  {
    var r := st.(tables := st.tables[k := TableOf(st, k)[id := id]]);
    assert TablesValid(r) && TablesExtend(st, r) by {
      forall k2 ensures IssuedFor(TableOf(r, k2), r.objects, k2) && TableOf(st, k2).Keys <= TableOf(r, k2).Keys {
        if k2 != k {
          assert TableOf(r, k2) == TableOf(st, k2);
        }
      }
    }
    r
  }

  /** Issuing through one kind's manager leaves every other manager's
      table, and so every resolution through it, as it was. */
  lemma IssueKeepsOtherKinds(st: Store, k: Kind, id: ObjId, k2: Kind, h: Handle)
    requires Valid(st) && Is(st.objects, id, k) && k2 != k
    ensures TableOf(Issue(st, k, id), k2) == TableOf(st, k2)
    ensures Resolve(Issue(st, k, id), k2, h) == Resolve(st, k2, h)
  {
  }

  /** Issuing a handle twice for the same object changes nothing the
      second time. */
  lemma IssueTwice(st: Store, k: Kind, id: ObjId)
    requires Valid(st) && Is(st.objects, id, k)
    ensures Issue(Issue(st, k, id), k, id) == Issue(st, k, id)
  {
    var once := Issue(st, k, id);
    assert TableOf(once, k)[id := id] == TableOf(once, k);
    assert once.tables[k := TableOf(once, k)] == once.tables;
  }

  /** Why `with_object` panics when a handle does not resolve. */
  function PanicOf(e: ResolveError): (f: Failure)
    ensures f.Panic?
  {
    match e
    case BadHandle => Panic("Bad handle")
    case Deallocated => Panic("Handle points to deallocated object")
  }

  /** The object a handle of kind `k` denotes, or the panic of `as_arc`. */
  function ObjectOf(st: Store, k: Kind, h: Handle): (r: Result<ObjId, Failure>)
    requires Valid(st)
    ensures r.Ok? <==> Resolve(st, k, h).Ok?
    ensures r.Ok? ==> r.value == h && Is(st.objects, h, k)
    ensures r.Err? ==> r.error.Panic?
  {
    match Resolve(st, k, h)
    case Ok(id) => Ok(id)
    case Err(e) => Err(PanicOf(e))
  }

  // ---------------------------------------------------------------------
  // Allocation (`into_object`) and change in place
  // ---------------------------------------------------------------------

  /** Adding an object at an unused address keeps every reference good. */
  lemma RefsGrow(objects: map<ObjId, Object>, id: ObjId, o: Object, x: Object)
    requires id !in objects && Refs(x, objects)
    ensures Refs(x, objects[id := o])
  {
  }

  /** Replacing an object by one of the same kind keeps every reference
      good. */
  lemma RefsReplace(objects: map<ObjId, Object>, id: ObjId, o: Object, x: Object)
    requires Is(objects, id, KindOf(o)) && Refs(x, objects)
    ensures Refs(x, objects[id := o])
  {
  }

  /** Adding an object at an unused address keeps every table's handles
      good. */
  lemma IssuedForGrow(table: map<Handle, ObjId>, objects: map<ObjId, Object>, id: ObjId, o: Object, k: Kind)
    requires id !in objects && IssuedFor(table, objects, k)
    ensures IssuedFor(table, objects[id := o], k)
  {
  }

  /** Replacing an object by one of the same kind keeps every table's
      handles good. */
  lemma IssuedForReplace(table: map<Handle, ObjId>, objects: map<ObjId, Object>, id: ObjId, o: Object, k: Kind)
    requires Is(objects, id, KindOf(o)) && IssuedFor(table, objects, k)
    ensures IssuedFor(table, objects[id := o], k)
  {
  }

  /** `into_object`: the object moves to the next address, which is now
      owned and has no handle yet. */
  function Add(st: Store, o: Object): (r: (Store, ObjId))
    requires Valid(st) && Refs(o, st.objects)
    ensures Valid(r.0) && Extends(st, r.0)
    ensures r.1 !in st.objects && r.1 in r.0.live
    ensures r.0.objects == st.objects[r.1 := o]
    ensures r.0.tables == st.tables
  {
    var id := st.nextId;
    var objects := st.objects[id := o];
    assert forall x :: x in objects ==> Refs(objects[x], objects) by {
      forall x | x in objects ensures Refs(objects[x], objects) {
        if x != id {
          RefsGrow(st.objects, id, o, objects[x]);
        }
      }
    }
    var r := st.(nextId := id + 1, live := st.live + {id}, objects := objects);
    forall k ensures IssuedFor(TableOf(r, k), r.objects, k) {
      IssuedForGrow(TableOf(st, k), st.objects, id, o, k);
    }
    (r, id)
  }

  /** A change in place through `with_object` or `lock`: the object at
      `id` becomes `o`, of the same kind. */
  function Replace(st: Store, id: ObjId, o: Object): (r: Store)
    requires Valid(st) && Is(st.objects, id, KindOf(o)) && Refs(o, st.objects)
    ensures Valid(r) && Extends(st, r)
    ensures r.objects == st.objects[id := o] && r.live == st.live && r.nextId == st.nextId
    ensures r.tables == st.tables
  {
    var objects := st.objects[id := o];
    assert forall x :: x in objects ==> Refs(objects[x], objects) by {
      forall x | x in objects ensures Refs(objects[x], objects) {
        RefsReplace(st.objects, id, o, objects[x]);
      }
    }
    var r := st.(objects := objects);
    forall k ensures IssuedFor(TableOf(r, k), r.objects, k) {
      IssuedForReplace(TableOf(st, k), st.objects, id, o, k);
    }
    r
  }

  /** The last owners of the objects at `ids` let them go: the
      allocations stay, so their handles now report deallocated objects. */
  function Drop(st: Store, ids: set<ObjId>): (r: Store)
    requires Valid(st)
    ensures Valid(r) && Extends(st, r)
    ensures r.live == st.live - ids
    ensures r.objects == st.objects && r.tables == st.tables && r.nextId == st.nextId
  {
    var r := st.(live := st.live - ids);
    assert forall k :: TableOf(r, k) == TableOf(st, k);
    r
  }

  /** Every object that existed before, other than those at `changed`, is
      as it was. */
  predicate KeepsOthers(st: Store, st': Store, changed: set<ObjId>) {
    forall id :: id in st.objects && id !in changed ==> id in st'.objects && st'.objects[id] == st.objects[id]
  }

  /** The property set at a property-set address. */
  function PSetAt(st: Store, id: ObjId): PSet
    requires Is(st.objects, id, KPropertySet)
  {
    st.objects[id].ps
  }

  /** `PropertySet::new(name, ..).into_object()`. */
  function NewPropertySet(st: Store, name: Bytes, values: P.PropertyMap): (r: (Store, ObjId))
    requires Valid(st)
    ensures Valid(r.0) && Extends(st, r.0)
    ensures r.1 !in st.objects && r.0.live == st.live + {r.1}
    ensures r.0.objects == st.objects[r.1 := PropSetObject(PSet(name, values))]
    ensures r.0.tables == st.tables
  {
    Add(st, PropSetObject(PSet(name, values)))
  }

  /** Changing the properties of a property set in place. */
  function SetProps(st: Store, id: ObjId, values: P.PropertyMap): (r: Store)
    requires Valid(st) && Is(st.objects, id, KPropertySet)
    ensures Valid(r) && Extends(st, r)
    ensures Is(r.objects, id, KPropertySet) && PSetAt(r, id) == PSet(PSetAt(st, id).name, values)
    ensures r.objects == st.objects[id := PropSetObject(PSet(PSetAt(st, id).name, values))]
    ensures r.live == st.live && r.tables == st.tables
  {
    Replace(st, id, PropSetObject(PSet(PSetAt(st, id).name, values)))
  }

  /** `ParamSet::default().into_object()`: a new empty property set named
      "paramSet", no descriptors and no parameters. */
  function NewParamSet(st: Store): (r: (Store, ObjId))
    requires Valid(st)
    ensures Valid(r.0) && Extends(st, r.0)
    ensures r.1 !in st.objects && r.1 in r.0.live && Is(r.0.objects, r.1, KParamSet)
    ensures var s := r.0.objects[r.1].paramSet;
      && s.descriptors == [] && s.params == map[] && s.properties !in st.objects
      && r.0.objects == st.objects[s.properties := PropSetObject(PSet("paramSet", map[]))][r.1 := ParamSetObject(s)]
    ensures r.0.tables == st.tables
  {
    var (s1, props) := NewPropertySet(st, "paramSet", map[]);
    Add(s1, ParamSetObject(ParamSetObj(props, [], map[])))
  }

  /** `ImageEffect::new(name)`: an effect whose property set is empty and
      named `name`, with a default parameter set, no clips and the default
      message suite responses (yes, then no). The default property set
      that `new` builds and drops at once is not allocated here. */
  function NewEffect(st: Store, name: Bytes): (r: (Store, ObjId))
    requires Valid(st)
    ensures Valid(r.0) && Extends(st, r.0)
    ensures r.1 !in st.objects && r.1 in r.0.live && Is(r.0.objects, r.1, KImageEffect)
    ensures var e := r.0.objects[r.1].effect;
      && e.clips == map[] && e.messageSuiteResponses == DefaultMessageSuiteResponses
      && e.properties !in st.objects && e.paramSet !in st.objects
      && Is(r.0.objects, e.properties, KPropertySet) && PSetAt(r.0, e.properties) == PSet(name, map[])
      && Is(r.0.objects, e.paramSet, KParamSet)
      && r.0.objects[e.paramSet].paramSet.descriptors == []
      && r.0.objects[e.paramSet].paramSet.params == map[]
    ensures r.0.tables == st.tables
  {
    var (s1, props) := NewPropertySet(st, name, map[]);
    var (s2, paramSet) := NewParamSet(s1);
    Add(s2, EffectObject(EffectObj(props, paramSet, map[], DefaultMessageSuiteResponses)))
  }
}
