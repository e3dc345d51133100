/** The commands of `CommandState` on instances: `create`,
    `destroy_instance` and `configure_message_suite_responses`
    (src/main.rs). */
module InstanceCommands {
  import opened Machine
  import opened Status
  import opened Wrappers
  import opened Names
  import opened Handles
  import opened Host
  import P = Properties
  import Params
  import Effects
  import opened OfxStrings
  import opened Commands

  /** The properties of the registered effect at `d`. */
  function EffectValues(st: Store, d: ObjId): (m: P.PropertyMap)
    requires Valid(st) && Is(st.objects, d, KImageEffect)
  {
    assert Refs(st.objects[d], st.objects);
    PSetAt(st, st.objects[d].effect.properties).values
  }

  /** The check of `create`: the values under `key` include the string
      `name`; a missing key counts as not included. */
  predicate Supports(values: P.PropertyMap, key: Bytes, name: Bytes) {
    key in values && P.Str(name) in values[key]
  }


  /** The filter descriptor of `create`: a new effect whose properties
      are named "filter" and hold the bundle's path. */
  function FilterDescriptor(st: Store, path: P.PropertyValue): (r: (Store, ObjId))
    requires Valid(st)
    ensures Valid(r.0) && Extends(st, r.0) && KeepsOthers(st, r.0, {})
    ensures r.1 !in st.objects && r.1 in r.0.live && Is(r.0.objects, r.1, KImageEffect)
    ensures r.0.objects[r.1].effect.clips == map[]
    ensures EffectValues(r.0, r.1) == map[PluginPropFilePath := [path]]
    ensures var ps := r.0.objects[r.1].effect.paramSet;
      Is(r.0.objects, ps, KParamSet) && r.0.objects[ps].paramSet.descriptors == []
  {
    var (s1, e) := NewEffect(st, "filter");
    var s2 := SetProps(s1, s1.objects[e].effect.properties, map[PluginPropFilePath := [path]]);
    ExtendsTransitive(st, s1, s2);
    assert Refs(s2.objects[e], s2.objects);
    (s2, e)
  }

  // ---------------------------------------------------------------------
  // Message suite responses
  // ---------------------------------------------------------------------

  /** The status a configured response stands for. */
  function ResponseStatus(r: MessageResponse): OfxStatus {
    match r
    case ResponseOk => OK
    case ResponseYes => ReplyYes
    case ResponseNo => ReplyNo
    case ResponseFailed => Failed
  }

  /** The statuses of the responses, stored last-first, so that taking
      them from the end gives them in the order configured. */
  function ResponseStatuses(rs: seq<MessageResponse>): (s: seq<OfxStatus>)
    ensures |s| == |rs|
    ensures forall i :: 0 <= i < |rs| ==> s[|rs| - 1 - i] == ResponseStatus(rs[i])
  {
    if |rs| == 0 then []
    else ResponseStatuses(rs[1..]) + [ResponseStatus(rs[0])]
  }

  // ---------------------------------------------------------------------
  // create
  // ---------------------------------------------------------------------

  /** The filter descriptor, with its handle issued, and the instance
      `create_instance` makes of it in `context`. */
  function FilterInstance(st: Store, path: Bytes, context: Context): (r: (Store, ObjId, Store, ObjId))
    requires Valid(st)
    ensures Valid(r.0) && Extends(st, r.0) && Valid(r.2) && Extends(r.0, r.2)
    ensures r.1 !in st.objects && r.1 in r.0.live && Is(r.0.objects, r.1, KImageEffect)
    ensures r.3 !in r.0.objects && r.3 in r.2.live && Is(r.2.objects, r.3, KImageEffect)
  {
    var (s1, f) := FilterDescriptor(st, P.Str(path));
    var s2 := Issue(s1, KImageEffect, f);
    ExtendsTransitive(st, s1, s2);
    var (s3, i) := InstanceOfFilter(s2, ContextName(context), path);
    (s2, f, s3, i)
  }

  /** What `create_instance` makes of a descriptor with no parameters and
      no clips, in that order: the instance's property set, its parameter
      set's property set, the parameter set, and the instance. */
  function InstanceOfFilter(st: Store, context: Bytes, path: Bytes): (r: (Store, ObjId))
    requires Valid(st)
    ensures Valid(r.0) && Extends(st, r.0)
    ensures r.1 !in st.objects && r.1 in r.0.live && Is(r.0.objects, r.1, KImageEffect)
    ensures var inst := r.0.objects[r.1].effect;
      && inst.messageSuiteResponses == DefaultMessageSuiteResponses
      && inst.clips == map[]
      && Is(r.0.objects, inst.properties, KPropertySet)
      && PSetAt(r.0, inst.properties) == PSet("instance", Effects.InstanceProperties(P.Str(context), [P.Str(path)]))
      && Is(r.0.objects, inst.paramSet, KParamSet)
      && r.0.objects[inst.paramSet].paramSet.descriptors == []
      && r.0.objects[inst.paramSet].paramSet.params == map[]
  {
    var (s1, props) := NewPropertySet(st, "instance", Effects.InstanceProperties(P.Str(context), [P.Str(path)]));
    var (s2, psProps) := NewPropertySet(s1, "", map[]);
    var (s3, ps) := Add(s2, ParamSetObject(ParamSetObj(psProps, [], map[])));
    var (s4, i) := Add(s3, EffectObject(EffectObj(props, ps, map[], DefaultMessageSuiteResponses)));
    ExtendsTransitive(st, s1, s2);
    ExtendsTransitive(st, s2, s3);
    ExtendsTransitive(st, s3, s4);
    (s4, i)
  }

  /** `InstanceOfFilter` is what `create_instance` makes of the filter:
      the descriptor has a file path, no parameters and no clips, and
      the context has no NUL, so nothing in it panics. */
  lemma FilterInstanceCreated(st: Store, path: Bytes, context: Context)
    requires Valid(st)
    ensures var (s, f, s', i) := FilterInstance(st, path, context);
      && Effects.IterationOrder(s.objects[f].effect.clips, [])
      && Effects.CreateInstance(s, f, ContextName(context), []) == Ok((s', i))
  {
    var (s1, f) := FilterDescriptor(st, P.Str(path));
    var s := Issue(s1, KImageEffect, f);
    var e := s.objects[f].effect;
    assert Refs(s.objects[f], s.objects);
    assert EffectValues(s, f) == map[PluginPropFilePath := [P.Str(path)]];
    assert Effects.EffectDescriptors(s, e) == [];
    assert Effects.IterationOrder(e.clips, []);
    var filePath := [P.Str(path)];
    var context := ContextName(context);
    assert Effects.CopyClips(s, e.clips, []) == (s, map[]);
    Effects.InstancePairsDescribe(P.Str(context), filePath);
    var (s3, props, psProps) := Effects.InstanceSets(s, context, filePath);
    assert Effects.InstanceParts(s, e, context, filePath, []) == (s3, map[], props, psProps);
    assert Effects.MakeParams(s3, [], []) == (s3, []);
    assert Effects.BuildParams(s3, [], []) == (s3, map[]);
    assert Effects.CreateParams(s3, []) == Ok((s3, map[]));
    assert Effects.AssembleInstance(s3, props, psProps, [], map[], map[]) == InstanceOfFilter(s, context, path);
  }

  /** `create`: the checks on the plugin's descriptor, in order, then
      the actions. */
  function CreateStep(g: Registry, pluginName: Bytes, instanceName: Bytes, context: Context, respond: Oracle): Outcome
    requires Healthy(g)
  {
    match CreateCheck(g, pluginName, context)
    case Some(e) => (g, Err(e))
    case None => CreateRun(g, pluginName, instanceName, context, g.plugins[pluginName].bundlePath, respond)
  }

  /** The checks `create` makes before it calls any action, in order:
      the plugin is loaded, its descriptor supports the context and
      float pixels, and its bundle path is UTF-8 (`to_str().unwrap()`)
      and holds no NUL (`CString::new(...).unwrap()`). */
  function CreateCheck(g: Registry, pluginName: Bytes, context: Context): (r: Option<CommandError>)
    requires Healthy(g)
    ensures r.None? <==> CreateChecksPass(g, pluginName, context)
  {
    if pluginName !in g.plugins then Some(NotLoaded(pluginName))
    else
      var p := g.plugins[pluginName];
      var values := EffectValues(g.store, p.descriptor);
      if !Supports(values, ImageEffectPropSupportedContexts, ContextName(context)) then Some(ContextNotSupported)
      else if !Supports(values, ImageEffectPropSupportedPixelDepths, BitDepthFloat) then Some(FloatNotSupported)
      else if !ValidUtf8(p.bundlePath) then Some(Crashed(UnwrapNone))
      else if NUL in p.bundlePath then Some(Crashed(P.OfRustStr(p.bundlePath).error))
      else None
  }

  /** What `create` does once its checks pass: DescribeInContext on the
      filter descriptor and CreateInstance on the instance made of it.
      The instance is registered under its name, replacing any instance
      of that name, only when both actions succeed. */
  function CreateRun(g: Registry, pluginName: Bytes, instanceName: Bytes, context: Context, path: Bytes, respond: Oracle): (r: Outcome)
    requires Healthy(g)
    ensures r.0.plugins == g.plugins
    ensures r.1.Ok? ==> r.0.instances == g.instances[instanceName := Instance(pluginName, FilterInstance(g.store, path, context).3)]
    ensures r.1.Err? ==> r.0.instances == g.instances
  {
    var (_, f, _, i) := FilterInstance(g.store, path, context);
    var (t, e) := Run(g.trace, CreateCalls(pluginName, context, f, i), respond);
    var stop := CreateStopOf(g, t, e);
    var replaced := if e.None? && instanceName in g.instances then {g.instances[instanceName].effect} else {};
    var instances := if e.None? then g.instances[instanceName := Instance(pluginName, i)] else g.instances;
    (Registry(g.plugins, instances, t, CreateStore(g.store, path, context, stop, replaced)),
     if e.None? then Ok(()) else Err(e.value))
  }

  /** Where the actions of `create` stop. */
  datatype CreateStop = DescribeFailed | CreateInstanceFailed | Created

  /** The host objects once the actions of `create` stop at `stop`: the
      filter is released in every case; the instance is made once
      DescribeInContext succeeds, and released unless CreateInstance
      succeeds too; an instance it replaces is released. */
  function CreateStore(st: Store, path: Bytes, context: Context, stop: CreateStop, replaced: set<ObjId>): (r: Store)
    requires Valid(st)
    ensures Valid(r) && Extends(st, r)
    ensures stop == Created ==> Is(r.objects, FilterInstance(st, path, context).3, KImageEffect)
    ensures var (s1, f, s2, i) := FilterInstance(st, path, context);
      && (stop == DescribeFailed ==> r.live == s1.live - {f})
      && (stop == CreateInstanceFailed ==> r.objects == s2.objects && r.live == s2.live - {f, i})
      && (stop == Created ==> r.objects == s2.objects && r.live == s2.live - ({f} + replaced))
  {
    var (s1, f, s2, i) := FilterInstance(st, path, context);
    if stop == DescribeFailed then
      ExtendsTransitive(st, s1, Drop(s1, {f}));
      Drop(s1, {f})
    else
      var s3 := Issue(s2, KImageEffect, i);
      ExtendsTransitive(s1, s2, s3);
      ExtendsTransitive(st, s1, s3);
      var s4 := Drop(s3, if stop == CreateInstanceFailed then {f, i} else {f} + replaced);
      ExtendsTransitive(st, s3, s4);
      s4
  }

  /** What `CreateStore` keeps alive: never the filter; the instance
      only when it was created, with the objects `create_instance` made;
      and never an instance it replaces. */
  lemma CreateStoreLive(st: Store, path: Bytes, context: Context, stop: CreateStop, replaced: set<ObjId>)
    requires Valid(st)
    ensures var (_, f, s, i) := FilterInstance(st, path, context);
      var r := CreateStore(st, path, context, stop, replaced);
      && f !in r.live
      && (stop == Created ==> r.objects == s.objects && (i in r.live <==> i !in replaced))
      && (stop != Created ==> i !in r.live)
      && (stop == Created ==> r.live !! replaced)
  {
    var (s1, f, s2, i) := FilterInstance(st, path, context);
    if stop == DescribeFailed {
      assert i !in s1.objects;
      assert i !in s1.live;
    } else if stop == Created {
      assert f in s1.objects && i !in s1.objects;
    }
  }

  /** The actions `create` calls: DescribeInContext on the filter `f`,
      with the context as in-argument, then CreateInstance on the
      instance `i`. */
  function CreateCalls(pluginName: Bytes, context: Context, f: ObjId, i: ObjId): seq<ActionCall> {
    [ActionCall(pluginName, ImageEffectActionDescribeInContext, f, DescribeInContextArgs(context)),
     ActionCall(pluginName, ActionCreateInstance, i, map[])]
  }

  /** The checks `create` makes before calling any action. */
  predicate CreateChecksPass(g: Registry, pluginName: Bytes, context: Context)
    requires Healthy(g)
  {
    && pluginName in g.plugins
    && var p := g.plugins[pluginName];
    && var values := EffectValues(g.store, p.descriptor);
    && Supports(values, ImageEffectPropSupportedContexts, ContextName(context))
    && Supports(values, ImageEffectPropSupportedPixelDepths, BitDepthFloat)
    && ValidUtf8(p.bundlePath) && NUL !in p.bundlePath
  }

  /** Where the actions of `create` stopped, read off the trace. */
  function CreateStopOf(g: Registry, t: seq<ActionCall>, e: Option<CommandError>): (stop: CreateStop)
    ensures stop == Created <==> e.None?
  {
    if e.None? then Created else if |t| == |g.trace| + 1 then DescribeFailed else CreateInstanceFailed
  }

  /** The actions of `create` keep the host objects valid and every
      registration an effect, and leave the plugins alone. */
  lemma CreateRunHealthy(g: Registry, pluginName: Bytes, instanceName: Bytes, context: Context, path: Bytes, respond: Oracle)
    requires Healthy(g)
    ensures var g' := CreateRun(g, pluginName, instanceName, context, path, respond).0;
      Healthy(g') && Extends(g.store, g'.store) && g'.plugins == g.plugins
  {
    var (_, f, _, i) := FilterInstance(g.store, path, context);
    var (t, e) := Run(g.trace, CreateCalls(pluginName, context, f, i), respond);
    var replaced := if e.None? && instanceName in g.instances then {g.instances[instanceName].effect} else {};
    var store := CreateStore(g.store, path, context, CreateStopOf(g, t, e), replaced);
    if e.None? {
      InstanceAfter(g.plugins, g.instances, g.store, store, instanceName, Instance(pluginName, i));
    } else {
      RegisteredKept(g.plugins, g.instances, g.store, store);
    }
  }

  /** Once its checks pass, `create` succeeds exactly when the plugin
      answered both DescribeInContext on the filter and CreateInstance on
      the instance with success. */
  lemma CreateRunOkIff(g: Registry, pluginName: Bytes, instanceName: Bytes, context: Context, path: Bytes, respond: Oracle)
    requires Healthy(g)
    ensures var (_, f, _, i) := FilterInstance(g.store, path, context);
      var (g', r) := CreateRun(g, pluginName, instanceName, context, path, respond);
      r.Ok? <==> g'.trace == g.trace + CreateCalls(pluginName, context, f, i) && RanThrough(respond, g'.trace, |g.trace|)
  {
  }

  /** After a successful `create` the new instance is alive, the filter
      and any instance it replaced are not; after a failed one neither
      the filter nor the instance is. */
  lemma CreateRunLive(g: Registry, pluginName: Bytes, instanceName: Bytes, context: Context, path: Bytes, respond: Oracle)
    requires Healthy(g)
    ensures var (_, f, _, i) := FilterInstance(g.store, path, context);
      var (g', r) := CreateRun(g, pluginName, instanceName, context, path, respond);
      && f !in g'.store.live
      && (r.Ok? ==> i !in g.store.objects && i in g'.store.live)
      && (r.Ok? && instanceName in g.instances ==> g.instances[instanceName].effect !in g'.store.live)
      && (r.Err? ==> i !in g'.store.live)
  {
    var (_, f, _, i) := FilterInstance(g.store, path, context);
    var (t, e) := Run(g.trace, CreateCalls(pluginName, context, f, i), respond);
    var stop := CreateStopOf(g, t, e);
    var replaced := if e.None? && instanceName in g.instances then {g.instances[instanceName].effect} else {};
    CreateStoreLive(g.store, path, context, stop, replaced);
    if replaced != {} {
      assert Is(g.store.objects, g.instances[instanceName].effect, KImageEffect);
    }
  }

  /** A successful `create` keeps the objects `create_instance` made of
      the filter, the instance among them. */
  lemma CreateRunInstance(g: Registry, pluginName: Bytes, instanceName: Bytes, context: Context, path: Bytes, respond: Oracle)
    requires Healthy(g)
    ensures var (_, _, s, i) := FilterInstance(g.store, path, context);
      var (g', r) := CreateRun(g, pluginName, instanceName, context, path, respond);
      r.Ok? ==> g'.store.objects == s.objects
  {
    var (_, f, _, i) := FilterInstance(g.store, path, context);
    var (t, e) := Run(g.trace, CreateCalls(pluginName, context, f, i), respond);
    var replaced := if e.None? && instanceName in g.instances then {g.instances[instanceName].effect} else {};
    CreateStoreLive(g.store, path, context, CreateStopOf(g, t, e), replaced);
  }

  /** A failed `create` stopped at the first action the plugin refused,
      named in the error; DescribeInContext on the filter came first. */
  lemma CreateRunStopped(g: Registry, pluginName: Bytes, instanceName: Bytes, context: Context, path: Bytes, respond: Oracle)
    requires Healthy(g)
    ensures var (_, f, _, i) := FilterInstance(g.store, path, context);
      var (g', r) := CreateRun(g, pluginName, instanceName, context, path, respond);
      r.Err? ==>
        && FailedOn(respond, g'.trace, |g.trace|, r.error)
        && g'.trace[|g.trace|] == CreateCalls(pluginName, context, f, i)[0]
  {
  }

  /** `create` keeps the host objects valid and every registration an
      effect, and leaves the plugins alone. */
  lemma CreateHealthy(g: Registry, pluginName: Bytes, instanceName: Bytes, context: Context, respond: Oracle)
    requires Healthy(g)
    ensures var g' := CreateStep(g, pluginName, instanceName, context, respond).0;
      Healthy(g') && Extends(g.store, g'.store) && g'.plugins == g.plugins
  {
    if CreateChecksPass(g, pluginName, context) {
      CreateRunHealthy(g, pluginName, instanceName, context, g.plugins[pluginName].bundlePath, respond);
    }
  }

  // ---------------------------------------------------------------------
  // destroy_instance
  // ---------------------------------------------------------------------

  /** The action `destroy_instance` calls: DestroyInstance on the
      instance's effect, with no in-arguments. */
  function DestroyCall(inst: Instance): ActionCall {
    ActionCall(inst.pluginName, ActionDestroyInstance, inst.effect, map[])
  }

  /** `destroy_instance`: find the instance and its plugin, issue the
      effect's handle and call DestroyInstance on it; once that succeeds
      the instance is removed, which releases its effect. */
  function DestroyInstanceStep(g: Registry, instanceName: Bytes, respond: Oracle): Outcome
    requires Healthy(g)
  {
    if instanceName !in g.instances then (g, Err(NoInstance(instanceName)))
    else
      var inst := g.instances[instanceName];
      if inst.pluginName !in g.plugins then (g, Err(NotLoaded(inst.pluginName)))
      else
        var st := Issue(g.store, KImageEffect, inst.effect);
        var (t, e) := Run(g.trace, [DestroyCall(inst)], respond);
        if e.Some? then (g.(trace := t, store := st), Err(e.value))
        else (Registry(g.plugins, g.instances - {instanceName}, t, Drop(st, {inst.effect})), Ok(()))
  }

  /** `destroy_instance` keeps the host objects valid and every
      registration an effect, and leaves the plugins alone. */
  lemma DestroyInstanceHealthy(g: Registry, instanceName: Bytes, respond: Oracle)
    requires Healthy(g)
    ensures var g' := DestroyInstanceStep(g, instanceName, respond).0;
      Healthy(g') && Extends(g.store, g'.store) && g'.plugins == g.plugins
  {
    if instanceName in g.instances && g.instances[instanceName].pluginName in g.plugins {
      var inst := g.instances[instanceName];
      var st := Issue(g.store, KImageEffect, inst.effect);
      var s := Drop(st, {inst.effect});
      ExtendsTransitive(g.store, st, s);
      RegisteredKept(g.plugins, g.instances, g.store, s);
    }
  }

  /** `destroy_instance` succeeds exactly when the instance and its
      plugin are found and the plugin answers DestroyInstance on the
      instance's effect with success; then exactly that instance is
      removed and its effect released. */
  lemma DestroyInstanceOkIff(g: Registry, instanceName: Bytes, respond: Oracle)
    requires Healthy(g)
    ensures var (g', r) := DestroyInstanceStep(g, instanceName, respond);
      r.Ok? <==>
        && instanceName in g.instances && g.instances[instanceName].pluginName in g.plugins
        && g'.trace == g.trace + [DestroyCall(g.instances[instanceName])]
        && RanThrough(respond, g'.trace, |g.trace|)
    ensures var (g', r) := DestroyInstanceStep(g, instanceName, respond);
      r.Ok? ==>
        && g'.instances == g.instances - {instanceName}
        && g.instances[instanceName].effect !in g'.store.live
        && g'.store.live == g.store.live - {g.instances[instanceName].effect}
  {
  }

  /** A failed `destroy_instance` leaves both registries and the host
      objects as they were; when it was the action that failed, that is
      the error. */
  lemma DestroyInstanceFailureKeeps(g: Registry, instanceName: Bytes, respond: Oracle)
    requires Healthy(g)
    ensures var (g', r) := DestroyInstanceStep(g, instanceName, respond);
      r.Err? ==>
        && g'.instances == g.instances && g'.plugins == g.plugins
        && g'.store.objects == g.store.objects && g'.store.live == g.store.live
        && (|g'.trace| > |g.trace| ==> FailedOn(respond, g'.trace, |g.trace|, r.error))
  {
  }

  // ---------------------------------------------------------------------
  // configure_message_suite_responses
  // ---------------------------------------------------------------------

  /** The effect at `e` with the message suite responses `rs`. */
  function SetResponses(st: Store, e: ObjId, rs: seq<OfxStatus>): (r: Store)
    requires Valid(st) && Is(st.objects, e, KImageEffect)
    ensures Valid(r) && Extends(st, r) && KeepsOthers(st, r, {e})
    ensures Is(r.objects, e, KImageEffect) && r.objects[e].effect == st.objects[e].effect.(messageSuiteResponses := rs)
    ensures r.live == st.live && r.tables == st.tables
  {
    assert Refs(st.objects[e], st.objects);
    Replace(st, e, EffectObject(st.objects[e].effect.(messageSuiteResponses := rs)))
  }

  /** `configure_message_suite_responses`: the instance's effect gets the
      statuses of `responses`, stored last-first. */
  function ConfigureStep(g: Registry, instanceName: Bytes, responses: seq<MessageResponse>): Outcome
    requires Healthy(g)
  {
    if instanceName !in g.instances then (g, Err(NoInstance(instanceName)))
    else (g.(store := SetResponses(g.store, g.instances[instanceName].effect, ResponseStatuses(responses))), Ok(()))
  }

  /** Configuring fails only for an unknown instance; otherwise the
      effect's responses are the configured ones, reversed, and nothing
      else changes: no action is called, the registries stay, and every
      other object and the rest of the effect are kept. */
  lemma ConfigureSets(g: Registry, instanceName: Bytes, responses: seq<MessageResponse>)
    requires Healthy(g)
    ensures var (g', r) := ConfigureStep(g, instanceName, responses);
      && (r.Ok? <==> instanceName in g.instances)
      && g'.plugins == g.plugins && g'.instances == g.instances && g'.trace == g.trace
      && (r.Err? ==> g' == g)
      && (r.Ok? ==>
            var e := g.instances[instanceName].effect;
            && KeepsOthers(g.store, g'.store, {e}) && g'.store.live == g.store.live
            && Is(g'.store.objects, e, KImageEffect)
            && var after := g'.store.objects[e].effect;
            && after == g.store.objects[e].effect.(messageSuiteResponses := after.messageSuiteResponses)
            && |after.messageSuiteResponses| == |responses|
            && forall i :: 0 <= i < |responses| ==> after.messageSuiteResponses[|responses| - 1 - i] == ResponseStatus(responses[i]))
  {
  }

  /** Configuring keeps the host objects valid and every registration an
      effect. */
  lemma ConfigureHealthy(g: Registry, instanceName: Bytes, responses: seq<MessageResponse>)
    requires Healthy(g)
    ensures var g' := ConfigureStep(g, instanceName, responses).0;
      Healthy(g') && Extends(g.store, g'.store)
  {
    if instanceName in g.instances {
      var g' := ConfigureStep(g, instanceName, responses).0;
      RegisteredKept(g.plugins, g.instances, g.store, g'.store);
    }
  }
}
