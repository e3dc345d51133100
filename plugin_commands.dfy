/** The commands of `CommandState` that load and unload plugins:
    `create_plugin` and `unload_plugin` (src/main.rs). */
module PluginCommands {
  import opened Machine
  import opened Status
  import opened Wrappers
  import opened Names
  import opened Handles
  import opened Host
  import P = Properties
  import Params
  import Effects
  import opened OfxStrings
  import opened Commands

  /** The descriptor `ImageEffect::new(name)` builds. */
  predicate NewDescriptor(st: Store, d: ObjId, name: Bytes) {
    && Is(st.objects, d, KImageEffect)
    && var e := st.objects[d].effect;
    && e.clips == map[]
    && Is(st.objects, e.properties, KPropertySet) && PSetAt(st, e.properties) == PSet(name, map[])
  }

  /** `ImageEffect::new(name)` converted to a handle, as Describe
      receives it. */
  function DescribedEffect(st: Store, name: Bytes): (r: (Store, ObjId))
    requires Valid(st)
    ensures Valid(r.0) && Extends(st, r.0)
    ensures r.1 !in st.objects && r.1 in r.0.live && NewDescriptor(r.0, r.1, name)
  {
    var (s1, d) := NewEffect(st, name);
    var s2 := Issue(s1, KImageEffect, d);
    ExtendsTransitive(st, s1, s2);
    (s2, d)
  }

  // ---------------------------------------------------------------------
  // create_plugin
  // ---------------------------------------------------------------------

  /** The actions `create_plugin` calls: Load, then Describe with the
      descriptor `d`. */
  function PluginCalls(pluginName: Bytes, d: ObjId): seq<ActionCall> {
    [ActionCall(pluginName, ActionLoad, NullHandle, map[]), ActionCall(pluginName, ActionDescribe, d, map[])]
  }

  /** `create_plugin`, given what loading the bundle and finding the
      plugin in it gave (the bundle's path, or why it failed). The
      descriptor is made once Load has succeeded: when Load fails the
      store is left as it was. */
  function CreatePluginStep(g: Registry, pluginName: Bytes, bundle: Result<Bytes, string>, respond: Oracle): (r: Outcome)
    requires Healthy(g)
    ensures r.0.instances == g.instances
    ensures r.1.Ok? ==> bundle.Ok? && r.0.plugins == g.plugins[pluginName := LoadedPlugin(bundle.value, DescribedEffect(g.store, pluginName).1)]
    ensures r.1.Err? ==> r.0.plugins == g.plugins
  {
    if bundle.Err? then (g, Err(LoadFailed(bundle.error)))
    else
      var (s1, d) := DescribedEffect(g.store, pluginName);
      var (t, e) := Run(g.trace, PluginCalls(pluginName, d), respond);
      var plugins := if e.None? then g.plugins[pluginName := LoadedPlugin(bundle.value, d)] else g.plugins;
      var replaced := if e.None? && pluginName in g.plugins then {g.plugins[pluginName].descriptor} else {};
      (Registry(plugins, g.instances, t, PluginStore(g.store, pluginName, LoadSucceeded(g, t, e), e.None?, replaced)),
       if e.None? then Ok(()) else Err(e.value))
  }

  /** Whether Load succeeded, read off the trace: the run went through,
      or it stopped after more than the one call Load is. */
  function LoadSucceeded(g: Registry, t: seq<ActionCall>, e: Option<CommandError>): (loaded: bool)
    ensures e.None? ==> loaded
  {
    e.None? || |t| != |g.trace| + 1
  }

  /** The host objects once the actions of `create_plugin` stop: nothing
      is made when Load fails; the descriptor is made once it succeeds,
      and released unless Describe succeeds too; a descriptor it
      replaces is released. */
  function PluginStore(st: Store, pluginName: Bytes, loaded: bool, described: bool, replaced: set<ObjId>): (r: Store)
    requires Valid(st)
    ensures Valid(r) && Extends(st, r)
    ensures var (s1, d) := DescribedEffect(st, pluginName);
      && (!loaded ==> r == st)
      && (loaded && !described ==> r.objects == s1.objects && r.live == s1.live - {d})
      && (loaded && described ==> r.objects == s1.objects && r.live == s1.live - replaced)
  {
    var (s1, d) := DescribedEffect(st, pluginName);
    if !loaded then st
    else
      var s2 := Drop(s1, if described then replaced else {d});
      ExtendsTransitive(st, s1, s2);
      s2
  }

  /** `create_plugin` keeps the host objects valid and every
      registration an effect, and leaves the instances alone. */
  lemma CreatePluginHealthy(g: Registry, pluginName: Bytes, bundle: Result<Bytes, string>, respond: Oracle)
    requires Healthy(g)
    ensures var g' := CreatePluginStep(g, pluginName, bundle, respond).0;
      Healthy(g') && Extends(g.store, g'.store) && g'.instances == g.instances
  {
    if bundle.Ok? {
      var (s1, d) := DescribedEffect(g.store, pluginName);
      var (t, e) := Run(g.trace, PluginCalls(pluginName, d), respond);
      var replaced := if e.None? && pluginName in g.plugins then {g.plugins[pluginName].descriptor} else {};
      var store := PluginStore(g.store, pluginName, LoadSucceeded(g, t, e), e.None?, replaced);
      if e.None? {
        RegisterAfter(g.plugins, g.instances, g.store, store, pluginName, LoadedPlugin(bundle.value, d));
      } else {
        RegisteredKept(g.plugins, g.instances, g.store, store);
      }
    }
  }

  /** `create_plugin` registers the plugin exactly when its bundle was
      found and Load and then Describe both succeeded. */
  lemma CreatePluginOkIff(g: Registry, pluginName: Bytes, bundle: Result<Bytes, string>, respond: Oracle)
    requires Healthy(g)
    ensures var (g', r) := CreatePluginStep(g, pluginName, bundle, respond);
      r.Ok? <==> bundle.Ok? && |g'.trace| == |g.trace| + 2 && RanThrough(respond, g'.trace, |g.trace|)
  {
  }

  /** A registered plugin is registered under its name, replacing any
      plugin of that name, with the bundle's path and the descriptor
      that Describe was called with, after Load. */
  lemma CreatePluginRegisters(g: Registry, pluginName: Bytes, bundle: Result<Bytes, string>, respond: Oracle)
    requires Healthy(g)
    ensures var (g', r) := CreatePluginStep(g, pluginName, bundle, respond);
      r.Ok? ==>
        && bundle.Ok? && pluginName in g'.plugins
        && var d := g'.plugins[pluginName].descriptor;
        && g'.plugins == g.plugins[pluginName := LoadedPlugin(bundle.value, d)]
        && g'.trace == g.trace + [ActionCall(pluginName, ActionLoad, NullHandle, map[]), ActionCall(pluginName, ActionDescribe, d, map[])]
  {
  }

  /** The descriptor of a registered plugin is new, live and as
      `ImageEffect::new` builds it; the descriptor it replaces is
      released. */
  lemma CreatePluginDescriptor(g: Registry, pluginName: Bytes, bundle: Result<Bytes, string>, respond: Oracle)
    requires Healthy(g)
    ensures var (g', r) := CreatePluginStep(g, pluginName, bundle, respond);
      r.Ok? ==>
        && pluginName in g'.plugins
        && var d := g'.plugins[pluginName].descriptor;
        && d !in g.store.objects && d in g'.store.live && NewDescriptor(g'.store, d, pluginName)
        && (pluginName in g.plugins ==> g.plugins[pluginName].descriptor !in g'.store.live)
  {
    if bundle.Ok? {
      var (s1, d) := DescribedEffect(g.store, pluginName);
      var (t, e) := Run(g.trace, PluginCalls(pluginName, d), respond);
      if e.None? {
        var replaced := if pluginName in g.plugins then {g.plugins[pluginName].descriptor} else {};
        var store := PluginStore(g.store, pluginName, true, true, replaced);
        assert CreatePluginStep(g, pluginName, bundle, respond).0.store == store;
        if pluginName in g.plugins {
          assert Is(g.store.objects, g.plugins[pluginName].descriptor, KImageEffect);
        }
        assert d !in replaced;
        NewDescriptorKept(s1, store, d, pluginName);
      }
    }
  }

  /** `NewDescriptor` depends only on the objects. */
  lemma NewDescriptorKept(st: Store, st': Store, d: ObjId, name: Bytes)
    requires NewDescriptor(st, d, name) && st'.objects == st.objects
    ensures NewDescriptor(st', d, name)
  {
  }

  /** A failed `create_plugin` leaves the plugins as they were (and,
      like every `create_plugin`, the instances). */
  lemma CreatePluginFailureKeeps(g: Registry, pluginName: Bytes, bundle: Result<Bytes, string>, respond: Oracle)
    requires Healthy(g)
    ensures var (g', r) := CreatePluginStep(g, pluginName, bundle, respond);
      r.Err? ==> g'.plugins == g.plugins
  {
  }

  /** When the bundle or the plugin in it is not found, nothing at all
      happens and that is the error. */
  lemma CreatePluginNotFound(g: Registry, pluginName: Bytes, bundle: Result<Bytes, string>, respond: Oracle)
    requires Healthy(g) && bundle.Err?
    ensures CreatePluginStep(g, pluginName, bundle, respond) == (g, Err(LoadFailed(bundle.error)))
  {
  }

  /** A `create_plugin` that failed on an action stopped there and
      reports it. When Load failed, nothing else happened; when Describe
      failed, the descriptor made for it is released. */
  lemma CreatePluginStopped(g: Registry, pluginName: Bytes, bundle: Result<Bytes, string>, respond: Oracle)
    requires Healthy(g)
    ensures var (g', r) := CreatePluginStep(g, pluginName, bundle, respond);
      r.Err? && bundle.Ok? ==>
        && FailedOn(respond, g'.trace, |g.trace|, r.error)
        && g'.trace[|g.trace|] == ActionCall(pluginName, ActionLoad, NullHandle, map[])
        && (|g'.trace| == |g.trace| + 1 ==> g'.store == g.store)
        && (|g'.trace| == |g.trace| + 2 ==>
              var d := g'.trace[|g.trace| + 1].handle;
              && g'.trace[|g.trace| + 1] == ActionCall(pluginName, ActionDescribe, d, map[])
              && d !in g.store.objects && d !in g'.store.live)
  {
  }

  // ---------------------------------------------------------------------
  // unload_plugin
  // ---------------------------------------------------------------------

  /** The action `unload_plugin` calls: Unload, with a null handle. */
  function UnloadCall(pluginName: Bytes): ActionCall {
    ActionCall(pluginName, ActionUnload, NullHandle, map[])
  }

  /** `unload_plugin`: find the plugin and call Unload; once that
      succeeds the plugin is removed, which releases its descriptor. The
      instances of the plugin stay. */
  function UnloadPluginStep(g: Registry, pluginName: Bytes, respond: Oracle): Outcome
    requires Healthy(g)
  {
    if pluginName !in g.plugins then (g, Err(NotLoaded(pluginName)))
    else
      var (t, e) := Run(g.trace, [UnloadCall(pluginName)], respond);
      if e.Some? then (g.(trace := t), Err(e.value))
      else (Registry(g.plugins - {pluginName}, g.instances, t, Drop(g.store, {g.plugins[pluginName].descriptor})), Ok(()))
  }

  /** `unload_plugin` keeps the host objects valid and every
      registration an effect, and leaves the instances alone. */
  lemma UnloadPluginHealthy(g: Registry, pluginName: Bytes, respond: Oracle)
    requires Healthy(g)
    ensures var g' := UnloadPluginStep(g, pluginName, respond).0;
      Healthy(g') && Extends(g.store, g'.store) && g'.instances == g.instances
  {
    if pluginName in g.plugins {
      var s := Drop(g.store, {g.plugins[pluginName].descriptor});
      RegisteredKept(g.plugins, g.instances, g.store, s);
    }
  }

  /** `unload_plugin` succeeds exactly when the plugin is loaded and
      answers Unload with success; then exactly that plugin is removed
      and its descriptor released. */
  lemma UnloadPluginOkIff(g: Registry, pluginName: Bytes, respond: Oracle)
    requires Healthy(g)
    ensures var (g', r) := UnloadPluginStep(g, pluginName, respond);
      r.Ok? <==>
        && pluginName in g.plugins
        && g'.trace == g.trace + [UnloadCall(pluginName)]
        && RanThrough(respond, g'.trace, |g.trace|)
    ensures var (g', r) := UnloadPluginStep(g, pluginName, respond);
      r.Ok? ==>
        && g'.plugins == g.plugins - {pluginName}
        && g'.store.live == g.store.live - {g.plugins[pluginName].descriptor}
  {
  }

  /** A failed `unload_plugin` leaves both registries and the host
      objects as they were; when it was Unload that failed, that is the
      error. */
  lemma UnloadPluginFailureKeeps(g: Registry, pluginName: Bytes, respond: Oracle)
    requires Healthy(g)
    ensures var (g', r) := UnloadPluginStep(g, pluginName, respond);
      r.Err? ==>
        && g'.plugins == g.plugins && g'.instances == g.instances && g'.store == g.store
        && (|g'.trace| > |g.trace| ==> FailedOn(respond, g'.trace, |g.trace|, r.error))
  {
  }
}
