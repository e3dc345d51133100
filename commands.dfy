/** The command layer of the host (src/main.rs): `CommandState`, which
    holds the loaded plugins and the named instances, and the commands
    that change it. A plugin's entry point is not modelled: each action
    the host calls is appended to `trace`, and its status comes from an
    oracle, a function of the calls made so far and of the new call.
    Loading a bundle is an input. The host's objects live in `store`. */
module Commands {
  import opened Machine
  import opened Status
  import opened Wrappers
  import opened Names
  import opened Handles
  import opened Host
  import P = Properties
  import Params
  import Effects
  import opened OfxStrings

  // ---------------------------------------------------------------------
  // Entities
  // ---------------------------------------------------------------------

  /** `ImageEffectContext`. */
  datatype Context = Filter | General | Generator | Paint | Retimer | Transition

  /** `image_effect_context_str`. */
  function ContextName(c: Context): (s: Bytes)
    ensures NUL !in s
  {
    match c
    case Filter => ImageEffectContextFilter
    case General => ImageEffectContextGeneral
    case Generator => ImageEffectContextGenerator
    case Paint => ImageEffectContextPaint
    case Retimer => ImageEffectContextRetimer
    case Transition => ImageEffectContextTransition
  }

  /** Distinct contexts have distinct names. */
  lemma ContextNamesDiffer(a: Context, b: Context)
    requires a != b
    ensures ContextName(a) != ContextName(b)
  {
    if {a, b} == {General, Generator} {
      assert |ContextName(a)| != |ContextName(b)|;
    } else {
      assert ContextName(a)[21] != ContextName(b)[21];
    }
  }

  /** `LoadedPlugin`: where its bundle is and its descriptor. The library
      and the plugin's function table are not modelled. */
  datatype LoadedPlugin = LoadedPlugin(bundlePath: Bytes, descriptor: ObjId)

  /** `Instance`. */
  datatype Instance = Instance(pluginName: Bytes, effect: ObjId)

  /** A call of a plugin's action: the plugin's name, the action, the
      effect handle and the properties of the in-arguments (empty for a
      null property set). */
  datatype ActionCall = ActionCall(plugin: Bytes, action: Bytes, handle: Handle, inArgs: P.PropertyMap)

  /** What a plugin answers to a call, given the calls made before it. */
  type Oracle = (seq<ActionCall>, ActionCall) -> OfxStatus

  /** Why a command fails: the `anyhow` errors of the commands, or a
      panic of the code they call. */
  datatype CommandError =
    | LoadFailed(reason: string)
    | NotLoaded(plugin: Bytes)
    | NoInstance(instance: Bytes)
    | ContextNotSupported
    | FloatNotSupported
    | NoSuchParam(name: Bytes)
    | ActionFailed(action: Bytes, status: OfxStatus)
    | Crashed(failure: Failure)

  /** `MessageSuiteResponses`. */
  datatype MessageResponse = ResponseOk | ResponseYes | ResponseNo | ResponseFailed

  // ---------------------------------------------------------------------
  // Actions
  // ---------------------------------------------------------------------

  /** Every action from position `from` on was answered with a status
      that lets the host carry on. */
  predicate RanThrough(respond: Oracle, trace: seq<ActionCall>, from: nat)
    decreases |trace|
  {
    |trace| <= from ||
    (RanThrough(respond, trace[..|trace| - 1], from) && Succeeded(respond(trace[..|trace| - 1], trace[|trace| - 1])))
  }

  /** The actions from position `from` on succeeded except the last one,
      which failed: `try_call_action` stopped the command there. */
  predicate StoppedAtLast(respond: Oracle, trace: seq<ActionCall>, from: nat) {
    && from < |trace|
    && RanThrough(respond, trace[..|trace| - 1], from)
    && !Succeeded(respond(trace[..|trace| - 1], trace[|trace| - 1]))
  }

  /** A run went through exactly when each of its calls was answered
      with success. */
  lemma {:induction false} RanThroughEach(respond: Oracle, trace: seq<ActionCall>, from: nat)
    ensures RanThrough(respond, trace, from) <==>
      forall i :: from <= i < |trace| ==> Succeeded(respond(trace[..i], trace[i]))
    decreases |trace|
  {
    if |trace| > from {
      var front := trace[..|trace| - 1];
      RanThroughEach(respond, front, from);
      assert forall i :: from <= i < |front| ==> front[..i] == trace[..i] && front[i] == trace[i];
    }
  }

  /** One more successful call keeps a run successful. */
  lemma RanThroughStep(respond: Oracle, trace: seq<ActionCall>, from: nat, c: ActionCall)
    requires from <= |trace| && RanThrough(respond, trace, from)
    requires Succeeded(respond(trace, c))
    ensures RanThrough(respond, trace + [c], from)
  {
    assert (trace + [c])[..|trace|] == trace;
  }

  /** A failed call ends a successful run. */
  lemma StoppedAtLastStep(respond: Oracle, trace: seq<ActionCall>, from: nat, c: ActionCall)
    requires from <= |trace| && RanThrough(respond, trace, from)
    requires !Succeeded(respond(trace, c))
    ensures StoppedAtLast(respond, trace + [c], from)
  {
    assert (trace + [c])[..|trace|] == trace;
  }

  /** A run that stopped never ran through: success and failure of a
      command are told apart by the trace alone. */
  lemma StoppedIsNotRanThrough(respond: Oracle, trace: seq<ActionCall>, from: nat)
    requires StoppedAtLast(respond, trace, from)
    ensures !RanThrough(respond, trace, from)
  {
  }

  /** `try_call_action` failed on the last call: the calls from `from`
      on succeeded up to that one, and the error names its action and
      the status it was answered with. */
  predicate FailedOn(respond: Oracle, trace: seq<ActionCall>, from: nat, e: CommandError) {
    && StoppedAtLast(respond, trace, from)
    && var last := trace[|trace| - 1];
    && e == ActionFailed(last.action, respond(trace[..|trace| - 1], last))
  }

  /** `try_call_action` on each of `calls` in turn, stopping at the first
      that fails: the calls made, and the error of the one that failed. */
  function Run(trace: seq<ActionCall>, calls: seq<ActionCall>, respond: Oracle): (r: (seq<ActionCall>, Option<CommandError>))
    ensures |trace| <= |r.0| <= |trace| + |calls| && r.0 == trace + calls[..|r.0| - |trace|]
    ensures r.1.None? <==> r.0 == trace + calls && RanThrough(respond, r.0, |trace|)
    ensures r.1.Some? ==> FailedOn(respond, r.0, |trace|, r.1.value)
    decreases |calls|
  {
    if |calls| == 0 then (trace, None)
    else
      var (t, e) := Run(trace, calls[..|calls| - 1], respond);
      RunPrefix(trace, calls, t);
      if e.Some? then (t, e)
      else
        var c := calls[|calls| - 1];
        var status := respond(t, c);
        if Succeeded(status) then
          RanThroughStep(respond, t, |trace|, c);
          (t + [c], None)
        else
          StoppedAtLastStep(respond, t, |trace|, c);
          StoppedIsNotRanThrough(respond, t + [c], |trace|);
          (t + [c], Some(ActionFailed(c.action, status)))
  }

  /** `Run` on one call: the call is made, and fails when its status
      does. */
  lemma RunOneCall(trace: seq<ActionCall>, c: ActionCall, respond: Oracle)
    ensures var status := respond(trace, c);
      Run(trace, [c], respond) == (trace + [c], if Succeeded(status) then None else Some(ActionFailed(c.action, status)))
  {
    assert [c][..0] == [];
  }

  /** `Run` goes through every call the plugin answers with success. */
  lemma {:induction false} RunGoesThrough(trace: seq<ActionCall>, calls: seq<ActionCall>, respond: Oracle)
    requires RanThrough(respond, trace + calls, |trace|)
    ensures Run(trace, calls, respond) == (trace + calls, None)
    decreases |calls|
  {
    if |calls| > 0 {
      var front := calls[..|calls| - 1];
      var t := trace + front;
      assert trace + calls == t + [calls[|calls| - 1]];
      assert (t + [calls[|calls| - 1]])[..|t|] == t;
      RunGoesThrough(trace, front, respond);
    }
  }

  /** A trace that runs through a prefix of all but the last call runs
      through a prefix of all of them; and one that made all but the
      last, followed by the last, made them all. */
  lemma RunPrefix(trace: seq<ActionCall>, calls: seq<ActionCall>, t: seq<ActionCall>)
    requires |calls| > 0 && |trace| <= |t| <= |trace| + |calls| - 1
    requires t == trace + calls[..|calls| - 1][..|t| - |trace|]
    ensures t == trace + calls[..|t| - |trace|]
    ensures (t + [calls[|calls| - 1]])[..|t|] == t
    ensures t == trace + calls[..|calls| - 1] ==> t + [calls[|calls| - 1]] == trace + calls
  {
    assert calls[..|calls| - 1][..|t| - |trace|] == calls[..|t| - |trace|];
    assert calls == calls[..|calls| - 1] + [calls[|calls| - 1]];
  }

  // ---------------------------------------------------------------------
  // The in-arguments
  // ---------------------------------------------------------------------

  /** `filter_inargs`: the context the plugin is described in. */
  function DescribeInContextArgs(c: Context): P.PropertyMap {
    map[ImageEffectPropContext := [P.Str(ContextName(c))]]
  }

  // ---------------------------------------------------------------------
  // The registries
  // ---------------------------------------------------------------------

  /** Every registered descriptor and instance is an effect. */
  predicate Registered(plugins: map<Bytes, LoadedPlugin>, instances: map<Bytes, Instance>, objects: map<ObjId, Object>) {
    && (forall n :: n in plugins ==> Is(objects, plugins[n].descriptor, KImageEffect))
    && (forall n :: n in instances ==> Is(objects, instances[n].effect, KImageEffect))
  }

  /** Objects are never taken away, so registrations stay valid. */
  lemma RegisteredKept(plugins: map<Bytes, LoadedPlugin>, instances: map<Bytes, Instance>, st: Store, st': Store)
    requires Registered(plugins, instances, st.objects) && Extends(st, st')
    ensures Registered(plugins, instances, st'.objects)
  {
  }

  /** Registering a plugin whose descriptor is an effect keeps every
      registration valid. */
  lemma RegisterAfter(plugins: map<Bytes, LoadedPlugin>, instances: map<Bytes, Instance>, st: Store, st': Store, name: Bytes, p: LoadedPlugin)
    requires Registered(plugins, instances, st.objects) && Extends(st, st') && Is(st'.objects, p.descriptor, KImageEffect)
    ensures Registered(plugins[name := p], instances, st'.objects)
  {
  }

  /** Registering an instance whose effect is an effect keeps every
      registration valid. */
  lemma InstanceAfter(plugins: map<Bytes, LoadedPlugin>, instances: map<Bytes, Instance>, st: Store, st': Store, name: Bytes, i: Instance)
    requires Registered(plugins, instances, st.objects) && Extends(st, st') && Is(st'.objects, i.effect, KImageEffect)
    ensures Registered(plugins, instances[name := i], st'.objects)
  {
  }

  // ---------------------------------------------------------------------
  // The state of the commands, as a value
  // ---------------------------------------------------------------------

  /** The fields of `CommandState` with the calls made so far and the
      host objects. */
  datatype Registry = Registry(
    plugins: map<Bytes, LoadedPlugin>,
    instances: map<Bytes, Instance>,
    trace: seq<ActionCall>,
    store: Store)

  /** What every command keeps. */
  predicate Healthy(g: Registry) {
    Valid(g.store) && Registered(g.plugins, g.instances, g.store.objects)
  }

  /** A command's new state and its result. */
  type Outcome = (Registry, Result<(), CommandError>)

}
