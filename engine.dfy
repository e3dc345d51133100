/** `CommandState` of src/main.rs as the object it is: its fields are
    updated in place by the commands, each proved to do what the command
    functions of the command modules say. */
module Engine {
  import opened Machine
  import opened Status
  import opened Wrappers
  import opened Host
  import Params
  import opened Commands
  import opened PluginCommands
  import opened InstanceCommands
  import opened ParamCommands

  // ---------------------------------------------------------------------
  // CommandState
  // ---------------------------------------------------------------------

  /** `CommandState`: the loaded plugins and the named instances, with
      the calls made so far and the host objects. */
  class CommandState {
    var plugins: map<Bytes, LoadedPlugin>
    var instances: map<Bytes, Instance>
    var trace: seq<ActionCall>
    var store: Store

    /** The fields as a value. */
    function State(): Registry
      reads this
    {
      Registry(plugins, instances, trace, store)
    }

    /** A state with nothing loaded over the host objects `st`. */
    constructor(st: Store)
      requires Valid(st)
      ensures Healthy(State())
      ensures plugins == map[] && instances == map[] && trace == [] && store == st
    {
      plugins, instances, trace, store := map[], map[], [], st;
    }

    /** `create_plugin`. */
    method CreatePlugin(pluginName: Bytes, bundle: Result<Bytes, string>, respond: Oracle) returns (r: Result<(), CommandError>)
      requires Healthy(State())
      modifies this
      ensures (State(), r) == CreatePluginStep(old(State()), pluginName, bundle, respond)
      ensures Healthy(State())
    {
      var g := State();
      var out := CreatePluginStep(g, pluginName, bundle, respond);
      CreatePluginHealthy(g, pluginName, bundle, respond);
      SetState(out.0);
      r := out.1;
    }

    /** `create`. */
    method Create(pluginName: Bytes, instanceName: Bytes, context: Context, respond: Oracle) returns (r: Result<(), CommandError>)
      requires Healthy(State())
      modifies this
      ensures (State(), r) == CreateStep(old(State()), pluginName, instanceName, context, respond)
      ensures Healthy(State())
    {
      var g := State();
      var out := CreateStep(g, pluginName, instanceName, context, respond);
      CreateHealthy(g, pluginName, instanceName, context, respond);
      SetState(out.0);
      r := out.1;
    }

    /** `set_params`, with its loop over the values. */
    method SetParams(instanceName: Bytes, values: seq<(Bytes, Params.ParamValue)>, notify: bool, respond: Oracle) returns (r: Result<(), CommandError>)
      requires Healthy(State())
      modifies this
      ensures (State(), r) == SetParamsStep(old(State()), instanceName, values, notify, respond)
      ensures Healthy(State())
    {
      var g := State();
      SetParamsHealthy(g, instanceName, values, notify, respond);
      if instanceName !in g.instances {
        return Err(NoInstance(instanceName));
      }
      var inst := g.instances[instanceName];
      if inst.pluginName !in g.plugins {
        return Err(NotLoaded(inst.pluginName));
      }
      var st := ChangeStore(g.store, inst.effect, notify);
      var s, t, e := RunSetParams(st, g.trace, InstanceParams(g, instanceName), inst.pluginName, inst.effect, values, notify, respond);
      SetState(g.(trace := t, store := s));
      r := if e.None? then Ok(()) else Err(e.value);
    }

    /** `destroy_instance`. */
    method DestroyInstance(instanceName: Bytes, respond: Oracle) returns (r: Result<(), CommandError>)
      requires Healthy(State())
      modifies this
      ensures (State(), r) == DestroyInstanceStep(old(State()), instanceName, respond)
      ensures Healthy(State())
    {
      var g := State();
      var out := DestroyInstanceStep(g, instanceName, respond);
      DestroyInstanceHealthy(g, instanceName, respond);
      SetState(out.0);
      r := out.1;
    }

    /** `unload_plugin`. */
    method UnloadPlugin(pluginName: Bytes, respond: Oracle) returns (r: Result<(), CommandError>)
      requires Healthy(State())
      modifies this
      ensures (State(), r) == UnloadPluginStep(old(State()), pluginName, respond)
      ensures Healthy(State())
    {
      var g := State();
      var out := UnloadPluginStep(g, pluginName, respond);
      UnloadPluginHealthy(g, pluginName, respond);
      SetState(out.0);
      r := out.1;
    }

    /** `configure_message_suite_responses`. */
    method ConfigureMessageSuiteResponses(instanceName: Bytes, responses: seq<MessageResponse>) returns (r: Result<(), CommandError>)
      requires Healthy(State())
      modifies this
      ensures (State(), r) == ConfigureStep(old(State()), instanceName, responses)
      ensures Healthy(State())
    {
      var g := State();
      ConfigureHealthy(g, instanceName, responses);
      if instanceName !in instances {
        return Err(NoInstance(instanceName));
      }
      store := SetResponses(store, instances[instanceName].effect, ResponseStatuses(responses));
      r := Ok(());
    }

    /** Makes the fields those of `g`. */
    method SetState(g: Registry)
      modifies this
      ensures State() == g
    {
      plugins, instances, trace, store := g.plugins, g.instances, g.trace, g.store;
    }
  }
}
