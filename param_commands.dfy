/** The command of `CommandState` that writes parameters: `set_params`
    (src/main.rs). */
module ParamCommands {
  import opened Machine
  import opened Status
  import opened Wrappers
  import opened Names
  import opened Handles
  import opened Host
  import P = Properties
  import Params
  import Effects
  import opened OfxStrings
  import opened Commands

  /** `begin_instance_changed`: a change the user made. */
  const ChangeArgs: P.PropertyMap := map[PropChangeReason := [P.Str(ChangeUserEdited)]]

  /** `instance_changed`: the parameter `name` changed, by the user, at
      time 0 and full render scale. */
  function InstanceChangedArgs(name: Bytes): P.PropertyMap {
    map[PropType := [P.Str(TypeParameter)],
        PropName := [P.Str(name)],
        PropChangeReason := [P.Str(ChangeUserEdited)],
        PropTime := [P.Double(0.0)],
        ImageEffectPropRenderScale := [P.Double(1.0), P.Double(1.0)]]
  }

  /** The `InstanceChanged` calls of `set_params` for the names written,
      one per name, in order. */
  function ChangeCalls(plugin: Bytes, h: Handle, names: seq<Bytes>): (cs: seq<ActionCall>)
    ensures |cs| == |names|
    ensures forall i :: 0 <= i < |names| ==>
      cs[i] == ActionCall(plugin, ActionInstanceChanged, h, InstanceChangedArgs(names[i]))
  {
    if |names| == 0 then []
    else
      var last := ActionCall(plugin, ActionInstanceChanged, h, InstanceChangedArgs(names[|names| - 1]));
      ChangeCalls(plugin, h, names[..|names| - 1]) + [last]
  }

  /** The names of a list of parameter writes. */
  function WrittenNames(values: seq<(Bytes, Params.ParamValue)>): (ns: seq<Bytes>)
    ensures |ns| == |values| && forall i :: 0 <= i < |values| ==> ns[i] == values[i].0
  {
    seq(|values|, i requires 0 <= i < |values| => values[i].0)
  }

  /** Notifying one more write adds one `InstanceChanged` call. */
  lemma ChangeCallsStep(plugin: Bytes, h: Handle, values: seq<(Bytes, Params.ParamValue)>, i: nat)
    requires i < |values|
    ensures ChangeCalls(plugin, h, WrittenNames(values[..i + 1]))
      == ChangeCalls(plugin, h, WrittenNames(values[..i])) + [ActionCall(plugin, ActionInstanceChanged, h, InstanceChangedArgs(values[i].0))]
  {
    assert WrittenNames(values[..i + 1])[..i] == WrittenNames(values[..i]);
  }

  // ---------------------------------------------------------------------
  // Parameter writes
  // ---------------------------------------------------------------------

  /** The instance parameters of the effect at `e`, by name. */
  function ParamsOf(st: Store, e: ObjId): (params: map<Bytes, ObjId>)
    requires Valid(st) && Is(st.objects, e, KImageEffect)
    ensures forall n :: n in params ==> Is(st.objects, params[n], KParam)
  {
    assert Refs(st.objects[e], st.objects);
    var ps := st.objects[e].effect.paramSet;
    assert Refs(st.objects[ps], st.objects);
    st.objects[ps].paramSet.params
  }

  /** Every parameter of `params` is a parameter object. */
  predicate ParamsIn(st: Store, params: map<Bytes, ObjId>) {
    forall n :: n in params ==> Is(st.objects, params[n], KParam)
  }

  /** Every write names a parameter of `params`. */
  predicate AllNamed(params: map<Bytes, ObjId>, values: seq<(Bytes, Params.ParamValue)>) {
    forall i :: 0 <= i < |values| ==> values[i].0 in params
  }

  /** `param.lock().value = v`. */
  function WriteParam(st: Store, id: ObjId, v: Params.ParamValue): (r: Store)
    requires Valid(st) && Is(st.objects, id, KParam)
    ensures Valid(r) && Extends(st, r)
    ensures r.objects == st.objects[id := ParamObject(ParamObj(v, st.objects[id].param.properties))]
    ensures r.live == st.live && r.tables == st.tables
  {
    assert Refs(st.objects[id], st.objects);
    Replace(st, id, ParamObject(ParamObj(v, st.objects[id].param.properties)))
  }

  /** The store after the writes of `values`, first to last. */
  function WriteParams(st: Store, params: map<Bytes, ObjId>, values: seq<(Bytes, Params.ParamValue)>): (r: Store)
    requires Valid(st) && ParamsIn(st, params) && AllNamed(params, values)
    ensures Valid(r) && Extends(st, r) && ParamsIn(r, params)
    ensures r.objects.Keys == st.objects.Keys && r.live == st.live && r.tables == st.tables
    decreases |values|
  {
    if |values| == 0 then st
    else
      var front := values[..|values| - 1];
      assert AllNamed(params, front) by {
        forall i | 0 <= i < |front| ensures front[i].0 in params {
          assert front[i] == values[i];
        }
      }
      var s := WriteParams(st, params, front);
      var r := WriteParam(s, params[values[|values| - 1].0], values[|values| - 1].1);
      ExtendsTransitive(st, s, r);
      r
  }

  /** The value last written to the parameter at `id`, if any. */
  function LastWrite(params: map<Bytes, ObjId>, values: seq<(Bytes, Params.ParamValue)>, id: ObjId): Option<Params.ParamValue>
    requires AllNamed(params, values)
    decreases |values|
  {
    if |values| == 0 then None
    else if params[values[|values| - 1].0] == id then Some(values[|values| - 1].1)
    else
      var front := values[..|values| - 1];
      assert AllNamed(params, front) by {
        forall i | 0 <= i < |front| ensures front[i].0 in params {
          assert front[i] == values[i];
        }
      }
      LastWrite(params, front, id)
  }

  /** After the writes, each parameter holds the value last written to
      it, or its old value when nothing was written to it, and keeps its
      properties; every other object is as it was. */
  lemma {:induction false} WriteParamsValues(st: Store, params: map<Bytes, ObjId>, values: seq<(Bytes, Params.ParamValue)>, id: ObjId)
    requires Valid(st) && ParamsIn(st, params) && AllNamed(params, values)
    requires id in st.objects
    ensures var r := WriteParams(st, params, values);
      && (LastWrite(params, values, id).None? ==> r.objects[id] == st.objects[id])
      && (LastWrite(params, values, id).Some? ==>
            && st.objects[id].ParamObject?
            && r.objects[id] == ParamObject(ParamObj(LastWrite(params, values, id).value, st.objects[id].param.properties)))
    decreases |values|
  {
    if |values| > 0 {
      var front := values[..|values| - 1];
      assert AllNamed(params, front) by {
        forall i | 0 <= i < |front| ensures front[i].0 in params {
          assert front[i] == values[i];
        }
      }
      WriteParamsValues(st, params, front, id);
      var last := params[values[|values| - 1].0];
      var s := WriteParams(st, params, front);
      if last != id {
        assert LastWrite(params, values, id) == LastWrite(params, front, id);
      } else {
        assert Is(st.objects, id, KParam);
        WriteParamsProperties(st, params, front, id);
      }
    }
  }

  /** The writes keep each parameter's properties. */
  lemma {:induction false} WriteParamsProperties(st: Store, params: map<Bytes, ObjId>, values: seq<(Bytes, Params.ParamValue)>, id: ObjId)
    requires Valid(st) && ParamsIn(st, params) && AllNamed(params, values)
    requires Is(st.objects, id, KParam)
    ensures var r := WriteParams(st, params, values);
      r.objects[id].ParamObject? && r.objects[id].param.properties == st.objects[id].param.properties
    decreases |values|
  {
    if |values| > 0 {
      var front := values[..|values| - 1];
      assert AllNamed(params, front) by {
        forall i | 0 <= i < |front| ensures front[i].0 in params {
          assert front[i] == values[i];
        }
      }
      WriteParamsProperties(st, params, front, id);
    }
  }


  // ---------------------------------------------------------------------
  // set_params
  // ---------------------------------------------------------------------

  /** The call `c` when `notify` is set, and no call otherwise. */
  function Notified(notify: bool, c: ActionCall): (cs: seq<ActionCall>)
    ensures notify <==> cs == [c]
    ensures !notify <==> cs == []
  {
    if notify then [c] else []
  }

  /** The `InstanceChanged` calls `set_params` makes for `values` when it
      notifies, and none otherwise. */
  function LoopCalls(plugin: Bytes, h: Handle, values: seq<(Bytes, Params.ParamValue)>, notify: bool): seq<ActionCall> {
    if notify then ChangeCalls(plugin, h, WrittenNames(values)) else []
  }

  /** No name of `values` holds a NUL, so each converts to a C string. */
  predicate NamesConvert(values: seq<(Bytes, Params.ParamValue)>) {
    forall i :: 0 <= i < |values| ==> NUL !in values[i].0
  }

  /** The loop of `set_params` over `values`, from the host objects `st`
      and the calls `trace`: each write looks its parameter up by name
      (`get_param`) and fails when there is none; it then writes the
      value and, when `notify` is set, converts the name to a property
      value, which panics on a NUL, and calls InstanceChanged. The first
      failure ends the loop; the writes before it remain. */
  function ParamLoop(st: Store, trace: seq<ActionCall>, params: map<Bytes, ObjId>, plugin: Bytes, h: Handle,
                     values: seq<(Bytes, Params.ParamValue)>, notify: bool, respond: Oracle): (r: (Store, seq<ActionCall>, Option<CommandError>))
    requires Valid(st) && ParamsIn(st, params)
    ensures Valid(r.0) && Extends(st, r.0) && ParamsIn(r.0, params)
    ensures !notify ==> r.1 == trace
    decreases |values|
  {
    if |values| == 0 then (st, trace, None)
    else
      var (s, t, e) := ParamLoop(st, trace, params, plugin, h, values[..|values| - 1], notify, respond);
      if e.Some? then (s, t, e)
      else
        var r := ParamStep(s, t, params, plugin, h, values[|values| - 1], notify, respond);
        ExtendsTransitive(st, s, r.0);
        r
  }

  /** The InstanceChanged call that notifies the write of `name`. */
  function ChangeCall(plugin: Bytes, h: Handle, name: Bytes): ActionCall {
    ActionCall(plugin, ActionInstanceChanged, h, InstanceChangedArgs(name))
  }

  /** One turn of the loop of `set_params`, on the write `w`. */
  function ParamStep(s: Store, t: seq<ActionCall>, params: map<Bytes, ObjId>, plugin: Bytes, h: Handle,
                     w: (Bytes, Params.ParamValue), notify: bool, respond: Oracle): (r: (Store, seq<ActionCall>, Option<CommandError>))
    requires Valid(s) && ParamsIn(s, params)
    ensures Valid(r.0) && Extends(s, r.0) && ParamsIn(r.0, params)
    ensures !notify ==> r.1 == t
    ensures r.2.None? <==> w.0 in params && (notify ==> NUL !in w.0 && Succeeded(respond(t, ChangeCall(plugin, h, w.0))))
    ensures r.2.None? ==> r.0 == WriteParam(s, params[w.0], w.1) && r.1 == t + Notified(notify, ChangeCall(plugin, h, w.0))
    ensures w.0 !in params ==> r == (s, t, Some(NoSuchParam(w.0)))
  {
    var (name, v) := w;
    if name !in params then (s, t, Some(NoSuchParam(name)))
    else
      var s' := WriteParam(s, params[name], v);
      if !notify then (s', t, None)
      else if NUL in name then (s', t, Some(Crashed(P.OfRustStr(name).error)))
      else
        var (t', e') := Run(t, [ChangeCall(plugin, h, name)], respond);
        (s', t', e')
  }

  /** The loop on `values` is the loop on all but the last value,
      followed, when that went through, by one turn on the last. */
  lemma ParamLoopLast(st: Store, trace: seq<ActionCall>, params: map<Bytes, ObjId>, plugin: Bytes, h: Handle,
                      values: seq<(Bytes, Params.ParamValue)>, notify: bool, respond: Oracle)
    requires Valid(st) && ParamsIn(st, params) && |values| > 0
    ensures var r := ParamLoop(st, trace, params, plugin, h, values, notify, respond);
      var r' := ParamLoop(st, trace, params, plugin, h, values[..|values| - 1], notify, respond);
      && (r'.2.Some? ==> r == r')
      && (r'.2.None? ==> r == ParamStep(r'.0, r'.1, params, plugin, h, values[|values| - 1], notify, respond))
  {
  }

  /** The loop on the first `i + 1` values is the loop on the first `i`
      followed, when that went through, by one turn on value `i`. */
  lemma ParamLoopNext(st: Store, trace: seq<ActionCall>, params: map<Bytes, ObjId>, plugin: Bytes, h: Handle,
                      values: seq<(Bytes, Params.ParamValue)>, notify: bool, respond: Oracle, i: nat)
    requires Valid(st) && ParamsIn(st, params) && i < |values|
    ensures var r' := ParamLoop(st, trace, params, plugin, h, values[..i], notify, respond);
      r'.2.None? ==>
        ParamLoop(st, trace, params, plugin, h, values[..i + 1], notify, respond)
          == ParamStep(r'.0, r'.1, params, plugin, h, values[i], notify, respond)
  {
    assert values[..i + 1][..i] == values[..i];
  }

  /** The names of `values` are parameters when those of all but the
      last are and the last is, and likewise for converting them. */
  lemma NamedLast(params: map<Bytes, ObjId>, values: seq<(Bytes, Params.ParamValue)>)
    requires |values| > 0
    ensures AllNamed(params, values) <==> AllNamed(params, values[..|values| - 1]) && values[|values| - 1].0 in params
    ensures NamesConvert(values) <==> NamesConvert(values[..|values| - 1]) && NUL !in values[|values| - 1].0
  {
    assert forall i :: 0 <= i < |values| - 1 ==> values[..|values| - 1][i] == values[i];
  }

  /** The writes of `values` are those of all but the last, then the
      last. */
  lemma WriteParamsLast(st: Store, params: map<Bytes, ObjId>, values: seq<(Bytes, Params.ParamValue)>)
    requires Valid(st) && ParamsIn(st, params) && |values| > 0 && AllNamed(params, values)
    ensures AllNamed(params, values[..|values| - 1])
    ensures WriteParams(st, params, values)
         == WriteParam(WriteParams(st, params, values[..|values| - 1]), params[values[|values| - 1].0], values[|values| - 1].1)
  {
    NamedLast(params, values);
  }

  /** The notifications of `values` are those of all but the last, then
      the last's. */
  lemma LoopCallsLast(plugin: Bytes, h: Handle, values: seq<(Bytes, Params.ParamValue)>, notify: bool)
    requires |values| > 0
    ensures LoopCalls(plugin, h, values, notify)
         == LoopCalls(plugin, h, values[..|values| - 1], notify) + Notified(notify, ChangeCall(plugin, h, values[|values| - 1].0))
  {
    ChangeCallsStep(plugin, h, values, |values| - 1);
    assert values[..|values|] == values;
  }

  /** One more call, when `notify` is set, answered with success, keeps
      a run that made `calls` successful, and adds that call to them. */
  lemma RunOne(respond: Oracle, trace: seq<ActionCall>, t: seq<ActionCall>, calls: seq<ActionCall>, notify: bool, c: ActionCall)
    requires t == trace + calls && RanThrough(respond, t, |trace|)
    requires notify ==> Succeeded(respond(t, c))
    ensures t + Notified(notify, c) == trace + (calls + Notified(notify, c))
    ensures RanThrough(respond, t + Notified(notify, c), |trace|)
  {
    if notify {
      RanThroughStep(respond, t, |trace|, c);
      assert t + [c] == trace + (calls + [c]);
    } else {
      assert t + [] == t;
      assert calls + [] == calls;
    }
  }

  /** A run that went through `calls` and then, when `notify` is set,
      `c`, went through `calls`, and `c` was answered with success. */
  lemma RunOneBack(respond: Oracle, trace: seq<ActionCall>, calls: seq<ActionCall>, notify: bool, c: ActionCall)
    requires RanThrough(respond, trace + (calls + Notified(notify, c)), |trace|)
    ensures RanThrough(respond, trace + calls, |trace|)
    ensures notify ==> Succeeded(respond(trace + calls, c))
  {
    if notify {
      var t := trace + calls;
      assert trace + (calls + [c]) == t + [c];
      assert (t + [c])[..|t|] == t;
    } else {
      assert calls + [] == calls;
    }
  }

  /** A loop that goes through has written every value, first to last,
      and, when notifying, made one InstanceChanged call per value, in
      order, each answered with success. */
  lemma {:induction false} ParamLoopDone(st: Store, trace: seq<ActionCall>, params: map<Bytes, ObjId>, plugin: Bytes, h: Handle,
                                         values: seq<(Bytes, Params.ParamValue)>, notify: bool, respond: Oracle)
    requires Valid(st) && ParamsIn(st, params)
    ensures var r := ParamLoop(st, trace, params, plugin, h, values, notify, respond);
      r.2.None? ==>
        && AllNamed(params, values) && (notify ==> NamesConvert(values))
        && r.0 == WriteParams(st, params, values)
        && r.1 == trace + LoopCalls(plugin, h, values, notify)
        && RanThrough(respond, r.1, |trace|)
    decreases |values|
  {
    if |values| > 0 {
      var front := values[..|values| - 1];
      var w := values[|values| - 1];
      ParamLoopDone(st, trace, params, plugin, h, front, notify, respond);
      ParamLoopLast(st, trace, params, plugin, h, values, notify, respond);
      var (s, t, e) := ParamLoop(st, trace, params, plugin, h, front, notify, respond);
      if e.None? && ParamStep(s, t, params, plugin, h, w, notify, respond).2.None? {
        NamedLast(params, values);
        WriteParamsLast(st, params, values);
        LoopCallsLast(plugin, h, values, notify);
        var c := ChangeCall(plugin, h, w.0);
        RunOne(respond, trace, t, LoopCalls(plugin, h, front, notify), notify, c);
      }
    }
  }

  /** Conversely, the loop goes through when every name is a parameter
      and, when notifying, every name converts and the plugin answers
      each InstanceChanged call with success. */
  lemma {:induction false} ParamLoopGoesThrough(st: Store, trace: seq<ActionCall>, params: map<Bytes, ObjId>, plugin: Bytes, h: Handle,
                                                values: seq<(Bytes, Params.ParamValue)>, notify: bool, respond: Oracle)
    requires Valid(st) && ParamsIn(st, params)
    requires AllNamed(params, values) && (notify ==> NamesConvert(values))
    requires RanThrough(respond, trace + LoopCalls(plugin, h, values, notify), |trace|)
    ensures ParamLoop(st, trace, params, plugin, h, values, notify, respond).2.None?
    decreases |values|
  {
    if |values| > 0 {
      var front := values[..|values| - 1];
      var w := values[|values| - 1];
      var c := ChangeCall(plugin, h, w.0);
      NamedLast(params, values);
      LoopCallsLast(plugin, h, values, notify);
      RunOneBack(respond, trace, LoopCalls(plugin, h, front, notify), notify, c);
      ParamLoopGoesThrough(st, trace, params, plugin, h, front, notify, respond);
      ParamLoopDone(st, trace, params, plugin, h, front, notify, respond);
      ParamLoopLast(st, trace, params, plugin, h, values, notify, respond);
    }
  }

  /** Once the loop fails on a prefix of the values, the values after it
      change nothing: it stopped there. */
  lemma {:induction false} ParamLoopStops(st: Store, trace: seq<ActionCall>, params: map<Bytes, ObjId>, plugin: Bytes, h: Handle,
                                          values: seq<(Bytes, Params.ParamValue)>, notify: bool, respond: Oracle, j: nat)
    requires Valid(st) && ParamsIn(st, params)
    requires j <= |values| && ParamLoop(st, trace, params, plugin, h, values[..j], notify, respond).2.Some?
    ensures ParamLoop(st, trace, params, plugin, h, values, notify, respond)
         == ParamLoop(st, trace, params, plugin, h, values[..j], notify, respond)
    decreases |values| - j
  {
    if j < |values| {
      var front := values[..|values| - 1];
      assert front[..j] == values[..j];
      ParamLoopStops(st, trace, params, plugin, h, front, notify, respond, j);
    } else {
      assert values[..j] == values;
    }
  }

  /** A name that is not a parameter ends the loop with that error; the
      writes before it remain and nothing after it is written. */
  lemma ParamLoopUnknownName(st: Store, trace: seq<ActionCall>, params: map<Bytes, ObjId>, plugin: Bytes, h: Handle,
                             values: seq<(Bytes, Params.ParamValue)>, notify: bool, respond: Oracle, k: nat)
    requires Valid(st) && ParamsIn(st, params)
    requires k < |values| && values[k].0 !in params
    requires ParamLoop(st, trace, params, plugin, h, values[..k], notify, respond).2.None?
    ensures AllNamed(params, values[..k])
    ensures var r := ParamLoop(st, trace, params, plugin, h, values, notify, respond);
      && r.0 == WriteParams(st, params, values[..k])
      && r.1 == trace + LoopCalls(plugin, h, values[..k], notify)
      && r.2 == Some(NoSuchParam(values[k].0))
  {
    var upTo := values[..k + 1];
    assert upTo[..|upTo| - 1] == values[..k] && upTo[|upTo| - 1] == values[k];
    ParamLoopDone(st, trace, params, plugin, h, values[..k], notify, respond);
    ParamLoopLast(st, trace, params, plugin, h, upTo, notify, respond);
    ParamLoopStops(st, trace, params, plugin, h, values, notify, respond, k + 1);
  }

  /** The calls of `set_params` around the writes. */
  function BeginCall(plugin: Bytes, h: Handle): ActionCall {
    ActionCall(plugin, ActionBeginInstanceChanged, h, ChangeArgs)
  }

  function EndCall(plugin: Bytes, h: Handle): ActionCall {
    ActionCall(plugin, ActionEndInstanceChanged, h, ChangeArgs)
  }

  /** The parameters of a registered instance. */
  function InstanceParams(g: Registry, instanceName: Bytes): (params: map<Bytes, ObjId>)
    requires Healthy(g) && instanceName in g.instances
    ensures ParamsIn(g.store, params)
  {
    ParamsOf(g.store, g.instances[instanceName].effect)
  }

  /** The store the calls of `set_params` run on. Only the action calls
      turn the effect into a handle, so its handle is issued only when
      notifying. */
  function ChangeStore(st: Store, effect: ObjId, notify: bool): (r: Store)
    requires Valid(st) && Is(st.objects, effect, KImageEffect)
    ensures Valid(r) && Extends(st, r)
    ensures r.live == st.live && r.objects == st.objects
    ensures !notify ==> r.tables == st.tables
    ensures notify ==> Resolve(r, KImageEffect, effect) == if effect in st.live then Ok(effect) else Err(Deallocated)
  {
    if notify then Issue(st, KImageEffect, effect) else st
  }

  /** `set_params`: find the instance and its plugin, then run the calls,
      issuing the effect's handle when notifying. */
  function SetParamsStep(g: Registry, instanceName: Bytes, values: seq<(Bytes, Params.ParamValue)>, notify: bool, respond: Oracle): Outcome
    requires Healthy(g)
  {
    if instanceName !in g.instances then (g, Err(NoInstance(instanceName)))
    else
      var inst := g.instances[instanceName];
      if inst.pluginName !in g.plugins then (g, Err(NotLoaded(inst.pluginName)))
      else
        var st := ChangeStore(g.store, inst.effect, notify);
        var (s, t, e) := SetParamsRun(st, g.trace, InstanceParams(g, instanceName), inst.pluginName, inst.effect, values, notify, respond);
        (g.(trace := t, store := s), if e.None? then Ok(()) else Err(e.value))
  }

  /** Every action `set_params` calls, in order, when it goes through. */
  function SetParamsCalls(plugin: Bytes, h: Handle, values: seq<(Bytes, Params.ParamValue)>, notify: bool): seq<ActionCall> {
    Notified(notify, BeginCall(plugin, h)) + LoopCalls(plugin, h, values, notify) + Notified(notify, EndCall(plugin, h))
  }

  /** What `set_params` does once it has found the instance: when
      `notify` is set, call BeginInstanceChanged; write the values in
      order, each followed by InstanceChanged when notifying; when
      notifying, call EndInstanceChanged. The first failure ends it and
      keeps the writes made. */
  function SetParamsRun(st: Store, trace: seq<ActionCall>, params: map<Bytes, ObjId>, plugin: Bytes, h: Handle,
                        values: seq<(Bytes, Params.ParamValue)>, notify: bool, respond: Oracle): (r: (Store, seq<ActionCall>, Option<CommandError>))
    requires Valid(st) && ParamsIn(st, params)
    ensures Valid(r.0) && Extends(st, r.0)
    ensures !notify ==> r.1 == trace
  {
    var (t1, e1) := Run(trace, Notified(notify, BeginCall(plugin, h)), respond);
    if e1.Some? then (st, t1, e1)
    else
      var (s, t2, e2) := ParamLoop(st, t1, params, plugin, h, values, notify, respond);
      if e2.Some? then (s, t2, e2)
      else
        var (t3, e3) := Run(t2, Notified(notify, EndCall(plugin, h)), respond);
        (s, t3, e3)
  }

  /** The calls of a run that went through from `from` went through from
      any later position, and so did each prefix of them. */
  lemma RanThroughWithin(respond: Oracle, t: seq<ActionCall>, from: nat, p: seq<ActionCall>, from': nat)
    requires RanThrough(respond, t, from) && |p| <= |t| && p == t[..|p|] && from <= from'
    ensures RanThrough(respond, p, from')
  {
    RanThroughEach(respond, t, from);
    RanThroughEach(respond, p, from');
    assert forall i :: from' <= i < |p| ==> p[..i] == t[..i] && p[i] == t[i];
  }

  /** Two runs one after the other make one run. */
  lemma RanThroughJoin(respond: Oracle, t: seq<ActionCall>, mid: seq<ActionCall>, from: nat)
    requires from <= |mid| <= |t| && t[..|mid|] == mid
    requires RanThrough(respond, mid, from) && RanThrough(respond, t, |mid|)
    ensures RanThrough(respond, t, from)
  {
    RanThroughEach(respond, t, from);
    RanThroughEach(respond, t, |mid|);
    RanThroughEach(respond, mid, from);
    assert forall i :: from <= i < |mid| ==> mid[..i] == t[..i] && mid[i] == t[i];
  }

  /** Three runs one after the other, from `trace`, made the calls
      `b + l + e` and went through. */
  lemma JoinThree(respond: Oracle, trace: seq<ActionCall>, b: seq<ActionCall>, l: seq<ActionCall>, e: seq<ActionCall>)
    requires RanThrough(respond, trace + b, |trace|)
    requires RanThrough(respond, trace + b + l, |trace + b|)
    requires RanThrough(respond, trace + b + l + e, |trace + b + l|)
    ensures trace + b + l + e == trace + (b + l + e)
    ensures RanThrough(respond, trace + (b + l + e), |trace|)
  {
    var t1, t2, t3 := trace + b, trace + b + l, trace + b + l + e;
    assert t2[..|t1|] == t1;
    RanThroughJoin(respond, t2, t1, |trace|);
    assert t3[..|t2|] == t2;
    RanThroughJoin(respond, t3, t2, |trace|);
    SeqAssoc(trace, b, l, e);
  }

  /** Concatenation of calls is associative. */
  lemma SeqAssoc(trace: seq<ActionCall>, b: seq<ActionCall>, l: seq<ActionCall>, e: seq<ActionCall>)
    ensures trace + b + l + e == trace + (b + l + e)
  {
    assert trace + b + l == trace + (b + l);
  }

  /** A run that went through the calls `b + l + e` from `trace` went
      through each of the three parts in turn. */
  lemma SplitThree(respond: Oracle, trace: seq<ActionCall>, b: seq<ActionCall>, l: seq<ActionCall>, e: seq<ActionCall>)
    requires RanThrough(respond, trace + (b + l + e), |trace|)
    ensures trace + b + l + e == trace + (b + l + e)
    ensures RanThrough(respond, trace + b, |trace|)
    ensures RanThrough(respond, trace + b + l, |trace + b|)
    ensures RanThrough(respond, trace + b + l + e, |trace + b + l|)
  {
    var t := trace + (b + l + e);
    SeqAssoc(trace, b, l, e);
    assert t[..|trace + b|] == trace + b;
    RanThroughWithin(respond, t, |trace|, trace + b, |trace|);
    assert t[..|trace + b + l|] == trace + b + l;
    RanThroughWithin(respond, t, |trace|, trace + b + l, |trace + b|);
    RanThroughWithin(respond, t, |trace|, t, |trace + b + l|);
  }

  /** A run that goes through wrote every value in order and, when
      notifying, called BeginInstanceChanged, one InstanceChanged per
      value in order and EndInstanceChanged, each answered with
      success. */
  lemma SetParamsRunDone(st: Store, trace: seq<ActionCall>, params: map<Bytes, ObjId>, plugin: Bytes, h: Handle,
                         values: seq<(Bytes, Params.ParamValue)>, notify: bool, respond: Oracle)
    requires Valid(st) && ParamsIn(st, params)
    ensures var r := SetParamsRun(st, trace, params, plugin, h, values, notify, respond);
      r.2.None? ==>
        && AllNamed(params, values) && (notify ==> NamesConvert(values))
        && r.0 == WriteParams(st, params, values)
        && r.1 == trace + SetParamsCalls(plugin, h, values, notify)
        && RanThrough(respond, r.1, |trace|)
  {
    var B := Notified(notify, BeginCall(plugin, h));
    var (t1, e1) := Run(trace, B, respond);
    if e1.None? {
      ParamLoopDone(st, t1, params, plugin, h, values, notify, respond);
      var (s, t2, e2) := ParamLoop(st, t1, params, plugin, h, values, notify, respond);
      if e2.None? {
        var E := Notified(notify, EndCall(plugin, h));
        var (t3, e3) := Run(t2, E, respond);
        if e3.None? {
          JoinThree(respond, trace, B, LoopCalls(plugin, h, values, notify), E);
        }
      }
    }
  }

  /** Conversely, the run goes through when every name is a parameter
      and, when notifying, every name converts and the plugin answers
      each call with success. */
  lemma SetParamsRunGoesThrough(st: Store, trace: seq<ActionCall>, params: map<Bytes, ObjId>, plugin: Bytes, h: Handle,
                                values: seq<(Bytes, Params.ParamValue)>, notify: bool, respond: Oracle)
    requires Valid(st) && ParamsIn(st, params)
    requires AllNamed(params, values) && (notify ==> NamesConvert(values))
    requires RanThrough(respond, trace + SetParamsCalls(plugin, h, values, notify), |trace|)
    ensures SetParamsRun(st, trace, params, plugin, h, values, notify, respond).2.None?
  {
    var B := Notified(notify, BeginCall(plugin, h));
    var L := LoopCalls(plugin, h, values, notify);
    var E := Notified(notify, EndCall(plugin, h));
    SplitThree(respond, trace, B, L, E);
    RunGoesThrough(trace, B, respond);
    ParamLoopGoesThrough(st, trace + B, params, plugin, h, values, notify, respond);
    ParamLoopDone(st, trace + B, params, plugin, h, values, notify, respond);
    RunGoesThrough(trace + B + L, E, respond);
  }

  /** A name that is not a parameter stops the run with that error once
      the writes before it went through: those writes remain, and no
      later value is written or notified. */
  lemma SetParamsRunUnknownName(st: Store, trace: seq<ActionCall>, params: map<Bytes, ObjId>, plugin: Bytes, h: Handle,
                                values: seq<(Bytes, Params.ParamValue)>, notify: bool, respond: Oracle, k: nat)
    requires Valid(st) && ParamsIn(st, params)
    requires k < |values| && values[k].0 !in params
    requires AllNamed(params, values[..k]) && (notify ==> NamesConvert(values[..k]))
    requires RanThrough(respond, trace + Notified(notify, BeginCall(plugin, h)) + LoopCalls(plugin, h, values[..k], notify), |trace|)
    ensures var r := SetParamsRun(st, trace, params, plugin, h, values, notify, respond);
      && r.0 == WriteParams(st, params, values[..k])
      && r.1 == trace + Notified(notify, BeginCall(plugin, h)) + LoopCalls(plugin, h, values[..k], notify)
      && r.2 == Some(NoSuchParam(values[k].0))
  {
    var B := Notified(notify, BeginCall(plugin, h));
    var T := trace + B + LoopCalls(plugin, h, values[..k], notify);
    assert T[..|trace + B|] == trace + B;
    RanThroughWithin(respond, T, |trace|, trace + B, |trace|);
    RunGoesThrough(trace, B, respond);
    RanThroughWithin(respond, T, |trace|, T, |trace + B|);
    ParamLoopGoesThrough(st, trace + B, params, plugin, h, values[..k], notify, respond);
    ParamLoopUnknownName(st, trace + B, params, plugin, h, values, notify, respond, k);
  }

  /** `set_params` never changes which plugins and instances are
      registered, keeps the host objects valid, and only adds to them. */
  lemma SetParamsHealthy(g: Registry, instanceName: Bytes, values: seq<(Bytes, Params.ParamValue)>, notify: bool, respond: Oracle)
    requires Healthy(g)
    ensures var g' := SetParamsStep(g, instanceName, values, notify, respond).0;
      && Healthy(g') && Extends(g.store, g'.store)
      && g'.plugins == g.plugins && g'.instances == g.instances
  {
    if instanceName in g.instances && g.instances[instanceName].pluginName in g.plugins {
      var inst := g.instances[instanceName];
      var st := ChangeStore(g.store, inst.effect, notify);
      var s := SetParamsRun(st, g.trace, InstanceParams(g, instanceName), inst.pluginName, inst.effect, values, notify, respond).0;
      ExtendsTransitive(g.store, st, s);
      RegisteredKept(g.plugins, g.instances, g.store, s);
    }
  }

  /** Without notification `set_params` calls no action at all. */
  lemma SetParamsQuiet(g: Registry, instanceName: Bytes, values: seq<(Bytes, Params.ParamValue)>, respond: Oracle)
    requires Healthy(g)
    ensures SetParamsStep(g, instanceName, values, false, respond).0.trace == g.trace
  {
  }

  /** A `set_params` that succeeds found the instance and its plugin,
      wrote every value in order and, when notifying, called
      BeginInstanceChanged, one InstanceChanged per value in order and
      EndInstanceChanged, each answered with success. */
  lemma SetParamsSucceeds(g: Registry, instanceName: Bytes, values: seq<(Bytes, Params.ParamValue)>, notify: bool, respond: Oracle)
    requires Healthy(g)
    ensures var (g', r) := SetParamsStep(g, instanceName, values, notify, respond);
      r.Ok? ==>
        && instanceName in g.instances
        && var inst := g.instances[instanceName];
        && inst.pluginName in g.plugins
        && var params := InstanceParams(g, instanceName);
        && AllNamed(params, values) && (notify ==> NamesConvert(values))
        && g'.store == WriteParams(ChangeStore(g.store, inst.effect, notify), params, values)
        && g'.trace == g.trace + SetParamsCalls(inst.pluginName, inst.effect, values, notify)
        && RanThrough(respond, g'.trace, |g.trace|)
  {
    if instanceName in g.instances && g.instances[instanceName].pluginName in g.plugins {
      var inst := g.instances[instanceName];
      SetParamsRunDone(ChangeStore(g.store, inst.effect, notify), g.trace, InstanceParams(g, instanceName), inst.pluginName, inst.effect, values, notify, respond);
    }
  }

  /** Conversely, `set_params` succeeds when the instance and its plugin
      are found, every name is a parameter of the instance and, when
      notifying, every name converts and the plugin answers each call
      with success. */
  lemma SetParamsGoesThrough(g: Registry, instanceName: Bytes, values: seq<(Bytes, Params.ParamValue)>, notify: bool, respond: Oracle)
    requires Healthy(g) && instanceName in g.instances && g.instances[instanceName].pluginName in g.plugins
    requires AllNamed(InstanceParams(g, instanceName), values) && (notify ==> NamesConvert(values))
    requires var inst := g.instances[instanceName];
      RanThrough(respond, g.trace + SetParamsCalls(inst.pluginName, inst.effect, values, notify), |g.trace|)
    ensures SetParamsStep(g, instanceName, values, notify, respond).1.Ok?
  {
    var inst := g.instances[instanceName];
    SetParamsRunGoesThrough(ChangeStore(g.store, inst.effect, notify), g.trace, InstanceParams(g, instanceName), inst.pluginName, inst.effect, values, notify, respond);
  }

  /** A name that is not a parameter of the instance stops `set_params`
      with that error once the writes before it went through: those
      writes remain, and no later value is written or notified. */
  lemma SetParamsUnknownName(g: Registry, instanceName: Bytes, values: seq<(Bytes, Params.ParamValue)>, notify: bool, respond: Oracle, k: nat)
    requires Healthy(g) && instanceName in g.instances && g.instances[instanceName].pluginName in g.plugins
    requires k < |values| && values[k].0 !in InstanceParams(g, instanceName)
    requires AllNamed(InstanceParams(g, instanceName), values[..k]) && (notify ==> NamesConvert(values[..k]))
    requires var inst := g.instances[instanceName];
      RanThrough(respond, g.trace + Notified(notify, BeginCall(inst.pluginName, inst.effect))
                                  + LoopCalls(inst.pluginName, inst.effect, values[..k], notify), |g.trace|)
    ensures var (g', r) := SetParamsStep(g, instanceName, values, notify, respond);
      var inst := g.instances[instanceName];
      && r == Err(NoSuchParam(values[k].0))
      && g'.store == WriteParams(ChangeStore(g.store, inst.effect, notify), InstanceParams(g, instanceName), values[..k])
      && g'.trace == g.trace + Notified(notify, BeginCall(inst.pluginName, inst.effect)) + LoopCalls(inst.pluginName, inst.effect, values[..k], notify)
  {
    var inst := g.instances[instanceName];
    SetParamsRunUnknownName(ChangeStore(g.store, inst.effect, notify), g.trace, InstanceParams(g, instanceName), inst.pluginName, inst.effect, values, notify, respond, k);
  }

  // ---------------------------------------------------------------------
  // set_params, step by step
  // ---------------------------------------------------------------------

  /** The action `c`, made after `t`: the calls made and, when the plugin
      refuses it, the error of `try_call_action`. */
  method CallAction(t: seq<ActionCall>, c: ActionCall, respond: Oracle) returns (t': seq<ActionCall>, e: Option<CommandError>)
    ensures (t', e) == Run(t, [c], respond)
  {
    RunOneCall(t, c, respond);
    var status := respond(t, c);
    t' := t + [c];
    e := if Succeeded(status) then None else Some(ActionFailed(c.action, status));
  }

  /** One turn of the loop of `set_params`: look the parameter up,
      write the value and, when notifying, call InstanceChanged. */
  method WriteValue(s0: Store, t0: seq<ActionCall>, params: map<Bytes, ObjId>, plugin: Bytes, h: Handle,
                    w: (Bytes, Params.ParamValue), notify: bool, respond: Oracle)
    returns (s: Store, t: seq<ActionCall>, e: Option<CommandError>)
    requires Valid(s0) && ParamsIn(s0, params)
    ensures (s, t, e) == ParamStep(s0, t0, params, plugin, h, w, notify, respond)
  {
    var (name, v) := w;
    s, t, e := s0, t0, None;
    if name !in params {
      e := Some(NoSuchParam(name));
      return;
    }
    s := WriteParam(s, params[name], v);
    if notify {
      if NUL in name {
        e := Some(Crashed(P.OfRustStr(name).error));
      } else {
        t, e := CallAction(t, ChangeCall(plugin, h, name), respond);
      }
    }
  }

  /** The loop of `set_params` over `values`. */
  method WriteValues(st: Store, trace: seq<ActionCall>, params: map<Bytes, ObjId>, plugin: Bytes, h: Handle,
                     values: seq<(Bytes, Params.ParamValue)>, notify: bool, respond: Oracle)
    returns (s: Store, t: seq<ActionCall>, e: Option<CommandError>)
    requires Valid(st) && ParamsIn(st, params)
    ensures (s, t, e) == ParamLoop(st, trace, params, plugin, h, values, notify, respond)
  {
    s, t, e := st, trace, None;
    var i := 0;
    while i < |values| && e.None?
      invariant 0 <= i <= |values|
      invariant (s, t, e) == ParamLoop(st, trace, params, plugin, h, values[..i], notify, respond)
    {
      ParamLoopNext(st, trace, params, plugin, h, values, notify, respond, i);
      s, t, e := WriteValue(s, t, params, plugin, h, values[i], notify, respond);
      i := i + 1;
    }
    if e.Some? {
      ParamLoopStops(st, trace, params, plugin, h, values, notify, respond, i);
    } else {
      assert values[..i] == values;
    }
  }

  /** The body of `set_params` once the instance is found. */
  method RunSetParams(st: Store, trace: seq<ActionCall>, params: map<Bytes, ObjId>, plugin: Bytes, h: Handle,
                      values: seq<(Bytes, Params.ParamValue)>, notify: bool, respond: Oracle)
    returns (s: Store, t: seq<ActionCall>, e: Option<CommandError>)
    requires Valid(st) && ParamsIn(st, params)
    ensures (s, t, e) == SetParamsRun(st, trace, params, plugin, h, values, notify, respond)
  {
    s, t, e := st, trace, None;
    if notify {
      t, e := CallAction(t, BeginCall(plugin, h), respond);
      if e.Some? {
        return;
      }
    }
    s, t, e := WriteValues(st, t, params, plugin, h, values, notify, respond);
    if e.None? && notify {
      t, e := CallAction(t, EndCall(plugin, h), respond);
    }
  }
}
