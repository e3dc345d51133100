/** The older parameter getters of src/params.c: the same dispatch as
    the value getters of the variadic shims, with a three-slot buffer and
    getters of arity one to three in both entries. They share the
    buffer-filling and dispatching code of `Variadic.GetValueShim`. */
module LegacyParams {
  import opened Machine
  import opened Status
  import opened Variadic

  /** `paramGetValue`: up to three values; `count <= 3` is the C
      `assert`. */
  method ParamGetValue(cb: Callbacks, param: Addr, count: Int32, args: seq<VaArg>,
                       respond: Call -> OfxStatus) returns (status: OfxStatus)
    requires count <= 3 && count <= |args|
    requires forall i :: 0 <= i < count ==> args[i].PtrArg?
    modifies cb
    ensures count >= 1 ==> cb.calls == old(cb.calls) + [ValueCount(param), GetValue(param, Pointers(args, count))]
    ensures count >= 1 ==> status == respond(GetValue(param, Pointers(args, count)))
    ensures count <= 0 ==> cb.calls == old(cb.calls) + [ValueCount(param)] && status == Failed
  {
    status := GetValueShim(cb, param, count, args, 3, respond);
  }

  /** `paramGetValueAtTime`: the same dispatch; the time is not passed
      on. */
  method ParamGetValueAtTime(cb: Callbacks, param: Addr, time: real, count: Int32, args: seq<VaArg>,
                             respond: Call -> OfxStatus) returns (status: OfxStatus)
    requires count <= 3 && count <= |args|
    requires forall i :: 0 <= i < count ==> args[i].PtrArg?
    modifies cb
    ensures count >= 1 ==> cb.calls == old(cb.calls) + [ValueCount(param), GetValue(param, Pointers(args, count))]
    ensures count >= 1 ==> status == respond(GetValue(param, Pointers(args, count)))
    ensures count <= 0 ==> cb.calls == old(cb.calls) + [ValueCount(param)] && status == Failed
  {
    status := GetValueShim(cb, param, count, args, 3, respond);
  }
}
