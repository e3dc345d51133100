/** The variadic entries of the parameter and message suites
    (src/variadic_functions.c). Rust cannot define C-variadic functions,
    so these C shims read their trailing arguments with `va_arg` and call
    fixed-arity Rust functions. The Rust functions are not modelled: each
    call is recorded in order in a `Callbacks` object, and what a call
    returns comes from `respond`, a function of the call. The probed
    value count, the parameter's type string and the `vsnprintf` results
    are inputs. */
module Variadic {
  import opened Machine
  import opened Status
  import opened Wrappers
  import opened Names

  /** One argument passed through `...`. */
  datatype VaArg = IntArg(i: Int32) | DoubleArg(d: real) | PtrArg(p: Addr)

  /** A call from a shim into the Rust side. */
  datatype Call =
    | ValueCount(param: Addr)
    | GetValue(param: Addr, values: seq<Addr>)
    | GetType(param: Addr)
    | SetBoolean(param: Addr, b: Int32)
    | SetInteger(param: Addr, i: Int32)
    | SetChoice(param: Addr, i: Int32)
    | SetDouble(param: Addr, d: real)
    | SetString(param: Addr, s: Addr)
    | MessageImpl(handle: Addr, messageType: Addr, messageId: Addr, message: MessageBuffer)
    | Free(buffer: MessageBuffer)

  /** The `char *` passed to `message_impl`: NULL, or a buffer holding
      the formatted text and its terminator. */
  datatype MessageBuffer = Null | Buffer(bytes: Bytes)

  /** The record of the calls the shims have made. */
  class Callbacks {
    var calls: seq<Call>

    constructor()
      ensures calls == []
    {
      calls := [];
    }

    /** Make one call and return what the Rust side answers. */
    method Invoke(c: Call, respond: Call -> OfxStatus) returns (status: OfxStatus)
      modifies this
      ensures calls == old(calls) + [c]
      ensures status == respond(c)
    {
      calls := calls + [c];
      status := respond(c);
    }
  }

  /** The `for` loop of the value getters: `vals[i] = va_arg(ap, void *)`
      for each `i` below `count`, into a buffer of `vals.Length` slots;
      nothing is read when `count` is not positive. */
  method ReadPointers(vals: array<Addr>, args: seq<VaArg>, count: int)
    requires count <= vals.Length && count <= |args|
    requires forall i :: 0 <= i < count ==> args[i].PtrArg?
    modifies vals
    ensures forall i :: 0 <= i < count ==> vals[i] == args[i].p
    ensures forall i :: Max(count, 0) <= i < vals.Length ==> vals[i] == old(vals[i])
  {
    var i := 0;
    while i < count
      invariant 0 <= i <= Max(count, 0)
      invariant forall j :: 0 <= j < i ==> vals[j] == args[j].p
      invariant forall j :: i <= j < vals.Length ==> vals[j] == old(vals[j])
    {
      vals[i] := args[i].p;
      i := i + 1;
    }
  }

  /** The pointers among the first `n` trailing arguments. */
  function Pointers(args: seq<VaArg>, n: nat): (ps: seq<Addr>)
    requires n <= |args| && forall i :: 0 <= i < n ==> args[i].PtrArg?
    ensures |ps| == n && forall i :: 0 <= i < n ==> ps[i] == args[i].p
  {
    seq(n, i requires 0 <= i < n => args[i].p)
  }

  /** The shared dispatch of the value getters: after the count probe,
      `count` pointers are read into a buffer of `slots` entries; a count
      from 1 to `slots` forwards them, in order, to the getter of that
      arity and returns its status; any other count returns Failed and
      forwards nothing. `count <= slots` is the C `assert`. */
  method GetValueShim(cb: Callbacks, param: Addr, count: Int32, args: seq<VaArg>, slots: nat,
                      respond: Call -> OfxStatus) returns (status: OfxStatus)
    requires 3 <= slots <= 4
    requires count <= slots && count <= |args|
    requires forall i :: 0 <= i < count ==> args[i].PtrArg?
    modifies cb
    ensures count >= 1 ==> cb.calls == old(cb.calls) + [ValueCount(param), GetValue(param, Pointers(args, count))]
    ensures count >= 1 ==> status == respond(GetValue(param, Pointers(args, count)))
    ensures count <= 0 ==> cb.calls == old(cb.calls) + [ValueCount(param)] && status == Failed
  {
    cb.calls := cb.calls + [ValueCount(param)];
    var vals := new Addr[slots](_ => 0);
    ReadPointers(vals, args, count);
    if count == 1 {
      assert [vals[0]] == Pointers(args, count);
      status := cb.Invoke(GetValue(param, [vals[0]]), respond);
    } else if count == 2 {
      assert [vals[0], vals[1]] == Pointers(args, count);
      status := cb.Invoke(GetValue(param, [vals[0], vals[1]]), respond);
    } else if count == 3 {
      assert [vals[0], vals[1], vals[2]] == Pointers(args, count);
      status := cb.Invoke(GetValue(param, [vals[0], vals[1], vals[2]]), respond);
    } else if count == 4 {
      assert [vals[0], vals[1], vals[2], vals[3]] == Pointers(args, count);
      status := cb.Invoke(GetValue(param, [vals[0], vals[1], vals[2], vals[3]]), respond);
    } else {
      status := Failed;
    }
  }

  /** `paramGetValue`: up to four values. */
  method ParamGetValue(cb: Callbacks, param: Addr, count: Int32, args: seq<VaArg>,
                       respond: Call -> OfxStatus) returns (status: OfxStatus)
    requires count <= 4 && count <= |args|
    requires forall i :: 0 <= i < count ==> args[i].PtrArg?
    modifies cb
    ensures count >= 1 ==> cb.calls == old(cb.calls) + [ValueCount(param), GetValue(param, Pointers(args, count))]
    ensures count >= 1 ==> status == respond(GetValue(param, Pointers(args, count)))
    ensures count <= 0 ==> cb.calls == old(cb.calls) + [ValueCount(param)] && status == Failed
  {
    status := GetValueShim(cb, param, count, args, 4, respond);
  }

  /** `paramGetValueAtTime`: up to three values; the time is not passed
      on, so the value at the current time is read. */
  method ParamGetValueAtTime(cb: Callbacks, param: Addr, time: real, count: Int32, args: seq<VaArg>,
                             respond: Call -> OfxStatus) returns (status: OfxStatus)
    requires count <= 3 && count <= |args|
    requires forall i :: 0 <= i < count ==> args[i].PtrArg?
    modifies cb
    ensures count >= 1 ==> cb.calls == old(cb.calls) + [ValueCount(param), GetValue(param, Pointers(args, count))]
    ensures count >= 1 ==> status == respond(GetValue(param, Pointers(args, count)))
    ensures count <= 0 ==> cb.calls == old(cb.calls) + [ValueCount(param)] && status == Failed
  {
    status := GetValueShim(cb, param, count, args, 3, respond);
  }

  // ---------------------------------------------------------------------
  // paramSetValue
  // ---------------------------------------------------------------------

  /** The five parameter types `paramSetValue` can set. */
  const SettableTypes: set<Bytes> :=
    {ParamTypeBoolean, ParamTypeInteger, ParamTypeDouble, ParamTypeString, ParamTypeChoice}

  /** The first trailing argument has the C type the setter for
      `paramType` reads with `va_arg`: an `int` for Boolean, Integer and
      Choice, a `double` for Double, a `char *` for String. Reading it as
      another type is undefined behaviour, so callers must supply it. */
  predicate ArgFits(paramType: Bytes, args: seq<VaArg>) {
    && (paramType in {ParamTypeBoolean, ParamTypeInteger, ParamTypeChoice} ==> |args| >= 1 && args[0].IntArg?)
    && (paramType == ParamTypeDouble ==> |args| >= 1 && args[0].DoubleArg?)
    && (paramType == ParamTypeString ==> |args| >= 1 && args[0].PtrArg?)
  }

  /** The setter call the `strcmp` chain selects for a type string, with
      the value it reads, or none for any other type. */
  function SetterCall(param: Addr, paramType: Bytes, args: seq<VaArg>): (c: Option<Call>)
    requires ArgFits(paramType, args)
    ensures c.Some? <==> paramType in SettableTypes
    ensures paramType == ParamTypeBoolean ==> c == Some(SetBoolean(param, args[0].i))
    ensures paramType == ParamTypeInteger ==> c == Some(SetInteger(param, args[0].i))
    ensures paramType == ParamTypeDouble ==> c == Some(SetDouble(param, args[0].d))
    ensures paramType == ParamTypeString ==> c == Some(SetString(param, args[0].p))
    ensures paramType == ParamTypeChoice ==> c == Some(SetChoice(param, args[0].i))
  {
    if paramType == ParamTypeBoolean then Some(SetBoolean(param, args[0].i))
    else if paramType == ParamTypeInteger then Some(SetInteger(param, args[0].i))
    else if paramType == ParamTypeDouble then Some(SetDouble(param, args[0].d))
    else if paramType == ParamTypeString then Some(SetString(param, args[0].p))
    else if paramType == ParamTypeChoice then Some(SetChoice(param, args[0].i))
    else None
  }

  /** The shared body of the setters: ask for the type string, then call
      the setter it selects and return 0 (OK), or return 1 (Failed)
      without calling any setter. `paramType` is the content of the
      string `param_get_type` returns. */
  method SetValueShim(cb: Callbacks, param: Addr, paramType: Bytes, args: seq<VaArg>) returns (status: OfxStatus)
    requires ArgFits(paramType, args)
    modifies cb
    ensures paramType in SettableTypes ==>
      cb.calls == old(cb.calls) + [GetType(param), SetterCall(param, paramType, args).value] && status == OK
    ensures paramType !in SettableTypes ==> cb.calls == old(cb.calls) + [GetType(param)] && status == Failed
  {
    cb.calls := cb.calls + [GetType(param)];
    if paramType == ParamTypeBoolean {
      cb.calls := cb.calls + [SetBoolean(param, args[0].i)];
    } else if paramType == ParamTypeInteger {
      cb.calls := cb.calls + [SetInteger(param, args[0].i)];
    } else if paramType == ParamTypeDouble {
      cb.calls := cb.calls + [SetDouble(param, args[0].d)];
    } else if paramType == ParamTypeString {
      cb.calls := cb.calls + [SetString(param, args[0].p)];
    } else if paramType == ParamTypeChoice {
      cb.calls := cb.calls + [SetChoice(param, args[0].i)];
    } else {
      return Failed;
    }
    status := OK;
  }

  /** `paramSetValue`. */
  method ParamSetValue(cb: Callbacks, param: Addr, paramType: Bytes, args: seq<VaArg>) returns (status: OfxStatus)
    requires ArgFits(paramType, args)
    modifies cb
    ensures paramType in SettableTypes ==>
      cb.calls == old(cb.calls) + [GetType(param), SetterCall(param, paramType, args).value] && status == OK
    ensures paramType !in SettableTypes ==> cb.calls == old(cb.calls) + [GetType(param)] && status == Failed
  {
    status := SetValueShim(cb, param, paramType, args);
  }

  /** `paramSetValueAtTime`: the same dispatch, and the time is not
      passed on. */
  method ParamSetValueAtTime(cb: Callbacks, param: Addr, time: real, paramType: Bytes, args: seq<VaArg>) returns (status: OfxStatus)
    requires ArgFits(paramType, args)
    modifies cb
    ensures paramType in SettableTypes ==>
      cb.calls == old(cb.calls) + [GetType(param), SetterCall(param, paramType, args).value] && status == OK
    ensures paramType !in SettableTypes ==> cb.calls == old(cb.calls) + [GetType(param)] && status == Failed
  {
    status := SetValueShim(cb, param, paramType, args);
  }

  // ---------------------------------------------------------------------
  // message
  // ---------------------------------------------------------------------

  /** `message`: the first `vsnprintf` probes the length of the formatted
      text (`probe`, negative on an encoding error); `text` is what
      formatting produces, of that length, and `mallocFails` says whether
      `malloc` returns NULL. A positive length gets a buffer of exactly
      `length + 1` bytes holding the text and its terminator; a length of
      0 or less, or a failed allocation, passes NULL. `message_impl` is
      called exactly once, the buffer is freed after it, and its status
      is returned. */
  method Message(cb: Callbacks, handle: Addr, messageType: Addr, messageId: Addr,
                 probe: Int32, text: Bytes, mallocFails: bool,
                 respond: Call -> OfxStatus) returns (status: OfxStatus, bufferSize: nat)
    requires probe < I32_MAX
    requires probe >= 0 ==> |text| == probe
    modifies cb
    ensures var m := if probe > 0 && !mallocFails then Buffer(text + [NUL]) else Null;
      && cb.calls == old(cb.calls) + [MessageImpl(handle, messageType, messageId, m), Free(m)]
      && status == respond(MessageImpl(handle, messageType, messageId, m))
    ensures bufferSize == if probe > 0 && !mallocFails then probe + 1 else 0
  {
    var m := Null;
    bufferSize := 0;
    if probe > 0 {
      var size := probe + 1;
      if !mallocFails {
        var p := new Byte[size](_ => NUL);
        bufferSize := p.Length;
        for i := 0 to size - 1
          modifies p
          invariant p[..i] == text[..i]
          invariant p[size - 1] == NUL
        {
          p[i] := text[i];
        }
        assert p[..] == text + [NUL];
        m := Buffer(p[..]);
      }
    }
    assert m == if probe > 0 && !mallocFails then Buffer(text + [NUL]) else Null;
    status := cb.Invoke(MessageImpl(handle, messageType, messageId, m), respond);
    cb.calls := cb.calls + [Free(m)];
  }
}
