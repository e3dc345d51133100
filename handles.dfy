/** Handles (src/handles.rs). An object that crosses the API boundary
    lives in an `Arc` allocation; its handle is the address of that
    allocation. A `HandleManager` maps each handle it has issued to a weak
    reference, so a handle resolves only when it was issued by that
    manager and its object is still alive. Resolution failures are panics
    in the host; here they are error values. */
module Handles {
  import opened Machine
  import opened Wrappers

  /** The identity of an allocated object: the address of its allocation.
      The null address is 0 and is never allocated. */
  type ObjId = Addr

  /** An OFX handle: a `void *` holding an object's address. */
  type Handle = Addr

  const NullHandle: Handle := 0

  /** Why `as_arc` panics: "Bad handle" or "points to deallocated object". */
  datatype ResolveError = BadHandle | Deallocated

  /** `Handle::as_arc`: look the handle up in the table of issued handles,
      then upgrade the weak reference, which fails once the object died. */
  function AsArc(table: map<Handle, ObjId>, live: set<ObjId>, h: Handle): (r: Result<ObjId, ResolveError>)
    ensures r == Err(BadHandle) <==> h !in table
    ensures r == Err(Deallocated) <==> h in table && table[h] !in live
    ensures r.Ok? <==> h in table && table[h] in live
    ensures r.Ok? ==> r.value == table[h]
  {
    if h !in table then Err(BadHandle)
    else if table[h] !in live then Err(Deallocated)
    else Ok(table[h])
  }

  /** `with_object`: resolve the handle, then run the callback on the
      object and return what the callback returns. */
  function WithObject<T>(table: map<Handle, ObjId>, live: set<ObjId>, h: Handle,
                         callback: ObjId -> T): (r: Result<T, ResolveError>)
    ensures r.Ok? <==> AsArc(table, live, h).Ok?
    ensures r.Ok? ==> r.value == callback(AsArc(table, live, h).value)
    ensures r.Err? ==> r.error == AsArc(table, live, h).error
  {
    match AsArc(table, live, h)
    case Ok(obj) => Ok(callback(obj))
    case Err(e) => Err(e)
  }

  /** A table in which every handle is the address of the object it
      refers to, as `get_handle` builds it. */
  predicate AddressKeyed(table: map<Handle, ObjId>) {
    forall h :: h in table ==> table[h] == h
  }

  /** The table of handles for one kind of object, updated in place.
      The store of host objects keeps one such table per kind as a value
      (`Host.TableOf`), and `Host.Issue` is `GetHandle` on the table of
      that kind: both leave `table[obj := obj]`. */
  class HandleManager {
    var handleToPtr: map<Handle, ObjId>

    /** `HandleManager::new`: no handles issued. */
    constructor()
      ensures handleToPtr == map[]
    {
      handleToPtr := map[];
    }

    /** `get_handle`: the handle is the object's address; the table
        records it (again, if it was already there). */
    method GetHandle(obj: ObjId) returns (h: Handle)
      modifies this
      ensures h == obj
      ensures handleToPtr == old(handleToPtr)[obj := obj]
    {
      h := obj;
      handleToPtr := handleToPtr[h := obj];
    }
  }

  /** After `get_handle(obj)`, the handle resolves to `obj` while `obj`
      is alive, and reports a dead object otherwise. */
  lemma ResolveIssued(table: map<Handle, ObjId>, live: set<ObjId>, obj: ObjId)
    ensures obj in live ==> AsArc(table[obj := obj], live, obj) == Ok(obj)
    ensures obj !in live ==> AsArc(table[obj := obj], live, obj) == Err(Deallocated)
  {
  }

  /** Issuing a handle for the same object twice gives the same handle
      and the same table, and issuing keeps a table address-keyed; the
      table grows by at most the one handle. */
  lemma IssueIdempotent(table: map<Handle, ObjId>, obj: ObjId)
    requires AddressKeyed(table)
    ensures AddressKeyed(table[obj := obj])
    ensures table[obj := obj][obj := obj] == table[obj := obj]
    ensures table[obj := obj].Keys == table.Keys + {obj}
    ensures obj in table ==> table[obj := obj] == table
  {
  }

  /** Issuing another handle does not change how any earlier handle
      resolves. */
  lemma IssueKeepsOthers(table: map<Handle, ObjId>, live: set<ObjId>, obj: ObjId, h: Handle)
    requires AddressKeyed(table) && h in table
    ensures AsArc(table[obj := obj], live, h) == AsArc(table, live, h)
  {
  }
}
