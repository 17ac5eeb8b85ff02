/**
 * The vocabulary shared by the whole bridge: opaque C pointers, the fixed
 * integer widths of the C API, the one configuration key the loader reads,
 * and the calls the bridge makes out of itself (into the simulator kernel,
 * into model callbacks and into the dynamic loader), recorded as events.
 */
module Kernel {

  /** An untyped `void *`: a simulator context handle, a signal handle,
      a callback or a captured argument. Only identity and nullness matter. */
  datatype Ptr = Null | Addr(addr: nat)

  datatype Option<T> = None | Some(value: T)

  /** One byte of a C string. */
  type Byte = b: int | 0 <= b < 0x100

  /** C `int` (32 bits) and `int64_t`. */
  type Int32 = x: int | -0x8000_0000 <= x < 0x8000_0000
  type Int64 = x: int | -0x8000_0000_0000_0000 <= x < 0x8000_0000_0000_0000

  /** A `js::config` node: its identity, and the string stored under its
      "module" key when that key is present. */
  datatype Config = Config(node: Ptr, modulePath: Option<string>)

  /** The flags `model_load` passes to `dlopen`. */
  datatype DlFlag = RtldNow | RtldGlobal | RtldDeepBind

  const LoadFlags: set<DlFlag> := {RtldNow, RtldGlobal, RtldDeepBind}

  /** The fixed symbol every model library must export. */
  const FactorySymbol: string := "dpi_model_new"

  /** One call made by the bridge into code outside it. */
  datatype Event =
    | DpiCreateTask(handle: Ptr, id: Int32)
    | DpiCreatePeriodicHandler(handle: Ptr, id: Int32, period: Int64)
    | DpiWait(handle: Ptr, ns: Int64)
    | DpiWaitPs(handle: Ptr, ps: Int64)
    | DpiWaitEvent(handle: Ptr)
    | DpiRaiseEvent(handle: Ptr)
    | DpiRaiseEventFromExt(handle: Ptr)
    | DpiPrint(handle: Ptr, text: seq<Byte>)
    | DpiFatal(handle: Ptr)
    | Invoke(callback: Ptr, argument: Ptr)
    | Dlopen(path: string, flags: set<DlFlag>)
    | Dlerror
    | Dlsym(library: Ptr, symbol: string)
    | CallFactory(factory: Ptr, config: Ptr, handle: Ptr)

  /** The two process-wide id spaces. */
  datatype Table = Tasks | Handlers

  /** The id that event `e` hands to the simulator out of `table`'s id space, if any. */
  function AllocatedBy(e: Event, table: Table): seq<int>
  {
    match e
    case DpiCreateTask(_, id) => if table == Tasks then [id] else []
    case DpiCreatePeriodicHandler(_, id, _) => if table == Handlers then [id] else []
    case _ => []
  }

  /** Every id of `table` handed to the simulator in `calls`, in order. */
  function IssuedIds(calls: seq<Event>, table: Table): seq<int>
  {
    if calls == [] then [] else AllocatedBy(calls[0], table) + IssuedIds(calls[1..], table)
  }

  /** The ids 0, 1, ..., n - 1 in increasing order. */
  function Dense(n: nat): (ids: seq<int>)
    ensures |ids| == n
    ensures forall i :: 0 <= i < n ==> ids[i] == i
  {
    if n == 0 then [] else Dense(n - 1) + [n - 1]
  }

  /** The ids issued over two stretches of calls are those of the first,
      then those of the second: the ids a prefix of the record issued are
      a prefix of all ids issued. */
  lemma {:induction false} IssuedIdsConcat(a: seq<Event>, b: seq<Event>, table: Table)
    ensures IssuedIds(a + b, table) == IssuedIds(a, table) + IssuedIds(b, table)
  {
    if a == [] {
      assert a + b == b;
    } else {
      assert (a + b)[0] == a[0];
      assert (a + b)[1..] == a[1..] + b;
      IssuedIdsConcat(a[1..], b, table);
    }
  }

  /** Appending a call adds exactly the id that call allocates, if any. */
  lemma IssuedIdsSnoc(calls: seq<Event>, e: Event, table: Table)
    ensures IssuedIds(calls + [e], table) == IssuedIds(calls, table) + AllocatedBy(e, table)
  {
    IssuedIdsConcat(calls, [e], table);
    assert [e][1..] == [];
  }

  /** While the issued ids are dense, the allocation at position i of the
      record carries the number of allocations in that id space before it:
      the k-th allocation hands out id k - 1. */
  lemma {:induction false} IssuedIdIsPriorCount(calls: seq<Event>, i: nat, table: Table)
    requires IssuedIds(calls, table) == Dense(|IssuedIds(calls, table)|)
    requires i < |calls| && AllocatedBy(calls[i], table) != []
    ensures AllocatedBy(calls[i], table) == [|IssuedIds(calls[..i], table)|]
  {
    var before, rest := calls[..i], calls[i + 1..];
    assert calls == before + ([calls[i]] + rest);
    IssuedIdsConcat(before, [calls[i]] + rest, table);
    IssuedIdsConcat([calls[i]], rest, table);
    assert [calls[i]][1..] == [];
    var p := |IssuedIds(before, table)|;
    var all := IssuedIds(calls, table);
    assert |AllocatedBy(calls[i], table)| == 1;
    assert all[p] == AllocatedBy(calls[i], table)[0];
  }
}
