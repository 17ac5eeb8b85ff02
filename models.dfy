/**
 * Dpi_model: one loaded peripheral model. It owns a registry from
 * interface name to interface, keeps its configuration node and its
 * simulator context handle, allocates tasks and periodic handlers in the
 * process-wide tables, and forwards the cooperative primitives to the
 * simulator kernel.
 */
module Models {
  import opened Kernel
  import opened Dispatch
  import opened Interfaces
  import Diagnostics

  /** The largest table length whose size still converts exactly to a C `int` id. */
  const IdBound: nat := 0x8000_0000

  class Model {
    /** The process-wide tables and call record every model shares. */
    const runtime: Runtime
    const config: Config
    /** The simulator context handle; may be null. */
    const handle: Ptr
    /** itfs: at most one interface per name. */
    var itfs: map<string, Itf>

    /** Dpi_model::Dpi_model: keeps the configuration and the handle; no interfaces yet. */
    constructor (runtime: Runtime, config: Config, handle: Ptr)
      ensures this.runtime == runtime && this.config == config && this.handle == handle
      ensures itfs == map[]
    {
      this.runtime := runtime;
      this.config := config;
      this.handle := handle;
      itfs := map[];
    }

    /** Dpi_model::create_itf: registers `itf` under `name`, silently
        replacing an earlier registration; every other name keeps its entry. */
    method CreateItf(name: string, itf: Itf)
      modifies this
      ensures itfs == old(itfs)[name := itf]
      ensures forall n | n in old(itfs) && n != name :: n in itfs && itfs[n] == old(itfs)[n]
    {
      itfs := itfs[name := itf];
    }

    /** Dpi_model::bind_itf: null and no change at all for an unknown name;
        otherwise binds that name's interface to `h` and returns it. */
    method BindItf(name: string, h: Ptr) returns (r: Itf?)
      modifies if name in itfs then {itfs[name]} else {}
      ensures name !in itfs <==> r == null
      ensures name in itfs ==> r == itfs[name] && r.svHandle == Some(h)
      ensures forall i | i in itfs.Values && i != r :: i.svHandle == old(i.svHandle)
    {
      if name !in itfs {
        return null;
      }
      itfs[name].Bind(h);
      r := itfs[name];
    }

    /** Dpi_model::create_task: the fresh id is the task table's length
        before the call; one entry is appended to each task vector and the
        id is forwarded to the simulator. Nothing is returned to the caller. */
    method CreateTask(cb: Ptr, arg: Ptr)
      requires runtime.Valid()
      requires |runtime.tasksCb| < IdBound
      modifies runtime
      ensures runtime.Valid()
      ensures runtime.tasksCb == old(runtime.tasksCb) + [cb]
      ensures runtime.tasksArg == old(runtime.tasksArg) + [arg]
      ensures runtime.handlersCb == old(runtime.handlersCb) && runtime.handlersArg == old(runtime.handlersArg)
      ensures runtime.calls == old(runtime.calls) + [DpiCreateTask(handle, |old(runtime.tasksCb)|)]
    {
      var taskId: Int32 := |runtime.tasksCb|;
      runtime.tasksCb := runtime.tasksCb + [cb];
      runtime.tasksArg := runtime.tasksArg + [arg];
      var e := DpiCreateTask(handle, taskId);
      IssuedIdsSnoc(runtime.calls, e, Tasks);
      IssuedIdsSnoc(runtime.calls, e, Handlers);
      runtime.calls := runtime.calls + [e];
    }

    /** Dpi_model::create_periodic_handler: the same allocation in the
        handler table's own id space; forwards the id and the period. */
    method CreatePeriodicHandler(period: Int64, cb: Ptr, arg: Ptr)
      requires runtime.Valid()
      requires |runtime.handlersCb| < IdBound
      modifies runtime
      ensures runtime.Valid()
      ensures runtime.handlersCb == old(runtime.handlersCb) + [cb]
      ensures runtime.handlersArg == old(runtime.handlersArg) + [arg]
      ensures runtime.tasksCb == old(runtime.tasksCb) && runtime.tasksArg == old(runtime.tasksArg)
      ensures runtime.calls == old(runtime.calls) + [DpiCreatePeriodicHandler(handle, |old(runtime.handlersCb)|, period)]
    {
      var handlerId: Int32 := |runtime.handlersCb|;
      runtime.handlersCb := runtime.handlersCb + [cb];
      runtime.handlersArg := runtime.handlersArg + [arg];
      var e := DpiCreatePeriodicHandler(handle, handlerId, period);
      IssuedIdsSnoc(runtime.calls, e, Tasks);
      IssuedIdsSnoc(runtime.calls, e, Handlers);
      runtime.calls := runtime.calls + [e];
    }

    /** Dpi_model::wait: forwards the delay once, unguarded. */
    method Wait(ns: Int64)
      requires runtime.Valid()
      modifies runtime
      ensures runtime.Valid()
      ensures runtime.calls == old(runtime.calls) + [DpiWait(handle, ns)]
      ensures runtime.tasksCb == old(runtime.tasksCb) && runtime.tasksArg == old(runtime.tasksArg)
      ensures runtime.handlersCb == old(runtime.handlersCb) && runtime.handlersArg == old(runtime.handlersArg)
    {
      runtime.Emit(DpiWait(handle, ns));
    }

    /** Dpi_model::wait_ps: forwards the delay once, unguarded. */
    method WaitPs(ps: Int64)
      requires runtime.Valid()
      modifies runtime
      ensures runtime.Valid()
      ensures runtime.calls == old(runtime.calls) + [DpiWaitPs(handle, ps)]
      ensures runtime.tasksCb == old(runtime.tasksCb) && runtime.tasksArg == old(runtime.tasksArg)
      ensures runtime.handlersCb == old(runtime.handlersCb) && runtime.handlersArg == old(runtime.handlersArg)
    {
      runtime.Emit(DpiWaitPs(handle, ps));
    }

    /** Dpi_model::wait_event: forwards once, unguarded. */
    method WaitEvent()
      requires runtime.Valid()
      modifies runtime
      ensures runtime.Valid()
      ensures runtime.calls == old(runtime.calls) + [DpiWaitEvent(handle)]
      ensures runtime.tasksCb == old(runtime.tasksCb) && runtime.tasksArg == old(runtime.tasksArg)
      ensures runtime.handlersCb == old(runtime.handlersCb) && runtime.handlersArg == old(runtime.handlersArg)
    {
      runtime.Emit(DpiWaitEvent(handle));
    }

    /** Dpi_model::raise_event: one call to the simulator when the handle is
        non-null, none at all when it is null. */
    method RaiseEvent()
      requires runtime.Valid()
      modifies runtime
      ensures runtime.Valid()
      ensures handle == Null ==> runtime.calls == old(runtime.calls)
      ensures handle != Null ==> runtime.calls == old(runtime.calls) + [DpiRaiseEvent(handle)]
      ensures runtime.tasksCb == old(runtime.tasksCb) && runtime.tasksArg == old(runtime.tasksArg)
      ensures runtime.handlersCb == old(runtime.handlersCb) && runtime.handlersArg == old(runtime.handlersArg)
    {
      if handle != Null {
        runtime.Emit(DpiRaiseEvent(handle));
      }
    }

    /** Dpi_model::raise_event_from_ext: the same null-handle guard. */
    method RaiseEventFromExt()
      requires runtime.Valid()
      modifies runtime
      ensures runtime.Valid()
      ensures handle == Null ==> runtime.calls == old(runtime.calls)
      ensures handle != Null ==> runtime.calls == old(runtime.calls) + [DpiRaiseEventFromExt(handle)]
      ensures runtime.tasksCb == old(runtime.tasksCb) && runtime.tasksArg == old(runtime.tasksArg)
      ensures runtime.handlersCb == old(runtime.handlersCb) && runtime.handlersArg == old(runtime.handlersArg)
    {
      if handle != Null {
        runtime.Emit(DpiRaiseEventFromExt(handle));
      }
    }

    /** Dpi_model::print: one message to the simulator's print sink, through
        the retry loop as the source writes it, so a message of 1024 bytes
        or more arrives without its last byte; the sink reads the buffer as
        a C string, up to its first NUL. */
    method Print(msg: seq<Byte>)
      requires runtime.Valid()
      modifies runtime
      ensures runtime.Valid()
      ensures runtime.calls == old(runtime.calls)
        + [DpiPrint(handle, Diagnostics.UntilNul(
             if |msg| < Diagnostics.InitialBufferSize then msg else msg[..|msg| - 1]))]
      ensures runtime.tasksCb == old(runtime.tasksCb) && runtime.tasksArg == old(runtime.tasksArg)
      ensures runtime.handlersCb == old(runtime.handlersCb) && runtime.handlersArg == old(runtime.handlersArg)
    {
      var text := Diagnostics.FormatAsWritten(msg);
      runtime.Emit(DpiPrint(handle, Diagnostics.UntilNul(text)));
    }

    /** Dpi_model::start, the default: does nothing. */
    method Start()
      ensures unchanged(this, runtime)
    {
    }
  }
}
