/**
 * The process-wide dispatch tables of models.cpp: two pairs of parallel,
 * append-only vectors (task callback/argument, periodic-handler
 * callback/argument), the two entry points through which the simulator
 * runs an entry by id, and the record of the calls the tables and the
 * model methods have made into the simulator kernel and into stored
 * callbacks.
 */
module Dispatch {
  import opened Kernel

  class Runtime {
    var tasksCb: seq<Ptr>
    var tasksArg: seq<Ptr>
    var handlersCb: seq<Ptr>
    var handlersArg: seq<Ptr>
    /** Every call made into the simulator kernel or into a callback, oldest first. */
    var calls: seq<Event>

    /** The tables stay parallel, and the ids handed to the simulator so far
        are exactly 0 .. n - 1 of each table, in the order they were handed
        out: every issued id names an entry, and no id is issued twice. */
    ghost predicate Valid()
      reads this
    {
      && |tasksCb| == |tasksArg|
      && |handlersCb| == |handlersArg|
      && IssuedIds(calls, Tasks) == Dense(|tasksCb|)
      && IssuedIds(calls, Handlers) == Dense(|handlersCb|)
    }

    /** The state at process start: the static vectors are empty and nothing has been called. */
    constructor ()
      ensures Valid()
      ensures tasksCb == [] && tasksArg == [] && handlersCb == [] && handlersArg == []
      ensures calls == []
    {
      tasksCb, tasksArg := [], [];
      handlersCb, handlersArg := [], [];
      calls := [];
    }

    /** Records one outward call that allocates no id; the tables are untouched. */
    method Emit(e: Event)
      requires Valid()
      requires AllocatedBy(e, Tasks) == [] && AllocatedBy(e, Handlers) == []
      modifies this
      ensures Valid()
      ensures calls == old(calls) + [e]
      ensures tasksCb == old(tasksCb) && tasksArg == old(tasksArg)
      ensures handlersCb == old(handlersCb) && handlersArg == old(handlersArg)
    {
      IssuedIdsSnoc(calls, e, Tasks);
      IssuedIdsSnoc(calls, e, Handlers);
      calls := calls + [e];
    }

    /** dpi_start_task: runs the callback stored at `id` on its captured
        argument and returns 0. There is no bounds check, so `id` must have
        been issued. */
    method StartTask(id: Int32) returns (status: Int32)
      requires Valid()
      requires 0 <= id < |tasksCb|
      modifies this
      ensures Valid()
      ensures status == 0
      ensures calls == old(calls) + [Invoke(old(tasksCb[id]), old(tasksArg[id]))]
      ensures tasksCb == old(tasksCb) && tasksArg == old(tasksArg)
      ensures handlersCb == old(handlersCb) && handlersArg == old(handlersArg)
    {
      Emit(Invoke(tasksCb[id], tasksArg[id]));
      status := 0;
    }

    /** dpi_exec_periodic_handler: runs the handler stored at `id` on its
        captured argument. The tables are unchanged, so every call with the
        same id runs the same pair again. No bounds check either. */
    method ExecPeriodicHandler(id: Int32)
      requires Valid()
      requires 0 <= id < |handlersCb|
      modifies this
      ensures Valid()
      ensures calls == old(calls) + [Invoke(old(handlersCb[id]), old(handlersArg[id]))]
      ensures tasksCb == old(tasksCb) && tasksArg == old(tasksArg)
      ensures handlersCb == old(handlersCb) && handlersArg == old(handlersArg)
    {
      Emit(Invoke(handlersCb[id], handlersArg[id]));
    }
  }
}
