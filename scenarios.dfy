/**
 * Short client runs, from process start, that use only the contracts of
 * the bridge: what a host and two models observe.
 */
module Scenarios {
  import opened Kernel
  import opened Dispatch
  import opened Interfaces
  import opened Models

  /** A UART model registers "uart0", the host binds it to a signal,
      the model creates one task and the simulator starts it. */
  method UartBringUp(cfg: Config, sim: Ptr, sig: Ptr, startRoutine: Ptr, ctx: Ptr)
    returns (registered: Itf, itf: Itf?, status: Int32, calls: seq<Event>)
    ensures itf == registered
    ensures registered.kind == Uart && registered.svHandle == Some(sig)
    ensures status == 0
    ensures calls == [DpiCreateTask(sim, 0), Invoke(startRoutine, ctx)]
  {
    var runtime := new Runtime();
    var model := new Model(runtime, cfg, sim);
    registered := new Itf(Uart);
    model.CreateItf("uart0", registered);
    itf := model.BindItf("uart0", sig);
    model.CreateTask(startRoutine, ctx);
    status := runtime.StartTask(0);
    calls := runtime.calls;
  }

  /** The task id space is shared by the whole process: two models'
      tasks get ids 0 and 1, while the handler id space starts at 0 on
      its own; a periodic handler runs the same pair each time. */
  method SharedIdSpaces(cfg: Config, simA: Ptr, simB: Ptr, taskCb: Ptr, taskArg: Ptr,
                        handlerCb: Ptr, handlerArg: Ptr, period: Int64)
    returns (calls: seq<Event>)
    ensures calls == [DpiCreateTask(simA, 0), DpiCreatePeriodicHandler(simB, 0, period),
                      DpiCreateTask(simB, 1), Invoke(handlerCb, handlerArg), Invoke(handlerCb, handlerArg)]
  {
    var runtime := new Runtime();
    var a := new Model(runtime, cfg, simA);
    var b := new Model(runtime, cfg, simB);
    a.CreateTask(taskCb, taskArg);
    b.CreatePeriodicHandler(period, handlerCb, handlerArg);
    b.CreateTask(taskCb, taskArg);
    runtime.ExecPeriodicHandler(0);
    runtime.ExecPeriodicHandler(0);
    calls := runtime.calls;
  }

  /** Re-registering a name replaces the old interface, an unknown name
      binds nothing, and the last bind wins. */
  method Reregister(cfg: Config, sim: Ptr, h1: Ptr, h2: Ptr)
    returns (first: Itf, second: Itf, missing: Itf?, bound: Itf?)
    ensures missing == null
    ensures bound == second && second.svHandle == Some(h2)
    ensures first.svHandle == None
  {
    var runtime := new Runtime();
    var model := new Model(runtime, cfg, sim);
    first := new Itf(Qspi);
    second := new Itf(Qspi);
    model.CreateItf("qspi0", first);
    model.CreateItf("qspi0", second);
    missing := model.BindItf("jtag0", h1);
    bound := model.BindItf("qspi0", h1);
    bound := model.BindItf("qspi0", h2);
  }

  /** With a null context handle the raise primitives call nothing; the
      wait primitives still forward. */
  method NullHandle(cfg: Config, ns: Int64) returns (calls: seq<Event>)
    ensures calls == [DpiWait(Null, ns), DpiWaitEvent(Null)]
  {
    var runtime := new Runtime();
    var model := new Model(runtime, cfg, Null);
    model.RaiseEventFromExt();
    model.Wait(ns);
    model.RaiseEvent();
    model.WaitEvent();
    calls := runtime.calls;
  }
}
