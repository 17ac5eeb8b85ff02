/**
 * model_load: find the model library named by the configuration, open
 * it, look up its factory and let the factory build the model. The
 * dynamic loader and the factory are foreign code, so their outcomes are
 * parameters: `open` is what dlopen returns for a path, `sym` what dlsym
 * returns for a library and a symbol, and `make` what the factory returns
 * for a configuration node and a simulator handle.
 */
module Loader {
  import opened Kernel

  datatype Linker = Linker(
    open: string -> Ptr,
    sym: (Ptr, string) -> Ptr,
    make: (Ptr, Ptr, Ptr) -> Ptr)

  /** The three checks model_load makes before calling the factory. */
  predicate LoadSucceeds(config: Config, linker: Linker)
  {
    && config.modulePath.Some?
    && linker.open(config.modulePath.value) != Null
    && linker.sym(linker.open(config.modulePath.value), FactorySymbol) != Null
  }

  /** The number of fatal diagnostics in a call record. */
  function FatalCount(calls: seq<Event>): nat
  {
    if calls == [] then 0 else (if calls[0].DpiFatal? then 1 else 0) + FatalCount(calls[1..])
  }

  /** The number of factory calls in a call record. */
  function FactoryCount(calls: seq<Event>): nat
  {
    if calls == [] then 0 else (if calls[0].CallFactory? then 1 else 0) + FactoryCount(calls[1..])
  }

  /** Both counts split over a concatenation of call records. */
  lemma {:induction false} CountsConcat(a: seq<Event>, b: seq<Event>)
    ensures FatalCount(a + b) == FatalCount(a) + FatalCount(b)
    ensures FactoryCount(a + b) == FactoryCount(a) + FactoryCount(b)
  {
    if a == [] {
      assert a + b == b;
    } else {
      assert (a + b)[0] == a[0];
      assert (a + b)[1..] == a[1..] + b;
      CountsConcat(a[1..], b);
    }
  }

  /** Appending one call adds one to a count exactly when that call is of its kind. */
  lemma CountsSnoc(calls: seq<Event>, e: Event)
    ensures FatalCount(calls + [e]) == FatalCount(calls) + (if e.DpiFatal? then 1 else 0)
    ensures FactoryCount(calls + [e]) == FactoryCount(calls) + (if e.CallFactory? then 1 else 0)
  {
    CountsConcat(calls, [e]);
    assert [e][1..] == [];
  }

  /** model_load, returning the model it produces (null on failure) and
      the calls it made to the loader, the factory and the diagnostic sink,
      in order. Each failed check emits one fatal
      diagnostic and stops; nothing after it is attempted. */
  method ModelLoad(config: Config, handle: Ptr, linker: Linker) returns (model: Ptr, calls: seq<Event>)
    ensures config.modulePath.None? ==>
      model == Null && calls == [DpiFatal(handle)]
    ensures config.modulePath.Some? && linker.open(config.modulePath.value) == Null ==>
      model == Null && calls == [Dlopen(config.modulePath.value, LoadFlags), Dlerror, DpiFatal(handle)]
    ensures config.modulePath.Some? && linker.open(config.modulePath.value) != Null
            && linker.sym(linker.open(config.modulePath.value), FactorySymbol) == Null ==>
      model == Null
      && calls == [Dlopen(config.modulePath.value, LoadFlags),
                   Dlsym(linker.open(config.modulePath.value), FactorySymbol),
                   DpiFatal(handle)]
    ensures LoadSucceeds(config, linker) ==>
      var library := linker.open(config.modulePath.value);
      var factory := linker.sym(library, FactorySymbol);
      && model == linker.make(factory, config.node, handle)
      && calls == [Dlopen(config.modulePath.value, LoadFlags),
                   Dlsym(library, FactorySymbol),
                   CallFactory(factory, config.node, handle)]
    ensures FatalCount(calls) == (if LoadSucceeds(config, linker) then 0 else 1)
    ensures FactoryCount(calls) == (if LoadSucceeds(config, linker) then 1 else 0)
  {
    calls := [];
    if config.modulePath.None? {
      CountsSnoc(calls, DpiFatal(handle));
      calls := calls + [DpiFatal(handle)];
      return Null, calls;
    }
    var moduleName := config.modulePath.value;

    var library := linker.open(moduleName);
    CountsSnoc(calls, Dlopen(moduleName, LoadFlags));
    calls := calls + [Dlopen(moduleName, LoadFlags)];
    if library == Null {
      CountsSnoc(calls, Dlerror);
      calls := calls + [Dlerror];
      CountsSnoc(calls, DpiFatal(handle));
      calls := calls + [DpiFatal(handle)];
      return Null, calls;
    }

    var factory := linker.sym(library, FactorySymbol);
    CountsSnoc(calls, Dlsym(library, FactorySymbol));
    calls := calls + [Dlsym(library, FactorySymbol)];
    if factory == Null {
      CountsSnoc(calls, DpiFatal(handle));
      calls := calls + [DpiFatal(handle)];
      return Null, calls;
    }

    CountsSnoc(calls, CallFactory(factory, config.node, handle));
    calls := calls + [CallFactory(factory, config.node, handle)];
    model := linker.make(factory, config.node, handle);
  }
}
