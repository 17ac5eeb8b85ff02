# DPI model bridge, modelled in Dafny

This project models the runtime bridge of `dpi-models`, which lets separately
compiled peripheral models (QSPI, JTAG, UART, camera-style CPI, reset control)
run inside a hardware simulator. The model covers four parts:

- The process-wide dispatch tables. These are two pairs of parallel,
  append-only vectors: task callback/argument and periodic-handler
  callback/argument. The simulator runs an entry by its integer id
  (`Dispatch.Runtime`).
- The interfaces. `Dpi_itf` and its five kinds hold only the back-reference
  `sv_handle`, which `bind` overwrites (`Interfaces.Itf`).
- The model instance (`Models.Model`). It holds a registry of interfaces by
  name, id allocation for tasks and periodic handlers, and the forwarding of
  `wait`, `wait_ps`, `wait_event`, `raise_event` and `raise_event_from_ext`
  to the simulator kernel.
- The loader `model_load` (`Loader.ModelLoad`). It reads the `module` key,
  calls `dlopen`, looks up `dpi_model_new` with `dlsym`, and calls that factory.

The calls the bridge makes into the simulator, into model code and into the
dynamic loader are recorded as `Kernel.Event`s:
- simulator kernel primitives such as `dpi_create_task` and `dpi_wait`;
- calls of a stored callback;
- `dlopen`, `dlerror`, `dlsym` and the factory call.

Calls into the C library for formatting (`vsnprintf`) and into the
configuration tree (`get`, `get_str`) are not recorded.

`Runtime.calls` holds this record for the dispatch tables and the model
methods. `ModelLoad` returns its own record.

The four static vectors of `models.cpp` exist once per process. In the model
they are the fields of one `Dispatch.Runtime` object, which every
`Models.Model` receives at construction. A process corresponds to exactly
one `Runtime`; two `Runtime` objects would stand for two processes, each
with its own id spaces.

The central invariant is `Runtime.Valid()`. It says two things. First, the
tables stay parallel. Second, for each table, the ids given to the simulator
so far are exactly 0, 1, …, n − 1, in that order, where n is the table's
length. From this, `Kernel.IssuedIdIsPriorCount` proves that the k-th
allocation gets id k − 1.

Foreign code appears only as parameters:
- `dlopen`, `dlsym` and the factory are the fields of `Loader.Linker`;
- callbacks, arguments and handles are opaque `Kernel.Ptr` values;
- the configuration tree is reduced to a `Kernel.Config`, which holds the
  node's identity and the optional `module` string.

Three points where the model follows the code closely:
- `create_task` and `create_periodic_handler` return nothing. The id goes
  only to the simulator.
- `sv_handle` starts out uninitialised, not null. The model writes this as
  `None`.
- The task dispatch entry point is `dpi_start_task`. It returns 0.

## Model

| member | source | states |
|---|---|---|
| `Kernel.IssuedIdIsPriorCount` | src/models.cpp:93-107 | while the issued ids are dense, the id handed out by an allocation equals the number of allocations in the same id space before it (the k-th `create_task` uses id k − 1) |
| `Kernel.IssuedIdsConcat` | src/models.cpp:93-107 | helper of `IssuedIdIsPriorCount`: the ids issued by a prefix of the call record are a prefix of all issued ids, followed by those the rest of the record issues |
| `Dispatch.Runtime.constructor` | src/models.cpp:31-34 | at process start the four vectors are empty, nothing has been called, and the table invariant holds |
| `Dispatch.Runtime.StartTask` | src/models.cpp:109-113 | for an issued id, runs exactly the stored pair `(tasks_cb[id], tasks_arg[id])` once, returns 0, leaves all four tables and the invariant unchanged |
| `Dispatch.Runtime.ExecPeriodicHandler` | src/models.cpp:115-118 | for an issued id, runs exactly `(handlers_cb[id], handlers_arg[id])` once and changes no table, so every call with that id runs the same pair |
| `Interfaces.Itf.constructor` | include/dpi/models.hpp:33-40 | a new interface of a given kind is not yet bound |
| `Interfaces.Itf.Bind` | src/models.cpp:159-162 | the back-reference becomes the given handle, whatever it was before (last write wins) |
| `Interfaces.Itf.SckEdge` | include/dpi/models.hpp:47 | the default QSPI edge callback changes nothing |
| `Interfaces.Itf.TxEdge` | include/dpi/models.hpp:65 | the default UART edge callback changes nothing |
| `Interfaces.Itf.CpiEdge` | include/dpi/models.hpp:74 | the default timestamped CPI edge callback changes nothing |
| `Models.Model.constructor` | src/models.cpp:120-123 | keeps the configuration and the context handle; the registry starts empty |
| `Models.Model.CreateItf` | src/models.cpp:172-175 | the registry maps the name to the new interface, replacing any earlier one; every other name keeps its entry |
| `Models.Model.BindItf` | src/models.cpp:164-170 | returns null exactly when the name is unknown, and then modifies nothing; otherwise returns that name's interface, now bound to the handle; no other interface changes |
| `Models.Model.CreateTask` | src/models.cpp:93-99 | appends one entry to each task vector, forwards `(handle, old length)` to the simulator, leaves the handler tables untouched, and keeps the dense-id invariant |
| `Models.Model.CreatePeriodicHandler` | src/models.cpp:101-107 | appends one entry to each handler vector, forwards `(handle, old length, period)`, leaves the task tables untouched, and keeps the invariant |
| `Models.Model.Wait` | src/models.cpp:125-128 | forwards `dpi_wait(handle, ns)` exactly once with unchanged arguments, and changes no table |
| `Models.Model.WaitPs` | src/models.cpp:130-133 | forwards `dpi_wait_ps(handle, ps)` exactly once, and changes no table |
| `Models.Model.WaitEvent` | src/models.cpp:135-138 | forwards `dpi_wait_event(handle)` exactly once, and changes no table |
| `Models.Model.RaiseEvent` | src/models.cpp:142-148 | makes no call when the handle is null and exactly one `dpi_raise_event` call otherwise |
| `Models.Model.RaiseEventFromExt` | src/models.cpp:150-156 | makes no call when the handle is null and exactly one `dpi_raise_event_from_ext` call otherwise |
| `Models.Model.Print` | src/models.cpp:74-91 | makes exactly one `dpi_print` call; as the source's retry loop is written, a message shorter than 1024 bytes arrives whole and one of 1024 bytes or more arrives without its last byte; the sink sees that text only up to its first NUL byte |
| `Diagnostics.UntilNul` | src/models.cpp:86 | what `dpi_print` reads from the buffer as a C string: a prefix of the buffer with no NUL in it, ending just before the first NUL when there is one |
| `Models.Model.Start` | include/dpi/models.hpp:103 | the default `start` changes nothing |
| `Loader.CountsConcat` | src/models.cpp:182-210 | helper of `ModelLoad`'s counting clauses: the fatal and factory-call counts of a concatenated call record are the sums of the parts' counts |
| `Loader.ModelLoad` | src/models.cpp:182-210 | with no `module` key: one fatal and nothing else; if `dlopen` fails: `dlerror`, then one fatal, and no `dlsym`; if `dlsym` fails: one fatal and no factory call; each failure returns null. Otherwise: no fatal, one factory call with `(config, handle)`, and its result is returned unchanged |
| `Diagnostics.FormatAsWritten` | src/models.cpp:36-53 | the retry loop as written: a message shorter than 1024 bytes is passed on whole, and one of 1024 bytes or more loses its last byte |
| `Diagnostics.TruncationWitness` | src/models.cpp:44-51 | a 1024-byte message is passed on one byte short |
| `Diagnostics.Format` | src/models.cpp:36-91 | the corrected retry loop passes every message on whole |
| `Scenarios.UartBringUp` | src/models.cpp:93-113 | from process start, "uart0" is registered and bound to the signal handle, and the first task gets id 0; starting id 0 runs exactly that routine on its argument |
| `Scenarios.SharedIdSpaces` | src/models.cpp:93-118 | task ids are shared across models (0, then 1), handler ids are a separate space from 0, and repeated periodic dispatch runs the same pair |
| `Scenarios.Reregister` | src/models.cpp:159-175 | a second `create_itf` under the same name replaces the first interface, an unknown name binds nothing, and the last bind wins |
| `Scenarios.NullHandle` | src/models.cpp:125-156 | with a null context handle the raise primitives call nothing, and the wait primitives still forward |

## Left out

- The C varargs formatting and the exact diagnostic texts are not modelled. `model_load` records a fatal only as `DpiFatal(handle)`. One of its messages says "model" where the key is "module"; that wording is not modelled either. The `dlerror()` call is recorded as `Dlerror`, but the text it returns is not modelled.
- `Diagnostics.FormatAsWritten` and `Diagnostics.Format` take the message already formatted, as the bytes of a C string. Messages are byte sequences, so a multi-byte character cut in the middle is not distinguished from any other byte. vsnprintf's negative return on an encoding error is not modelled. A NUL produced inside a message (for example by `%c` with 0) is modelled: `Models.Model.Print` passes on only the bytes before it. The stack-allocated buffer is not modelled.
- `dpi_print_stub` is never called in `models.cpp`. Its loop is the same one that `Diagnostics` models.
- `Models.Model.CreateTask` requires fewer than 2^31 entries in the task table. The source converts the table size to a C `int` and does not handle a larger size.
- `Models.Model.CreatePeriodicHandler` requires fewer than 2^31 entries in the handler table, for the same reason.
- Calling a stored callback is recorded as an `Invoke` event only. What the callback does is foreign code; it may, for example, create further tasks.
- The suspension and resumption semantics of the `dpi_*` kernel primitives belong to the simulator. The model records them as events.
- The cross-thread use of `raise_event_from_ext` and cooperative scheduling are concurrency concerns, so they are not modelled.
- `set_data`, `set_qpi_data`, `rx_edge`, `tck_edge`, `reset_edge` and the four-argument `Cpi_itf::edge` are declared in include/dpi/models.hpp with no definition in src/models.cpp, so they are not modelled.
- `get_config` only returns the configuration pointer. The model exposes it as the constant field `Models.Model.config`.
- `Models.Model.CreateItf` takes a non-null interface. Registering a null pointer would make a later `bind_itf` dereference null; that case is not modelled.
- The configuration is reduced to the presence and value of its `module` key. A null configuration pointer passed to `model_load` is not modelled.
- Neither models.cpp nor models.hpp unloads a model or frees its interfaces, so the model has no such operation.

## Findings

| source | as written | input that shows it | evidently intended | confidence | as-written member | corrected member |
|---|---|---|---|---|---|---|
| src/models.cpp:44-51 (also 63-70, 82-89) | The loop accepts the buffer when vsnprintf's result is `<= size`. vsnprintf returns the length without the NUL, so a result equal to `size` means the text was cut. The retry buffer gets `iter_size` bytes, which again has no room for the NUL. | Any message of 1024 bytes or more: the diagnostic sink receives all its bytes but the last. | Accept only when `iter_size < size`, and retry with `iter_size + 1` bytes. | high, not executed | `Diagnostics.FormatAsWritten`, `Diagnostics.TruncationWitness` | `Diagnostics.Format` |

`Models.Model.Print` keeps the behaviour as written, because it models `Dpi_model::print` itself. `Diagnostics.Format` is the loop as intended.
