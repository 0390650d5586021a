# lithops-compute MCP tools: a verified model of the future ledger and argument marshalling

`app.py` exposes the `lithops` executor as MCP tools. Beyond forwarding calls to
`lithops`, the module owns three things, and this project models and proves them:

* **The future ledger**: the module-global list `future`. Every submission tool
  (`lithops_map`, `lithops_call_async`, `lithops_map_reduce`) appends exactly one
  batch and returns the whole list. A batch is a single future (`call_async`) or a
  list of futures (`map`, `map_reduce`). Every management tool (`lithops_get_result`,
  `lithops_clean`, `lithops_plot`, `lithops_wait`) hands the executor `future[start:end]`
  as `fs`, either whole (batch mode, `response=True`) or flattened batch by batch.
  `delete_from_future` removes `future[start:end]` in place.
* **Argument normalisation**: the optional `tuple(...)` conversion of rows, data and
  extra arguments. This covers the `None` checks, the caught `KeyError` and the
  dict-first-row guard of `map_reduce`. After conversion, `arguments.update(args)`
  lets caller keys override the required fields.
* **Plot's statistics loop**: one `fut.stats` per selected item, in order.

Files:

* `outcomes.dfy` (module `Outcomes`): `Option`, the Python exceptions the code raises, `Result`.
* `values.dfy` (module `Values`): Python values, `tuple()` and `dict.update`.
* `ledger.dfy` (module `Ledger`): futures and batches, CPython slice semantics proved
  equal to an independent reference definition, flattening, slice delete, and the class
  `FutureLedger` for the list `future`.
* `submission.dfy` (module `Submission`): the keyword arguments each submission tool
  hands to the executor.
* `tools.dfy` (module `Tools`): the class `Server` for the globals `fexec` and `future`,
  and the tools that use them.

Foreign parts become parameters. Each submission's executor result is an opaque future
or list of futures passed in. The function that `exec` plus `globals().get(name)`
resolves is a `Value` passed in, possibly `Null`. `fexec` is only "configured or not".
A missing executor raises `AttributeError` at the `fexec.<method>` lookup. That lookup
comes after the arguments are normalised and before anything is appended.

Where the code does something its docstrings or its evident intent do not suggest, the
model follows the code. These behaviours are taken from the code:

* A dict is not protected from tuple conversion. The `lithops_call_async` docstring says
  a dict `data` is for keyword arguments (app.py:181). With the tuple flag set, `tuple()`
  still turns a dict `data` into the tuple of its keys (app.py:224-225). The same happens
  to dict rows in `lithops_map` and `lithops_map_reduce` (app.py:149, 333). See
  `Submission.MappingRowsBecomeKeyTuples`.
* A failed conversion is not treated as "not requested". Only `KeyError` is caught
  (app.py:154, 341). The `TypeError` of `tuple()` on a non-iterable row or extra argument
  propagates (app.py:149, 153, 225, 333, 338, 340).
* `IndexError` propagates too: a non-None `extra_args` with an empty `map_iterdata`
  raises it at app.py:337.
* In `lithops_map_reduce`, `extra_args` is converted whatever the tuple flag. A missing
  `extra_args` also skips the `extra_args_reduce` conversion, because both share one
  `try` (app.py:336-342).
* An unresolved function name is not an error at this layer. `globals().get(name)` may
  give `None`, and that `None` is passed on as the function (app.py:158, 228, 345, 347).
  In the model this is a `Null` function value.
* Management tools always use the current executor, whatever executor produced the
  selected futures (app.py:378, 406, 440, 480).
* Submissions return the whole ledger, not the new batch (app.py:165, 235, 353).

## Model

| member | source | states |
|---|---|---|
| `Values.ToTuple` | app.py:225 | `tuple(v)` succeeds exactly on iterable values and raises TypeError otherwise. A list or tuple keeps its items in order. A dict becomes the tuple of its keys. |
| `Values.TupleRows` | app.py:148-150 | The comprehension converts every row, keeping row count and order, with `ToTuple(rows[i]) == Ok(r[i])`. It fails with TypeError exactly when some row is not iterable. |
| `Values.Update` | app.py:162 | `update` keeps the keys of both dicts. A key of `args` takes the caller's value. Other keys keep the required value. |
| `Ledger.PickIsClampedSlice` | app.py:375 | Selecting the positions in `[lo, hi)` is the contiguous slice between the bounds clamped to the sequence. |
| `Ledger.PySlice` | app.py:375 | `future[start:end]` with CPython's bound adjustment: the selection has `SliceEnd - SliceStart` elements, never negative and never more than the ledger. Which positions it keeps is stated by `PySliceIsPick`. |
| `Ledger.PySliceIsPick` | app.py:374-375 | `future[start:end]` equals the reference selection: the elements whose position lies in `[start, end)` as Python reads the bounds, in order. Absent means the boundary and negative counts from the end. Out of range selects nothing beyond the ends. |
| `Ledger.PySliceWhole` | app.py:375 | With both bounds `None`, the slice is the whole ledger. |
| `Ledger.PySliceLast` | app.py:375 | `future[-k:]` is the last `k` batches. |
| `Ledger.PySliceEmpty` | app.py:375 | An inverted or empty range, or one starting at or past the end, gives an empty selection and no error. |
| `Ledger.Flatten` | app.py:377 | Flattening succeeds exactly when every selected batch is a list. Its length is the sum of the batch sizes. A single future in range raises TypeError. |
| `Ledger.FlattenAt` | app.py:377 | Future `j` of batch `i` sits at position `TotalSize(bs[..i]) + j`: batch order first, then in-batch order. |
| `Ledger.FlattenStep` | app.py:377 | For a list-only ledger, the flattening is the first batch's futures followed by the flattening of the rest. |
| `Ledger.FlattenConcat` | app.py:377 | Flattening two consecutive runs of batches concatenates their flattenings. |
| `Ledger.DeleteSlice` | app.py:492 | `del s[start:end]` removes exactly the selected slice. Earlier elements keep their positions. Later elements shift down by the slice length. |
| `Ledger.DeleteReinsert` | app.py:492 | Putting the removed slice back at the normalised start restores the old ledger. |
| `Ledger.DeleteKeepsEarlier` | app.py:492 | After the delete, a selection before the normalised start sees the same batches as before. |
| `Ledger.DeleteShiftsLater` | app.py:492 | After the delete, a selection after it sees the batches that stood `removed` positions further on. |
| `Ledger.FutureLedger.constructor` | app.py:8 | The ledger starts empty. |
| `Ledger.FutureLedger.Append` | app.py:164-165 | Appends exactly one batch, leaves earlier batches unchanged, grows the length by one and returns the whole ledger. |
| `Ledger.FutureLedger.Delete` | app.py:491-493 | The new ledger is `DeleteSlice` of the old one, and it is returned. |
| `Submission.SubmittedRows` | app.py:148-150 | With the tuple flag set, every row is converted, keeping count and order. This fails with TypeError exactly when some row is not iterable. Without the flag, the rows are untouched. |
| `Submission.TupleEntry` | app.py:152-153 | A present non-None entry is replaced by its tuple, or raises TypeError if not iterable. A `None` entry and every other key are untouched. |
| `Submission.MapOptions` | app.py:148-155 | `extra_args` is tupled only when the flag is set, the key is present and the value is not None. A missing key or an unset flag leaves `args` unchanged. The only failure is the TypeError of `tuple()`. |
| `Submission.MapReduceOptions` | app.py:336-342 | `extra_args` is tupled when present, non-None and the first row is not a dict, regardless of the flag. With no rows this raises IndexError. `extra_args_reduce` is tupled when present and non-None. A missing `extra_args` skips both. These are the exact error conditions. The error is IndexError for empty rows and TypeError otherwise. |
| `Submission.MapCall` | app.py:147-162 | The `map` call gets `map_function` and the submitted rows, overlaid by every caller key (caller wins). It fails exactly on a non-iterable row or `extra_args`, or on `args=None`, always with TypeError. |
| `Submission.CallAsyncCall` | app.py:223-232 | The `call_async` call gets `func` and `data`, which is tupled iff the flag is set, whatever its shape. Caller keys are passed unchanged and win. |
| `Submission.MapReduceCall` | app.py:329-350 | The `map_reduce` call gets both functions and the submitted rows, overlaid by the normalised caller options (caller wins). It fails exactly when the rows or the options do. It raises the rows' TypeError or the options' own error (IndexError or TypeError). |
| `Submission.MapDocumentedExample` | app.py:137-144 | The documented example `[[2],[3],[4]]` with `extra_args=[10]` and the tuple flag set reaches the executor as tuples `(2,)`, `(3,)`, `(4,)` and `(10,)`. |
| `Submission.MappingRowsBecomeKeyTuples` | app.py:148-149 | With the flag set, a dict row becomes the tuple of its keys. The code has no guard. |
| `Submission.MapReduceEmptyRowsExample` | app.py:337 | A non-None `extra_args` with empty `map_iterdata` raises IndexError, even without the tuple flag. |
| `Tools.Select` | app.py:374-377 | Batch mode selects `future[start:end]`. Flattened mode gives exactly `Flatten` of that slice, or TypeError when a selected batch is a single future. |
| `Tools.ManagementRequest` | app.py:373-378 | The selection is computed first. Then a missing executor raises AttributeError. `fs` is the selection, and every other caller option is passed on with the caller's own `fs` overwritten. |
| `Tools.EmptySelectionIsNoOp` | app.py:374-377 | With an executor, an empty range never raises and hands over an empty `fs` in either mode. An empty range is an inverted one, or one starting at or past the ledger's end. |
| `Tools.FlattenedSelectionOrder` | app.py:377 | The flattened `fs` lists the selected batches' futures in batch order, then in-batch order. |
| `Tools.FlattenedSelectionSplits` | app.py:377 | Flattening the whole ledger equals flattening `[:m]` followed by `[m:]`. |
| `Tools.ItemStats` | app.py:443 | A future has a `stats` record. A list of futures has none: AttributeError. |
| `Tools.CollectStats` | app.py:441-444 | The loop returns one stats entry per selected item, in selection order. It fails exactly when some item is a list of futures. |
| `Tools.Server.constructor` | app.py:7-8 | At start there is no executor and the ledger is empty. |
| `Tools.Server.ConfigureExecutor` | app.py:32-33 | The handle is replaced. The ledger is not touched. |
| `Tools.Server.Submit` | app.py:163-165 | Append happens only after successful normalisation and with a configured executor. Otherwise the exception is raised and the ledger is unchanged. |
| `Tools.Server.Map` | app.py:147-165 | `lithops_map`: on success, one list batch is appended and the whole ledger is returned. Each error leaves the ledger unchanged. `kwargs` is the model's view of the `fexec.map` call; the tool itself returns only `future`. |
| `Tools.Server.CallAsync` | app.py:223-235 | `lithops_call_async`: on success, one single-future batch is appended. Each error leaves the ledger unchanged. |
| `Tools.Server.MapReduce` | app.py:329-353 | `lithops_map_reduce`: on success, one list batch is appended. Each error leaves the ledger unchanged. |
| `Tools.Server.GetResult` | app.py:373-378 | `lithops_get_result` hands `fexec.get_result` the request described by `ManagementRequest`. |
| `Tools.Server.Clean` | app.py:401-406 | `lithops_clean` hands `fexec.clean` the request described by `ManagementRequest`. |
| `Tools.Server.Wait` | app.py:475-480 | `lithops_wait` hands `fexec.wait` the request described by `ManagementRequest`. |
| `Tools.Server.Plot` | app.py:435-444 | `lithops_plot` returns one stats entry per selected item, in order. It raises the selection or executor error first. A failing stats loop raises AttributeError. |
| `Tools.Server.JobSummary` | app.py:416 | The count is forwarded iff an executor is configured. Otherwise AttributeError is raised. |
| `Tools.Server.DeleteFromFuture` | app.py:491-493 | Removes exactly `future[start:end]` and returns the new ledger. No executor is needed. |

## Left out

- `exec(func, globals())` and `globals().get(name)` (dynamic code execution): the resolved function is a `Value` parameter, possibly `Null`; source that fails to execute is not modelled.
- Every `lithops` call (executor constructors, `map`, `call_async`, `map_reduce`, `get_result`, `clean`, `plot`, `wait`, `job_summary`): foreign library. A submission's returned futures are a parameter. A management tool is modelled up to the request it hands over. What the executor returns or raises is not modelled, nor is waiting, timeouts, the done/not-done partition of `wait`, or storage cleanup.
- Tools.Server.ConfigureExecutor: a constructor that raises (leaving the old handle) is not modelled; the configuration is kept only as the keyword arguments.
- Tools.Server.Plot: whether `fexec.plot` accepts a batch-mode `fs` is foreign; the model continues to the stats loop whenever an executor is configured.
- The contents of `fut.stats` (float timestamps) and the rendered plot files: `Stats` is an opaque token.
- The FastMCP decorators, the JSON transport and `mcp.run` HTTP server: network plumbing. Tool arguments are assumed to arrive with their declared types. The one `Optional` container the code does not survive, `lithops_map`'s `args=None`, is modelled as a TypeError.
- The `print` in the two `KeyError` handlers: console output; only the control-flow effect is kept.
- `tuple_list=None` is treated as false, as Python's `if` does; it is a `bool` here.
- Python dicts compare regardless of order; `Value.Dict` keeps insertion order and compares as a list of entries.
- The in-place mutation of the caller's `args` dict (app.py:153, 338, 340, 375) is modelled as a new map. A fresh dict arrives with every tool call, so nobody else observes the mutation.
