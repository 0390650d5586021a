/**
 * The tools of app.py over the two process-wide globals: the executor
 * handle `fexec` and the future ledger `future`. Submissions append one
 * batch; management tools select `future[start:end]`, whole or flattened,
 * as the `fs` argument of the executor; `lithops_plot` then collects one
 * statistics record per selected item.
 */
module Tools {
  import opened Outcomes
  import opened Values
  import opened Ledger
  import opened Submission

  /** The four executor classes a configuration tool can construct. */
  datatype ExecutorKind = FunctionExecutor | LocalhostExecutor | ServerlessExecutor | StandaloneExecutor

  /** A configured executor: its class and the keyword arguments it was built from. */
  datatype Executor = Executor(kind: ExecutorKind, config: map<string, Value>)

  /**
   * The `fs` argument of a management tool: the selected batches as they
   * are (batch mode) or the futures inside them (flattened mode).
   */
  datatype Selection = Batches(batches: seq<Batch>) | Futures(futures: seq<Future>)

  /** The number of items in a selection: what `for fut in args["fs"]` visits. */
  function Length(fs: Selection): nat {
    match fs
    case Batches(bs) => |bs|
    case Futures(futs) => |futs|
  }

  /**
   * `args["fs"] = future[start:end]` when `response` is set, otherwise
   * `[item for sublist in future[start:end] for item in sublist]`.
   */
  function Select(ledger: seq<Batch>, start: Option<int>, end: Option<int>, response: bool): (r: Result<Selection>)
    ensures response ==> r == Ok(Batches(PySlice(ledger, start, end)))
    ensures !response ==> (r.Ok? <==> AllLists(PySlice(ledger, start, end)))
    ensures !response && r.Err? ==> r.error == TypeError
    ensures !response && r.Ok? ==>
      r.value.Futures? && |r.value.futures| == TotalSize(PySlice(ledger, start, end))
    ensures !response && r.Ok? ==> r.value.futures == Flatten(PySlice(ledger, start, end)).value
  {
    var chosen := PySlice(ledger, start, end);
    if response then Ok(Batches(chosen))
    else
      match Flatten(chosen)
      case Err(e) => Err(e)
      case Ok(futs) => Ok(Futures(futs))
  }

  /** The management tools that hand a selection to the executor. */
  datatype ManagementOp = GetResult | Clean | Plot | Wait

  /** One management call on the executor: its other options and the selection passed as `fs`. */
  datatype Request = Request(op: ManagementOp, options: map<string, Value>, fs: Selection)

  /**
   * The call a management tool makes: the selection is computed first (and
   * may raise), then the executor's method is looked up, which raises
   * AttributeError while no executor is configured. Any `fs` the caller put
   * in `args` is overwritten.
   */
  function ManagementRequest(op: ManagementOp, configured: bool, ledger: seq<Batch>, args: map<string, Value>,
                             response: bool, start: Option<int>, end: Option<int>): (r: Result<Request>)
    ensures Select(ledger, start, end, response).Err? ==> r == Err(Select(ledger, start, end, response).error)
    ensures Select(ledger, start, end, response).Ok? && !configured ==> r == Err(AttributeError)
    ensures r.Ok? <==> configured && Select(ledger, start, end, response).Ok?
    ensures r.Ok? ==> r.value.op == op && r.value.fs == Select(ledger, start, end, response).value
    ensures r.Ok? ==> (r.value.options.Keys == args.Keys - {"fs"}
      && forall k :: k in args && k != "fs" ==> r.value.options[k] == args[k])
  {
    match Select(ledger, start, end, response)
    case Err(e) => Err(e)
    case Ok(fs) => if configured then Ok(Request(op, args - {"fs"}, fs)) else Err(AttributeError)
  }

  /**
   * An empty selection (a range that is empty as Python reads it, or one
   * that starts at or past the end of the ledger) is not an error: with an executor configured, every management tool hands over an
   * empty `fs`, in either mode.
   */
  lemma EmptySelectionIsNoOp(op: ManagementOp, ledger: seq<Batch>, args: map<string, Value>,
                             response: bool, start: Option<int>, end: Option<int>)
    requires Resolve(end, |ledger|, |ledger|) <= Resolve(start, 0, |ledger|) || |ledger| <= Resolve(start, 0, |ledger|)
    ensures var r := ManagementRequest(op, true, ledger, args, response, start, end);
      r.Ok? && Length(r.value.fs) == 0
  {
    PySliceEmpty(ledger, start, end);
    assert AllLists(PySlice(ledger, start, end));
  }

  /**
   * In flattened mode the `fs` handed to the executor lists future `j` of
   * the `i`-th selected batch after every future of the batches selected
   * before it.
   */
  lemma FlattenedSelectionOrder(ledger: seq<Batch>, start: Option<int>, end: Option<int>, i: nat, j: nat)
    requires Select(ledger, start, end, false).Ok?
    requires i < |PySlice(ledger, start, end)| && j < Size(PySlice(ledger, start, end)[i])
    ensures var chosen := PySlice(ledger, start, end);
      var futs := Select(ledger, start, end, false).value.futures;
      TotalSize(chosen[..i]) + j < |futs| && futs[TotalSize(chosen[..i]) + j] == chosen[i].futures[j]
  {
    FlattenAt(PySlice(ledger, start, end), i, j);
  }

  /** Flattening the whole ledger and flattening it in two consecutive parts agree. */
  lemma FlattenedSelectionSplits(ledger: seq<Batch>, m: nat)
    requires AllLists(ledger) && m <= |ledger|
    ensures Select(ledger, None, None, false).Ok?
    ensures Select(ledger, None, None, false).value.futures
      == Select(ledger, None, Some(m), false).value.futures + Select(ledger, Some(m), None, false).value.futures
  {
    assert PySlice(ledger, None, None) == ledger;
    assert PySlice(ledger, None, Some(m)) == ledger[..m];
    assert PySlice(ledger, Some(m), None) == ledger[m..];
    assert AllLists(ledger[..m]) && AllLists(ledger[m..]);
    FlattenConcat(ledger[..m], ledger[m..]);
    assert ledger[..m] + ledger[m..] == ledger;
    assert Select(ledger, None, None, false).value.futures == Flatten(ledger).value;
    assert Select(ledger, None, Some(m), false).value.futures == Flatten(ledger[..m]).value;
    assert Select(ledger, Some(m), None, false).value.futures == Flatten(ledger[m..]).value;
  }

  /**
   * `fut.stats` of the `i`-th item of a selection: a single future carries
   * one; a list of futures has no such attribute.
   */
  function ItemStats(fs: Selection, i: nat): (r: Result<Stats>)
    requires i < Length(fs)
    ensures fs.Futures? ==> r == Ok(fs.futures[i].stats)
    ensures fs.Batches? ==> (r.Ok? <==> fs.batches[i].One?)
    ensures fs.Batches? && r.Ok? ==> r.value == fs.batches[i].future.stats
    ensures r.Err? ==> r.error == AttributeError
  {
    match fs
    case Futures(futs) => Ok(futs[i].stats)
    case Batches(bs) =>
      match bs[i]
      case One(f) => Ok(f.stats)
      case Many(_) => Err(AttributeError)
  }

  /**
   * The loop of `lithops_plot`: one statistics record per item of the
   * selection, in selection order, or the AttributeError of the first item
   * that has none.
   */
  method CollectStats(fs: Selection) returns (r: Result<seq<Stats>>)
    ensures r.Ok? <==> forall i :: 0 <= i < Length(fs) ==> ItemStats(fs, i).Ok?
    ensures r.Err? ==> r.error == AttributeError
    ensures r.Ok? ==> |r.value| == Length(fs)
    ensures r.Ok? ==> forall i :: 0 <= i < Length(fs) ==> r.value[i] == ItemStats(fs, i).value
  {
    var stat: seq<Stats> := [];
    var i := 0;
    while i < Length(fs)
      invariant 0 <= i <= Length(fs)
      invariant |stat| == i
      invariant forall k :: 0 <= k < i ==> ItemStats(fs, k).Ok? && stat[k] == ItemStats(fs, k).value
    {
      var s := ItemStats(fs, i);
      if s.Err? {
        return Err(s.error);
      }
      stat := stat + [s.value];
      i := i + 1;
    }
    return Ok(stat);
  }

  /**
   * A submission's outcome: the whole ledger, which is what the tool
   * returns, together with the keyword arguments of the executor call,
   * which the model exposes so that contracts can state them.
   */
  datatype Submitted = Submitted(kwargs: map<string, Value>, ledger: seq<Batch>)

  /**
   * The process-wide state of app.py: `fexec`, absent until a configuration
   * tool runs, and the ledger `future`, empty at start.
   */
  class Server {
    var executor: Option<Executor>
    const futures: FutureLedger

    constructor()
      ensures executor == None && fresh(futures) && futures.batches == []
    {
      executor := None;
      futures := new FutureLedger();
    }

    /**
     * `lithops_function_executor` and its three variants: the handle is
     * replaced; the ledger, and the batches submitted under an earlier
     * handle, stay as they are.
     */
    method ConfigureExecutor(kind: ExecutorKind, args: map<string, Value>)
      modifies this
      ensures executor == Some(Executor(kind, args))
    {
      executor := Some(Executor(kind, args));
    }

    /** Appends one batch when the executor is configured; otherwise raises as `fexec.<method>` does. */
    method Submit(call: Result<map<string, Value>>, batch: Batch) returns (r: Result<Submitted>)
      modifies futures
      ensures call.Err? ==> r == Err(call.error) && futures.batches == old(futures.batches)
      ensures call.Ok? && executor.None? ==> r == Err(AttributeError) && futures.batches == old(futures.batches)
      ensures call.Ok? && executor.Some? ==>
        futures.batches == old(futures.batches) + [batch] && r == Ok(Submitted(call.value, futures.batches))
    {
      if call.Err? {
        return Err(call.error);
      }
      if executor.None? {
        return Err(AttributeError);
      }
      var current := futures.Append(batch);
      r := Ok(Submitted(call.value, current));
    }

    /**
     * `lithops_map`. The futures the executor returns for the call are the
     * parameter `result`; they are appended as one batch.
     */
    method Map(mapFunction: Value, mapIterdata: seq<Value>, tupleList: bool,
               args: Option<map<string, Value>>, result: seq<Future>)
      returns (r: Result<Submitted>)
      modifies futures
      ensures var call := MapCall(mapFunction, mapIterdata, tupleList, args);
        && (call.Ok? && executor.Some? ==>
              futures.batches == old(futures.batches) + [Many(result)]
              && r == Ok(Submitted(call.value, futures.batches)))
        && (call.Err? ==> r == Err(call.error) && futures.batches == old(futures.batches))
        && (call.Ok? && executor.None? ==> r == Err(AttributeError) && futures.batches == old(futures.batches))
    {
      r := Submit(MapCall(mapFunction, mapIterdata, tupleList, args), Many(result));
    }

    /**
     * `lithops_call_async`. The single future the executor returns is the
     * parameter `result`; it is appended as one batch.
     */
    method CallAsync(func: Value, data: Value, tupleList: bool, args: map<string, Value>, result: Future)
      returns (r: Result<Submitted>)
      modifies futures
      ensures var call := CallAsyncCall(func, data, tupleList, args);
        && (call.Ok? && executor.Some? ==>
              futures.batches == old(futures.batches) + [One(result)]
              && r == Ok(Submitted(call.value, futures.batches)))
        && (call.Err? ==> r == Err(call.error) && futures.batches == old(futures.batches))
        && (call.Ok? && executor.None? ==> r == Err(AttributeError) && futures.batches == old(futures.batches))
    {
      r := Submit(CallAsyncCall(func, data, tupleList, args), One(result));
    }

    /**
     * `lithops_map_reduce`. The futures the executor returns are the
     * parameter `result`; they are appended as one batch.
     */
    method MapReduce(mapFunction: Value, mapIterdata: seq<Value>, reduceFunction: Value,
                     args: map<string, Value>, tupleList: bool, result: seq<Future>)
      returns (r: Result<Submitted>)
      modifies futures
      ensures var call := MapReduceCall(mapFunction, mapIterdata, reduceFunction, args, tupleList);
        && (call.Ok? && executor.Some? ==>
              futures.batches == old(futures.batches) + [Many(result)]
              && r == Ok(Submitted(call.value, futures.batches)))
        && (call.Err? ==> r == Err(call.error) && futures.batches == old(futures.batches))
        && (call.Ok? && executor.None? ==> r == Err(AttributeError) && futures.batches == old(futures.batches))
    {
      r := Submit(MapReduceCall(mapFunction, mapIterdata, reduceFunction, args, tupleList), Many(result));
    }

    /** `lithops_get_result`: the request handed to `fexec.get_result`. */
    method GetResult(args: map<string, Value>, response: bool, start: Option<int>, end: Option<int>)
      returns (r: Result<Request>)
      ensures r == ManagementRequest(ManagementOp.GetResult, executor.Some?, futures.batches, args, response, start, end)
    {
      r := ManagementRequest(ManagementOp.GetResult, executor.Some?, futures.batches, args, response, start, end);
    }

    /** `lithops_clean`: the request handed to `fexec.clean`. */
    method Clean(args: map<string, Value>, response: bool, start: Option<int>, end: Option<int>)
      returns (r: Result<Request>)
      ensures r == ManagementRequest(ManagementOp.Clean, executor.Some?, futures.batches, args, response, start, end)
    {
      r := ManagementRequest(ManagementOp.Clean, executor.Some?, futures.batches, args, response, start, end);
    }

    /** `lithops_wait`: the request handed to `fexec.wait`. */
    method Wait(args: map<string, Value>, response: bool, start: Option<int>, end: Option<int>)
      returns (r: Result<Request>)
      ensures r == ManagementRequest(ManagementOp.Wait, executor.Some?, futures.batches, args, response, start, end)
    {
      r := ManagementRequest(ManagementOp.Wait, executor.Some?, futures.batches, args, response, start, end);
    }

    /**
     * `lithops_plot`: after `fexec.plot`, one statistics record per selected
     * item, in selection order.
     */
    method Plot(args: map<string, Value>, response: bool, start: Option<int>, end: Option<int>)
      returns (r: Result<seq<Stats>>)
      ensures var req := ManagementRequest(ManagementOp.Plot, executor.Some?, futures.batches, args, response, start, end);
        && (req.Err? ==> r == Err(req.error))
        && (req.Ok? ==> (r.Ok? <==> forall i :: 0 <= i < Length(req.value.fs) ==> ItemStats(req.value.fs, i).Ok?))
        && (req.Ok? && r.Err? ==> r.error == AttributeError)
        && (req.Ok? && r.Ok? ==> (|r.value| == Length(req.value.fs)
              && forall i :: 0 <= i < Length(req.value.fs) ==> r.value[i] == ItemStats(req.value.fs, i).value))
    {
      var req := ManagementRequest(ManagementOp.Plot, executor.Some?, futures.batches, args, response, start, end);
      if req.Err? {
        return Err(req.error);
      }
      r := CollectStats(req.value.fs);
    }

    /** `lithops_job_summary`: the count forwarded to `fexec.job_summary`, or AttributeError without an executor. */
    method JobSummary(cloudObjectsN: Option<int>) returns (r: Result<Option<int>>)
      ensures r.Ok? <==> executor.Some?
      ensures r.Ok? ==> r.value == cloudObjectsN
      ensures r.Err? ==> r.error == AttributeError
    {
      if executor.None? {
        return Err(AttributeError);
      }
      r := Ok(cloudObjectsN);
    }

    /**
     * `delete_from_future`: removes `future[start:end]` and returns the new
     * ledger. It does not need an executor.
     */
    method DeleteFromFuture(start: int, end: int) returns (current: seq<Batch>)
      modifies futures
      ensures futures.batches == DeleteSlice(old(futures.batches), Some(start), Some(end))
      ensures current == futures.batches
    {
      current := futures.Delete(start, end);
    }
  }
}
