/**
 * Argument normalisation of the three submission tools of app.py
 * (`lithops_map`, `lithops_call_async`, `lithops_map_reduce`): the optional
 * tuple conversion of the rows and of the extra arguments, then the
 * keyword arguments handed to the executor, built as the required fields
 * overlaid with the caller's `args`.
 */
module Submission {
  import opened Outcomes
  import opened Values

  const ExtraArgs := "extra_args"
  const ExtraArgsReduce := "extra_args_reduce"

  /** The rows as submitted: each converted to a tuple when the flag is set, untouched otherwise. */
  function SubmittedRows(rows: seq<Value>, tupleList: bool): (r: Result<seq<Value>>)
    ensures !tupleList ==> r == Ok(rows)
    ensures tupleList ==> (r.Ok? <==> AllIterable(rows))
    ensures r.Err? ==> r.error == TypeError
    ensures r.Ok? ==> (|r.value| == |rows|
      && forall i :: 0 <= i < |rows| ==> r.value[i] == if tupleList then ToTuple(rows[i]).value else rows[i])
  {
    if tupleList then TupleRows(rows) else Ok(rows)
  }

  /**
   * `if d[key] is not None: d[key] = tuple(d[key])`, for a key that is
   * present. Only that entry can change.
   */
  function TupleEntry(d: map<string, Value>, key: string): (r: Result<map<string, Value>>)
    requires key in d
    ensures r.Err? <==> d[key] != Null && !Iterable(d[key])
    ensures r.Err? ==> r.error == TypeError
    ensures r.Ok? ==> r.value.Keys == d.Keys
    ensures r.Ok? ==> forall k :: k in d && k != key ==> r.value[k] == d[k]
    ensures r.Ok? ==> r.value[key] == if d[key] == Null then Null else ToTuple(d[key]).value
  {
    if d[key] == Null then Ok(d)
    else
      match ToTuple(d[key])
      case Err(e) => Err(e)
      case Ok(t) => Ok(d[key := t])
  }

  /**
   * `lithops_map` on its options: `extra_args` becomes a tuple only when the
   * tuple flag is set, the key is present and its value is not None. A
   * missing key is the caught KeyError: the options are left as they are.
   */
  function MapOptions(args: map<string, Value>, tupleList: bool): (r: Result<map<string, Value>>)
    ensures !tupleList || ExtraArgs !in args ==> r == Ok(args)
    ensures r.Err? <==> tupleList && ExtraArgs in args && args[ExtraArgs] != Null && !Iterable(args[ExtraArgs])
    ensures r.Err? ==> r.error == TypeError
    ensures r.Ok? ==> r.value.Keys == args.Keys
    ensures r.Ok? ==> forall k :: k in args && k != ExtraArgs ==> r.value[k] == args[k]
    ensures r.Ok? && ExtraArgs in args ==>
      r.value[ExtraArgs] == if tupleList && args[ExtraArgs] != Null then ToTuple(args[ExtraArgs]).value else args[ExtraArgs]
  {
    if !tupleList || ExtraArgs !in args then Ok(args)
    else TupleEntry(args, ExtraArgs)
  }

  /**
   * `lithops_map_reduce` on its options, given the rows as submitted.
   * `extra_args` becomes a tuple, whatever the tuple flag, when it is
   * present, not None and the first row is not a dictionary; reading that
   * first row of an empty list raises IndexError. `extra_args_reduce`
   * becomes a tuple when it is present and not None. Both lookups share one
   * `try`, so a missing `extra_args` skips the second conversion too, while
   * a missing `extra_args_reduce` keeps the first one.
   */
  function MapReduceOptions(args: map<string, Value>, rows: seq<Value>): (r: Result<map<string, Value>>)
    ensures ExtraArgs !in args ==> r == Ok(args)
    ensures ExtraArgs in args && args[ExtraArgs] != Null && rows == [] ==> r == Err(IndexError)
    ensures r.Err? <==> (ExtraArgs in args
      && ((args[ExtraArgs] != Null && (rows == [] || (!rows[0].Dict? && !Iterable(args[ExtraArgs]))))
          || (ExtraArgsReduce in args && args[ExtraArgsReduce] != Null && !Iterable(args[ExtraArgsReduce]))))
    ensures r.Err? ==> r.error == if args[ExtraArgs] != Null && rows == [] then IndexError else TypeError
    ensures r.Ok? ==> r.value.Keys == args.Keys
    ensures r.Ok? ==> forall k :: k in args && k != ExtraArgs && k != ExtraArgsReduce ==> r.value[k] == args[k]
    ensures r.Ok? && ExtraArgs in args ==>
      r.value[ExtraArgs] == if args[ExtraArgs] != Null && !rows[0].Dict? then ToTuple(args[ExtraArgs]).value else args[ExtraArgs]
    ensures r.Ok? && ExtraArgs in args && ExtraArgsReduce in args ==>
      r.value[ExtraArgsReduce] ==
        if args[ExtraArgsReduce] != Null then ToTuple(args[ExtraArgsReduce]).value else args[ExtraArgsReduce]
  {
    if ExtraArgs !in args then Ok(args)
    else
      var afterExtra :=
        if args[ExtraArgs] == Null then Ok(args)
        else if rows == [] then Err(IndexError)
        else if rows[0].Dict? then Ok(args)
        else TupleEntry(args, ExtraArgs);
      match afterExtra
      case Err(e) => Err(e)
      case Ok(a) => if ExtraArgsReduce !in a then Ok(a) else TupleEntry(a, ExtraArgsReduce)
  }

  /**
   * The keyword arguments `lithops_map` hands to `fexec.map`: the resolved
   * function and the submitted rows, overlaid with every caller option
   * (the caller wins on a shared key). `args` may be None, on which the
   * tool raises TypeError.
   */
  function MapCall(mapFunction: Value, rows: seq<Value>, tupleList: bool, args: Option<map<string, Value>>)
    : (r: Result<map<string, Value>>)
    ensures args.None? ==> r == Err(TypeError)
    ensures r.Err? ==> r.error == TypeError
    ensures args.Some? ==> (r.Ok? <==> !tupleList || (AllIterable(rows) && MapOptions(args.value, true).Ok?))
    ensures r.Ok? ==> r.value.Keys == {"map_function", "map_iterdata"} + args.value.Keys
    ensures r.Ok? ==> forall k :: k in args.value ==> r.value[k] == MapOptions(args.value, tupleList).value[k]
    ensures r.Ok? && "map_function" !in args.value ==> r.value["map_function"] == mapFunction
    ensures r.Ok? && "map_iterdata" !in args.value ==>
      r.value["map_iterdata"] == List(SubmittedRows(rows, tupleList).value)
  {
    match SubmittedRows(rows, tupleList)
    case Err(e) => Err(e)
    case Ok(submitted) =>
      match args
      case None => Err(TypeError)
      case Some(given) =>
        match MapOptions(given, tupleList)
        case Err(e) => Err(e)
        case Ok(options) =>
          Ok(Update(map["map_function" := mapFunction, "map_iterdata" := List(submitted)], options))
  }

  /**
   * The keyword arguments `lithops_call_async` hands to `fexec.call_async`:
   * the resolved function and the data row (a tuple of it when the flag is
   * set, whatever its shape), overlaid with the caller's options unchanged.
   */
  function CallAsyncCall(func: Value, data: Value, tupleList: bool, args: map<string, Value>)
    : (r: Result<map<string, Value>>)
    ensures r.Ok? <==> !tupleList || Iterable(data)
    ensures r.Err? ==> r.error == TypeError
    ensures r.Ok? ==> r.value.Keys == {"func", "data"} + args.Keys
    ensures r.Ok? ==> forall k :: k in args ==> r.value[k] == args[k]
    ensures r.Ok? && "func" !in args ==> r.value["func"] == func
    ensures r.Ok? && "data" !in args ==> r.value["data"] == if tupleList then ToTuple(data).value else data
  {
    var converted := if tupleList then ToTuple(data) else Ok(data);
    match converted
    case Err(e) => Err(e)
    case Ok(d) => Ok(Update(map["func" := func, "data" := d], args))
  }

  /**
   * The keyword arguments `lithops_map_reduce` hands to `fexec.map_reduce`:
   * both resolved functions and the submitted rows, overlaid with the
   * normalised caller options (the caller wins on a shared key).
   */
  function MapReduceCall(mapFunction: Value, rows: seq<Value>, reduceFunction: Value,
                         args: map<string, Value>, tupleList: bool)
    : (r: Result<map<string, Value>>)
    ensures tupleList && !AllIterable(rows) ==> r == Err(TypeError)
    ensures r.Err? && SubmittedRows(rows, tupleList).Err? ==> r.error == TypeError
    ensures r.Err? && SubmittedRows(rows, tupleList).Ok? ==>
      r == MapReduceOptions(args, SubmittedRows(rows, tupleList).value)
    ensures SubmittedRows(rows, tupleList).Ok? ==>
      (r.Ok? <==> MapReduceOptions(args, SubmittedRows(rows, tupleList).value).Ok?)
    ensures r.Ok? ==> r.value.Keys == {"map_function", "map_iterdata", "reduce_function"} + args.Keys
    ensures r.Ok? ==>
      forall k :: k in args ==> r.value[k] == MapReduceOptions(args, SubmittedRows(rows, tupleList).value).value[k]
    ensures r.Ok? && "map_function" !in args ==> r.value["map_function"] == mapFunction
    ensures r.Ok? && "reduce_function" !in args ==> r.value["reduce_function"] == reduceFunction
    ensures r.Ok? && "map_iterdata" !in args ==>
      r.value["map_iterdata"] == List(SubmittedRows(rows, tupleList).value)
  {
    match SubmittedRows(rows, tupleList)
    case Err(e) => Err(e)
    case Ok(submitted) =>
      match MapReduceOptions(args, submitted)
      case Err(e) => Err(e)
      case Ok(options) =>
        Ok(Update(map["map_function" := mapFunction, "map_iterdata" := List(submitted),
                      "reduce_function" := reduceFunction], options))
  }
  /**
   * The example of `lithops_map`'s own documentation: rows `[[2],[3],[4]]`,
   * the tuple flag set and `{"extra_args": [10], "timeout": 5}` reach the
   * executor as tuples `(2,)`, `(3,)`, `(4,)` and `(10,)`.
   */
  lemma MapDocumentedExample(add: Value)
    ensures var rows := [List([Int(2)]), List([Int(3)]), List([Int(4)])];
      var args := map[ExtraArgs := List([Int(10)]), "timeout" := Int(5)];
      MapCall(add, rows, true, Some(args))
        == Ok(map["map_function" := add,
                  "map_iterdata" := List([Tuple([Int(2)]), Tuple([Int(3)]), Tuple([Int(4)])]),
                  ExtraArgs := Tuple([Int(10)]),
                  "timeout" := Int(5)])
  {
    var rows := [List([Int(2)]), List([Int(3)]), List([Int(4)])];
    var args := map[ExtraArgs := List([Int(10)]), "timeout" := Int(5)];
    assert AllIterable(rows);
    var tupled := TupleRows(rows).value;
    assert ToTuple(rows[0]) == Ok(tupled[0]) && ToTuple(rows[1]) == Ok(tupled[1]) && ToTuple(rows[2]) == Ok(tupled[2]);
    assert tupled == [Tuple([Int(2)]), Tuple([Int(3)]), Tuple([Int(4)])];
    var options := args[ExtraArgs := Tuple([Int(10)])];
    assert MapOptions(args, true) == Ok(options);
    var required := map["map_function" := add, "map_iterdata" := List(tupled)];
    assert MapCall(add, rows, true, Some(args)) == Ok(Update(required, options));
    var expected := map["map_function" := add, "map_iterdata" := List(tupled),
                        ExtraArgs := Tuple([Int(10)]), "timeout" := Int(5)];
    assert Update(required, options).Keys == expected.Keys;
    assert Update(required, options) == expected;
  }

  /**
   * With the tuple flag set, a dictionary row is not protected: it reaches
   * the executor as the tuple of its keys, in `lithops_map` as in
   * `lithops_call_async`.
   */
  lemma MappingRowsBecomeKeyTuples(rows: seq<Value>, i: nat)
    requires AllIterable(rows) && i < |rows| && rows[i].Dict?
    ensures SubmittedRows(rows, true).Ok?
    ensures var row := SubmittedRows(rows, true).value[i];
      row.Tuple? && |row.items| == |rows[i].entries|
      && forall k :: 0 <= k < |row.items| ==> row.items[k] == Str(rows[i].entries[k].0)
  {
    assert ToTuple(rows[i]) == Ok(SubmittedRows(rows, true).value[i]);
  }

  /** `lithops_map_reduce` with a non-None `extra_args` and no rows raises IndexError, even without the tuple flag. */
  lemma MapReduceEmptyRowsExample(mapFunction: Value, reduceFunction: Value)
    ensures MapReduceCall(mapFunction, [], reduceFunction, map[ExtraArgs := List([Int(1)])], false) == Err(IndexError)
  {
  }
}
