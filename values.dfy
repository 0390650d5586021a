/**
 * The Python values that cross the tool boundary (JSON-shaped arguments,
 * the resolved callables) and the two built-ins the tools apply to them:
 * `tuple(x)` and `dict.update`.
 */
module Values {
  import opened Outcomes

  /**
   * A Python value. `Null` is `None`; a `Dict` keeps its entries in
   * insertion order, which is the order Python iterates it in; a
   * `Function` is whatever `globals().get(name)` resolved to.
   */
  datatype Value =
    | Null
    | Bool(b: bool)
    | Int(i: int)
    | Str(s: string)
    | List(items: seq<Value>)
    | Tuple(items: seq<Value>)
    | Dict(entries: seq<(string, Value)>)
    | Function(name: string)

  /** The values `tuple()` accepts: the iterable ones. */
  predicate Iterable(v: Value) {
    v.List? || v.Tuple? || v.Dict? || v.Str?
  }

  /** What iterating an iterable value yields: items, dictionary keys, or characters. */
  function Elements(v: Value): seq<Value>
    requires Iterable(v)
  {
    match v
    case List(xs) => xs
    case Tuple(xs) => xs
    case Dict(es) => seq(|es|, i requires 0 <= i < |es| => Str(es[i].0))
    case Str(s) => seq(|s|, i requires 0 <= i < |s| => Str([s[i]]))
  }

  /**
   * Python's `tuple(v)`: a tuple of what iterating `v` yields, or a
   * TypeError for a value that is not iterable.
   */
  function ToTuple(v: Value): (r: Result<Value>)
    ensures r.Ok? <==> Iterable(v)
    ensures r.Err? ==> r.error == TypeError
    ensures r.Ok? ==> r.value.Tuple?
    // a list or a tuple keeps its items, their number and their order
    ensures v.List? || v.Tuple? ==> r == Ok(Tuple(v.items))
    // a dictionary becomes the tuple of its keys; its values are dropped
    ensures v.Dict? ==> (|r.value.items| == |v.entries|
      && forall i :: 0 <= i < |v.entries| ==> r.value.items[i] == Str(v.entries[i].0))
  {
    if Iterable(v) then Ok(Tuple(Elements(v))) else Err(TypeError)
  }

  predicate AllIterable(rows: seq<Value>) {
    forall i :: 0 <= i < |rows| ==> Iterable(rows[i])
  }

  /**
   * `[tuple(item) for item in rows]`: every row converted, in order, or the
   * TypeError of the first row that is not iterable.
   */
  function TupleRows(rows: seq<Value>): (r: Result<seq<Value>>)
    ensures r.Ok? <==> AllIterable(rows)
    ensures r.Err? ==> r.error == TypeError
    ensures r.Ok? ==> (|r.value| == |rows|
      && forall i :: 0 <= i < |rows| ==> ToTuple(rows[i]) == Ok(r.value[i]))
  {
    if rows == [] then Ok([])
    else
      match ToTuple(rows[0])
      case Err(e) => Err(e)
      case Ok(t) =>
        match TupleRows(rows[1..])
        case Err(e) =>
          assert !AllIterable(rows[1..]);
          Err(e)
        case Ok(ts) => Ok([t] + ts)
  }

  /**
   * `d.update(other)` on a fresh `d`: every key of either dictionary, with
   * the value from `other` wherever both have the key.
   */
  function Update(d: map<string, Value>, other: map<string, Value>): (r: map<string, Value>)
    ensures r.Keys == d.Keys + other.Keys
    ensures forall k :: k in other ==> r[k] == other[k]
    ensures forall k :: k in d && k !in other ==> r[k] == d[k]
  {
    d + other
  }
}
