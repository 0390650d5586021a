/**
 * The future ledger: the module-global list `future` of app.py, holding one
 * batch per submission, and the two list operations the tools apply to it:
 * the slice `future[start:end]` (and its flattening) and the slice delete
 * `del future[start:end]`.
 */
module Ledger {
  import opened Outcomes

  /** The statistics record an executor attaches to a future (`fut.stats`); its contents are foreign. */
  datatype Stats = Stats(token: nat)

  /** An opaque handle on one activation, as the executor returns it. */
  datatype Future = Future(handle: nat, stats: Stats)

  /**
   * What one submission returned: a single future (`call_async`) or a list
   * of futures (`map`, `map_reduce`).
   */
  datatype Batch = One(future: Future) | Many(futures: seq<Future>)

  // ---------------------------------------------------------------------
  // Python slices with step 1
  // ---------------------------------------------------------------------

  /**
   * CPython's adjustment of one slice bound for a sequence of length `n`:
   * an absent bound takes `absent`, a negative one counts from the end and
   * stops at 0, one past the end stops at `n`.
   */
  function AdjustIndex(i: Option<int>, absent: nat, n: nat): (k: nat)
    requires absent <= n
    ensures k <= n
  {
    match i
    case None => absent
    case Some(x) =>
      if x < 0 then (if x + n < 0 then 0 else x + n)
      else if x >= n then n
      else x
  }

  /** The first position `s[start:end]` takes, for `|s| == n`. */
  function SliceStart(n: nat, start: Option<int>): (lo: nat)
    ensures lo <= n
  {
    AdjustIndex(start, 0, n)
  }

  /** One past the last position `s[start:end]` takes; never before the start. */
  function SliceEnd(n: nat, start: Option<int>, end: Option<int>): (hi: nat)
    ensures SliceStart(n, start) <= hi <= n
  {
    var lo := SliceStart(n, start);
    var e := AdjustIndex(end, n, n);
    if e < lo then lo else e
  }

  /**
   * Python's `s[start:end]`: as many elements as lie between the adjusted
   * bounds, never a negative count. Which positions it keeps is stated by
   * PySliceIsPick.
   */
  function PySlice<T>(s: seq<T>, start: Option<int>, end: Option<int>): (r: seq<T>)
    ensures |r| == SliceEnd(|s|, start, end) - SliceStart(|s|, start) <= |s|
  {
    s[SliceStart(|s|, start)..SliceEnd(|s|, start, end)]
  }

  /** How Python reads an index into a sequence of length `n`, before any clamping. */
  function Resolve(i: Option<int>, absent: int, n: nat): int {
    match i
    case None => absent
    case Some(x) => if x < 0 then x + n else x
  }

  /**
   * Reference selection: the elements of `s` whose position `k` satisfies
   * `lo <= k < hi`, in their order in `s`.
   */
  function Pick<T>(s: seq<T>, lo: int, hi: int): seq<T>
  {
    if s == [] then []
    else Pick(s[..|s| - 1], lo, hi) + (if lo <= |s| - 1 < hi then [s[|s| - 1]] else [])
  }

  function Clamp(x: int, n: nat): nat {
    if x < 0 then 0 else if x > n then n else x
  }

  /** Selecting positions by a range is taking a contiguous slice between the clamped bounds. */
  lemma {:induction false} PickIsClampedSlice<T>(s: seq<T>, lo: int, hi: int)
    ensures Clamp(lo, |s|) <= (if Clamp(hi, |s|) < Clamp(lo, |s|) then Clamp(lo, |s|) else Clamp(hi, |s|)) <= |s|
    ensures Pick(s, lo, hi)
      == s[Clamp(lo, |s|)..if Clamp(hi, |s|) < Clamp(lo, |s|) then Clamp(lo, |s|) else Clamp(hi, |s|)]
  {
    if s != [] {
      var n := |s|;
      var t := s[..n - 1];
      PickIsClampedSlice(t, lo, hi);
      var a := Clamp(lo, n);
      var b := if Clamp(hi, n) < a then a else Clamp(hi, n);
      var a' := Clamp(lo, n - 1);
      var b' := if Clamp(hi, n - 1) < a' then a' else Clamp(hi, n - 1);
      assert Pick(s, lo, hi) == t[a'..b'] + (if lo <= n - 1 < hi then [s[n - 1]] else []);
      if lo <= n - 1 < hi {
        assert a == a' && b == n && b' == n - 1;
        assert t[a'..b'] == s[a..n - 1];
        assert s[a..n - 1] + [s[n - 1]] == s[a..b];
      } else if lo >= n {
        assert a == b == n && a' == b' == n - 1;
      } else {
        assert hi <= n - 1 && a == a' && b == b';
        assert t[a'..b'] == s[a..b];
      }
    }
  }

  /**
   * `s[start:end]` keeps exactly the elements whose position lies between
   * the bounds as Python reads them (absent means the boundary, negative
   * counts from the end), in order; bounds out of range select nothing
   * beyond the sequence and an inverted range selects nothing, without error.
   */
  lemma PySliceIsPick<T>(s: seq<T>, start: Option<int>, end: Option<int>)
    ensures PySlice(s, start, end) == Pick(s, Resolve(start, 0, |s|), Resolve(end, |s|, |s|))
  {
    var n := |s|;
    PickIsClampedSlice(s, Resolve(start, 0, n), Resolve(end, n, n));
    assert SliceStart(n, start) == Clamp(Resolve(start, 0, n), n);
    assert AdjustIndex(end, n, n) == Clamp(Resolve(end, n, n), n);
  }

  /** `s[:]` is the whole sequence. */
  lemma PySliceWhole<T>(s: seq<T>)
    ensures PySlice(s, None, None) == s
  {
  }

  /** `s[-k:]` is the last `k` elements. */
  lemma PySliceLast<T>(s: seq<T>, k: int)
    requires 0 < k <= |s|
    ensures PySlice(s, Some(-k), None) == s[|s| - k..]
  {
  }

  /**
   * A range that is empty as Python reads it, or one that starts at or past
   * the end, selects nothing, and raises no error.
   */
  lemma PySliceEmpty<T>(s: seq<T>, start: Option<int>, end: Option<int>)
    requires Resolve(end, |s|, |s|) <= Resolve(start, 0, |s|) || |s| <= Resolve(start, 0, |s|)
    ensures PySlice(s, start, end) == []
  {
  }

  // ---------------------------------------------------------------------
  // Flattening: [item for sublist in batches for item in sublist]
  // ---------------------------------------------------------------------

  /** Every batch is a list of futures, so that it can be iterated. */
  predicate AllLists(bs: seq<Batch>) {
    forall i :: 0 <= i < |bs| ==> bs[i].Many?
  }

  /** The number of futures in a batch. */
  function Size(b: Batch): nat {
    match b
    case One(_) => 1
    case Many(fs) => |fs|
  }

  /** The number of futures in all the batches together. */
  function TotalSize(bs: seq<Batch>): nat {
    if bs == [] then 0 else Size(bs[0]) + TotalSize(bs[1..])
  }

  /**
   * The flattening comprehension: the futures of every batch, batch by
   * batch. A single future is not iterable, so a batch made of one raises
   * a TypeError.
   */
  function Flatten(bs: seq<Batch>): (r: Result<seq<Future>>)
    ensures r.Ok? <==> AllLists(bs)
    ensures r.Err? ==> r.error == TypeError
    ensures r.Ok? ==> |r.value| == TotalSize(bs)
  {
    if bs == [] then Ok([])
    else
      match bs[0]
      case One(_) => Err(TypeError)
      case Many(fs) =>
        match Flatten(bs[1..])
        case Err(e) =>
          assert !AllLists(bs[1..]);
          Err(e)
        case Ok(rest) => Ok(fs + rest)
  }

  /**
   * Batch order, then order within the batch: future `j` of batch `i` sits
   * after all futures of the batches before `i`.
   */
  lemma {:induction false} FlattenAt(bs: seq<Batch>, i: nat, j: nat)
    requires AllLists(bs) && i < |bs| && j < |bs[i].futures|
    ensures TotalSize(bs[..i]) + j < TotalSize(bs)
    ensures Flatten(bs).value[TotalSize(bs[..i]) + j] == bs[i].futures[j]
  {
    if i == 0 {
      assert bs[..0] == [];
    } else {
      assert AllLists(bs[1..]);
      FlattenAt(bs[1..], i - 1, j);
      assert bs[..i][0] == bs[0] && bs[..i][1..] == bs[1..][..i - 1];
    }
  }

  /** One step of the flattening: the first batch's futures, then the rest. */
  lemma FlattenStep(bs: seq<Batch>)
    requires bs != [] && AllLists(bs)
    ensures AllLists(bs[1..])
    ensures Flatten(bs).value == bs[0].futures + Flatten(bs[1..]).value
  {
    assert AllLists(bs[1..]);
  }

  /** Flattening distributes over concatenation of ledgers. */
  lemma {:induction false} FlattenConcat(a: seq<Batch>, b: seq<Batch>)
    requires AllLists(a) && AllLists(b)
    ensures AllLists(a + b)
    ensures Flatten(a + b).value == Flatten(a).value + Flatten(b).value
  {
    assert AllLists(a + b);
    if a != [] {
      assert (a + b)[0] == a[0];
      assert (a + b)[1..] == a[1..] + b;
      assert AllLists(a[1..]);
      FlattenConcat(a[1..], b);
      FlattenStep(a + b);
      FlattenStep(a);
    } else {
      assert a + b == b;
    }
  }

  // ---------------------------------------------------------------------
  // Slice delete: del s[start:end]
  // ---------------------------------------------------------------------

  /**
   * `del s[start:end]`: the selected slice is removed; what stood before it
   * keeps its position and what stood after it moves down by the number of
   * removed elements.
   */
  function DeleteSlice<T>(s: seq<T>, start: Option<int>, end: Option<int>): (r: seq<T>)
    ensures |r| == |s| - |PySlice(s, start, end)|
    ensures forall i :: 0 <= i < SliceStart(|s|, start) ==> r[i] == s[i]
    ensures forall i :: SliceStart(|s|, start) <= i < |r| ==> r[i] == s[i + |PySlice(s, start, end)|]
  {
    s[..SliceStart(|s|, start)] + s[SliceEnd(|s|, start, end)..]
  }

  /** Putting the removed slice back where it was restores the sequence. */
  lemma DeleteReinsert<T>(s: seq<T>, start: Option<int>, end: Option<int>)
    ensures var r, lo := DeleteSlice(s, start, end), SliceStart(|s|, start);
      r[..lo] + PySlice(s, start, end) + r[lo..] == s
  {
    var lo, hi := SliceStart(|s|, start), SliceEnd(|s|, start, end);
    var r := DeleteSlice(s, start, end);
    assert r[..lo] == s[..lo];
    assert r[lo..] == s[hi..];
    assert s == s[..lo] + s[lo..hi] + s[hi..];
  }

  /** A selection entirely before the deleted range sees the same elements as before. */
  lemma DeleteKeepsEarlier<T>(s: seq<T>, start: Option<int>, end: Option<int>, c: nat, d: nat)
    requires c <= d <= SliceStart(|s|, start)
    ensures PySlice(DeleteSlice(s, start, end), Some(c), Some(d)) == PySlice(s, Some(c), Some(d))
  {
    var r := DeleteSlice(s, start, end);
    assert SliceStart(|r|, Some(c)) == c && SliceEnd(|r|, Some(c), Some(d)) == d;
    assert SliceStart(|s|, Some(c)) == c && SliceEnd(|s|, Some(c), Some(d)) == d;
    assert r[c..d] == s[c..d];
  }

  /** A selection at or after the deleted range sees what stood `removed` positions further on. */
  lemma DeleteShiftsLater<T>(s: seq<T>, start: Option<int>, end: Option<int>, c: nat, d: nat)
    requires SliceStart(|s|, start) <= c <= d <= |DeleteSlice(s, start, end)|
    ensures var removed := |PySlice(s, start, end)|;
      PySlice(DeleteSlice(s, start, end), Some(c), Some(d))
        == PySlice(s, Some(c + removed), Some(d + removed))
  {
    var lo, hi := SliceStart(|s|, start), SliceEnd(|s|, start, end);
    var r := DeleteSlice(s, start, end);
    assert r == s[..lo] + s[hi..];
    var m := |PySlice(s, start, end)|;
    assert m == hi - lo;
    assert SliceStart(|r|, Some(c)) == c && SliceEnd(|r|, Some(c), Some(d)) == d;
    assert d + m <= |s|;
    assert SliceStart(|s|, Some(c + m)) == c + m && SliceEnd(|s|, Some(c + m), Some(d + m)) == d + m;
    assert forall i :: c <= i < d ==> r[i] == s[i + m];
    assert r[c..d] == s[c + m..d + m];
  }

  // ---------------------------------------------------------------------
  // The ledger object
  // ---------------------------------------------------------------------

  /** The list `future`, which the tools change in place. */
  class FutureLedger {
    var batches: seq<Batch>

    /** The process starts with an empty ledger. */
    constructor()
      ensures batches == []
    {
      batches := [];
    }

    /** `future.append(batch)`, then the whole ledger is handed back. */
    method Append(batch: Batch) returns (current: seq<Batch>)
      modifies this
      ensures batches == old(batches) + [batch]
      ensures |batches| == |old(batches)| + 1
      ensures current == batches
    {
      batches := batches + [batch];
      current := batches;
    }

    /** `del future[start:end]`, then the whole ledger is handed back. */
    method Delete(start: int, end: int) returns (current: seq<Batch>)
      modifies this
      ensures batches == DeleteSlice(old(batches), Some(start), Some(end))
      ensures current == batches
    {
      var lo := SliceStart(|batches|, Some(start));
      var hi := SliceEnd(|batches|, Some(start), Some(end));
      batches := batches[..lo] + batches[hi..];
      current := batches;
    }
  }
}
