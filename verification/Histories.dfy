/** Read-only views of a shared series that stop at an end index. */
module Histories {
  import opened Results

  datatype HistoryError = EndOutOfRange | IndexOutOfRange | ZeroStep

  /** The first `end` items of the source; several histories may share one source. */
  datatype History<T> = History(source: seq<T>, end: nat) {
    predicate Valid() {
      end <= |source|
    }

    /** All a reader can reach. */
    function Visible(): seq<T>
      requires Valid()
    {
      source[..end]
    }

    function Latest(): Option<T>
      requires Valid()
    {
      if end == 0 then None else Some(source[end - 1])
    }

    /** Indexing; a negative index counts back from the end of what is visible. */
    function Get(key: int): Result<T, HistoryError>
      requires Valid()
    {
      var index := if key < 0 then end + key else key;
      if index < 0 || index >= end then Err(IndexOutOfRange) else Ok(source[index])
    }

    /** Slicing: the indices of the slice over the visible length, read from the source. */
    function Slice(start: Option<int>, stop: Option<int>, step: int): Result<seq<T>, HistoryError>
      requires Valid()
    {
      if step == 0 then Err(ZeroStep)
      else
        var indices := SliceIndices(start, stop, step, end);
        SliceStaysVisible(start, stop, step, end);
        Ok(Pick(source, indices))
    }
  }

  function Pick<T>(source: seq<T>, indices: seq<int>): (picked: seq<T>)
    requires forall k | 0 <= k < |indices| :: 0 <= indices[k] < |source|
    ensures |picked| == |indices| && forall k | 0 <= k < |indices| :: picked[k] == source[indices[k]]
  {
    seq(|indices|, k requires 0 <= k < |indices| => source[indices[k]])
  }

  function MakeHistory<T>(source: seq<T>, end: int): (r: Result<History<T>, HistoryError>)
    ensures r.Ok? <==> 0 <= end <= |source|
    ensures r.Ok? ==> r.value == History(source, end)
  {
    if end < 0 || end > |source| then Err(EndOutOfRange) else Ok(History(source, end))
  }

  /** A slice bound resolved against a length, clamped to lower..upper. */
  function Resolve(bound: int, length: nat, lower: int, upper: int): int {
    if bound < 0
    then (if bound + length < 0 then lower else bound + length)
    else (if bound >= length then upper else bound)
  }

  function RangeFrom(start: int, stop: int, step: int): seq<int>
    requires step != 0
    decreases if step > 0 then stop - start else start - stop
  {
    if step > 0 && start < stop then [start] + RangeFrom(start + step, stop, step)
    else if step < 0 && start > stop then [start] + RangeFrom(start + step, stop, step)
    else []
  }

  /** The indices a slice selects from a sequence of the given length. */
  function SliceIndices(start: Option<int>, stop: Option<int>, step: int, length: nat): seq<int>
    requires step != 0
  {
    if step > 0 then
      RangeFrom(
        if start.None? then 0 else Resolve(start.value, length, 0, length),
        if stop.None? then length else Resolve(stop.value, length, 0, length),
        step)
    else
      RangeFrom(
        if start.None? then length - 1 else Resolve(start.value, length, -1, length - 1),
        if stop.None? then -1 else Resolve(stop.value, length, -1, length - 1),
        step)
  }

  lemma {:induction false} RangeIsBounded(start: int, stop: int, step: int, lo: int, hi: int)
    requires step != 0
    requires if step > 0 then lo <= start && stop <= hi else start < hi && lo - 1 <= stop
    ensures forall k | 0 <= k < |RangeFrom(start, stop, step)| :: lo <= RangeFrom(start, stop, step)[k] < hi
    decreases if step > 0 then stop - start else start - stop
  {
    if (step > 0 && start < stop) || (step < 0 && start > stop) {
      RangeIsBounded(start + step, stop, step, lo, hi);
    }
  }

  /** Whatever its bounds and step, a slice selects only visible items. */
  lemma SliceStaysVisible(start: Option<int>, stop: Option<int>, step: int, length: nat)
    requires step != 0
    ensures forall k | 0 <= k < |SliceIndices(start, stop, step, length)| ::
              0 <= SliceIndices(start, stop, step, length)[k] < length
  {
    if step > 0 {
      RangeIsBounded(
        if start.None? then 0 else Resolve(start.value, length, 0, length),
        if stop.None? then length else Resolve(stop.value, length, 0, length),
        step, 0, length);
    } else {
      RangeIsBounded(
        if start.None? then length - 1 else Resolve(start.value, length, -1, length - 1),
        if stop.None? then -1 else Resolve(stop.value, length, -1, length - 1),
        step, 0, length);
    }
  }

  /** Histories with equal visible items answer every read alike, whatever their sources hold beyond. */
  lemma ReadsShowOnlyTheVisible<T>(h: History<T>, g: History<T>)
    requires h.Valid() && g.Valid() && h.Visible() == g.Visible()
    ensures h.Latest() == g.Latest()
    ensures forall key :: h.Get(key) == g.Get(key)
    ensures forall start, stop, step :: h.Slice(start, stop, step) == g.Slice(start, stop, step)
  {
    assert h.end == |h.Visible()| == |g.Visible()| == g.end;
    forall i | 0 <= i < h.end
      ensures h.source[i] == g.source[i]
    {
      assert h.source[i] == h.Visible()[i] == g.Visible()[i];
    }
    forall start: Option<int>, stop: Option<int>, step: int
      ensures h.Slice(start, stop, step) == g.Slice(start, stop, step)
    {
      if step != 0 {
        SliceStaysVisible(start, stop, step, h.end);
        assert h.Slice(start, stop, step).value == g.Slice(start, stop, step).value;
      }
    }
  }

  /** A full slice is what is visible. */
  lemma {:induction false} FullSliceIsVisible<T>(h: History<T>)
    requires h.Valid()
    ensures h.Slice(None, None, 1) == Ok(h.Visible())
  {
    CountingUp(0, h.end);
    assert h.Slice(None, None, 1).value == h.Visible();
  }

  lemma {:induction false} CountingUp(start: int, stop: int)
    requires start <= stop
    ensures |RangeFrom(start, stop, 1)| == stop - start
    ensures forall k | 0 <= k < stop - start :: RangeFrom(start, stop, 1)[k] == start + k
    decreases stop - start
  {
    if start < stop { CountingUp(start + 1, stop); }
  }
}
