/** Rolling and prior-window extrema over a monotonic deque of indices. */
module Extrema {
  import opened Results
  import opened Counting

  // ---------- the naive window ----------

  /** a does not beat b: b is at least as extreme. */
  predicate Yields(a: real, b: real, wantMax: bool) {
    if wantMax then a <= b else a >= b
  }

  function MoreExtreme(a: real, b: real, wantMax: bool): real {
    if Yields(a, b, wantMax) then b else a
  }

  /** The extreme of values[lo..hi], by reading the whole window. */
  function WindowExtreme(values: seq<real>, lo: nat, hi: nat, wantMax: bool): real
    requires lo < hi <= |values|
    decreases hi
  {
    if lo + 1 == hi then values[lo]
    else MoreExtreme(WindowExtreme(values, lo, hi - 1, wantMax), values[hi - 1], wantMax)
  }

  lemma {:induction false} WindowExtremeMeaning(values: seq<real>, lo: nat, hi: nat, wantMax: bool)
    requires lo < hi <= |values|
    ensures forall j | lo <= j < hi :: Yields(values[j], WindowExtreme(values, lo, hi, wantMax), wantMax)
    ensures exists j :: lo <= j < hi && values[j] == WindowExtreme(values, lo, hi, wantMax)
    decreases hi
  {
    if lo + 1 < hi {
      WindowExtremeMeaning(values, lo, hi - 1, wantMax);
      var j :| lo <= j < hi - 1 && values[j] == WindowExtreme(values, lo, hi - 1, wantMax);
      assert values[j] == WindowExtreme(values, lo, hi, wantMax)
          || values[hi - 1] == WindowExtreme(values, lo, hi, wantMax);
    } else {
      assert values[lo] == WindowExtreme(values, lo, hi, wantMax);
    }
  }

  lemma WindowExtremeIs(values: seq<real>, lo: nat, hi: nat, wantMax: bool, at: nat)
    requires lo <= at < hi <= |values|
    requires forall j | lo <= j < hi :: Yields(values[j], values[at], wantMax)
    ensures WindowExtreme(values, lo, hi, wantMax) == values[at]
  {
    WindowExtremeMeaning(values, lo, hi, wantMax);
  }

  function RollingAt(values: seq<real>, period: nat, wantMax: bool, i: nat): Option<real>
    requires 1 <= period && i < |values|
  {
    if i < period - 1 then None else Some(WindowExtreme(values, i + 1 - period, i + 1, wantMax))
  }

  function PriorAt(values: seq<real>, period: nat, wantMax: bool, i: nat): Option<real>
    requires 1 <= period && i < |values|
  {
    if i < period then None else Some(WindowExtreme(values, i - period, i, wantMax))
  }

  /** Inclusive extrema over the last `period` values, undefined until there are that many. */
  function Rolling(values: seq<real>, period: nat, wantMax: bool): seq<Option<real>>
    requires 1 <= period
  {
    seq(|values|, i requires 0 <= i < |values| => RollingAt(values, period, wantMax, i))
  }

  /** The same over the `period` values before the current one. */
  function Prior(values: seq<real>, period: nat, wantMax: bool): seq<Option<real>>
    requires 1 <= period
  {
    seq(|values|, i requires 0 <= i < |values| => PriorAt(values, period, wantMax, i))
  }

  /** A prior extreme is yesterday's rolling extreme, so it never contains the current value. */
  lemma PriorIsRollingDelayed(values: seq<real>, period: nat, wantMax: bool)
    requires 1 <= period
    ensures |Prior(values, period, wantMax)| == |Rolling(values, period, wantMax)| == |values|
    ensures values != [] ==> Prior(values, period, wantMax)[0] == None
    ensures forall i: nat | i + 1 < |values| ::
              Prior(values, period, wantMax)[i + 1] == Rolling(values, period, wantMax)[i]
  {
  }

  // ---------- the deque ----------

  /**
   * The deque's indices ascend to the newest one, and each holds the extreme of
   * everything after its predecessor. The first therefore holds the window's extreme.
   */
  ghost predicate Staircase(values: seq<real>, window: seq<nat>, lo: nat, hi: nat, wantMax: bool)
    requires hi <= |values|
  {
    && (forall k | 0 <= k < |window| :: lo <= window[k] < hi)
    && (forall k, m | 0 <= k < m < |window| :: window[k] < window[m])
    && (forall k: nat {:trigger After(window, lo, k)} | k < |window| ::
          Dominates(values, window[k], After(window, lo, k), hi, wantMax))
  }

  /** values[at] is the extreme of values[from..hi]. */
  ghost predicate Dominates(values: seq<real>, at: nat, from: nat, hi: nat, wantMax: bool)
    requires at < hi <= |values|
  {
    forall j | from <= j < hi :: Yields(values[j], values[at], wantMax)
  }

  /** The first index that the k-th deque entry answers for. */
  function After(window: seq<nat>, lo: nat, k: nat): nat
    requires k <= |window|
  {
    if k == 0 then lo else window[k - 1] + 1
  }

  ghost predicate Covers(values: seq<real>, window: seq<nat>, lo: nat, hi: nat, wantMax: bool)
    requires hi <= |values|
  {
    Staircase(values, window, lo, hi, wantMax) && window != [] && window[|window| - 1] == hi - 1
  }

  lemma FrontIsExtreme(values: seq<real>, window: seq<nat>, lo: nat, hi: nat, wantMax: bool)
    requires hi <= |values| && Covers(values, window, lo, hi, wantMax)
    ensures lo <= window[0] < hi
    ensures WindowExtreme(values, lo, hi, wantMax) == values[window[0]]
  {
    assert Dominates(values, window[0], After(window, lo, 0), hi, wantMax);
    WindowExtremeIs(values, lo, hi, wantMax, window[0]);
  }

  lemma IndicesAreInside(values: seq<real>, window: seq<nat>, lo: nat, hi: nat, wantMax: bool)
    requires hi <= |values| && Staircase(values, window, lo, hi, wantMax)
    ensures forall k | 0 <= k < |window| :: lo <= window[k] < hi
  {
  }

  /** The last entry answers for everything after its predecessor, and may be popped. */
  lemma LastStep(values: seq<real>, window: seq<nat>, lo: nat, hi: nat, wantMax: bool)
    requires hi <= |values| && window != [] && Staircase(values, window, lo, hi, wantMax)
    ensures var end := |window| - 1;
      && lo <= window[end] < hi
      && (forall j | After(window, lo, end) <= j < hi :: Yields(values[j], values[window[end]], wantMax))
      && Staircase(values, window[..end], lo, hi, wantMax) && After(window[..end], lo, end) == After(window, lo, end)
  {
    var end := |window| - 1;
    assert Dominates(values, window[end], After(window, lo, end), hi, wantMax);
    forall k: nat | k < end
      ensures Dominates(values, window[k], After(window[..end], lo, k), hi, wantMax)
    {
      assert Dominates(values, window[k], After(window, lo, k), hi, wantMax);
    }
  }

  lemma PushKeepsStaircase(values: seq<real>, window: seq<nat>, lo: nat, index: nat, wantMax: bool)
    requires lo <= index < |values| && Staircase(values, window, lo, index, wantMax)
    requires forall j | After(window, lo, |window|) <= j < index :: Yields(values[j], values[index], wantMax)
    requires window != [] ==> !Yields(values[window[|window| - 1]], values[index], wantMax)
    ensures Covers(values, window + [index], lo, index + 1, wantMax)
  {
    var pushed, last := window + [index], |window|;
    NewestDominates(values, After(window, lo, last), index, wantMax);
    forall k: nat {:trigger After(pushed, lo, k)} | k < |pushed|
      ensures pushed[k] <= index && Dominates(values, pushed[k], After(pushed, lo, k), index + 1, wantMax)
    {
      assert After(pushed, lo, k) == After(window, lo, k);
      if k < last { StillDominates(values, window, lo, k, index, wantMax); }
    }
    hide Dominates, Yields;
  }

  lemma NewestDominates(values: seq<real>, from: nat, index: nat, wantMax: bool)
    requires index < |values| && forall j | from <= j < index :: Yields(values[j], values[index], wantMax)
    ensures Dominates(values, index, from, index + 1, wantMax)
  {
  }

  lemma StillDominates(values: seq<real>, window: seq<nat>, lo: nat, k: nat, index: nat, wantMax: bool)
    requires index < |values| && k < |window| && Staircase(values, window, lo, index, wantMax)
    requires !Yields(values[window[|window| - 1]], values[index], wantMax)
    ensures window[k] < index && Dominates(values, window[k], After(window, lo, k), index + 1, wantMax)
  {
  }

  lemma FirstStep(values: seq<real>, window: seq<nat>, lo: nat, left: nat, hi: nat, wantMax: bool)
    requires left <= hi <= |values| && Covers(values, window, lo, hi, wantMax) && window[0] < left
    ensures if |window| == 1 then left == hi else Covers(values, window[1..], window[0] + 1, hi, wantMax)
  {
    hide Dominates, Yields;
    var rest := window[1..];
    forall k: nat | k < |rest|
      ensures Dominates(values, rest[k], After(rest, window[0] + 1, k), hi, wantMax)
    {
      assert Dominates(values, window[k + 1], After(window, lo, k + 1), hi, wantMax);
    }
  }

  lemma RaiseEdge(values: seq<real>, window: seq<nat>, lo: nat, left: nat, hi: nat, wantMax: bool)
    requires hi <= |values| && Covers(values, window, lo, hi, wantMax) && lo <= left <= window[0]
    ensures Covers(values, window, left, hi, wantMax)
  {
    forall k: nat | k < |window|
      ensures Dominates(values, window[k], After(window, left, k), hi, wantMax)
    {
      assert Dominates(values, window[k], After(window, lo, k), hi, wantMax);
    }
  }

  /**
   * Pops every index the new value makes redundant, then pushes it. Each pop
   * costs one read, and at most one more read ends the search.
   */
  method Push(series: CountingSequence<real>, window: seq<nat>, ghost lo: nat, index: nat, wantMax: bool)
    returns (pushed: seq<nat>)
    requires lo <= index < |series.items|
    requires Staircase(series.items, window, lo, index, wantMax)
    requires if window == [] then lo == index else window[|window| - 1] == index - 1
    modifies series`readCount
    ensures Covers(series.items, pushed, lo, index + 1, wantMax)
    ensures old(series.readCount) < series.readCount
    ensures series.readCount + |pushed| <= old(series.readCount) + |window| + 3
  {
    hide Staircase;
    IndicesAreInside(series.items, window, lo, index, wantMax);
    var value := series.Get(index);
    pushed := window;
    var searching := true;
    while searching && pushed != []
      invariant Staircase(series.items, pushed, lo, index, wantMax)
      invariant forall j | After(pushed, lo, |pushed|) <= j < index :: Yields(series.items[j], value, wantMax)
      invariant forall k | 0 <= k < |pushed| :: pushed[k] < index
      invariant !searching ==> pushed != [] && !Yields(series.items[pushed[|pushed| - 1]], value, wantMax)
      invariant old(series.readCount) < series.readCount
      invariant series.readCount + |pushed| <= old(series.readCount) + |window| + 1 + (if searching then 0 else 1)
      decreases |pushed|, searching
    {
      var end := |pushed| - 1;
      LastStep(series.items, pushed, lo, index, wantMax);
      var last := series.Get(pushed[end]);
      if Yields(last, value, wantMax) {
        pushed := pushed[..end];
      } else {
        searching := false;
      }
    }
    PushKeepsStaircase(series.items, pushed, lo, index, wantMax);
    pushed := pushed + [index];
  }

  method RollingExtrema(series: CountingSequence<real>, period: nat, wantMax: bool)
    returns (out: seq<Option<real>>)
    requires 1 <= period
    modifies series`readCount
    ensures out == Rolling(series.items, period, wantMax)
    ensures old(series.readCount) <= series.readCount <= old(series.readCount) + 4 * |series.items|
  {
    hide Staircase;
    var n := |series.items|;
    out := seq(n, _ => None);
    if period > n {
      return;
    }
    var window: seq<nat> := [];
    NoneIsStaircase(series.items, 0, wantMax);
    for index := 0 to n
      invariant |out| == n
      invariant forall i | index <= i < n :: out[i] == None
      invariant forall i: nat | i < index :: out[i] == RollingAt(series.items, period, wantMax, i)
      invariant index == 0 ==> window == []
      invariant index > 0 ==> Covers(series.items, window, LeftEdge(index - 1, period), index, wantMax)
      invariant old(series.readCount) <= series.readCount
      invariant series.readCount + |window| <= old(series.readCount) + 4 * index
    {
      window := Push(series, window, if index == 0 then 0 else LeftEdge(index - 1, period), index, wantMax);
      var left := index - period + 1;
      if left >= 0 {
        window := DropStale(series, window, LeftEdge(index - 1, period), left, index + 1, wantMax);
        FrontIsExtreme(series.items, window, left, index + 1, wantMax);
        var extreme := series.Get(window[0]);
        out := out[index := Some(extreme)];
      }
    }
  }

  /** The first index inside the window that ends at `index`. */
  function LeftEdge(index: int, period: nat): nat {
    if index - period + 1 < 0 then 0 else index - period + 1
  }

  /** Drops indices that have left the window; no value is read. */
  method DropStale(
    series: CountingSequence<real>, window: seq<nat>, ghost lo: nat, left: nat, ghost hi: nat, wantMax: bool)
    returns (kept: seq<nat>)
    requires lo <= left <= hi <= |series.items| && Covers(series.items, window, lo, hi, wantMax)
    ensures if left < hi then Covers(series.items, kept, left, hi, wantMax) else kept == []
    ensures |kept| <= |window|
  {
    kept := window;
    ghost var from: nat := lo;
    hide Staircase;
    while kept != [] && kept[0] < left
      invariant from <= left && |kept| <= |window|
      invariant if kept == [] then left == hi else Covers(series.items, kept, from, hi, wantMax)
    {
      FirstStep(series.items, kept, from, left, hi, wantMax);
      from := kept[0] + 1;
      kept := kept[1..];
    }
    if kept != [] {
      IndicesAreInside(series.items, kept, from, hi, wantMax);
      RaiseEdge(series.items, kept, from, left, hi, wantMax);
    }
  }

  method PriorExtrema(series: CountingSequence<real>, period: nat, wantMax: bool)
    returns (out: seq<Option<real>>)
    requires 1 <= period
    modifies series`readCount
    ensures out == Prior(series.items, period, wantMax)
    ensures old(series.readCount) <= series.readCount <= old(series.readCount) + 4 * |series.items|
  {
    hide Staircase;
    var n := |series.items|;
    out := seq(n, _ => None);
    if n <= period {
      return;
    }
    var window: seq<nat> := [];
    NoneIsStaircase(series.items, 0, wantMax);
    for index := 0 to period
      invariant index == 0 ==> window == []
      invariant index > 0 ==> Covers(series.items, window, 0, index, wantMax)
      invariant old(series.readCount) <= series.readCount
      invariant series.readCount + |window| <= old(series.readCount) + 3 * index
    {
      window := Push(series, window, 0, index, wantMax);
    }
    FrontIsExtreme(series.items, window, 0, period, wantMax);
    var first := series.Get(window[0]);
    out := out[period := Some(first)];
    for index := period to n - 1
      invariant |out| == n
      invariant forall i | index < i < n :: out[i] == None
      invariant forall i: nat | i <= index :: out[i] == PriorAt(series.items, period, wantMax, i)
      invariant Covers(series.items, window, index - period, index, wantMax)
      invariant old(series.readCount) <= series.readCount
      invariant series.readCount + |window| <= old(series.readCount) + 4 * index
    {
      var left := index - period + 1;
      window := DropStale(series, window, index - period, left, index, wantMax);
      if window == [] { NoneIsStaircase(series.items, index, wantMax); }
      window := Push(series, window, left, index, wantMax);
      FrontIsExtreme(series.items, window, left, index + 1, wantMax);
      var extreme := series.Get(window[0]);
      out := out[index + 1 := Some(extreme)];
    }
  }

  lemma NoneIsStaircase(values: seq<real>, at: nat, wantMax: bool)
    requires at <= |values|
    ensures Staircase(values, [], at, at, wantMax)
  {
  }
}
