/** Read-only candle queries with an open-time cursor. */
module Query {
  import opened Integers
  import opened Results
  import opened Timeframes
  import opened Candles
  import opened Series

  const MIN_CANDLE_LIMIT := 1
  const MAX_CANDLE_LIMIT := 5000

  datatype QueryError =
    | LimitOutOfBounds
    | StartMisaligned
    | EndMisaligned
    | AfterMisaligned
    | StartNotBeforeEnd
    | AfterBeforeStart
    | AfterNotBeforeEnd

  datatype CandleQuery = CandleQuery(
    snapshotId: string,
    symbol: string,
    timeframe: Timeframe,
    start: Option<Instant>,
    end: Option<Instant>,
    after: Option<Instant>,
    limit: int)

  function ValidateQuery(q: CandleQuery): Result<(), QueryError> {
    if q.limit < MIN_CANDLE_LIMIT || q.limit > MAX_CANDLE_LIMIT then Err(LimitOutOfBounds)
    else if q.start.Some? && !IsAligned(q.start.value, q.timeframe) then Err(StartMisaligned)
    else if q.end.Some? && !IsAligned(q.end.value, q.timeframe) then Err(EndMisaligned)
    else if q.after.Some? && !IsAligned(q.after.value, q.timeframe) then Err(AfterMisaligned)
    else if q.start.Some? && q.end.Some? && !(q.start.value < q.end.value) then Err(StartNotBeforeEnd)
    else if q.after.Some? && q.start.Some? && q.after.value < q.start.value then Err(AfterBeforeStart)
    else if q.after.Some? && q.end.Some? && q.after.value >= q.end.value then Err(AfterNotBeforeEnd)
    else Ok(())
  }

  predicate Matches(q: CandleQuery, c: Candle) {
    && (q.start.Some? ==> q.start.value <= c.openTime)
    && (q.end.Some? ==> c.openTime < q.end.value)
    && (q.after.Some? ==> q.after.value < c.openTime)
  }

  /** All matching candles, in order. */
  function Matching(candles: seq<Candle>, q: CandleQuery): (m: seq<Candle>)
    ensures |m| <= |candles|
  {
    if candles == [] then []
    else
      var last := |candles| - 1;
      Matching(candles[..last], q) + (if Matches(q, candles[last]) then [candles[last]] else [])
  }

  function Upto<T>(items: seq<T>, n: nat): seq<T> {
    if n <= |items| then items[..n] else items
  }

  lemma {:induction false} MatchingGrows(candles: seq<Candle>, q: CandleQuery, n: nat)
    requires n <= |candles|
    ensures Matching(candles[..n], q) <= Matching(candles, q)
  {
    if n < |candles| {
      var last := |candles| - 1;
      MatchingGrows(candles[..last], q, n);
      assert candles[..last][..n] == candles[..n];
    } else {
      assert candles[..n] == candles;
    }
  }

  lemma MatchingStep(candles: seq<Candle>, q: CandleQuery, i: nat)
    requires i < |candles|
    ensures Matching(candles[..i + 1], q)
      == if Matches(q, candles[i]) then Matching(candles[..i], q) + [candles[i]] else Matching(candles[..i], q)
  {
    assert candles[..i + 1][..i] == candles[..i];
  }

  /**
   * The first limit + 1 matches. It stops at the one that looks ahead: what was
   * consumed before the last item did not yet hold that many.
   */
  method CollectMatchingPage(candles: seq<Candle>, q: CandleQuery) returns (collected: seq<Candle>, ghost consumed: nat)
    requires q.limit >= 0
    ensures collected == Upto(Matching(candles, q), q.limit + 1)
    ensures consumed <= |candles| && collected == Matching(candles[..consumed], q)
    ensures consumed > 0 ==> |Matching(candles[..consumed - 1], q)| <= q.limit
  {
    assert candles[..|candles|] == candles && Matching(candles[..0], q) == [];
    hide Matching, Matches;
    collected := [];
    var target := q.limit + 1;
    consumed := 0;
    for i := 0 to |candles|
      invariant consumed == i && collected == Matching(candles[..i], q) && |collected| < target
      invariant i > 0 ==> |Matching(candles[..i - 1], q)| <= q.limit
    {
      MatchingStep(candles, q, i);
      consumed := i + 1;
      if Matches(q, candles[i]) {
        collected := collected + [candles[i]];
        if |collected| >= target {
          break;
        }
      }
    }
    MatchingGrows(candles, q, consumed);
  }

  datatype CandlePage = CandlePage(
    snapshotId: string,
    symbol: string,
    timeframe: Timeframe,
    count: nat,
    hasMore: bool,
    nextCursor: Option<Instant>,
    items: seq<Candle>)

  /** The page a query yields: its first matches, and a cursor exactly when more follow. */
  function PageOf(candles: seq<Candle>, q: CandleQuery): CandlePage
    requires q.limit >= 1
  {
    var matching := Matching(candles, q);
    var items := Upto(matching, q.limit);
    var hasMore := |matching| > q.limit;
    CandlePage(
      q.snapshotId, q.symbol, q.timeframe, |items|, hasMore,
      if hasMore then Some(matching[q.limit - 1].openTime) else None, items)
  }

  method PaginateCandles(candles: seq<Candle>, q: CandleQuery) returns (page: CandlePage)
    requires ValidateQuery(q).Ok?
    ensures page == PageOf(candles, q)
  {
    var matching, _ := CollectMatchingPage(candles, q);
    var hasMore := |matching| > q.limit;
    var items := if q.limit <= |matching| then matching[..q.limit] else matching;
    var nextCursor := if hasMore && items != [] then Some(items[|items| - 1].openTime) else None;
    page := CandlePage(q.snapshotId, q.symbol, q.timeframe, |items|, hasMore, nextCursor, items);
  }

  // ---------- following the cursor ----------

  lemma CanonicalAscends(candles: seq<Candle>, timeframe: Timeframe)
    requires Canonical(candles, timeframe)
    ensures Ascending(candles)
    ensures forall k | 0 <= k < |candles| :: IsAligned(candles[k].openTime, timeframe)
  {
    forall i, j | 0 <= i < j < |candles|
      ensures candles[i].openTime < candles[j].openTime
    {
      assert PlacedAt(candles, timeframe, i) && PlacedAt(candles, timeframe, j);
      ProductsStepByDivisor(i, j, Duration(timeframe));
    }
    forall k | 0 <= k < |candles|
      ensures IsAligned(candles[k].openTime, timeframe)
    {
      assert PlacedAt(candles, timeframe, k);
      StepKeepsAlignment(candles[0].openTime, k, timeframe);
    }
  }

  /** Filtering keeps the order and keeps exactly the candles that match. */
  lemma {:induction false} MatchingIsFilter(candles: seq<Candle>, q: CandleQuery)
    requires Ascending(candles)
    ensures var m := Matching(candles, q);
      && Ascending(m)
      && (forall k | 0 <= k < |m| ::
            m[k] in candles && Matches(q, m[k]) && m[k].openTime <= candles[|candles| - 1].openTime)
      && forall c | c in candles && Matches(q, c) :: c in m
  {
    if candles != [] {
      MatchingIsFilter(candles[..|candles| - 1], q);
      assert candles == candles[..|candles| - 1] + [candles[|candles| - 1]];
    }
  }

  function Later(candles: seq<Candle>, t: Instant): seq<Candle> {
    if candles == [] then []
    else
      var last := |candles| - 1;
      Later(candles[..last], t) + (if t < candles[last].openTime then [candles[last]] else [])
  }

  lemma {:induction false} CursorFilters(candles: seq<Candle>, q: CandleQuery, t: Instant)
    requires q.after.Some? ==> q.after.value <= t
    ensures Matching(candles, q.(after := Some(t))) == Later(Matching(candles, q), t)
  {
    if candles != [] {
      var last := |candles| - 1;
      CursorFilters(candles[..last], q, t);
      var m := Matching(candles[..last], q);
      if Matches(q, candles[last]) {
        assert Matching(candles, q) == m + [candles[last]];
        assert (m + [candles[last]])[..|m|] == m;
      } else {
        assert Matching(candles, q) == m;
      }
    }
  }

  lemma {:induction false} LaterIsSuffix(candles: seq<Candle>, k: nat)
    requires Ascending(candles) && k < |candles|
    ensures Later(candles, candles[k].openTime) == candles[k + 1..]
  {
    var last := |candles| - 1;
    if k < last {
      LaterIsSuffix(candles[..last], k);
      assert candles[k + 1..] == candles[..last][k + 1..] + [candles[last]];
    } else {
      NothingLater(candles, candles[k].openTime);
    }
  }

  lemma {:induction false} NothingLater(candles: seq<Candle>, t: Instant)
    requires forall k | 0 <= k < |candles| :: candles[k].openTime <= t
    ensures Later(candles, t) == []
  {
    if candles != [] { NothingLater(candles[..|candles| - 1], t); }
  }

  function NextQuery(candles: seq<Candle>, q: CandleQuery): CandleQuery
    requires q.limit >= 1
  {
    q.(after := PageOf(candles, q).nextCursor)
  }

  /** The cursor is an aligned open time inside the queried bounds and past the old cursor. */
  lemma CursorIsMatch(candles: seq<Candle>, q: CandleQuery)
    requires Canonical(candles, q.timeframe) && q.limit >= 1 && |Matching(candles, q)| > q.limit
    ensures Ascending(Matching(candles, q))
    ensures var edge := Matching(candles, q)[q.limit - 1];
      Matches(q, edge) && IsAligned(edge.openTime, q.timeframe)
  {
    hide Canonical, IsAligned, Matches, Matching;
    CanonicalAscends(candles, q.timeframe);
    MatchingIsFilter(candles, q);
    var edge := Matching(candles, q)[q.limit - 1];
    assert edge in candles;
  }

  /** A returned cursor makes a valid query, and that query matches exactly what the page left over. */
  lemma NextQueryContinues(candles: seq<Candle>, q: CandleQuery)
    requires Canonical(candles, q.timeframe) && ValidateQuery(q).Ok?
    requires PageOf(candles, q).nextCursor.Some?
    ensures ValidateQuery(NextQuery(candles, q)).Ok?
    ensures Matching(candles, NextQuery(candles, q)) == Matching(candles, q)[q.limit..]
  {
    hide Canonical, IsAligned, Matching, Ascending;
    CursorIsMatch(candles, q);
    var m := Matching(candles, q);
    CursorFilters(candles, q, m[q.limit - 1].openTime);
    LaterIsSuffix(m, q.limit - 1);
  }

  /** All pages, following each cursor until there is none. */
  function FollowPages(candles: seq<Candle>, q: CandleQuery): seq<CandlePage>
    requires Canonical(candles, q.timeframe) && ValidateQuery(q).Ok?
    decreases |Matching(candles, q)|
  {
    var page := PageOf(candles, q);
    if page.nextCursor.None? then [page]
    else
      NextQueryContinues(candles, q);
      [page] + FollowPages(candles, NextQuery(candles, q))
  }

  function ItemsOf(pages: seq<CandlePage>): seq<Candle> {
    if pages == [] then [] else pages[0].items + ItemsOf(pages[1..])
  }

  /** An empty result still takes one page. */
  function PagesFor(matches: nat, limit: int): int
    requires limit >= 1
  {
    if matches == 0 then 1 else CeilDiv(matches, limit)
  }

  lemma OnePageLess(matches: nat, limit: int)
    requires limit >= 1
    ensures matches > limit ==> PagesFor(matches, limit) == PagesFor(matches - limit, limit) + 1
    ensures matches <= limit ==> PagesFor(matches, limit) == 1
  {
    if matches > 0 { CeilDivStep(matches, limit); }
  }

  /** Following the cursors enumerates every match once, in order, in the fewest pages of that size. */
  lemma {:induction false} PagesEnumerateOnce(candles: seq<Candle>, q: CandleQuery)
    requires Canonical(candles, q.timeframe) && ValidateQuery(q).Ok?
    ensures var pages := FollowPages(candles, q);
      && ItemsOf(pages) == Matching(candles, q)
      && |pages| == PagesFor(|Matching(candles, q)|, q.limit)
      && forall k | 0 <= k < |pages| :: pages[k].hasMore <==> k < |pages| - 1
    decreases |Matching(candles, q)|
  {
    hide Canonical, IsAligned, PagesFor, Matching;
    var page, m := PageOf(candles, q), Matching(candles, q);
    if page.nextCursor.None? {
      OnePageLess(|m|, q.limit);
      assert [page][1..] == [];
    } else {
      NextQueryContinues(candles, q);
      var next := NextQuery(candles, q);
      PagesEnumerateOnce(candles, next);
      OnePageLess(|m|, q.limit);
      var rest := FollowPages(candles, next);
      assert ([page] + rest)[1..] == rest;
      assert m == m[..q.limit] + m[q.limit..];
    }
  }
}
