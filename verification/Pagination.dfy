/** Forward pagination over an exchange's candle pages. */
module Pagination {
  import opened Integers
  import opened Results
  import opened Timeframes
  import opened Candles
  import opened Ranges

  datatype Request = Request(symbol: string, interval: Timeframe, startTime: Instant, endTime: Instant, limit: int)

  datatype ClientReply = ClientRaised | Page(candles: seq<Candle>, raw: string)

  /** Any exchange at all: its reply may depend on how often it has been asked. */
  type Client = (nat, Request) -> ClientReply

  datatype FetchError =
    | ClientFailed
    | EmptyPage
    | StaleOpenTime
    | DuplicateOpenTime
    | OutOfOrderOpenTime
    | NothingInRange
    | DidNotAdvance
    | BadRange(range: RangeError)
    | CoverageMismatch
    | GappedCandle
    | OutsideRange

  datatype SourcePage = SourcePage(
    raw: string, requestedStart: Instant, requestedEnd: Instant, requestedLimit: int, returnedRowCount: nat)

  datatype FetchResult = FetchResult(candles: seq<Candle>, pages: seq<SourcePage>)

  function Opens(candles: seq<Candle>): set<Instant> {
    set k | 0 <= k < |candles| :: candles[k].openTime
  }

  /** The rows of the first n of a page that the range keeps, or the first objection. */
  function ScanPage(page: seq<Candle>, n: nat, cursor: Instant, end: Instant, seen: set<Instant>)
    : (r: Result<seq<Candle>, FetchError>)
    requires n <= |page|
    ensures r.Ok? ==> |r.value| <= n
  {
    if n == 0 then Ok([])
    else
      var kept :- ScanPage(page, n - 1, cursor, end, seen);
      var candle := page[n - 1];
      if candle.openTime < cursor then Err(StaleOpenTime)
      else if candle.openTime >= end then Ok(kept)
      else if candle.openTime in seen + Opens(kept) then Err(DuplicateOpenTime)
      else if kept != [] && candle.openTime <= kept[|kept| - 1].openTime then Err(OutOfOrderOpenTime)
      else Ok(kept + [candle])
  }

  function RequestAt(symbol: string, range: ImportRange, limit: int, cursor: Instant): Request {
    Request(symbol, range.timeframe, cursor, range.end, limit)
  }

  /** What is fetched from the cursor on, when this many requests have been made. */
  function FetchFrom(
    client: Client, symbol: string, range: ImportRange, limit: int, cursor: Instant, calls: nat, seen: set<Instant>)
    : Result<FetchResult, FetchError>
    decreases range.end - cursor
  {
    if cursor >= range.end then Ok(FetchResult([], []))
    else
      var request := RequestAt(symbol, range, limit, cursor);
      match client(calls, request)
      case ClientRaised => Err(ClientFailed)
      case Page(candles, raw) =>
        var page := SourcePage(raw, cursor, range.end, limit, |candles|);
        if candles == [] then Err(EmptyPage)
        else
          var kept :- ScanPage(candles, |candles|, cursor, range.end, seen);
          if kept == [] then Err(NothingInRange)
          else
            var next := kept[|kept| - 1].openTime + Duration(range.timeframe);
            if next <= cursor then Err(DidNotAdvance)
            else
              var rest :- FetchFrom(client, symbol, range, limit, next, calls + 1, seen + Opens(kept));
              Ok(FetchResult(kept + rest.candles, [page] + rest.pages))
  }

  function Prepend(candles: seq<Candle>, pages: seq<SourcePage>, rest: Result<FetchResult, FetchError>)
    : Result<FetchResult, FetchError>
  {
    match rest
    case Err(e) => Err(e)
    case Ok(r) => Ok(FetchResult(candles + r.candles, pages + r.pages))
  }

  /** The filter over one page. */
  method FilterPage(page: seq<Candle>, cursor: Instant, end: Instant, seen: set<Instant>)
    returns (r: Result<seq<Candle>, FetchError>, seenTimes: set<Instant>)
    ensures r == ScanPage(page, |page|, cursor, end, seen)
    ensures r.Ok? ==> seenTimes == seen + Opens(r.value)
  {
    var inRange: seq<Candle> := [];
    seenTimes := seen;
    for n := 0 to |page|
      invariant ScanPage(page, n, cursor, end, seen) == Ok(inRange)
      invariant seenTimes == seen + Opens(inRange)
    {
      ScanErrorsAreFinal(page, n + 1, |page|, cursor, end, seen);
      var candle := page[n];
      if candle.openTime < cursor {
        return Err(StaleOpenTime), seenTimes;
      }
      if candle.openTime < end {
        if candle.openTime in seenTimes {
          return Err(DuplicateOpenTime), seenTimes;
        }
        if inRange != [] && candle.openTime <= inRange[|inRange| - 1].openTime {
          return Err(OutOfOrderOpenTime), seenTimes;
        }
        OpensGrow(inRange, candle);
        seenTimes := seenTimes + {candle.openTime};
        inRange := inRange + [candle];
      }
    }
    r := Ok(inRange);
  }

  lemma OpensGrow(candles: seq<Candle>, c: Candle)
    ensures Opens(candles + [c]) == Opens(candles) + {c.openTime}
  {
    var grown := candles + [c];
    forall t | t in Opens(candles) + {c.openTime}
      ensures t in Opens(grown)
    {
      if t == c.openTime {
        assert grown[|candles|].openTime == t;
      } else {
        var k :| 0 <= k < |candles| && candles[k].openTime == t;
        assert grown[k].openTime == t;
      }
    }
  }

  lemma {:induction false} ScanErrorsAreFinal(
    page: seq<Candle>, n: nat, m: nat, cursor: Instant, end: Instant, seen: set<Instant>)
    requires n <= m <= |page|
    ensures ScanPage(page, n, cursor, end, seen).Err? ==>
      ScanPage(page, m, cursor, end, seen) == ScanPage(page, n, cursor, end, seen)
  {
    if n < m { ScanErrorsAreFinal(page, n, m - 1, cursor, end, seen); }
  }

  method FetchKlinesRange(client: Client, symbol: string, range: ImportRange, limit: int)
    returns (r: Result<FetchResult, FetchError>)
    ensures r == FetchFrom(client, symbol, range, limit, range.start, 0, {})
    ensures r != Err(DidNotAdvance)
  {
    hide ScanPage, Opens, Duration;
    FetchNeverStalls(client, symbol, range, limit, range.start, 0, {});
    var duration := Duration(range.timeframe);
    var cursor, end := range.start, range.end;
    var collected: seq<Candle>, pages: seq<SourcePage> := [], [];
    var seenTimes: set<Instant> := {};
    PrependNothing(FetchFrom(client, symbol, range, limit, cursor, 0, {}));
    while cursor < end
      invariant FetchFrom(client, symbol, range, limit, range.start, 0, {})
             == Prepend(collected, pages, FetchFrom(client, symbol, range, limit, cursor, |pages|, seenTimes))
    {
      var reply := client(|pages|, RequestAt(symbol, range, limit, cursor));
      if reply.ClientRaised? {
        return Err(ClientFailed);
      }
      if reply.candles == [] {
        return Err(EmptyPage);
      }
      var filtered, seenAfter := FilterPage(reply.candles, cursor, end, seenTimes);
      var inRange :- filtered;
      if inRange == [] {
        return Err(NothingInRange);
      }
      var nextCursor := inRange[|inRange| - 1].openTime + duration;
      KeptIsFresh(reply.candles, |reply.candles|, cursor, end, seenTimes);
      if nextCursor <= cursor {
        return Err(DidNotAdvance);
      }
      var page := SourcePage(reply.raw, cursor, end, limit, |reply.candles|);
      ghost var rest := FetchFrom(client, symbol, range, limit, nextCursor, |pages| + 1, seenAfter);
      PrependTwice(collected, pages, inRange, page, rest);
      pages := pages + [page];
      seenTimes := seenAfter;
      collected := collected + inRange;
      cursor := nextCursor;
    }
    assert collected + [] == collected && pages + [] == pages;
    return Ok(FetchResult(collected, pages));
  }

  lemma PrependNothing(rest: Result<FetchResult, FetchError>)
    ensures Prepend([], [], rest) == rest
  {
    if rest.Ok? {
      assert [] + rest.value.candles == rest.value.candles && [] + rest.value.pages == rest.value.pages;
    }
  }

  lemma PrependTwice(
    collected: seq<Candle>, pages: seq<SourcePage>, kept: seq<Candle>, page: SourcePage,
    rest: Result<FetchResult, FetchError>)
    ensures Prepend(collected, pages, Prepend(kept, [page], rest)) == Prepend(collected + kept, pages + [page], rest)
  {
    if rest.Ok? {
      assert collected + (kept + rest.value.candles) == collected + kept + rest.value.candles;
      assert pages + ([page] + rest.value.pages) == pages + [page] + rest.value.pages;
    }
  }

  // ---------- against any client ----------

  predicate Within(candles: seq<Candle>, from: Instant, end: Instant) {
    forall k | 0 <= k < |candles| :: from <= candles[k].openTime < end
  }

  /** A page contributes strictly increasing opens inside the remaining range. */
  lemma {:induction false} KeptIsFresh(page: seq<Candle>, n: nat, cursor: Instant, end: Instant, seen: set<Instant>)
    requires n <= |page| && ScanPage(page, n, cursor, end, seen).Ok?
    ensures var kept := ScanPage(page, n, cursor, end, seen).value; Ascending(kept) && Within(kept, cursor, end)
  {
    hide Opens;
    if n > 0 { KeptIsFresh(page, n - 1, cursor, end, seen); }
  }

  /** The guard against a cursor that does not advance cannot fire, whatever the client does. */
  lemma {:induction false} FetchNeverStalls(
    client: Client, symbol: string, range: ImportRange, limit: int, cursor: Instant, calls: nat, seen: set<Instant>)
    ensures FetchFrom(client, symbol, range, limit, cursor, calls, seen) != Err(DidNotAdvance)
    decreases range.end - cursor
  {
    hide Opens;
    if cursor < range.end {
      var reply := client(calls, RequestAt(symbol, range, limit, cursor));
      if reply.Page? && reply.candles != [] {
        ScanNeverStalls(reply.candles, |reply.candles|, cursor, range.end, seen);
        var kept := ScanPage(reply.candles, |reply.candles|, cursor, range.end, seen);
        if kept.Ok? && kept.value != [] {
          KeptIsFresh(reply.candles, |reply.candles|, cursor, range.end, seen);
          var next := kept.value[|kept.value| - 1].openTime + Duration(range.timeframe);
          FetchNeverStalls(client, symbol, range, limit, next, calls + 1, seen + Opens(kept.value));
        }
      }
    }
  }

  lemma {:induction false} ScanNeverStalls(page: seq<Candle>, n: nat, cursor: Instant, end: Instant, seen: set<Instant>)
    requires n <= |page|
    ensures ScanPage(page, n, cursor, end, seen) != Err(DidNotAdvance)
  {
    if n > 0 { ScanNeverStalls(page, n - 1, cursor, end, seen); }
  }

  /**
   * Whatever the client returns, a result has strictly increasing opens inside the
   * range and took no more requests than the range has durations, rounded up.
   */
  lemma {:induction false} FetchedIsOrdered(
    client: Client, symbol: string, range: ImportRange, limit: int, cursor: Instant, calls: nat, seen: set<Instant>)
    requires FetchFrom(client, symbol, range, limit, cursor, calls, seen).Ok?
    ensures var r := FetchFrom(client, symbol, range, limit, cursor, calls, seen).value;
      && Ascending(r.candles) && Within(r.candles, cursor, range.end)
      && |r.pages| <= |r.candles|
      && |r.pages| <= CeilDiv(range.end - cursor, Duration(range.timeframe))
    decreases range.end - cursor
  {
    hide Opens, ScanPage, CeilDiv;
    if cursor < range.end {
      var reply := client(calls, RequestAt(symbol, range, limit, cursor));
      var kept := ScanPage(reply.candles, |reply.candles|, cursor, range.end, seen).value;
      KeptIsFresh(reply.candles, |reply.candles|, cursor, range.end, seen);
      var next := kept[|kept| - 1].openTime + Duration(range.timeframe);
      FetchedIsOrdered(client, symbol, range, limit, next, calls + 1, seen + Opens(kept));
      CeilDivStep(range.end - cursor, Duration(range.timeframe));
      CeilDivIsMonotone(range.end - next, range.end - cursor - Duration(range.timeframe), Duration(range.timeframe));
    } else {
      CeilDivIsMonotone(range.end - cursor, range.end - cursor, Duration(range.timeframe));
    }
  }

  // ---------- coverage ----------

  /** Candle k of a complete series opens k durations after the start. */
  predicate OpensAt(candles: seq<Candle>, range: ImportRange, k: nat)
    requires k < |candles|
  {
    candles[k].openTime == range.start + k * Duration(range.timeframe)
  }

  predicate Covers(candles: seq<Candle>, range: ImportRange) {
    && ExpectedCandleCount(range) == Ok(|candles|)
    && forall k: nat | k < |candles| :: OpensAt(candles, range, k)
  }

  /** Accepts exactly the complete series; its check against the range bounds is implied. */
  method AssertCompleteCoverage(candles: seq<Candle>, range: ImportRange) returns (r: Result<(), FetchError>)
    ensures r.Ok? <==> Covers(candles, range)
    ensures r != Err(OutsideRange)
  {
    var expected := ExpectedCandleCount(range);
    if expected.Err? {
      return Err(BadRange(expected.error));
    }
    if |candles| != expected.value {
      return Err(CoverageMismatch);
    }
    var duration := Duration(range.timeframe);
    WholeMultiple(range.end - range.start, duration);
    var expectedOpen := range.start;
    for k := 0 to |candles|
      invariant expectedOpen == range.start + k * duration
      invariant forall j: nat | j < k :: OpensAt(candles, range, j)
    {
      assert (k + 1) * duration == k * duration + duration;
      if candles[k].openTime != expectedOpen {
        assert !OpensAt(candles, range, k);
        return Err(GappedCandle);
      }
      ProductsStepByDivisor(k, |candles|, duration);
      MultipleIsNonNegative(k, duration);
      if candles[k].openTime < range.start || candles[k].openTime >= range.end {
        return Err(OutsideRange);
      }
      expectedOpen := expectedOpen + duration;
    }
    return Ok(());
  }

  lemma MultipleIsNonNegative(k: nat, d: int)
    requires d > 0
    ensures 0 <= k * d
  {
  }

  // ---------- against a faithful exchange ----------

  /** The exchange's own candles from the start of the range, which may run past its end. */
  predicate BookFor(book: seq<Candle>, range: ImportRange, n: nat) {
    && n <= |book| && ExpectedCandleCount(range) == Ok(n)
    && forall k: nat | k < |book| :: OpensAt(book, range, k)
  }

  function CursorAt(range: ImportRange, k: nat): Instant {
    range.start + k * Duration(range.timeframe)
  }

  /** Asked from an open inside the range, it returns some non-empty run of its book from there. */
  ghost predicate Faithful(
    client: Client, symbol: string, range: ImportRange, limit: int, book: seq<Candle>, n: nat)
    requires n <= |book|
  {
    forall calls: nat, k: nat {:trigger client(calls, RequestAt(symbol, range, limit, CursorAt(range, k)))} | k < n ::
      var reply := client(calls, RequestAt(symbol, range, limit, CursorAt(range, k)));
      reply.Page? && reply.candles != [] && reply.candles <= book[k..]
  }

  /** A candle later than all kept ones is kept when it opens before the end, else skipped. */
  lemma ScanStep(page: seq<Candle>, j: nat, cursor: Instant, end: Instant, seen: set<Instant>, kept: seq<Candle>)
    requires 0 < j <= |page| && ScanPage(page, j - 1, cursor, end, seen) == Ok(kept)
    requires cursor <= page[j - 1].openTime && forall t | t in seen :: t < cursor
    requires forall m | 0 <= m < |kept| :: kept[m].openTime < page[j - 1].openTime
    ensures ScanPage(page, j, cursor, end, seen)
      == Ok(if page[j - 1].openTime < end then kept + [page[j - 1]] else kept)
  {
  }

  /** The first j candles from k on, less those past the range. */
  function RunOf(book: seq<Candle>, k: nat, j: nat, n: nat): seq<Candle>
    requires k <= n <= |book|
  {
    book[k..if k + j <= n then k + j else n]
  }

  lemma RunGrows(book: seq<Candle>, k: nat, j: nat, n: nat)
    requires k < n <= |book| && 0 < j <= |book| - k
    ensures RunOf(book, k, j, n)
      == if k + j - 1 < n then RunOf(book, k, j - 1, n) + [book[k + j - 1]] else RunOf(book, k, j - 1, n)
    ensures RunOf(book, k, j - 1, n) <= book[k..k + j - 1]
  {
  }

  lemma NothingScanned(
    page: seq<Candle>, cursor: Instant, end: Instant, seen: set<Instant>, book: seq<Candle>, k: nat, n: nat)
    requires k <= n <= |book|
    ensures ScanPage(page, 0, cursor, end, seen) == Ok(RunOf(book, k, 0, n))
  {
    assert book[k..k] == [];
  }

  /** Scanning a run of the book keeps what lies inside the range. */
  lemma {:induction false} ScanKeepsRun(
    page: seq<Candle>, j: nat, range: ImportRange, book: seq<Candle>, n: nat, k: nat, seen: set<Instant>)
    requires BookFor(book, range, n) && k < n && page <= book[k..] && j <= |page|
    requires forall t | t in seen :: t < CursorAt(range, k)
    ensures ScanPage(page, j, CursorAt(range, k), range.end, seen) == Ok(RunOf(book, k, j, n))
  {
    hide Duration, OpensAt, CursorAt, Opens, ExpectedCandleCount, ScanPage, RunOf;
    if j == 0 {
      NothingScanned(page, CursorAt(range, k), range.end, seen, book, k, n);
    } else {
      ScanKeepsRun(page, j - 1, range, book, n, k, seen);
      var i := k + j - 1;
      assert page[j - 1] == book[i] by { assert page[j - 1] == book[k..][j - 1]; }
      OpensAreOrdered(book, range, n, k, i);
      RunGrows(book, k, j, n);
      var kept := RunOf(book, k, j - 1, n);
      assert forall m | 0 <= m < |kept| :: kept[m] == book[k..i][m] == book[k + m];
      ScanStep(page, j, CursorAt(range, k), range.end, seen, kept);
    }
  }

  lemma BookEnds(range: ImportRange, n: nat)
    requires ExpectedCandleCount(range) == Ok(n)
    ensures CursorAt(range, n) == range.end
  {
  }

  /** Book opens ascend, so a run never repeats one and the range end splits it cleanly. */
  lemma OpensAreOrdered(book: seq<Candle>, range: ImportRange, n: nat, k: nat, i: nat)
    requires BookFor(book, range, n) && k <= i < |book| && k < n
    ensures book[i].openTime == CursorAt(range, i) >= CursorAt(range, k)
    ensures i < n <==> book[i].openTime < range.end
    ensures forall m | k <= m < i :: book[m].openTime < book[i].openTime
  {
    var d := Duration(range.timeframe);
    BookEnds(range, n);
    assert OpensAt(book, range, i);
    if k < i { ProductsStepByDivisor(k, i, d); }
    if i < n { ProductsStepByDivisor(i, n, d); }
    if n < i { ProductsStepByDivisor(n, i, d); }
    forall m | k <= m < i
      ensures book[m].openTime < book[i].openTime
    {
      assert OpensAt(book, range, m);
      ProductsStepByDivisor(m, i, d);
    }
  }

  /** Where a page of this size, asked for at k, leaves the cursor. */
  function NextAt(k: nat, size: nat, n: nat): nat {
    if k + size <= n then k + size else n
  }

  /** One page of a faithful exchange moves the cursor along the book. */
  lemma FaithfulPage(range: ImportRange, book: seq<Candle>, n: nat, k: nat, page: seq<Candle>, seen: set<Instant>)
    requires BookFor(book, range, n) && k < n && page != [] && page <= book[k..]
    requires forall t | t in seen :: t < CursorAt(range, k)
    ensures k < NextAt(k, |page|, n) <= n && CursorAt(range, k) < range.end
    ensures var kept, m := book[k..NextAt(k, |page|, n)], NextAt(k, |page|, n);
      && ScanPage(page, |page|, CursorAt(range, k), range.end, seen) == Ok(kept)
      && kept != [] && kept[|kept| - 1].openTime + Duration(range.timeframe) == CursorAt(range, m) > CursorAt(range, k)
      && forall t | t in seen + Opens(kept) :: t < CursorAt(range, m)
  {
    hide ScanPage, ExpectedCandleCount, OpensAt, Duration, RunOf;
    var d, m := Duration(range.timeframe), NextAt(k, |page|, n);
    ScanKeepsRun(page, |page|, range, book, n, k, seen);
    assert RunOf(book, k, |page|, n) == book[k..m] by { RunIsSlice(book, k, |page|, n); }
    var kept := book[k..m];
    assert kept[|kept| - 1] == book[m - 1];
    OpensAreOrdered(book, range, n, k, m - 1);
    OpensAreOrdered(book, range, n, k, k);
    assert (m - 1) * d + d == m * d;
    ProductsStepByDivisor(k, m, d);
    forall t | t in Opens(kept)
      ensures t < CursorAt(range, m)
    {
      var j :| 0 <= j < |kept| && kept[j].openTime == t;
      OpensAreOrdered(book, range, n, k, k + j);
      ProductsStepByDivisor(k + j, m, d);
    }
  }

  lemma RunIsSlice(book: seq<Candle>, k: nat, j: nat, n: nat)
    requires k <= n <= |book|
    ensures RunOf(book, k, j, n) == book[k..NextAt(k, j, n)]
  {
  }

  /** However a faithful exchange cuts its pages, the rest of the range is delivered whole. */
  lemma {:induction false} FaithfulFetchFrom(
    client: Client, symbol: string, range: ImportRange, limit: int, book: seq<Candle>, n: nat, k: nat,
    calls: nat, seen: set<Instant>)
    requires BookFor(book, range, n) && k <= n && Faithful(client, symbol, range, limit, book, n)
    requires forall t | t in seen :: t < CursorAt(range, k)
    ensures FetchFrom(client, symbol, range, limit, CursorAt(range, k), calls, seen).Ok?
    ensures FetchFrom(client, symbol, range, limit, CursorAt(range, k), calls, seen).value.candles == book[k..n]
    decreases n - k
  {
    hide ScanPage, ExpectedCandleCount, Duration, OpensAt, CursorAt, NextAt, Opens;
    if k < n {
      var reply := client(calls, RequestAt(symbol, range, limit, CursorAt(range, k)));
      FaithfulPage(range, book, n, k, reply.candles, seen);
      var m := NextAt(k, |reply.candles|, n);
      var kept := book[k..m];
      FaithfulFetchFrom(client, symbol, range, limit, book, n, m, calls + 1, seen + Opens(kept));
      assert book[k..m] + book[m..n] == book[k..n];
    } else {
      BookEnds(range, n);
      assert book[k..n] == [];
    }
  }

  /** A faithful exchange always yields the full series, and the coverage check accepts it. */
  lemma FaithfulFetchIsComplete(
    client: Client, symbol: string, range: ImportRange, limit: int, book: seq<Candle>, n: nat)
    requires BookFor(book, range, n) && Faithful(client, symbol, range, limit, book, n)
    ensures var r := FetchFrom(client, symbol, range, limit, range.start, 0, {});
      r.Ok? && r.value.candles == book[..n] && Covers(r.value.candles, range)
  {
    assert CursorAt(range, 0) == range.start;
    FaithfulFetchFrom(client, symbol, range, limit, book, n, 0, 0, {});
    forall k: nat | k < n
      ensures OpensAt(book[..n], range, k)
    {
      assert OpensAt(book, range, k);
    }
  }

  /** An exchange that answers with up to `limit` candles from the requested start. */
  function LimitedServer(book: seq<Candle>, range: ImportRange): Client {
    (calls: nat, request: Request) =>
      var k := (request.startTime - range.start) / Duration(range.timeframe);
      if 0 <= k <= |book| && request.limit >= 0
      then Page(book[k..if k + request.limit <= |book| then k + request.limit else |book|], "")
      else ClientRaised
  }

  lemma LimitedServerIsFaithful(symbol: string, range: ImportRange, limit: int, book: seq<Candle>, n: nat)
    requires BookFor(book, range, n) && limit >= 1
    ensures Faithful(LimitedServer(book, range), symbol, range, limit, book, n)
  {
    var client := LimitedServer(book, range);
    forall calls: nat, k: nat {:trigger client(calls, RequestAt(symbol, range, limit, CursorAt(range, k)))} | k < n
      ensures var reply := client(calls, RequestAt(symbol, range, limit, CursorAt(range, k)));
        reply.Page? && reply.candles != [] && reply.candles <= book[k..]
    {
      MultipleDivides(k, Duration(range.timeframe));
      assert CursorAt(range, k) - range.start == k * Duration(range.timeframe);
    }
  }
}
