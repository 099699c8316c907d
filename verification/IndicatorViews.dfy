/** Bounded indicator views over prefix hash chains. */
module IndicatorViews {
  import opened Results
  import opened Timeframes
  import opened Candles
  import opened Averages
  import opened Indicators
  import opened Histories
  import opened Decimals

  type Digest = string

  datatype SeriesKey = SeriesKey(code: IndicatorCode, period: Option<int>)

  /** What a prefix hash starts from. */
  datatype Header = Header(symbol: string, timeframe: Timeframe, key: SeriesKey)

  datatype ItemDocument = ItemDocument(key: SeriesKey, keyHash: Digest, ready: bool, visiblePrefixHash: Digest)

  datatype ViewDocument = ViewDocument(
    symbol: string,
    timeframe: Timeframe,
    barIndex: nat,
    visibleCount: nat,
    items: seq<ItemDocument>,
    overallReady: bool)

  /** The digest function, applied to each kind of canonical document, and the decimal printer it relies on. */
  datatype Hasher = Hasher(
    decimalText: real -> string,
    header: Header -> Digest,
    link: (Digest, string) -> Digest,
    key: SeriesKey -> Digest,
    view: ViewDocument -> Digest)

  datatype ViewError = BarOutOfRange | SeriesNotPresent | PeriodNotTaken | PeriodInvalid

  // ---------- prefix hash chain ----------

  /** The text of one value in the chain. */
  function Token(h: Hasher, value: Option<real>): string {
    if value.None? then "null" else h.decimalText(value.value)
  }

  function PrefixHash(h: Hasher, header: Header, values: seq<Option<real>>): Digest {
    if values == [] then h.header(header)
    else h.link(PrefixHash(h, header, values[..|values| - 1]), Token(h, values[|values| - 1]))
  }

  /** Entry k covers the first k values and nothing after them. */
  function PrefixChain(h: Hasher, header: Header, values: seq<Option<real>>): (chain: seq<Digest>)
    ensures |chain| == |values| + 1
  {
    seq(|values| + 1, k requires 0 <= k <= |values| => PrefixHash(h, header, values[..k]))
  }

  method ComputePrefixHashChain(h: Hasher, header: Header, values: seq<Option<real>>) returns (out: seq<Digest>)
    ensures out == PrefixChain(h, header, values)
  {
    var current := h.header(header);
    out := [current];
    for i := 0 to |values|
      invariant |out| == i + 1 && current == PrefixHash(h, header, values[..i])
      invariant forall k | 0 <= k <= i :: out[k] == PrefixHash(h, header, values[..k])
    {
      assert values[..i + 1][..i] == values[..i];
      current := h.link(current, Token(h, values[i]));
      out := out + [current];
    }
  }

  /** No two hashed inputs share a digest. */
  ghost predicate CollisionFree(h: Hasher) {
    && (forall a, b | h.header(a) == h.header(b) :: a == b)
    && (forall d, t, e, u | h.link(d, t) == h.link(e, u) :: d == e && t == u)
    && forall a, d, t :: h.header(a) != h.link(d, t)
  }

  function Tokens(h: Hasher, values: seq<Option<real>>): seq<string> {
    seq(|values|, k requires 0 <= k < |values| => Token(h, values[k]))
  }

  /** Without collisions a prefix hash binds its header and the text of every visible value. */
  lemma {:induction false} PrefixHashBindsTokens(
    h: Hasher, a: Header, b: Header, xs: seq<Option<real>>, ys: seq<Option<real>>)
    requires CollisionFree(h) && PrefixHash(h, a, xs) == PrefixHash(h, b, ys)
    ensures a == b && Tokens(h, xs) == Tokens(h, ys)
  {
    hide Token;
    if xs != [] && ys != [] {
      var init, head := xs[..|xs| - 1], ys[..|ys| - 1];
      PrefixHashBindsTokens(h, a, b, init, head);
      assert Tokens(h, xs) == Tokens(h, init) + [Token(h, xs[|xs| - 1])];
      assert Tokens(h, ys) == Tokens(h, head) + [Token(h, ys[|ys| - 1])];
    }
  }

  ghost predicate DecimalValued(values: seq<Option<real>>) {
    forall k | 0 <= k < |values| && values[k].Some? :: IsDecimal(values[k].value)
  }

  /** And so, the values being decimals, it binds how many are visible and what each of them is. */
  lemma PrefixHashBinds(h: Hasher, a: Header, b: Header, xs: seq<Option<real>>, ys: seq<Option<real>>)
    requires CollisionFree(h) && PrintsDecimals(h.decimalText) && DecimalValued(xs) && DecimalValued(ys)
    ensures PrefixHash(h, a, xs) == PrefixHash(h, b, ys) <==> a == b && xs == ys
  {
    hide PrintsDecimals, IsDecimal;
    if PrefixHash(h, a, xs) == PrefixHash(h, b, ys) {
      PrefixHashBindsTokens(h, a, b, xs, ys);
      assert |Tokens(h, xs)| == |Tokens(h, ys)|;
      forall k | 0 <= k < |xs|
        ensures xs[k] == ys[k]
      {
        assert Token(h, xs[k]) == Tokens(h, xs)[k] == Tokens(h, ys)[k] == Token(h, ys[k]);
        if xs[k].Some? { PrintedApart(h.decimalText, xs[k].value, if ys[k].Some? then ys[k].value else xs[k].value); }
        if ys[k].Some? { PrintedApart(h.decimalText, ys[k].value, ys[k].value); }
      }
    }
  }

  /** Running totals of defined values. */
  method DefinedPrefixCounts(values: seq<Option<real>>) returns (counts: seq<nat>)
    ensures |counts| == |values| + 1
    ensures forall k | 0 <= k <= |values| :: counts[k] == DefinedCount(values[..k])
  {
    counts := [0];
    var running := 0;
    for i := 0 to |values|
      invariant |counts| == i + 1 && running == DefinedCount(values[..i])
      invariant forall k | 0 <= k <= i :: counts[k] == DefinedCount(values[..k])
    {
      assert values[..i + 1][..i] == values[..i];
      if values[i].Some? {
        running := running + 1;
      }
      counts := counts + [running];
    }
  }

  // ---------- sources and histories ----------

  datatype Source = Source(
    key: SeriesKey,
    values: seq<Option<real>>,
    prefixHashes: seq<Digest>,
    definedCounts: seq<nat>)

  /** A source whose chains were computed from its own values. */
  ghost predicate Bound(h: Hasher, symbol: string, timeframe: Timeframe, s: Source) {
    && s.prefixHashes == PrefixChain(h, Header(symbol, timeframe, s.key), s.values)
    && |s.definedCounts| == |s.values| + 1
    && forall k | 0 <= k <= |s.values| :: s.definedCounts[k] == DefinedCount(s.values[..k])
  }

  datatype Item = Item(
    key: SeriesKey,
    history: History<Option<real>>,
    definedVisibleCount: nat,
    latest: Option<real>,
    ready: bool,
    visiblePrefixHash: Digest)

  /** What a provider can learn from an item through its public reads. */
  datatype ItemShown = ItemShown(
    key: SeriesKey,
    visible: seq<Option<real>>,
    definedVisibleCount: nat,
    latest: Option<real>,
    ready: bool,
    visiblePrefixHash: Digest)

  function ShowItem(i: Item): ItemShown
    requires i.history.Valid()
  {
    ItemShown(i.key, i.history.Visible(), i.definedVisibleCount, i.latest, i.ready, i.visiblePrefixHash)
  }

  function MakeItem(s: Source, end: nat): Item
    requires end <= |s.values| && |s.prefixHashes| == |s.definedCounts| == |s.values| + 1
  {
    var history := History(s.values, end);
    var latest := match history.Latest() case Some(v) => v case None => None;
    Item(s.key, history, s.definedCounts[end], latest, latest.Some?, s.prefixHashes[end])
  }

  datatype View = View(
    symbol: string,
    timeframe: Timeframe,
    barIndex: nat,
    visibleCount: nat,
    items: seq<Item>,
    overallReady: bool,
    viewHash: Digest)

  datatype ViewShown = ViewShown(
    symbol: string,
    timeframe: Timeframe,
    barIndex: nat,
    visibleCount: nat,
    items: seq<ItemShown>,
    overallReady: bool,
    viewHash: Digest)

  predicate ValidView(v: View) {
    forall k | 0 <= k < |v.items| :: v.items[k].history.Valid()
  }

  function Show(v: View): ViewShown
    requires ValidView(v)
  {
    ViewShown(
      v.symbol, v.timeframe, v.barIndex, v.visibleCount,
      seq(|v.items|, k requires 0 <= k < |v.items| => ShowItem(v.items[k])),
      v.overallReady, v.viewHash)
  }

  function ItemDocumentOf(h: Hasher, i: Item): ItemDocument {
    ItemDocument(i.key, h.key(i.key), i.ready, i.visiblePrefixHash)
  }

  function ItemDocuments(h: Hasher, items: seq<Item>): seq<ItemDocument> {
    seq(|items|, k requires 0 <= k < |items| => ItemDocumentOf(h, items[k]))
  }

  predicate AllReady(items: seq<Item>) {
    forall k | 0 <= k < |items| :: items[k].ready
  }

  function MakeView(h: Hasher, symbol: string, timeframe: Timeframe, barIndex: nat, sources: seq<Source>): View
    requires forall k | 0 <= k < |sources| ::
               && barIndex < |sources[k].values|
               && |sources[k].prefixHashes| == |sources[k].definedCounts| == |sources[k].values| + 1
  {
    var items := seq(|sources|, k requires 0 <= k < |sources| => MakeItem(sources[k], barIndex + 1));
    var ready := AllReady(items);
    View(
      symbol, timeframe, barIndex, barIndex + 1, items, ready,
      h.view(ViewDocument(symbol, timeframe, barIndex, barIndex + 1, ItemDocuments(h, items), ready)))
  }

  /** The item with the wanted key hash. */
  function Require(h: Hasher, v: View, code: IndicatorCode, period: Option<int>): Result<Item, ViewError> {
    if code.TrueRange? && period.Some? then Err(PeriodNotTaken)
    else if !ValidParameters(code, period) then Err(PeriodInvalid)
    else FindItem(h, v.items, h.key(SeriesKey(code, period)))
  }

  function FindItem(h: Hasher, items: seq<Item>, wanted: Digest): Result<Item, ViewError> {
    if items == [] then Err(SeriesNotPresent)
    else if h.key(items[0].key) == wanted then Ok(items[0])
    else FindItem(h, items[1..], wanted)
  }

  /** With distinct key hashes, a lookup finds the series exactly when the view has it. */
  lemma {:induction false} FindItemIsExact(h: Hasher, items: seq<Item>, key: SeriesKey)
    requires forall a, b | h.key(a) == h.key(b) :: a == b
    ensures match FindItem(h, items, h.key(key))
      case Ok(item) => item in items && item.key == key
      case Err(_) => forall i | i in items :: i.key != key
  {
    if items != [] {
      FindItemIsExact(h, items[1..], key);
      assert items == [items[0]] + items[1..];
    }
  }

  // ---------- bundles and feeds ----------

  datatype Bundle = Bundle(symbol: string, timeframe: Timeframe, candles: seq<Candle>, series: seq<IndicatorSeries>)

  /** Every series is the calculator's own output on the bundle's candles. */
  ghost predicate Trusted(m: Arithmetic, b: Bundle) {
    && b.candles != []
    && forall k | 0 <= k < |b.series| ::
         && ValidParameters(b.series[k].code, b.series[k].period)
         && b.series[k] == SeriesOf(m, b.series[k].code, b.series[k].period, b.candles)
  }

  datatype Feed = Feed(symbol: string, timeframe: Timeframe, candleCount: nat, sources: seq<Source>)

  /** The feed of a bundle: one source per series, with its chains. */
  ghost predicate FeedOf(h: Hasher, b: Bundle, f: Feed) {
    && f.symbol == b.symbol && f.timeframe == b.timeframe && f.candleCount == |b.candles|
    && |f.sources| == |b.series|
    && forall k | 0 <= k < |f.sources| ::
         && f.sources[k].key == SeriesKey(b.series[k].code, b.series[k].period)
         && f.sources[k].values == b.series[k].values
         && Bound(h, b.symbol, b.timeframe, f.sources[k])
  }

  method FromBundle(h: Hasher, b: Bundle) returns (f: Feed)
    ensures FeedOf(h, b, f)
  {
    var sources: seq<Source> := [];
    for k := 0 to |b.series|
      invariant |sources| == k
      invariant forall j | 0 <= j < k ::
          && sources[j].key == SeriesKey(b.series[j].code, b.series[j].period)
          && sources[j].values == b.series[j].values
          && Bound(h, b.symbol, b.timeframe, sources[j])
    {
      var series := b.series[k];
      var key := SeriesKey(series.code, series.period);
      var hashes := ComputePrefixHashChain(h, Header(b.symbol, b.timeframe, key), series.values);
      var counts := DefinedPrefixCounts(series.values);
      sources := sources + [Source(key, series.values, hashes, counts)];
    }
    f := Feed(b.symbol, b.timeframe, |b.candles|, sources);
  }

  /** A feed over a trusted bundle has a value and both chain entries at every bar. */
  predicate Complete(f: Feed) {
    forall k | 0 <= k < |f.sources| ::
      && |f.sources[k].values| == f.candleCount
      && |f.sources[k].prefixHashes| == |f.sources[k].definedCounts| == |f.sources[k].values| + 1
  }

  lemma TrustedFeedIsComplete(m: Arithmetic, h: Hasher, b: Bundle, f: Feed)
    requires Trusted(m, b) && FeedOf(h, b, f)
    ensures Complete(f)
  {
  }

  function ViewAt(h: Hasher, f: Feed, barIndex: int): Result<View, ViewError>
    requires Complete(f)
  {
    if barIndex < 0 || barIndex >= f.candleCount then Err(BarOutOfRange)
    else Ok(MakeView(h, f.symbol, f.timeframe, barIndex, f.sources))
  }

  // ---------- what a view may depend on ----------

  /** Two bundles that request the same series of the same market. */
  predicate SameRequest(a: Bundle, b: Bundle) {
    && a.symbol == b.symbol && a.timeframe == b.timeframe && |a.series| == |b.series|
    && forall k | 0 <= k < |a.series| ::
         a.series[k].code == b.series[k].code && a.series[k].period == b.series[k].period
  }

  /** The same candles up to a bar give the same view at that bar: values, readiness and every hash. */
  lemma ViewDependsOnPast(m: Arithmetic, h: Hasher, a: Bundle, fa: Feed, b: Bundle, fb: Feed, i: nat)
    requires Trusted(m, a) && FeedOf(h, a, fa) && Trusted(m, b) && FeedOf(h, b, fb) && SameRequest(a, b)
    requires i < |a.candles| && i < |b.candles| && a.candles[..i + 1] == b.candles[..i + 1]
    ensures Complete(fa) && Complete(fb) && ViewAt(h, fa, i).Ok? && ViewAt(h, fb, i).Ok?
    ensures ValidView(ViewAt(h, fa, i).value) && ValidView(ViewAt(h, fb, i).value)
    ensures Show(ViewAt(h, fa, i).value) == Show(ViewAt(h, fb, i).value)
  {
    TrustedFeedIsComplete(m, h, a, fa);
    TrustedFeedIsComplete(m, h, b, fb);
    forall k | 0 <= k < |fa.sources|
      ensures ShowItem(MakeItem(fa.sources[k], i + 1)) == ShowItem(MakeItem(fb.sources[k], i + 1))
    {
      SameSlots(m, a.series[k].code, a.series[k].period, a.candles, b.candles, i);
      SameItem(h, a.symbol, a.timeframe, fa.sources[k], fb.sources[k], i + 1);
    }
    SameViews(h, fa, fb, i);
  }

  lemma SameViews(h: Hasher, f: Feed, g: Feed, i: nat)
    requires Complete(f) && Complete(g) && f.symbol == g.symbol && f.timeframe == g.timeframe
    requires i < f.candleCount && i < g.candleCount && |f.sources| == |g.sources|
    requires forall k | 0 <= k < |f.sources| ::
               ShowItem(MakeItem(f.sources[k], i + 1)) == ShowItem(MakeItem(g.sources[k], i + 1))
    ensures ValidView(ViewAt(h, f, i).value) && ValidView(ViewAt(h, g, i).value)
    ensures Show(ViewAt(h, f, i).value) == Show(ViewAt(h, g, i).value)
  {
    var v, w := ViewAt(h, f, i).value, ViewAt(h, g, i).value;
    forall k | 0 <= k < |v.items|
      ensures v.items[k].history.Valid() && w.items[k].history.Valid()
      ensures ShowItem(v.items[k]) == ShowItem(w.items[k])
    {
      assert v.items[k] == MakeItem(f.sources[k], i + 1) && w.items[k] == MakeItem(g.sources[k], i + 1);
    }
    hide MakeItem;
    SameItems(h, v.items, w.items);
  }

  lemma SameItems(h: Hasher, a: seq<Item>, b: seq<Item>)
    requires |a| == |b| && forall k | 0 <= k < |a| ::
               a[k].history.Valid() && b[k].history.Valid() && ShowItem(a[k]) == ShowItem(b[k])
    ensures AllReady(a) == AllReady(b) && ItemDocuments(h, a) == ItemDocuments(h, b)
  {
  }

  lemma SameSlots(m: Arithmetic, code: IndicatorCode, period: Option<int>, a: seq<Candle>, b: seq<Candle>, i: nat)
    requires ValidParameters(code, period) && i < |a| && i < |b| && a[..i + 1] == b[..i + 1]
    ensures Calculate(m, code, period, a)[..i + 1] == Calculate(m, code, period, b)[..i + 1]
  {
    CalculatorsAreCausal(m, code, period, a, i + 1);
    CalculatorsAreCausal(m, code, period, b, i + 1);
  }

  lemma SameItem(h: Hasher, symbol: string, timeframe: Timeframe, s: Source, t: Source, end: nat)
    requires Bound(h, symbol, timeframe, s) && Bound(h, symbol, timeframe, t) && s.key == t.key
    requires end <= |s.values| && end <= |t.values| && s.values[..end] == t.values[..end]
    ensures ShowItem(MakeItem(s, end)) == ShowItem(MakeItem(t, end))
  {
  }

  // ---------- readiness ----------

  /** A view is ready exactly when every series has passed its warm-up. */
  lemma ReadyMeansWarmedUp(m: Arithmetic, h: Hasher, b: Bundle, f: Feed, i: nat)
    requires Trusted(m, b) && FeedOf(h, b, f) && i < |b.candles|
    ensures Complete(f) && ViewAt(h, f, i).Ok?
    ensures ViewAt(h, f, i).value.overallReady
      <==> forall k | 0 <= k < |b.series| :: UndefinedPrefix(b.series[k].code, b.series[k].period) <= i
  {
    TrustedFeedIsComplete(m, h, b, f);
    var v := ViewAt(h, f, i).value;
    forall k | 0 <= k < |b.series|
      ensures v.items[k].ready <==> UndefinedPrefix(b.series[k].code, b.series[k].period) <= i
    {
      CalculatorsHaveShape(m, b.series[k].code, b.series[k].period, b.candles);
      assert v.items[k] == MakeItem(f.sources[k], i + 1);
    }
  }
}
