/** The digests that identify an input: of its series, its alignments and the whole bundle. */
module InputIdentity {
  import opened Results
  import opened Timeframes
  import opened Candles
  import opened Series
  import opened Alignment
  import opened CandleCsv
  import opened IndicatorViews
  import opened DecisionViews
  import opened ComposedViews
  import opened ViewCausality

  datatype AlignmentDocument = AlignmentDocument(
    contextHash: Digest,
    contextTimeframe: Timeframe,
    executionHash: Digest,
    executionTimeframe: Timeframe,
    mapping: seq<Option<int>>,
    symbol: string)

  datatype MultiDocument = MultiDocument(
    alignmentHashes: seq<Digest>,
    contextHashes: seq<Digest>,
    contextTimeframes: seq<Timeframe>,
    executionHash: Digest,
    executionTimeframe: Timeframe,
    mappings: seq<seq<Option<int>>>,
    symbol: string)

  datatype ContextEntry = ContextEntry(
    alignmentHash: Digest, candleCount: nat, candleHash: Digest, timeframe: Timeframe, warmupBars: nat)

  datatype BundleDocument = BundleDocument(
    contexts: seq<ContextEntry>,
    executionCount: nat,
    executionHash: Digest,
    executionTimeframe: Timeframe,
    executionWarmup: nat,
    multiHash: Digest,
    strategyHash: Digest,
    symbol: string)

  /** The canonical CSV text of a series, and the digest of that text and of each document. */
  datatype InputHasher = InputHasher(
    candleText: seq<Candle> -> string,
    text: string -> Digest,
    alignment: AlignmentDocument -> Digest,
    multi: MultiDocument -> Digest,
    bundle: BundleDocument -> Digest)

  function CandleHash(h: InputHasher, candles: seq<Candle>): Digest {
    h.text(h.candleText(candles))
  }

  function AlignmentHash(h: InputHasher, x: Input, c: ContextInput): Digest {
    h.alignment(AlignmentDocument(
                  CandleHash(h, c.candles), c.timeframe, CandleHash(h, x.execution), x.executionTimeframe,
                  c.mapping, x.symbol))
  }

  function MultiHash(h: InputHasher, x: Input): Digest {
    var n := |x.contexts|;
    h.multi(MultiDocument(
              seq(n, k requires 0 <= k < n => AlignmentHash(h, x, x.contexts[k])),
              seq(n, k requires 0 <= k < n => CandleHash(h, x.contexts[k].candles)),
              seq(n, k requires 0 <= k < n => x.contexts[k].timeframe),
              CandleHash(h, x.execution), x.executionTimeframe,
              seq(n, k requires 0 <= k < n => x.contexts[k].mapping),
              x.symbol))
  }

  function EntryOf(h: InputHasher, x: Input, c: ContextInput): ContextEntry {
    ContextEntry(AlignmentHash(h, x, c), |c.candles|, CandleHash(h, c.candles), c.timeframe, c.warmupBars)
  }

  function EntriesOf(h: InputHasher, x: Input): seq<ContextEntry> {
    seq(|x.contexts|, k requires 0 <= k < |x.contexts| => EntryOf(h, x, x.contexts[k]))
  }

  function BundleHash(h: InputHasher, x: Input): Digest {
    h.bundle(BundleDocument(
               EntriesOf(h, x), |x.execution|, CandleHash(h, x.execution), x.executionTimeframe, x.executionWarmup,
               MultiHash(h, x), x.strategyHash, x.symbol))
  }

  /** The input with the digests of its contents filled in. */
  function Identify(h: InputHasher, x: Input): Input {
    var contexts := seq(|x.contexts|, k requires 0 <= k < |x.contexts| =>
      x.contexts[k].(
        candleHash := CandleHash(h, x.contexts[k].candles), alignmentHash := AlignmentHash(h, x, x.contexts[k])));
    x.(contexts := contexts, executionHash := CandleHash(h, x.execution), bundleHash := BundleHash(h, x))
  }

  lemma IdentifyIsIdentified(h: InputHasher, x: Input)
    requires TrustedInput(x)
    ensures TrustedInput(Identify(h, x)) && Identified(h, Identify(h, x))
  {
    hide Canonical, Mapping;
    var y := Identify(h, x);
    forall k | 0 <= k < |y.contexts|
      ensures TrustedContext(y.execution, y.contexts[k])
    {
      assert TrustedContext(x.execution, x.contexts[k]);
    }
    SameContentsSameDigests(h, x, y);
  }

  /** The digests an input carries are those of its own contents. */
  predicate Identified(h: InputHasher, x: Input) {
    && x.bundleHash == BundleHash(h, x) && x.executionHash == CandleHash(h, x.execution)
    && forall k | 0 <= k < |x.contexts| ::
         && x.contexts[k].candleHash == CandleHash(h, x.contexts[k].candles)
         && x.contexts[k].alignmentHash == AlignmentHash(h, x, x.contexts[k])
  }

  // ---------- what the digests bind ----------

  /** Every price and volume of the series is a decimal. */
  ghost predicate DecimalSeries(candles: seq<Candle>) {
    exists cs: seq<DecimalCandle> :: NumericOf(cs) == candles
  }

  /** A gap-free aligned series of decimals, as the input factory accepts. */
  ghost predicate KnownSeries(candles: seq<Candle>, timeframe: Timeframe) {
    Canonical(candles, timeframe) && DecimalSeries(candles)
  }

  /** No two series of a timeframe share a text, and no two texts or bundle documents share a digest. */
  ghost predicate Binds(h: InputHasher) {
    && (forall a, b, timeframe {:trigger KnownSeries(a, timeframe), KnownSeries(b, timeframe)} |
          KnownSeries(a, timeframe) && KnownSeries(b, timeframe) && h.candleText(a) == h.candleText(b) :: a == b)
    && (forall a, b | h.text(a) == h.text(b) :: a == b)
    && forall a, b | h.bundle(a) == h.bundle(b) :: a == b
  }

  /** The canonical CSV is such a text, whatever sound time codec it uses. */
  lemma CsvTextBinds(
    text: seq<Candle> -> string, codec: TimeCodec, a: seq<Candle>, b: seq<Candle>, timeframe: Timeframe)
    requires SoundCodec(codec) && forall cs: seq<DecimalCandle> :: text(NumericOf(cs)) == CsvText(codec, cs)
    requires KnownSeries(a, timeframe) && KnownSeries(b, timeframe)
    ensures text(a) == text(b) <==> a == b
  {
    hide Canonical, CsvText, NumericOf, SoundCodec;
    var cs: seq<DecimalCandle> :| NumericOf(cs) == a;
    var ds: seq<DecimalCandle> :| NumericOf(ds) == b;
    assert text(NumericOf(cs)) == CsvText(codec, cs) && text(NumericOf(ds)) == CsvText(codec, ds);
    TextIdentifiesNumbers(codec, Lenient(_ => None, _ => None), cs, ds, timeframe);
  }

  ghost predicate DecimalInput(x: Input) {
    DecimalSeries(x.execution) && forall k | 0 <= k < |x.contexts| :: DecimalSeries(x.contexts[k].candles)
  }

  ghost function DecimalsOf(candles: seq<Candle>): (cs: seq<DecimalCandle>)
    requires DecimalSeries(candles)
    ensures NumericOf(cs) == candles
  {
    var cs: seq<DecimalCandle> :| NumericOf(cs) == candles;
    cs
  }

  ghost function SeriesText(codec: TimeCodec, candles: seq<Candle>): string {
    if DecimalSeries(candles) then CsvText(codec, DecimalsOf(candles)) else ""
  }

  /** Because series of the same numbers have the same text, the text is a function of the numbers. */
  lemma SeriesTextExists(codec: TimeCodec, cs: seq<DecimalCandle>)
    ensures SeriesText(codec, NumericOf(cs)) == CsvText(codec, cs)
  {
    hide CsvText, NumericOf;
    assert DecimalSeries(NumericOf(cs));
    SameNumbersSameText(codec, DecimalsOf(NumericOf(cs)), cs);
  }

  /** The digest of a series is that of its numbers, all of them. */
  lemma CandleHashBinds(h: InputHasher, timeframe: Timeframe, a: seq<Candle>, b: seq<Candle>)
    requires Binds(h) && KnownSeries(a, timeframe) && KnownSeries(b, timeframe)
    ensures CandleHash(h, a) == CandleHash(h, b) <==> a == b
  {
    hide KnownSeries;
  }

  /** The same strategy, configuration and series, future bars included. */
  predicate SameContents(x: Input, y: Input) {
    && x.strategyHash == y.strategyHash && x.symbol == y.symbol
    && x.executionTimeframe == y.executionTimeframe && x.executionWarmup == y.executionWarmup
    && x.execution == y.execution && |x.contexts| == |y.contexts|
    && forall k | 0 <= k < |x.contexts| ::
         && x.contexts[k].timeframe == y.contexts[k].timeframe && x.contexts[k].warmupBars == y.contexts[k].warmupBars
         && x.contexts[k].candles == y.contexts[k].candles
  }

  lemma SameContentsSameDigests(h: InputHasher, x: Input, y: Input)
    requires TrustedInput(x) && TrustedInput(y) && SameContents(x, y)
    ensures BundleHash(h, x) == BundleHash(h, y)
    ensures forall k | 0 <= k < |x.contexts| :: AlignmentHash(h, x, x.contexts[k]) == AlignmentHash(h, y, y.contexts[k])
  {
    hide Canonical, Mapping;
    forall k | 0 <= k < |x.contexts|
      ensures x.contexts[k].mapping == y.contexts[k].mapping
      ensures AlignmentHash(h, x, x.contexts[k]) == AlignmentHash(h, y, y.contexts[k])
      ensures EntryOf(h, x, x.contexts[k]) == EntryOf(h, y, y.contexts[k])
    {
      assert TrustedContext(x.execution, x.contexts[k]) && TrustedContext(y.execution, y.contexts[k]);
    }
    hide AlignmentHash, EntryOf;
    assert EntriesOf(h, x) == EntriesOf(h, y);
    SameMulti(h, x, y);
  }

  lemma SameMulti(h: InputHasher, x: Input, y: Input)
    requires SameContents(x, y)
    requires forall k | 0 <= k < |x.contexts| ::
               && x.contexts[k].mapping == y.contexts[k].mapping
               && AlignmentHash(h, x, x.contexts[k]) == AlignmentHash(h, y, y.contexts[k])
    ensures MultiHash(h, x) == MultiHash(h, y)
  {
    hide AlignmentHash, CandleHash;
    var n := |x.contexts|;
    assert seq(n, k requires 0 <= k < n => AlignmentHash(h, x, x.contexts[k]))
        == seq(n, k requires 0 <= k < n => AlignmentHash(h, y, y.contexts[k]));
    assert seq(n, k requires 0 <= k < n => CandleHash(h, x.contexts[k].candles))
        == seq(n, k requires 0 <= k < n => CandleHash(h, y.contexts[k].candles));
    assert seq(n, k requires 0 <= k < n => x.contexts[k].timeframe)
        == seq(n, k requires 0 <= k < n => y.contexts[k].timeframe);
    assert seq(n, k requires 0 <= k < n => x.contexts[k].mapping)
        == seq(n, k requires 0 <= k < n => y.contexts[k].mapping);
  }

  /** The bundle digest covers the whole input: it agrees exactly when all contents do. */
  lemma BundleHashBindsInput(h: InputHasher, x: Input, y: Input)
    requires Binds(h)
    requires TrustedInput(x) && DecimalInput(x) && Identified(h, x)
    requires TrustedInput(y) && DecimalInput(y) && Identified(h, y)
    ensures x.bundleHash == y.bundleHash <==> SameContents(x, y)
  {
    hide Canonical, CandleHash, AlignmentHash, MultiHash, DecimalSeries, Mapping;
    if SameContents(x, y) {
      SameContentsSameDigests(h, x, y);
    }
    if x.bundleHash == y.bundleHash {
      assert EntriesOf(h, x) == EntriesOf(h, y) && |EntriesOf(h, x)| == |EntriesOf(h, y)|;
      CandleHashBinds(h, x.executionTimeframe, x.execution, y.execution);
      forall k | 0 <= k < |x.contexts|
        ensures x.contexts[k].timeframe == y.contexts[k].timeframe
        ensures x.contexts[k].warmupBars == y.contexts[k].warmupBars
        ensures x.contexts[k].candles == y.contexts[k].candles
      {
        assert EntriesOf(h, x)[k] == EntriesOf(h, y)[k];
        assert TrustedContext(x.execution, x.contexts[k]) && TrustedContext(y.execution, y.contexts[k]);
        CandleHashBinds(h, x.contexts[k].timeframe, x.contexts[k].candles, y.contexts[k].candles);
      }
    }
  }

  /** The digests a provider is handed agree; they cover future bars. */
  predicate SameIdentity(x: Input, y: Input) {
    && x.strategyHash == y.strategyHash && x.bundleHash == y.bundleHash && |x.contexts| == |y.contexts|
    && forall k | 0 <= k < |x.contexts| ::
         && x.contexts[k].candleHash == y.contexts[k].candleHash
         && x.contexts[k].alignmentHash == y.contexts[k].alignmentHash
  }

  /** With the bundle digest agree the digests of every context. */
  lemma IdentityIsContents(h: InputHasher, x: Input, y: Input)
    requires Binds(h)
    requires TrustedInput(x) && DecimalInput(x) && Identified(h, x)
    requires TrustedInput(y) && DecimalInput(y) && Identified(h, y)
    ensures SameIdentity(x, y) <==> SameContents(x, y)
  {
    hide Canonical, CandleHash, AlignmentHash, BundleHash, DecimalInput, Binds, TrustedInput;
    BundleHashBindsInput(h, x, y);
    if SameContents(x, y) {
      SameContentsSameDigests(h, x, y);
    }
  }

  /**
   * The candle view's own hash names the input bundle, and so covers future bars:
   * with the same configuration and visible past, two such hashes agree exactly
   * when the whole execution series and all whole context series agree.
   */
  lemma BaseHashBindsWholeInput(
    base: BaseDocument -> Digest, h: InputHasher, a: Composition, b: Composition, i: nat)
    requires Binds(h) && forall p, q | base(p) == base(q) :: p == q
    requires TrustedInput(a.input) && DecimalInput(a.input) && Identified(h, a.input)
    requires TrustedInput(b.input) && DecimalInput(b.input) && Identified(h, b.input)
    requires SameConfiguration(a, b) && SamePastAt(a.input, b.input, i)
    ensures BaseViewAt(base, a.input, i).viewHash == BaseViewAt(base, b.input, i).viewHash
      <==> a.input.execution == b.input.execution
           && forall k | 0 <= k < |a.input.contexts| :: a.input.contexts[k].candles == b.input.contexts[k].candles
  {
    hide Identified, DecimalInput, Binds, TrustedInput;
    BundleHashBindsInput(h, a.input, b.input);
    SameBaseDocument(base, a, b, i);
  }

  lemma SameBaseDocument(base: BaseDocument -> Digest, a: Composition, b: Composition, i: nat)
    requires SameConfiguration(a, b) && SamePastAt(a.input, b.input, i)
    ensures a.input.bundleHash == b.input.bundleHash ==>
      BaseViewAt(base, a.input, i).viewHash == BaseViewAt(base, b.input, i).viewHash
    ensures (forall p, q | base(p) == base(q) :: p == q) && a.input.bundleHash != b.input.bundleHash ==>
      BaseViewAt(base, a.input, i).viewHash != BaseViewAt(base, b.input, i).viewHash
  {
    var v, w := BaseViewAt(base, a.input, i), BaseViewAt(base, b.input, i);
    forall k: nat | k < |v.contexts|
      ensures DocumentOfContext(v.contexts[k]) == DocumentOfContext(w.contexts[k])
      ensures v.contexts[k].ready == w.contexts[k].ready
    {
      assert v.contexts[k] == ContextViewAt(a.input, k, i) && w.contexts[k] == ContextViewAt(b.input, k, i);
    }
    assert ContextDocuments(v.contexts) == ContextDocuments(w.contexts);
  }
}
