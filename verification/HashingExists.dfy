/** Witnesses: the assumptions made about digests, printers and codecs can all be met at once. */
module HashingExists {
  import opened Results
  import opened Texts
  import opened Decimals
  import opened Timeframes
  import opened CandleCsv
  import opened Indicators
  import opened IndicatorViews
  import opened DecisionViews
  import opened ComposedViews
  import opened VisibleHashes
  import opened InputIdentity

  // ---------- packing texts so that they can be taken apart ----------

  function Part(s: string): string {
    Zeros(|s|) + ("1" + s)
  }

  function Pack(parts: seq<string>): string {
    if parts == [] then "" else Part(parts[0]) + Pack(parts[1..])
  }

  /** The zeros say where a part ends. */
  lemma PartEnds(s: string, t: string, rest: string, more: string)
    requires Part(s) + rest == Part(t) + more
    ensures s == t && rest == more
  {
    var x, y := Part(s) + rest, Part(t) + more;
    assert x[|s|] == '1' && y[|t|] == '1';
    assert forall i | 0 <= i < |s| :: x[i] == '0';
    assert forall i | 0 <= i < |t| :: y[i] == '0';
    assert |s| == |t|;
    assert x[|s| + 1..2 * |s| + 1] == s && y[|t| + 1..2 * |t| + 1] == t;
    assert x[2 * |s| + 1..] == rest && y[2 * |t| + 1..] == more;
  }

  lemma {:induction false} PackBinds(a: seq<string>, b: seq<string>)
    requires Pack(a) == Pack(b)
    ensures a == b
  {
    hide Part;
    if a != [] && b != [] {
      PartEnds(a[0], b[0], Pack(a[1..]), Pack(b[1..]));
      PackBinds(a[1..], b[1..]);
    } else {
      PartIsLong(if a != [] then a[0] else if b != [] then b[0] else "");
    }
  }

  lemma PartIsLong(s: string)
    ensures |Part(s)| > 0
  {
  }

  /** A head of known length, then any number of entries. */
  lemma HeadedPackBinds(x: seq<string>, xs: seq<string>, y: seq<string>, ys: seq<string>)
    requires |x| == |y| && Pack(x + xs) == Pack(y + ys)
    ensures x == y && xs == ys
  {
    hide Pack;
    PackBinds(x + xs, y + ys);
    assert x == (x + xs)[..|x|] == (y + ys)[..|x|] == y;
    assert xs == (x + xs)[|x|..] == (y + ys)[|x|..] == ys;
  }

  // ---------- texts of the fields ----------

  function IntText(n: int): string {
    if n < 0 then "-" + Digits(-n) else Digits(n)
  }

  function IntOf(s: string): int {
    if s != "" && s[0] == '-' && AllDigits(s[1..]) then
      var n: int := NatOf(s[1..]);
      -n
    else if AllDigits(s) then NatOf(s)
    else 0
  }

  lemma IntIsReadBack(n: int)
    ensures IntOf(IntText(n)) == n
  {
    if n < 0 {
      NatOfDigits(-n);
      assert IntText(n)[1..] == Digits(-n);
    } else {
      NatOfDigits(n);
    }
  }

  lemma IntTextBinds(a: int, b: int)
    ensures IntText(a) == IntText(b) <==> a == b
  {
    IntIsReadBack(a);
    IntIsReadBack(b);
  }

  function OptionText(n: Option<int>): string {
    if n.None? then "" else IntText(n.value)
  }

  lemma OptionTextBinds(a: Option<int>, b: Option<int>)
    ensures OptionText(a) == OptionText(b) <==> a == b
  {
    if a.Some? && b.Some? { IntTextBinds(a.value, b.value); }
  }

  function FrameNumber(timeframe: Timeframe): nat {
    match timeframe
    case M1 => 0
    case M3 => 1
    case M5 => 2
    case M15 => 3
    case M30 => 4
    case H1 => 5
    case H4 => 6
    case D1 => 7
    case W1 => 8
  }

  function CodeNumber(code: IndicatorCode): nat {
    match code
    case EmaOfClose => 0
    case TrueRange => 1
    case WilderAtr => 2
    case RollingHighest => 3
    case RollingLowest => 4
    case PriorRollingHighest => 5
    case PriorRollingLowest => 6
  }

  function FlagNumber(flag: bool): nat { if flag then 1 else 0 }

  // ---------- texts of the documents ----------

  function HeaderText(a: Header): string {
    "H" + Pack([a.symbol, IntText(FrameNumber(a.timeframe)), IntText(CodeNumber(a.key.code)), OptionText(a.key.period)])
  }

  function LinkText(d: Digest, token: string): string {
    "L" + Pack([d, token])
  }

  lemma HeaderTextBinds(a: Header, b: Header)
    requires HeaderText(a) == HeaderText(b)
    ensures a == b
  {
    hide Pack, IntText, OptionText;
    var x := [a.symbol, IntText(FrameNumber(a.timeframe)), IntText(CodeNumber(a.key.code)), OptionText(a.key.period)];
    var y := [b.symbol, IntText(FrameNumber(b.timeframe)), IntText(CodeNumber(b.key.code)), OptionText(b.key.period)];
    assert HeaderText(a)[1..] == Pack(x) && HeaderText(b)[1..] == Pack(y);
    PackBinds(x, y);
    assert x[0] == y[0] && x[1] == y[1] && x[2] == y[2] && x[3] == y[3];
    IntTextBinds(FrameNumber(a.timeframe), FrameNumber(b.timeframe));
    IntTextBinds(CodeNumber(a.key.code), CodeNumber(b.key.code));
    OptionTextBinds(a.key.period, b.key.period);
  }

  lemma LinkTextBinds(d: Digest, t: string, e: Digest, u: string)
    requires LinkText(d, t) == LinkText(e, u)
    ensures d == e && t == u
  {
    hide Pack;
    assert LinkText(d, t)[1..] == Pack([d, t]) && LinkText(e, u)[1..] == Pack([e, u]);
    PackBinds([d, t], [e, u]);
    assert [d, t][0] == [e, u][0] && [d, t][1] == [e, u][1];
  }

  function EntryFields(e: ContextEntry): seq<string> {
    [e.alignmentHash, IntText(e.candleCount), e.candleHash, IntText(FrameNumber(e.timeframe)), IntText(e.warmupBars)]
  }

  function EntryText(e: ContextEntry): string {
    Pack(EntryFields(e))
  }

  lemma EntryTextBinds(a: ContextEntry, b: ContextEntry)
    requires EntryText(a) == EntryText(b)
    ensures a == b
  {
    hide Pack, IntText;
    var x, y := EntryFields(a), EntryFields(b);
    PackBinds(x, y);
    assert x[0] == y[0] && x[1] == y[1] && x[2] == y[2] && x[3] == y[3] && x[4] == y[4];
    IntTextBinds(a.candleCount, b.candleCount);
    IntTextBinds(FrameNumber(a.timeframe), FrameNumber(b.timeframe));
    IntTextBinds(a.warmupBars, b.warmupBars);
  }

  function EntryTexts(entries: seq<ContextEntry>): seq<string> {
    seq(|entries|, k requires 0 <= k < |entries| => EntryText(entries[k]))
  }

  function BundleHead(d: BundleDocument): seq<string> {
    [IntText(d.executionCount), d.executionHash, IntText(FrameNumber(d.executionTimeframe)), IntText(d.executionWarmup),
     d.multiHash, d.strategyHash, d.symbol]
  }

  function BundleText(d: BundleDocument): string {
    Pack(BundleHead(d) + EntryTexts(d.contexts))
  }

  lemma BundleTextBinds(a: BundleDocument, b: BundleDocument)
    requires BundleText(a) == BundleText(b)
    ensures a == b
  {
    hide Pack, IntText, EntryText;
    var x, y := BundleHead(a), BundleHead(b);
    HeadedPackBinds(x, EntryTexts(a.contexts), y, EntryTexts(b.contexts));
    assert x[0] == y[0] && x[1] == y[1] && x[2] == y[2] && x[3] == y[3] && x[4] == y[4] && x[5] == y[5] && x[6] == y[6];
    IntTextBinds(a.executionCount, b.executionCount);
    IntTextBinds(FrameNumber(a.executionTimeframe), FrameNumber(b.executionTimeframe));
    IntTextBinds(a.executionWarmup, b.executionWarmup);
    assert |EntryTexts(a.contexts)| == |EntryTexts(b.contexts)|;
    forall k | 0 <= k < |a.contexts|
      ensures a.contexts[k] == b.contexts[k]
    {
      assert EntryTexts(a.contexts)[k] == EntryTexts(b.contexts)[k];
      EntryTextBinds(a.contexts[k], b.contexts[k]);
    }
  }

  function ContextFields(c: ContextDocument): seq<string> {
    [IntText(FrameNumber(c.timeframe)), OptionText(c.latest), IntText(FlagNumber(c.ready)), IntText(c.visibleCount)]
  }

  function ContextText(c: ContextDocument): string {
    Pack(ContextFields(c))
  }

  lemma ContextTextBinds(a: ContextDocument, b: ContextDocument)
    requires ContextText(a) == ContextText(b)
    ensures a == b
  {
    hide Pack, IntText, OptionText;
    var x, y := ContextFields(a), ContextFields(b);
    PackBinds(x, y);
    assert x[0] == y[0] && x[1] == y[1] && x[2] == y[2] && x[3] == y[3];
    IntTextBinds(FrameNumber(a.timeframe), FrameNumber(b.timeframe));
    OptionTextBinds(a.latest, b.latest);
    IntTextBinds(FlagNumber(a.ready), FlagNumber(b.ready));
    IntTextBinds(a.visibleCount, b.visibleCount);
  }

  function ContextTexts(contexts: seq<ContextDocument>): seq<string> {
    seq(|contexts|, k requires 0 <= k < |contexts| => ContextText(contexts[k]))
  }

  function BaseHead(d: BaseDocument): seq<string> {
    [d.bundleHash, IntText(d.barIndex), IntText(FlagNumber(d.executionReady)), IntText(d.executionVisibleCount),
     IntText(FlagNumber(d.overallReady))]
  }

  function BaseText(d: BaseDocument): string {
    Pack(BaseHead(d) + ContextTexts(d.contexts))
  }

  lemma BaseTextBinds(a: BaseDocument, b: BaseDocument)
    requires BaseText(a) == BaseText(b)
    ensures a == b
  {
    hide Pack, IntText, ContextText;
    var x, y := BaseHead(a), BaseHead(b);
    HeadedPackBinds(x, ContextTexts(a.contexts), y, ContextTexts(b.contexts));
    assert x[0] == y[0] && x[1] == y[1] && x[2] == y[2] && x[3] == y[3] && x[4] == y[4];
    IntTextBinds(a.barIndex, b.barIndex);
    IntTextBinds(FlagNumber(a.executionReady), FlagNumber(b.executionReady));
    IntTextBinds(a.executionVisibleCount, b.executionVisibleCount);
    IntTextBinds(FlagNumber(a.overallReady), FlagNumber(b.overallReady));
    assert |ContextTexts(a.contexts)| == |ContextTexts(b.contexts)|;
    forall k | 0 <= k < |a.contexts|
      ensures a.contexts[k] == b.contexts[k]
    {
      assert ContextTexts(a.contexts)[k] == ContextTexts(b.contexts)[k];
      ContextTextBinds(a.contexts[k], b.contexts[k]);
    }
  }

  function ItemFields(i: ItemDocument): seq<string> {
    [IntText(CodeNumber(i.key.code)), OptionText(i.key.period), i.keyHash, IntText(FlagNumber(i.ready)),
     i.visiblePrefixHash]
  }

  function ItemText(i: ItemDocument): string {
    Pack(ItemFields(i))
  }

  lemma ItemTextBinds(a: ItemDocument, b: ItemDocument)
    requires ItemText(a) == ItemText(b)
    ensures a == b
  {
    hide Pack, IntText, OptionText;
    var x, y := ItemFields(a), ItemFields(b);
    PackBinds(x, y);
    assert x[0] == y[0] && x[1] == y[1] && x[2] == y[2] && x[3] == y[3] && x[4] == y[4];
    IntTextBinds(CodeNumber(a.key.code), CodeNumber(b.key.code));
    OptionTextBinds(a.key.period, b.key.period);
    IntTextBinds(FlagNumber(a.ready), FlagNumber(b.ready));
  }

  function ItemTexts(items: seq<ItemDocument>): seq<string> {
    seq(|items|, k requires 0 <= k < |items| => ItemText(items[k]))
  }

  function ViewHead(d: ViewDocument): seq<string> {
    [d.symbol, IntText(FrameNumber(d.timeframe)), IntText(d.barIndex), IntText(d.visibleCount),
     IntText(FlagNumber(d.overallReady))]
  }

  function ViewText(d: ViewDocument): string {
    Pack(ViewHead(d) + ItemTexts(d.items))
  }

  lemma ViewTextBinds(a: ViewDocument, b: ViewDocument)
    requires ViewText(a) == ViewText(b)
    ensures a == b
  {
    hide Pack, IntText, ItemText;
    var x, y := ViewHead(a), ViewHead(b);
    HeadedPackBinds(x, ItemTexts(a.items), y, ItemTexts(b.items));
    assert x[0] == y[0] && x[1] == y[1] && x[2] == y[2] && x[3] == y[3] && x[4] == y[4];
    IntTextBinds(FrameNumber(a.timeframe), FrameNumber(b.timeframe));
    IntTextBinds(a.barIndex, b.barIndex);
    IntTextBinds(a.visibleCount, b.visibleCount);
    IntTextBinds(FlagNumber(a.overallReady), FlagNumber(b.overallReady));
    assert |ItemTexts(a.items)| == |ItemTexts(b.items)|;
    forall k | 0 <= k < |a.items|
      ensures a.items[k] == b.items[k]
    {
      assert ItemTexts(a.items)[k] == ItemTexts(b.items)[k];
      ItemTextBinds(a.items[k], b.items[k]);
    }
  }

  function DigestText(d: Option<Digest>): string {
    if d.None? then "" else "D" + d.value
  }

  lemma DigestTextBinds(a: Option<Digest>, b: Option<Digest>)
    requires DigestText(a) == DigestText(b)
    ensures a == b
  {
    if a.Some? && b.Some? {
      assert DigestText(a)[1..] == a.value && DigestText(b)[1..] == b.value;
    }
  }

  function SlotFields(s: SlotDocument): seq<string> {
    [IntText(FrameNumber(s.timeframe)), OptionText(s.latest), IntText(FlagNumber(s.configured)),
     IntText(FlagNumber(s.ready)), DigestText(s.viewHash)]
  }

  function SlotText(s: SlotDocument): string {
    Pack(SlotFields(s))
  }

  lemma SlotTextBinds(a: SlotDocument, b: SlotDocument)
    requires SlotText(a) == SlotText(b)
    ensures a == b
  {
    hide Pack, IntText, OptionText, DigestText;
    var x, y := SlotFields(a), SlotFields(b);
    PackBinds(x, y);
    assert x[0] == y[0] && x[1] == y[1] && x[2] == y[2] && x[3] == y[3] && x[4] == y[4];
    IntTextBinds(FrameNumber(a.timeframe), FrameNumber(b.timeframe));
    OptionTextBinds(a.latest, b.latest);
    IntTextBinds(FlagNumber(a.configured), FlagNumber(b.configured));
    IntTextBinds(FlagNumber(a.ready), FlagNumber(b.ready));
    DigestTextBinds(a.viewHash, b.viewHash);
  }

  function SlotTexts(slots: seq<SlotDocument>): seq<string> {
    seq(|slots|, k requires 0 <= k < |slots| => SlotText(slots[k]))
  }

  function ComposedHead(d: ComposedDocument): seq<string> {
    [IntText(d.barIndex), DigestText(d.executionViewHash), IntText(FlagNumber(d.executionConfigured)),
     IntText(FlagNumber(d.executionReady)), IntText(FlagNumber(d.overallReady))]
  }

  function ComposedText(d: ComposedDocument): string {
    Pack(ComposedHead(d) + SlotTexts(d.slots))
  }

  lemma ComposedTextBinds(a: ComposedDocument, b: ComposedDocument)
    requires ComposedText(a) == ComposedText(b)
    ensures a == b
  {
    hide Pack, IntText, SlotText, DigestText;
    var x, y := ComposedHead(a), ComposedHead(b);
    HeadedPackBinds(x, SlotTexts(a.slots), y, SlotTexts(b.slots));
    assert x[0] == y[0] && x[1] == y[1] && x[2] == y[2] && x[3] == y[3] && x[4] == y[4];
    IntTextBinds(a.barIndex, b.barIndex);
    DigestTextBinds(a.executionViewHash, b.executionViewHash);
    IntTextBinds(FlagNumber(a.executionConfigured), FlagNumber(b.executionConfigured));
    IntTextBinds(FlagNumber(a.executionReady), FlagNumber(b.executionReady));
    IntTextBinds(FlagNumber(a.overallReady), FlagNumber(b.overallReady));
    assert |SlotTexts(a.slots)| == |SlotTexts(b.slots)|;
    forall k | 0 <= k < |a.slots|
      ensures a.slots[k] == b.slots[k]
    {
      assert SlotTexts(a.slots)[k] == SlotTexts(b.slots)[k];
      SlotTextBinds(a.slots[k], b.slots[k]);
    }
  }

  // ---------- the witnesses ----------

  function PlainCodec(): TimeCodec {
    TimeCodec(
      t => IntText(t) + "Z",
      (s: string) => if s == "" then None else Some(IntOf(s[..|s| - 1])))
  }

  /** There is a sound time codec. */
  lemma SoundCodecExists()
    ensures SoundCodec(PlainCodec())
  {
    hide IsClean, IsTrimmed, IntText, IntOf;
    forall t
      ensures SoundAt(PlainCodec(), t, PlainCodec().encode(t))
    {
      var s := PlainCodec().encode(t);
      assert s[..|s| - 1] == IntText(t);
      IntIsReadBack(t);
      IntTextIsPlain(t);
      StampIsClean(IntText(t));
    }
  }

  lemma StampIsClean(body: string)
    requires body != "" && forall k | 0 <= k < |body| :: IsPlain(body[k])
    ensures IsClean(body + "Z") && IsTrimmed(body + "Z")
  {
  }

  lemma IntTextIsPlain(n: int)
    ensures IntText(n) != "" && forall k | 0 <= k < |IntText(n)| :: IsPlain(IntText(n)[k])
  {
  }

  ghost function PlainHasher(view: ViewDocument -> Digest, key: SeriesKey -> Digest): Hasher {
    Hasher(TextOf, a => HeaderText(a), (d, t) => LinkText(d, t), key, view)
  }

  /** There is a hasher without collisions that prints decimals. */
  lemma CollisionFreeHasherExists(view: ViewDocument -> Digest, key: SeriesKey -> Digest)
    ensures CollisionFree(PlainHasher(view, key)) && PrintsDecimals(PlainHasher(view, key).decimalText)
  {
    hide HeaderText, LinkText, TextOf;
    TextOfPrints();
    forall a, b | HeaderText(a) == HeaderText(b)
      ensures a == b
    {
      HeaderTextBinds(a, b);
    }
    forall d, t, e, u | LinkText(d, t) == LinkText(e, u)
      ensures d == e && t == u
    {
      LinkTextBinds(d, t, e, u);
    }
    forall a, d, t
      ensures HeaderText(a) != LinkText(d, t)
    {
      HeaderIsNoLink(a, d, t);
    }
  }

  lemma HeaderIsNoLink(a: Header, d: Digest, t: string)
    ensures HeaderText(a) != LinkText(d, t)
  {
    hide Pack;
    assert HeaderText(a)[0] == 'H' && LinkText(d, t)[0] == 'L';
  }

  ghost function PlainInputHasher(
    codec: TimeCodec, alignment: AlignmentDocument -> Digest, multi: MultiDocument -> Digest)
    : InputHasher
  {
    InputHasher(candles => SeriesText(codec, candles), s => s, alignment, multi, d => BundleText(d))
  }

  /** And digests of series and bundles that bind them, over any sound codec. */
  lemma BindingDigestsExist(codec: TimeCodec, alignment: AlignmentDocument -> Digest, multi: MultiDocument -> Digest)
    requires SoundCodec(codec)
    ensures Binds(PlainInputHasher(codec, alignment, multi))
  {
    hide SoundCodec, SeriesText, CsvText, NumericOf, BundleText, KnownSeries;
    var text := PlainInputHasher(codec, alignment, multi).candleText;
    forall cs: seq<DecimalCandle>
      ensures text(NumericOf(cs)) == CsvText(codec, cs)
    {
      SeriesTextExists(codec, cs);
    }
    forall a, b, timeframe | KnownSeries(a, timeframe) && KnownSeries(b, timeframe) && text(a) == text(b)
      ensures a == b
    {
      CsvTextBinds(text, codec, a, b, timeframe);
    }
    forall a, b | BundleText(a) == BundleText(b)
      ensures a == b
    {
      BundleTextBinds(a, b);
    }
  }

  /** And of candle views, indicator views and composed views. */
  lemma BindingViewDigestsExist(key: SeriesKey -> Digest)
    ensures forall a, b | BaseText(a) == BaseText(b) :: a == b
    ensures BindsViews(PlainHasher(d => ViewText(d), key))
    ensures forall a, b | ComposedText(a) == ComposedText(b) :: a == b
  {
    hide BaseText, ViewText, ComposedText, CollisionFree, PrintsDecimals;
    CollisionFreeHasherExists(d => ViewText(d), key);
    forall a, b | BaseText(a) == BaseText(b)
      ensures a == b
    {
      BaseTextBinds(a, b);
    }
    forall a, b | ViewText(a) == ViewText(b)
      ensures a == b
    {
      ViewTextBinds(a, b);
    }
    forall a, b | ComposedText(a) == ComposedText(b)
      ensures a == b
    {
      ComposedTextBinds(a, b);
    }
  }
}
