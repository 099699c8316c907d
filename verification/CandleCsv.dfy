/** Canonical candle CSV: the serializer, and the parser that accepts nothing else. */
module CandleCsv {
  import opened Results
  import opened Texts
  import opened Decimals
  import opened Timeframes
  import opened Candles
  import opened Series

  datatype CsvError =
    | NulByte
    | ByteOrderMark
    | CarriageReturn
    | NoFinalNewline
    | EmptyText
    | BadHeader
    | NoRows
    | BlankRow(row: nat)
    | UntrimmedRow(row: nat)
    | FieldCount(row: nat)
    | BadTimestamp(row: nat)
    | FailedValidation(row: nat)
    | BadTradeCount(row: nat)
    | RowCloseMismatch(row: nat)
    | RowMisaligned(row: nat)
    | DuplicateRow(row: nat)
    | RowOutOfOrder(row: nat)
    | RowGap(row: nat)
    | NotCanonical

  /** A candle with its decimals as stored, exponents included. */
  datatype DecimalFields = DecimalFields(
    openTime: Instant,
    open: Decimal,
    high: Decimal,
    low: Decimal,
    close: Decimal,
    volume: Decimal,
    closeTime: Instant,
    quoteVolume: Decimal,
    tradeCount: int,
    takerBase: Decimal,
    takerQuote: Decimal)

  /** The candle that a stored candle is numerically. */
  function Numeric(c: DecimalFields): CandleFields {
    CandleFields(
      c.openTime, Value(c.open), Value(c.high), Value(c.low), Value(c.close), Value(c.volume), c.closeTime,
      Value(c.quoteVolume), c.tradeCount, Value(c.takerBase), Value(c.takerQuote))
  }

  const ZERO := Decimal(false, 0, 0)

  type DecimalCandle = c: DecimalFields | Numeric(c).Valid()
    witness DecimalFields(0, ZERO, ZERO, ZERO, ZERO, ZERO, 0, ZERO, 0, ZERO, ZERO)

  function NumericOf(cs: seq<DecimalCandle>): seq<Candle> {
    seq(|cs|, k requires 0 <= k < |cs| => Numeric(cs[k]))
  }

  /** ISO-8601 text, as an abstract codec. */
  datatype TimeCodec = TimeCodec(encode: Instant -> string, decode: string -> Option<Instant>)

  predicate IsClean(s: string) {
    ',' !in s && '\n' !in s && '\r' !in s && '\0' !in s
  }

  /** What the program relies on: encoded instants decode, and are clean text that ends in Z. */
  ghost predicate SoundCodec(codec: TimeCodec) {
    forall t :: SoundAt(codec, t, codec.encode(t))
  }

  predicate SoundAt(codec: TimeCodec, t: Instant, s: string) {
    && s != "" && IsTrimmed(s) && s[|s| - 1] == 'Z' && IsClean(s) && codec.decode(s) == Some(t)
  }

  /** The readings of text that is not plain: signs, exponents, spaces, foreign digits. Any will do. */
  datatype Lenient = Lenient(decimal: string -> Option<Decimal>, count: string -> Option<nat>)

  // ---------- serializing ----------

  const CSV_COLUMNS: seq<string> :=
    ["open_time", "open", "high", "low", "close", "volume", "close_time", "quote_asset_volume", "trade_count",
     "taker_buy_base_volume", "taker_buy_quote_volume"]

  function Header(): string {
    Join(CSV_COLUMNS, ',')
  }

  function FieldAt(codec: TimeCodec, c: DecimalCandle, column: nat): string
    requires column < 11
  {
    match column
    case 0 => codec.encode(c.openTime)
    case 1 => FormatCanonical(c.open)
    case 2 => FormatCanonical(c.high)
    case 3 => FormatCanonical(c.low)
    case 4 => FormatCanonical(c.close)
    case 5 => FormatCanonical(c.volume)
    case 6 => codec.encode(c.closeTime)
    case 7 => FormatCanonical(c.quoteVolume)
    case 8 => Digits(c.tradeCount)
    case 9 => FormatCanonical(c.takerBase)
    case _ => FormatCanonical(c.takerQuote)
  }

  function FieldsOf(codec: TimeCodec, c: DecimalCandle): (fields: seq<string>)
    ensures |fields| == |CSV_COLUMNS|
  {
    seq(11, column requires 0 <= column < 11 => FieldAt(codec, c, column))
  }

  function LineOf(codec: TimeCodec, c: DecimalCandle): string {
    Join(FieldsOf(codec, c), ',')
  }

  function LinesOf(codec: TimeCodec, cs: seq<DecimalCandle>): seq<string> {
    seq(|cs|, k requires 0 <= k < |cs| => LineOf(codec, cs[k]))
  }

  function CsvText(codec: TimeCodec, cs: seq<DecimalCandle>): string {
    Join([Header()] + LinesOf(codec, cs), '\n') + "\n"
  }

  method SerializeCandlesCsv(codec: TimeCodec, cs: seq<DecimalCandle>) returns (text: string)
    ensures text == CsvText(codec, cs)
  {
    hide LineOf, Header;
    var lines := [Header()];
    for k := 0 to |cs|
      invariant lines == [Header()] + LinesOf(codec, cs[..k])
    {
      assert LinesOf(codec, cs[..k + 1]) == LinesOf(codec, cs[..k]) + [LineOf(codec, cs[k])];
      lines := lines + [LineOf(codec, cs[k])];
    }
    assert cs[..|cs|] == cs;
    text := Join(lines, '\n') + "\n";
  }

  // ---------- parsing ----------

  function Require<T>(o: Option<T>, e: CsvError): Result<T, CsvError> {
    match o case Some(v) => Ok(v) case None => Err(e)
  }

  function ParseUtc(codec: TimeCodec, text: string): Option<Instant> {
    if !IsTrimmed(text) || text == "" || text[|text| - 1] != 'Z' then None else codec.decode(text)
  }

  function ParseDecimal(lenient: Lenient, text: string): Option<Decimal> {
    match ParsePlain(text) case Some(d) => Some(d) case None => lenient.decimal(text)
  }

  function ParseTradeCount(lenient: Lenient, text: string): Option<nat> {
    if !IsTrimmed(text) || text == "" || text[0] == '-' then None
    else if AllDigits(text) then Some(NatOf(text))
    else lenient.count(text)
  }

  function ParseRow(codec: TimeCodec, lenient: Lenient, fields: seq<string>, timeframe: Timeframe, row: nat)
    : Result<DecimalCandle, CsvError>
  {
    if |fields| != |CSV_COLUMNS| then Err(FieldCount(row))
    else
      var openTime :- Require(ParseUtc(codec, fields[0]), BadTimestamp(row));
      var closeTime :- Require(ParseUtc(codec, fields[6]), BadTimestamp(row));
      var open :- Require(ParseDecimal(lenient, fields[1]), FailedValidation(row));
      var high :- Require(ParseDecimal(lenient, fields[2]), FailedValidation(row));
      var low :- Require(ParseDecimal(lenient, fields[3]), FailedValidation(row));
      var close :- Require(ParseDecimal(lenient, fields[4]), FailedValidation(row));
      var volume :- Require(ParseDecimal(lenient, fields[5]), FailedValidation(row));
      var quoteVolume :- Require(ParseDecimal(lenient, fields[7]), FailedValidation(row));
      var tradeCount :- Require(ParseTradeCount(lenient, fields[8]), BadTradeCount(row));
      var takerBase :- Require(ParseDecimal(lenient, fields[9]), FailedValidation(row));
      var takerQuote :- Require(ParseDecimal(lenient, fields[10]), FailedValidation(row));
      var c := DecimalFields(
        openTime, open, high, low, close, volume, closeTime, quoteVolume, tradeCount, takerBase, takerQuote);
      if MakeCandle(Numeric(c)).Err? then Err(FailedValidation(row))
      else if closeTime != ExpectedClose(openTime, timeframe) then Err(RowCloseMismatch(row))
      else if !IsAligned(openTime, timeframe) then Err(RowMisaligned(row))
      else Ok(c)
  }

  function ParseLine(
    codec: TimeCodec, lenient: Lenient, line: string, timeframe: Timeframe, row: nat, previous: Option<Instant>)
    : Result<DecimalCandle, CsvError>
  {
    if line == "" then Err(BlankRow(row))
    else if !IsTrimmed(line) then Err(UntrimmedRow(row))
    else
      var c :- ParseRow(codec, lenient, Split(line, ','), timeframe, row);
      if previous.None? then Ok(c)
      else if c.openTime == previous.value then Err(DuplicateRow(row))
      else if c.openTime < previous.value then Err(RowOutOfOrder(row))
      else if c.openTime != previous.value + Duration(timeframe) then Err(RowGap(row))
      else Ok(c)
  }

  function LastOpen(cs: seq<DecimalCandle>): Option<Instant> {
    if cs == [] then None else Some(cs[|cs| - 1].openTime)
  }

  /** The candles of the first n data lines; the first of them is row 2 of the file. */
  function ParseLines(codec: TimeCodec, lenient: Lenient, lines: seq<string>, timeframe: Timeframe, n: nat)
    : (r: Result<seq<DecimalCandle>, CsvError>)
    requires n <= |lines|
    ensures r.Ok? ==> |r.value| == n
  {
    if n == 0 then Ok([])
    else
      var cs :- ParseLines(codec, lenient, lines, timeframe, n - 1);
      var c :- ParseLine(codec, lenient, lines[n - 1], timeframe, n + 1, LastOpen(cs));
      Ok(cs + [c])
  }

  /** The lines of the text less the empty piece after a final newline. */
  function LinesIn(text: string): seq<string> {
    var parts := Split(text, '\n');
    if parts[|parts| - 1] == "" then parts[..|parts| - 1] else parts
  }

  function ParseCsv(codec: TimeCodec, lenient: Lenient, text: string, timeframe: Timeframe)
    : Result<seq<DecimalCandle>, CsvError>
  {
    if '\0' in text then Err(NulByte)
    else if text != "" && text[0] == '\U{FEFF}' then Err(ByteOrderMark)
    else if '\r' in text then Err(CarriageReturn)
    else if text == "" || text[|text| - 1] != '\n' then Err(NoFinalNewline)
    else
      var lines := LinesIn(text);
      if lines == [] then Err(EmptyText)
      else if lines[0] != Header() then Err(BadHeader)
      else if |lines| < 2 then Err(NoRows)
      else
        var cs :- ParseLines(codec, lenient, lines[1..], timeframe, |lines| - 1);
        if CsvText(codec, cs) != text then Err(NotCanonical) else Ok(cs)
  }

  /** The loop over the data rows, which carries the candles read so far. */
  method ParseRows(codec: TimeCodec, lenient: Lenient, rows: seq<string>, timeframe: Timeframe)
    returns (r: Result<seq<DecimalCandle>, CsvError>)
    ensures r == ParseLines(codec, lenient, rows, timeframe, |rows|)
  {
    hide ParseLine, Numeric;
    var candles: seq<DecimalCandle> := [];
    for k := 0 to |rows|
      invariant ParseLines(codec, lenient, rows, timeframe, k) == Ok(candles)
    {
      LineErrorsAreFinal(codec, lenient, rows, timeframe, k + 1, |rows|);
      var candle :- ReadLine(codec, lenient, rows[k], timeframe, k + 2, candles);
      candles := candles + [candle];
    }
    return Ok(candles);
  }

  method ReadLine(
    codec: TimeCodec, lenient: Lenient, line: string, timeframe: Timeframe, row: nat, candles: seq<DecimalCandle>)
    returns (r: Result<DecimalCandle, CsvError>)
    ensures r == ParseLine(codec, lenient, line, timeframe, row, LastOpen(candles))
  {
    hide ParseRow, Split, IsTrimmed, Numeric, Duration;
    if line == "" {
      return Err(BlankRow(row));
    }
    if !IsTrimmed(line) {
      return Err(UntrimmedRow(row));
    }
    var candle :- ParseRow(codec, lenient, Split(line, ','), timeframe, row);
    if candles != [] {
      var expectedOpen := candles[|candles| - 1].openTime + Duration(timeframe);
      if candle.openTime == candles[|candles| - 1].openTime {
        return Err(DuplicateRow(row));
      }
      if candle.openTime < candles[|candles| - 1].openTime {
        return Err(RowOutOfOrder(row));
      }
      if candle.openTime != expectedOpen {
        return Err(RowGap(row));
      }
    }
    return Ok(candle);
  }

  method ParseCanonicalCandlesCsv(codec: TimeCodec, lenient: Lenient, text: string, timeframe: Timeframe)
    returns (r: Result<seq<DecimalCandle>, CsvError>)
    ensures r == ParseCsv(codec, lenient, text, timeframe)
  {
    hide ParseLines, CsvText, Header, Split;
    if '\0' in text {
      return Err(NulByte);
    }
    if text != "" && text[0] == '\U{FEFF}' {
      return Err(ByteOrderMark);
    }
    if '\r' in text {
      return Err(CarriageReturn);
    }
    if text == "" || text[|text| - 1] != '\n' {
      return Err(NoFinalNewline);
    }
    var lines := Split(text, '\n');
    if lines[|lines| - 1] == "" {
      lines := lines[..|lines| - 1];
    }
    if lines == [] {
      return Err(EmptyText);
    }
    if lines[0] != Header() {
      return Err(BadHeader);
    }
    if |lines| < 2 {
      return Err(NoRows);
    }
    var candles :- ParseRows(codec, lenient, lines[1..], timeframe);
    var encoded := SerializeCandlesCsv(codec, candles);
    if encoded != text {
      return Err(NotCanonical);
    }
    return Ok(candles);
  }

  lemma {:induction false} LineErrorsAreFinal(
    codec: TimeCodec, lenient: Lenient, lines: seq<string>, timeframe: Timeframe, n: nat, m: nat)
    requires n <= m <= |lines|
    ensures ParseLines(codec, lenient, lines, timeframe, n).Err? ==>
      ParseLines(codec, lenient, lines, timeframe, m) == ParseLines(codec, lenient, lines, timeframe, n)
  {
    hide ParseLine;
    if n < m { LineErrorsAreFinal(codec, lenient, lines, timeframe, n, m - 1); }
  }

  // ---------- one row ----------

  /** Non-empty, trimmed and free of the characters that structure the file. */
  predicate IsField(s: string) {
    s != "" && IsClean(s) && IsTrimmed(s)
  }

  lemma PlainIsField(s: string)
    requires s != "" && forall k | 0 <= k < |s| :: IsPlain(s[k])
    ensures IsField(s)
  {
  }

  lemma DecimalIsField(d: Decimal)
    ensures IsField(FormatCanonical(d))
  {
    hide FormatCanonical;
    FormatIsPlain(d);
    PlainIsField(FormatCanonical(d));
  }

  lemma TimeIsField(codec: TimeCodec, t: Instant)
    requires SoundCodec(codec)
    ensures IsField(codec.encode(t))
  {
  }

  lemma FieldIsField(codec: TimeCodec, c: DecimalCandle, column: nat)
    requires SoundCodec(codec) && column < 11
    ensures IsField(FieldAt(codec, c, column))
  {
    var count: nat := c.tradeCount;
    hide FormatCanonical, Digits, Numeric, IsField, SoundCodec;
    match column
    case 0 => TimeIsField(codec, c.openTime);
    case 1 => DecimalIsField(c.open);
    case 2 => DecimalIsField(c.high);
    case 3 => DecimalIsField(c.low);
    case 4 => DecimalIsField(c.close);
    case 5 => DecimalIsField(c.volume);
    case 6 => TimeIsField(codec, c.closeTime);
    case 7 => DecimalIsField(c.quoteVolume);
    case 8 => PlainIsField(Digits(count));
    case 9 => DecimalIsField(c.takerBase);
    case _ => DecimalIsField(c.takerQuote);
  }

  lemma FieldsAreClean(codec: TimeCodec, c: DecimalCandle)
    requires SoundCodec(codec)
    ensures forall k | 0 <= k < |FieldsOf(codec, c)| :: IsField(FieldsOf(codec, c)[k])
  {
    hide FieldAt, IsField;
    forall column: nat | column < 11
      ensures IsField(FieldAt(codec, c, column))
    {
      FieldIsField(codec, c, column);
    }
  }

  /** A serialized line is one trimmed line that splits back into its fields. */
  lemma LineSplits(codec: TimeCodec, c: DecimalCandle)
    requires SoundCodec(codec)
    ensures var line := LineOf(codec, c);
      && line != "" && IsTrimmed(line) && '\n' !in line && '\r' !in line && '\0' !in line
      && Split(line, ',') == FieldsOf(codec, c)
  {
    hide FieldsOf, Split, Join;
    FieldsAreClean(codec, c);
    var fields := FieldsOf(codec, c);
    SplitOfJoin(fields, ',');
    JoinEnds(fields, ',');
    JoinHasOnly(fields, ',', '\n');
    JoinHasOnly(fields, ',', '\r');
    JoinHasOnly(fields, ',', '\0');
  }

  lemma DecimalIsReadBack(lenient: Lenient, d: Decimal)
    ensures ParseDecimal(lenient, FormatCanonical(d)).Some?
    ensures Value(ParseDecimal(lenient, FormatCanonical(d)).value) == Value(d)
  {
    hide FormatCanonical, ParsePlain, Value;
    ParseOfFormat(d);
  }

  lemma CountIsReadBack(lenient: Lenient, n: nat)
    ensures ParseTradeCount(lenient, Digits(n)) == Some(n)
  {
    NatOfDigits(n);
    PlainIsField(Digits(n));
  }

  lemma TimeIsReadBack(codec: TimeCodec, t: Instant)
    requires SoundCodec(codec)
    ensures ParseUtc(codec, codec.encode(t)) == Some(t)
  {
  }

  /** Placed where a canonical series would have it. */
  predicate ClosedAndAligned(c: DecimalCandle, timeframe: Timeframe) {
    c.closeTime == ExpectedClose(c.openTime, timeframe) && IsAligned(c.openTime, timeframe)
  }

  /** A serialized row is read back as the same numbers. */
  lemma RowIsReadBack(codec: TimeCodec, lenient: Lenient, c: DecimalCandle, timeframe: Timeframe, row: nat)
    requires SoundCodec(codec) && ClosedAndAligned(c, timeframe)
    ensures var r := ParseRow(codec, lenient, FieldsOf(codec, c), timeframe, row);
      r.Ok? && Numeric(r.value) == Numeric(c)
  {
    hide FormatCanonical, ParseDecimal, ParseTradeCount, ParseUtc, Value, Digits, SoundCodec, IsAligned;
    TimeIsReadBack(codec, c.openTime);
    TimeIsReadBack(codec, c.closeTime);
    CountIsReadBack(lenient, c.tradeCount);
    DecimalIsReadBack(lenient, c.open);
    DecimalIsReadBack(lenient, c.high);
    DecimalIsReadBack(lenient, c.low);
    DecimalIsReadBack(lenient, c.close);
    DecimalIsReadBack(lenient, c.volume);
    DecimalIsReadBack(lenient, c.quoteVolume);
    DecimalIsReadBack(lenient, c.takerBase);
    DecimalIsReadBack(lenient, c.takerQuote);
  }

  /** Rows of the same numbers are the same text. */
  lemma SameNumbersSameLine(codec: TimeCodec, a: DecimalCandle, b: DecimalCandle)
    requires Numeric(a) == Numeric(b)
    ensures LineOf(codec, a) == LineOf(codec, b)
  {
    hide FormatCanonical, Value, Join;
    CanonicalText(a.open, b.open);
    CanonicalText(a.high, b.high);
    CanonicalText(a.low, b.low);
    CanonicalText(a.close, b.close);
    CanonicalText(a.volume, b.volume);
    CanonicalText(a.quoteVolume, b.quoteVolume);
    CanonicalText(a.takerBase, b.takerBase);
    CanonicalText(a.takerQuote, b.takerQuote);
    assert forall column: nat | column < 11 :: FieldAt(codec, a, column) == FieldAt(codec, b, column);
    assert FieldsOf(codec, a) == FieldsOf(codec, b);
  }

  // ---------- whole files ----------

  lemma SameNumbersSameText(codec: TimeCodec, a: seq<DecimalCandle>, b: seq<DecimalCandle>)
    requires NumericOf(a) == NumericOf(b)
    ensures CsvText(codec, a) == CsvText(codec, b)
  {
    hide LineOf, Join;
    assert |NumericOf(a)| == |NumericOf(b)|;
    forall k | 0 <= k < |a|
      ensures LineOf(codec, a[k]) == LineOf(codec, b[k])
    {
      assert Numeric(a[k]) == NumericOf(a)[k] == NumericOf(b)[k] == Numeric(b[k]);
      SameNumbersSameLine(codec, a[k], b[k]);
    }
    assert LinesOf(codec, a) == LinesOf(codec, b);
  }

  lemma CanonicalRow(cs: seq<DecimalCandle>, timeframe: Timeframe, k: nat)
    requires Canonical(NumericOf(cs), timeframe) && k < |cs|
    ensures ClosedAndAligned(cs[k], timeframe)
    ensures k > 0 ==> cs[k].openTime == cs[k - 1].openTime + Duration(timeframe)
  {
    hide IsAligned, Value, Duration;
    var candles := NumericOf(cs);
    assert candles[k] == Numeric(cs[k]) && candles[0] == Numeric(cs[0]);
    assert k > 0 ==> candles[k - 1] == Numeric(cs[k - 1]);
    assert PlacedAt(candles, timeframe, k);
    assert k > 0 ==> PlacedAt(candles, timeframe, k - 1);
    assert k * Duration(timeframe) == (k - 1) * Duration(timeframe) + Duration(timeframe);
    StepKeepsAlignment(candles[0].openTime, k, timeframe);
  }

  /** The data rows of a serialization are read back in order. */
  lemma {:induction false} LinesAreReadBack(
    codec: TimeCodec, lenient: Lenient, cs: seq<DecimalCandle>, timeframe: Timeframe, n: nat)
    requires SoundCodec(codec) && Canonical(NumericOf(cs), timeframe) && n <= |cs|
    ensures var r := ParseLines(codec, lenient, LinesOf(codec, cs), timeframe, n);
      r.Ok? && NumericOf(r.value) == NumericOf(cs)[..n]
  {
    hide ParseRow, LineOf, FieldsOf, Split, Canonical, IsTrimmed, IsAligned, SoundCodec, Value, Duration;
    if n > 0 {
      LinesAreReadBack(codec, lenient, cs, timeframe, n - 1);
      var before := ParseLines(codec, lenient, LinesOf(codec, cs), timeframe, n - 1).value;
      var c := cs[n - 1];
      CanonicalRow(cs, timeframe, n - 1);
      LineSplits(codec, c);
      RowIsReadBack(codec, lenient, c, timeframe, n + 1);
      if n > 1 {
        assert Numeric(before[n - 2]) == NumericOf(before)[n - 2] == NumericOf(cs)[n - 2] == Numeric(cs[n - 2]);
      }
      assert LinesOf(codec, cs)[n - 1] == LineOf(codec, c);
    }
  }

  predicate IsLabel(s: string) {
    s != "" && forall k | 0 <= k < |s| :: s[k] == '_' || 'a' <= s[k] <= 'z'
  }

  lemma PriceColumnsAreLabels()
    ensures IsLabel("open_time") && IsLabel("open") && IsLabel("high") && IsLabel("low") && IsLabel("close")
  {
  }

  lemma CountColumnsAreLabels()
    ensures IsLabel("volume") && IsLabel("close_time") && IsLabel("quote_asset_volume") && IsLabel("trade_count")
  {
  }

  lemma TakerColumnsAreLabels()
    ensures IsLabel("taker_buy_base_volume") && IsLabel("taker_buy_quote_volume")
  {
  }

  lemma ColumnsAreLabels()
    ensures forall k | 0 <= k < |CSV_COLUMNS| :: IsLabel(CSV_COLUMNS[k])
    ensures CSV_COLUMNS[0] == "open_time"
  {
    hide IsLabel;
    PriceColumnsAreLabels();
    CountColumnsAreLabels();
    TakerColumnsAreLabels();
  }

  lemma LabelIsClean(s: string)
    requires IsLabel(s)
    ensures '\n' !in s && '\r' !in s && '\0' !in s
  {
  }

  lemma HeaderIsClean()
    ensures var h := Header();
      h != "" && h[0] == 'o' && '\n' !in h && '\r' !in h && '\0' !in h
  {
    ColumnsAreLabels();
    JoinLabels(CSV_COLUMNS);
  }

  lemma JoinLabels(columns: seq<string>)
    requires columns != [] && columns[0] != "" && forall k | 0 <= k < |columns| :: IsLabel(columns[k])
    ensures var h := Join(columns, ',');
      h != "" && h[0] == columns[0][0] && '\n' !in h && '\r' !in h && '\0' !in h
  {
    hide Join;
    forall k | 0 <= k < |columns|
      ensures columns[k] != "" && '\n' !in columns[k] && '\r' !in columns[k] && '\0' !in columns[k]
    {
      LabelIsClean(columns[k]);
    }
    JoinEnds(columns, ',');
    JoinHasOnly(columns, ',', '\n');
    JoinHasOnly(columns, ',', '\r');
    JoinHasOnly(columns, ',', '\0');
  }

  /** The file passes the character checks and splits back into the header and the rows. */
  lemma TextSplits(codec: TimeCodec, cs: seq<DecimalCandle>)
    requires SoundCodec(codec)
    ensures var text := CsvText(codec, cs);
      && text != "" && text[|text| - 1] == '\n' && text[0] != '\U{FEFF}' && '\r' !in text && '\0' !in text
      && LinesIn(text) == [Header()] + LinesOf(codec, cs)
  {
    hide LineOf, Header, Split, Join;
    HeaderIsClean();
    var lines := [Header()] + LinesOf(codec, cs);
    forall k | 0 <= k < |lines|
      ensures '\n' !in lines[k] && '\r' !in lines[k] && '\0' !in lines[k]
    {
      if k > 0 { LineSplits(codec, cs[k - 1]); }
    }
    JoinWithTrailer(lines, '\n');
    SplitOfJoin(lines + [""], '\n');
    assert (lines + [""])[..|lines|] == lines;
    JoinHasOnly(lines, '\n', '\r');
    JoinHasOnly(lines, '\n', '\0');
    JoinStarts(lines, '\n');
  }

  lemma JoinStarts(parts: seq<string>, sep: char)
    requires parts != [] && parts[0] != ""
    ensures Join(parts, sep) != "" && Join(parts, sep)[0] == parts[0][0]
  {
  }

  /** Round trip: parsing the serialization of any gap-free aligned series gives equal candles. */
  lemma CsvRoundTrip(codec: TimeCodec, lenient: Lenient, cs: seq<DecimalCandle>, timeframe: Timeframe)
    requires SoundCodec(codec) && Canonical(NumericOf(cs), timeframe)
    ensures var r := ParseCsv(codec, lenient, CsvText(codec, cs), timeframe);
      r.Ok? && NumericOf(r.value) == NumericOf(cs)
  {
    hide CsvText, LinesIn, LineOf, Header, ParseLines, SoundCodec, Numeric, PlacedAt, IsAligned;
    TextSplits(codec, cs);
    LinesAreReadBack(codec, lenient, cs, timeframe, |cs|);
    var lines := [Header()] + LinesOf(codec, cs);
    assert lines[1..] == LinesOf(codec, cs);
    var parsed := ParseLines(codec, lenient, LinesOf(codec, cs), timeframe, |cs|).value;
    assert NumericOf(cs)[..|cs|] == NumericOf(cs);
    SameNumbersSameText(codec, parsed, cs);
  }

  /** Files identify their candles: equal text means equal numbers, and only that. */
  lemma TextIdentifiesNumbers(
    codec: TimeCodec, lenient: Lenient, a: seq<DecimalCandle>, b: seq<DecimalCandle>, timeframe: Timeframe)
    requires SoundCodec(codec) && Canonical(NumericOf(a), timeframe) && Canonical(NumericOf(b), timeframe)
    ensures CsvText(codec, a) == CsvText(codec, b) <==> NumericOf(a) == NumericOf(b)
  {
    hide CsvText, ParseCsv, SoundCodec, Canonical, NumericOf;
    CsvRoundTrip(codec, lenient, a, timeframe);
    CsvRoundTrip(codec, lenient, b, timeframe);
    if NumericOf(a) == NumericOf(b) { SameNumbersSameText(codec, a, b); }
  }

  lemma RowIsPlaced(codec: TimeCodec, lenient: Lenient, fields: seq<string>, timeframe: Timeframe, row: nat)
    requires ParseRow(codec, lenient, fields, timeframe, row).Ok?
    ensures ClosedAndAligned(ParseRow(codec, lenient, fields, timeframe, row).value, timeframe)
  {
    hide ParseUtc, ParseDecimal, ParseTradeCount, Value, IsAligned, Duration;
  }

  /** A line accepted after others continues them without a defect. */
  lemma LineContinues(
    codec: TimeCodec, lenient: Lenient, line: string, timeframe: Timeframe, row: nat, cs: seq<DecimalCandle>)
    requires ParseLine(codec, lenient, line, timeframe, row, LastOpen(cs)).Ok?
    ensures var c := ParseLine(codec, lenient, line, timeframe, row, LastOpen(cs)).value;
      DefectAt(NumericOf(cs) + [Numeric(c)], timeframe, |cs|) == None
  {
    hide ParseRow, Split, IsTrimmed, IsAligned, Duration, Value;
    RowIsPlaced(codec, lenient, Split(line, ','), timeframe, row);
  }

  lemma DefectsStay(candles: seq<Candle>, more: seq<Candle>, timeframe: Timeframe, i: nat)
    requires i < |candles|
    ensures DefectAt(candles + more, timeframe, i) == DefectAt(candles, timeframe, i)
  {
  }

  /** Whatever the rows say, what they parse to has no defect. */
  lemma {:induction false} ParsedRowsHaveNoDefect(
    codec: TimeCodec, lenient: Lenient, lines: seq<string>, timeframe: Timeframe, n: nat)
    requires n <= |lines| && ParseLines(codec, lenient, lines, timeframe, n).Ok?
    ensures var candles := NumericOf(ParseLines(codec, lenient, lines, timeframe, n).value);
      forall i: nat | i < n :: DefectAt(candles, timeframe, i) == None
  {
    hide ParseLine, DefectAt, Numeric;
    if n > 0 {
      ParsedRowsHaveNoDefect(codec, lenient, lines, timeframe, n - 1);
      var before := ParseLines(codec, lenient, lines, timeframe, n - 1).value;
      LineContinues(codec, lenient, lines[n - 1], timeframe, n + 1, before);
      var c := ParseLine(codec, lenient, lines[n - 1], timeframe, n + 1, LastOpen(before)).value;
      assert NumericOf(before + [c]) == NumericOf(before) + [Numeric(c)];
      forall i: nat | i < n - 1
        ensures DefectAt(NumericOf(before + [c]), timeframe, i) == None
      {
        DefectsStay(NumericOf(before), [Numeric(c)], timeframe, i);
      }
    }
  }

  /** The parser accepts exactly the serializations of gap-free aligned series. */
  lemma AcceptsExactlySerializations(codec: TimeCodec, lenient: Lenient, text: string, timeframe: Timeframe)
    requires SoundCodec(codec)
    ensures ParseCsv(codec, lenient, text, timeframe).Ok?
      <==> exists cs: seq<DecimalCandle> :: Canonical(NumericOf(cs), timeframe) && text == CsvText(codec, cs)
    ensures var r := ParseCsv(codec, lenient, text, timeframe);
      r.Ok? ==> Canonical(NumericOf(r.value), timeframe) && CsvText(codec, r.value) == text
  {
    hide CsvText, LinesIn, Header, ParseLines, SoundCodec, Canonical, NumericOf;
    var r := ParseCsv(codec, lenient, text, timeframe);
    if r.Ok? {
      ParsedIsCanonical(codec, lenient, LinesIn(text)[1..], timeframe);
    } else if cs: seq<DecimalCandle> :| Canonical(NumericOf(cs), timeframe) && text == CsvText(codec, cs) {
      CsvRoundTrip(codec, lenient, cs, timeframe);
    }
  }

  lemma ParsedIsCanonical(codec: TimeCodec, lenient: Lenient, lines: seq<string>, timeframe: Timeframe)
    requires lines != [] && ParseLines(codec, lenient, lines, timeframe, |lines|).Ok?
    ensures Canonical(NumericOf(ParseLines(codec, lenient, lines, timeframe, |lines|).value), timeframe)
  {
    hide ParseLines, DefectAt, Numeric;
    ParsedRowsHaveNoDefect(codec, lenient, lines, timeframe, |lines|);
    var candles := NumericOf(ParseLines(codec, lenient, lines, timeframe, |lines|).value);
    NoDefectMeansNoneAt(candles, timeframe, 0);
    NoDefectMeansCanonical(candles, timeframe);
  }
}
