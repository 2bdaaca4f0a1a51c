/** The deterministic parts of `stock_prices_tool`: the keyword encoding of the
    symbol-search URL, the choice of the BSE ticker among the search matches and
    the relabelling of the daily price columns. The HTTP calls are replaced by
    their decoded responses, passed in as parameters. */
module MarketData {
  import opened Wrappers
  import opened Text

  // ---------------------------------------------------------------------------
  // Keyword encoding

  /** Python's `name.replace(' ', '%20')`. */
  function EncodeKeyword(name: string): (r: string)
    ensures ' ' !in r
  {
    if |name| == 0 then ""
    else (if name[0] == ' ' then "%20" else [name[0]]) + EncodeKeyword(name[1..])
  }

  /** How many spaces `s` holds. */
  function SpaceCount(s: string): nat
  {
    if |s| == 0 then 0 else (if s[0] == ' ' then 1 else 0) + SpaceCount(s[1..])
  }

  /** Encoding is character by character: it distributes over concatenation,
      and a single character is either a space turned into `%20` or kept. */
  lemma {:induction false} EncodeKeywordConcat(a: string, b: string)
    ensures EncodeKeyword(a + b) == EncodeKeyword(a) + EncodeKeyword(b)
    decreases |a|
  {
    if |a| > 0 {
      assert (a + b)[1..] == a[1..] + b;
      EncodeKeywordConcat(a[1..], b);
    } else {
      assert a + b == b;
    }
  }

  lemma EncodeKeywordChar(c: char)
    ensures EncodeKeyword([c]) == if c == ' ' then "%20" else [c]
  {
    assert [c][1..] == "";
  }

  /** Each space grows the keyword by exactly two characters. */
  lemma {:induction false} EncodeKeywordLength(name: string)
    ensures |EncodeKeyword(name)| == |name| + 2 * SpaceCount(name)
  {
    if |name| > 0 {
      EncodeKeywordLength(name[1..]);
    }
  }

  /** Inverse of the encoding: every `%20` back to a space. */
  function DecodeKeyword(t: string): string
    decreases |t|
  {
    if |t| == 0 then ""
    else if "%20" <= t then " " + DecodeKeyword(t[3..])
    else [t[0]] + DecodeKeyword(t[1..])
  }

  /** For a name without `%`, decoding the encoded keyword gives the name back:
      nothing but the spaces was changed. */
  lemma {:induction false} DecodeEncodeKeyword(name: string)
    requires '%' !in name
    ensures DecodeKeyword(EncodeKeyword(name)) == name
  {
    if |name| > 0 {
      var rest := EncodeKeyword(name[1..]);
      if name[0] == ' ' {
        assert ("%20" + rest)[3..] == rest;
      } else {
        var t := [name[0]] + rest;
        assert t[0] == name[0] && t[1..] == rest;
      }
      DecodeEncodeKeyword(name[1..]);
      assert name == [name[0]] + name[1..];
    }
  }

  const SymbolSearchPrefix := "https://www.alphavantage.co/query?function=SYMBOL_SEARCH&keywords="

  /** The symbol-search request URL built for a stock name and an API key. */
  function SymbolSearchUrl(name: string, apiKey: string): (url: string)
    ensures SymbolSearchPrefix <= url
    ensures url[|SymbolSearchPrefix|..] == EncodeKeyword(name) + "&apikey=" + apiKey
    ensures ' ' !in url[|SymbolSearchPrefix|..|url| - |apiKey| - |"&apikey="|]
  {
    var keyword := EncodeKeyword(name);
    var url := SymbolSearchPrefix + keyword + "&apikey=" + apiKey;
    assert url[|SymbolSearchPrefix|..] == keyword + "&apikey=" + apiKey;
    assert url[|SymbolSearchPrefix|..|url| - |apiKey| - |"&apikey="|] == keyword;
    url
  }

  // ---------------------------------------------------------------------------
  // BSE ticker selection

  /** One entry of `bestMatches`: field label to field text. */
  type SymbolMatch = map<string, string>

  const SymbolField := "1. symbol"
  const ExchangeMarker := "BSE"

  /** The decoded symbol-search response: `bestMatches` (None when the key is
      absent) and every other top-level entry, such as `Information`, `Note` or
      `Error Message`, with its text. */
  datatype SearchResponse = SearchResponse(bestMatches: Option<seq<SymbolMatch>>, others: map<string, string>)

  /** `TypeError(data)`: the whole decoded search response travels with the failure. */
  datatype TickerError = TickerError(payload: SearchResponse)

  predicate HasSymbol(m: SymbolMatch)
  {
    SymbolField in m
  }

  /** The match has a symbol and that symbol names the BSE exchange. */
  predicate IsBse(m: SymbolMatch)
  {
    HasSymbol(m) && Contains(m[SymbolField], ExchangeMarker)
  }

  /** The position of the last BSE match. */
  function LastBseIndex(ms: seq<SymbolMatch>): (r: Option<nat>)
    ensures r.Some? ==> r.value < |ms| && IsBse(ms[r.value])
    ensures r.Some? ==> forall k :: r.value < k < |ms| ==> !IsBse(ms[k])
    ensures r.None? <==> forall k :: 0 <= k < |ms| ==> !IsBse(ms[k])
  {
    if |ms| == 0 then None
    else if IsBse(ms[|ms| - 1]) then Some(|ms| - 1)
    else LastBseIndex(ms[..|ms| - 1])
  }

  /** What the ticker lookup yields: the symbol of the last BSE match, or the
      failure the script raises (no `bestMatches`, a match without a symbol,
      or no BSE match at all). */
  function TickerOf(resp: SearchResponse): (r: Result<string, TickerError>)
    ensures r.Success? ==> Contains(r.value, ExchangeMarker)
    ensures r.Failure? ==> r.error.payload == resp
  {
    match resp.bestMatches
    case None => Failure(TickerError(resp))
    case Some(ms) =>
      if exists k :: 0 <= k < |ms| && !HasSymbol(ms[k]) then Failure(TickerError(resp))
      else match LastBseIndex(ms)
        case None => Failure(TickerError(resp))
        case Some(j) => Success(ms[j][SymbolField])
  }

  lemma NonEmptyWhenBse(s: string)
    requires Contains(s, ExchangeMarker)
    ensures s != ""
  {
  }

  /** The scan over `bestMatches`: every match overwrites the ticker when its
      symbol contains "BSE"; the scan has no early exit. */
  method SelectTicker(resp: SearchResponse) returns (r: Result<string, TickerError>)
    ensures r == TickerOf(resp)
    ensures r.Success? ==> Contains(r.value, ExchangeMarker)
    ensures r.Failure? ==> r.error.payload == resp
  {
    if resp.bestMatches.None? {
      return Failure(TickerError(resp));
    }
    var ms := resp.bestMatches.value;
    var ticker := "";
    var i := 0;
    while i < |ms|
      invariant 0 <= i <= |ms|
      invariant forall k :: 0 <= k < i ==> HasSymbol(ms[k])
      invariant ticker == match LastBseIndex(ms[..i])
                          case None => ""
                          case Some(j) => ms[j][SymbolField]
    {
      var m := ms[i];
      if SymbolField !in m {
        assert !HasSymbol(ms[i]);
        return Failure(TickerError(resp));
      }
      assert ms[..i + 1][..i] == ms[..i];
      if Contains(m[SymbolField], ExchangeMarker) {
        ticker := m[SymbolField];
      }
      i := i + 1;
    }
    assert ms[..i] == ms;
    if ticker == "" {
      return Failure(TickerError(resp));
    }
    if LastBseIndex(ms).Some? {
      NonEmptyWhenBse(ticker);
    }
    return Success(ticker);
  }

  /** Selection succeeds exactly when the matches are all well formed and one of
      them has `BSE` in its symbol; it then yields the last such symbol, never a
      symbol without `BSE` in it. */
  lemma TickerOfCharacterization(resp: SearchResponse)
    ensures TickerOf(resp).Success? <==>
      resp.bestMatches.Some?
      && (forall k :: 0 <= k < |resp.bestMatches.value| ==> HasSymbol(resp.bestMatches.value[k]))
      && (exists k :: 0 <= k < |resp.bestMatches.value| && IsBse(resp.bestMatches.value[k]))
    ensures TickerOf(resp).Success? ==>
      var ms := resp.bestMatches.value;
      exists j :: 0 <= j < |ms| && IsBse(ms[j]) && TickerOf(resp).value == ms[j][SymbolField]
        && forall k :: j < k < |ms| ==> !IsBse(ms[k])
  {
  }

  /** The test is on the text of the symbol, not on the exchange or region of the
      match: a symbol that merely contains the letters, such as `BSET`, is picked. */
  lemma TickerOfLookalikeSymbol()
    ensures TickerOf(SearchResponse(Some([map[SymbolField := "BSET"]]), map[])) == Success("BSET")
  {
    assert ExchangeMarker <= "BSET";
  }

  // ---------------------------------------------------------------------------
  // Price column relabelling

  /** The first rename, of the five numbered price labels; any other label is kept. */
  function RenamePriceLabel(column: string): (r: string)
    ensures r != column ==> column in UpstreamLabels
    ensures column in UpstreamLabels ==> r in CanonicalColumns && r != "date"
  {
    if column == "1. open" then "open"
    else if column == "2. high" then "high"
    else if column == "3. low" then "low"
    else if column == "4. close" then "close"
    else if column == "5. volume" then "volume"
    else column
  }

  /** The second rename, after `reset_index` has turned the dates into the
      column `index`: that column becomes `date`, any other label is kept. */
  function RenameIndexLabel(column: string): (r: string)
    ensures r != column <==> column == "index"
    ensures column == "index" ==> r == "date"
  {
    if column == "index" then "date" else column
  }

  /** The two renames together, as one table. */
  const ColumnMap: map<string, string> := map[
    "index" := "date", "1. open" := "open", "2. high" := "high",
    "3. low" := "low", "4. close" := "close", "5. volume" := "volume"]

  const UpstreamLabels: seq<string> := ["1. open", "2. high", "3. low", "4. close", "5. volume"]
  const CanonicalColumns: seq<string> := ["date", "open", "high", "low", "close", "volume"]

  /** One date of the daily series: the date key and the field values in label order. */
  datatype DailyBar = DailyBar(date: string, values: seq<string>)

  /** The `Time Series (Daily)` object: its field labels and its dates, in upstream order. */
  datatype RawSeries = RawSeries(labels: seq<string>, days: seq<DailyBar>)

  /** The frame after the renames: its column names and its rows. */
  datatype PriceTable = PriceTable(header: seq<string>, rows: seq<seq<string>>)

  function RelabelledColumn(column: string): string
  {
    RenameIndexLabel(RenamePriceLabel(column))
  }

  /** Transpose, reset the index into a leading column, and rename. */
  function Relabel(raw: RawSeries): (t: PriceTable)
    ensures |t.header| == |raw.labels| + 1 && t.header[0] == "date"
    ensures forall j :: 0 <= j < |raw.labels| ==> t.header[j + 1] == RelabelledColumn(raw.labels[j])
    ensures |t.rows| == |raw.days|
    ensures forall i :: 0 <= i < |raw.days| ==> t.rows[i] == [raw.days[i].date] + raw.days[i].values
  {
    PriceTable(
      [RenameIndexLabel("index")]
        + seq(|raw.labels|, j requires 0 <= j < |raw.labels| => RelabelledColumn(raw.labels[j])),
      seq(|raw.days|, i requires 0 <= i < |raw.days| => [raw.days[i].date] + raw.days[i].values))
  }

  /** The renames map exactly the labels of `ColumnMap` and leave every other label alone. */
  lemma RelabelledColumnIsColumnMap(column: string)
    ensures RelabelledColumn(column) == if column in ColumnMap then ColumnMap[column] else column
  {
  }

  /** With Alpha Vantage's labels the columns are exactly the canonical ones. */
  lemma RelabelUpstream(days: seq<DailyBar>)
    ensures Relabel(RawSeries(UpstreamLabels, days)).header == CanonicalColumns
  {
    var h := Relabel(RawSeries(UpstreamLabels, days)).header;
    forall j | 0 <= j < |CanonicalColumns| ensures h[j] == CanonicalColumns[j] {
      if j > 0 {
        RelabelledColumnIsColumnMap(UpstreamLabels[j - 1]);
      }
    }
  }

  lemma UpstreamColumnIsCanonical(column: string)
    requires column in UpstreamLabels
    ensures RelabelledColumn(column) in CanonicalColumns
  {
  }

  /** The upstream label that is renamed to a canonical price column. */
  function UpstreamLabelOf(c: string): (u: string)
    requires c in CanonicalColumns && c != "date"
    ensures u in UpstreamLabels && RelabelledColumn(u) == c
  {
    if c == "open" then "1. open" else if c == "high" then "2. high"
    else if c == "low" then "3. low" else if c == "close" then "4. close" else "5. volume"
  }

  /** Whatever order the upstream labels come in, as long as they are the five
      Alpha Vantage labels, the columns are exactly date, open, high, low, close, volume. */
  lemma RelabelColumnSet(raw: RawSeries)
    requires forall l :: l in raw.labels <==> l in UpstreamLabels
    ensures forall c :: c in Relabel(raw).header <==> c in CanonicalColumns
  {
    var h := Relabel(raw).header;
    forall c | c in h ensures c in CanonicalColumns {
      var j :| 0 <= j < |h| && h[j] == c;
      if j > 0 {
        UpstreamColumnIsCanonical(raw.labels[j - 1]);
      }
    }
    forall c | c in CanonicalColumns ensures c in h {
      if c != "date" {
        var u := UpstreamLabelOf(c);
        var j :| 0 <= j < |raw.labels| && raw.labels[j] == u;
        assert h[j + 1] == c;
      }
    }
  }

  // ---------------------------------------------------------------------------
  // The tool as a whole

  datatype PriceToolError =
    | TickerNotFound(payload: SearchResponse)  // raised as TypeError(data)
    | MissingTimeSeries                        // KeyError on 'Time Series (Daily)'

  /** `stock_prices_tool` with both HTTP responses supplied: pick the BSE ticker,
      then relabel the daily series fetched for it (None when the response lacks
      the `Time Series (Daily)` key). */
  method StockPricesTool(search: SearchResponse, series: Option<RawSeries>)
    returns (r: Result<PriceTable, PriceToolError>)
    ensures TickerOf(search).Failure? ==> r == Failure(TickerNotFound(search))
    ensures TickerOf(search).Success? && series.None? ==> r == Failure(MissingTimeSeries)
    ensures TickerOf(search).Success? && series.Some? ==> r == Success(Relabel(series.value))
  {
    var ticker := SelectTicker(search);
    if ticker.Failure? {
      return Failure(TickerNotFound(search));
    }
    if series.None? {
      return Failure(MissingTimeSeries);
    }
    return Success(Relabel(series.value));
  }
}
