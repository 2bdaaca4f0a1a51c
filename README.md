# Stock signal agent: the deterministic core

`Stock_signal_agent.py` asks a language model for a short list of blue-chip BSE
stocks. It lets a tool-calling agent look up prices and news for the first one
and emails the agent's recommendation. Almost all of that is I/O. This project
models the deterministic string and sequence work inside it. The I/O results are
passed in as plain values.

- `MarketData` (`stock_prices_tool`):
  - the `%20` encoding of the stock name in the symbol-search URL;
  - the scan that keeps the last match whose symbol contains `BSE`;
  - the relabelling of the daily price columns to `date, open, high, low, close, volume`.
- `News` (`financial_news_tool`): the cap of five articles, the `title + "\n\n" + body`
  rendering, the `**Article i**:` headings and the `"\n\n\n"` join.
- `CandidateSelector`: the span from the first `{` to the first `}` of the model's
  reply, and the lookup of `blue_chip_stocks` in the parsed literal.
- `Report`: the fixed header, one section per processed candidate (only the first
  one is processed), and the whole run (`RunPipeline`).
- `Text`: Python's `in` on strings, `str.index`, `str.join` and decimal rendering.
- `Wrappers`: the `Option` and `Result` types. Each exception the script raises is
  a `Failure`.

Five behaviours of the script are easy to miss:

- The candidate span is not a balanced-brace match. It runs from the first `{` to
  the first `}`, so nested objects are cut short (`CandidateSelector.ExtractSpanNested`).
- The report always starts with the header
  `"Here are some stock trading recommendations for today: \n\n"`. A single
  candidate "Tata Motors" answered with "Buy" therefore gives the header followed
  by `"Tata Motors:\n\nBuy\n\n\n"`.
- News headings are `**Article i**:`, with asterisks.
- The BSE test is on the text of the symbol (`'BSE' in match['1. symbol']`), not on
  the match's exchange or region field. A symbol that merely contains those letters,
  such as `BSET`, is picked (`MarketData.TickerOfLookalikeSymbol`).
- A failed BSE lookup raises `TypeError(data)`, carrying the whole decoded search
  response. A match without a `1. symbol` field fails the same way. So does a
  response without `bestMatches`.

## Model

| member | source | states |
|---|---|---|
| Text.ContainsIffOccurs | Stock_signal_agent.py:48 | the substring test used for `'BSE' in symbol` holds exactly when the text occurs at some position |
| Text.Contains | Stock_signal_agent.py:48 | Python's `sub in s`; a text can only occur in a string at least as long |
| Text.IndexOf | Stock_signal_agent.py:176-177 | `str.index`: None exactly when the character is absent; otherwise the position holds the character and no earlier position does |
| Text.IndexOfFirst | Stock_signal_agent.py:176-177 | a position holding the character with none before it is exactly what `str.index` returns |
| Text.Join | Stock_signal_agent.py:113-116 | `sep.join`: the empty list gives the empty string, and a non-empty join starts with its first element |
| Text.JoinPrefix | Stock_signal_agent.py:211-212 | joining the first k elements gives a prefix of joining all of them |
| Text.JoinEmptySeparatorSnoc | Stock_signal_agent.py:211-212 | with no separator, one more element is appended at the end, as `+=` does |
| Text.JoinCons | Stock_signal_agent.py:116 | `sep.join` of a non-empty list puts the first element first, then the separator, then the join of the rest |
| Text.NatToString | Stock_signal_agent.py:116 | the rendered article number is a non-empty string of decimal digits with no leading zero |
| Text.DecimalRoundTrip | Stock_signal_agent.py:116 | reading the rendered digits back gives the article number |
| MarketData.EncodeKeyword | Stock_signal_agent.py:38 | the encoded keyword contains no space |
| MarketData.EncodeKeywordConcat | Stock_signal_agent.py:38 | the encoding works character by character: it distributes over concatenation |
| MarketData.EncodeKeywordChar | Stock_signal_agent.py:38 | a space becomes exactly `%20`; any other character is kept |
| MarketData.EncodeKeywordLength | Stock_signal_agent.py:38 | each space grows the keyword by two characters; nothing else changes its length |
| MarketData.DecodeEncodeKeyword | Stock_signal_agent.py:38 | for a name without `%`, turning `%20` back into spaces restores the name, so every other character is unchanged and in order |
| MarketData.SymbolSearchUrl | Stock_signal_agent.py:38 | the URL starts with the symbol-search endpoint; the keyword parameter holds the encoded name and contains no space |
| MarketData.HasSymbol | Stock_signal_agent.py:48 | the match has a `1. symbol` field; when it does not, `match['1. symbol']` raises `KeyError` |
| MarketData.IsBse | Stock_signal_agent.py:48 | the test `'BSE' in match['1. symbol']` on a match that has the field |
| MarketData.LastBseIndex | Stock_signal_agent.py:46-49 | the chosen position holds a match whose symbol contains `BSE`, and no later match does; None exactly when no match does |
| MarketData.TickerOf | Stock_signal_agent.py:46-54 | specification of the lookup: a returned symbol contains `BSE`, and a failure carries the whole search response, `bestMatches` and every other top-level entry; TickerOfCharacterization gives the full if-and-only-if |
| MarketData.NonEmptyWhenBse | Stock_signal_agent.py:51 | a symbol containing `BSE` is never empty, so the `stock_ticker == ''` test detects exactly "no BSE match" |
| MarketData.SelectTicker | Stock_signal_agent.py:45-54 | the scan has no `break`: it returns the symbol of the last BSE match, which always contains `BSE`; a match without `1. symbol` ends the scan with a failure, as the `KeyError` does; every failure carries the whole search response |
| MarketData.TickerOfCharacterization | Stock_signal_agent.py:46-54 | selection succeeds if and only if `bestMatches` is present, every match has a symbol and some symbol contains `BSE`; it then returns the last such symbol, never a symbol without `BSE` in it |
| MarketData.TickerOfLookalikeSymbol | Stock_signal_agent.py:48 | the test is on the symbol's text: the lone match `BSET` is selected |
| MarketData.RenamePriceLabel | Stock_signal_agent.py:68 | only the five numbered Alpha Vantage labels are renamed, each to a canonical price column other than `date` |
| MarketData.RenameIndexLabel | Stock_signal_agent.py:69-70 | after `reset_index`, a label changes exactly when it is `index`, and `index` becomes `date` |
| MarketData.RelabelledColumn | Stock_signal_agent.py:68-70 | the rename of line 68 followed by that of line 70; RelabelledColumnIsColumnMap proves it equals the six-entry table |
| MarketData.Relabel | Stock_signal_agent.py:67-70 | the header is `date` followed by each upstream label renamed; the rows keep the upstream count and order, each being its date followed by its values |
| MarketData.RelabelledColumnIsColumnMap | Stock_signal_agent.py:68-70 | the two renames map exactly index to date and `1. open` ... `5. volume` to open ... volume, and leave every other label unchanged |
| MarketData.RelabelUpstream | Stock_signal_agent.py:68-70 | with Alpha Vantage's five labels the header is exactly `date, open, high, low, close, volume` |
| MarketData.RelabelColumnSet | Stock_signal_agent.py:68-70 | whatever order the five upstream labels come in, the columns are exactly date, open, high, low, close and volume |
| MarketData.StockPricesTool | Stock_signal_agent.py:45-70 | a failed ticker lookup fails with the whole search response; a missing `Time Series (Daily)` key fails; otherwise the result is the relabelled series |
| News.Capped | Stock_signal_agent.py:107 | the query yields at most five articles: the first five, in order |
| News.ArticleText | Stock_signal_agent.py:111-113 | an article renders as its title, a blank line and its body |
| News.RenderedArticles | Stock_signal_agent.py:105-114 | the contents `article_list` ends with: the rendered text of each article the capped query yields, in order; CollectArticles is proved to build it |
| News.CollectArticles | Stock_signal_agent.py:105-114 | the list holds at most five entries; entry i is the rendered i-th returned article |
| News.SectionHeading | Stock_signal_agent.py:116 | the `**Article n**:` heading followed by a blank line; SectionHeadingNumber proves it carries n |
| News.Sections | Stock_signal_agent.py:116 | the comprehension that numbers the articles from 1 in list order; its properties are NewsBundleSections and FormatBundleSnoc |
| News.FormatBundle | Stock_signal_agent.py:116 | the `"\n\n\n"` join of the numbered sections; its properties are FormatBundleEmpty, FormatBundleSnoc and FormatBundleStartsWithFirst |
| News.FinancialNewsTool | Stock_signal_agent.py:105-118 | the tool's text is the formatted bundle of the rendered capped articles |
| News.FormatBundleEmpty | Stock_signal_agent.py:116 | no articles give the empty string |
| News.FormatBundleSingle | Stock_signal_agent.py:116 | a single article gives its section alone, `**Article 1**:\n\n` followed by the article, with no separator |
| News.FormatBundleSnoc | Stock_signal_agent.py:116 | one more article adds exactly one `"\n\n\n"` and the next consecutively numbered section |
| News.FormatBundleStartsWithFirst | Stock_signal_agent.py:116 | a non-empty bundle opens with `**Article 1**:` and the first article |
| News.SectionHeadingNumber | Stock_signal_agent.py:116 | the heading of section n holds the decimal digits of n between `**Article ` and `**:` |
| News.NewsBundleSections | Stock_signal_agent.py:107-116 | there are at most five sections; section i (from 1) is its heading, then title, blank line and body of the i-th returned article |
| CandidateSelector.Slice | Stock_signal_agent.py:179 | Python slicing: empty when the end is not after the start, the plain subsequence otherwise |
| CandidateSelector.ExtractSpan | Stock_signal_agent.py:176-179 | extraction fails if and only if the reply lacks `{` or lacks `}`; a missing `{` is reported first |
| CandidateSelector.ExtractSpanShape | Stock_signal_agent.py:176-179 | the span is reply[first `{` .. first `}`] inclusive: it opens with `{`, closes with `}` and holds no other `}`; if the first `}` comes before the first `{`, the span is empty |
| CandidateSelector.CandidateList | Stock_signal_agent.py:176-181 | the list is returned exactly when the span exists, is not empty, parses and has a `blue_chip_stocks` entry, and it is that entry; no braces means failure, and the empty span always fails because `literal_eval('')` raises |
| CandidateSelector.CandidateListCloseBeforeOpen | Stock_signal_agent.py:176-181 | a reply whose first `}` comes before its first `{` makes candidate selection fail, whatever the parser |
| CandidateSelector.CandidateListInProse | Stock_signal_agent.py:174-179 | the reply `Sure! {"blue_chip_stocks": ["A","B"]} Let me know more.` yields ["A", "B"] |
| CandidateSelector.ExtractSpanNested | Stock_signal_agent.py:176-179 | `{"a": {"b": 1}}` yields the unbalanced span `{"a": {"b": 1}` |
| Report.Processed | Stock_signal_agent.py:184 | only the first candidate is visited, if there is one |
| Report.Section | Stock_signal_agent.py:209-212 | each section starts with the candidate's name and a colon |
| Report.SectionsOf | Stock_signal_agent.py:184-212 | the section of each visited candidate, in visiting order; ReportShape and ReportOrder state its properties |
| Report.ReportText | Stock_signal_agent.py:183-212 | the header followed by the sections with nothing in between; ReportShape, ReportPrefix and ReportOrder state its properties |
| Report.AssembleReport | Stock_signal_agent.py:183-212 | the `+=` loop builds the header followed by the sections of the visited candidates, in order |
| Report.ReportShape | Stock_signal_agent.py:183-212 | the report begins with the header and has exactly min(1, number of candidates) sections; with a candidate it is the header plus that candidate's section |
| Report.ReportPrefix | Stock_signal_agent.py:211-212 | the report only grows: the report after k candidates is a prefix of the final one |
| Report.ReportOrder | Stock_signal_agent.py:209-212 | the `+=` step keeps candidate order: over an explicit list of two names X and Y, X's section comes right after the header and Y's after it. The program itself runs the step on at most one name, because of `[:1]` at line 184 |
| Report.ReportSingleCandidate | Stock_signal_agent.py:183-212 | candidate "Tata Motors" answered with "Buy" gives the header followed by `Tata Motors:\n\nBuy\n\n\n` |
| Report.RunPipeline | Stock_signal_agent.py:172-214 | the run fails exactly when candidate selection fails and then produces no report; otherwise the report is built over the processed candidates. The failures of `StockPricesTool` itself (the `TypeError(data)` of line 54, the `KeyError` of line 65) are agent exceptions that escape `AgentExecutor` and end the run; they are not modelled (see below) |

## Left out

- HTTP requests to Alpha Vantage (lines 40-41 and 58-59): network I/O. The decoded responses are parameters. A failed first request (lines 42-43) leaves `data` undefined, and the run crashes with a `NameError` at line 54. That path is not modelled. A failed time-series request (lines 60-61) leaves `data` holding the symbol-search response. The lookup of `Time Series (Daily)` at line 65 then raises `KeyError`. That is the model's `series == None` case, which gives `MissingTimeSeries`.
- Search responses: the top-level entries other than `bestMatches` are kept as text (`others`). One whose value is not a string is outside the model; Alpha Vantage's `Information`, `Note` and `Error Message` entries are strings.
- The time-series request URL (line 57): request building for a network call. The ticker goes into it unencoded.
- The EventRegistry client and query (lines 84-104): a foreign library. Only the cap of five and the formatting of the returned articles are modelled. The `except` branch at lines 119-120 returns None after a library failure and is not modelled.
- `pd.DataFrame(...).T` and `to_markdown` (lines 67 and 72): pandas rendering. Only the column labels and the row order are modelled.
- MarketData.Relabel: does not model pandas' `reset_index` naming the new column `level_0` when a column called `index` already exists, because Alpha Vantage never sends such a label.
- `AzureChatOpenAI`, `bind_tools`, `create_tool_calling_agent` and `AgentExecutor` (lines 152-205): the tool-calling loop, its iteration bound and its transcript live in LangChain, which is not part of this model. The agent's output is the function `agent` from candidate name to output text. An exception raised by the agent is not modelled.
- `ast.literal_eval` (line 179): a Python literal parser. It is the parameter `parse`. For a text that parses to a dictionary, `parse` returns its entries whose values are lists of strings. Other entries are dropped, so `{"blue_chip_stocks": ["A"], "note": "x"}` still gives ["A"]. For any other text it returns None. The empty span is handled apart from `parse`: it always fails, as `literal_eval('')` does (`parse("")` is never consulted).
- CandidateSelector.CandidateList: a `blue_chip_stocks` entry whose value is not a list of strings counts as a missing key. In Python the run goes on with that value. A tuple of strings runs exactly as a list would. A plain string makes the loop at line 184 run on its first character. A list of non-strings fails at line 209 (`stock_name + ":"`).
- SMTP delivery, the `date.today()` subject line and the `load_dotenv`/`os.getenv` credential loading (lines 23, 123-139, 147-150): I/O and environment access.
- The `print` calls (lines 39, 43, 61, 120, 185): logging only.
