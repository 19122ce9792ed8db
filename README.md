# stockGen market dashboard: a Dafny model of its data shaping

This project models the parts of the stockGen Next.js dashboard that turn
raw data into what the user sees:

- **The KLSE quote endpoint** (`src/pages/api/klse/quote.ts`). It picks the
  stock identifier from the query (`symbol`, else `id`) and fetches the
  i3investor page of that stock. It trims the four texts it reads from the
  page and splits them into a quote: name, ticker, price, company, and the
  daily change as an amount and a percentage. It answers 400, 200 or 500.
- **The Maybank forecast page** (`src/app/predictions/page.tsx`). It loads two
  forecast payloads and unwraps their optional `Content` JSON string. It
  flattens a table of history prices and decides whether there is anything to
  draw. It then builds the chart series, and the advanced forecast is placed
  on the axis by looking its dates up.
- **The KLSE forecast page** (`src/app/predictions/klse/page.tsx`). It takes
  its symbol from the Bursa watchlist, defaulting to "MYR". It turns every
  field that is not an array into an empty array, except the history prices:
  a non-array there leaves the previous history prices in place. It checks
  lengths before drawing, and the advanced forecast is placed by position.
- **The gold news page** (`src/app/news/page.tsx`). It strips Google's wrapper
  from the sheet reply and turns the rows after the header into news items.
  Items without a title or a description are dropped and the rest are sorted
  newest first. When the sheet cannot be read, five sample items are shown
  with a banner instead. The search box and the category select then filter
  the list.

Every core function is pure, so the model is datatypes, functions and lemmas.
The modules are:

- `JsText`: the JavaScript string operations these files rely on (`split` on
  one character, `trim`, `slice` with negative indices, `substring`,
  `charAt`, `toLowerCase`, `includes`, `startsWith`, and the decimal
  rendering of an index).
- `JsValue`: parsed JSON values, and the few JavaScript operations applied to
  them: truthiness, property reads that throw on null, `v[0]`, `[x] = v`,
  `===` and `indexOf`.
- `Chart`: the chart data shared by both forecast pages.
- `Quote`, `Predictions`, `KlsePredictions` and `News`: one module per
  source file.

The network, `JSON.parse`, the clock and the date parser are parameters.
Each page's effect is a function from the replies it received to the new
state.

Where a plain reading of the intended behaviour differs from the code, the
model follows the code:

- A label "ABC: XYZ(1234)", with no space before the bracket, has no second
  token. Its ticker is null and its name is "XYZ(1234)" (`Quote.LabelWithoutSpace`).
- A change text "+0.05 (+1.2%)" gives the percentage "++1.2%". The sign of the
  amount is put before the bracketed text, which keeps its own sign
  (`Quote.ChangeOfTwoWords`).
- The stock identifier goes into the page URL without URL encoding
  (`Quote.QuoteUrl`).

## Model

| member | source | states |
|---|---|---|
| Quote.QuoteUrl | src/pages/api/klse/quote.ts:6 | the URL is the i3investor prefix, then the stock number as it is (no encoding), then ".jsp" |
| Quote.QuoteUrlInjective | src/pages/api/klse/quote.ts:6 | different stock numbers are fetched from different URLs |
| Quote.LabelSegment | src/pages/api/klse/quote.ts:25 | `split(':')[1]` is missing exactly when the label has no colon; otherwise it has no colon in it |
| Quote.LabelSegmentLocated | src/pages/api/klse/quote.ts:25 | the segment is the text after the first colon, up to the next colon or the end |
| Quote.LabelTokens | src/pages/api/klse/quote.ts:25-26 | the single-space tokens of the trimmed segment join back to it and none holds a space; none when there is no colon |
| Quote.ShortName | src/pages/api/klse/quote.ts:25 | `name` is null iff the label has no colon or the trimmed segment is empty; otherwise it is the non-empty first token of the trimmed segment |
| Quote.Ticker | src/pages/api/klse/quote.ts:26 | `ticker` is null iff there is no colon, no second token, or a second token of at most two characters; otherwise it is that token without its first and last characters; a segment without a space never has a ticker |
| Quote.ChangeTokens | src/pages/api/klse/quote.ts:18 | the tokens of the trimmed change text join back to it and none holds a space; the first is empty iff the text is |
| Quote.Amount | src/pages/api/klse/quote.ts:29 | `change.amount` is null iff the trimmed change text is empty; otherwise it is its first token |
| Quote.Percentage | src/pages/api/klse/quote.ts:30 | `change.percentage` is never null: "" for an empty change; otherwise it starts with the change's first character, followed by the second token without its brackets, or nothing |
| Quote.BuildQuote | src/pages/api/klse/quote.ts:15-34 | the record: the given timestamp, trimmed price and company name, name and ticker from the trimmed label, amount and percentage from the change text |
| Quote.BuildQuoteShape | src/pages/api/klse/quote.ts:15-31 | price and company name carry no surrounding white space; a missing amount comes with an empty percentage |
| Quote.Chosen | src/pages/api/klse/quote.ts:38-39 | `symbol || id`: the symbol when it is truthy, the id otherwise |
| Quote.Present | src/pages/api/klse/quote.ts:40 | a query value is truthy iff it is a repeated parameter or a single non-empty one; a missing parameter and "" are falsy |
| Quote.AsText | src/pages/api/klse/quote.ts:6 | a single query value is pasted as it is; a repeated parameter is pasted as its values joined with commas, and an empty list as the empty string |
| Quote.Handle | src/pages/api/klse/quote.ts:37-47 | 400 with "Missing symbol or id" and no fetch iff neither parameter is truthy; otherwise exactly one fetch of the quote URL, then 200 with the quote, or 500 with the thrown message (the generic message when that is empty); an error body is never empty |
| Quote.SymbolWins | src/pages/api/klse/quote.ts:39 | with a truthy symbol the id is ignored |
| Quote.EmptySymbolFallsBackToId | src/pages/api/klse/quote.ts:39 | an empty symbol counts as missing |
| Quote.LabelWithSpace | src/pages/api/klse/quote.ts:25-26 | "prefix: NAME (CODE)" gives name NAME and ticker CODE without its brackets |
| Quote.LabelWithoutSpace | src/pages/api/klse/quote.ts:25-26 | "prefix: NAME(CODE)" gives name "NAME(CODE)" and a null ticker |
| Quote.ChangeOfTwoWords | src/pages/api/klse/quote.ts:29-30 | "AMOUNT (PCT)" gives amount AMOUNT and percentage AMOUNT[0] + PCT; a signed PCT comes out with the sign doubled |
| JsText.Trim | src/pages/api/klse/quote.ts:15-18 | `trim()` removes exactly a white-space prefix and a white-space suffix, leaving no white space at either end |
| JsText.Split | src/pages/api/klse/quote.ts:18 | `split` on one character gives at least one piece and no piece holds the separator (with `JsText.SplitCount`, two adjacent separators give an empty piece between them) |
| JsText.SplitFirst | src/pages/api/klse/quote.ts:25 | the first piece is the text before the first separator; there is a second piece iff the separator occurs; without it the result is the whole text |
| JsText.SplitCount | src/pages/api/klse/quote.ts:25 | `split` gives exactly one piece more than there are separators |
| JsText.Slice | src/pages/api/klse/quote.ts:26 | `slice(start, end)` resolves negative positions from the end, clamps both to the length, and gives the elements from start up to end, or nothing when end is not past start |
| JsText.Substring | src/app/news/page.tsx:67 | `substring(start)` gives the whole text for a start of at most 0, the suffix from start within the text, and the empty string past its end |
| JsText.ToLowerCase | src/app/news/page.tsx:158-159 | `toLowerCase` keeps the length and lowers each ASCII capital, leaving every other character |
| JsText.Includes | src/app/news/page.tsx:158-159 | `includes`, searched from the left (its meaning is stated by `JsText.IncludesIffOccurs`) |
| JsText.NatToString | src/app/news/page.tsx:76 | `${index}` is a non-empty string of decimal digits with no leading zero |
| JsText.DecimalRoundTrip | src/app/news/page.tsx:76 | the decimal text of an index reads back as that index |
| JsText.JoinSplit | src/pages/api/klse/quote.ts:18 | joining the pieces of `split` with the separator gives the text back |
| JsText.SplitJoin | src/pages/api/klse/quote.ts:25 | splitting separator-free pieces joined by the separator gives the pieces back |
| JsText.IncludesIffOccurs | src/app/news/page.tsx:158-159 | `includes` holds iff the needle occurs at some position |
| JsText.NatToStringInjective | src/app/news/page.tsx:76 | different indices render as different decimal texts |
| JsText.CharAt0 | src/pages/api/klse/quote.ts:30 | `charAt(0)` is "" on the empty text and otherwise the one-character text holding the first character |
| JsText.OrNull | src/pages/api/klse/quote.ts:25-29 | the `or null` fallback is null iff the text is empty, and otherwise the text itself |
| JsText.OrElse | src/pages/api/klse/quote.ts:30 | the `or ''` fallback gives the text when it is non-empty and the fallback exactly when it is empty |
| JsText.StartsWith | src/app/news/page.tsx:407 | `startsWith(prefix)`: the prefix is no longer than the text and the text begins with it |
| JsValue.Truthy | src/app/predictions/page.tsx:49 | `if (data)`: undefined, null, false, 0 and the empty string are falsy, every other value truthy |
| JsValue.Index0 | src/app/predictions/page.tsx:57 | `v[0]` throws exactly on null and undefined; it gives an array's first element, a string's first character, undefined on an empty array or string and on numbers and booleans |
| JsValue.Destructure0 | src/app/predictions/klse/page.tsx:138 | `[price] = v` succeeds exactly on arrays and strings, and on arrays agrees with `v[0]` |
| JsValue.IndexOf | src/app/predictions/page.tsx:137 | `indexOf` gives the first position strictly equal to the value, or -1 exactly when there is none |
| JsValue.Index0VersusDestructure0 | src/app/predictions/klse/page.tsx:138 | `[x] = v` agrees with `v[0]` on arrays and strings and throws where `v[0]` gives a value on numbers, booleans and objects |
| JsValue.Get | src/app/predictions/page.tsx:54-61 | a property read throws a TypeError iff the value is null or undefined; otherwise it gives the field of an object that has it, and undefined for any other value or a missing key |
| JsValue.StrictEquals | src/app/predictions/page.tsx:137 | `===`: undefined, null, booleans, numbers and strings are equal to values of the same kind with the same content; arrays and objects are equal to nothing |
| Predictions.Unwrap | src/app/predictions/page.tsx:48-53 | a falsy payload is kept; a `Content` string that parses replaces the payload; one that does not parse, or no `Content` string, keeps it |
| Predictions.FirstElements | src/app/predictions/page.tsx:57 | `map(v => v[0])` succeeds iff no row is null or undefined; it then keeps the length, and item i is `rows[i][0]` |
| Predictions.FlattenHistory | src/app/predictions/page.tsx:56-60 | a table whose first row is an array is flattened to first elements, and throws iff some row is null; anything else is stored as it is |
| Predictions.IsTable | src/app/predictions/page.tsx:56 | the history test: an array whose first element is itself an array |
| Predictions.ApplyOriginal | src/app/predictions/page.tsx:54-61 | on a null payload it throws before any setter runs; otherwise forecast and dates are set first, then history prices and dates unless flattening throws; the advanced fields are untouched |
| Predictions.ApplyAdvanced | src/app/predictions/page.tsx:75-78 | the advanced payload's four fields are stored as they are; a null payload throws and changes nothing |
| Predictions.Branch | src/app/predictions/page.tsx:42-62 | a rejected fetch, a response that is not ok ("API error" / "API v2 error") or an unreadable body changes nothing and fails; otherwise the unwrapped payload is applied |
| Predictions.Load | src/app/predictions/page.tsx:40-85 | both branches apply their own fields whatever the other does; the error is the one of the branch that failed first, an earlier error is kept on success; loading ends |
| Predictions.OriginalIndependentOfAdvanced | src/app/predictions/page.tsx:40-85 | the original model's fields do not depend on the advanced reply |
| Predictions.AdvancedKeepsOriginal | src/app/predictions/page.tsx:63-79 | the advanced branch, whatever its reply, leaves forecast, dates, history prices and history dates as they were |
| Predictions.AlignByDate | src/app/predictions/page.tsx:136-139 | at each forecast date, the advanced value at the first strictly equal advanced date, or a gap |
| Predictions.HasChartData | src/app/predictions/page.tsx:87-97 | `hasChartData`: the four series are arrays, prices pair with dates and forecast with dates, both non-empty and each holding a number |
| Predictions.HasNumber | src/app/predictions/page.tsx:96 | `some(v => typeof v === 'number')`: some element is a number |
| Predictions.AdvancedReady | src/app/predictions/page.tsx:131 | the advanced line is drawn when the advanced forecast is a non-empty array with as many dates |
| Predictions.ChartDataOf | src/app/predictions/page.tsx:99-159 | the chart is empty iff there is no chart data; every line has one point per label; two lines, or three when the advanced one is ready |
| Predictions.NoDataNoChart | src/app/predictions/page.tsx:87-158 | without chart data the chart is empty |
| Predictions.ChartLinesUp | src/app/predictions/page.tsx:99-157 | every line has one point per label; history prices sit over history dates with gaps after them; forecasts sit over forecast dates after gaps; the advanced line is present iff ready |
| Predictions.AdvancedLine | src/app/predictions/page.tsx:131-152 | the advanced line has gaps over the history, then the date-aligned advanced values, and is as long as the labels |
| Chart.Gaps | src/app/predictions/page.tsx:104 | `Array(n).fill(null)`: exactly n entries, every one of them a gap |
| Predictions.AlignByDateOnSameDates | src/app/predictions/page.tsx:135-140 | with distinct string dates shared by both models, date alignment equals positional placement |
| KlsePredictions.CurrentSymbol | src/app/predictions/klse/page.tsx:51 | the first entry's symbol when it is non-empty, else "MYR"; never empty |
| KlsePredictions.ApiUrl | src/app/predictions/klse/page.tsx:104-105 | the URL is the base, then "/predict/", then the version, then "?symbol=", then the symbol without encoding |
| KlsePredictions.BothUrlsCarrySymbol | src/app/predictions/klse/page.tsx:104-105 | both URLs end with "?symbol=" and the current symbol, and the two URLs differ |
| KlsePredictions.Unwrap | src/app/predictions/klse/page.tsx:116-128 | a null payload throws (no guard); a `Content` string that parses replaces the payload; otherwise the payload is kept |
| KlsePredictions.ArrayOrEmpty | src/app/predictions/klse/page.tsx:129-147 | an array is kept, anything else becomes [] |
| KlsePredictions.FirstItems | src/app/predictions/klse/page.tsx:137-139 | `map(([price]) => price)` succeeds iff every row is an array or a string; it then keeps the length and destructures each row |
| KlsePredictions.NewHistoryPrices | src/app/predictions/klse/page.tsx:132-144 | a non-array leaves the old history; a table is flattened to first items of the same length, and throws iff some row is neither an array nor a string; any other array is taken as it is |
| KlsePredictions.Apply | src/app/predictions/klse/page.tsx:111-153 | the callback succeeds iff both payloads unwrap to non-null values and flattening succeeds, and then sets all six series, ends loading and clears the error; a throw while unwrapping or a null first payload sets nothing; a flattening throw leaves forecast and dates set; a null second payload leaves the four first-model series set |
| KlsePredictions.Payload | src/app/predictions/klse/page.tsx:108-109 | the response status is not looked at: the body, or the rejection |
| KlsePredictions.Load | src/app/predictions/klse/page.tsx:101-157 | a failed request shows the first failure and changes no series; otherwise the payloads are applied and a throw while applying is shown; loading ends |
| KlsePredictions.SuccessfulLoadClearsError | src/app/predictions/klse/page.tsx:148-149 | a load whose callback completes leaves no error |
| KlsePredictions.HasChartData | src/app/predictions/klse/page.tsx:161-167 | `hasChartData`: all four series non-empty, prices as long as their dates, forecast as long as its dates |
| KlsePredictions.AdvancedReady | src/app/predictions/klse/page.tsx:206-210 | the advanced line is drawn when the advanced forecast is non-empty and as long as its own dates and the page's forecast dates |
| KlsePredictions.ChartDataOf | src/app/predictions/klse/page.tsx:169-230 | the chart is empty iff there is no chart data; every line has one point per label; two lines, or three when the advanced one is ready |
| KlsePredictions.NoDataNoChart | src/app/predictions/klse/page.tsx:161-170 | without chart data the chart is empty |
| KlsePredictions.ChartLinesUp | src/app/predictions/klse/page.tsx:169-230 | every line has one point per label; prices over their dates; the advanced value j sits over forecast date j when the advanced line is drawn |
| KlsePredictions.AdvancedDatesIgnored | src/app/predictions/klse/page.tsx:206-210 | the advanced dates are only counted: other dates of the same number give the same chart |
| KlsePredictions.AdvancedNeedsSameLength | src/app/predictions/klse/page.tsx:206-210 | an advanced forecast whose length differs from the forecast dates is not drawn |
| News.Filter | src/app/news/page.tsx:84 | the filter keeps every element that passes the test, as many times as it occurs, and drops every other |
| News.HasText | src/app/news/page.tsx:84 | the kept-item test: both the title and the description are non-empty |
| News.FilterIsSubsequence | src/app/news/page.tsx:157-162 | a filter keeps an order-preserving subsequence |
| News.FilterKeepsAll | src/app/news/page.tsx:157-162 | a filter that every element passes keeps the whole list |
| News.FilterKeepsNone | src/app/news/page.tsx:157-162 | a filter that no element passes keeps nothing |
| News.FilterSameTest | src/app/news/page.tsx:157-162 | filters whose tests agree on the list give the same result |
| News.SubsequenceMembers | src/app/news/page.tsx:157-162 | the elements of a subsequence are elements of the list |
| News.StripWrapper | src/app/news/page.tsx:67 | the text without its first 47 and last 2 characters; "" when it has at most 49 |
| News.CellText | src/app/news/page.tsx:77-80 | the cell's text, or "" when the cell is absent, null or has no value |
| News.ItemCells | src/app/news/page.tsx:74-82 | title is cell 0, url cell 1, date cell 2, description cell 3; source "Gold News"; no category; the id is "news-" followed by the index, so it does not start with "fallback" |
| News.ItemOf | src/app/news/page.tsx:73-83 | the map callback's item for a row and its index (its fields are stated by `News.ItemCells`) |
| News.ItemIdsDiffer | src/app/news/page.tsx:76 | rows of different indices get different ids |
| News.MapRows | src/app/news/page.tsx:73-83 | the map succeeds iff no row is null; item i is built from row i with index start + i |
| News.FilterKeepsDistinctIds | src/app/news/page.tsx:84 | filtering keeps ids distinct |
| News.Insert | src/app/news/page.tsx:85-90 | insertion adds exactly one item and keeps a newest-first list newest first |
| News.SortNewest | src/app/news/page.tsx:85-90 | the sort is a permutation of its input, newest first |
| News.SortKeepsSorted | src/app/news/page.tsx:85-90 | a list already newest first is left unchanged |
| News.SortIdempotent | src/app/news/page.tsx:85-90 | sorting twice is sorting once |
| News.InsertKeepsDistinctIds | src/app/news/page.tsx:85-90 | inserting an item with a new id keeps ids distinct |
| News.SortKeepsDistinctIds | src/app/news/page.tsx:85-90 | sorting keeps ids distinct |
| News.SheetNews | src/app/news/page.tsx:71-90 | `rows.slice(1).map(…).filter(…).sort(…)`: newest first, at most one item per row after the header, empty for a sheet of at most the header (membership and ids in `News.SheetNewsShape`) |
| News.SortKeepsMembers | src/app/news/page.tsx:85-90 | the sorted list has exactly the same items |
| News.MappedIdsDistinct | src/app/news/page.tsx:73-83 | the mapped rows have pairwise distinct ids |
| News.SheetNewsRows | src/app/news/page.tsx:71-83 | the pipeline fails iff a row after the header is null; there is one mapped item per row after the header, item k from row k + 1 with index k |
| News.SheetNewsShape | src/app/news/page.tsx:71-90 | an item is kept iff it has a title and a description, so there are at most rows − 1 items; all are "Gold News" without category, newest first, with distinct ids |
| News.FilteredNews | src/app/news/page.tsx:157-162 | the shown list is a subsequence of the news, and an item is in it iff the lower-cased term occurs in its lower-cased title or description and the category is "all" or its own |
| News.Matches | src/app/news/page.tsx:157-162 | the `filteredNews` test: the lower-cased term occurs in the lower-cased title or description, and the category is "all" or the item's own |
| News.SearchIgnoresCase | src/app/news/page.tsx:158-159 | a search term gives the same result as its lower-cased form |
| News.EmptySearchShowsAll | src/app/news/page.tsx:157-162 | with an empty term and "all" every item is shown |
| News.CategoryHidesUncategorised | src/app/news/page.tsx:160-165 | items without a category, as all sheet and sample items are, are hidden under any category but "all", such as "XAUUSD" |
| News.FallbackNews | src/app/news/page.tsx:100-141 | five sample items, ids "fallback-1" to "fallback-5", the k-th published k days before now, source "Gold News", no category |
| News.FallbackShape | src/app/news/page.tsx:100-141 | the sample ids are distinct and start with "fallback" |
| News.SheetItems | src/app/news/page.tsx:53-94 | a failed request or a status that is not ok gives none; a text reply is stripped of its wrapper and parsed, and gives the pipeline's items exactly when `table.rows` is present, none otherwise |
| News.HeaderOnlySheet | src/app/news/page.tsx:70-93 | a sheet whose rows hold at most the header gives an empty news list, with no sample items and no banner |
| News.LoadNews | src/app/news/page.tsx:43-143 | the news are the sheet's items when the sheet could be read, the sample items otherwise |
| News.ShowsSampleBanner | src/app/news/page.tsx:407 | the banner condition: the list is non-empty and its first id starts with "fallback" |
| News.SheetNewsNotSamples | src/app/news/page.tsx:76 | once every row after the header is present, the sheet pipeline succeeds and none of its ids starts with "fallback" |
| News.BannerIffFallback | src/app/news/page.tsx:407 | the sample-data banner shows iff the sample items are shown |

## Left out

- The HTML fetch, the DOM selectors, `fetch`, `response.json()`, `JSON.parse`, `new Date()`, `Date.now()`, `toISOString` and `new Date(text).getTime()` are not modelled. They are parameters: the page's four texts, the replies, a parse function, a timestamp, an ISO formatter and a date-to-time function.
- Strings are sequences of Unicode code points, while JavaScript counts UTF-16 code units. They agree on text within the Basic Multilingual Plane.
- JsText.ToLowerCase: lower-cases ASCII letters only; JavaScript's `toLowerCase` also maps other scripts, so the search is case-insensitive only on ASCII text here.
- Predictions.AdvancedReady: a truthy non-array advanced forecast or date list (a string, or an object with a `length`) would pass the page's check; the model draws the advanced line only for arrays.
- News.CellText: cell values are strings, as the page's types declare. A numeric cell value would pass through `|| ''` as a number and make the search throw; this is not modelled.
- News.SortNewest: the date parser is a function to whole milliseconds. Unparseable dates give `NaN` in the page and make its comparator inconsistent, and that ordering is not modelled.
- The text of the TypeError an engine throws is engine-specific. The model records that a TypeError was thrown, not its message.
- The KLSE page shows an error as "Failed to fetch predictions: " followed by the failure's message. The model keeps the failure, not the composed text.
- The news page's outer error path ("Failed to load news…") can only be reached if building the sample list throws. The model has no such case.
- `loading` on the news page is not modelled.
- React's rendering, the timing of state updates and `useMemo` are not modelled. The order of two failures is a flag. The base URL from the environment is a parameter.
- The chart options, colours and captions styling, `formatDate`, the sentiment field (never set), and the forex and portfolio pages are not part of this model. The market and theme contexts are not part of this model; the watchlist is an input.
- The machine-learning prediction servers are not part of this model.
