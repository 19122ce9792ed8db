/** The gold news page (`src/app/news/page.tsx`): the Google Sheets reply is
    stripped of its JSONP-style wrapper, its rows after the header become news
    items, items without a title or a description are dropped and the rest are
    ordered newest first; when the sheet cannot be read a fixed list of five
    sample items is shown instead, with a banner. The search box and the
    category select then filter what is shown.
    The fetch is given as its outcome, `JSON.parse` as a function, the date
    parser as `time` and the ISO formatter of a timestamp as `iso`. */
module News {
  import opened JsText

  // ---------------------------------------------------------------------------
  // Data
  // ---------------------------------------------------------------------------

  /** A cell of the sheet: `{ v: … }`, where `v` may be missing or null. */
  datatype Cell = Cell(v: Option<string>)

  /** A row: `{ c: [...] }`, where `c` may be missing and a cell may be null. */
  datatype Row = Row(c: Option<seq<Option<Cell>>>)

  datatype Table = Table(rows: Option<seq<Option<Row>>>)

  /** The parsed payload; `table` may be missing. */
  datatype SheetResponse = SheetResponse(table: Option<Table>)

  datatype NewsItem = NewsItem(
    id: string,
    title: string,
    description: string,
    url: string,
    publishedAt: string,
    source: string,
    category: Option<string>)

  const GoldNews: string := "Gold News"

  /** Ids start with this prefix for sheet items. */
  const SheetIdPrefix: string := "news-"

  /** Ids start with this prefix for the sample items. */
  const FallbackIdPrefix: string := "fallback"

  // ---------------------------------------------------------------------------
  // Generic list helpers: filtering and order-preserving subsequences
  // ---------------------------------------------------------------------------

  /** `xs` is `ys` with some elements left out, the rest in their order. */
  predicate IsSubsequence<T(==)>(xs: seq<T>, ys: seq<T>)
    decreases |ys|
  {
    if |xs| == 0 then true
    else if |ys| == 0 then false
    else if xs[0] == ys[0] then IsSubsequence(xs[1..], ys[1..])
    else IsSubsequence(xs, ys[1..])
  }

  /** `xs.filter(p)`: the elements satisfying `p`, in order. */
  function Filter<T(!new)>(xs: seq<T>, p: T -> bool): (r: seq<T>)
    ensures |r| <= |xs|
    ensures forall x :: x in r <==> x in xs && p(x)
    ensures forall x :: multiset(r)[x] == if p(x) then multiset(xs)[x] else 0
    decreases |xs|
  {
    if |xs| == 0 then []
    else
      assert xs == [xs[0]] + xs[1..];
      if p(xs[0]) then [xs[0]] + Filter(xs[1..], p)
      else Filter(xs[1..], p)
  }

  lemma {:induction false} SubsequenceOfTail<T>(xs: seq<T>, ys: seq<T>)
    requires |ys| > 0 && IsSubsequence(xs, ys[1..])
    ensures IsSubsequence(xs, ys)
    decreases |xs| + |ys|
  {
    if |xs| > 0 && xs[0] == ys[0] {
      // Matching the first element now instead of later also succeeds.
      SubsequenceDropFirst(xs, ys[1..]);
    }
  }

  lemma {:induction false} SubsequenceDropFirst<T>(xs: seq<T>, ys: seq<T>)
    requires |xs| > 0 && IsSubsequence(xs, ys)
    ensures IsSubsequence(xs[1..], ys)
    decreases |xs| + |ys|
  {
    if xs[0] == ys[0] {
      SubsequenceOfTail(xs[1..], ys);
    } else {
      SubsequenceDropFirst(xs, ys[1..]);
      SubsequenceOfTail(xs[1..], ys);
    }
  }

  /** A filter keeps an order-preserving subsequence. */
  lemma {:induction false} FilterIsSubsequence<T(!new)>(xs: seq<T>, p: T -> bool)
    ensures IsSubsequence(Filter(xs, p), xs)
    decreases |xs|
  {
    if |xs| > 0 {
      FilterIsSubsequence(xs[1..], p);
      if !p(xs[0]) && |Filter(xs, p)| > 0 {
        SubsequenceOfTail(Filter(xs, p), xs);
      }
    }
  }

  /** A filter whose test every element passes keeps the whole list. */
  lemma {:induction false} FilterKeepsAll<T(!new)>(xs: seq<T>, p: T -> bool)
    requires forall i :: 0 <= i < |xs| ==> p(xs[i])
    ensures Filter(xs, p) == xs
    decreases |xs|
  {
    if |xs| > 0 {
      FilterKeepsAll(xs[1..], p);
    }
  }

  /** A filter whose test no element passes keeps nothing. */
  lemma {:induction false} FilterKeepsNone<T(!new)>(xs: seq<T>, p: T -> bool)
    requires forall i :: 0 <= i < |xs| ==> !p(xs[i])
    ensures Filter(xs, p) == []
    decreases |xs|
  {
    if |xs| > 0 {
      FilterKeepsNone(xs[1..], p);
    }
  }

  /** Filters whose tests agree on every element give the same list. */
  lemma {:induction false} FilterSameTest<T(!new)>(xs: seq<T>, p: T -> bool, q: T -> bool)
    requires forall i :: 0 <= i < |xs| ==> p(xs[i]) == q(xs[i])
    ensures Filter(xs, p) == Filter(xs, q)
    decreases |xs|
  {
    if |xs| > 0 {
      FilterSameTest(xs[1..], p, q);
    }
  }

  /** The elements of a subsequence are elements of the list. */
  lemma {:induction false} SubsequenceMembers<T>(xs: seq<T>, ys: seq<T>)
    requires IsSubsequence(xs, ys)
    ensures forall x :: x in xs ==> x in ys
    decreases |ys|
  {
    if |xs| > 0 {
      if xs[0] == ys[0] {
        SubsequenceMembers(xs[1..], ys[1..]);
        assert forall x :: x in xs ==> x == xs[0] || x in xs[1..];
      } else {
        SubsequenceMembers(xs, ys[1..]);
      }
    }
  }

  // ---------------------------------------------------------------------------
  // From the sheet's text to news items
  // ---------------------------------------------------------------------------

  /** `text.substring(47).slice(0, -2)`: Google's wrapper is the first 47 and
      the last 2 characters; a text of at most 49 characters leaves nothing. */
  function StripWrapper(text: string): (r: string)
    ensures |text| <= 49 ==> r == ""
    ensures |text| > 49 ==> r == text[47..|text| - 2]
  {
    SliceDropLastTwo(Substring(text, 47));
    Slice(Substring(text, 47), 0, -2)
  }

  /** `cells[k]?.v || ''`: the text of cell `k`, or the empty string when the
      cell is absent, null, has no value or has an empty one. */
  function CellText(cells: seq<Option<Cell>>, k: nat): (r: string)
    ensures k < |cells| && cells[k].Some? && cells[k].value.v.Some? ==> r == cells[k].value.v.value
    ensures !(k < |cells| && cells[k].Some? && cells[k].value.v.Some?) ==> r == ""
  {
    if k < |cells| && cells[k].Some? && cells[k].value.v.Some? then cells[k].value.v.value else ""
  }

  /** The item the map callback builds from a row and its index among the
      rows after the header. */
  function ItemOf(row: Row, index: nat): NewsItem {
    var cells := if row.c.Some? then row.c.value else [];
    NewsItem(SheetIdPrefix + NatToString(index), CellText(cells, 0), CellText(cells, 3),
             CellText(cells, 1), CellText(cells, 2), GoldNews, None)
  }

  /** The title is the first cell, the url the second, the date the third and
      the description the fourth; the source is always "Gold News", there is no
      category, and the id names the row's index. */
  lemma ItemCells(row: Row, index: nat)
    ensures var item := ItemOf(row, index);
      var cells := if row.c.Some? then row.c.value else [];
      && item.title == CellText(cells, 0) && item.url == CellText(cells, 1)
      && item.publishedAt == CellText(cells, 2) && item.description == CellText(cells, 3)
      && item.source == GoldNews && item.category == None
      && item.id == SheetIdPrefix + NatToString(index)
      && StartsWith(item.id, SheetIdPrefix) && !StartsWith(item.id, FallbackIdPrefix)
  {
    var id := ItemOf(row, index).id;
    assert id[..|SheetIdPrefix|] == SheetIdPrefix;
    assert id[0] == 'n';
  }

  /** Rows of different indices give different ids. */
  lemma ItemIdsDiffer(r1: Row, i: nat, r2: Row, j: nat)
    requires i != j
    ensures ItemOf(r1, i).id != ItemOf(r2, j).id
  {
    if ItemOf(r1, i).id == ItemOf(r2, j).id {
      assert ItemOf(r1, i).id[5..] == NatToString(i);
      assert ItemOf(r2, j).id[5..] == NatToString(j);
      NatToStringInjective(i, j);
    }
  }

  /** `rows.map((row, index) => …)` with indices counted from `start`; a null
      row throws (reading `c` of null), which gives `None`. */
  function MapRows(rows: seq<Option<Row>>, start: nat): (r: Option<seq<NewsItem>>)
    ensures r.Some? <==> forall i :: 0 <= i < |rows| ==> rows[i].Some?
    ensures r.Some? ==> |r.value| == |rows|
    ensures r.Some? ==> forall i :: 0 <= i < |rows| ==> r.value[i] == ItemOf(rows[i].value, start + i)
    decreases |rows|
  {
    if |rows| == 0 then Some([])
    else if rows[0].None? then None
    else
      match MapRows(rows[1..], start + 1)
      case None => None
      case Some(items) =>
        assert forall i :: 1 <= i < |rows| ==> rows[i] == rows[1..][i - 1];
        Some([ItemOf(rows[0].value, start)] + items)
  }

  /** `item.title && item.description`: both non-empty. */
  predicate HasText(item: NewsItem) {
    item.title != "" && item.description != ""
  }

  /** No two items share an id. */
  predicate DistinctIds(items: seq<NewsItem>) {
    forall i, j :: 0 <= i < j < |items| ==> items[i].id != items[j].id
  }

  lemma {:induction false} FilterKeepsDistinctIds(items: seq<NewsItem>, p: NewsItem -> bool)
    requires DistinctIds(items)
    ensures DistinctIds(Filter(items, p))
    decreases |items|
  {
    if |items| > 0 {
      FilterKeepsDistinctIds(items[1..], p);
      var rest := Filter(items[1..], p);
      if p(items[0]) {
        forall k | 0 <= k < |rest|
          ensures rest[k].id != items[0].id
        {
          assert rest[k] in items[1..];
        }
      }
    }
  }

  // ---------------------------------------------------------------------------
  // Newest first
  // ---------------------------------------------------------------------------

  /** Each item is at least as recent as the next, by the time `time` gives
      its publication date. */
  predicate NewestFirst(items: seq<NewsItem>, time: string -> int) {
    forall i :: 0 <= i < |items| - 1 ==> time(items[i + 1].publishedAt) <= time(items[i].publishedAt)
  }

  /** Places `x` before the first item that is not more recent than it, so
      that items of equal time keep their order. */
  function Insert(x: NewsItem, items: seq<NewsItem>, time: string -> int): (r: seq<NewsItem>)
    ensures multiset(r) == multiset(items) + multiset{x}
    ensures |r| == |items| + 1
    ensures NewestFirst(items, time) ==> NewestFirst(r, time)
    ensures |r| > 0 && (r[0] == x || (|items| > 0 && r[0] == items[0]))
    decreases |items|
  {
    if |items| == 0 then [x]
    else if time(items[0].publishedAt) <= time(x.publishedAt) then [x] + items
    else
      var rest := Insert(x, items[1..], time);
      assert items == [items[0]] + items[1..];
      [items[0]] + rest
  }

  /** `items.sort((a, b) => time(b) - time(a))`: a stable sort, newest first. */
  function SortNewest(items: seq<NewsItem>, time: string -> int): (r: seq<NewsItem>)
    ensures multiset(r) == multiset(items)
    ensures |r| == |items|
    ensures NewestFirst(r, time)
    decreases |items|
  {
    if |items| == 0 then []
    else
      assert items == [items[0]] + items[1..];
      Insert(items[0], SortNewest(items[1..], time), time)
  }

  /** A list already newest first is left as it is; so sorting twice is
      sorting once. */
  lemma {:induction false} SortKeepsSorted(items: seq<NewsItem>, time: string -> int)
    requires NewestFirst(items, time)
    ensures SortNewest(items, time) == items
    decreases |items|
  {
    if |items| > 0 {
      SortKeepsSorted(items[1..], time);
      assert items == [items[0]] + items[1..];
    }
  }

  lemma SortIdempotent(items: seq<NewsItem>, time: string -> int)
    ensures SortNewest(SortNewest(items, time), time) == SortNewest(items, time)
  {
    SortKeepsSorted(SortNewest(items, time), time);
  }

  lemma {:induction false} InsertKeepsDistinctIds(x: NewsItem, items: seq<NewsItem>, time: string -> int)
    requires DistinctIds(items)
    requires forall k :: 0 <= k < |items| ==> items[k].id != x.id
    ensures DistinctIds(Insert(x, items, time))
    decreases |items|
  {
    if |items| > 0 && time(items[0].publishedAt) > time(x.publishedAt) {
      InsertKeepsDistinctIds(x, items[1..], time);
      var rest := Insert(x, items[1..], time);
      forall k | 0 <= k < |rest|
        ensures rest[k].id != items[0].id
      {
        assert rest[k] in multiset(rest);
        assert rest[k] == x || rest[k] in items[1..];
      }
    }
  }

  /** Sorting never makes two items share an id. */
  lemma {:induction false} SortKeepsDistinctIds(items: seq<NewsItem>, time: string -> int)
    requires DistinctIds(items)
    ensures DistinctIds(SortNewest(items, time))
    decreases |items|
  {
    if |items| > 0 {
      var rest := SortNewest(items[1..], time);
      SortKeepsDistinctIds(items[1..], time);
      forall k | 0 <= k < |rest|
        ensures rest[k].id != items[0].id
      {
        assert rest[k] in multiset(rest);
        assert rest[k] in items[1..];
      }
      InsertKeepsDistinctIds(items[0], rest, time);
    }
  }

  // ---------------------------------------------------------------------------
  // The sheet pipeline
  // ---------------------------------------------------------------------------

  /** `rows.slice(1).map(…).filter(…).sort(…)`; `None` when a row is null. */
  function SheetNews(rows: seq<Option<Row>>, time: string -> int): (r: Option<seq<NewsItem>>)
    ensures r.Some? ==> NewestFirst(r.value, time)
    ensures r.Some? ==> |r.value| <= (if |rows| == 0 then 0 else |rows| - 1)
    ensures |rows| <= 1 ==> r == Some([])
  {
    SliceDropFirst(rows);
    match MapRows(Slice(rows, 1, |rows|), 0)
    case None => None
    case Some(items) => Some(SortNewest(Filter(items, HasText), time))
  }

  /** Sorting keeps exactly the same items. */
  lemma SortKeepsMembers(items: seq<NewsItem>, time: string -> int)
    ensures forall item :: item in SortNewest(items, time) <==> item in items
  {
    var r := SortNewest(items, time);
    forall item | item in r
      ensures item in items
    {
      assert item in multiset(r);
    }
    forall item | item in items
      ensures item in r
    {
      assert item in multiset(items);
    }
  }

  /** The rows' ids are pairwise distinct. */
  lemma MappedIdsDistinct(rows: seq<Option<Row>>, start: nat)
    requires MapRows(rows, start).Some?
    ensures DistinctIds(MapRows(rows, start).value)
  {
    var mapped := MapRows(rows, start).value;
    forall i, j | 0 <= i < j < |mapped|
      ensures mapped[i].id != mapped[j].id
    {
      MappedPairDiffers(rows, start, i, j);
    }
  }

  /** Two mapped rows at different positions have different ids. */
  lemma MappedPairDiffers(rows: seq<Option<Row>>, start: nat, i: nat, j: nat)
    requires MapRows(rows, start).Some?
    requires i < j < |rows|
    ensures MapRows(rows, start).value[i].id != MapRows(rows, start).value[j].id
  {
    var mapped := MapRows(rows, start).value;
    assert mapped[i] == ItemOf(rows[i].value, start + i);
    assert mapped[j] == ItemOf(rows[j].value, start + j);
    ItemIdsDiffer(rows[i].value, start + i, rows[j].value, start + j);
  }

  /** The sheet pipeline fails exactly when a row after the header is null;
      otherwise its items are those of the rows after the header, the k-th of
      them built from row k + 1 with index k. */
  lemma SheetNewsRows(rows: seq<Option<Row>>, time: string -> int)
    ensures SheetNews(rows, time).None? <==> exists i :: 1 <= i < |rows| && rows[i].None?
    ensures MapRows(Slice(rows, 1, |rows|), 0).Some? ==>
      var mapped := MapRows(Slice(rows, 1, |rows|), 0).value;
      && |mapped| == (if |rows| == 0 then 0 else |rows| - 1)
      && forall k :: 0 <= k < |mapped| ==> mapped[k] == ItemOf(rows[k + 1].value, k)
  {
    SliceDropFirst(rows);
    var body := Slice(rows, 1, |rows|);
    assert forall i :: 1 <= i < |rows| ==> rows[i] == body[i - 1];
  }

  /** What the sheet pipeline promises once it succeeds: an item is kept
      exactly when it has a title and a description, so there are no more
      items than rows after the header; every item is from "Gold News" with no
      category; the items are newest first and their ids are distinct. */
  lemma SheetNewsShape(rows: seq<Option<Row>>, time: string -> int)
    requires forall i :: 1 <= i < |rows| ==> rows[i].Some?
    ensures SheetNews(rows, time).Some?
    ensures var r := SheetNews(rows, time).value;
      var mapped := MapRows(Slice(rows, 1, |rows|), 0).value;
      && |r| <= |mapped| == (if |rows| == 0 then 0 else |rows| - 1)
      && (forall item :: item in r <==> item in mapped && HasText(item))
      && (forall item :: item in r ==> item.source == GoldNews && item.category == None)
      && NewestFirst(r, time)
      && DistinctIds(r)
  {
    SheetNewsRows(rows, time);
    var mapped := MapRows(Slice(rows, 1, |rows|), 0).value;
    var kept := Filter(mapped, HasText);
    MappedIdsDistinct(Slice(rows, 1, |rows|), 0);
    FilterKeepsDistinctIds(mapped, HasText);
    SortKeepsDistinctIds(kept, time);
    SortKeepsMembers(kept, time);
  }

  // ---------------------------------------------------------------------------
  // Searching and the category select
  // ---------------------------------------------------------------------------

  /** The test of `filteredNews`: the lower-cased search term occurs in the
      lower-cased title or description, and the category is "all" or is the
      item's own. */
  predicate Matches(item: NewsItem, searchTerm: string, selectedCategory: string) {
    var needle := ToLowerCase(searchTerm);
    && (Includes(ToLowerCase(item.title), needle) || Includes(ToLowerCase(item.description), needle))
    && (selectedCategory == "all" || item.category == Some(selectedCategory))
  }

  /** `filteredNews`. */
  function FilteredNews(news: seq<NewsItem>, searchTerm: string, selectedCategory: string): (r: seq<NewsItem>)
    ensures IsSubsequence(r, news)
    ensures forall item :: item in r <==> item in news && Matches(item, searchTerm, selectedCategory)
  {
    FilterIsSubsequence(news, item => Matches(item, searchTerm, selectedCategory));
    Filter(news, item => Matches(item, searchTerm, selectedCategory))
  }

  /** A search term matches the way it is written in any case. */
  lemma SearchIgnoresCase(news: seq<NewsItem>, searchTerm: string, selectedCategory: string)
    ensures FilteredNews(news, ToLowerCase(searchTerm), selectedCategory)
         == FilteredNews(news, searchTerm, selectedCategory)
  {
    ToLowerCaseIdempotent(searchTerm);
    FilterSameTest(news, item => Matches(item, ToLowerCase(searchTerm), selectedCategory),
                   item => Matches(item, searchTerm, selectedCategory));
  }

  /** With no search term and "all" selected everything is shown. */
  lemma EmptySearchShowsAll(news: seq<NewsItem>)
    ensures FilteredNews(news, "", "all") == news
  {
    forall i | 0 <= i < |news|
      ensures Matches(news[i], "", "all")
    {
      IncludesEmpty(ToLowerCase(news[i].title));
    }
    FilterKeepsAll(news, item => Matches(item, "", "all"));
  }

  /** Items without a category, such as every sheet item and every sample
      item, are all hidden once a category other than "all" is selected;
      "XAUUSD" in particular shows nothing. */
  lemma CategoryHidesUncategorised(news: seq<NewsItem>, searchTerm: string, selectedCategory: string)
    requires selectedCategory != "all"
    requires forall k :: 0 <= k < |news| ==> news[k].category == None
    ensures FilteredNews(news, searchTerm, selectedCategory) == []
  {
    FilterKeepsNone(news, item => Matches(item, searchTerm, selectedCategory));
  }

  // ---------------------------------------------------------------------------
  // The sample items and the banner
  // ---------------------------------------------------------------------------

  const DayMs: int := 86400000

  const SampleTitles: seq<string> := [
    "Gold Prices Surge Amid Economic Uncertainty",
    "Central Banks Increase Gold Reserves",
    "Gold Mining Stocks Show Strong Performance",
    "Technical Analysis: Gold Support Levels",
    "Gold ETFs See Record Inflows"]

  const SampleDescriptions: seq<string> := [
    "Gold prices have reached new highs as investors seek safe-haven assets during global economic uncertainty. The precious metal continues to show strong performance.",
    "Major central banks around the world are increasing their gold reserves as part of their diversification strategy and risk management approach.",
    "Gold mining companies are experiencing significant growth as gold prices continue to rise, creating opportunities for investors in the sector.",
    "Technical analysts are identifying key support levels for gold prices, suggesting potential entry points for traders and investors.",
    "Gold exchange-traded funds are experiencing record inflows as retail and institutional investors increase their exposure to the precious metal."]

  const SampleUrls: seq<string> := [
    "https://example.com/gold-prices-surge",
    "https://example.com/central-banks-gold",
    "https://example.com/gold-mining-stocks",
    "https://example.com/gold-technical-analysis",
    "https://example.com/gold-etfs-inflows"]

  /** The five sample items shown when the sheet cannot be used: ids
      "fallback-1" to "fallback-5", the k-th (from 0) published k days before
      `nowMs`. */
  function FallbackNews(iso: int -> string, nowMs: int): (r: seq<NewsItem>)
    ensures |r| == 5
    ensures forall k :: 0 <= k < 5 ==>
      && r[k].id == FallbackIdPrefix + "-" + NatToString(k + 1)
      && r[k].publishedAt == iso(nowMs - k * DayMs)
      && r[k].source == GoldNews && r[k].category == None
  {
    seq(5, k requires 0 <= k < 5 =>
      NewsItem(FallbackIdPrefix + "-" + NatToString(k + 1), SampleTitles[k], SampleDescriptions[k],
               SampleUrls[k], iso(nowMs - k * DayMs), GoldNews, None))
  }

  /** The sample ids are distinct and all start with "fallback". */
  lemma FallbackShape(iso: int -> string, nowMs: int)
    ensures DistinctIds(FallbackNews(iso, nowMs))
    ensures forall k :: 0 <= k < 5 ==> StartsWith(FallbackNews(iso, nowMs)[k].id, FallbackIdPrefix)
  {
    var r := FallbackNews(iso, nowMs);
    forall i, j | 0 <= i < j < 5
      ensures r[i].id != r[j].id
    {
      assert r[i].id[9..] == NatToString(i + 1);
      assert r[j].id[9..] == NatToString(j + 1);
    }
    forall k | 0 <= k < 5
      ensures StartsWith(r[k].id, FallbackIdPrefix)
    {
      assert r[k].id[..|FallbackIdPrefix|] == FallbackIdPrefix;
    }
  }

  /** `news.length > 0 && news[0]?.id?.startsWith('fallback')`. */
  predicate ShowsSampleBanner(news: seq<NewsItem>) {
    |news| > 0 && StartsWith(news[0].id, FallbackIdPrefix)
  }

  // ---------------------------------------------------------------------------
  // Loading
  // ---------------------------------------------------------------------------

  /** The outcome of the sheet request: it failed, it answered with a status
      that is not ok, or it answered with this text. */
  datatype SheetReply = Unreachable | NotOk(status: int) | Text(body: string)

  /** The items read from the sheet, or `None` when the request, the parse or
      a row failed, or the payload has no `table.rows`. An empty but present
      list of rows gives an empty list of items. */
  function SheetItems(reply: SheetReply, parse: string -> Option<SheetResponse>,
                      time: string -> int): (r: Option<seq<NewsItem>>)
    ensures !reply.Text? ==> r == None
    ensures reply.Text? ==>
      r == match parse(StripWrapper(reply.body))
           case Some(SheetResponse(Some(Table(Some(rows))))) => SheetNews(rows, time)
           case _ => None
  {
    match reply
    case Text(body) =>
      (match parse(StripWrapper(body))
       case Some(SheetResponse(Some(Table(Some(rows))))) => SheetNews(rows, time)
       case _ => None)
    case _ => None
  }

  /** What the effect leaves in `news`: the sheet's items when it could be
      read, the sample items otherwise. */
  function LoadNews(reply: SheetReply, parse: string -> Option<SheetResponse>, time: string -> int,
                    iso: int -> string, nowMs: int): (news: seq<NewsItem>)
    ensures SheetItems(reply, parse, time).Some? ==> news == SheetItems(reply, parse, time).value
    ensures SheetItems(reply, parse, time).None? ==> news == FallbackNews(iso, nowMs)
  {
    match SheetItems(reply, parse, time)
    case Some(items) => items
    case None => FallbackNews(iso, nowMs)
  }

  /** The banner shows exactly when the sample items are shown. */
  lemma BannerIffFallback(reply: SheetReply, parse: string -> Option<SheetResponse>, time: string -> int,
                          iso: int -> string, nowMs: int)
    ensures ShowsSampleBanner(LoadNews(reply, parse, time, iso, nowMs)) <==> SheetItems(reply, parse, time).None?
  {
    match reply {
      case Text(body) =>
        match parse(StripWrapper(body)) {
          case Some(SheetResponse(Some(Table(Some(rows))))) =>
            if SheetNews(rows, time).Some? {
              SheetNewsRows(rows, time);
              SheetNewsNotSamples(rows, time);
            } else {
              FallbackShowsBanner(iso, nowMs);
            }
          case _ =>
            FallbackShowsBanner(iso, nowMs);
        }
      case _ =>
        FallbackShowsBanner(iso, nowMs);
    }
  }

  /** The sample items bring the banner with them. */
  lemma FallbackShowsBanner(iso: int -> string, nowMs: int)
    ensures ShowsSampleBanner(FallbackNews(iso, nowMs))
  {
    FallbackShape(iso, nowMs);
  }

  /** No item read from the sheet carries a sample id. */
  lemma SheetNewsNotSamples(rows: seq<Option<Row>>, time: string -> int)
    requires forall i :: 1 <= i < |rows| ==> rows[i].Some?
    ensures SheetNews(rows, time).Some?
    ensures forall item :: item in SheetNews(rows, time).value ==> !StartsWith(item.id, FallbackIdPrefix)
  {
    SheetNewsRows(rows, time);
    var mapped := MapRows(Slice(rows, 1, |rows|), 0).value;
    forall item | item in SheetNews(rows, time).value
      ensures !StartsWith(item.id, FallbackIdPrefix)
    {
      assert item in mapped by {
        SheetNewsShape(rows, time);
      }
      var k :| 0 <= k < |mapped| && mapped[k] == item;
      SheetIdNotSample(rows[k + 1].value, k);
    }
  }

  /** An item built from a sheet row does not carry a sample id. */
  lemma SheetIdNotSample(row: Row, index: nat)
    ensures !StartsWith(ItemOf(row, index).id, FallbackIdPrefix)
  {
    ItemCells(row, index);
  }

  /** A sheet whose `rows` hold at most the header is read successfully: it
      gives no news at all, and neither the sample items nor the banner. */
  lemma HeaderOnlySheet(body: string, parse: string -> Option<SheetResponse>, time: string -> int,
                        iso: int -> string, nowMs: int, rows: seq<Option<Row>>)
    requires parse(StripWrapper(body)) == Some(SheetResponse(Some(Table(Some(rows)))))
    requires |rows| <= 1
    ensures LoadNews(Text(body), parse, time, iso, nowMs) == []
    ensures !ShowsSampleBanner(LoadNews(Text(body), parse, time, iso, nowMs))
  {
  }
}
