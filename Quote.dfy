/** The KLSE quote endpoint (`src/pages/api/klse/quote.ts`): it fetches the
    i3investor page of one stock, reads four texts from the page, and turns
    them into a quote record by plain string surgery.
    The HTML fetch and the DOM selectors are outside the model: a page is
    given by the four texts the selectors return, and the fetch by a function
    from the URL to either such a page or the message of the exception it
    threw. The retrieval timestamp is a parameter. */
module Quote {
  import opened JsText

  /** What the four selectors read from the quote page, before trimming; a
      selector that matches nothing reads as the empty string. */
  datatype PageText = PageText(price: string, stockName: string, company: string, change: string)

  datatype Change = Change(amount: Option<string>, percentage: string)

  /** The JSON record the endpoint answers with. */
  datatype StockQuote = StockQuote(
    dateRetrieved: string,
    companyName: string,
    name: Option<string>,
    ticker: Option<string>,
    stockPrice: string,
    change: Change)

  const QuotePagePrefix: string := "https://klse.i3investor.com/servlets/stk/"
  const QuotePageSuffix: string := ".jsp"

  /** The page fetched for a stock number: the number goes into the path as it
      is, without URL encoding. */
  function QuoteUrl(stockNumber: string): (url: string)
    ensures |url| == |QuotePagePrefix| + |stockNumber| + |QuotePageSuffix|
    ensures StartsWith(url, QuotePagePrefix)
    ensures url[|QuotePagePrefix|..|url| - |QuotePageSuffix|] == stockNumber
    ensures url[|url| - |QuotePageSuffix|..] == QuotePageSuffix
  {
    QuotePagePrefix + stockNumber + QuotePageSuffix
  }

  /** Different stock numbers are fetched from different URLs. */
  lemma QuoteUrlInjective(a: string, b: string)
    requires QuoteUrl(a) == QuoteUrl(b)
    ensures a == b
  {
    var u := QuoteUrl(a);
    assert a == u[|QuotePagePrefix|..|u| - |QuotePageSuffix|];
  }

  // ---------------------------------------------------------------------------
  // Tokens of the composite label and of the change text
  // ---------------------------------------------------------------------------

  /** `tok` is the first single-space token of `t`: a space-free prefix of `t`
      that ends at a space or at the end of `t`. */
  predicate IsFirstToken(tok: string, t: string) {
    |tok| <= |t| && t[..|tok|] == tok && ' ' !in tok && (|tok| == |t| || t[|tok|] == ' ')
  }

  /** The first piece of a split is the first token. */
  lemma SplitFirstIsFirstToken(t: string)
    ensures IsFirstToken(Split(t, ' ')[0], t)
  {
    SplitFirst(t, ' ');
  }

  /** `t.split(' ')` with a trimmed `t`: its first token is empty only when `t`
      is. */
  lemma TrimmedFirstToken(t: string)
    requires t == "" || !IsWhiteSpace(t[0])
    ensures Split(t, ' ')[0] == "" <==> t == ""
  {
    SplitFirstEmpty(t, ' ');
  }

  /** `stockName.split(':')[1]`: the text between the first and the second colon
      (or the end), or nothing when the label has no colon. */
  function LabelSegment(stockName: string): (r: Option<string>)
    ensures r.None? <==> ':' !in stockName
    ensures r.Some? ==> ':' !in r.value
  {
    SplitFirst(stockName, ':');
    var parts := Split(stockName, ':');
    if |parts| >= 2 then Some(parts[1]) else None
  }

  /** Where the segment sits in the label: after the first colon, running to
      the next colon or to the end. */
  lemma LabelSegmentLocated(stockName: string) returns (i: nat)
    requires ':' in stockName
    ensures i < |stockName| && stockName[i] == ':' && ':' !in stockName[..i]
    ensures var seg := LabelSegment(stockName).value;
      i + 1 + |seg| <= |stockName| && stockName[i + 1..i + 1 + |seg|] == seg &&
      (i + 1 + |seg| == |stockName| || stockName[i + 1 + |seg|] == ':')
  {
    var parts := Split(stockName, ':');
    assert |parts| >= 2 by {
      SplitFirst(stockName, ':');
    }
    i := |parts[0]|;
    var rest := Join(parts[1..], ':');
    assert stockName == parts[0] + [':'] + rest by {
      JoinSplit(stockName, ':');
      assert Join(parts, ':') == parts[0] + [':'] + rest;
    }
    assert stockName[..i] == parts[0] && stockName[i] == ':' && stockName[i + 1..] == rest;
    assert |parts[1]| <= |rest| && rest[..|parts[1]|] == parts[1]
      && (|parts[1]| == |rest| || rest[|parts[1]|] == ':') by {
      SplitJoin(parts[1..], ':');
      SplitFirst(rest, ':');
    }
    assert stockName[i + 1..i + 1 + |parts[1]|] == rest[..|parts[1]|];
  }

  /** The single-space tokens of the trimmed segment, when there is one. */
  function LabelTokens(stockName: string): (r: Option<seq<string>>)
    ensures r.None? <==> ':' !in stockName
    ensures r.Some? ==> |r.value| >= 1 && Join(r.value, ' ') == Trim(LabelSegment(stockName).value)
    ensures r.Some? ==> forall i :: 0 <= i < |r.value| ==> ' ' !in r.value[i]
  {
    match LabelSegment(stockName)
    case None => None
    case Some(seg) =>
      JoinSplit(Trim(seg), ' ');
      Some(Split(Trim(seg), ' '))
  }

  /** The `name` field: the first single-space token of the trimmed segment,
      null when the label has no colon or the trimmed segment is empty. */
  function ShortName(stockName: string): (r: Option<string>)
    ensures r.None? <==> (':' !in stockName || Trim(LabelSegment(stockName).value) == "")
    ensures r.Some? ==> r.value != "" && IsFirstToken(r.value, Trim(LabelSegment(stockName).value))
  {
    match LabelSegment(stockName)
    case None => None
    case Some(seg) =>
      var t := Trim(seg);
      SplitFirstIsFirstToken(t);
      TrimmedFirstToken(t);
      OrNull(Split(t, ' ')[0])
  }

  /** The `ticker` field: the second single-space token of the trimmed segment
      without its first and last characters; null when there is no such token
      or it has at most two characters. A trimmed segment without a space has
      no second token. */
  function Ticker(stockName: string): (r: Option<string>)
    ensures r.None? <==>
      (':' !in stockName || |LabelTokens(stockName).value| < 2 || |LabelTokens(stockName).value[1]| <= 2)
    ensures ':' in stockName && ' ' !in Trim(LabelSegment(stockName).value) ==> r.None?
    ensures r.Some? ==>
      var tok := LabelTokens(stockName).value[1];
      |r.value| == |tok| - 2 && r.value == tok[1..|tok| - 1]
  {
    match LabelSegment(stockName)
    case None => None
    case Some(seg) =>
      var t := Trim(seg);
      var tokens := Split(t, ' ');
      assert tokens == LabelTokens(stockName).value;
      assert ' ' !in t ==> |tokens| < 2 by {
        SplitFirst(t, ' ');
      }
      if |tokens| < 2 then None
      else
        SliceInner(tokens[1]);
        OrNull(Slice(tokens[1], 1, -1))
  }

  /** The single-space tokens of the trimmed change text. */
  function ChangeTokens(change: string): (r: seq<string>)
    ensures |r| >= 1 && Join(r, ' ') == Trim(change)
    ensures r[0] == "" <==> Trim(change) == ""
    ensures forall i :: 0 <= i < |r| ==> ' ' !in r[i]
  {
    JoinSplit(Trim(change), ' ');
    TrimmedFirstToken(Trim(change));
    Split(Trim(change), ' ')
  }

  /** `change.amount`: the first token of the trimmed change text, null exactly
      when that text is empty. */
  function Amount(change: string): (r: Option<string>)
    ensures r.None? <==> Trim(change) == ""
    ensures r.Some? ==> IsFirstToken(r.value, Trim(change))
  {
    SplitFirstIsFirstToken(Trim(change));
    OrNull(ChangeTokens(change)[0])
  }

  /** `change.percentage`: the first character of the first token followed by
      the second token without its first and last characters. Never null; the
      empty string when the change text is empty. */
  function Percentage(change: string): (r: string)
    ensures Trim(change) == "" ==> r == ""
    ensures Trim(change) != "" ==> |r| >= 1 && r[0] == Trim(change)[0]
    ensures var ts := ChangeTokens(change);
      r[|CharAt0(ts[0])|..] == if |ts| >= 2 && |ts[1]| > 2 then ts[1][1..|ts[1]| - 1] else ""
  {
    var ts := ChangeTokens(change);
    SplitFirst(Trim(change), ' ');
    var sign := CharAt0(ts[0]);
    var second := if |ts| >= 2 then ts[1] else "";
    SliceInner(second);
    var inner := if |ts| >= 2 then Slice(second, 1, -1) else "";
    assert (sign + inner)[|sign|..] == inner;
    sign + inner
  }

  /** The record built from the four page texts. Price and company name pass
      through trimmed and are never null; the label and the change text are
      trimmed before they are split. */
  function BuildQuote(page: PageText, now: string): (q: StockQuote)
    ensures q.dateRetrieved == now
    ensures q.stockPrice == Trim(page.price) && q.companyName == Trim(page.company)
    ensures q.name == ShortName(Trim(page.stockName)) && q.ticker == Ticker(Trim(page.stockName))
    ensures q.change == Change(Amount(page.change), Percentage(page.change))
  {
    var stockName := Trim(page.stockName);
    StockQuote(
      now,
      Trim(page.company),
      ShortName(stockName),
      Ticker(stockName),
      Trim(page.price),
      Change(Amount(page.change), Percentage(page.change)))
  }

  /** The texts that pass through are free of surrounding white space, and the
      percentage is present even when the change text is missing. */
  lemma BuildQuoteShape(page: PageText, now: string)
    ensures var q := BuildQuote(page, now);
      (q.stockPrice == "" || (!IsWhiteSpace(q.stockPrice[0]) && !IsWhiteSpace(q.stockPrice[|q.stockPrice| - 1]))) &&
      (q.companyName == "" || (!IsWhiteSpace(q.companyName[0]) && !IsWhiteSpace(q.companyName[|q.companyName| - 1]))) &&
      (q.change.amount.None? ==> q.change.percentage == "")
  {
  }

  // ---------------------------------------------------------------------------
  // The request handler
  // ---------------------------------------------------------------------------

  /** A query parameter as the framework hands it over: missing, one value, or
      the list of values of a repeated parameter. */
  datatype QueryValue = Absent | One(text: string) | Many(texts: seq<string>)

  /** Truthiness of a query value: the empty string is falsy, a list is not. */
  predicate Present(q: QueryValue) {
    match q
    case Absent => false
    case One(t) => t != ""
    case Many(_) => true
  }

  /** `symbol || id`. */
  function Chosen(symbol: QueryValue, id: QueryValue): (q: QueryValue)
    ensures Present(symbol) ==> q == symbol
    ensures !Present(symbol) ==> q == id
  {
    if Present(symbol) then symbol else id
  }

  /** The identifier as it is pasted into the URL; a list is joined with
      commas, as an array is turned into a string. */
  function AsText(q: QueryValue): (t: string)
    requires Present(q)
    ensures q.One? ==> t == q.text
    ensures q.Many? && |q.texts| > 0 ==> t == Join(q.texts, ',')
    ensures q.Many? && |q.texts| == 0 ==> t == ""
  {
    match q
    case One(t) => t
    case Many(ts) => if |ts| == 0 then "" else Join(ts, ',')
  }

  /** The fetch and parse step: a page, or the message of what it threw. */
  datatype Upstream = Page(text: PageText) | Failed(message: string)

  datatype Body = QuoteBody(quote: StockQuote) | ErrorBody(error: string)
  datatype Response = Response(status: int, body: Body)

  /** One call of the handler: the URLs it fetched and what it answered. */
  datatype Exchange = Exchange(requested: seq<string>, response: Response)

  const MissingIdentifier: string := "Missing symbol or id"
  const GenericFailure: string := "Failed to fetch or parse data"

  /** The handler: 400 without an identifier (and no fetch), otherwise one
      fetch of the quote page and 200 with the quote or 500 with the message
      of the exception, or the generic message when that is empty. */
  function Handle(symbol: QueryValue, id: QueryValue, fetch: string -> Upstream, now: string): (r: Exchange)
    ensures r.response.status == 400 <==> !Present(symbol) && !Present(id)
    ensures r.response.status == 400 ==>
      r.requested == [] && r.response.body == ErrorBody(MissingIdentifier)
    ensures r.response.status != 400 ==>
      var url := QuoteUrl(AsText(Chosen(symbol, id)));
      r.requested == [url] &&
      match fetch(url)
      case Page(text) => r.response == Response(200, QuoteBody(BuildQuote(text, now)))
      case Failed(m) => r.response.status == 500 && r.response.body.ErrorBody? &&
                        (m != "" ==> r.response.body.error == m) &&
                        (m == "" ==> r.response.body.error == GenericFailure)
    ensures r.response.body.ErrorBody? ==> r.response.body.error != ""
  {
    var stockNumber := Chosen(symbol, id);
    if !Present(stockNumber) then
      Exchange([], Response(400, ErrorBody(MissingIdentifier)))
    else
      var url := QuoteUrl(AsText(stockNumber));
      match fetch(url)
      case Page(text) => Exchange([url], Response(200, QuoteBody(BuildQuote(text, now))))
      case Failed(m) => Exchange([url], Response(500, ErrorBody(OrElse(m, GenericFailure))))
  }

  /** When both parameters are given, `symbol` decides the page. */
  lemma SymbolWins(symbol: QueryValue, id: QueryValue, fetch: string -> Upstream, now: string)
    requires Present(symbol)
    ensures Handle(symbol, id, fetch, now).requested == [QuoteUrl(AsText(symbol))]
    ensures Handle(symbol, id, fetch, now) == Handle(symbol, Absent, fetch, now)
  {
  }

  /** An empty `symbol` counts as missing, so `id` is used. */
  lemma EmptySymbolFallsBackToId(id: QueryValue, fetch: string -> Upstream, now: string)
    ensures Handle(One(""), id, fetch, now) == Handle(Absent, id, fetch, now)
  {
  }

  // ---------------------------------------------------------------------------
  // Worked examples
  // ---------------------------------------------------------------------------

  /** A label "a:b" with no other colon has segment `b`. */
  lemma SegmentAfterColon(a: string, b: string)
    requires ':' !in a && ':' !in b
    ensures LabelSegment(a + [':'] + b) == Some(b)
  {
    SplitJoin([a, b], ':');
  }

  /** Two space-free words joined by one space split into those two words. */
  lemma TwoTokens(a: string, b: string)
    requires ' ' !in a && ' ' !in b
    ensures Split(a + [' '] + b, ' ') == [a, b]
  {
    SplitJoin([a, b], ' ');
  }

  /** Trimming a string that has exactly one leading space and nothing to trim
      at its end. */
  lemma TrimOneLeadingSpace(s: string)
    requires |s| >= 2 && s[0] == ' ' && !IsWhiteSpace(s[1]) && !IsWhiteSpace(s[|s| - 1])
    ensures Trim(s) == s[1..]
  {
    assert WhiteSpaceEnd(s, 0) == 1;
  }

  /** A word that the scraper's tokenising leaves whole. */
  predicate IsWord(w: string) {
    w != "" && ' ' !in w && ':' !in w && !IsWhiteSpace(w[0]) && !IsWhiteSpace(w[|w| - 1])
  }

  /** A label "prefix: NAME (CODE)", with a space before the bracketed code,
      gives the name and the code without its brackets. */
  lemma LabelWithSpace(prefix: string, word: string, code: string)
    requires ':' !in prefix && IsWord(word) && IsWord(code)
    ensures ShortName(prefix + ": " + word + " " + code) == Some(word)
    ensures Ticker(prefix + ": " + word + " " + code) ==
      if |code| <= 2 then None else Some(code[1..|code| - 1])
  {
    var name := prefix + ": " + word + " " + code;
    var seg := " " + word + " " + code;
    assert LabelSegment(name) == Some(seg) by {
      assert name == prefix + ": " + (word + " " + code);
      assert seg == " " + (word + " " + code);
      SegmentOfLabel(prefix, word + " " + code);
    }
    assert Split(Trim(seg), ' ') == [word, code] by {
      TrimOfSegment(word, code);
      TwoTokens(word, code);
    }
    SliceInner(code);
  }

  /** The segment of "prefix: REST" is " REST" when `prefix` and `rest` hold
      no colon. */
  lemma SegmentOfLabel(prefix: string, rest: string)
    requires ':' !in prefix && ':' !in rest
    ensures LabelSegment(prefix + ": " + rest) == Some(" " + rest)
  {
    assert prefix + ": " + rest == prefix + [':'] + (" " + rest);
    SegmentAfterColon(prefix, " " + rest);
  }

  /** The segment " NAME CODE" trims to "NAME CODE". */
  lemma TrimOfSegment(word: string, code: string)
    requires IsWord(word) && IsWord(code)
    ensures Trim(" " + word + " " + code) == word + [' '] + code
  {
    var seg := " " + word + " " + code;
    TrimOneLeadingSpace(seg);
    assert seg[1..] == word + [' '] + code;
  }

  /** Without the space before the bracket there is no second token: the name
      keeps the bracketed code and the ticker is null. */
  lemma LabelWithoutSpace(prefix: string, word: string)
    requires ':' !in prefix && IsWord(word)
    ensures ShortName(prefix + ": " + word) == Some(word)
    ensures Ticker(prefix + ": " + word) == None
  {
    var seg := " " + word;
    assert prefix + ": " + word == prefix + [':'] + seg;
    SegmentAfterColon(prefix, seg);
    TrimOneLeadingSpace(seg);
    assert seg[1..] == word;
    SplitFirst(word, ' ');
  }

  /** A change text "AMOUNT (PCT)" gives the amount, and a percentage made of
      the amount's first character and PCT. A PCT that carries its own sign
      therefore comes out with the sign twice. */
  lemma ChangeOfTwoWords(amount: string, bracketed: string)
    requires IsWord(amount) && IsWord(bracketed) && |bracketed| > 2
    ensures Amount(amount + " " + bracketed) == Some(amount)
    ensures Percentage(amount + " " + bracketed) == [amount[0]] + bracketed[1..|bracketed| - 1]
    ensures bracketed[1] == amount[0] ==>
      var p := Percentage(amount + " " + bracketed); |p| >= 2 && p[0] == p[1]
  {
    var text := amount + " " + bracketed;
    assert text == amount + [' '] + bracketed;
    assert Trim(text) == text by {
      TrimOfTrimmed(text);
    }
    assert ChangeTokens(text) == [amount, bracketed] by {
      TwoTokens(amount, bracketed);
    }
    SliceInner(bracketed);
  }
}
