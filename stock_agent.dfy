/**
 * The stock prices worker: table rows of the trending-tickers page become
 * quotes; when none could be scraped, five placeholder quotes stand in.
 */
module StockAgent {
  import opened Wrappers
  import opened Text
  import opened Records
  import opened BaseAgent

  const AgentName := "Stock Prices Agent"
  const Limit := 10
  /** The `limit` of the table-row search. */
  const RowLimit := 10
  const NotAvailable := "N/A"
  const PlaceholderPrice := "N/A - Live data unavailable"
  const PlaceholderNote := "Using Yahoo Finance API requires authentication. Showing placeholder data."

  /** The watch list, in order; the first five are the placeholders. */
  const Watchlist: seq<(string, string)> := [
    ("AAPL", "Apple Inc."),
    ("MSFT", "Microsoft Corp."),
    ("GOOGL", "Alphabet Inc."),
    ("AMZN", "Amazon.com Inc."),
    ("TSLA", "Tesla Inc."),
    ("META", "Meta Platforms"),
    ("NVDA", "NVIDIA Corp."),
    ("JPM", "JPMorgan Chase")
  ]

  /**
   * The run as the worker sees it: either the session opened and the GET of
   * the trending-tickers page had this outcome (a page is its table rows in document order,
   * each the text of its cells), or the outer block raised.
   */
  datatype Session = Opened(trending: Fetch<seq<seq<string>>>) | Broken(message: string)

  /** A row with at least three cells whose symbol is non-empty and whose price is not `N/A` becomes a quote. */
  function RowQuote(cells: seq<string>): Option<Item> {
    if |cells| >= 3 then
      var symbol := cells[0];
      var name := if |cells| > 1 then cells[1] else symbol;
      var price := if |cells| > 2 then cells[2] else NotAvailable;
      var change := if |cells| > 3 then cells[3] else NotAvailable;
      if symbol != "" && price != NotAvailable then Some(Quote(symbol, name, price, change, None)) else None
    else None
  }

  function RowQuotes(rows: seq<seq<string>>): seq<Item>
    decreases |rows|
  {
    if rows == [] then []
    else
      var earlier := RowQuotes(rows[..|rows| - 1]);
      match RowQuote(rows[|rows| - 1])
      case Some(q) => earlier + [q]
      case None => earlier
  }

  function Placeholder(entry: (string, string)): Item {
    Quote(entry.0, entry.1, PlaceholderPrice, NotAvailable, Some(PlaceholderNote))
  }

  function Placeholders(): (ps: seq<Item>)
    ensures |ps| == 5
  {
    seq(5, i requires 0 <= i < 5 => Placeholder(Watchlist[i]))
  }

  /** What was scraped: nothing when the GET raised or did not answer 200. */
  function Scraped(trending: Fetch<seq<seq<string>>>): seq<Item> {
    match trending
    case Exception(_) => []
    case Response(code, rows) => if code == 200 then RowQuotes(Take(rows, RowLimit)) else []
  }

  function ExecuteResult(name: string, session: Session): AgentResult {
    match session
    case Broken(e) => ErrorResult(name, e)
    case Opened(trending) =>
      var quotes := Scraped(trending);
      SuccessResult(name, Take(if quotes != [] then quotes else Placeholders(), Limit))
  }

  /** The loop over the table rows. */
  method ScrapeRows(rows: seq<seq<string>>) returns (quotes: seq<Item>)
    ensures quotes == RowQuotes(rows)
  {
    quotes := [];
    var i := 0;
    while i < |rows|
      invariant 0 <= i <= |rows|
      invariant quotes == RowQuotes(rows[..i])
    {
      assert rows[..i + 1][..i] == rows[..i];
      var cells := rows[i];
      if |cells| >= 3 {
        var symbol := cells[0];
        var name := if |cells| > 1 then cells[1] else symbol;
        var price := if |cells| > 2 then cells[2] else NotAvailable;
        var change := if |cells| > 3 then cells[3] else NotAvailable;
        if symbol != "" && price != NotAvailable {
          assert RowQuote(cells) == Some(Quote(symbol, name, price, change, None));
          quotes := quotes + [Quote(symbol, name, price, change, None)];
        } else {
          assert RowQuote(cells) == None;
        }
      } else {
        assert RowQuote(cells) == None;
      }
      i := i + 1;
    }
    assert rows[..i] == rows;
  }

  /** The loop that appends the first five watch-list entries as placeholders. */
  method AddPlaceholders(quotes0: seq<Item>) returns (quotes: seq<Item>)
    ensures quotes == quotes0 + Placeholders()
  {
    quotes := quotes0;
    var i := 0;
    while i < 5
      invariant 0 <= i <= 5
      invariant quotes == quotes0 + Placeholders()[..i]
    {
      var (symbol, name) := Watchlist[i];
      quotes := quotes + [Quote(symbol, name, PlaceholderPrice, NotAvailable, Some(PlaceholderNote))];
      i := i + 1;
    }
  }

  method NewAgent() returns (agent: Agent)
    ensures fresh(agent) && agent.Valid()
    ensures agent.name == AgentName && agent.status == Ready
  {
    agent := new Agent(AgentName);
  }

  /** `execute`: `working` on entry; a failed scrape is swallowed, only an outer failure ends in `failed`. */
  method Execute(agent: Agent, session: Session) returns (r: AgentResult)
    requires agent.Valid()
    modifies agent
    ensures agent.Valid()
    ensures r == ExecuteResult(agent.name, session)
    ensures agent.status == (if session.Opened? then Completed else Failed)
    ensures agent.trail == old(agent.trail) + [Working, agent.status]
  {
    agent.SetStatus(Working);
    match session {
      case Broken(e) =>
        agent.SetStatus(Failed);
        r := ErrorResult(agent.name, e);
      case Opened(trending) =>
        var stockData: seq<Item> := [];
        match trending {
          case Exception(_) =>
          case Response(code, rows) =>
            if code == 200 {
              stockData := ScrapeRows(Take(rows, RowLimit));
            }
        }
        if stockData == [] {
          stockData := AddPlaceholders(stockData);
        }
        agent.SetStatus(Completed);
        r := SuccessResult(agent.name, Take(stockData, Limit));
    }
  }

  // ---------------------------------------------------------------------
  // Properties

  /** A quote is scraped exactly when some row yields it: at least three cells, a symbol, a price other than `N/A`, and the change from the fourth cell or `N/A`. */
  lemma {:induction false} RowQuotesExact(rows: seq<seq<string>>, q: Item)
    ensures q in RowQuotes(rows) <==> exists i :: 0 <= i < |rows| && RowQuote(rows[i]) == Some(q)
    decreases |rows|
  {
    if rows != [] {
      var n := |rows|;
      var init := rows[..n - 1];
      var last := RowQuote(rows[n - 1]);
      assert RowQuotes(rows) == RowQuotes(init) + (if last.Some? then [last.value] else []);
      RowQuotesExact(init, q);
      if q in RowQuotes(rows) {
        if q in RowQuotes(init) {
          var i :| 0 <= i < |init| && RowQuote(init[i]) == Some(q);
          assert rows[i] == init[i];
        } else {
          assert last == Some(q);
        }
      }
      if exists i :: 0 <= i < n && RowQuote(rows[i]) == Some(q) {
        var i :| 0 <= i < n && RowQuote(rows[i]) == Some(q);
        if i < n - 1 {
          assert init[i] == rows[i];
          assert q in RowQuotes(init);
        } else {
          assert last == Some(q);
        }
        assert q in RowQuotes(rows);
      }
    }
  }

  /** What a kept row becomes. */
  lemma RowQuoteFields(cells: seq<string>)
    ensures RowQuote(cells).Some? <==> |cells| >= 3 && cells[0] != "" && cells[2] != NotAvailable
    ensures RowQuote(cells).Some? ==>
      RowQuote(cells).value == Quote(cells[0], cells[1], cells[2], if |cells| > 3 then cells[3] else NotAvailable, None)
  {
  }

  /** With nothing scraped, the data is exactly AAPL, MSFT, GOOGL, AMZN, TSLA, in that order, as placeholders. */
  lemma PlaceholderSymbols(name: string, trending: Fetch<seq<seq<string>>>)
    requires Scraped(trending) == []
    ensures var d := ExecuteResult(name, Opened(trending)).data;
      |d| == 5 && (forall i :: 0 <= i < 5 ==> d[i].Quote? && d[i].change == NotAvailable && d[i].note == Some(PlaceholderNote))
      && [d[0].symbol, d[1].symbol, d[2].symbol, d[3].symbol, d[4].symbol] == ["AAPL", "MSFT", "GOOGL", "AMZN", "TSLA"]
  {
  }

  /** Once the session is open the worker succeeds with one to ten quotes, whatever the scrape did. */
  lemma OpenedSucceeds(name: string, trending: Fetch<seq<seq<string>>>)
    ensures var r := ExecuteResult(name, Opened(trending));
      r.status == Success && 1 <= |r.data| <= Limit && forall i :: 0 <= i < |r.data| ==> r.data[i].Quote?
  {
    RowQuotesAreQuotes(Scraped(trending), trending);
  }

  lemma RowQuotesAreQuotes(scraped: seq<Item>, trending: Fetch<seq<seq<string>>>)
    requires scraped == Scraped(trending)
    ensures forall i :: 0 <= i < |scraped| ==> scraped[i].Quote?
  {
    if trending.Response? && trending.code == 200 {
      forall i | 0 <= i < |scraped| ensures scraped[i].Quote? {
        RowQuotesExact(Take(trending.page, RowLimit), scraped[i]);
      }
    }
  }

  /** A failure of the page fetch is not an error of the worker: it falls back to the placeholders. */
  lemma ScrapeFailureSwallowed(name: string, message: string)
    ensures ExecuteResult(name, Opened(Exception(message))) == SuccessResult(name, Placeholders())
  {
  }
}
