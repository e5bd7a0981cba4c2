/**
 * The web API's orchestrator: its two renderers, the numbered-line title
 * parser applied to the language-model agents' replies, and the news
 * response built from the workers' own results.
 */
module NewsApi {
  import opened Wrappers
  import opened Text
  import opened Records
  import opened NewsFormat

  const ConfigMissing := "Azure AI configuration missing in .env file"
  const Placeholder := "#"
  const Pattern := "Fan-Out / Fan-In"
  const Execution := "Concurrent (Parallel)"
  const WorkflowAgents := ["BBC News Agent", "TechCrunch Agent"]

  /** `get_bbc_news` */
  method GetBbcNews(outcome: Outcome<AgentResult>) returns (text: string)
    ensures text == Formatted(ApiBbc, outcome)
  {
    text := Format(ApiBbc, outcome);
  }

  /** `get_tech_news` */
  method GetTechNews(outcome: Outcome<AgentResult>) returns (text: string)
    ensures text == Formatted(ApiTech, outcome)
  {
    text := Format(ApiTech, outcome);
  }

  // ---------------------------------------------------------------------
  // The title parser

  /**
   * The parser's test: a line whose first character is a digit and with a
   * `.` among its first five characters. Its non-blank test adds nothing,
   * as `NonBlankImplied` shows.
   */
  predicate Numbered(line: string) {
    line != [] && IsDigit(line[0]) && '.' in Take(line, 5)
  }

  /** A kept line gives the text after its first `.`, stripped, with url `#`. */
  function ParseLine(line: string): (r: Option<NewsArticle>)
    ensures r.Some? <==> Numbered(line)
    ensures r.Some? ==> r.value.url == Placeholder
    ensures r.Some? && r.value.title != [] ==>
      !IsSpace(r.value.title[0]) && !IsSpace(r.value.title[|r.value.title| - 1])
  {
    if Numbered(line) then
      var head := Take(line, 5);
      assert line[IndexOf(head, '.')] == '.';
      Some(Article(Strip(After(line, '.')), Placeholder))
    else None
  }

  function ParseLines(lines: seq<string>): seq<NewsArticle>
    decreases |lines|
  {
    if lines == [] then []
    else match ParseLine(lines[0])
      case Some(a) => [a] + ParseLines(lines[1..])
      case None => ParseLines(lines[1..])
  }

  /** `for line in text.split('\n')`, appending what each kept line gives. */
  method ParseTitles(text: string) returns (articles: seq<NewsArticle>)
    ensures articles == ParseLines(SplitLines(text))
  {
    var lines := SplitLines(text);
    articles := [];
    var i := 0;
    while i < |lines|
      invariant 0 <= i <= |lines|
      invariant articles + ParseLines(lines[i..]) == ParseLines(lines)
    {
      assert lines[i..][1..] == lines[i + 1..];
      var line := lines[i];
      NonBlankImplied(line);
      if Strip(line) != [] && IsDigit(line[0]) && '.' in Take(line, 5) {
        DotWithinLine(line);
        var title := Strip(After(line, '.'));
        assert ParseLine(line) == Some(Article(title, Placeholder));
        articles := articles + [Article(title, Placeholder)];
      } else {
        assert ParseLine(line) == None;
      }
      i := i + 1;
    }
    assert lines[i..] == [];
  }

  /** The parse of an agent's reply, or nothing when the reply has no text. */
  method ParseReply(reply: Option<string>) returns (articles: seq<NewsArticle>)
    ensures reply.None? ==> articles == []
    ensures reply.Some? ==> articles == ParseLines(SplitLines(reply.value))
  {
    articles := [];
    if reply.Some? {
      articles := ParseTitles(reply.value);
    }
  }

  // ---------------------------------------------------------------------
  // The news response

  datatype WorkflowInfo = WorkflowInfo(
    pattern: string,
    agents: seq<string>,
    execution: string,
    bbcCount: nat,
    techCount: nat,
    totalArticles: nat)

  datatype NewsResponse = NewsResponse(status: string, bbcNews: seq<Item>, techNews: seq<Item>, workflowInfo: WorkflowInfo)

  /** The list shown for one worker: its first five items on success, nothing otherwise. */
  function Selection(raw: AgentResult): (r: seq<Item>)
    ensures |r| <= Shown
    ensures raw.status == Success ==> r == Take(raw.data, Shown)
    ensures raw.status == Error ==> r == []
  {
    if raw.status == Success then Take(raw.data, Shown) else []
  }

  function Respond(bbc: seq<Item>, tech: seq<Item>): NewsResponse {
    NewsResponse("success", bbc, tech,
      WorkflowInfo(Pattern, WorkflowAgents, Execution, |bbc|, |tech|, |bbc| + |tech|))
  }

  /**
   * `fetch_all_news`, given whether both Azure settings are present, what
   * the two language-model agents replied (their texts, or the exception of
   * the run), and what the two workers returned when called directly. Every
   * exception becomes an error carrying its text.
   */
  function FetchAll(configured: bool, replies: Outcome<(Option<string>, Option<string>)>,
                    bbcRaw: Outcome<AgentResult>, techRaw: Outcome<AgentResult>): Result<NewsResponse>
  {
    if !configured then Err(ConfigMissing)
    else if replies.Raised? then Err(replies.message)
    else if bbcRaw.Raised? then Err(bbcRaw.message)
    else if techRaw.Raised? then Err(techRaw.message)
    else Ok(Respond(Selection(bbcRaw.value), Selection(techRaw.value)))
  }

  method FetchAllNews(configured: bool, replies: Outcome<(Option<string>, Option<string>)>,
                      bbcRaw: Outcome<AgentResult>, techRaw: Outcome<AgentResult>) returns (r: Result<NewsResponse>)
    ensures r == FetchAll(configured, replies, bbcRaw, techRaw)
  {
    if !configured {
      return Err(ConfigMissing);
    }
    match replies {
      case Raised(e) =>
        return Err(e);
      case Returned(texts) =>
        var bbcArticles := ParseReply(texts.0);
        var techArticles := ParseReply(texts.1);
        match bbcRaw {
          case Raised(e) =>
            return Err(e);
          case Returned(bbc) =>
            match techRaw {
              case Raised(e) =>
                return Err(e);
              case Returned(tech) =>
                var bbcNews := if bbc.status == Success then Take(bbc.data, Shown) else [];
                var techNews := if tech.status == Success then Take(tech.data, Shown) else [];
                r := Ok(NewsResponse("success", bbcNews, techNews,
                  WorkflowInfo(Pattern, WorkflowAgents, Execution, |bbcNews|, |techNews|, |bbcNews| + |techNews|)));
            }
        }
    }
  }

  // ---------------------------------------------------------------------
  // Properties

  /** A missing setting is reported before anything runs (this restates `FetchAll`). */
  lemma ConfigurationFirst(replies: Outcome<(Option<string>, Option<string>)>,
                           bbcRaw: Outcome<AgentResult>, techRaw: Outcome<AgentResult>)
    ensures FetchAll(false, replies, bbcRaw, techRaw) == Err(ConfigMissing)
  {
  }

  /** The counts describe the lists: at most five each, and the total is their sum. */
  lemma WorkflowCounts(configured: bool, replies: Outcome<(Option<string>, Option<string>)>,
                       bbcRaw: Outcome<AgentResult>, techRaw: Outcome<AgentResult>)
    requires FetchAll(configured, replies, bbcRaw, techRaw).Ok?
    ensures var resp := FetchAll(configured, replies, bbcRaw, techRaw).value;
      && resp.status == "success"
      && resp.workflowInfo.bbcCount == |resp.bbcNews| <= Shown
      && resp.workflowInfo.techCount == |resp.techNews| <= Shown
      && resp.workflowInfo.totalArticles == |resp.bbcNews| + |resp.techNews|
      && resp.bbcNews == Selection(bbcRaw.value) && resp.techNews == Selection(techRaw.value)
  {
  }

  /** What the agents replied does not reach the response: the parsed lists are discarded. */
  lemma RepliesDiscarded(r1: (Option<string>, Option<string>), r2: (Option<string>, Option<string>),
                         bbcRaw: Outcome<AgentResult>, techRaw: Outcome<AgentResult>)
    ensures FetchAll(true, Returned(r1), bbcRaw, techRaw) == FetchAll(true, Returned(r2), bbcRaw, techRaw)
  {
  }

  lemma DotWithinLine(line: string)
    requires '.' in Take(line, 5)
    ensures '.' in line
  {
    var head := Take(line, 5);
    assert line[IndexOf(head, '.')] == '.';
  }

  /** The non-blank test of the parser is implied by its digit test. */
  lemma NonBlankImplied(line: string)
    ensures Numbered(line) <==> Strip(line) != [] && line != [] && IsDigit(line[0]) && '.' in Take(line, 5)
  {
    if line != [] && IsDigit(line[0]) {
      StripKeepsFirst(line);
    }
  }

  /** The parse of a concatenation of lines is the concatenation of the parses. */
  lemma {:induction false} ParseLinesAppend(a: seq<string>, b: seq<string>)
    ensures ParseLines(a + b) == ParseLines(a) + ParseLines(b)
    decreases |a|
  {
    if a == [] {
      assert a + b == b;
    } else {
      assert (a + b)[0] == a[0] && (a + b)[1..] == a[1..] + b;
      ParseLinesAppend(a[1..], b);
    }
  }

  /** A title line of entry `n`, for `n` a single digit, parses back to its decorated title, stripped. */
  lemma ParseTitleLine(style: Style, n: nat, a: NewsArticle)
    requires n < 10
    ensures ParseLine(TitleLine(style, n, a)) == Some(Article(Strip(style.titleOpen + a.title + style.titleClose), Placeholder))
  {
    var line := TitleLine(style, n, a);
    var rest := style.titleOpen + a.title + style.titleClose;
    assert line == [DigitChar(n)] + ". " + rest;
    assert line[0] == DigitChar(n) && line[1] == '.';
    StripKeepsFirst(line);
    assert Take(line, 5)[1] == '.';
    assert IndexOf(line, '.') == 1;
    assert After(line, '.') == [' '] + rest;
    StripSkipsSpace(' ', rest);
  }

  /** The titles a renderer's entries carry, as the parser reports them. */
  function ParsedTitles(style: Style, items: seq<NewsArticle>): (r: seq<NewsArticle>)
    ensures |r| == |items|
    decreases |items|
  {
    if items == [] then []
    else
      var k := |items|;
      ParsedTitles(style, items[..k - 1]) + [Article(Strip(style.titleOpen + items[k - 1].title + style.titleClose), Placeholder)]
  }

  /** The three lines of entry `n`, for `n` a single digit, parse to its title alone. */
  lemma ParseEntry(style: Style, n: nat, a: NewsArticle)
    requires WellFormed(style) && n < 10
    ensures ParseLines([TitleLine(style, n, a), LinkLine(style, a), ""]) ==
      [Article(Strip(style.titleOpen + a.title + style.titleClose), Placeholder)]
  {
    var l1, l2 := TitleLine(style, n, a), LinkLine(style, a);
    ParseTitleLine(style, n, a);
    assert l2[0] == style.linkLead[0];
    assert ParseLines([""]) == [] by {
      assert ParseLine("") == None && [""][1..] == [];
    }
    assert ParseLines([l2, ""]) == [] by {
      assert ParseLine(l2) == None && [l2, ""][1..] == [""];
    }
    assert [l1, l2, ""][1..] == [l2, ""];
  }

  /** The `i`-th parsed title comes from the `i`-th shown article. */
  lemma {:induction false} ParsedTitleAt(style: Style, items: seq<NewsArticle>, i: nat)
    requires i < |items|
    ensures ParsedTitles(style, items)[i] == Article(Strip(style.titleOpen + items[i].title + style.titleClose), Placeholder)
    decreases |items|
  {
    var k := |items|;
    if i < k - 1 {
      ParsedTitleAt(style, items[..k - 1], i);
      assert items[..k - 1][i] == items[i];
    }
  }

  lemma {:induction false} ParseEntryLines(style: Style, items: seq<NewsArticle>)
    requires WellFormed(style) && |items| < 10
    ensures ParseLines(EntryLines(style, items)) == ParsedTitles(style, items)
    decreases |items|
  {
    if items != [] {
      var k := |items|;
      var init, last := items[..k - 1], items[k - 1];
      var three := [TitleLine(style, k, last), LinkLine(style, last), ""];
      assert EntryLines(style, items) == EntryLines(style, init) + three;
      ParseEntryLines(style, init);
      ParseLinesAppend(EntryLines(style, init), three);
      ParseEntry(style, k, last);
    }
  }

  /**
   * The parser inverts the renderers: applied to a rendered headline list it
   * finds exactly the shown articles, in order, each with its decorated title
   * stripped and url `#`.
   */
  lemma RenderParseRoundTrip(style: Style, shown: seq<NewsArticle>)
    requires WellFormed(style) && SingleLine(shown) && |shown| <= Shown
    ensures ParseLines(SplitLines(style.header + Entries(style, shown))) == ParsedTitles(style, shown)
  {
    var h := style.header[..|style.header| - 2];
    FormattedLines(style, shown);
    ParseLinesAppend([h, ""], EntryLines(style, shown) + [""]);
    ParseLinesAppend(EntryLines(style, shown), [""]);
    SplitSingleLine(h);
    assert ParseLines([h, ""]) == [];
    ParseEntryLines(style, shown);
    assert [h, ""] + EntryLines(style, shown) + [""] == [h, ""] + (EntryLines(style, shown) + [""]);
  }

  /**
   * For the API's own renderers the parser recovers exactly the shown
   * titles, stripped, in data order, whenever the worker succeeded with
   * single-line articles.
   */
  lemma ApiRoundTrip(r: AgentResult)
    requires Renders(r)
    requires var shown := Take(r.data, Shown); AllArticles(shown) && SingleLine(shown)
    ensures var shown := Take(r.data, Shown);
      && ParseLines(SplitLines(Formatted(ApiBbc, Returned(r)))) == ParsedTitles(ApiBbc, shown)
      && ParseLines(SplitLines(Formatted(ApiTech, Returned(r)))) == ParsedTitles(ApiTech, shown)
      && forall i :: 0 <= i < |shown| ==> ParsedTitles(ApiBbc, shown)[i].title == Strip(shown[i].title)
  {
    var shown: seq<NewsArticle> := Take(r.data, Shown);
    ApiStylesWellFormed();
    RenderParseRoundTrip(ApiBbc, shown);
    RenderParseRoundTrip(ApiTech, shown);
    forall i | 0 <= i < |shown| ensures ParsedTitles(ApiBbc, shown)[i].title == Strip(shown[i].title) {
      ParsedTitleAt(ApiBbc, shown, i);
      assert "" + shown[i].title + "" == shown[i].title;
    }
  }
}
