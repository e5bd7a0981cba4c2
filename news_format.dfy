/**
 * The numbered-headline renderers handed to the language-model agents as
 * tools. Five copies exist in the repository; they differ only in their
 * fixed texts, which a `Style` collects:
 * - the web API's BBC and technology renderers (plain titles, a link emoji);
 * - the BBC renderer shared by the news, tools and key-based concurrent demos
 *   (bold titles, `Link:`).
 * The worker call they wrap is an input: the worker's result, or the text
 * of an exception it raised.
 */
module NewsFormat {
  import opened Wrappers
  import opened Text
  import opened Records

  /** At most this many entries are rendered. */
  const Shown := 5
  const UnknownError := "Unknown error"
  /** `str(KeyError('title'))`, what formatting an entry without a title raises. */
  const MissingTitle := "'title'"

  /**
   * The fixed texts of one renderer: the header, what surrounds a title,
   * what precedes a url, and the leads of the failure and exception texts.
   */
  datatype Style = Style(
    header: string,
    titleOpen: string,
    titleClose: string,
    linkLead: string,
    failLead: string,
    raisedLead: string)

  /** The web API's `get_bbc_news`. */
  const ApiBbc := Style("\U{1F4F0} **BBC News Headlines:**\n\n", "", "", "   \U{1F517} ",
                        "Could not fetch BBC news: ", "Error fetching BBC news: ")
  /** The web API's `get_tech_news`. */
  const ApiTech := Style("\U{1F4BB} **Technology News:**\n\n", "", "", "   \U{1F517} ",
                         "Could not fetch tech news: ", "Error fetching tech news: ")
  /** The `get_bbc_news` of the news, tools and key-based concurrent demos. */
  const Sorry := Style("Here are the latest BBC news articles:\n\n", "**", "**", "   Link: ",
                       "Sorry, I couldn't fetch news at the moment. Error: ", "Error fetching news: ")

  /** The numbered line of entry `n`. */
  function TitleLine(style: Style, n: nat, a: NewsArticle): string {
    NatToString(n) + ". " + style.titleOpen + a.title + style.titleClose
  }

  /** The indented link line of an entry. */
  function LinkLine(style: Style, a: NewsArticle): string {
    style.linkLead + a.url
  }

  /** One entry: its numbered title line, its link line and a blank line. */
  function Entry(style: Style, n: nat, a: NewsArticle): string {
    TitleLine(style, n, a) + "\n" + LinkLine(style, a) + "\n\n"
  }

  /** The entries of `items`, numbered from 1 in order. */
  function Entries(style: Style, items: seq<NewsArticle>): string
    decreases |items|
  {
    if items == [] then ""
    else Entries(style, items[..|items| - 1]) + Entry(style, |items|, items[|items| - 1])
  }

  predicate AllArticles(items: seq<Item>) {
    forall i :: 0 <= i < |items| ==> items[i].Article?
  }

  /** Whether the worker's result is rendered as headlines: a success with some data. */
  predicate Renders(r: AgentResult) {
    r.status == Success && r.data != []
  }

  /**
   * The text a renderer returns:
   * - the exception lead and text when the worker raised;
   * - the header and the first five entries for a success with data, or the
   *   exception text of the missing `title` key when one of those is not an article;
   * - otherwise the failure lead and the worker's message, or `Unknown error`.
   */
  function Formatted(style: Style, outcome: Outcome<AgentResult>): (text: string)
    ensures outcome.Raised? ==> text == style.raisedLead + outcome.message
    ensures outcome.Returned? && !Renders(outcome.value) ==>
      text == style.failLead + outcome.value.message.GetOr(UnknownError)
    ensures outcome.Returned? && Renders(outcome.value) && AllArticles(Take(outcome.value.data, Shown)) ==>
      StartsWith(text, style.header)
    ensures outcome.Returned? && Renders(outcome.value) && !AllArticles(Take(outcome.value.data, Shown)) ==>
      text == style.raisedLead + MissingTitle
  {
    match outcome
    case Raised(e) => style.raisedLead + e
    case Returned(r) =>
      if Renders(r) then
        var shown := Take(r.data, Shown);
        if AllArticles(shown) then style.header + Entries(style, shown)
        else style.raisedLead + MissingTitle
      else style.failLead + r.message.GetOr(UnknownError)
  }

  /** The renderer: `news_text +=` over `enumerate(result['data'][:5], 1)`. */
  method Format(style: Style, outcome: Outcome<AgentResult>) returns (text: string)
    ensures text == Formatted(style, outcome)
  {
    match outcome {
      case Raised(e) =>
        text := style.raisedLead + e;
      case Returned(r) =>
        if r.status == Success && r.data != [] {
          text := RenderShown(style, Take(r.data, Shown));
        } else {
          text := style.failLead + r.message.GetOr(UnknownError);
        }
    }
  }

  /** The loop of the renderer over the shown items; an item without a title ends it with the exception text. */
  method RenderShown(style: Style, shown: seq<Item>) returns (text: string)
    ensures AllArticles(shown) ==> text == style.header + Entries(style, shown)
    ensures !AllArticles(shown) ==> text == style.raisedLead + MissingTitle
  {
    text := style.header;
    ghost var done: seq<NewsArticle> := [];
    var i := 0;
    while i < |shown|
      invariant 0 <= i <= |shown|
      invariant |done| == i && forall j :: 0 <= j < i ==> done[j] == shown[j]
      invariant text == style.header + Entries(style, done)
    {
      if !shown[i].Article? {
        assert !AllArticles(shown);
        return style.raisedLead + MissingTitle;
      }
      var a: NewsArticle := shown[i];
      text := text + TitleLine(style, i + 1, a) + "\n";
      text := text + LinkLine(style, a) + "\n\n";
      RenderStep(style, done, a);
      done := done + [a];
      i := i + 1;
    }
    assert done == shown;
  }

  /** The two appends of one loop round extend the rendered text by the next entry. */
  lemma RenderStep(style: Style, done: seq<NewsArticle>, a: NewsArticle)
    ensures style.header + Entries(style, done) + TitleLine(style, |done| + 1, a) + "\n" + LinkLine(style, a) + "\n\n"
         == style.header + Entries(style, done + [a])
  {
    EntriesSnoc(style, done, a);
    ConcatAssoc(style.header, Entries(style, done), Entry(style, |done| + 1, a));
  }

  /** Rendering one more item appends its entry, numbered after the others. */
  lemma EntriesSnoc(style: Style, items: seq<NewsArticle>, a: NewsArticle)
    ensures Entries(style, items + [a]) == Entries(style, items) + Entry(style, |items| + 1, a)
  {
    assert (items + [a])[..|items|] == items;
  }

  // ---------------------------------------------------------------------
  // Properties

  /**
   * The fixed texts keep the line structure readable: the header is one line
   * that does not start with a digit followed by a blank line, title
   * decorations and the link lead hold no line feed, and the link lead starts
   * with something other than a digit.
   */
  predicate WellFormed(style: Style) {
    && |style.header| >= 2
    && style.header[|style.header| - 2..] == "\n\n"
    && '\n' !in style.header[..|style.header| - 2]
    && (|style.header| > 2 ==> !IsDigit(style.header[0]))
    && '\n' !in style.titleOpen && '\n' !in style.titleClose
    && '\n' !in style.linkLead && style.linkLead != [] && !IsDigit(style.linkLead[0])
  }

  lemma ApiStylesWellFormed()
    ensures WellFormed(ApiBbc) && WellFormed(ApiTech)
  {
  }

  lemma SorryWellFormed()
    ensures WellFormed(Sorry)
  {
  }

  /** Titles and urls that fit on one line. */
  predicate SingleLine(items: seq<NewsArticle>) {
    forall i :: 0 <= i < |items| ==> '\n' !in items[i].title && '\n' !in items[i].url
  }

  /** The lines of the entries of `items`: title line, link line and blank line, for each. */
  function EntryLines(style: Style, items: seq<NewsArticle>): (lines: seq<string>)
    ensures |lines| == 3 * |items|
    decreases |items|
  {
    if items == [] then []
    else
      var k := |items|;
      EntryLines(style, items[..k - 1]) + [TitleLine(style, k, items[k - 1]), LinkLine(style, items[k - 1]), ""]
  }

  lemma NoNewlineConcat(a: string, b: string)
    requires '\n' !in a && '\n' !in b
    ensures '\n' !in a + b
  {
    assert forall i :: 0 <= i < |a + b| ==> (a + b)[i] == (if i < |a| then a[i] else b[i - |a|]);
  }

  /** An entry's title and link lines hold no line feed when its title and url hold none. */
  lemma EntryLinesSingle(style: Style, n: nat, a: NewsArticle)
    requires WellFormed(style) && '\n' !in a.title && '\n' !in a.url
    ensures '\n' !in TitleLine(style, n, a) && '\n' !in LinkLine(style, a)
  {
    var num := NatToString(n);
    NatToStringDigits(n);
    assert '\n' !in num by {
      forall i | 0 <= i < |num| ensures num[i] != '\n' {
        assert IsDigit(num[i]);
      }
    }
    NoNewlineConcat(num, ". ");
    NoNewlineConcat(num + ". ", style.titleOpen);
    NoNewlineConcat(num + ". " + style.titleOpen, a.title);
    NoNewlineConcat(num + ". " + style.titleOpen + a.title, style.titleClose);
    NoNewlineConcat(style.linkLead, a.url);
  }

  /** One entry followed by any text `t` splits into its three lines and then the lines of `t`. */
  lemma EntrySplit(style: Style, n: nat, a: NewsArticle, t: string)
    requires WellFormed(style) && '\n' !in a.title && '\n' !in a.url
    ensures SplitLines(Entry(style, n, a) + t) == [TitleLine(style, n, a), LinkLine(style, a), ""] + SplitLines(t)
  {
    var l1, l2 := TitleLine(style, n, a), LinkLine(style, a);
    EntryLinesSingle(style, n, a);
    assert Entry(style, n, a) + t == l1 + "\n" + (l2 + "\n" + ("" + "\n" + t));
    SplitAround(l1, l2 + "\n" + ("" + "\n" + t));
    SplitAround(l2, "" + "\n" + t);
    SplitAround("", t);
    SplitSingleLine(l1);
    SplitSingleLine(l2);
  }

  lemma ConcatAssoc<T>(a: seq<T>, b: seq<T>, c: seq<T>)
    ensures a + (b + c) == (a + b) + c
  {
  }

  /** The entries followed by any text `t` split into three lines per entry and then the lines of `t`. */
  lemma {:induction false} SplitEntries(style: Style, items: seq<NewsArticle>, t: string)
    requires WellFormed(style) && SingleLine(items)
    ensures SplitLines(Entries(style, items) + t) == EntryLines(style, items) + SplitLines(t)
    decreases |items|
  {
    if items != [] {
      var k := |items|;
      var init, last := items[..k - 1], items[k - 1];
      var e := Entry(style, k, last);
      assert SingleLine(init) by {
        forall i | 0 <= i < |init| ensures '\n' !in init[i].title && '\n' !in init[i].url {
          assert init[i] == items[i];
        }
      }
      assert Entries(style, items) + t == Entries(style, init) + (e + t);
      SplitEntries(style, init, e + t);
      EntrySplit(style, k, last, t);
      var three := [TitleLine(style, k, last), LinkLine(style, last), ""];
      assert EntryLines(style, items) == EntryLines(style, init) + three;
      ConcatAssoc(EntryLines(style, init), three, SplitLines(t));
    } else {
      assert Entries(style, items) + t == t;
    }
  }

  /**
   * A rendered headline list is, line by line: the header line, a blank line,
   * three lines per shown article, and a final empty piece after the last line feed.
   */
  lemma FormattedLines(style: Style, shown: seq<NewsArticle>)
    requires WellFormed(style) && SingleLine(shown)
    ensures SplitLines(style.header + Entries(style, shown)) ==
      [style.header[..|style.header| - 2], ""] + EntryLines(style, shown) + [""]
  {
    var h := style.header[..|style.header| - 2];
    var body := Entries(style, shown);
    assert style.header + body == h + "\n" + ("" + "\n" + (body + ""));
    SplitAround(h, "" + "\n" + (body + ""));
    SplitAround("", body + "");
    SplitSingleLine(h);
    SplitEntries(style, shown, "");
  }

  lemma IndexMiddle<T>(a: seq<T>, b: seq<T>, c: seq<T>, j: nat)
    requires j < |b|
    ensures (a + b + c)[|a| + j] == b[j]
  {
  }

  /** The three lines of the `i`-th entry are its title line numbered `i + 1`, its link line and a blank line. */
  lemma {:induction false} EntryLinesAt(style: Style, items: seq<NewsArticle>, i: nat)
    requires i < |items|
    ensures EntryLines(style, items)[3 * i] == TitleLine(style, i + 1, items[i])
    ensures EntryLines(style, items)[3 * i + 1] == LinkLine(style, items[i])
    ensures EntryLines(style, items)[3 * i + 2] == ""
    decreases |items|
  {
    var k := |items|;
    if i < k - 1 {
      EntryLinesAt(style, items[..k - 1], i);
      assert items[..k - 1][i] == items[i];
    }
  }

  /**
   * A rendered headline list shows the header line, a blank line, and then
   * for each shown article in data order its title numbered from 1 and its
   * link on the line below.
   */
  lemma RenderedShape(style: Style, shown: seq<NewsArticle>)
    requires WellFormed(style) && SingleLine(shown)
    ensures var lines := SplitLines(style.header + Entries(style, shown));
      && |lines| == 3 * |shown| + 3
      && lines[0] == style.header[..|style.header| - 2] && lines[1] == ""
      && forall i :: 0 <= i < |shown| ==>
           lines[3 * i + 2] == TitleLine(style, i + 1, shown[i]) && lines[3 * i + 3] == LinkLine(style, shown[i])
  {
    FormattedLines(style, shown);
    var body := EntryLines(style, shown);
    var top := [style.header[..|style.header| - 2], ""];
    var lines := top + body + [""];
    forall i | 0 <= i < |shown|
      ensures lines[3 * i + 2] == TitleLine(style, i + 1, shown[i]) && lines[3 * i + 3] == LinkLine(style, shown[i])
    {
      EntryLinesAt(style, shown, i);
      IndexMiddle(top, body, [""], 3 * i);
      IndexMiddle(top, body, [""], 3 * i + 1);
    }
  }
}
