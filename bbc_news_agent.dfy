/**
 * The BBC News worker: headlines with an enclosing link, a fallback scan of
 * the page's links when no headline produced an article, and the result
 * dictionary with at most five articles or a single placeholder.
 */
module BbcNewsAgent {
  import opened Wrappers
  import opened Text
  import opened Records
  import opened BaseAgent

  const AgentName := "BBC News Agent"
  const BaseUrl := "https://www.bbc.com/news"
  const Site := "https://www.bbc.com"
  const Shown := 5
  const TitleLimit := 100
  /** The `limit` of the headline searches and of the link search. */
  const HeadlineLimit := 5
  const LinkLimit := 10

  /** A headline element: its text, and the href of its enclosing `<a>` (None when there is no such `<a>` or it has no href). */
  datatype Headline = Headline(text: string, anchorHref: Option<string>)

  /**
   * The page as the worker sees it, each list in document order: the
   * `card-headline` headings, the older `gs-c-promo-heading__title` headings,
   * and the `<a href>` elements. The searches' limits are applied by the worker.
   */
  datatype Page = Page(cardHeadlines: seq<Headline>, promoHeadlines: seq<Headline>, links: seq<Link>)

  /** A url not starting with `http` gets the site prepended. */
  function Absolute(url: string): (r: string)
    ensures StartsWith(r, "http")
  {
    if StartsWith(url, "http") then url
    else
      assert (Site + url)[..4] == Site[..4];
      Site + url
  }

  /** A headline yields an article only when its enclosing link has a non-empty href. */
  function FromHeadline(h: Headline): Option<NewsArticle> {
    if h.anchorHref.Some? && h.anchorHref.value != "" then Some(Article(h.text, Absolute(h.anchorHref.value))) else None
  }

  /** The articles of the headline loop, in headline order. */
  function HeadlineArticles(hs: seq<Headline>): seq<NewsArticle>
    decreases |hs|
  {
    if hs == [] then []
    else
      var earlier := HeadlineArticles(hs[..|hs| - 1]);
      match FromHeadline(hs[|hs| - 1])
      case Some(a) => earlier + [a]
      case None => earlier
  }

  /** A fallback link is kept when its text is longer than 20 characters and its href contains `/news/`. */
  function FromLink(l: Link): Option<NewsArticle> {
    if |l.text| > 20 && Contains(l.href, "/news/") then Some(Article(Take(l.text, TitleLimit), Absolute(l.href))) else None
  }

  /** The fallback loop from `acc`, breaking once `Shown` articles are collected. */
  function Fallback(acc: seq<NewsArticle>, links: seq<Link>): seq<NewsArticle>
    decreases |links|
  {
    if links == [] then acc
    else
      match FromLink(links[0])
      case Some(a) => if |acc| + 1 >= Shown then acc + [a] else Fallback(acc + [a], links[1..])
      case None => Fallback(acc, links[1..])
  }

  /** The first five card headlines, or the first five promo headlines when there are no card headlines. */
  function Headlines(page: Page): seq<Headline> {
    if page.cardHeadlines != [] then Take(page.cardHeadlines, HeadlineLimit) else Take(page.promoHeadlines, HeadlineLimit)
  }

  /** The articles found on a 200 response. */
  function Articles(page: Page): seq<NewsArticle> {
    var fromHeadlines := HeadlineArticles(Headlines(page));
    if fromHeadlines != [] then fromHeadlines else Fallback([], Take(page.links, LinkLimit))
  }

  /** `data` of a 200 response: the first five articles, or one placeholder. */
  function Data(articles: seq<NewsArticle>): (data: seq<Item>)
    ensures 1 <= |data| <= Shown
    ensures articles != [] ==> data == Take(articles, Shown)
    ensures articles == [] ==> data == [Article("No articles found", BaseUrl)]
  {
    if articles != [] then Take(articles, Shown) else [Article("No articles found", BaseUrl)]
  }

  function ExecuteResult(name: string, fetch: Fetch<Page>): AgentResult {
    match fetch
    case Exception(e) => ErrorResult(name, e)
    case Response(code, page) =>
      if code == 200 then SuccessResult(name, Data(Articles(page))) else ErrorResult(name, HttpMessage(code))
  }

  /** The headline loop. */
  method CollectHeadlines(hs: seq<Headline>) returns (articles: seq<NewsArticle>)
    ensures articles == HeadlineArticles(hs)
  {
    articles := [];
    var i := 0;
    while i < |hs|
      invariant 0 <= i <= |hs|
      invariant articles == HeadlineArticles(hs[..i])
    {
      assert hs[..i + 1][..i] == hs[..i];
      var h := hs[i];
      if h.anchorHref.Some? && h.anchorHref.value != "" {
        var url := h.anchorHref.value;
        if !StartsWith(url, "http") {
          url := Site + url;
        }
        assert FromHeadline(h) == Some(Article(h.text, url));
        articles := articles + [Article(h.text, url)];
      } else {
        assert FromHeadline(h) == None;
      }
      i := i + 1;
    }
    assert hs[..i] == hs;
  }

  /** The fallback loop over the page's links. */
  method ScanLinks(links: seq<Link>) returns (articles: seq<NewsArticle>)
    ensures articles == Fallback([], links)
  {
    articles := [];
    var i := 0;
    while i < |links|
      invariant 0 <= i <= |links|
      invariant |articles| < Shown
      invariant Fallback(articles, links[i..]) == Fallback([], links)
    {
      assert links[i..][1..] == links[i + 1..];
      var titleText := links[i].text;
      if |titleText| > 20 && Contains(links[i].href, "/news/") {
        var url := links[i].href;
        if !StartsWith(url, "http") {
          url := Site + url;
        }
        articles := articles + [Article(Take(titleText, TitleLimit), url)];
        if |articles| >= Shown {
          break;
        }
      }
      i := i + 1;
    }
  }

  method NewAgent() returns (agent: Agent)
    ensures fresh(agent) && agent.Valid()
    ensures agent.name == AgentName && agent.status == Ready
  {
    agent := new Agent(AgentName);
  }

  /** `execute`: `working` on entry, then `completed` after a 200 response and `failed` otherwise. */
  method Execute(agent: Agent, fetch: Fetch<Page>) returns (r: AgentResult)
    requires agent.Valid()
    modifies agent
    ensures agent.Valid()
    ensures r == ExecuteResult(agent.name, fetch)
    ensures agent.status == (if fetch.Response? && fetch.code == 200 then Completed else Failed)
    ensures agent.trail == old(agent.trail) + [Working, agent.status]
  {
    agent.SetStatus(Working);
    match fetch {
      case Exception(e) =>
        agent.SetStatus(Failed);
        r := ErrorResult(agent.name, e);
      case Response(code, page) =>
        if code == 200 {
          var headlines := Take(page.cardHeadlines, HeadlineLimit);
          if headlines == [] {
            headlines := Take(page.promoHeadlines, HeadlineLimit);
          }
          var articles := CollectHeadlines(headlines);
          if articles == [] {
            articles := ScanLinks(Take(page.links, LinkLimit));
          }
          agent.SetStatus(Completed);
          r := SuccessResult(agent.name, if articles != [] then Take(articles, Shown) else [Article("No articles found", BaseUrl)]);
        } else {
          agent.SetStatus(Failed);
          r := ErrorResult(agent.name, HttpMessage(code));
        }
    }
  }

  // ---------------------------------------------------------------------
  // Properties

  /** An article comes from the headline loop exactly when some headline with a non-empty link href yields it. */
  lemma {:induction false} HeadlineArticlesExact(hs: seq<Headline>, a: NewsArticle)
    ensures a in HeadlineArticles(hs) <==> exists i :: 0 <= i < |hs| && FromHeadline(hs[i]) == Some(a)
    decreases |hs|
  {
    if hs != [] {
      var n := |hs|;
      var init := hs[..n - 1];
      var last := FromHeadline(hs[n - 1]);
      assert HeadlineArticles(hs) == HeadlineArticles(init) + (if last.Some? then [last.value] else []);
      HeadlineArticlesExact(init, a);
      if a in HeadlineArticles(hs) {
        if a in HeadlineArticles(init) {
          var i :| 0 <= i < |init| && FromHeadline(init[i]) == Some(a);
          assert hs[i] == init[i];
          assert 0 <= i < n && FromHeadline(hs[i]) == Some(a);
        } else {
          assert last == Some(a);
          assert 0 <= n - 1 < n && FromHeadline(hs[n - 1]) == Some(a);
        }
      }
      if exists i :: 0 <= i < n && FromHeadline(hs[i]) == Some(a) {
        var i :| 0 <= i < n && FromHeadline(hs[i]) == Some(a);
        if i < n - 1 {
          assert init[i] == hs[i];
          assert a in HeadlineArticles(init);
        } else {
          assert last == Some(a);
        }
        assert a in HeadlineArticles(hs);
      }
    }
  }

  /** Every headline article has an absolute url. */
  lemma {:induction false} HeadlineUrlsAbsolute(hs: seq<Headline>)
    ensures AbsoluteUrls(HeadlineArticles(hs))
    decreases |hs|
  {
    if hs != [] {
      HeadlineUrlsAbsolute(hs[..|hs| - 1]);
    }
  }

  /** The fallback adds only kept links, with titles of at most 100 characters and absolute urls, and stops at five. */
  lemma {:induction false} FallbackShape(acc: seq<NewsArticle>, links: seq<Link>)
    requires |acc| < Shown && AbsoluteUrls(acc)
    requires forall i :: 0 <= i < |acc| ==> |acc[i].title| <= TitleLimit
    ensures var r := Fallback(acc, links);
      |r| <= Shown && AbsoluteUrls(r) && (forall i :: 0 <= i < |r| ==> |r[i].title| <= TitleLimit)
    decreases |links|
  {
    if links != [] {
      match FromLink(links[0])
      case Some(a) =>
        if |acc| + 1 < Shown {
          FallbackShape(acc + [a], links[1..]);
        }
      case None => FallbackShape(acc, links[1..]);
    }
  }

  /** Every article the fallback adds comes from a link whose text is longer than 20 characters and whose href contains `/news/`. */
  lemma {:induction false} FallbackSound(acc: seq<NewsArticle>, links: seq<Link>, k: nat)
    requires |acc| <= k < |Fallback(acc, links)|
    ensures exists j :: 0 <= j < |links| && |links[j].text| > 20 && Contains(links[j].href, "/news/")
                        && Fallback(acc, links)[k] == Article(Take(links[j].text, TitleLimit), Absolute(links[j].href))
    decreases |links|
  {
    var r := Fallback(acc, links);
    match FromLink(links[0])
    case Some(a) =>
      if |acc| + 1 >= Shown || k == |acc| {
        FallbackPrefix(acc + [a], links[1..]);
        assert r[k] == a;
      } else {
        FallbackSound(acc + [a], links[1..], k);
        var j :| 0 <= j < |links[1..]| && |links[1..][j].text| > 20 && Contains(links[1..][j].href, "/news/")
                 && r[k] == Article(Take(links[1..][j].text, TitleLimit), Absolute(links[1..][j].href));
        assert links[1..][j] == links[j + 1];
      }
    case None =>
      FallbackSound(acc, links[1..], k);
      var j :| 0 <= j < |links[1..]| && |links[1..][j].text| > 20 && Contains(links[1..][j].href, "/news/")
               && r[k] == Article(Take(links[1..][j].text, TitleLimit), Absolute(links[1..][j].href));
      assert links[1..][j] == links[j + 1];
  }

  lemma {:induction false} FallbackPrefix(acc: seq<NewsArticle>, links: seq<Link>)
    ensures |acc| <= |Fallback(acc, links)| && Fallback(acc, links)[..|acc|] == acc
    decreases |links|
  {
    if links != [] {
      match FromLink(links[0])
      case Some(a) =>
        if |acc| + 1 < Shown {
          FallbackPrefix(acc + [a], links[1..]);
          assert (acc + [a])[..|acc|] == acc;
        }
      case None => FallbackPrefix(acc, links[1..]);
    }
  }

  /** Every link the fallback filter keeps, as an article, in link order (no cut). */
  function KeptLinks(links: seq<Link>): seq<NewsArticle>
    decreases |links|
  {
    if links == [] then []
    else
      match FromLink(links[0])
      case Some(a) => [a] + KeptLinks(links[1..])
      case None => KeptLinks(links[1..])
  }

  /** A link's article is kept exactly when the link passes the filter. */
  lemma {:induction false} KeptLinksExact(links: seq<Link>, a: NewsArticle)
    ensures a in KeptLinks(links) <==> exists j :: 0 <= j < |links| && FromLink(links[j]) == Some(a)
    decreases |links|
  {
    if links != [] {
      var rest := links[1..];
      KeptLinksExact(rest, a);
      if a in KeptLinks(links) {
        if FromLink(links[0]) == Some(a) {
          assert FromLink(links[0]) == Some(a);
        } else {
          assert a in KeptLinks(rest);
          var j :| 0 <= j < |rest| && FromLink(rest[j]) == Some(a);
          assert links[j + 1] == rest[j];
        }
      }
      if exists j :: 0 <= j < |links| && FromLink(links[j]) == Some(a) {
        var j :| 0 <= j < |links| && FromLink(links[j]) == Some(a);
        if j > 0 {
          assert rest[j - 1] == links[j];
          assert a in KeptLinks(rest);
        }
      }
    }
  }

  /**
   * The fallback is exactly the articles already found followed by the kept
   * links, in link order, cut after the fifth.
   */
  lemma {:induction false} FallbackExact(acc: seq<NewsArticle>, links: seq<Link>)
    requires |acc| < Shown
    ensures Fallback(acc, links) == Take(acc + KeptLinks(links), Shown)
    decreases |links|
  {
    if links == [] {
      assert acc + KeptLinks(links) == acc;
    } else {
      match FromLink(links[0])
      case Some(a) =>
        assert acc + KeptLinks(links) == (acc + [a]) + KeptLinks(links[1..]);
        if |acc| + 1 >= Shown {
          var t := Take((acc + [a]) + KeptLinks(links[1..]), Shown);
          assert |t| == Shown;
          assert t == ((acc + [a]) + KeptLinks(links[1..]))[..Shown];
          assert t == acc + [a];
        } else {
          FallbackExact(acc + [a], links[1..]);
        }
      case None =>
        FallbackExact(acc, links[1..]);
    }
  }

  /** Below the cut, every link that passes the filter is in the fallback. */
  lemma FallbackComplete(links: seq<Link>, j: nat)
    requires j < |links| && FromLink(links[j]).Some?
    requires |Fallback([], links)| < Shown
    ensures FromLink(links[j]).value in Fallback([], links)
  {
    FallbackExact([], links);
    assert [] + KeptLinks(links) == KeptLinks(links);
    assert Fallback([], links) == KeptLinks(links);
    KeptLinksExact(links, FromLink(links[j]).value);
  }

  /** The fallback runs only when the headlines produced nothing (this restates `Articles`). */
  lemma FallbackOnlyWhenEmpty(page: Page)
    ensures HeadlineArticles(Headlines(page)) != [] ==> Articles(page) == HeadlineArticles(Headlines(page))
    ensures HeadlineArticles(Headlines(page)) == [] ==> Articles(page) == Fallback([], Take(page.links, LinkLimit))
  {
  }

  /** A successful result holds one to five articles, each with an absolute url. */
  lemma SuccessData(name: string, page: Page)
    ensures var r := ExecuteResult(name, Response(200, page));
      r.status == Success && 1 <= |r.data| <= Shown && AbsoluteUrls(r.data)
  {
    var hs := HeadlineArticles(Headlines(page));
    HeadlineUrlsAbsolute(Headlines(page));
    FallbackShape([], Take(page.links, LinkLimit));
    var articles := Articles(page);
    assert AbsoluteUrls(articles);
    var data := Data(articles);
    if articles == [] {
      assert (BaseUrl)[..4] == "http";
    } else {
      assert forall i :: 0 <= i < |data| ==> data[i] == articles[i];
    }
  }

  /** Only a 200 response gives `success`; the others give `HTTP <code>` or the exception text, with empty data. */
  lemma ErrorCases(name: string, fetch: Fetch<Page>)
    ensures ExecuteResult(name, fetch).status == Success <==> fetch.Response? && fetch.code == 200
    ensures fetch.Exception? ==> ExecuteResult(name, fetch) == ErrorResult(name, fetch.message)
    ensures fetch.Response? && fetch.code != 200 ==> ExecuteResult(name, fetch) == ErrorResult(name, "HTTP " + NatToString(fetch.code))
  {
  }
}
