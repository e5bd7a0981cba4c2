/**
 * The simpler TechCrunch worker of the key-based tools demo: post-block
 * links (or post-block headings with an inner link), an `<article>` fallback
 * when those give nothing, and at most five articles or one placeholder.
 */
module SimpleTechCrunchAgent {
  import opened Wrappers
  import opened Text
  import opened Records
  import opened BaseAgent

  const AgentName := "TechCrunch Agent"
  const BaseUrl := "https://techcrunch.com"
  const Shown := 5
  /** The `limit` of the anchor search and of the `<article>` search; the heading search has none. */
  const SearchLimit := 5

  /**
   * The page as the worker sees it, each list in document order (the
   * searches' limits are applied by the worker):
   * - the `post-block__title__link` anchors (text and href, `''` when absent);
   * - the `post-block__title` headings, each with the text and href of its
   *   first inner `<a>`, or None when it has none;
   * - the `<article>` elements.
   */
  datatype Page = Page(postLinks: seq<Link>, postHeadings: seq<Option<Link>>, tags: seq<ArticleTag>)

  /** The elements the first loop visits: the first five anchors, or all the headings when there are no anchors. */
  function Elements(page: Page): seq<Option<Link>> {
    if page.postLinks != [] then
      var anchors := Take(page.postLinks, SearchLimit);
      seq(|anchors|, i requires 0 <= i < |anchors| => Some(anchors[i]))
    else page.postHeadings
  }

  /** An element contributes when it has a link and both its title and url are non-empty. */
  function FromElement(e: Option<Link>): Option<NewsArticle> {
    match e
    case None => None
    case Some(l) => if l.text != "" && l.href != "" then Some(Article(l.text, l.href)) else None
  }

  /** An `<article>` contributes when it has both a heading and a link, whatever their text. */
  function FromTag(t: ArticleTag): Option<NewsArticle> {
    if t.heading.Some? && t.href.Some? then Some(Article(t.heading.value, t.href.value)) else None
  }

  function ElementArticles(es: seq<Option<Link>>): seq<NewsArticle>
    decreases |es|
  {
    if es == [] then []
    else
      var earlier := ElementArticles(es[..|es| - 1]);
      match FromElement(es[|es| - 1])
      case Some(a) => earlier + [a]
      case None => earlier
  }

  function TagArticles(ts: seq<ArticleTag>): seq<NewsArticle>
    decreases |ts|
  {
    if ts == [] then []
    else
      var earlier := TagArticles(ts[..|ts| - 1]);
      match FromTag(ts[|ts| - 1])
      case Some(a) => earlier + [a]
      case None => earlier
  }

  function Articles(page: Page): seq<NewsArticle> {
    var found := ElementArticles(Elements(page));
    if found != [] then found else TagArticles(Take(page.tags, SearchLimit))
  }

  /** `data` of a 200 response: the same rule as `BbcNewsAgent.Data`, copied in the source. */
  function Data(articles: seq<NewsArticle>): (data: seq<Item>)
    ensures 1 <= |data| <= Shown
    ensures articles != [] ==> data == Take(articles, Shown)
    ensures articles == [] ==> data == [Article("No articles found", BaseUrl)]
  {
    if articles != [] then Take(articles, Shown) else [Article("No articles found", BaseUrl)]
  }

  function ExecuteResult(name: string, fetch: Fetch<Page>): AgentResult {
    match fetch
    case Exception(e) => ErrorResult(name, e)
    case Response(code, page) =>
      if code == 200 then SuccessResult(name, Data(Articles(page))) else ErrorResult(name, HttpMessage(code))
  }

  /** The first loop, with `continue` for a heading without an inner link. */
  method CollectElements(es: seq<Option<Link>>) returns (articles: seq<NewsArticle>)
    ensures articles == ElementArticles(es)
  {
    articles := [];
    var i := 0;
    while i < |es|
      invariant 0 <= i <= |es|
      invariant articles == ElementArticles(es[..i])
    {
      assert es[..i + 1][..i] == es[..i];
      if es[i].None? {
        assert FromElement(es[i]) == None;
        i := i + 1;
        continue;
      }
      var title, url := es[i].value.text, es[i].value.href;
      if title != "" && url != "" {
        assert FromElement(es[i]) == Some(Article(title, url));
        articles := articles + [Article(title, url)];
      } else {
        assert FromElement(es[i]) == None;
      }
      i := i + 1;
    }
    assert es[..i] == es;
  }

  /** The `<article>` fallback loop. */
  method CollectTags(ts: seq<ArticleTag>) returns (articles: seq<NewsArticle>)
    ensures articles == TagArticles(ts)
  {
    articles := [];
    var i := 0;
    while i < |ts|
      invariant 0 <= i <= |ts|
      invariant articles == TagArticles(ts[..i])
    {
      assert ts[..i + 1][..i] == ts[..i];
      if ts[i].heading.Some? && ts[i].href.Some? {
        assert FromTag(ts[i]) == Some(Article(ts[i].heading.value, ts[i].href.value));
        articles := articles + [Article(ts[i].heading.value, ts[i].href.value)];
      } else {
        assert FromTag(ts[i]) == None;
      }
      i := i + 1;
    }
    assert ts[..i] == ts;
  }

  method NewAgent() returns (agent: Agent)
    ensures fresh(agent) && agent.Valid()
    ensures agent.name == AgentName && agent.status == Ready
  {
    agent := new Agent(AgentName);
  }

  /** `execute`: `working` on entry, then `completed` after a 200 response and `failed` otherwise. */
  method Execute(agent: Agent, fetch: Fetch<Page>) returns (r: AgentResult)
    requires agent.Valid()
    modifies agent
    ensures agent.Valid()
    ensures r == ExecuteResult(agent.name, fetch)
    ensures agent.status == (if fetch.Response? && fetch.code == 200 then Completed else Failed)
    ensures agent.trail == old(agent.trail) + [Working, agent.status]
  {
    agent.SetStatus(Working);
    match fetch {
      case Exception(e) =>
        agent.SetStatus(Failed);
        r := ErrorResult(agent.name, e);
      case Response(code, page) =>
        if code == 200 {
          var articles := CollectElements(Elements(page));
          if articles == [] {
            articles := CollectTags(Take(page.tags, SearchLimit));
          }
          agent.SetStatus(Completed);
          r := SuccessResult(agent.name, Data(articles));
        } else {
          agent.SetStatus(Failed);
          r := ErrorResult(agent.name, HttpMessage(code));
        }
    }
  }

  // ---------------------------------------------------------------------
  // Properties

  /** A heading without an inner link contributes nothing; otherwise an element contributes exactly when title and url are non-empty. */
  lemma {:induction false} ElementArticlesExact(es: seq<Option<Link>>, a: NewsArticle)
    ensures a in ElementArticles(es) <==>
      exists i :: 0 <= i < |es| && es[i].Some? && es[i].value.text != "" && es[i].value.href != ""
                  && a == Article(es[i].value.text, es[i].value.href)
    decreases |es|
  {
    if es != [] {
      var n := |es|;
      var init := es[..n - 1];
      var last := FromElement(es[n - 1]);
      assert ElementArticles(es) == ElementArticles(init) + (if last.Some? then [last.value] else []);
      ElementArticlesExact(init, a);
      if a in ElementArticles(es) {
        if a in ElementArticles(init) {
          var i :| 0 <= i < |init| && init[i].Some? && init[i].value.text != "" && init[i].value.href != ""
                   && a == Article(init[i].value.text, init[i].value.href);
          assert es[i] == init[i];
        } else {
          assert last == Some(a);
          assert es[n - 1].Some? && es[n - 1].value.text != "" && es[n - 1].value.href != "";
        }
      }
      if exists i :: 0 <= i < n && es[i].Some? && es[i].value.text != "" && es[i].value.href != ""
                     && a == Article(es[i].value.text, es[i].value.href) {
        var i :| 0 <= i < n && es[i].Some? && es[i].value.text != "" && es[i].value.href != ""
                 && a == Article(es[i].value.text, es[i].value.href);
        if i < n - 1 {
          assert init[i] == es[i];
          assert a in ElementArticles(init);
        } else {
          assert last == Some(a);
        }
        assert a in ElementArticles(es);
      }
    }
  }

  /** In the fallback an `<article>` contributes exactly when it has both a heading and a link. */
  lemma {:induction false} TagArticlesExact(ts: seq<ArticleTag>, a: NewsArticle)
    ensures a in TagArticles(ts) <==>
      exists i :: 0 <= i < |ts| && ts[i].heading.Some? && ts[i].href.Some?
                  && a == Article(ts[i].heading.value, ts[i].href.value)
    decreases |ts|
  {
    if ts != [] {
      var n := |ts|;
      var init := ts[..n - 1];
      var last := FromTag(ts[n - 1]);
      assert TagArticles(ts) == TagArticles(init) + (if last.Some? then [last.value] else []);
      TagArticlesExact(init, a);
      if a in TagArticles(ts) {
        if a in TagArticles(init) {
          var i :| 0 <= i < |init| && init[i].heading.Some? && init[i].href.Some?
                   && a == Article(init[i].heading.value, init[i].href.value);
          assert ts[i] == init[i];
        } else {
          assert last == Some(a);
          assert ts[n - 1].heading.Some? && ts[n - 1].href.Some?;
        }
      }
      if exists i :: 0 <= i < n && ts[i].heading.Some? && ts[i].href.Some?
                     && a == Article(ts[i].heading.value, ts[i].href.value) {
        var i :| 0 <= i < n && ts[i].heading.Some? && ts[i].href.Some?
                 && a == Article(ts[i].heading.value, ts[i].href.value);
        if i < n - 1 {
          assert init[i] == ts[i];
          assert a in TagArticles(init);
        } else {
          assert last == Some(a);
        }
        assert a in TagArticles(ts);
      }
    }
  }

  /** The fallback runs only when the first loop found nothing (this restates `Articles`). */
  lemma FallbackOnlyWhenEmpty(page: Page)
    ensures ElementArticles(Elements(page)) != [] ==> Articles(page) == ElementArticles(Elements(page))
    ensures ElementArticles(Elements(page)) == [] ==> Articles(page) == TagArticles(Take(page.tags, SearchLimit))
  {
  }

  /** Success data is never empty and never longer than five; only a 200 response gives success. */
  lemma ResultShape(name: string, fetch: Fetch<Page>)
    ensures var r := ExecuteResult(name, fetch);
      && (r.status == Success <==> fetch.Response? && fetch.code == 200)
      && (r.status == Success ==> 1 <= |r.data| <= Shown)
      && (r.status == Error ==> r.data == [] && r.message.Some?)
      && (fetch.Response? && fetch.code != 200 ==> r.message == Some("HTTP " + NatToString(fetch.code)))
  {
  }
}
