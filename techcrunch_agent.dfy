/**
 * The TechCrunch worker of the orchestrator demo: three extraction strategies
 * over the front page, each filtering its candidates, making urls absolute,
 * dropping duplicate urls and stopping at ten articles, followed by the
 * classification of what was found into a result dictionary.
 */
module TechCrunchAgent {
  import opened Wrappers
  import opened Text
  import opened Records
  import opened BaseAgent

  const AgentName := "TechCrunch Agent"
  const BaseUrl := "https://techcrunch.com"
  /** A strategy stops as soon as the list reaches this many articles. */
  const Cap := 10
  /** Fewer articles than this after a strategy sends the search on to the next one. */
  const Enough := 5
  const NoArticlesTitle := "No articles found - website structure may have changed"
  /** The `limit` of each selector's search, of the link search and of the `<article>` search. */
  const SelectorLimit := 20
  const LinkLimit := 100
  const TagLimit := 20
  const DebugHint := "Try updating the CSS selectors or run test_techcrunch_agent.py with debug mode"

  /**
   * The front page as the three strategies see it, each list in document
   * order (the searches' limits are applied by the worker):
   * - for each selector of strategy 1, in order, the elements it matches; an
   *   element is its title and the href of its link, or None when it is a
   *   heading for which no link was found;
   * - the `<a href>` elements of the page, for strategy 2;
   * - the `<article>` elements, for strategy 3.
   */
  datatype Page = Page(selectorHits: seq<seq<Option<Link>>>, links: seq<Link>, tags: seq<ArticleTag>)

  datatype Strategy = ByHeading | ByDatedLink | ByArticleTag

  /** Strategy 1's rewriting: `/path` gets the site prepended, any other non-`http` url the site and a `/`. */
  function HeadingUrl(url: string): string {
    if StartsWith(url, "/") then BaseUrl + url
    else if !StartsWith(url, "http") then BaseUrl + "/" + url
    else url
  }

  /** Strategies 2 and 3 rewrite only `/path` urls. */
  function SlashUrl(url: string): string {
    if StartsWith(url, "/") then BaseUrl + url else url
  }

  /** Strategy 2's url test, with its three alternatives as written. */
  predicate DatedHref(href: string) {
    Contains(href, "/2024/") || Contains(href, "/2025/") || Contains(href, "/20")
  }

  /** What a candidate contributes under a strategy: the article to offer, or nothing. */
  function Candidate(s: Strategy, e: Option<Link>): Option<NewsArticle> {
    match e
    case None => None
    case Some(l) =>
      match s
      case ByHeading =>
        if l.text != "" && l.href != "" && |l.text| > 10 then Some(Article(l.text, HeadingUrl(l.href))) else None
      case ByDatedLink =>
        if DatedHref(l.href) && l.text != "" && 20 < |l.text| < 200 then Some(Article(l.text, SlashUrl(l.href))) else None
      case ByArticleTag =>
        if l.text != "" && l.href != "" && |l.text| > 10 then Some(Article(l.text, SlashUrl(l.href))) else None
  }

  /** Strategy 2 looks at every link of the page. */
  function LinkCandidates(links: seq<Link>): (cs: seq<Option<Link>>)
    ensures |cs| == |links| && forall i :: 0 <= i < |links| ==> cs[i] == Some(links[i])
  {
    if links == [] then [] else [Some(links[0])] + LinkCandidates(links[1..])
  }

  /** Strategy 3 considers an `<article>` only when it has both a heading and a link. */
  function TagCandidates(tags: seq<ArticleTag>): (cs: seq<Option<Link>>)
    ensures |cs| == |tags|
    ensures forall i :: 0 <= i < |tags| ==>
      cs[i] == if tags[i].heading.Some? && tags[i].href.Some?
               then Some(Link(tags[i].heading.value, tags[i].href.value)) else None
  {
    if tags == [] then []
    else
      var t := tags[0];
      [if t.heading.Some? && t.href.Some? then Some(Link(t.heading.value, t.href.value)) else None]
      + TagCandidates(tags[1..])
  }

  /**
   * The articles list after one strategy's loop over `cands`, starting from
   * `acc`: an accepted candidate is appended unless its url is already
   * present, and the loop breaks once the list reaches `Cap`.
   */
  function Collect(acc: seq<NewsArticle>, s: Strategy, cands: seq<Option<Link>>): seq<NewsArticle>
    decreases |cands|
  {
    if cands == [] then acc
    else
      match Candidate(s, cands[0])
      case None => Collect(acc, s, cands[1..])
      case Some(a) =>
        if HasUrl(acc, a.url) then Collect(acc, s, cands[1..])
        else if |acc| + 1 >= Cap then acc + [a]
        else Collect(acc + [a], s, cands[1..])
  }

  /** Strategy 1: the selectors in order, stopping after the first one that leaves at least `Enough` articles. */
  function Sweep(acc: seq<NewsArticle>, hits: seq<seq<Option<Link>>>): seq<NewsArticle>
    decreases |hits|
  {
    if hits == [] then acc
    else if hits[0] == [] then Sweep(acc, hits[1..])
    else
      var next := Collect(acc, ByHeading, Take(hits[0], SelectorLimit));
      if |next| >= Enough then next else Sweep(next, hits[1..])
  }

  /** The articles the three strategies find together; 2 and 3 run only while fewer than `Enough` were found. */
  function Articles(page: Page): seq<NewsArticle> {
    var s1 := Sweep([], page.selectorHits);
    var s2 := if |s1| < Enough then Collect(s1, ByDatedLink, LinkCandidates(Take(page.links, LinkLimit))) else s1;
    if |s2| < Enough then Collect(s2, ByArticleTag, TagCandidates(Take(page.tags, TagLimit))) else s2
  }

  /** The result dictionary of a 200 response that produced `articles`. */
  function Classify(name: string, articles: seq<NewsArticle>): (r: AgentResult)
    ensures r.agent == name && r.status == Success && r.message == None
    ensures r.data != [] && |r.data| <= Cap
    ensures articles != [] ==> r.data == Take(articles, Cap) && r.count == Some(|r.data|)
    ensures articles == [] ==> r.data == [Article(NoArticlesTitle, BaseUrl)] && r.count == Some(0)
    ensures r.warning.Some? <==> 0 < |articles| < Enough
    ensures 0 < |articles| < Enough ==>
      r.warning == Some("Only found " + NatToString(|articles|) + " articles (expected minimum 5)")
    ensures r.debug.Some? <==> articles == []
    ensures articles == [] ==> r.debug == Some(DebugHint)
    ensures |articles| >= Enough ==> r.warning == None && r.debug == None
  {
    if |articles| >= Enough then
      AgentResult(name, Success, Take(articles, Cap), None, Some(|Take(articles, Cap)|), None, None)
    else if articles != [] then
      AgentResult(name, Success, articles, None, Some(|articles|),
        Some("Only found " + NatToString(|articles|) + " articles (expected minimum 5)"), None)
    else
      AgentResult(name, Success, [Article(NoArticlesTitle, BaseUrl)], None, Some(0), None, Some(DebugHint))
  }

  /** The dictionary `execute` returns. */
  function ExecuteResult(name: string, fetch: Fetch<Page>): AgentResult {
    match fetch
    case Exception(e) => ErrorResult(name, e)
    case Response(code, page) =>
      if code == 200 then Classify(name, Articles(page)) else ErrorResult(name, HttpMessage(code))
  }

  /** One strategy's loop over its candidates. */
  method Scan(acc: seq<NewsArticle>, s: Strategy, cands: seq<Option<Link>>) returns (articles: seq<NewsArticle>)
    ensures articles == Collect(acc, s, cands)
  {
    articles := acc;
    var i := 0;
    while i < |cands|
      invariant 0 <= i <= |cands|
      invariant Collect(articles, s, cands[i..]) == Collect(acc, s, cands)
    {
      assert cands[i..][1..] == cands[i + 1..];
      match Candidate(s, cands[i]) {
        case Some(a) =>
          if !HasUrl(articles, a.url) {
            articles := articles + [a];
            if |articles| >= Cap {
              break;
            }
          }
        case None =>
      }
      i := i + 1;
    }
  }

  /** Strategy 1's outer loop over the selectors. */
  method SweepSelectors(hits: seq<seq<Option<Link>>>) returns (articles: seq<NewsArticle>)
    ensures articles == Sweep([], hits)
  {
    articles := [];
    var k := 0;
    while k < |hits|
      invariant 0 <= k <= |hits|
      invariant Sweep(articles, hits[k..]) == Sweep([], hits)
    {
      assert hits[k..][1..] == hits[k + 1..];
      if hits[k] != [] {
        articles := Scan(articles, ByHeading, Take(hits[k], SelectorLimit));
        if |articles| >= Enough {
          break;
        }
      }
      k := k + 1;
    }
  }

  /** The three strategies in sequence. */
  method Harvest(page: Page) returns (articles: seq<NewsArticle>)
    ensures articles == Articles(page)
    ensures |articles| <= Cap && UniqueUrls(articles)
  {
    articles := SweepSelectors(page.selectorHits);
    if |articles| < Enough {
      articles := Scan(articles, ByDatedLink, LinkCandidates(Take(page.links, LinkLimit)));
    }
    if |articles| < Enough {
      articles := Scan(articles, ByArticleTag, TagCandidates(Take(page.tags, TagLimit)));
    }
    ArticlesBounded(page);
  }

  /** `TechCrunchAgent()` */
  method NewAgent() returns (agent: Agent)
    ensures fresh(agent) && agent.Valid()
    ensures agent.name == AgentName && agent.status == Ready
  {
    agent := new Agent(AgentName);
  }

  /** `execute`: `working` on entry, then `completed` after a 200 response and `failed` otherwise. */
  method Execute(agent: Agent, fetch: Fetch<Page>) returns (r: AgentResult)
    requires agent.Valid()
    modifies agent
    ensures agent.Valid()
    ensures r == ExecuteResult(agent.name, fetch)
    ensures agent.status == (if fetch.Response? && fetch.code == 200 then Completed else Failed)
    ensures agent.trail == old(agent.trail) + [Working, agent.status]
  {
    agent.SetStatus(Working);
    match fetch {
      case Exception(e) =>
        agent.SetStatus(Failed);
        r := ErrorResult(agent.name, e);
      case Response(code, page) =>
        if code == 200 {
          var articles := Harvest(page);
          agent.SetStatus(Completed);
          r := Classify(agent.name, articles);
        } else {
          agent.SetStatus(Failed);
          r := ErrorResult(agent.name, HttpMessage(code));
        }
    }
  }

  // ---------------------------------------------------------------------
  // Properties of the strategies

  /** A strategy only ever appends to the list it was given. */
  lemma {:induction false} CollectExtends(acc: seq<NewsArticle>, s: Strategy, cands: seq<Option<Link>>)
    ensures |acc| <= |Collect(acc, s, cands)| && Collect(acc, s, cands)[..|acc|] == acc
    decreases |cands|
  {
    if cands != [] {
      match Candidate(s, cands[0])
      case None => CollectExtends(acc, s, cands[1..]);
      case Some(a) =>
        if HasUrl(acc, a.url) {
          CollectExtends(acc, s, cands[1..]);
        } else if |acc| + 1 < Cap {
          CollectExtends(acc + [a], s, cands[1..]);
          assert (acc + [a])[..|acc|] == acc;
        }
    }
  }

  /** A strategy never introduces a second article with the same url. */
  lemma {:induction false} CollectUnique(acc: seq<NewsArticle>, s: Strategy, cands: seq<Option<Link>>)
    requires UniqueUrls(acc)
    ensures UniqueUrls(Collect(acc, s, cands))
    decreases |cands|
  {
    if cands != [] {
      match Candidate(s, cands[0])
      case None => CollectUnique(acc, s, cands[1..]);
      case Some(a) =>
        if HasUrl(acc, a.url) {
          CollectUnique(acc, s, cands[1..]);
        } else {
          assert UniqueUrls(acc + [a]);
          if |acc| + 1 < Cap {
            CollectUnique(acc + [a], s, cands[1..]);
          }
        }
    }
  }

  /** A strategy entered with fewer than `Cap` articles leaves at most `Cap`. */
  lemma {:induction false} CollectCapped(acc: seq<NewsArticle>, s: Strategy, cands: seq<Option<Link>>)
    requires |acc| < Cap
    ensures |Collect(acc, s, cands)| <= Cap
    decreases |cands|
  {
    if cands != [] {
      match Candidate(s, cands[0])
      case None => CollectCapped(acc, s, cands[1..]);
      case Some(a) =>
        if HasUrl(acc, a.url) {
          CollectCapped(acc, s, cands[1..]);
        } else if |acc| + 1 < Cap {
          CollectCapped(acc + [a], s, cands[1..]);
        }
    }
  }

  /** Every article a strategy adds is what one of its candidates contributes. */
  lemma {:induction false} CollectSound(acc: seq<NewsArticle>, s: Strategy, cands: seq<Option<Link>>, k: nat)
    requires |acc| <= k < |Collect(acc, s, cands)|
    ensures exists j :: 0 <= j < |cands| && Candidate(s, cands[j]) == Some(Collect(acc, s, cands)[k])
    decreases |cands|
  {
    var r := Collect(acc, s, cands);
    match Candidate(s, cands[0])
    case None =>
      CollectSound(acc, s, cands[1..], k);
      var j :| 0 <= j < |cands[1..]| && Candidate(s, cands[1..][j]) == Some(r[k]);
      assert cands[1..][j] == cands[j + 1];
    case Some(a) =>
      if HasUrl(acc, a.url) {
        CollectSound(acc, s, cands[1..], k);
        var j :| 0 <= j < |cands[1..]| && Candidate(s, cands[1..][j]) == Some(r[k]);
        assert cands[1..][j] == cands[j + 1];
      } else if |acc| + 1 >= Cap {
        assert r[k] == a;
      } else if k == |acc| {
        CollectExtends(acc + [a], s, cands[1..]);
        assert r[..|acc + [a]|] == acc + [a];
        assert r[k] == a;
      } else {
        CollectSound(acc + [a], s, cands[1..], k);
        var j :| 0 <= j < |cands[1..]| && Candidate(s, cands[1..][j]) == Some(r[k]);
        assert cands[1..][j] == cands[j + 1];
      }
  }

  /**
   * Nothing accepted is lost unless the cap was reached: when the strategy
   * ends below `Cap`, the url of every candidate it accepts is in the list.
   */
  lemma {:induction false} CollectComplete(acc: seq<NewsArticle>, s: Strategy, cands: seq<Option<Link>>, j: nat)
    requires j < |cands| && Candidate(s, cands[j]).Some?
    requires |Collect(acc, s, cands)| < Cap
    ensures HasUrl(Collect(acc, s, cands), Candidate(s, cands[j]).value.url)
    decreases |cands|
  {
    var r := Collect(acc, s, cands);
    match Candidate(s, cands[0])
    case None =>
      assert cands[1..][j - 1] == cands[j];
      CollectComplete(acc, s, cands[1..], j - 1);
    case Some(a) =>
      if HasUrl(acc, a.url) {
        CollectExtends(acc, s, cands[1..]);
        if j == 0 {
          var i :| 0 <= i < |acc| && acc[i].url == a.url;
          assert r[i] == acc[i];
        } else {
          assert cands[1..][j - 1] == cands[j];
          CollectComplete(acc, s, cands[1..], j - 1);
        }
      } else {
        assert |acc| + 1 < Cap;
        CollectExtends(acc + [a], s, cands[1..]);
        if j == 0 {
          assert r[|acc|] == (acc + [a])[|acc|] == a;
        } else {
          assert cands[1..][j - 1] == cands[j];
          CollectComplete(acc + [a], s, cands[1..], j - 1);
        }
      }
  }

  /** Every url strategy 1 accepts starts with `http`. */
  lemma HeadingUrlsAbsolute(e: Option<Link>)
    requires Candidate(ByHeading, e).Some?
    ensures StartsWith(Candidate(ByHeading, e).value.url, "http")
  {
    var u := e.value.href;
    assert StartsWith(BaseUrl, "http");
    if StartsWith(u, "/") {
      assert (BaseUrl + u)[..4] == BaseUrl[..4];
    } else if !StartsWith(u, "http") {
      assert (BaseUrl + "/" + u)[..4] == BaseUrl[..4];
    }
  }

  /** Strategy 1 alone yields only urls starting with `http`. */
  lemma {:induction false} SweepAbsolute(acc: seq<NewsArticle>, hits: seq<seq<Option<Link>>>)
    requires AbsoluteUrls(acc)
    ensures AbsoluteUrls(Sweep(acc, hits))
    decreases |hits|
  {
    if hits != [] && hits[0] != [] {
      var cands := Take(hits[0], SelectorLimit);
      var next := Collect(acc, ByHeading, cands);
      CollectExtends(acc, ByHeading, cands);
      forall k | 0 <= k < |next| ensures StartsWith(next[k].url, "http") {
        if k < |acc| {
          assert next[k] == acc[k];
        } else {
          CollectSound(acc, ByHeading, cands, k);
          var j :| 0 <= j < |cands| && Candidate(ByHeading, cands[j]) == Some(next[k]);
          HeadingUrlsAbsolute(cands[j]);
        }
      }
      if |next| < Enough {
        SweepAbsolute(next, hits[1..]);
      }
    } else if hits != [] {
      SweepAbsolute(acc, hits[1..]);
    }
  }

  /** Strategy 1 stops below `Cap` only by running out of selectors, and never passes `Cap`. */
  lemma {:induction false} SweepBounded(acc: seq<NewsArticle>, hits: seq<seq<Option<Link>>>)
    requires |acc| < Enough && UniqueUrls(acc)
    ensures |Sweep(acc, hits)| <= Cap && UniqueUrls(Sweep(acc, hits))
    decreases |hits|
  {
    if hits != [] {
      if hits[0] == [] {
        SweepBounded(acc, hits[1..]);
      } else {
        var cands := Take(hits[0], SelectorLimit);
        var next := Collect(acc, ByHeading, cands);
        CollectCapped(acc, ByHeading, cands);
        CollectUnique(acc, ByHeading, cands);
        if |next| < Enough {
          SweepBounded(next, hits[1..]);
        }
      }
    }
  }

  /** The articles list never holds more than ten entries nor two entries with the same url. */
  lemma ArticlesBounded(page: Page)
    ensures |Articles(page)| <= Cap && UniqueUrls(Articles(page))
  {
    var s1 := Sweep([], page.selectorHits);
    SweepBounded([], page.selectorHits);
    var links := LinkCandidates(Take(page.links, LinkLimit));
    var tags := TagCandidates(Take(page.tags, TagLimit));
    var s2 := if |s1| < Enough then Collect(s1, ByDatedLink, links) else s1;
    if |s1| < Enough {
      CollectCapped(s1, ByDatedLink, links);
      CollectUnique(s1, ByDatedLink, links);
    }
    if |s2| < Enough {
      CollectCapped(s2, ByArticleTag, tags);
      CollectUnique(s2, ByArticleTag, tags);
    }
  }

  /** Strategies 2 and 3 are not consulted once strategy 1 found `Enough` articles (this restates `Articles`). */
  lemma FallbacksOnlyWhenShort(page: Page)
    requires |Sweep([], page.selectorHits)| >= Enough
    ensures Articles(page) == Sweep([], page.selectorHits)
  {
  }

  /** The `/2024/` and `/2025/` tests of strategy 2 are subsumed by the `/20` test. */
  lemma {:induction false} DatedHrefIsSlashTwenty(href: string)
    ensures DatedHref(href) <==> Contains(href, "/20")
    decreases |href|
  {
    if Contains(href, "/2024/") || Contains(href, "/2025/") {
      YearImpliesSlashTwenty(href, "/2024/");
      YearImpliesSlashTwenty(href, "/2025/");
    }
  }

  lemma {:induction false} YearImpliesSlashTwenty(href: string, year: string)
    requires |year| >= 3 && year[..3] == "/20"
    ensures Contains(href, year) ==> Contains(href, "/20")
    decreases |href|
  {
    if StartsWith(href, year) {
      assert href[..3] == year[..3];
    } else if |href| > 0 {
      YearImpliesSlashTwenty(href[1..], year);
    }
  }

  /** Strategy 2 keeps exactly the links whose href contains `/20` and whose text has between 21 and 199 characters. */
  lemma DatedLinkFilter(l: Link)
    ensures Candidate(ByDatedLink, Some(l)).Some? <==> Contains(l.href, "/20") && 20 < |l.text| < 200
    ensures Candidate(ByDatedLink, Some(l)).Some? ==>
      Candidate(ByDatedLink, Some(l)).value == Article(l.text, if StartsWith(l.href, "/") then BaseUrl + l.href else l.href)
  {
    DatedHrefIsSlashTwenty(l.href);
  }

  // ---------------------------------------------------------------------
  // Properties of the result

  /** A 200 response is reported as data exactly as found: nothing is cut, since at most ten were found. */
  lemma SuccessReportsAll(name: string, page: Page)
    requires Articles(page) != []
    ensures ExecuteResult(name, Response(200, page)).data == Articles(page)
    ensures ExecuteResult(name, Response(200, page)).count == Some(|Articles(page)|)
  {
    ArticlesBounded(page);
  }

  /** Only a 200 response gives `success`; otherwise the message is the exception text or `HTTP <code>` and data is empty. */
  lemma ErrorCases(name: string, fetch: Fetch<Page>)
    ensures ExecuteResult(name, fetch).status == Success <==> fetch.Response? && fetch.code == 200
    ensures fetch.Exception? ==> ExecuteResult(name, fetch) == ErrorResult(name, fetch.message)
    ensures fetch.Response? && fetch.code != 200 ==>
      ExecuteResult(name, fetch).message == Some("HTTP " + NatToString(fetch.code)) && ExecuteResult(name, fetch).data == []
  {
  }
}
