# News and market agents: a verified model of the post-processing

The repository is a demo around an external agent library. Several small
"workers" scrape a news site or a market page. Orchestrators run them
concurrently, then turn their result records into text for a language model
or into JSON for a web page. This project models the part the repository
implements itself. Everything it receives over the network or from the model
client is an input.

- **The workers** (`BbcNewsAgent`, `TechCrunchAgent`, `SimpleTechCrunchAgent`,
  `StockAgent`, on top of `BaseAgent`):
  - each turns the candidates found on a page into a bounded list of
    articles or quotes;
  - each classifies the outcome as success, warning, placeholder or error;
  - each moves its `status` field from `ready` to `working` and then to
    `completed` or `failed`.

  An HTTP exchange is a `Fetch`: either a status code with the page's
  candidates in document order, or an exception message. Each `find_all`
  limit of the source is kept as a constant and applied with `Take`.
  `BaseAgent.Agent` keeps a ghost `trail` of every status it has held, so
  the contracts can state the order of status changes.
- **The result organiser** (`Orchestrator`):
  - its registry holds the four workers;
  - `execute_all_agents` and `execute_specific_agents` map the ordered
    outcomes of `asyncio.gather` (`Outcome`: `Returned(result)` or
    `Raised(message)`) to one record per name.
- **The formatters** (`NewsFormat`, used by `NewsApi`, `NewsOrchestrator`,
  `ToolsOrchestrator` and `UseKeyMain`):
  - the numbered-headline renderers are one loop, parameterised by a
    `Style`: header, title decoration, link prefix and the error leads;
  - `NewsApi` also holds the numbered-line title parser, the final list
    selection and the `workflow_info` counts of `fetch_all_news`;
  - the lemmas prove that parsing a rendered reply gives back the shown
    titles.
- **The fan-out/fan-in executors** of the visualisation demo
  (`ConcurrentViz`):
  - the dispatcher sends one request per expert;
  - the aggregator folds the replies into a consolidated text with its
    sections in a fixed order;
  - a `WorkflowContext` object stands in for the engine's context and
    records what is sent and yielded.

Shared pieces:

- `Wrappers`: `Option` and `Result`.
- `Text`: the Python string operations used (`startswith`, `in`, slicing,
  `strip`, `isdigit`, `split('\n')`, `split('.', 1)`, `str(int)`).
- `Records`: the result dictionaries as datatypes.

## Model

| member | source | states |
|---|---|---|
| BaseAgent.Agent.constructor | _src/agentConcurrentOrchestrator/tools/base_agent.py:13-21 | the name is stored exactly as given and a new agent is `ready` |
| BaseAgent.Agent.GetStatus | _src/agentConcurrentOrchestrator/tools/base_agent.py:36-38 | returns the current status and changes nothing (no `modifies`) |
| BaseAgent.Agent.SetStatus | src/agents/bbc_news_agent.py:27 | a status assignment makes the field the new status and appends it to the trail of statuses held |
| BbcNewsAgent.Absolute | src/agents/bbc_news_agent.py:47-48 | every URL after prefixing with `https://www.bbc.com` starts with `http` |
| BbcNewsAgent.Data | src/agents/bbc_news_agent.py:75 | the data is the first five articles, or exactly the one `No articles found` placeholder when there are none; never empty and at most five |
| BbcNewsAgent.CollectHeadlines | src/agents/bbc_news_agent.py:43-53 | the headline loop builds exactly the articles of the headlines that have a link with a non-empty href |
| BbcNewsAgent.ScanLinks | src/agents/bbc_news_agent.py:57-69 | the fallback loop, with its `break` at five, computes the fallback specification |
| BbcNewsAgent.NewAgent | src/agents/bbc_news_agent.py:13-15 | a new BBC worker is named `BBC News Agent` and is `ready` |
| BbcNewsAgent.Execute | src/agents/bbc_news_agent.py:27-92 | the result is the specified one; the status goes to `working`, then to `completed` exactly on a 200 answer, `failed` otherwise |
| BbcNewsAgent.HeadlineArticlesExact | src/agents/bbc_news_agent.py:43-53 | an article is collected if and only if some headline has a link with a non-empty href and yields that article |
| BbcNewsAgent.HeadlineUrlsAbsolute | src/agents/bbc_news_agent.py:47-48 | every URL collected from headlines starts with `http` |
| BbcNewsAgent.FallbackShape | src/agents/bbc_news_agent.py:58-69 | the fallback stops at five articles; each added URL starts with `http`; each title is at most 100 characters |
| BbcNewsAgent.FallbackSound | src/agents/bbc_news_agent.py:58-67 | every fallback article comes from a link whose text is longer than 20 characters and whose href contains `/news/` |
| BbcNewsAgent.KeptLinksExact | src/agents/bbc_news_agent.py:58-67 | a link's article is kept if and only if the link's text is longer than 20 characters and its href contains `/news/` |
| BbcNewsAgent.FallbackExact | src/agents/bbc_news_agent.py:57-69 | the fallback is exactly the articles already found followed by the kept links, in link order, cut after the fifth |
| BbcNewsAgent.FallbackComplete | src/agents/bbc_news_agent.py:58-69 | when the fallback stops short of five, every link that passes the filter contributes its article |
| BbcNewsAgent.FallbackPrefix | src/agents/bbc_news_agent.py:58-69 | the fallback only appends: the articles already found stay first, unchanged |
| BbcNewsAgent.FallbackOnlyWhenEmpty | src/agents/bbc_news_agent.py:55-57 | the link scan is used exactly when the headlines produced no article |
| BbcNewsAgent.SuccessData | src/agents/bbc_news_agent.py:71-76 | a 200 answer gives `success` with one to five items, all with absolute URLs |
| BbcNewsAgent.ErrorCases | src/agents/bbc_news_agent.py:77-92 | success if and only if the answer is 200; a non-200 answer gives `error` with `HTTP <code>` and no data; an exception gives `error` with its message |
| TechCrunchAgent.LinkCandidates | agentOrchestrator/tools/techcrunch_agent.py:104-106 | each scanned link is a candidate, in order |
| TechCrunchAgent.TagCandidates | agentOrchestrator/tools/techcrunch_agent.py:126-132 | an `<article>` is a candidate exactly when it has both a heading and a link element |
| TechCrunchAgent.Classify | agentOrchestrator/tools/techcrunch_agent.py:147-176 | five or more articles give the first ten with their count and neither warning nor debug hint; one to four give all of them, the count and the warning `Only found n articles (expected minimum 5)`; none give one placeholder with count 0 and the debug hint |
| TechCrunchAgent.Scan | agentOrchestrator/tools/techcrunch_agent.py:58-97 | the candidate loop, with its duplicate test and its `break` at ten, computes the collection specification |
| TechCrunchAgent.SweepSelectors | agentOrchestrator/tools/techcrunch_agent.py:55-100 | the selector loop, which stops once five articles are found, computes the sweep specification |
| TechCrunchAgent.Harvest | agentOrchestrator/tools/techcrunch_agent.py:55-145 | the three strategies give the specified articles: at most ten, with no URL twice |
| TechCrunchAgent.NewAgent | agentOrchestrator/tools/techcrunch_agent.py:13-15 | a new worker is named `TechCrunch Agent` and is `ready` |
| TechCrunchAgent.Execute | agentOrchestrator/tools/techcrunch_agent.py:27-192 | the result is the specified one; the status goes to `working`, then to `completed` exactly on a 200 answer, `failed` otherwise |
| TechCrunchAgent.CollectExtends | agentOrchestrator/tools/techcrunch_agent.py:89-94 | collecting only appends to the articles already found |
| TechCrunchAgent.CollectUnique | agentOrchestrator/tools/techcrunch_agent.py:89-94 | collecting never adds a URL that is already present |
| TechCrunchAgent.CollectCapped | agentOrchestrator/tools/techcrunch_agent.py:96-97 | collecting never goes beyond ten articles |
| TechCrunchAgent.CollectSound | agentOrchestrator/tools/techcrunch_agent.py:81-94 | every added article is what some candidate yields under the strategy's filter and URL rewriting |
| TechCrunchAgent.CollectComplete | agentOrchestrator/tools/techcrunch_agent.py:89-97 | if the cap was not reached, the URL of every accepted candidate is present |
| TechCrunchAgent.HeadingUrlsAbsolute | agentOrchestrator/tools/techcrunch_agent.py:82-87 | the URL of an accepted heading candidate starts with `http` after rewriting |
| TechCrunchAgent.SweepAbsolute | agentOrchestrator/tools/techcrunch_agent.py:55-100 | every URL found by the selector strategy starts with `http` |
| TechCrunchAgent.SweepBounded | agentOrchestrator/tools/techcrunch_agent.py:55-100 | the selector strategy leaves at most ten articles with no URL twice |
| TechCrunchAgent.ArticlesBounded | agentOrchestrator/tools/techcrunch_agent.py:55-145 | after all three strategies there are at most ten articles with no URL twice |
| TechCrunchAgent.FallbacksOnlyWhenShort | agentOrchestrator/tools/techcrunch_agent.py:102-124 | with five or more articles from the selectors, strategies 2 and 3 change nothing |
| TechCrunchAgent.DatedHrefIsSlashTwenty | agentOrchestrator/tools/techcrunch_agent.py:108 | the test for any of `/2024/`, `/2025/`, `/20` is the same as a test for `/20` |
| TechCrunchAgent.YearImpliesSlashTwenty | agentOrchestrator/tools/techcrunch_agent.py:108 | a href containing a year path also contains `/20` |
| TechCrunchAgent.DatedLinkFilter | agentOrchestrator/tools/techcrunch_agent.py:105-112 | a link is kept if and only if its href contains `/20` and its title length is strictly between 20 and 200; only a `/`-prefixed URL is rewritten |
| TechCrunchAgent.SuccessReportsAll | agentOrchestrator/tools/techcrunch_agent.py:149-164 | on a 200 answer with articles, data and count report all of them |
| TechCrunchAgent.ErrorCases | agentOrchestrator/tools/techcrunch_agent.py:177-192 | success if and only if the answer is 200; a non-200 answer gives `HTTP <code>` and no data; an exception gives its message |
| SimpleTechCrunchAgent.Data | _src/useKey/agentTools/tools/techcrunch_agent.py:78 | the data is the first five articles, or exactly the one placeholder; never empty and at most five |
| SimpleTechCrunchAgent.CollectElements | _src/useKey/agentTools/tools/techcrunch_agent.py:43-60 | the element loop, with its `continue` for a heading without a link, computes the element specification |
| SimpleTechCrunchAgent.CollectTags | _src/useKey/agentTools/tools/techcrunch_agent.py:64-72 | the `<article>` loop computes the tag specification |
| SimpleTechCrunchAgent.NewAgent | _src/useKey/agentTools/tools/techcrunch_agent.py:13-15 | a new worker is named `TechCrunch Agent` and is `ready` |
| SimpleTechCrunchAgent.Execute | _src/useKey/agentTools/tools/techcrunch_agent.py:27-95 | the result is the specified one; the status goes to `working`, then to `completed` exactly on a 200 answer, `failed` otherwise |
| SimpleTechCrunchAgent.ElementArticlesExact | _src/useKey/agentTools/tools/techcrunch_agent.py:43-60 | an article is collected if and only if some element has a link with a non-empty title and URL that yields it |
| SimpleTechCrunchAgent.TagArticlesExact | _src/useKey/agentTools/tools/techcrunch_agent.py:64-72 | an article is collected if and only if some `<article>` has both a heading and a link whose text and href are that article's title and URL |
| SimpleTechCrunchAgent.FallbackOnlyWhenEmpty | _src/useKey/agentTools/tools/techcrunch_agent.py:62-64 | the `<article>` fallback is used exactly when the elements produced no article |
| SimpleTechCrunchAgent.ResultShape | _src/useKey/agentTools/tools/techcrunch_agent.py:74-95 | success if and only if the answer is 200, then with one to five items; an error has no data and a message, `HTTP <code>` for a non-200 answer |
| StockAgent.Placeholders | _src/useKey/agentTools/tools/stock_agent.py:75-83 | there are five placeholders |
| StockAgent.ScrapeRows | _src/useKey/agentTools/tools/stock_agent.py:56-70 | the row loop computes the row specification |
| StockAgent.AddPlaceholders | _src/useKey/agentTools/tools/stock_agent.py:75-83 | the placeholder loop appends exactly the five placeholders |
| StockAgent.NewAgent | _src/useKey/agentTools/tools/stock_agent.py:13-16 | a new worker is named `Stock Prices Agent` and is `ready` |
| StockAgent.Execute | _src/useKey/agentTools/tools/stock_agent.py:28-99 | the result is the specified one; the status goes to `working`, then to `completed` once the session opened, `failed` on an outer exception |
| StockAgent.RowQuotesExact | _src/useKey/agentTools/tools/stock_agent.py:56-70 | a quote is scraped if and only if some row yields it |
| StockAgent.RowQuoteFields | _src/useKey/agentTools/tools/stock_agent.py:58-64 | a row is kept if and only if it has at least three cells, a non-empty symbol and a price other than `N/A`; its change is the fourth cell or `N/A` |
| StockAgent.PlaceholderSymbols | _src/useKey/agentTools/tools/stock_agent.py:31-83 | with nothing scraped the data is exactly AAPL, MSFT, GOOGL, AMZN, TSLA, in order, each with change `N/A` and a note |
| StockAgent.OpenedSucceeds | _src/useKey/agentTools/tools/stock_agent.py:85-90 | once the session is open the result is `success` with one to ten quotes |
| StockAgent.RowQuotesAreQuotes | _src/useKey/agentTools/tools/stock_agent.py:65-70 | everything scraped is a quote |
| StockAgent.ScrapeFailureSwallowed | _src/useKey/agentTools/tools/stock_agent.py:71-75 | a failed page fetch is not an error: the worker succeeds with the placeholders |
| Orchestrator.Record | src/orchestrator.py:45-53 | a returned result is stored unchanged; an exception becomes an `error` record with the worker's display name, the message and no data |
| Orchestrator.Selected | src/orchestrator.py:71-74 | the selected names are exactly the requested names that are registered |
| Orchestrator.AgentOrchestrator.Display | src/orchestrator.py:47 | the display name of each key is the name of the worker registered under it |
| Orchestrator.AgentOrchestrator.constructor | src/orchestrator.py:12-19 | the registry holds `bbc_news`, `techcrunch`, `crypto`, `stocks` with their workers, all new and `ready` |
| Orchestrator.AgentOrchestrator.GetAvailableAgents | src/orchestrator.py:97-99 | returns exactly `bbc_news, techcrunch, crypto, stocks`, in that order |
| Orchestrator.AgentOrchestrator.OrganizeResults | src/orchestrator.py:43-53 | the organising loop computes the organise specification |
| Orchestrator.AgentOrchestrator.ExecuteAllAgents | src/orchestrator.py:21-55 | the outcomes are organised against the registry in order |
| Orchestrator.AgentOrchestrator.SelectAgents | src/orchestrator.py:68-74 | the selection loop keeps the registered names, in request order |
| Orchestrator.AgentOrchestrator.ExecuteSpecificAgents | src/orchestrator.py:57-95 | with no valid name the result is exactly the `No valid agents selected` error; otherwise the outcomes are organised against the selected names |
| Orchestrator.OrganizeTruncates | src/orchestrator.py:44 | pairing stops at the shorter of names and outcomes |
| Orchestrator.OrganizeKeys | src/orchestrator.py:83-93 | the keys are exactly the names paired with an outcome, so a repeated name is one key |
| Orchestrator.OrganizeLastWins | src/orchestrator.py:84-93 | each name holds the record of its last paired outcome |
| Orchestrator.AllAgentsOnePerName | src/orchestrator.py:35-55 | running all workers gives exactly one entry per registered name, holding the record of the outcome at its position |
| Orchestrator.SpecificKeys | src/orchestrator.py:71-93 | the keys are registered, requested names; when every selected worker has an outcome, every requested registered name is a key |
| NewsFormat.Formatted | agentConcurrentOrchestrator/api.py:55-70 | an exception gives the error lead with its message; a failed or empty result gives the failure lead with the message or `Unknown error`; otherwise the header then the numbered entries of at most five items |
| NewsFormat.Format | agentConcurrentOrchestrator/api.py:55-70 | the formatter computes the formatting specification |
| NewsFormat.RenderShown | agentConcurrentOrchestrator/api.py:61-66 | the rendering loop gives the header followed by entry `i` for each shown article, numbered from 1; an item without a title is an error |
| NewsFormat.RenderStep | agentConcurrentOrchestrator/api.py:64-65 | one pass of the loop appends the next numbered entry |
| NewsFormat.EntriesSnoc | agentConcurrentOrchestrator/api.py:63-65 | the entry of the last article comes last and carries the next number |
| NewsFormat.ApiStylesWellFormed | agentConcurrentOrchestrator/api.py:61-87 | the BBC and tech styles have single-line headers and decorations that the parser can read back |
| NewsFormat.SorryWellFormed | agentNews/orchestrator.py:48-51 | the `Here are the latest BBC news articles:` style is well formed too |
| NewsFormat.EntryLinesSingle | agentConcurrentOrchestrator/api.py:64-65 | the title and link lines of an article without line breaks have no line break |
| NewsFormat.EntrySplit | agentConcurrentOrchestrator/api.py:64-65 | splitting an entry on line breaks gives its title line, its link line and an empty line |
| NewsFormat.SplitEntries | agentConcurrentOrchestrator/api.py:63-65 | splitting all entries gives three lines per article, in order |
| NewsFormat.FormattedLines | agentConcurrentOrchestrator/api.py:61-66 | splitting the rendered text gives the header lines followed by the entry lines |
| NewsFormat.EntryLinesAt | agentConcurrentOrchestrator/api.py:63-65 | line `3i` is the title line of article `i`, numbered `i+1`; the next is its link line; the one after is empty |
| NewsFormat.RenderedShape | agentConcurrentOrchestrator/api.py:61-66 | line `3i+2` of the rendered text is the numbered title of article `i` and line `3i+3` is its link |
| NewsApi.GetBbcNews | agentConcurrentOrchestrator/api.py:55-70 | the BBC formatter gives the BBC header with at most five entries, `Could not fetch BBC news: …`, or `Error fetching BBC news: …` |
| NewsApi.GetTechNews | agentConcurrentOrchestrator/api.py:72-87 | the tech formatter gives the tech header with at most five entries, `Could not fetch tech news: …`, or `Error fetching tech news: …` |
| NewsApi.ParseLine | agentConcurrentOrchestrator/api.py:146-148 | a line is kept if and only if it starts with a digit and has a `.` in its first five characters; a kept line has URL `#` and a title with no surrounding whitespace |
| NewsApi.ParseTitles | agentConcurrentOrchestrator/api.py:143-148 | the parsing loop keeps the numbered lines of the text, in order |
| NewsApi.ParseReply | agentConcurrentOrchestrator/api.py:141-148 | no reply text gives no articles; otherwise its numbered lines are parsed |
| NewsApi.Selection | agentConcurrentOrchestrator/api.py:164-165 | the final list is the first five items of a `success` result and empty otherwise |
| NewsApi.FetchAllNews | agentConcurrentOrchestrator/api.py:89-185 | the handler computes the fetch-all specification |
| NewsApi.ConfigurationFirst | agentConcurrentOrchestrator/api.py:96-97 | without configuration the answer is the configuration error, whatever the workers return |
| NewsApi.WorkflowCounts | agentConcurrentOrchestrator/api.py:164-180 | a successful answer holds the selected lists; each count is the length of its list and at most five; the total is their sum |
| NewsApi.RepliesDiscarded | agentConcurrentOrchestrator/api.py:141-165 | the parsed model replies do not affect the answer |
| NewsApi.DotWithinLine | agentConcurrentOrchestrator/api.py:147 | a kept line always contains a `.`, so the `else` branch of the title expression is never taken |
| NewsApi.NonBlankImplied | agentConcurrentOrchestrator/api.py:146 | the kept-line test is the same with or without its non-blank condition |
| NewsApi.ParseLinesAppend | agentConcurrentOrchestrator/api.py:144-148 | parsing the lines of two texts one after the other parses each in turn |
| NewsApi.ParseTitleLine | agentConcurrentOrchestrator/api.py:146-148 | a rendered title line numbered below ten parses to its stripped, decorated title with URL `#` |
| NewsApi.ParseEntry | agentConcurrentOrchestrator/api.py:145-148 | a rendered entry parses to exactly one article: its title line |
| NewsApi.ParsedTitleAt | agentConcurrentOrchestrator/api.py:147-148 | the `i`-th parsed title is the stripped, decorated title of article `i` |
| NewsApi.ParseEntryLines | agentConcurrentOrchestrator/api.py:144-148 | the entry lines of fewer than ten articles parse to one title per article, in order |
| NewsApi.RenderParseRoundTrip | agentConcurrentOrchestrator/api.py:141-148 | parsing the rendered header and entries gives back one article per shown article, in order |
| NewsApi.ApiRoundTrip | agentConcurrentOrchestrator/api.py:141-158 | parsing either formatter's output gives back the shown titles, stripped, with URL `#` |
| ConcurrentViz.ExecutorId | agentVisulaization/concurrent_with_visualization.py:45-46 | a given non-empty id is used; otherwise the default |
| ConcurrentViz.Requests | agentVisulaization/concurrent_with_visualization.py:52-57 | one request per expert id |
| ConcurrentViz.WorkflowContext.SendMessage | agentVisulaization/concurrent_with_visualization.py:55-57 | a send is recorded after the earlier ones and yields nothing |
| ConcurrentViz.WorkflowContext.YieldOutput | agentVisulaization/concurrent_with_visualization.py:103 | an output is recorded after the earlier ones and sends nothing |
| ConcurrentViz.DispatchToExperts.constructor | agentVisulaization/concurrent_with_visualization.py:45-47 | the id defaults to `dispatch_to_experts`; the expert ids are kept |
| ConcurrentViz.DispatchToExperts.Dispatch | agentVisulaization/concurrent_with_visualization.py:50-57 | the loop sends exactly the requests for the experts, in `expert_ids` order, and yields nothing |
| ConcurrentViz.AggregateInsights.constructor | agentVisulaization/concurrent_with_visualization.py:72-74 | the id defaults to `aggregate_insights`; the expert ids are kept |
| ConcurrentViz.AggregateInsights.Aggregate | agentVisulaization/concurrent_with_visualization.py:77-103 | exactly one output, the consolidated text of the replies; nothing is sent |
| ConcurrentViz.RequestsOnePerExpert | agentVisulaization/concurrent_with_visualization.py:52-57 | request `i` is addressed to expert `i` and carries the prompt as a single user message with `should_respond` set |
| ConcurrentViz.ByIdLastWins | agentVisulaization/concurrent_with_visualization.py:79-82 | a reply not followed by another with the same id is the text kept for that id |
| ConcurrentViz.ByIdKeys | agentVisulaization/concurrent_with_visualization.py:79-82 | the ids with a text are exactly the ids that replied |
| ConcurrentViz.ArrivalOrderIrrelevant | agentVisulaization/concurrent_with_visualization.py:79-101 | when each expert replies once, any arrival order gives the same texts by id and the same consolidated text, Research then Marketing then Legal |
| ConcurrentViz.OtherIdsIgnored | agentVisulaization/concurrent_with_visualization.py:84-86 | a reply from any id other than the three experts changes nothing |
| ConcurrentViz.MissingExpertEmpty | agentVisulaization/concurrent_with_visualization.py:84-86 | an expert without a reply contributes an empty text |
| NewsOrchestrator.GetBbcNews | agentNews/orchestrator.py:29-58 | the formatter computes the formatting specification in its own style |
| NewsOrchestrator.Query | agentNews/orchestrator.py:70 | a non-empty topic gives `Get me the latest BBC news about <topic>`; no topic or an empty one gives `Get me the latest BBC news` |
| NewsOrchestrator.SorryHeadlines | agentNews/orchestrator.py:46-53 | the output is the header, a blank line, then for each of at most five articles `i. **title**` and `   Link: url`, numbered from 1 |
| NewsOrchestrator.SorryFailure | agentNews/orchestrator.py:54-55 | a failed or empty result gives `Sorry, I couldn't fetch news at the moment. Error: ` with the message or `Unknown error` |
| NewsOrchestrator.SorryRaised | agentNews/orchestrator.py:57-58 | an exception gives `Error fetching news: ` with its message |
| ToolsOrchestrator.CryptoReply | agentTools/orchestrator.py:74-86 | a worker result is passed through unchanged; an exception gives `Error fetching crypto data: ` with its message |
| ToolsOrchestrator.Query | agentTools/orchestrator.py:98 | the query is a space followed by the topic, or ` None` when there is none |
| ToolsOrchestrator.Orchestrator.constructor | agentTools/orchestrator.py:27-28 | a new BBC worker, `ready`, and no crypto worker yet |
| ToolsOrchestrator.Orchestrator.GetBbcNews | agentTools/orchestrator.py:30-59 | the formatter computes the formatting specification in the `Sorry` style |
| ToolsOrchestrator.Orchestrator.GetCryptoData | agentTools/orchestrator.py:61-86 | the crypto worker is created on the first call only and reused afterwards; the reply is the specified one |
| UseKeyMain.TechNewsReply | _src/useKey/agentConcurrentOrchestrator/main.py:73-85 | a worker result is passed through unchanged; an exception gives `Error fetching crypto data: ` with its message |
| UseKeyMain.Orchestrator.constructor | _src/useKey/agentConcurrentOrchestrator/main.py:26-27 | a new BBC worker, `ready`, and no tech-news worker yet |
| UseKeyMain.Orchestrator.GetBbcNews | _src/useKey/agentConcurrentOrchestrator/main.py:29-58 | the formatter computes the formatting specification in the `Sorry` style |
| UseKeyMain.Orchestrator.GetTechnewsData | _src/useKey/agentConcurrentOrchestrator/main.py:60-85 | the tech-news worker is created on the first call only and reused afterwards; the reply is the specified one |

## Left out

- The workflow engine, its fan-in barrier and its graph visualiser are part of the external agent library and are not in the repository. `WorkflowContext` only records sends and outputs.
- Network access and HTML parsing are inputs. A `Fetch` is a status code with the page's candidates in document order, or an exception message. The `find_all` limits are applied to those candidates.
- ExecuteAllAgents (`Orchestrator.AgentOrchestrator`): each registered worker's `execute` sets its `status` to `working` and then to `completed` or `failed`. The method takes the runs as its `gathered` outcomes and does not change the workers, so those status changes are not modelled.
- ExecuteSpecificAgents (`Orchestrator.AgentOrchestrator`): the same holds for the selected workers. Their status changes during the run are not modelled.
- GetCryptoData (`ToolsOrchestrator.Orchestrator`): the crypto worker's run is the `outcome` input. The status changes that run makes on the worker are not modelled, so the contract says nothing about the worker's status after the call.
- GetTechnewsData (`UseKeyMain.Orchestrator`): the same holds for the tech-news worker. Its status after the call is not stated.
- GetBbcNews (`NewsOrchestrator`, `ToolsOrchestrator.Orchestrator`, `UseKeyMain.Orchestrator`, `NewsApi`): the BBC worker's run is the `outcome` input. The status changes it makes on that worker are not modelled; the same holds for `NewsApi.GetTechNews` and the tech worker.
- Concurrency: the results of `asyncio.gather` are an ordered sequence of outcomes. The order in which workers run is not modelled.
- Model clients, credentials and `agent.run`: the model's reply texts are inputs to `NewsApi.FetchAllNews`. The prompts sent with them are not modelled.
- Routes, the web UI, environment checks beyond the configuration test, `print` and `input` are not modelled.
- Floating-point formatting is not modelled, and neither is the crypto worker (src/agents/crypto_agent.py). It appears only by its name, `Crypto Prices Agent`, in the registry.
- The registry in src/orchestrator.py imports TechCrunch and stock workers from `src/agents`. Those files are not part of this model. The registry uses the names of the modelled copies in agentOrchestrator/tools and _src/useKey/agentTools/tools.
- The `tools.bbc_news_agent` and `tools.techcrunch_agent` copies imported by agentConcurrentOrchestrator/api.py and _src/useKey/agentConcurrentOrchestrator/main.py are not part of this model. Their results are inputs (`Outcome<AgentResult>`).
- `execute` is abstract in `BaseAgent`. Each worker module provides its own `Execute` method over `BaseAgent.Agent`; there is no dispatch through the base class.
- StockAgent.Execute: an exception partway through the row loop keeps the quotes scraped before it. The model treats any failed fetch as nothing scraped, so the data is the placeholders.
- Text.IsDigit: Python's `str.isdigit` also accepts non-ASCII digits. The model accepts only `0`–`9`.
- Python dictionaries keep insertion order. The organiser's result is a `map`, so the order of its keys is not modelled.
- NewsApi.ParseLine: the `else line.strip()` branch of the title expression is never taken, because a kept line has a `.` in its first five characters (`NewsApi.DotWithinLine`). The model leaves that branch out.
- The dictionary access `result['data']` on a record without that key cannot happen in the model, because `AgentResult` always has a data field. A missing `title` in an item raises `KeyError` in the formatters; the model renders that as the formatter's exception text, `'title'` after the error lead (`RenderShown`).
