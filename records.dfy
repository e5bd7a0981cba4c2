/**
 * The dictionaries the workers return and the inputs that stand for the
 * network and the parsed HTML.
 */
module Records {
  import opened Wrappers
  import opened Text

  /** One entry of a worker's `data` list. */
  datatype Item =
    | Article(title: string, url: string)
    | Quote(symbol: string, name: string, price: string, change: string, note: Option<string>)
    | Coin(name: string, symbol: string, price: string, change24h: string, marketCap: string)

  /** A `{'title', 'url'}` entry, the only kind the news workers produce. */
  type NewsArticle = it: Item | it.Article? witness Article("", "")

  datatype ResultStatus = Success | Error

  /**
   * A worker's result dictionary: `agent`, `status`, `data`, and the optional
   * `message`, `count`, `warning` and `debug` keys.
   */
  datatype AgentResult = AgentResult(
    agent: string,
    status: ResultStatus,
    data: seq<Item>,
    message: Option<string>,
    count: Option<nat>,
    warning: Option<string>,
    debug: Option<string>)

  /** `{'agent': agent, 'status': 'success', 'data': data}` */
  function SuccessResult(agent: string, data: seq<Item>): (r: AgentResult)
    ensures r.status == Success && r.agent == agent && r.data == data && r.message == None
  {
    AgentResult(agent, Success, data, None, None, None, None)
  }

  /** `{'agent': agent, 'status': 'error', 'message': message, 'data': []}` */
  function ErrorResult(agent: string, message: string): (r: AgentResult)
    ensures r.status == Error && r.agent == agent && r.data == [] && r.message == Some(message)
  {
    AgentResult(agent, Error, [], Some(message), None, None, None)
  }

  /** The message of a non-200 response: `f'HTTP {response.status}'`. */
  function HttpMessage(code: nat): string {
    "HTTP " + NatToString(code)
  }

  /** What a tool wrapper hands back to the language model: the worker's dictionary as it is, or a text. */
  datatype ToolReply = Raw(result: AgentResult) | Note(text: string)

  /** What an awaited call did: it returned a value or it raised an exception with this text. */
  datatype Outcome<+T> = Returned(value: T) | Raised(message: string)

  /**
   * One HTTP GET as the workers see it: a response with its status code and
   * the page as parsed, or an exception (connection error, timeout, parser failure).
   */
  datatype Fetch<+P> = Response(code: nat, page: P) | Exception(message: string)

  /** An `<a>` element (or a heading together with the link found for it): its text and its href. */
  datatype Link = Link(text: string, href: string)

  /** An `<article>` element: the text of its first heading and the href of its first link, when present. */
  datatype ArticleTag = ArticleTag(heading: Option<string>, href: Option<string>)

  predicate HasUrl(articles: seq<NewsArticle>, url: string) {
    exists i :: 0 <= i < |articles| && articles[i].url == url
  }

  /** No two articles share a url. */
  predicate UniqueUrls(articles: seq<NewsArticle>) {
    forall i, j :: 0 <= i < j < |articles| ==> articles[i].url != articles[j].url
  }

  /** Every article's url starts with `http`. */
  predicate AbsoluteUrls(items: seq<Item>) {
    forall i :: 0 <= i < |items| ==> items[i].Article? && StartsWith(items[i].url, "http")
  }
}
