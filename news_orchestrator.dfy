/**
 * The news demo's orchestrator: its BBC renderer and the query it puts to
 * the language-model agent.
 */
module NewsOrchestrator {
  import opened Wrappers
  import opened Text
  import opened Records
  import opened NewsFormat

  /** `get_bbc_news` */
  method GetBbcNews(outcome: Outcome<AgentResult>) returns (text: string)
    ensures text == Formatted(Sorry, outcome)
  {
    text := Format(Sorry, outcome);
  }

  /** The query of `get_agent_responses`: the topic is mentioned only when it is truthy. */
  function Query(topic: Option<string>): (q: string)
    ensures topic.Some? && topic.value != "" ==> q == "Get me the latest BBC news about " + topic.value
    ensures topic.None? || topic.value == "" ==> q == "Get me the latest BBC news"
  {
    if topic.Some? && topic.value != "" then "Get me the latest BBC news about " + topic.value
    else "Get me the latest BBC news"
  }

  /**
   * On a success with data the reply opens with the fixed header line and a
   * blank line, then numbers the first five articles from 1 in data order,
   * each as a bold title with its link on the next line.
   */
  lemma SorryHeadlines(r: AgentResult)
    requires Renders(r)
    requires var shown := Take(r.data, Shown); AllArticles(shown) && SingleLine(shown)
    ensures var shown: seq<NewsArticle> := Take(r.data, Shown);
      var lines := SplitLines(Formatted(Sorry, Returned(r)));
      && |shown| <= 5 && |lines| == 3 * |shown| + 3
      && lines[0] == "Here are the latest BBC news articles:" && lines[1] == ""
      && forall i :: 0 <= i < |shown| ==>
           lines[3 * i + 2] == NatToString(i + 1) + ". **" + shown[i].title + "**"
           && lines[3 * i + 3] == "   Link: " + shown[i].url
  {
    var shown: seq<NewsArticle> := Take(r.data, Shown);
    SorryWellFormed();
    RenderedShape(Sorry, shown);
  }

  /** Anything but a success with data gives the apology with the worker's message, or `Unknown error` without one. */
  lemma SorryFailure(r: AgentResult)
    requires !Renders(r)
    ensures r.message.Some? ==>
      Formatted(Sorry, Returned(r)) == "Sorry, I couldn't fetch news at the moment. Error: " + r.message.value
    ensures r.message.None? ==>
      Formatted(Sorry, Returned(r)) == "Sorry, I couldn't fetch news at the moment. Error: Unknown error"
  {
  }

  /** An exception becomes a text, never an error of the tool. */
  lemma SorryRaised(message: string)
    ensures Formatted(Sorry, Raised(message)) == "Error fetching news: " + message
  {
  }
}
