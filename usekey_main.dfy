/**
 * The key-based concurrent demo's orchestrator: its BBC renderer and the
 * technology-news tool that creates its worker on first use. The worker's
 * own run is an input.
 */
module UseKeyMain {
  import opened Records
  import opened BaseAgent
  import opened NewsFormat
  import BbcNewsAgent
  import SimpleTechCrunchAgent

  /** The error lead of the technology tool, which speaks of crypto data. */
  const TechNewsErrorLead := "Error fetching crypto data: "

  /** What the technology tool returns for what the worker's run did: its dictionary unchanged, or the exception as text. */
  function TechNewsReply(outcome: Outcome<AgentResult>): (r: ToolReply)
    ensures outcome.Returned? ==> r == Raw(outcome.value)
    ensures outcome.Raised? ==> r == Note(TechNewsErrorLead + outcome.message)
  {
    match outcome
    case Returned(result) => Raw(result)
    case Raised(e) => Note(TechNewsErrorLead + e)
  }

  class Orchestrator {
    const bbcAgent: Agent
    /** Absent (null) until the technology tool is first used. */
    var technewsAgent: Agent?

    constructor ()
      ensures fresh(bbcAgent) && bbcAgent.name == BbcNewsAgent.AgentName && bbcAgent.status == Ready
      ensures technewsAgent == null
    {
      var bbc := BbcNewsAgent.NewAgent();
      bbcAgent := bbc;
      technewsAgent := null;
    }

    /** `get_bbc_news`: the same formatter as `NewsOrchestrator.GetBbcNews`, copied in the source. */
    method GetBbcNews(outcome: Outcome<AgentResult>) returns (text: string)
      ensures text == Formatted(Sorry, outcome)
    {
      text := Format(Sorry, outcome);
    }

    /**
     * `get_technews_data`: the worker is created on the first call only and
     * reused afterwards. Its run is the `outcome`; the status changes the run
     * makes on the worker are not modelled.
     */
    method GetTechnewsData(outcome: Outcome<AgentResult>) returns (r: ToolReply)
      modifies this
      ensures old(technewsAgent) != null ==> technewsAgent == old(technewsAgent)
      ensures old(technewsAgent) == null ==>
        technewsAgent != null && fresh(technewsAgent)
        && technewsAgent.name == SimpleTechCrunchAgent.AgentName
      ensures r == TechNewsReply(outcome)
    {
      if technewsAgent == null {
        technewsAgent := SimpleTechCrunchAgent.NewAgent();
      }
      match outcome {
        case Returned(result) =>
          r := Raw(result);
        case Raised(e) =>
          r := Note(TechNewsErrorLead + e);
      }
    }
  }
}
