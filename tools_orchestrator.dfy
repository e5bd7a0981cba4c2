/**
 * The tools demo's orchestrator: its BBC renderer, the crypto tool that
 * creates its worker on first use, and the query it puts to the
 * language-model agent. The crypto worker's own run is an input.
 */
module ToolsOrchestrator {
  import opened Wrappers
  import opened Records
  import opened BaseAgent
  import opened NewsFormat
  import BbcNewsAgent

  const CryptoAgentName := "Crypto Prices Agent"
  const CryptoErrorLead := "Error fetching crypto data: "

  /** What the crypto tool returns for what the worker's run did: its dictionary unchanged, or the exception as text. */
  function CryptoReply(outcome: Outcome<AgentResult>): (r: ToolReply)
    ensures outcome.Returned? ==> r == Raw(outcome.value)
    ensures outcome.Raised? ==> r == Note(CryptoErrorLead + outcome.message)
  {
    match outcome
    case Returned(result) => Raw(result)
    case Raised(e) => Note(CryptoErrorLead + e)
  }

  /** The query of `get_agent_responses`: a space and the topic as Python prints it, `None` included. */
  function Query(topic: Option<string>): (q: string)
    ensures topic.Some? ==> q == " " + topic.value
    ensures topic.None? ==> q == " None"
  {
    " " + (if topic.Some? then topic.value else "None")
  }

  class Orchestrator {
    const bbcAgent: Agent
    /** Absent (null) until the crypto tool is first used. */
    var cryptoAgent: Agent?

    constructor ()
      ensures fresh(bbcAgent) && bbcAgent.name == BbcNewsAgent.AgentName && bbcAgent.status == Ready
      ensures cryptoAgent == null
    {
      var bbc := BbcNewsAgent.NewAgent();
      bbcAgent := bbc;
      cryptoAgent := null;
    }

    /** `get_bbc_news`: the same formatter as `NewsOrchestrator.GetBbcNews`, copied in the source. */
    method GetBbcNews(outcome: Outcome<AgentResult>) returns (text: string)
      ensures text == Formatted(Sorry, outcome)
    {
      text := Format(Sorry, outcome);
    }

    /**
     * `get_crypto_data`: the worker is created on the first call only and
     * reused afterwards. Its run is the `outcome`; the status changes the run
     * makes on the worker are not modelled.
     */
    method GetCryptoData(outcome: Outcome<AgentResult>) returns (r: ToolReply)
      modifies this
      ensures old(cryptoAgent) != null ==> cryptoAgent == old(cryptoAgent)
      ensures old(cryptoAgent) == null ==>
        cryptoAgent != null && fresh(cryptoAgent) && cryptoAgent.name == CryptoAgentName
      ensures r == CryptoReply(outcome)
    {
      if cryptoAgent == null {
        cryptoAgent := new Agent(CryptoAgentName);
      }
      match outcome {
        case Returned(result) =>
          r := Raw(result);
        case Raised(e) =>
          r := Note(CryptoErrorLead + e);
      }
    }
  }
}
