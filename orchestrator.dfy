/**
 * The web demo's orchestrator: a registry of four workers, and the rule that
 * turns the outcomes of running some of them concurrently into one record
 * per registry name. The concurrent run itself is an input: the ordered
 * outcomes `asyncio.gather(..., return_exceptions=True)` produced.
 */
module Orchestrator {
  import opened Records
  import opened BaseAgent
  import BbcNewsAgent
  import TechCrunchAgent
  import StockAgent

  /** The registry keys, in insertion order. */
  const Registry := ["bbc_news", "techcrunch", "crypto", "stocks"]
  const CryptoAgentName := "Crypto Prices Agent"
  const NoValidAgents := "No valid agents selected"

  /** What `execute_specific_agents` returns: `{'error': ...}`, or the records by name. */
  datatype Selection = NoneSelected(error: string) | Organized(results: map<string, AgentResult>)

  /** The record kept for one outcome: a result as it is, an exception as an error result under the agent's display name. */
  function Record(display: string, outcome: Outcome<AgentResult>): (r: AgentResult)
    ensures outcome.Returned? ==> r == outcome.value
    ensures outcome.Raised? ==> r == ErrorResult(display, outcome.message)
  {
    match outcome
    case Returned(result) => result
    case Raised(message) => ErrorResult(display, message)
  }

  /**
   * The dictionary filled by `for name, result in zip(names, outcomes)`: zip
   * stops at the shorter list, and a later name overwrites an earlier equal one.
   */
  function Organize(names: seq<string>, outcomes: seq<Outcome<AgentResult>>, display: map<string, string>): map<string, AgentResult>
    requires forall n :: n in names ==> n in display
    decreases |names|
  {
    var k := if |names| < |outcomes| then |names| else |outcomes|;
    if k == 0 then map[]
    else Organize(names[..k - 1], outcomes[..k - 1], display)[names[k - 1] := Record(display[names[k - 1]], outcomes[k - 1])]
  }

  /** The requested names that are in the registry, in request order, repeats kept. */
  function Selected(requested: seq<string>, registered: set<string>): (s: seq<string>)
    ensures forall n :: n in s ==> n in registered && n in requested
    ensures forall n :: n in requested && n in registered ==> n in s
    decreases |requested|
  {
    if requested == [] then []
    else
      var last := requested[|requested| - 1];
      Selected(requested[..|requested| - 1], registered) + (if last in registered then [last] else [])
  }

  class AgentOrchestrator {
    const agents: map<string, Agent>
    /** The order in which `agents` was filled. */
    const order: seq<string>

    ghost predicate Valid() {
      && order == Registry
      && agents.Keys == {"bbc_news", "techcrunch", "crypto", "stocks"}
      && agents["bbc_news"].name == BbcNewsAgent.AgentName
      && agents["techcrunch"].name == TechCrunchAgent.AgentName
      && agents["crypto"].name == CryptoAgentName
      && agents["stocks"].name == StockAgent.AgentName
    }

    /** Each registry name and the display name of its agent. */
    function Display(): (d: map<string, string>)
      ensures d.Keys == agents.Keys
      ensures forall n :: n in agents ==> d[n] == agents[n].name
    {
      map n | n in agents :: agents[n].name
    }

    constructor ()
      ensures Valid()
      ensures forall n :: n in agents ==> fresh(agents[n]) && agents[n].status == Ready
    {
      var bbc := BbcNewsAgent.NewAgent();
      var tech := TechCrunchAgent.NewAgent();
      var crypto := new Agent(CryptoAgentName);
      var stocks := StockAgent.NewAgent();
      agents := map["bbc_news" := bbc, "techcrunch" := tech, "crypto" := crypto, "stocks" := stocks];
      order := Registry;
    }

    /** `list(self.agents.keys())` */
    method GetAvailableAgents() returns (names: seq<string>)
      requires Valid()
      ensures names == ["bbc_news", "techcrunch", "crypto", "stocks"]
    {
      names := order;
    }

    /** The organising loop shared by both `execute_*` methods. */
    method OrganizeResults(names: seq<string>, gathered: seq<Outcome<AgentResult>>) returns (results: map<string, AgentResult>)
      requires forall n :: n in names ==> n in agents
      ensures results == Organize(names, gathered, Display())
    {
      var display := Display();
      results := map[];
      var i := 0;
      while i < |names| && i < |gathered|
        invariant 0 <= i <= |names| && i <= |gathered|
        invariant results == Organize(names[..i], gathered[..i], display)
      {
        assert names[..i + 1][..i] == names[..i] && gathered[..i + 1][..i] == gathered[..i];
        var name := names[i];
        match gathered[i] {
          case Raised(message) =>
            results := results[name := ErrorResult(agents[name].name, message)];
          case Returned(result) =>
            results := results[name := result];
        }
        i := i + 1;
      }
      assert names[..i] == names || gathered[..i] == gathered;
      OrganizeTruncates(names, gathered, display, i);
    }

    /**
     * `execute_all_agents`: one record per registered agent, in registry order.
     * The workers' runs are the `gathered` outcomes; the status changes the
     * runs make on the workers are not modelled.
     */
    method ExecuteAllAgents(gathered: seq<Outcome<AgentResult>>) returns (results: map<string, AgentResult>)
      requires Valid()
      ensures results == Organize(Registry, gathered, Display())
    {
      var agentNames: seq<string> := [];
      var i := 0;
      while i < |order|
        invariant 0 <= i <= |order|
        invariant agentNames == order[..i]
      {
        agentNames := agentNames + [order[i]];
        i := i + 1;
      }
      assert agentNames == order;
      results := OrganizeResults(agentNames, gathered);
    }

    /** The loop keeping the requested names that are registered. */
    method SelectAgents(requested: seq<string>) returns (selectedAgents: seq<string>)
      ensures selectedAgents == Selected(requested, agents.Keys)
    {
      selectedAgents := [];
      var i := 0;
      while i < |requested|
        invariant 0 <= i <= |requested|
        invariant selectedAgents == Selected(requested[..i], agents.Keys)
      {
        assert requested[..i + 1][..i] == requested[..i];
        if requested[i] in agents {
          selectedAgents := selectedAgents + [requested[i]];
        }
        i := i + 1;
      }
      assert requested[..i] == requested;
    }

    /**
     * `execute_specific_agents`: unknown names are skipped; with none left, the
     * fixed error and nothing runs. The runs are the `gathered` outcomes, as
     * for `ExecuteAllAgents`.
     */
    method ExecuteSpecificAgents(requested: seq<string>, gathered: seq<Outcome<AgentResult>>) returns (r: Selection)
      requires Valid()
      ensures Selected(requested, agents.Keys) == [] ==> r == NoneSelected(NoValidAgents)
      ensures Selected(requested, agents.Keys) != [] ==>
        r == Organized(Organize(Selected(requested, agents.Keys), gathered, Display()))
    {
      var selectedAgents := SelectAgents(requested);
      if selectedAgents == [] {
        return NoneSelected(NoValidAgents);
      }
      var results := OrganizeResults(selectedAgents, gathered);
      r := Organized(results);
    }
  }

  // ---------------------------------------------------------------------
  // Properties

  /** Only the paired prefix matters to `zip`. */
  lemma OrganizeTruncates(names: seq<string>, outcomes: seq<Outcome<AgentResult>>, display: map<string, string>, k: nat)
    requires forall n :: n in names ==> n in display
    requires k == (if |names| < |outcomes| then |names| else |outcomes|)
    ensures Organize(names, outcomes, display) == Organize(names[..k], outcomes[..k], display)
  {
    if k > 0 {
      assert names[..k][..k - 1] == names[..k - 1] && outcomes[..k][..k - 1] == outcomes[..k - 1];
      assert names[..k][k - 1] == names[k - 1] && outcomes[..k][k - 1] == outcomes[k - 1];
    }
  }

  /** The keys are exactly the names that were paired with an outcome. */
  lemma {:induction false} OrganizeKeys(names: seq<string>, outcomes: seq<Outcome<AgentResult>>, display: map<string, string>)
    requires forall n :: n in names ==> n in display
    ensures var k := if |names| < |outcomes| then |names| else |outcomes|;
      Organize(names, outcomes, display).Keys == set i | 0 <= i < k :: names[i]
    decreases |names|
  {
    var k := if |names| < |outcomes| then |names| else |outcomes|;
    if k > 0 {
      OrganizeKeys(names[..k - 1], outcomes[..k - 1], display);
      assert forall i :: 0 <= i < k - 1 ==> names[..k - 1][i] == names[i];
    }
  }

  /**
   * Each name ends up with the outcome at its own position, that of its last
   * occurrence when it was requested more than once.
   */
  lemma {:induction false} OrganizeLastWins(names: seq<string>, outcomes: seq<Outcome<AgentResult>>, display: map<string, string>, i: nat)
    requires forall n :: n in names ==> n in display
    requires i < |names| && i < |outcomes|
    requires forall j :: i < j < |names| && j < |outcomes| ==> names[j] != names[i]
    ensures names[i] in Organize(names, outcomes, display)
    ensures Organize(names, outcomes, display)[names[i]] == Record(display[names[i]], outcomes[i])
    decreases |names|
  {
    var k := if |names| < |outcomes| then |names| else |outcomes|;
    if i < k - 1 {
      assert names[..k - 1][i] == names[i] && outcomes[..k - 1][i] == outcomes[i];
      OrganizeLastWins(names[..k - 1], outcomes[..k - 1], display, i);
    }
  }

  /** `execute_all_agents` returns exactly one entry per registered name once every agent has an outcome. */
  lemma AllAgentsOnePerName(gathered: seq<Outcome<AgentResult>>, display: map<string, string>)
    requires |gathered| == |Registry|
    requires forall n :: n in Registry ==> n in display
    ensures Organize(Registry, gathered, display).Keys == {"bbc_news", "techcrunch", "crypto", "stocks"}
    ensures forall i :: 0 <= i < |Registry| ==>
      Organize(Registry, gathered, display)[Registry[i]] == Record(display[Registry[i]], gathered[i])
  {
    OrganizeKeys(Registry, gathered, display);
    assert (set i | 0 <= i < 4 :: Registry[i]) == {"bbc_news", "techcrunch", "crypto", "stocks"} by {
      assert Registry[0] == "bbc_news" && Registry[1] == "techcrunch" && Registry[2] == "crypto" && Registry[3] == "stocks";
    }
    forall i | 0 <= i < |Registry|
      ensures Organize(Registry, gathered, display)[Registry[i]] == Record(display[Registry[i]], gathered[i])
    {
      OrganizeLastWins(Registry, gathered, display, i);
    }
  }

  /** A specific run's keys are registry names, each requested, and every valid requested name has one when all ran. */
  lemma SpecificKeys(requested: seq<string>, gathered: seq<Outcome<AgentResult>>, display: map<string, string>)
    requires forall n :: n in Registry ==> n in display
    ensures var s := Selected(requested, set n | n in Registry);
      var keys := Organize(s, gathered, display).Keys;
      && (forall n :: n in keys ==> n in Registry && n in requested)
      && (|gathered| == |s| ==> forall n :: n in requested && n in Registry ==> n in keys)
  {
    var s := Selected(requested, set n | n in Registry);
    OrganizeKeys(s, gathered, display);
    var k := if |s| < |gathered| then |s| else |gathered|;
    forall n | n in Organize(s, gathered, display).Keys
      ensures n in Registry && n in requested
    {
      var i :| 0 <= i < k && s[i] == n;
      assert n in s;
    }
    if |gathered| == |s| {
      forall n | n in requested && n in Registry
        ensures n in Organize(s, gathered, display).Keys
      {
        var i :| 0 <= i < |s| && s[i] == n;
      }
    }
  }
}
