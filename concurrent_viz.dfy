/**
 * The two hand-written executors of the fan-out/fan-in visualisation demo:
 * the dispatcher that sends the prompt to every expert, and the aggregator
 * that folds the experts' replies into one consolidated text. The workflow
 * engine that routes messages between them is not modelled; a context object
 * records what an executor sends and yields.
 */
module ConcurrentViz {
  import opened Wrappers

  const DispatchDefaultId := "dispatch_to_experts"
  const AggregateDefaultId := "aggregate_insights"
  const Researcher := "researcher"
  const Marketer := "marketer"
  const Legal := "legal"

  datatype Role = User
  datatype ChatMessage = ChatMessage(role: Role, text: string)
  /** `AgentExecutorRequest(messages=..., should_respond=...)` */
  datatype Request = Request(messages: seq<ChatMessage>, shouldRespond: bool)
  /** A request together with the id of the executor it is addressed to. */
  datatype Sent = Sent(request: Request, target: string)
  /** An expert's reply: the id of the executor that produced it and the text of its run. */
  datatype Response = Response(executorId: string, text: string)
  /** `AggregatedInsights`: one text per expert. */
  datatype Insights = Insights(research: string, marketing: string, legal: string)

  /** What an executor did during a run: the messages it sent and the outputs it yielded, in order. */
  class WorkflowContext {
    var sent: seq<Sent>
    var outputs: seq<string>

    constructor ()
      ensures sent == [] && outputs == []
    {
      sent := [];
      outputs := [];
    }

    method SendMessage(request: Request, target: string)
      modifies this
      ensures sent == old(sent) + [Sent(request, target)]
      ensures outputs == old(outputs)
    {
      sent := sent + [Sent(request, target)];
    }

    method YieldOutput(output: string)
      modifies this
      ensures outputs == old(outputs) + [output]
      ensures sent == old(sent)
    {
      outputs := outputs + [output];
    }
  }

  /** `id or default`: an absent or empty id falls back to the default. */
  function ExecutorId(id: Option<string>, default: string): (r: string)
    ensures id.Some? && id.value != "" ==> r == id.value
    ensures id.None? || id.value == "" ==> r == default
  {
    if id.Some? && id.value != "" then id.value else default
  }

  /** What `dispatch` sends: the prompt as a single user message, to each expert in order. */
  function Requests(prompt: string, expertIds: seq<string>): (r: seq<Sent>)
    ensures |r| == |expertIds|
  {
    seq(|expertIds|, i requires 0 <= i < |expertIds| => Sent(Request([ChatMessage(User, prompt)], true), expertIds[i]))
  }

  class DispatchToExperts {
    const id: string
    const expertIds: seq<string>

    constructor (expertIds: seq<string>, id: Option<string>)
      ensures this.id == ExecutorId(id, DispatchDefaultId) && this.expertIds == expertIds
    {
      this.id := ExecutorId(id, DispatchDefaultId);
      this.expertIds := expertIds;
    }

    /** The fan-out: one request per expert id, in order. */
    method Dispatch(prompt: string, ctx: WorkflowContext)
      modifies ctx
      ensures ctx.sent == old(ctx.sent) + Requests(prompt, expertIds)
      ensures ctx.outputs == old(ctx.outputs)
    {
      var initialMessage := ChatMessage(User, prompt);
      var i := 0;
      while i < |expertIds|
        invariant 0 <= i <= |expertIds|
        invariant ctx.sent == old(ctx.sent) + Requests(prompt, expertIds[..i])
        invariant ctx.outputs == old(ctx.outputs)
      {
        ctx.SendMessage(Request([initialMessage], true), expertIds[i]);
        assert Requests(prompt, expertIds[..i + 1]) == Requests(prompt, expertIds[..i]) + [Sent(Request([initialMessage], true), expertIds[i])];
        i := i + 1;
      }
      assert expertIds[..i] == expertIds;
    }
  }

  /** `by_id`: each reply's text under its executor id, a later reply replacing an earlier one with the same id. */
  function ById(results: seq<Response>): map<string, string>
    decreases |results|
  {
    if results == [] then map[]
    else
      var last := results[|results| - 1];
      ById(results[..|results| - 1])[last.executorId := last.text]
  }

  /** `by_id.get(key, "")` */
  function Lookup(byId: map<string, string>, key: string): string {
    if key in byId then byId[key] else ""
  }

  function Aggregated(results: seq<Response>): Insights {
    var byId := ById(results);
    Insights(Lookup(byId, Researcher), Lookup(byId, Marketer), Lookup(byId, Legal))
  }

  /** The consolidated text: Research, Marketing, Legal, always in that order. */
  function Consolidated(insights: Insights): string {
    "Consolidated Insights\n" + "====================\n\n"
      + "Research Findings:\n" + insights.research + "\n\n"
      + "Marketing Angle:\n" + insights.marketing + "\n\n"
      + "Legal/Compliance Notes:\n" + insights.legal + "\n"
  }

  class AggregateInsights {
    const id: string
    const expertIds: seq<string>

    constructor (expertIds: seq<string>, id: Option<string>)
      ensures this.id == ExecutorId(id, AggregateDefaultId) && this.expertIds == expertIds
    {
      this.id := ExecutorId(id, AggregateDefaultId);
      this.expertIds := expertIds;
    }

    /** The fan-in: exactly one output, the consolidated text of the replies; nothing is sent. */
    method Aggregate(results: seq<Response>, ctx: WorkflowContext)
      modifies ctx
      ensures ctx.outputs == old(ctx.outputs) + [Consolidated(Aggregated(results))]
      ensures ctx.sent == old(ctx.sent)
    {
      var byId: map<string, string> := map[];
      var i := 0;
      while i < |results|
        invariant 0 <= i <= |results|
        invariant byId == ById(results[..i])
      {
        assert results[..i + 1][..i] == results[..i];
        byId := byId[results[i].executorId := results[i].text];
        i := i + 1;
      }
      assert results[..i] == results;
      var researchText := if Researcher in byId then byId[Researcher] else "";
      var marketingText := if Marketer in byId then byId[Marketer] else "";
      var legalText := if Legal in byId then byId[Legal] else "";
      var aggregated := Insights(researchText, marketingText, legalText);
      var consolidated := "Consolidated Insights\n" + "====================\n\n"
        + "Research Findings:\n" + aggregated.research + "\n\n"
        + "Marketing Angle:\n" + aggregated.marketing + "\n\n"
        + "Legal/Compliance Notes:\n" + aggregated.legal + "\n";
      ctx.YieldOutput(consolidated);
    }
  }

  // ---------------------------------------------------------------------
  // Properties

  /** Every expert gets exactly one request, addressed to it, carrying the prompt as one user message that asks for a reply. */
  lemma RequestsOnePerExpert(prompt: string, expertIds: seq<string>)
    ensures var r := Requests(prompt, expertIds);
      forall i :: 0 <= i < |expertIds| ==>
        r[i].target == expertIds[i] && r[i].request.messages == [ChatMessage(User, prompt)] && r[i].request.shouldRespond
  {
  }

  /** The ids with a reply are the keys; each key holds the text of the last reply with that id. */
  lemma {:induction false} ByIdLastWins(results: seq<Response>, i: nat)
    requires i < |results|
    requires forall j :: i < j < |results| ==> results[j].executorId != results[i].executorId
    ensures results[i].executorId in ById(results)
    ensures ById(results)[results[i].executorId] == results[i].text
    decreases |results|
  {
    var n := |results|;
    if i < n - 1 {
      assert results[..n - 1][i] == results[i];
      ByIdLastWins(results[..n - 1], i);
    }
  }

  lemma {:induction false} ByIdKeys(results: seq<Response>)
    ensures ById(results).Keys == set r | r in results :: r.executorId
    decreases |results|
  {
    if results != [] {
      var n := |results|;
      ByIdKeys(results[..n - 1]);
      assert results == results[..n - 1] + [results[n - 1]];
      assert forall r :: r in results <==> r in results[..n - 1] || r == results[n - 1];
    }
  }

  predicate UniqueIds(results: seq<Response>) {
    forall i, j :: 0 <= i < j < |results| ==> results[i].executorId != results[j].executorId
  }

  /**
   * When every expert replies once, the order in which the replies arrive
   * makes no difference to the texts by id, and so none to the consolidated text.
   */
  lemma ArrivalOrderIrrelevant(rs1: seq<Response>, rs2: seq<Response>)
    requires UniqueIds(rs1) && UniqueIds(rs2) && multiset(rs1) == multiset(rs2)
    ensures ById(rs1) == ById(rs2)
    ensures Consolidated(Aggregated(rs1)) == Consolidated(Aggregated(rs2))
  {
    ByIdKeys(rs1);
    ByIdKeys(rs2);
    assert forall r :: r in rs1 <==> r in rs2 by {
      forall r ensures r in rs1 <==> r in rs2 {
        assert r in rs1 <==> r in multiset(rs1);
        assert r in rs2 <==> r in multiset(rs2);
      }
    }
    forall k | k in ById(rs1)
      ensures k in ById(rs2) && ById(rs1)[k] == ById(rs2)[k]
    {
      var i :| 0 <= i < |rs1| && rs1[i].executorId == k;
      var j :| 0 <= j < |rs2| && rs2[j] == rs1[i];
      ByIdLastWins(rs1, i);
      ByIdLastWins(rs2, j);
    }
  }

  /** A reply from any other executor changes nothing. */
  lemma OtherIdsIgnored(results: seq<Response>, other: Response)
    requires other.executorId != Researcher && other.executorId != Marketer && other.executorId != Legal
    ensures Aggregated(results + [other]) == Aggregated(results)
  {
    assert (results + [other])[..|results|] == results;
  }

  /** An expert without a reply contributes an empty section. */
  lemma MissingExpertEmpty(results: seq<Response>, expert: string)
    requires forall i :: 0 <= i < |results| ==> results[i].executorId != expert
    ensures Lookup(ById(results), expert) == ""
  {
    ByIdKeys(results);
  }
}
