/**
 * The knowledge tools handed to the agent: a fixed registry of six tools
 * looked up by name, each delegating to the knowledge graph manager and
 * turning any exception of its own into a fixed fallback value. The
 * event-loop and thread-pool plumbing around each call is not modelled;
 * an exception it might raise is the `fault` of the tool's environment.
 */
module KnowledgeTools {
  import opened Wrappers
  import KG = KnowledgeGraph

  datatype Tool =
    | SearchKnowledgeTool
    | GetRelatedPapersTool
    | GetResearchInsightsTool
    | AddResearchPaperTool
    | AddResearchInsightTool
    | GetKnowledgeSummaryTool
  {
    function Name(): string {
      match this
      case SearchKnowledgeTool => "search_knowledge"
      case GetRelatedPapersTool => "get_related_papers"
      case GetResearchInsightsTool => "get_research_insights"
      case AddResearchPaperTool => "add_research_paper"
      case AddResearchInsightTool => "add_research_insight"
      case GetKnowledgeSummaryTool => "get_knowledge_summary"
    }
  }

  /** `KNOWLEDGE_TOOLS`, in registry order. */
  const Registry: seq<Tool> := [
    SearchKnowledgeTool,
    GetRelatedPapersTool,
    GetResearchInsightsTool,
    AddResearchPaperTool,
    AddResearchInsightTool,
    GetKnowledgeSummaryTool]

  /** The dictionary comprehension `{tool.name: tool for tool in tools}`:
      each tool under its name, a later tool replacing an earlier one of the
      same name. */
  function MapOf(tools: seq<Tool>): (tm: map<string, Tool>)
    ensures forall name :: name in tm ==> tm[name] in tools && tm[name].Name() == name
    ensures forall t :: t in tools ==> t.Name() in tm
  {
    if tools == [] then map[]
    else
      var last := tools[|tools| - 1];
      MapOf(tools[..|tools| - 1])[last.Name() := last]
  }

  /** `KNOWLEDGE_TOOL_MAP`. */
  function ToolMap(): map<string, Tool> {
    MapOf(Registry)
  }

  /** `get_knowledge_tool`: the registered tool with that name, and nothing
      for any other name. */
  function GetKnowledgeTool(name: string): (r: Option<Tool>)
    ensures r.Some? <==> exists t :: t in Registry && t.Name() == name
    ensures r.Some? ==> r.value in Registry && r.value.Name() == name
  {
    var tm := ToolMap();
    if name in tm then Some(tm[name]) else None
  }

  /** The names of the six tools. */
  const ToolNames: seq<string> := [
    "search_knowledge", "get_related_papers", "get_research_insights",
    "add_research_paper", "add_research_insight", "get_knowledge_summary"]

  /** Two tools never share a name: the names differ in length, or in
      their first or fifth character. */
  lemma NameInjective(a: Tool, b: Tool)
    requires a.Name() == b.Name()
    ensures a == b
  {
    var n := a.Name();
    assert |n| == |b.Name()|;
    assert n[0] == b.Name()[0];
    if |n| == 21 {
      assert n[4] == b.Name()[4];
    }
  }

  /** The registry holds six tools, with the six names in order. */
  lemma RegistryNames()
    ensures |Registry| == 6
    ensures forall i :: 0 <= i < 6 ==> Registry[i].Name() == ToolNames[i]
  {
  }

  /** No two registered tools share a name. */
  lemma RegistryNamesDistinct()
    ensures forall i, j :: 0 <= i < j < |Registry| ==> Registry[i].Name() != Registry[j].Name()
  {
    forall i, j | 0 <= i < j < |Registry|
      ensures Registry[i].Name() != Registry[j].Name()
    {
      if Registry[i].Name() == Registry[j].Name() {
        NameInjective(Registry[i], Registry[j]);
      }
    }
  }

  /** Every registered tool is found under its own name. */
  lemma RegistryLookup()
    ensures forall t :: t in Registry ==> GetKnowledgeTool(t.Name()) == Some(t)
  {
    forall t | t in Registry
      ensures GetKnowledgeTool(t.Name()) == Some(t)
    {
      var r := GetKnowledgeTool(t.Name());
      NameInjective(r.value, t);
    }
  }

  // ---------------------------------------------------------------------
  // Calls and their results

  /** The arguments of a tool call; an omitted optional argument is
      `None`. */
  datatype ToolCall =
    | SearchCall(query: string, limit: Option<int>)
    | RelatedPapersCall(topic: string, limit: Option<int>)
    | InsightsCall(topic: string, limit: Option<int>)
    | AddPaperCall(paperData: KG.PaperData)
    | AddInsightCall(insight: string, topic: string, paperIds: Option<seq<string>>, context: Option<KG.Context>)
    | SummaryCall(topic: string)
  {
    function Target(): Tool {
      match this
      case SearchCall(_, _) => SearchKnowledgeTool
      case RelatedPapersCall(_, _) => GetRelatedPapersTool
      case InsightsCall(_, _) => GetResearchInsightsTool
      case AddPaperCall(_) => AddResearchPaperTool
      case AddInsightCall(_, _, _, _) => AddResearchInsightTool
      case SummaryCall(_) => GetKnowledgeSummaryTool
    }
  }

  datatype ToolResult =
    | KnowledgeList(items: seq<KG.Knowledge>)
    | PaperList(papers: Option<seq<KG.RelatedPaper>>)
    | InsightList(insights: seq<KG.Insight>)
    | Flag(ok: bool)
    | SummaryResult(summary: KG.Summary)
    | RunRaised(error: string)

  /** What a tool runs against: the manager `get_knowledge_graph_manager`
      returns, the manager's collaborators, the exception, if any, raised
      inside `_arun`'s own handler by its plumbing, and whether the calling
      thread already runs an event loop (where `asyncio.run` raises before
      `_arun` starts). */
  datatype ToolEnv = ToolEnv(manager: KG.Manager, services: KG.Services, fault: Option<string>, loopRunning: bool)

  /** The `RuntimeError` text of `asyncio.run` inside a running loop. */
  const RunningLoopError: string := "asyncio.run() cannot be called from a running event loop"

  // The limits `_arun` uses when none is given.
  const SearchDefaultLimit: int := 10
  const RelatedPapersDefaultLimit: int := 5
  const InsightsDefaultLimit: int := 10

  /** The value a tool returns when it catches an exception. */
  function Fallback(call: ToolCall, error: string): ToolResult {
    match call
    case SearchCall(_, _) => KnowledgeList([])
    case RelatedPapersCall(_, _) => PaperList(Some([]))
    case InsightsCall(_, _) => InsightList([])
    case AddPaperCall(_) => Flag(false)
    case AddInsightCall(_, _, _, _) => Flag(false)
    case SummaryCall(_) => SummaryResult(KG.SummaryError(error))
  }

  /** `get_related_papers` passes on a non-empty list and answers `None`
      for an empty list or for `None`. */
  function NonEmptyOrNone(papers: Option<seq<KG.RelatedPaper>>): (r: Option<seq<KG.RelatedPaper>>)
    ensures r.Some? <==> papers.Some? && papers.value != []
    ensures r.Some? ==> r == papers
  {
    if papers.Some? && papers.value != [] then papers else None
  }

  /** Each tool's `_arun`, as written. `add_research_insight` hands the
      manager four arguments (insight, topic, paper ids, context) where its
      method takes three, so the call raises `TypeError` and the tool
      answers `False` whatever its inputs. */
  function ARun(call: ToolCall, env: ToolEnv): (r: ToolResult)
    ensures env.fault.Some? ==> r == Fallback(call, env.fault.value)
    ensures call.AddInsightCall? ==> r == Flag(false)
    ensures env.fault.None? && call.SearchCall? ==>
      r == KnowledgeList(KG.SearchKnowledgeSpec(env.manager, call.query, call.limit.GetOr(SearchDefaultLimit)))
    ensures env.fault.None? && call.InsightsCall? ==>
      r == InsightList(KG.ResearchInsights(env.manager, call.topic, call.limit.GetOr(InsightsDefaultLimit)))
    ensures env.fault.None? && call.AddPaperCall? ==>
      r == Flag(KG.AddResearchPaper(env.manager, env.services, call.paperData).ok)
    ensures env.fault.None? && call.SummaryCall? ==>
      r == SummaryResult(KG.KnowledgeSummary(env.manager, env.services.library, call.topic))
    ensures env.fault.None? && call.RelatedPapersCall? ==>
      var found := KG.RelatedPapers(env.manager, env.services.library, call.topic, call.limit.GetOr(RelatedPapersDefaultLimit));
      r == PaperList(NonEmptyOrNone(found))
  {
    if env.fault.Some? then Fallback(call, env.fault.value)
    else
      var m := env.manager;
      match call
      case SearchCall(query, limit) =>
        KnowledgeList(KG.SearchKnowledgeSpec(m, query, limit.GetOr(SearchDefaultLimit)))
      case RelatedPapersCall(topic, limit) =>
        PaperList(NonEmptyOrNone(KG.RelatedPapers(m, env.services.library, topic, limit.GetOr(RelatedPapersDefaultLimit))))
      case InsightsCall(topic, limit) =>
        InsightList(KG.ResearchInsights(m, topic, limit.GetOr(InsightsDefaultLimit)))
      case AddPaperCall(paper) =>
        Flag(KG.AddResearchPaper(m, env.services, paper).ok)
      case AddInsightCall(_, _, _, _) =>
        // The arity error is caught by the tool's own handler.
        Flag(false)
      case SummaryCall(topic) =>
        SummaryResult(KG.KnowledgeSummary(m, env.services.library, topic))
  }

  /** Each tool's `_run`: `asyncio.run` of the same call, except that
      `add_research_insight` first replaces missing paper ids and context by
      empty ones. `asyncio.run` sits outside the tool's handler, so its
      error inside a running event loop reaches the caller. */
  function Run(call: ToolCall, env: ToolEnv): (r: ToolResult)
    ensures env.loopRunning ==> r == RunRaised(RunningLoopError)
    ensures !env.loopRunning && !call.AddInsightCall? ==> r == ARun(call, env)
    ensures !env.loopRunning && call.AddInsightCall? ==> r == ARun(Normalized(call), env)
  {
    if env.loopRunning then RunRaised(RunningLoopError) else ARun(Normalized(call), env)
  }

  function Normalized(call: ToolCall): (c: ToolCall)
    ensures c.Target() == call.Target()
    ensures call.AddInsightCall? ==> c.paperIds.Some? && c.context.Some?
    ensures !call.AddInsightCall? ==> c == call
  {
    match call
    case AddInsightCall(insight, topic, paperIds, context) =>
      AddInsightCall(insight, topic, Some(paperIds.GetOr([])), Some(context.GetOr(map[])))
    case _ => call
  }

  /** The value answers a call of its own tool. */
  predicate ShapedFor(call: ToolCall, r: ToolResult) {
    match call
    case SearchCall(_, _) => r.KnowledgeList?
    case RelatedPapersCall(_, _) => r.PaperList?
    case InsightsCall(_, _) => r.InsightList?
    case AddPaperCall(_) => r.Flag?
    case AddInsightCall(_, _, _, _) => r.Flag?
    case SummaryCall(_) => r.SummaryResult?
  }

  /** `_arun` never raises: whatever its environment, every call answers
      a value of the shape of its own tool. `_run` does too, unless it is
      called inside a running event loop, where it raises. */
  lemma {:induction false} ToolsAnswerTheirShape(call: ToolCall, env: ToolEnv)
    ensures ShapedFor(call, ARun(call, env))
    ensures ShapedFor(call, Run(call, env)) <==> !env.loopRunning
  {
    var r := ARun(call, env);
    assert ShapedFor(call, r) by {
      if env.fault.Some? {
        assert r == Fallback(call, env.fault.value);
      }
    }
    var n := Normalized(call);
    assert ShapedFor(n, ARun(n, env)) by {
      if env.fault.Some? {
        assert ARun(n, env) == Fallback(n, env.fault.value);
      }
    }
  }

  // ---------------------------------------------------------------------
  // The add_research_insight arity error

  /** `add_research_insight` as it was evidently meant to call the
      manager: with the insight, the topic and the context. */
  function AddInsightIntended(insight: string, topic: string, context: Option<KG.Context>, env: ToolEnv): (ok: bool)
    ensures env.fault.Some? || env.manager.memory.None? ==> !ok
    ensures env.fault.None? ==> ok == KG.AddInsightResult(env.manager, env.services, insight, topic, context.GetOr(map[])).ok
  {
    env.fault.None? && KG.AddInsightResult(env.manager, env.services, insight, topic, context.GetOr(map[])).ok
  }

  /** With a store that accepts every record, the intended call reports
      success while the tool as written reports failure. */
  lemma AddInsightArityCounterexample(env: ToolEnv, insight: string, topic: string)
    requires env.fault.None? && env.manager.memory.Some?
    requires forall text, md :: env.manager.memory.value.add(text, md) == Pass
    ensures AddInsightIntended(insight, topic, None, env)
    ensures ARun(AddInsightCall(insight, topic, None, None), env) == Flag(false)
  {
    var r := KG.AddInsightResult(env.manager, env.services, insight, topic, map[]);
    assert r.ok;
  }
}
