/**
 * The LangGraph research agent: five nodes over one mutable state
 * dictionary. Intent detection and planning always run first; the route
 * then sends research and analysis requests to the research-execution
 * node, knowledge queries to the knowledge-query node and everything else
 * straight to response generation. An execution node carries out one plan
 * step per call and is entered again while plan steps remain.
 *
 * The chat model is an oracle from prompts to replies; the arXiv library,
 * the memory store and the clock are the ones the arXiv client and the
 * knowledge-graph manager already take.
 */
module LangGraphAgent {
  import opened Wrappers
  import opened Strings
  import ArxivClient
  import KG = KnowledgeGraph

  // ---------------------------------------------------------------------
  // State

  datatype Message = Human(content: string) | Ai(content: string)

  /** The `research_data` dictionary; an absent key is `None`. */
  datatype ResearchData = ResearchData(
    topic: Option<string>,
    searchResults: Option<ArxivClient.Report>,
    analyzedPapers: Option<seq<ArxivClient.PaperContent>>,
    synthesis: Option<string>)

  /** The empty dictionary `{}`. */
  const NoResearch: ResearchData := ResearchData(None, None, None, None)

  /** The `knowledge_data` dictionary. The synthesis step replaces it by a
      knowledge summary (`base`); the knowledge-query steps add keys. */
  datatype KnowledgeData = KnowledgeData(
    base: Option<KG.Summary>,
    searchResults: Option<seq<KG.Knowledge>>,
    summary: Option<KG.Summary>,
    response: Option<string>)

  const NoKnowledge: KnowledgeData := KnowledgeData(None, None, None, None)

  /** `AgentState`, as a value. */
  datatype State = State(
    messages: seq<Message>,
    intent: Option<string>,
    plan: Option<seq<string>>,
    currentStep: nat,
    researchData: Option<ResearchData>,
    knowledgeData: Option<KnowledgeData>,
    finalResponse: Option<string>,
    userRequest: string,
    sessionId: string)

  // ---------------------------------------------------------------------
  // The outside world

  /** What each chat-model call is asked about. */
  datatype Prompt =
    | IntentPrompt(userRequest: string)
    | PlanPrompt(intent: Option<string>, userRequest: string)
    | TopicPrompt(userRequest: string)
    | SynthesisPrompt(research: ResearchData, userRequest: string)
    | FormulatePrompt(knowledge: Option<KnowledgeData>, userRequest: string)
    | ResponsePrompt(userRequest: string, researchData: Option<ResearchData>)

  /** A chat-model call returns content or raises. */
  datatype Reply = Content(text: string) | Raised(error: string)

  /** `json.loads` of the planning reply: not JSON, JSON but not a list,
      or a list of steps. */
  datatype PlanParse = NotJson | NotList | Steps(steps: seq<string>)

  /** The collaborators: the chat model, the JSON parser, the shared
      knowledge-graph manager with its services, the paper directory, and
      an exception raised by the graph runtime itself, if any. */
  datatype World = World(
    llm: Prompt -> Reply,
    parsePlan: string -> PlanParse,
    manager: KG.Manager,
    services: KG.Services,
    storagePath: string,
    graphFault: Option<string>)

  // ---------------------------------------------------------------------
  // Intent detection

  const ValidIntents: seq<string> := ["research", "analysis", "knowledge_query", "general"]

  /** The intent kept from a reply: the stripped, lower-cased text when it
      names a known intent; "general" when it does not or the call raised. */
  function IntentOf(reply: Reply): (intent: string)
    ensures intent in ValidIntents
    ensures reply.Content? && Lower(Strip(reply.text)) in ValidIntents ==> intent == Lower(Strip(reply.text))
    ensures intent != "general" ==> reply.Content? && Lower(Strip(reply.text)) == intent
  {
    match reply
    case Content(text) =>
      var candidate := Lower(Strip(text));
      if candidate in ValidIntents then candidate else "general"
    case Raised(_) => "general"
  }

  function IntentNode(s: State, w: World): (r: State)
    ensures r.intent == Some(IntentOf(w.llm(IntentPrompt(s.userRequest))))
    ensures |r.messages| == |s.messages| + 1 && r.messages[..|s.messages|] == s.messages
    ensures r == s.(intent := r.intent, messages := r.messages)
  {
    var reply := w.llm(IntentPrompt(s.userRequest));
    var intent := IntentOf(reply);
    var note := if reply.Content? then "Detected intent: " + intent else "Error detecting intent, defaulting to general";
    s.(intent := Some(intent), messages := s.messages + [Ai(note)])
  }

  // ---------------------------------------------------------------------
  // Planning

  const ResearchPlan: seq<string> := ["Extract research topic", "Search for papers", "Analyze findings", "Synthesize results"]
  const AnalysisPlan: seq<string> := ["Identify target papers", "Retrieve content", "Analyze content", "Present insights"]
  const KnowledgePlan: seq<string> := ["Search knowledge base", "Retrieve information", "Formulate response"]
  const GeneralPlan: seq<string> := ["Process request", "Generate response"]

  /** `_get_default_plan`: a fixed plan per intent, the general plan for
      any other value (`None` included). */
  function DefaultPlan(intent: Option<string>): (plan: seq<string>)
    ensures intent == Some("research") ==> plan == ResearchPlan
    ensures intent == Some("analysis") ==> plan == AnalysisPlan
    ensures intent == Some("knowledge_query") ==> plan == KnowledgePlan
    ensures intent.None? || intent.value !in ["research", "analysis", "knowledge_query"] ==> plan == GeneralPlan
  {
    match intent
    case Some(i) =>
      if i == "research" then ResearchPlan
      else if i == "analysis" then AnalysisPlan
      else if i == "knowledge_query" then KnowledgePlan
      else GeneralPlan
    case None => GeneralPlan
  }

  /** The plan taken from a reply: the parsed list when the stripped reply
      is a JSON list, the default plan otherwise or when the call raised. */
  function PlanOf(reply: Reply, parsePlan: string -> PlanParse, intent: Option<string>): (plan: seq<string>)
    ensures reply.Content? && parsePlan(Strip(reply.text)).Steps? ==> plan == parsePlan(Strip(reply.text)).steps
    ensures reply.Raised? || !parsePlan(Strip(reply.text)).Steps? ==> plan == DefaultPlan(intent)
  {
    if reply.Content? then
      match parsePlan(Strip(reply.text))
      case Steps(steps) => steps
      case _ => DefaultPlan(intent)
    else DefaultPlan(intent)
  }

  /** `str` of a list of strings. */
  function ListRepr(xs: seq<string>): string {
    "[" + Join(seq(|xs|, i requires 0 <= i < |xs| => "'" + xs[i] + "'"), ", ") + "]"
  }

  function PlanNode(s: State, w: World): (r: State)
    ensures r.plan == Some(PlanOf(w.llm(PlanPrompt(s.intent, s.userRequest)), w.parsePlan, s.intent))
    ensures r.currentStep == 0
    ensures |r.messages| == |s.messages| + 1 && r.messages[..|s.messages|] == s.messages
    ensures r == s.(plan := r.plan, currentStep := 0, messages := r.messages)
  {
    var reply := w.llm(PlanPrompt(s.intent, s.userRequest));
    var plan := PlanOf(reply, w.parsePlan, s.intent);
    var note := if reply.Content? then "Created plan: " + ListRepr(plan) else "Error creating plan, using default";
    s.(plan := Some(plan), currentStep := 0, messages := s.messages + [Ai(note)])
  }

  // ---------------------------------------------------------------------
  // Routing

  /** The three keys of the conditional edge out of planning. */
  datatype Route = Research | KnowledgeQuery | General

  function RouteByIntent(intent: Option<string>): (route: Route)
    ensures route == Research <==> intent == Some("research") || intent == Some("analysis")
    ensures route == KnowledgeQuery <==> intent == Some("knowledge_query")
  {
    if intent == Some("research") || intent == Some("analysis") then Research
    else if intent == Some("knowledge_query") then KnowledgeQuery
    else General
  }

  datatype Next = Continue | Finish

  function ShouldContinue(s: State): (next: Next)
    requires s.plan.Some?
    ensures next == Finish <==> s.currentStep >= |s.plan.value|
  {
    if s.currentStep >= |s.plan.value| then Finish else Continue
  }

  // ---------------------------------------------------------------------
  // Plan steps

  /** CPython's messages for the two `None` accesses a step can hit. */
  const NoAttributeGet: string := "'NoneType' object has no attribute 'get'"
  const NoItemAssignment: string := "'NoneType' object does not support item assignment"

  /** What a step body did: changed the state, or raised before changing
      anything. */
  datatype StepOutcome = Updated(state: State) | StepRaised(error: string)

  /** A step body touches neither the run's bookkeeping nor the earlier
      messages, and adds at most one message. */
  predicate KeepsRun(s: State, t: State) {
    && t.intent == s.intent
    && t.plan == s.plan
    && t.currentStep == s.currentStep
    && t.finalResponse == s.finalResponse
    && t.userRequest == s.userRequest
    && t.sessionId == s.sessionId
    && s.messages <= t.messages
    && |t.messages| <= |s.messages| + 1
  }

  datatype ResearchAction = ExtractTopic | SearchPapers | AnalyzeFindings | Synthesize | NoResearchAction

  /** First-match dispatch of a research step on its lower-cased text. */
  function ResearchActionOf(l: string): (a: ResearchAction)
    ensures a == ExtractTopic <==> Contains(l, "extract") && Contains(l, "topic")
    ensures a == SearchPapers <==> !(Contains(l, "extract") && Contains(l, "topic")) && Contains(l, "search")
    ensures a == AnalyzeFindings <==> !(Contains(l, "extract") && Contains(l, "topic")) && !Contains(l, "search") && Contains(l, "analyze")
    ensures a == Synthesize <==> !(Contains(l, "extract") && Contains(l, "topic")) && !Contains(l, "search") && !Contains(l, "analyze") && Contains(l, "synthesize")
  {
    if Contains(l, "extract") && Contains(l, "topic") then ExtractTopic
    else if Contains(l, "search") then SearchPapers
    else if Contains(l, "analyze") then AnalyzeFindings
    else if Contains(l, "synthesize") then Synthesize
    else NoResearchAction
  }

  const AbsPrefix: string := "http://arxiv.org/abs/"

  /** The id the analyze step asks for. */
  function PaperIdOf(p: ArxivClient.Paper): string {
    RemoveAll(p.id, AbsPrefix)
  }

  /** The analyses without an error, for the papers with a non-empty id,
      in order. */
  function AnalyzedPapers(papers: seq<ArxivClient.Paper>, w: World): (r: seq<ArxivClient.PaperContent>)
    ensures |r| <= |papers|
    ensures forall c :: c in r ==>
      exists j :: 0 <= j < |papers| && PaperIdOf(papers[j]) != []
        && ArxivClient.AnalyzePaper(PaperIdOf(papers[j]), w.storagePath, w.services.library) == ArxivClient.Analyzed(c)
  {
    if papers == [] then []
    else
      var earlier := AnalyzedPapers(papers[..|papers| - 1], w);
      var id := PaperIdOf(papers[|papers| - 1]);
      if id == [] then earlier
      else
        match ArxivClient.AnalyzePaper(id, w.storagePath, w.services.library)
        case Analyzed(c) => earlier + [c]
        case AnalysisError(_, _) => earlier
  }

  /** Analysing a concatenation analyses each part in turn: every
      successful analysis is kept, in the papers' order. */
  lemma {:induction false} AnalyzedPapersAppend(a: seq<ArxivClient.Paper>, b: seq<ArxivClient.Paper>, w: World)
    ensures AnalyzedPapers(a + b, w) == AnalyzedPapers(a, w) + AnalyzedPapers(b, w)
    decreases |b|
  {
    if b == [] {
      assert a + b == a;
    } else {
      var init := b[..|b| - 1];
      assert (a + b)[..|a + b| - 1] == a + init;
      assert (a + b)[|a + b| - 1] == b[|b| - 1];
      AnalyzedPapersAppend(a, init, w);
      var x := AnalyzedPapers(a, w);
      var y := AnalyzedPapers(init, w);
      var id := PaperIdOf(b[|b| - 1]);
      if id != [] {
        match ArxivClient.AnalyzePaper(id, w.storagePath, w.services.library)
        case Analyzed(c) => assert x + y + [c] == x + (y + [c]);
        case AnalysisError(_, _) =>
      }
    }
  }

  /** One paper contributes its content exactly when its id is not empty
      and its analysis succeeds. */
  lemma AnalyzedPapersOne(p: ArxivClient.Paper, w: World)
    ensures AnalyzedPapers([p], w) ==
      var id := PaperIdOf(p);
      if id == [] then []
      else match ArxivClient.AnalyzePaper(id, w.storagePath, w.services.library)
        case Analyzed(c) => [c]
        case AnalysisError(_, _) => []
  {
    assert [p][..0] == [];
  }

  /** The "papers" entry of the search results; `[]` when either is absent. */
  function ResultPapers(rd: ResearchData): seq<ArxivClient.Paper> {
    if rd.searchResults.Some? then rd.searchResults.value.PaperList() else []
  }

  /** The papers the analyze step looks at: the first three. */
  function Top3(papers: seq<ArxivClient.Paper>): (top: seq<ArxivClient.Paper>)
    ensures |top| <= 3 && top <= papers
    ensures |papers| >= 3 ==> |top| == 3
    ensures |top| == ArxivClient.Min(3, |papers|)
  {
    papers[..ArxivClient.Min(3, |papers|)]
  }

  /** The synthesis text: the reply, or the error text when the call raised. */
  function SynthesisText(reply: Reply): string {
    match reply
    case Content(t) => t
    case Raised(e) => "Error synthesizing research: " + e
  }

  /** The body of one research step. */
  function ResearchEffect(s: State, w: World, action: ResearchAction): (o: StepOutcome)
    ensures o.Updated? ==> KeepsRun(s, o.state)
    ensures o.StepRaised? <==>
      || (action == ExtractTopic && w.llm(TopicPrompt(s.userRequest)).Raised?)
      || (action in {SearchPapers, AnalyzeFindings, Synthesize} && s.researchData.None?)
    ensures o.Updated? && action != NoResearchAction ==> o.state.researchData.Some?
    ensures o.Updated? && action == AnalyzeFindings && o.state != s ==>
      o.state.researchData.value.analyzedPapers.Some? && |o.state.researchData.value.analyzedPapers.value| <= 3
  {
    match action
    case ExtractTopic =>
      (match w.llm(TopicPrompt(s.userRequest))
       case Raised(e) => StepRaised(e)
       case Content(text) =>
         var topic := Strip(text);
         Updated(s.(researchData := Some(s.researchData.GetOr(NoResearch).(topic := Some(topic))),
                    messages := s.messages + [Ai("Extracted research topic: " + topic)])))
    case SearchPapers =>
      if s.researchData.None? then StepRaised(NoAttributeGet)
      else
        var rd := s.researchData.value;
        var report := ArxivClient.TopicReport(rd.topic.GetOr(s.userRequest), 10, w.storagePath, w.services.library);
        var found := if report.Report? then report.papersFound else 0;
        Updated(s.(researchData := Some(rd.(searchResults := Some(report))),
                   messages := s.messages + [Ai("Found " + IntToString(found) + " relevant papers")]))
    case AnalyzeFindings =>
      if s.researchData.None? then StepRaised(NoAttributeGet)
      else
        var rd := s.researchData.value;
        var papers := ResultPapers(rd);
        if papers == [] then Updated(s)
        else
          var analyzed := AnalyzedPapers(Top3(papers), w);
          Updated(s.(researchData := Some(rd.(analyzedPapers := Some(analyzed))),
                     messages := s.messages + [Ai("Analyzed " + IntToString(|analyzed|) + " papers and added to knowledge graph")]))
    case Synthesize =>
      if s.researchData.None? then StepRaised(NoAttributeGet)
      else
        var rd := s.researchData.value;
        var summary := KG.KnowledgeSummary(w.manager, w.services.library, rd.topic.GetOr(s.userRequest));
        // the summary is kept in the knowledge data; the prompt does not carry it
        var synthesis := SynthesisText(w.llm(SynthesisPrompt(rd, s.userRequest)));
        Updated(s.(knowledgeData := Some(NoKnowledge.(base := Some(summary))),
                   researchData := Some(rd.(synthesis := Some(synthesis))),
                   messages := s.messages + [Ai("Synthesized research findings with existing knowledge")]))
    case NoResearchAction => Updated(s)
  }

  /** The step property shared by both execution nodes: past the end of
      the plan the state is returned as it is; otherwise (and when there is
      no plan) the step counter moves on by exactly one, whatever the step
      did, and the run's bookkeeping and earlier messages stay as they were. */
  predicate Advances(s: State, r: State) {
    && (s.plan.Some? && s.currentStep >= |s.plan.value| ==> r == s)
    && (s.plan.None? || s.currentStep < |s.plan.value| ==> r.currentStep == s.currentStep + 1)
    && r.intent == s.intent
    && r.plan == s.plan
    && r.finalResponse == s.finalResponse
    && r.userRequest == s.userRequest
    && r.sessionId == s.sessionId
    && s.messages <= r.messages
  }

  /** The state after a step raised: the error message, and the next step. */
  function StepFailed(s: State, prefix: string, error: string): State {
    s.(messages := s.messages + [Ai(prefix + error)], currentStep := s.currentStep + 1)
  }

  const ResearchErrorLabel: string := "Error in research step: "
  const KnowledgeErrorLabel: string := "Error in knowledge query: "

  /** One call of the research-execution node. */
  function ResearchStep(s: State, w: World): (r: State)
    ensures Advances(s, r)
  {
    if s.plan.None? then StepFailed(s, ResearchErrorLabel, KG.NoLenOfNone)
    else if s.currentStep >= |s.plan.value| then s
    else
      match ResearchEffect(s, w, ResearchActionOf(Lower(s.plan.value[s.currentStep])))
      case Updated(t) => t.(currentStep := t.currentStep + 1)
      case StepRaised(e) => StepFailed(s, ResearchErrorLabel, e)
  }

  datatype KnowledgeAction = SearchKnowledge | RetrieveSummary | Formulate | NoKnowledgeAction

  /** First-match dispatch of a knowledge step on its lower-cased text. */
  function KnowledgeActionOf(l: string): (a: KnowledgeAction)
    ensures a == SearchKnowledge <==> Contains(l, "search") && Contains(l, "knowledge")
    ensures a == RetrieveSummary <==> !(Contains(l, "search") && Contains(l, "knowledge")) && Contains(l, "retrieve")
    ensures a == Formulate <==> !(Contains(l, "search") && Contains(l, "knowledge")) && !Contains(l, "retrieve") && Contains(l, "formulate")
  {
    if Contains(l, "search") && Contains(l, "knowledge") then SearchKnowledge
    else if Contains(l, "retrieve") then RetrieveSummary
    else if Contains(l, "formulate") then Formulate
    else NoKnowledgeAction
  }

  /** The formulated answer: the reply, or the error text when the call raised. */
  function FormulatedText(reply: Reply): string {
    match reply
    case Content(t) => t
    case Raised(e) => "Error formulating response: " + e
  }

  /** The body of one knowledge step. */
  function KnowledgeEffect(s: State, w: World, action: KnowledgeAction): (o: StepOutcome)
    ensures o.Updated? ==> KeepsRun(s, o.state) && o.state.researchData == s.researchData
    ensures o.StepRaised? <==> action == Formulate && s.knowledgeData.None?
    ensures o.StepRaised? ==> o.error == NoItemAssignment
    ensures o.Updated? && action != NoKnowledgeAction ==> o.state.knowledgeData.Some?
  {
    match action
    case SearchKnowledge =>
      var results := KG.SearchKnowledgeSpec(w.manager, s.userRequest, 10);
      Updated(s.(knowledgeData := Some(s.knowledgeData.GetOr(NoKnowledge).(searchResults := Some(results))),
                 messages := s.messages + [Ai("Found " + IntToString(|results|) + " relevant knowledge items")]))
    case RetrieveSummary =>
      var summary := KG.KnowledgeSummary(w.manager, w.services.library, s.userRequest);
      Updated(s.(knowledgeData := Some(s.knowledgeData.GetOr(NoKnowledge).(summary := Some(summary))),
                 messages := s.messages + [Ai("Retrieved comprehensive knowledge summary")]))
    case Formulate =>
      var response := FormulatedText(w.llm(FormulatePrompt(s.knowledgeData, s.userRequest)));
      if s.knowledgeData.None? then StepRaised(NoItemAssignment)
      else
        Updated(s.(knowledgeData := Some(s.knowledgeData.value.(response := Some(response))),
                   messages := s.messages + [Ai("Formulated response from knowledge base")]))
    case NoKnowledgeAction => Updated(s)
  }

  /** One call of the knowledge-query node. */
  function KnowledgeStep(s: State, w: World): (r: State)
    ensures Advances(s, r)
    ensures r.researchData == s.researchData
  {
    if s.plan.None? then StepFailed(s, KnowledgeErrorLabel, KG.NoLenOfNone)
    else if s.currentStep >= |s.plan.value| then s
    else
      match KnowledgeEffect(s, w, KnowledgeActionOf(Lower(s.plan.value[s.currentStep])))
      case Updated(t) => t.(currentStep := t.currentStep + 1)
      case StepRaised(e) => StepFailed(s, KnowledgeErrorLabel, e)
  }

  // ---------------------------------------------------------------------
  // The execution loop

  /** The two execution nodes. */
  datatype Node = ResearchNode | KnowledgeNode

  function Execute(node: Node, s: State, w: World): (r: State)
    ensures Advances(s, r)
  {
    match node
    case ResearchNode => ResearchStep(s, w)
    case KnowledgeNode => KnowledgeStep(s, w)
  }

  /** From a state the node has just produced: stop when the plan is done,
      otherwise call the node again. */
  function RunFrom(node: Node, s: State, w: World): (r: State)
    requires s.plan.Some?
    decreases |s.plan.value| - s.currentStep
  {
    if ShouldContinue(s) == Finish then s else RunFrom(node, Execute(node, s, w), w)
  }

  /** How many more node calls `RunFrom` makes. */
  function CallsFrom(node: Node, s: State, w: World): nat
    requires s.plan.Some?
    decreases |s.plan.value| - s.currentStep
  {
    if ShouldContinue(s) == Finish then 0 else 1 + CallsFrom(node, Execute(node, s, w), w)
  }

  /** The loop entered from planning: the node runs once, then as long as
      the conditional edge says "continue". */
  function ExecutionLoop(node: Node, s: State, w: World): State
    requires s.plan.Some?
  {
    RunFrom(node, Execute(node, s, w), w)
  }

  function NodeCalls(node: Node, s: State, w: World): nat
    requires s.plan.Some?
  {
    1 + CallsFrom(node, Execute(node, s, w), w)
  }

  // ---------------------------------------------------------------------
  // Response generation and the whole request

  const ResponseApology: string := "I apologize, but I encountered an error while generating the response."
  const ProcessApology: string := "I apologize, but I encountered an error while processing your request."

  function ResponseNode(s: State, w: World): (r: State)
    ensures w.llm(ResponsePrompt(s.userRequest, s.researchData)).Content? ==>
      r.finalResponse == Some(w.llm(ResponsePrompt(s.userRequest, s.researchData)).text)
    ensures w.llm(ResponsePrompt(s.userRequest, s.researchData)).Raised? ==> r.finalResponse == Some(ResponseApology)
    ensures r.finalResponse.Some? && r.messages == s.messages + [Ai(r.finalResponse.value)]
    ensures r == s.(finalResponse := r.finalResponse, messages := r.messages)
  {
    var text := match w.llm(ResponsePrompt(s.userRequest, s.researchData))
      case Content(t) => t
      case Raised(_) => ResponseApology;
    s.(finalResponse := Some(text), messages := s.messages + [Ai(text)])
  }

  function InitialState(request: string, sessionId: string): State {
    State([Human(request)], None, None, 0, None, None, None, request, sessionId)
  }

  function Planned(w: World, request: string, sessionId: string): (s: State)
    ensures s.plan.Some?
  {
    PlanNode(IntentNode(InitialState(request, sessionId), w), w)
  }

  /** The conditional edge after planning: run the chosen node to the end
      of the plan, or go straight to response generation. */
  function Routed(planned: State, w: World): State
    requires planned.plan.Some?
  {
    match RouteByIntent(planned.intent)
    case Research => ExecutionLoop(ResearchNode, planned, w)
    case KnowledgeQuery => ExecutionLoop(KnowledgeNode, planned, w)
    case General => planned
  }

  /** How many times the routed node is called. */
  function RoutedCalls(planned: State, w: World): nat
    requires planned.plan.Some?
  {
    match RouteByIntent(planned.intent)
    case Research => NodeCalls(ResearchNode, planned, w)
    case KnowledgeQuery => NodeCalls(KnowledgeNode, planned, w)
    case General => 0
  }

  /** The state that reaches response generation. */
  function Executed(w: World, request: string, sessionId: string): State {
    Routed(Planned(w, request, sessionId), w)
  }

  function FinalState(w: World, request: string, sessionId: string): State {
    ResponseNode(Executed(w, request, sessionId), w)
  }

  function Contents(ms: seq<Message>): (cs: seq<string>)
    ensures |cs| == |ms| && forall i :: 0 <= i < |ms| ==> cs[i] == ms[i].content
  {
    seq(|ms|, i requires 0 <= i < |ms| => ms[i].content)
  }

  /** The dictionary `process_request` returns. */
  datatype ProcessResult =
    | Processed(response: Option<string>, intent: Option<string>, plan: Option<seq<string>>, researchData: Option<ResearchData>, messages: seq<string>)
    | ProcessFailed(apology: string, error: string)

  function ProcessOutcome(w: World, request: string, sessionId: string): ProcessResult {
    match w.graphFault
    case Some(e) => ProcessFailed(ProcessApology, e)
    case None =>
      var f := FinalState(w, request, sessionId);
      Processed(f.finalResponse, f.intent, f.plan, f.researchData, Contents(f.messages))
  }

  // ---------------------------------------------------------------------
  // The nodes, acting on the shared state in place

  /** The state dictionary the nodes mutate. */
  class AgentState {
    var messages: seq<Message>
    var intent: Option<string>
    var plan: Option<seq<string>>
    var currentStep: nat
    var researchData: Option<ResearchData>
    var knowledgeData: Option<KnowledgeData>
    var finalResponse: Option<string>
    var userRequest: string
    var sessionId: string
    /** How many times `final_response` has been written. */
    ghost var responseWrites: nat

    function View(): State
      reads this
    {
      State(messages, intent, plan, currentStep, researchData, knowledgeData, finalResponse, userRequest, sessionId)
    }

    /** The initial state of `process_request`. */
    constructor (request: string, session: string)
      ensures View() == InitialState(request, session)
      ensures responseWrites == 0
    {
      messages := [Human(request)];
      intent := None;
      plan := None;
      currentStep := 0;
      researchData := None;
      knowledgeData := None;
      finalResponse := None;
      userRequest := request;
      sessionId := session;
      responseWrites := 0;
    }
  }

  method IntentDetection(st: AgentState, w: World)
    modifies st
    ensures st.View() == IntentNode(old(st.View()), w)
    ensures st.responseWrites == old(st.responseWrites)
  {
    match w.llm(IntentPrompt(st.userRequest)) {
      case Content(text) =>
        var intent := Lower(Strip(text));
        if intent !in ValidIntents {
          intent := "general";
        }
        st.intent := Some(intent);
        st.messages := st.messages + [Ai("Detected intent: " + intent)];
      case Raised(_) =>
        st.intent := Some("general");
        st.messages := st.messages + [Ai("Error detecting intent, defaulting to general")];
    }
  }

  method Planning(st: AgentState, w: World)
    modifies st
    ensures st.View() == PlanNode(old(st.View()), w)
    ensures st.responseWrites == old(st.responseWrites)
  {
    match w.llm(PlanPrompt(st.intent, st.userRequest)) {
      case Content(text) =>
        var plan: seq<string>;
        match w.parsePlan(Strip(text)) {
          case Steps(steps) => plan := steps;
          case NotJson => plan := DefaultPlan(st.intent);
          case NotList => plan := DefaultPlan(st.intent);
        }
        st.plan := Some(plan);
        st.currentStep := 0;
        st.messages := st.messages + [Ai("Created plan: " + ListRepr(plan))];
      case Raised(_) =>
        st.plan := Some(DefaultPlan(st.intent));
        st.currentStep := 0;
        st.messages := st.messages + [Ai("Error creating plan, using default")];
    }
  }

  /** A step body did what `o` says: changed the state to `o.state`, or
      raised `o.error` and changed nothing. */
  predicate Performed(before: State, after: State, o: StepOutcome, error: Option<string>) {
    match o
    case Updated(t) => error.None? && after == t
    case StepRaised(e) => error == Some(e) && after == before
  }

  /** The analyze step's loop over the first three papers. */
  method AnalyzeTopPapers(papers: seq<ArxivClient.Paper>, w: World) returns (analyzed: seq<ArxivClient.PaperContent>)
    ensures analyzed == AnalyzedPapers(Top3(papers), w)
    ensures |analyzed| <= 3
  {
    var top := Top3(papers);
    analyzed := [];
    for i := 0 to |top|
      invariant analyzed == AnalyzedPapers(top[..i], w)
    {
      assert top[..i + 1][..i] == top[..i];
      var paperId := PaperIdOf(top[i]);
      if paperId != [] {
        var analysis := ArxivClient.AnalyzePaper(paperId, w.storagePath, w.services.library);
        if analysis.Analyzed? {
          analyzed := analyzed + [analysis.content];
        }
      }
    }
    assert top[..|top|] == top;
  }

  method ExtractTopicStep(st: AgentState, w: World) returns (error: Option<string>)
    modifies st
    ensures Performed(old(st.View()), st.View(), ResearchEffect(old(st.View()), w, ExtractTopic), error)
    ensures st.responseWrites == old(st.responseWrites)
  {
    match w.llm(TopicPrompt(st.userRequest)) {
      case Raised(e) =>
        return Some(e);
      case Content(text) =>
        var topic := Strip(text);
        if st.researchData.None? {
          st.researchData := Some(NoResearch);
        }
        st.researchData := Some(st.researchData.value.(topic := Some(topic)));
        st.messages := st.messages + [Ai("Extracted research topic: " + topic)];
        return None;
    }
  }

  method SearchStep(st: AgentState, w: World) returns (error: Option<string>)
    modifies st
    ensures Performed(old(st.View()), st.View(), ResearchEffect(old(st.View()), w, SearchPapers), error)
    ensures st.responseWrites == old(st.responseWrites)
  {
    if st.researchData.None? {
      return Some(NoAttributeGet);
    }
    var topic := st.researchData.value.topic.GetOr(st.userRequest);
    var report := ArxivClient.ResearchTopic(topic, 10, w.storagePath, w.services.library);
    st.researchData := Some(st.researchData.value.(searchResults := Some(report)));
    var found := if report.Report? then report.papersFound else 0;
    st.messages := st.messages + [Ai("Found " + IntToString(found) + " relevant papers")];
    return None;
  }

  method AnalyzeStep(st: AgentState, w: World) returns (error: Option<string>)
    modifies st
    ensures Performed(old(st.View()), st.View(), ResearchEffect(old(st.View()), w, AnalyzeFindings), error)
    ensures st.responseWrites == old(st.responseWrites)
  {
    if st.researchData.None? {
      return Some(NoAttributeGet);
    }
    var rd := st.researchData.value;
    var papers := ResultPapers(rd);
    if papers != [] {
      var analyzed := AnalyzeTopPapers(papers, w);
      st.researchData := Some(rd.(analyzedPapers := Some(analyzed)));
      st.messages := st.messages + [Ai("Analyzed " + IntToString(|analyzed|) + " papers and added to knowledge graph")];
    }
    return None;
  }

  method SynthesizeStep(st: AgentState, w: World) returns (error: Option<string>)
    modifies st
    ensures Performed(old(st.View()), st.View(), ResearchEffect(old(st.View()), w, Synthesize), error)
    ensures st.responseWrites == old(st.responseWrites)
  {
    if st.researchData.None? {
      return Some(NoAttributeGet);
    }
    var rd := st.researchData.value;
    var topic := rd.topic.GetOr(st.userRequest);
    var summary := KG.GetKnowledgeSummary(w.manager, w.services.library, topic);
    st.knowledgeData := Some(NoKnowledge.(base := Some(summary)));
    var synthesis := SynthesisText(w.llm(SynthesisPrompt(rd, st.userRequest)));
    st.researchData := Some(rd.(synthesis := Some(synthesis)));
    st.messages := st.messages + [Ai("Synthesized research findings with existing knowledge")];
    return None;
  }

  method ResearchExecution(st: AgentState, w: World)
    modifies st
    ensures st.View() == ResearchStep(old(st.View()), w)
    ensures st.responseWrites == old(st.responseWrites)
  {
    if st.plan.None? {
      st.messages := st.messages + [Ai(ResearchErrorLabel + KG.NoLenOfNone)];
      st.currentStep := st.currentStep + 1;
      return;
    }
    if st.currentStep >= |st.plan.value| {
      return;
    }
    var error: Option<string> := None;
    match ResearchActionOf(Lower(st.plan.value[st.currentStep])) {
      case ExtractTopic => error := ExtractTopicStep(st, w);
      case SearchPapers => error := SearchStep(st, w);
      case AnalyzeFindings => error := AnalyzeStep(st, w);
      case Synthesize => error := SynthesizeStep(st, w);
      case NoResearchAction =>
    }
    if error.Some? {
      st.messages := st.messages + [Ai(ResearchErrorLabel + error.value)];
    }
    st.currentStep := st.currentStep + 1;
  }

  method SearchKnowledgeStep(st: AgentState, w: World) returns (error: Option<string>)
    modifies st
    ensures Performed(old(st.View()), st.View(), KnowledgeEffect(old(st.View()), w, SearchKnowledge), error)
    ensures st.responseWrites == old(st.responseWrites)
  {
    var results := KG.SearchKnowledge(w.manager, st.userRequest, 10);
    if st.knowledgeData.None? {
      st.knowledgeData := Some(NoKnowledge);
    }
    st.knowledgeData := Some(st.knowledgeData.value.(searchResults := Some(results)));
    st.messages := st.messages + [Ai("Found " + IntToString(|results|) + " relevant knowledge items")];
    return None;
  }

  method RetrieveStep(st: AgentState, w: World) returns (error: Option<string>)
    modifies st
    ensures Performed(old(st.View()), st.View(), KnowledgeEffect(old(st.View()), w, RetrieveSummary), error)
    ensures st.responseWrites == old(st.responseWrites)
  {
    var summary := KG.GetKnowledgeSummary(w.manager, w.services.library, st.userRequest);
    if st.knowledgeData.None? {
      st.knowledgeData := Some(NoKnowledge);
    }
    st.knowledgeData := Some(st.knowledgeData.value.(summary := Some(summary)));
    st.messages := st.messages + [Ai("Retrieved comprehensive knowledge summary")];
    return None;
  }

  method FormulateStep(st: AgentState, w: World) returns (error: Option<string>)
    modifies st
    ensures Performed(old(st.View()), st.View(), KnowledgeEffect(old(st.View()), w, Formulate), error)
    ensures st.responseWrites == old(st.responseWrites)
  {
    var response := FormulatedText(w.llm(FormulatePrompt(st.knowledgeData, st.userRequest)));
    if st.knowledgeData.None? {
      return Some(NoItemAssignment);
    }
    st.knowledgeData := Some(st.knowledgeData.value.(response := Some(response)));
    st.messages := st.messages + [Ai("Formulated response from knowledge base")];
    return None;
  }

  method KnowledgeQuerying(st: AgentState, w: World)
    modifies st
    ensures st.View() == KnowledgeStep(old(st.View()), w)
    ensures st.responseWrites == old(st.responseWrites)
  {
    if st.plan.None? {
      st.messages := st.messages + [Ai(KnowledgeErrorLabel + KG.NoLenOfNone)];
      st.currentStep := st.currentStep + 1;
      return;
    }
    if st.currentStep >= |st.plan.value| {
      return;
    }
    var error: Option<string> := None;
    match KnowledgeActionOf(Lower(st.plan.value[st.currentStep])) {
      case SearchKnowledge => error := SearchKnowledgeStep(st, w);
      case RetrieveSummary => error := RetrieveStep(st, w);
      case Formulate => error := FormulateStep(st, w);
      case NoKnowledgeAction =>
    }
    if error.Some? {
      st.messages := st.messages + [Ai(KnowledgeErrorLabel + error.value)];
    }
    st.currentStep := st.currentStep + 1;
  }

  method RunNode(st: AgentState, node: Node, w: World)
    modifies st
    ensures st.View() == Execute(node, old(st.View()), w)
    ensures st.responseWrites == old(st.responseWrites)
  {
    match node {
      case ResearchNode => ResearchExecution(st, w);
      case KnowledgeNode => KnowledgeQuerying(st, w);
    }
  }

  /** An execution node, then the conditional edge back to it until it
      says "finish". */
  method ExecuteUntilDone(st: AgentState, node: Node, w: World) returns (ghost calls: nat)
    requires st.plan.Some?
    modifies st
    ensures st.View() == ExecutionLoop(node, old(st.View()), w)
    ensures calls == NodeCalls(node, old(st.View()), w)
    ensures st.responseWrites == old(st.responseWrites)
  {
    ghost var start := st.View();
    RunNode(st, node, w);
    calls := 1;
    while ShouldContinue(st.View()) == Continue
      invariant st.plan == start.plan
      invariant RunFrom(node, st.View(), w) == ExecutionLoop(node, start, w)
      invariant calls + CallsFrom(node, st.View(), w) == NodeCalls(node, start, w)
      invariant st.responseWrites == old(st.responseWrites)
      decreases |st.plan.value| - st.currentStep
    {
      RunNode(st, node, w);
      calls := calls + 1;
    }
  }

  method ResponseGeneration(st: AgentState, w: World)
    modifies st
    ensures st.View() == ResponseNode(old(st.View()), w)
    ensures st.responseWrites == old(st.responseWrites) + 1
  {
    match w.llm(ResponsePrompt(st.userRequest, st.researchData)) {
      case Content(text) =>
        st.finalResponse := Some(text);
      case Raised(_) =>
        st.finalResponse := Some(ResponseApology);
    }
    st.responseWrites := st.responseWrites + 1;
    st.messages := st.messages + [Ai(st.finalResponse.value)];
  }

  /** `process_request`: the graph from intent detection to response
      generation on a fresh state, or the apology when the graph runtime
      raises. On a completed run `final_response` was written exactly once
      and the execution node was called max(1, |plan|) times on the
      research and knowledge routes and not at all otherwise. */
  method ProcessRequest(w: World, request: string, sessionId: string)
    returns (r: ProcessResult, ghost calls: nat, ghost responseWrites: nat)
    ensures r == ProcessOutcome(w, request, sessionId)
    ensures r.Processed? ==> responseWrites == 1
    ensures r.Processed? && RouteByIntent(r.intent) != General ==>
      r.plan.Some? && calls == (if |r.plan.value| == 0 then 1 else |r.plan.value|)
    ensures r.Processed? && RouteByIntent(r.intent) == General ==> calls == 0
  {
    if w.graphFault.Some? {
      return ProcessFailed(ProcessApology, w.graphFault.value), 0, 0;
    }
    var st := new AgentState(request, sessionId);
    calls := RunGraph(st, w);
    FinalKeepsPlan(w, request, sessionId);
    RoutedCallsCount(Planned(w, request, sessionId), w);
    responseWrites := st.responseWrites;
    r := Processed(st.finalResponse, st.intent, st.plan, st.researchData, Contents(st.messages));
  }

  /** The compiled graph run on a fresh state: intent detection, planning,
      the routed execution loop, response generation. */
  method RunGraph(st: AgentState, w: World) returns (ghost calls: nat)
    requires st.View() == InitialState(st.userRequest, st.sessionId) && st.responseWrites == 0
    modifies st
    ensures st.View() == FinalState(w, old(st.userRequest), old(st.sessionId))
    ensures calls == RoutedCalls(Planned(w, old(st.userRequest), old(st.sessionId)), w)
    ensures st.responseWrites == 1
  {
    IntentDetection(st, w);
    Planning(st, w);
    calls := RunRoute(st, w);
    ResponseGeneration(st, w);
  }

  /** The conditional edge after planning, on the shared state. */
  method RunRoute(st: AgentState, w: World) returns (ghost calls: nat)
    requires st.plan.Some?
    modifies st
    ensures st.View() == Routed(old(st.View()), w)
    ensures calls == RoutedCalls(old(st.View()), w)
    ensures st.responseWrites == old(st.responseWrites)
  {
    calls := 0;
    match RouteByIntent(st.intent) {
      case Research =>
        calls := ExecuteUntilDone(st, ResearchNode, w);
      case KnowledgeQuery =>
        calls := ExecuteUntilDone(st, KnowledgeNode, w);
      case General =>
    }
  }

  // ---------------------------------------------------------------------
  // Lemmas

  /** The node runs out the plan: `CallsFrom` is the number of steps left. */
  lemma {:induction false} CallsFromCount(node: Node, s: State, w: World)
    requires s.plan.Some? && s.currentStep <= |s.plan.value|
    ensures CallsFrom(node, s, w) == |s.plan.value| - s.currentStep
    ensures RunFrom(node, s, w).currentStep == |s.plan.value|
    ensures RunFrom(node, s, w).plan == s.plan
    decreases |s.plan.value| - s.currentStep
  {
    if s.currentStep < |s.plan.value| {
      CallsFromCount(node, Execute(node, s, w), w);
    }
  }

  /** From a fresh plan the node is called max(1, |plan|) times, and the
      loop stops with the step counter at the end of the plan. */
  lemma ExecutionRunsPlan(node: Node, s: State, w: World)
    requires s.plan.Some? && s.currentStep == 0
    ensures NodeCalls(node, s, w) == if |s.plan.value| == 0 then 1 else |s.plan.value|
    ensures ExecutionLoop(node, s, w).currentStep == |s.plan.value|
  {
    CallsFromCount(node, Execute(node, s, w), w);
  }

  /** From a fresh plan, the routed node runs max(1, |plan|) times, or not
      at all for a general request. */
  lemma RoutedCallsCount(planned: State, w: World)
    requires planned.plan.Some? && planned.currentStep == 0
    ensures RouteByIntent(planned.intent) != General ==>
      RoutedCalls(planned, w) == if |planned.plan.value| == 0 then 1 else |planned.plan.value|
    ensures RouteByIntent(planned.intent) == General ==> RoutedCalls(planned, w) == 0
  {
    match RouteByIntent(planned.intent) {
      case Research => ExecutionRunsPlan(ResearchNode, planned, w);
      case KnowledgeQuery => ExecutionRunsPlan(KnowledgeNode, planned, w);
      case General =>
    }
  }

  /** The returned intent and plan are the ones planning produced. */
  lemma FinalKeepsPlan(w: World, request: string, sessionId: string)
    ensures FinalState(w, request, sessionId).intent == Planned(w, request, sessionId).intent
    ensures FinalState(w, request, sessionId).plan == Planned(w, request, sessionId).plan
    ensures Planned(w, request, sessionId).currentStep == 0
  {
    ExecutedKeeps(w, request, sessionId);
  }

  /** Lemma form of the loop's frame: the loop keeps the intent, the plan,
      the absent final response and the earlier messages. */
  lemma {:induction false} RunFromKeeps(node: Node, s: State, w: World)
    requires s.plan.Some?
    ensures var r := RunFrom(node, s, w);
      r.intent == s.intent && r.plan == s.plan && r.finalResponse == s.finalResponse
      && r.userRequest == s.userRequest && r.sessionId == s.sessionId && s.messages <= r.messages
    decreases |s.plan.value| - s.currentStep
  {
    if s.currentStep < |s.plan.value| {
      RunFromKeeps(node, Execute(node, s, w), w);
    }
  }

  /** The state that reaches response generation still has the intent,
      the plan and the messages planning left, and no final response. */
  lemma ExecutedKeeps(w: World, request: string, sessionId: string)
    ensures var planned := Planned(w, request, sessionId);
      var e := Executed(w, request, sessionId);
      && e.intent == planned.intent && e.plan == planned.plan
      && e.finalResponse.None? && e.userRequest == request && e.sessionId == sessionId
      && planned.messages <= e.messages
  {
    var planned := Planned(w, request, sessionId);
    match RouteByIntent(planned.intent) {
      case Research =>
        RunFromKeeps(ResearchNode, Execute(ResearchNode, planned, w), w);
      case KnowledgeQuery =>
        RunFromKeeps(KnowledgeNode, Execute(KnowledgeNode, planned, w), w);
      case General =>
    }
  }

  /** What every run that is not interrupted by the runtime promises: a
      valid intent, a plan, the request as the first message, and a final
      response that is set once, at the end, and is also the last message. */
  lemma WorkflowShape(w: World, request: string, sessionId: string)
    ensures var f := FinalState(w, request, sessionId);
      && f.intent.Some? && f.intent.value in ValidIntents
      && f.plan.Some?
      && f.userRequest == request && f.sessionId == sessionId
      && |f.messages| >= 4 && f.messages[0] == Human(request)
      && f.finalResponse.Some? && f.messages[|f.messages| - 1] == Ai(f.finalResponse.value)
    ensures Executed(w, request, sessionId).finalResponse.None?
  {
    var planned := Planned(w, request, sessionId);
    var e := Executed(w, request, sessionId);
    assert |planned.messages| == 3 && planned.messages[0] == Human(request);
    ExecutedKeeps(w, request, sessionId);
    assert e.messages[0] == Human(request);
  }

  /** A request routed to "general" skips both execution nodes. */
  lemma GeneralSkipsExecution(w: World, request: string, sessionId: string)
    requires RouteByIntent(Planned(w, request, sessionId).intent) == General
    ensures Executed(w, request, sessionId) == Planned(w, request, sessionId)
    ensures FinalState(w, request, sessionId).currentStep == 0
  {
  }

  /** Both apologies: a runtime fault gives the request-level one; a
      failing response call gives the response-level one. */
  lemma ProcessOutcomeCases(w: World, request: string, sessionId: string)
    ensures w.graphFault.Some? ==> ProcessOutcome(w, request, sessionId) == ProcessFailed(ProcessApology, w.graphFault.value)
    ensures w.graphFault.None? ==> ProcessOutcome(w, request, sessionId).Processed?
    ensures var s := Executed(w, request, sessionId);
      w.graphFault.None? && w.llm(ResponsePrompt(s.userRequest, s.researchData)).Raised? ==>
        ProcessOutcome(w, request, sessionId).response == Some(ResponseApology)
  {
  }

  /** A step containing "extract" and, at position 17, "topic". */
  lemma ExtractStepDispatch(l: string)
    requires StartsWith(l, "extract") && 17 + 5 <= |l| && l[17..22] == "topic"
    ensures ResearchActionOf(l) == ExtractTopic
  {
    ContainsAt(l, "extract", 0);
    ContainsAt(l, "topic", 17);
  }

  /** A step starting with "search" that has no 'x' (so no "extract"). */
  lemma SearchStepDispatch(l: string)
    requires 'x' !in l && StartsWith(l, "search")
    ensures ResearchActionOf(l) == SearchPapers
  {
    MissingCharNotContained(l, "extract", 'x');
    ContainsAt(l, "search", 0);
  }

  /** A step starting with "analyze" without 'x' or 'h' (so neither
      "extract" nor "search"). */
  lemma AnalyzeStepDispatch(l: string)
    requires 'x' !in l && 'h' !in l && StartsWith(l, "analyze")
    ensures ResearchActionOf(l) == AnalyzeFindings
  {
    MissingCharNotContained(l, "extract", 'x');
    MissingCharNotContained(l, "search", 'h');
    ContainsAt(l, "analyze", 0);
  }

  /** A step starting with "synthesize" without 'x', 'c' or 'a'. */
  lemma SynthesizeStepDispatch(l: string)
    requires 'x' !in l && 'c' !in l && 'a' !in l && StartsWith(l, "synthesize")
    ensures ResearchActionOf(l) == Synthesize
  {
    MissingCharNotContained(l, "extract", 'x');
    MissingCharNotContained(l, "search", 'c');
    MissingCharNotContained(l, "analyze", 'a');
    ContainsAt(l, "synthesize", 0);
  }

  /** A step with no 'x', no 'z' and lacking one letter of "search":
      none of the four keywords. */
  lemma NoResearchStepDispatch(l: string, c: char)
    requires 'x' !in l && 'z' !in l && c in "search" && c !in l
    ensures ResearchActionOf(l) == NoResearchAction
  {
    MissingCharNotContained(l, "extract", 'x');
    MissingCharNotContained(l, "search", c);
    MissingCharNotContained(l, "analyze", 'z');
    MissingCharNotContained(l, "synthesize", 'z');
  }

  /** A step starting with "search" with "knowledge" at position 7. */
  lemma SearchKnowledgeStepDispatch(l: string)
    requires StartsWith(l, "search") && 7 + 9 <= |l| && l[7..16] == "knowledge"
    ensures KnowledgeActionOf(l) == SearchKnowledge
  {
    ContainsAt(l, "search", 0);
    ContainsAt(l, "knowledge", 7);
  }

  /** A step starting with "retrieve" that has no 'h' (so no "search"). */
  lemma RetrieveStepDispatch(l: string)
    requires 'h' !in l && StartsWith(l, "retrieve")
    ensures KnowledgeActionOf(l) == RetrieveSummary
  {
    MissingCharNotContained(l, "search", 'h');
    ContainsAt(l, "retrieve", 0);
  }

  /** A step starting with "formulate" with no 'h' and no 'i'. */
  lemma FormulateStepDispatch(l: string)
    requires 'h' !in l && 'i' !in l && StartsWith(l, "formulate")
    ensures KnowledgeActionOf(l) == Formulate
  {
    MissingCharNotContained(l, "search", 'h');
    MissingCharNotContained(l, "retrieve", 'i');
    ContainsAt(l, "formulate", 0);
  }

  lemma LowerResearchStep0()
    ensures Lower(ResearchPlan[0]) == "extract research topic"
  {
    LowerEach(ResearchPlan[0], "extract research topic");
  }

  lemma DispatchResearchStep0()
    ensures ResearchActionOf("extract research topic") == ExtractTopic
  {
    ExtractStepDispatch("extract research topic");
  }

  lemma LowerResearchStep1()
    ensures Lower(ResearchPlan[1]) == "search for papers"
  {
    LowerEach(ResearchPlan[1], "search for papers");
  }

  lemma DispatchResearchStep1()
    ensures ResearchActionOf("search for papers") == SearchPapers
  {
    SearchStepDispatch("search for papers");
  }

  lemma LowerResearchStep2()
    ensures Lower(ResearchPlan[2]) == "analyze findings"
  {
    LowerEach(ResearchPlan[2], "analyze findings");
  }

  lemma DispatchResearchStep2()
    ensures ResearchActionOf("analyze findings") == AnalyzeFindings
  {
    AnalyzeStepDispatch("analyze findings");
  }

  lemma LowerResearchStep3()
    ensures Lower(ResearchPlan[3]) == "synthesize results"
  {
    LowerEach(ResearchPlan[3], "synthesize results");
  }

  lemma DispatchResearchStep3()
    ensures ResearchActionOf("synthesize results") == Synthesize
  {
    SynthesizeStepDispatch("synthesize results");
  }

  /** The default research plan runs its four steps in order: extract
      the topic, search, analyze, synthesize. */
  lemma ResearchPlanDispatch()
    ensures ResearchActionOf(Lower(ResearchPlan[0])) == ExtractTopic
    ensures ResearchActionOf(Lower(ResearchPlan[1])) == SearchPapers
    ensures ResearchActionOf(Lower(ResearchPlan[2])) == AnalyzeFindings
    ensures ResearchActionOf(Lower(ResearchPlan[3])) == Synthesize
  {
    LowerResearchStep0();
    DispatchResearchStep0();
    LowerResearchStep1();
    DispatchResearchStep1();
    LowerResearchStep2();
    DispatchResearchStep2();
    LowerResearchStep3();
    DispatchResearchStep3();
  }

  /** On the default analysis plan with no research data, the first, second
      and fourth steps match no keyword, and the third ("Analyze content")
      raises on the missing `research_data`: the step is logged as an error
      and the research data stays absent. */
  lemma AnalysisPlanWithoutResearch(s: State, w: World)
    requires s.plan == Some(AnalysisPlan) && s.currentStep < |AnalysisPlan| && s.researchData.None?
    ensures s.currentStep == 2 ==> ResearchStep(s, w) == StepFailed(s, ResearchErrorLabel, NoAttributeGet)
    ensures s.currentStep != 2 ==> ResearchStep(s, w) == s.(currentStep := s.currentStep + 1)
  {
    var k := s.currentStep;
    assert s.plan.value[k] == AnalysisPlan[k];
    if k == 0 {
      LowerAnalysisStep0();
      DispatchAnalysisStep0();
      UnmatchedOrFailedStep(s, w, NoResearchAction);
    } else if k == 1 {
      LowerAnalysisStep1();
      DispatchAnalysisStep1();
      UnmatchedOrFailedStep(s, w, NoResearchAction);
    } else if k == 2 {
      LowerAnalysisStep2();
      DispatchAnalysisStep2();
      UnmatchedOrFailedStep(s, w, AnalyzeFindings);
    } else {
      LowerAnalysisStep3();
      DispatchAnalysisStep3();
      UnmatchedOrFailedStep(s, w, NoResearchAction);
    }
  }

  /** A research step that matches no keyword only moves the counter; one
      that needs the missing research data is logged as that error. */
  lemma UnmatchedOrFailedStep(s: State, w: World, a: ResearchAction)
    requires s.plan.Some? && s.currentStep < |s.plan.value|
    requires a == ResearchActionOf(Lower(s.plan.value[s.currentStep]))
    requires a == NoResearchAction || (a == AnalyzeFindings && s.researchData.None?)
    ensures a == NoResearchAction ==> ResearchStep(s, w) == s.(currentStep := s.currentStep + 1)
    ensures a == AnalyzeFindings ==> ResearchStep(s, w) == StepFailed(s, ResearchErrorLabel, NoAttributeGet)
  {
  }

  /** Hence the research node never produces research data on that plan. */
  lemma {:induction false} AnalysisPlanNeverResearches(s: State, w: World)
    requires s.plan == Some(AnalysisPlan) && s.currentStep <= |AnalysisPlan| && s.researchData.None?
    ensures RunFrom(ResearchNode, s, w).researchData.None?
    decreases |AnalysisPlan| - s.currentStep
  {
    if s.currentStep < |AnalysisPlan| {
      AnalysisPlanWithoutResearch(s, w);
      AnalysisPlanNeverResearches(Execute(ResearchNode, s, w), w);
    }
  }

  /** Ids of papers built from search results contain no "/", so removing
      the "http://arxiv.org/abs/" prefix leaves them as they are. */
  lemma PaperIdOfPlainId(p: ArxivClient.Paper)
    requires '/' !in p.id
    ensures PaperIdOf(p) == p.id
  {
    assert AbsPrefix[5] == '/';
    MissingCharNotContained(p.id, AbsPrefix, '/');
    RemoveAllAbsent(p.id, AbsPrefix);
  }

  lemma LowerAnalysisStep0()
    ensures Lower(AnalysisPlan[0]) == "identify target papers"
  {
    LowerEach(AnalysisPlan[0], "identify target papers");
  }

  lemma DispatchAnalysisStep0()
    ensures ResearchActionOf("identify target papers") == NoResearchAction
  {
    NoResearchStepDispatch("identify target papers", 'h');
  }

  lemma LowerAnalysisStep1()
    ensures Lower(AnalysisPlan[1]) == "retrieve content"
  {
    LowerEach(AnalysisPlan[1], "retrieve content");
  }

  lemma DispatchAnalysisStep1()
    ensures ResearchActionOf("retrieve content") == NoResearchAction
  {
    NoResearchStepDispatch("retrieve content", 'h');
  }

  lemma LowerAnalysisStep2()
    ensures Lower(AnalysisPlan[2]) == "analyze content"
  {
    LowerEach(AnalysisPlan[2], "analyze content");
  }

  lemma DispatchAnalysisStep2()
    ensures ResearchActionOf("analyze content") == AnalyzeFindings
  {
    AnalyzeStepDispatch("analyze content");
  }

  lemma LowerAnalysisStep3()
    ensures Lower(AnalysisPlan[3]) == "present insights"
  {
    LowerEach(AnalysisPlan[3], "present insights");
  }

  lemma DispatchAnalysisStep3()
    ensures ResearchActionOf("present insights") == NoResearchAction
  {
    NoResearchStepDispatch("present insights", 'c');
  }

  /** In the research node the default analysis plan matches only its
      third step, "Analyze content"; the other three do nothing. */
  lemma AnalysisPlanDispatch()
    ensures ResearchActionOf(Lower(AnalysisPlan[0])) == NoResearchAction
    ensures ResearchActionOf(Lower(AnalysisPlan[1])) == NoResearchAction
    ensures ResearchActionOf(Lower(AnalysisPlan[2])) == AnalyzeFindings
    ensures ResearchActionOf(Lower(AnalysisPlan[3])) == NoResearchAction
  {
    LowerAnalysisStep0();
    DispatchAnalysisStep0();
    LowerAnalysisStep1();
    DispatchAnalysisStep1();
    LowerAnalysisStep2();
    DispatchAnalysisStep2();
    LowerAnalysisStep3();
    DispatchAnalysisStep3();
  }

  lemma LowerKnowledgeStep0()
    ensures Lower(KnowledgePlan[0]) == "search knowledge base"
  {
    LowerEach(KnowledgePlan[0], "search knowledge base");
  }

  lemma DispatchKnowledgeStep0()
    ensures KnowledgeActionOf("search knowledge base") == SearchKnowledge
  {
    SearchKnowledgeStepDispatch("search knowledge base");
  }

  lemma LowerKnowledgeStep1()
    ensures Lower(KnowledgePlan[1]) == "retrieve information"
  {
    LowerEach(KnowledgePlan[1], "retrieve information");
  }

  lemma DispatchKnowledgeStep1()
    ensures KnowledgeActionOf("retrieve information") == RetrieveSummary
  {
    RetrieveStepDispatch("retrieve information");
  }

  lemma LowerKnowledgeStep2()
    ensures Lower(KnowledgePlan[2]) == "formulate response"
  {
    LowerEach(KnowledgePlan[2], "formulate response");
  }

  lemma DispatchKnowledgeStep2()
    ensures KnowledgeActionOf("formulate response") == Formulate
  {
    FormulateStepDispatch("formulate response");
  }

  /** The default knowledge plan searches, retrieves, then formulates. */
  lemma KnowledgePlanDispatch()
    ensures KnowledgeActionOf(Lower(KnowledgePlan[0])) == SearchKnowledge
    ensures KnowledgeActionOf(Lower(KnowledgePlan[1])) == RetrieveSummary
    ensures KnowledgeActionOf(Lower(KnowledgePlan[2])) == Formulate
  {
    LowerKnowledgeStep0();
    DispatchKnowledgeStep0();
    LowerKnowledgeStep1();
    DispatchKnowledgeStep1();
    LowerKnowledgeStep2();
    DispatchKnowledgeStep2();
  }
}
