# ResearchLearner core, modelled in Dafny

ResearchLearner is a research assistant built as a LangGraph workflow. A user
request goes through five nodes:

1. intent detection asks the LLM to classify the request as `research`,
   `analysis`, `knowledge_query` or `general`;
2. planning asks the LLM for a step list and falls back to a fixed plan per
   intent;
3. research execution (for research and analysis) or knowledge querying (for
   knowledge queries) runs the plan one step per call, chosen by keywords in
   the step's text;
4. the execution node is called again until `current_step` reaches the end
   of the plan;
5. response generation asks the LLM for the final answer.

Research steps call an arXiv client to search, download and read papers.
Knowledge steps call a knowledge-graph manager over a mem0 store. The manager
keeps papers and insights as text with flat string metadata. A registry of
six knowledge tools wraps the manager for tool-calling agents.

The model has one module per source file:

- `ArxivClient`: the arXiv client. Query building, id extraction, search,
  download, read, listing and the topic report.
- `KnowledgeGraph`: the knowledge-graph manager. Storage formatting, insight
  metadata flattening and its context round trip, search, related papers
  with arXiv backfill, de-duplicated insight retrieval, the summary, delete,
  update and the module-level manager cache.
- `KnowledgeTools`: the tool registry and the tools' fallback behaviour.
- `LangGraphAgent`: the agent state, every node, both routers, the execution
  loop and `process_request`.

`Wrappers` (Option, Outcome) and `Strings` (the Python `str` operations the
source uses: `in`, `lower`, `strip`, `split`, `join`, `replace` with an
empty replacement, `str(int)`) support these four modules.

Everything outside the program is a parameter of the model: the LLM, the
JSON plan parser, the mem0 `Memory`, the `arxiv` library, the file system,
the clock and `json.dumps`. Each is a function-typed field of a datatype
(`World`, `Memory`, `Library`, `Disk`, `Services`). Each property therefore
holds for every behaviour of those services.

Where the source works step by step, the model is imperative:

- `AgentState` is a class whose node methods update its fields. Each node
  method is proved equal to a pure node function on the state's `View()`.
- The loops of `search_papers`, `research_topic`, `get_related_papers`,
  `get_research_insights`, `add_research_insight` and the context
  reconstruction are `while`/`for` loops. Each is proved against the
  function that specifies it.

## Model

| member | source | states |
|---|---|---|
| ArxivClient.CategoryTerms | agent/arxiv_client.py:30-33 | one `cat:` term per requested category, in order |
| ArxivClient.BuildQuery | agent/arxiv_client.py:30-34 | the query is unchanged without categories; otherwise it is `(query) AND (…)`, contains `cat:c` for every category c, and the text inside the second parentheses is the `cat:` terms joined by ` OR ` |
| ArxivClient.QueryFilterRoundTrip | agent/arxiv_client.py:30-34 | splitting the category filter at ` OR ` gives back one `cat:` term per category, in order, for categories without spaces |
| ArxivClient.ArxivId | agent/arxiv_client.py:48 | the id is the part of the entry id after its last `/`: a suffix without `/`, preceded by `/` when shorter, and the whole id when there is no `/` |
| ArxivClient.FeedPapers | agent/arxiv_client.py:45-57 | one paper per feed entry, in feed order |
| ArxivClient.SearchResult | agent/arxiv_client.py:23-75 | the result is well shaped; a missing library gives the install message; on success `papers_found` equals the paper count, and paper i's id is the id of feed entry i for the built query |
| ArxivClient.SearchPapers | agent/arxiv_client.py:23-75 | the method returns exactly SearchResult |
| ArxivClient.ToPapers | agent/arxiv_client.py:45-57 | the loop builds exactly FeedPapers of the entries |
| ArxivClient.Download | agent/arxiv_client.py:77-116 | the result is well shaped; a missing library fails with the install message; success reports the requested id as downloaded |
| ArxivClient.Read | agent/arxiv_client.py:118-161 | the result is well shaped; a missing library fails with the install message; success carries the requested id |
| ArxivClient.AnalyzePaper | agent/arxiv_client.py:232-258 | the analysis succeeds exactly when both the download and the read succeed; an error names the paper |
| ArxivClient.PdfFiles | agent/arxiv_client.py:166-175 | every listed file is one of the directory's names ending in `.pdf`, with its id being the name with `.pdf` removed |
| ArxivClient.PdfFilesAppend | agent/arxiv_client.py:166-175 | listing a concatenation of names lists each part in turn, so the listing keeps the directory's order |
| ArxivClient.PdfFilesOne | agent/arxiv_client.py:166-175 | a single name is listed exactly when it ends in `.pdf`, with its id and its path |
| ArxivClient.PdfFilesListsEveryPdf | agent/arxiv_client.py:166-175 | every `.pdf` name is listed, after exactly the `.pdf` names before it |
| ArxivClient.ListedIdOfPdfName | agent/arxiv_client.py:170 | for a stem without `.pdf`, the listed id of `stem.pdf`, and also of `stem.pdf.pdf`, is the stem |
| ArxivClient.ListPapers | agent/arxiv_client.py:163-184 | a missing directory lists nothing; a listing error fails with its message; otherwise the PDF files and their count |
| ArxivClient.DownloadedIds | agent/arxiv_client.py:207-214 | every reported id is non-empty, downloaded successfully and belongs to one of the given papers; every paper with a non-empty id whose download succeeds is reported |
| ArxivClient.DownloadedIdsAppend | agent/arxiv_client.py:207-214 | the ids of a concatenation of papers are those of each part in turn, so they keep the papers' order |
| ArxivClient.DownloadedIdsOne | agent/arxiv_client.py:207-214 | one paper contributes its id exactly when the id is non-empty and its download succeeds |
| ArxivClient.TopicReport | agent/arxiv_client.py:192-230 | the report fails exactly when the search fails, with the search's error; otherwise it holds every paper found, and the downloaded ids are exactly DownloadedIds of the first three papers (at most 3, each from those papers) |
| ArxivClient.ResearchTopic | agent/arxiv_client.py:192-230 | the method returns exactly TopicReport |
| ArxivClient.DownloadTop | agent/arxiv_client.py:207-214 | the download loop collects exactly DownloadedIds |
| KnowledgeGraph.NewManager | agent/knowledge_graph.py:14-48 | the manager has a store exactly when mem0 initialised; a missing package or a failing init leaves it without one |
| KnowledgeGraph.TruncateContent | agent/knowledge_graph.py:385 | content within the limit is kept; longer content is cut to the limit and followed by `...` |
| KnowledgeGraph.FormatPaperForStorage | agent/knowledge_graph.py:377-401 | formatting succeeds exactly when authors and categories can both be joined; the stripped text starts with the title line, and ends with `Key Content: ` and the truncated content whenever that content is non-empty and does not end in whitespace (always so when it was truncated, since it then ends in `...`) |
| KnowledgeGraph.StrippedText | agent/knowledge_graph.py:387-399 | stripping the indented text keeps its first line whole, and its last line whole when that line ends in a non-space character |
| KnowledgeGraph.PaperMetadata | agent/knowledge_graph.py:61-80 | the paper metadata has exactly the seven keys: type `research_paper`, the paper's id, title and publication date (empty when missing), the time given as `added_date`, and the `, `-encoded authors and categories |
| KnowledgeGraph.PaperRoundTrip | agent/knowledge_graph.py:61-80 | a paper stored with this metadata and handed back by the store is read by `get_related_papers` with its title, id, authors and categories |
| KnowledgeGraph.GetEnumerated | agent/knowledge_graph.py:190-199 | a key of metadata that lists a dictionary's entries reads as that dictionary's value |
| KnowledgeGraph.AddResearchPaper | agent/knowledge_graph.py:50-89 | without a store nothing is written and the result is False; a write happens exactly when there is a store and the paper can be formatted; it carries the formatted text and the paper metadata; the result is True exactly when the store accepted that write |
| KnowledgeGraph.ListFieldRoundTrip | agent/knowledge_graph.py:69-80 | a list of items without `, ` is read back from storage unchanged |
| KnowledgeGraph.DecodeListEmpty | agent/knowledge_graph.py:198-200 | a stored list field reads back empty exactly when it is missing or empty |
| KnowledgeGraph.Prefixed | agent/knowledge_graph.py:110-118 | a context key is stored as `context_` followed by the key |
| KnowledgeGraph.Rendered | agent/knowledge_graph.py:106-118 | every context value is stored as its string rendering, under the same key |
| KnowledgeGraph.FlatContext | agent/knowledge_graph.py:102-120 | every context key appears prefixed with its rendered value, and nothing else appears |
| KnowledgeGraph.InsightMetadata | agent/knowledge_graph.py:96-120 | the insight metadata keeps type, topic and date, holds each context key prefixed, and holds nothing else |
| KnowledgeGraph.AddInsightResult | agent/knowledge_graph.py:91-129 | without a store the result is False; otherwise InsightText is written with InsightMetadata, and the result is True exactly when the store accepted that write |
| KnowledgeGraph.InsightText | agent/knowledge_graph.py:99-110 | the insight text starts with `Research insight on <topic>: <insight>`, is exactly that without a context, and otherwise ends with `Context: ` and the context's JSON dump |
| KnowledgeGraph.AddResearchInsight | agent/knowledge_graph.py:91-129 | the flattening loop writes exactly AddInsightResult |
| KnowledgeGraph.FlattenInto | agent/knowledge_graph.py:102-120 | the loop adds every rendered context entry, prefixed, to the base metadata |
| KnowledgeGraph.FlattenStep | agent/knowledge_graph.py:110-118 | one loop iteration adds exactly one more prefixed key |
| KnowledgeGraph.FormatHit | agent/knowledge_graph.py:140-162 | a dictionary hit keeps its memory and metadata; any other hit becomes its text with empty metadata |
| KnowledgeGraph.SearchKnowledgeSpec | agent/knowledge_graph.py:131-166 | no store or a failing search gives nothing; otherwise one formatted item per hit, in order |
| KnowledgeGraph.SearchKnowledge | agent/knowledge_graph.py:131-166 | the method returns exactly SearchKnowledgeSpec |
| KnowledgeGraph.ReadHit | agent/knowledge_graph.py:186-206 | a hit aborts the scan exactly when it is a string that decodes to non-object JSON |
| KnowledgeGraph.Collect | agent/knowledge_graph.py:184-207 | the scan fails exactly when some hit aborts; otherwise every result was picked from a hit that was read |
| KnowledgeGraph.CollectAppend | agent/knowledge_graph.py:184-207 | scanning a concatenation scans each part in turn and fails when either part does, so results keep the store's order |
| KnowledgeGraph.CollectOne | agent/knowledge_graph.py:184-207 | one hit aborts the scan, contributes nothing, or contributes what is picked from its record |
| KnowledgeGraph.CollectPicksEvery | agent/knowledge_graph.py:184-207 | every value picked from a read hit is in the result, after the values picked from the hits before it |
| KnowledgeGraph.StorePaper | agent/knowledge_graph.py:190-204 | a record becomes a paper exactly when its type is `research_paper`; the paper's title, arXiv id, content and score are the stored values or their defaults (`""`, `""`, `""`, 0.0), and its authors and categories are the decoded lists |
| KnowledgeGraph.Backfill | agent/knowledge_graph.py:209-229 | no library means no arXiv papers; otherwise one arXiv paper per search entry |
| KnowledgeGraph.BackfillEntry | agent/knowledge_graph.py:209-229 | with the library, result i is the arXiv paper of search entry i, for every entry |
| KnowledgeGraph.StoredPapers | agent/knowledge_graph.py:176-207 | without a store, or when the store search raises, nothing is read; otherwise the result is the scan of the store's hits with StorePaper (so, by CollectAppend, the papers among the hits in store order) |
| KnowledgeGraph.RelatedPapers | agent/knowledge_graph.py:168-241 | no store or a failed read gives `[]`; the result is `None` exactly when the store already holds `limit` papers (the fall-through); otherwise at most `limit` papers |
| KnowledgeGraph.MergedStoreFirst | agent/knowledge_graph.py:229-237 | stored papers come first and unchanged, arXiv papers follow, and the total is min(limit, stored + fetched) |
| KnowledgeGraph.RelatedPapersStoreFirst | agent/knowledge_graph.py:168-241 | when the store holds fewer than `limit` papers, the answer is those papers followed by backfilled arXiv papers, up to the limit |
| KnowledgeGraph.RelatedPapersFillsToLimit | agent/knowledge_graph.py:209-237 | three stored papers and enough arXiv results give five papers, stored ones first |
| KnowledgeGraph.GetRelatedPapers | agent/knowledge_graph.py:168-241 | the method returns exactly RelatedPapers |
| KnowledgeGraph.ReadStoredPapers | agent/knowledge_graph.py:176-207 | the store scan returns exactly StoredPapers |
| KnowledgeGraph.ScanPapers | agent/knowledge_graph.py:184-207 | the loop over hits returns exactly Collect with StorePaper |
| KnowledgeGraph.FetchBackfill | agent/knowledge_graph.py:209-229 | the arXiv loop returns exactly Backfill |
| KnowledgeGraph.Gathered | agent/knowledge_graph.py:262-272 | every gathered hit came from a search term whose search succeeded |
| KnowledgeGraph.GatheredAppend | agent/knowledge_graph.py:262-272 | gathering over a concatenation of terms gathers each part in turn, so the hits come term by term in order |
| KnowledgeGraph.GatheredOne | agent/knowledge_graph.py:262-272 | one term contributes every hit of its search, or nothing when the search raises |
| KnowledgeGraph.DedupProperties | agent/knowledge_graph.py:274-283 | de-duplication extends what was kept, keeps contents pairwise distinct, keeps only input hits and stops at max(limit, 1) |
| KnowledgeGraph.DedupComplete | agent/knowledge_graph.py:274-283 | when fewer than `limit` hits are kept, every input content is represented |
| KnowledgeGraph.DedupKeepsKept | agent/knowledge_graph.py:274-283 | hits already kept stay, in order, at the front |
| KnowledgeGraph.FirstsAppend | agent/knowledge_graph.py:274-283 | the first hits per content over a concatenation are those of the first part, then those of the second part whose content the first part lacks |
| KnowledgeGraph.FirstsSnoc | agent/knowledge_graph.py:274-283 | a further hit is among the first hits per content exactly when no earlier hit has its content |
| KnowledgeGraph.FirstsContents | agent/knowledge_graph.py:274-283 | the first hits per content have distinct contents and cover every content of the input |
| KnowledgeGraph.DedupScansPrefix | agent/knowledge_graph.py:274-283 | the loop keeps the first hit of each content, in input order, over a prefix of its input; that prefix is the whole input unless max(limit, 1) hits were kept |
| KnowledgeGraph.ContextOf | agent/knowledge_graph.py:299-304 | every reconstructed context key comes from a `context_`-prefixed metadata key |
| KnowledgeGraph.ContextOfLastWins | agent/knowledge_graph.py:299-304 | every `context_` pair that no later pair overrides is in the context with its own value: each such key appears, and the later of two pairs wins |
| KnowledgeGraph.ReconstructContext | agent/knowledge_graph.py:299-304 | the reconstruction loop returns exactly ContextOf |
| KnowledgeGraph.ContextRoundTrip | agent/knowledge_graph.py:102-120 | reading back the metadata written for an insight gives its rendered context, for keys free of `context_` |
| KnowledgeGraph.ContextOfInsightPart | agent/knowledge_graph.py:299-304 | reading part of an insight's metadata gives the rendered context entries of the keys read |
| KnowledgeGraph.InsightMetadataPrefixedKey | agent/knowledge_graph.py:110-118 | a prefixed key of the insight metadata comes from a context key, and removing the prefix recovers that key |
| KnowledgeGraph.InsightOf | agent/knowledge_graph.py:287-315 | a record is an insight exactly when its type is `research_insight`; the insight's context is reconstructed from the metadata |
| KnowledgeGraph.ResearchInsights | agent/knowledge_graph.py:243-322 | without a store the answer is empty; never more than max(limit, 1) insights |
| KnowledgeGraph.ResearchInsightsSound | agent/knowledge_graph.py:243-322 | each returned insight comes from a kept hit of the de-duplicated gathering, and kept hits have distinct contents |
| KnowledgeGraph.ResearchInsightsOfFirsts | agent/knowledge_graph.py:243-322 | the answer is the insights among the first hits per content of the gathered hits, over the scanned prefix and in that order; the prefix is the whole input unless max(limit, 1) hits were kept; nothing when a kept hit aborts |
| KnowledgeGraph.GatherHits | agent/knowledge_graph.py:262-272 | the search loop returns exactly Gathered |
| KnowledgeGraph.DedupHits | agent/knowledge_graph.py:274-283 | the de-duplication loop returns exactly Dedup |
| KnowledgeGraph.FilterInsights | agent/knowledge_graph.py:287-315 | the filter loop returns exactly Collect with InsightOf |
| KnowledgeGraph.GetResearchInsights | agent/knowledge_graph.py:243-322 | the method returns exactly ResearchInsights |
| KnowledgeGraph.KnowledgeSummary | agent/knowledge_graph.py:403-433 | without a store, "not initialized"; the summary exists exactly when related papers are a list; its papers are exactly RelatedPapers with limit 5, its insights ResearchInsights with limit 10 and its general knowledge the knowledge search with limit 10; totals equal the list lengths, with at most 5 papers and 10 insights |
| KnowledgeGraph.SummaryFailsWhenStoreFull | agent/knowledge_graph.py:413-433 | a store already holding five papers makes the summary fail with the `len(None)` error |
| KnowledgeGraph.GetKnowledgeSummary | agent/knowledge_graph.py:403-433 | the method returns exactly KnowledgeSummary |
| KnowledgeGraph.DeleteMemory | agent/knowledge_graph.py:349-361 | True exactly when there is a store and its delete succeeds |
| KnowledgeGraph.UpdateMemory | agent/knowledge_graph.py:363-375 | True exactly when there is a store and its update succeeds |
| KnowledgeGraph.AbsentStoreDegrades | agent/knowledge_graph.py:50-433 | without a store, every operation gives its empty or False answer, and the summary reports "not initialized" |
| KnowledgeGraph.ManagerSlot.constructor | agent/knowledge_graph.py:436 | the cache starts empty |
| KnowledgeGraph.ManagerSlot.Get | agent/knowledge_graph.py:438-445 | the first call builds the manager and caches it; later calls return the cached one |
| KnowledgeGraph.GetTwice | agent/knowledge_graph.py:438-445 | two calls return the same manager |
| KnowledgeTools.MapOf | agent/knowledge_tools.py:262 | every tool is in the map under its name, and every entry is a registry tool with that name |
| KnowledgeTools.GetKnowledgeTool | agent/knowledge_tools.py:270-272 | a tool is found exactly when a registry tool has that name, and it is that tool |
| KnowledgeTools.NameInjective | agent/knowledge_tools.py:56-221 | no two tools share a name |
| KnowledgeTools.RegistryNames | agent/knowledge_tools.py:252-259 | the registry holds six tools, named in order |
| KnowledgeTools.RegistryNamesDistinct | agent/knowledge_tools.py:252-262 | registry names are pairwise distinct, so no tool is shadowed in the map |
| KnowledgeTools.RegistryLookup | agent/knowledge_tools.py:262-272 | looking up any registry tool by its name gives that tool |
| KnowledgeTools.NonEmptyOrNone | agent/knowledge_tools.py:110-115 | papers are passed on exactly when the list is non-empty; otherwise None |
| KnowledgeTools.ARun | agent/knowledge_tools.py:64-248 | a tool's own exception gives its fallback value; the insight tool always answers False; every other tool answers with its manager operation |
| KnowledgeTools.Run | agent/knowledge_tools.py:60-227 | inside a running event loop the synchronous entry point raises `asyncio.run`'s error; otherwise it answers as the asynchronous one, after defaulting the insight tool's optional arguments |
| KnowledgeTools.Normalized | agent/knowledge_tools.py:193-195 | the insight call gets its paper ids and context filled in; other calls are unchanged |
| KnowledgeTools.ToolsAnswerTheirShape | agent/knowledge_tools.py:60-248 | the asynchronous entry point answers every call with a value of its tool's result shape, on every path; the synchronous one does exactly when no event loop is running |
| KnowledgeTools.AddInsightIntended | agent/knowledge_graph.py:91-129 | the intended insight tool answers the manager's result, and False on a fault or without a store |
| KnowledgeTools.AddInsightArityCounterexample | agent/knowledge_tools.py:206-216 | with a working store, the intended call succeeds while the tool as written answers False |
| LangGraphAgent.IntentOf | agent/langgraph_agent.py:66-83 | the intent is always a valid one; a reply naming a valid intent (stripped, lower-cased) is kept; anything else is `general` |
| LangGraphAgent.IntentNode | agent/langgraph_agent.py:60-86 | the node sets the intent from the LLM reply, appends one message and changes nothing else |
| LangGraphAgent.DefaultPlan | agent/langgraph_agent.py:159-184 | the fallback plan is fixed per intent, with the general plan for any other intent |
| LangGraphAgent.PlanOf | agent/langgraph_agent.py:133-154 | a parsed step list is used; a failed LLM call or parse gives the intent's default plan |
| LangGraphAgent.PlanNode | agent/langgraph_agent.py:126-157 | the node sets the plan, resets the step to 0, appends one message and changes nothing else |
| LangGraphAgent.RouteByIntent | agent/langgraph_agent.py:556-565 | research and analysis go to research execution, knowledge queries to knowledge querying, and everything else straight to response generation |
| LangGraphAgent.ShouldContinue | agent/langgraph_agent.py:567-575 | the loop finishes exactly when the step index reaches the plan length |
| LangGraphAgent.ResearchActionOf | agent/langgraph_agent.py:219-263 | the step's action is chosen by its keywords, with the first matching branch winning |
| LangGraphAgent.AnalyzedPapers | agent/langgraph_agent.py:248-261 | each analysed paper comes from a given paper with a non-empty id whose analysis succeeded |
| LangGraphAgent.AnalyzedPapersAppend | agent/langgraph_agent.py:248-261 | analysing a concatenation of papers analyses each part in turn, so every successful analysis is kept, in order |
| LangGraphAgent.AnalyzedPapersOne | agent/langgraph_agent.py:248-261 | one paper contributes its content exactly when its id is non-empty and its analysis succeeds |
| LangGraphAgent.Top3 | agent/langgraph_agent.py:251 | the analysed papers are a prefix of the list of length min(3, n): the first three, or all of them when fewer than three were found |
| LangGraphAgent.ResearchEffect | agent/langgraph_agent.py:219-283 | a step raises exactly when the topic call fails or research data is missing; otherwise it keeps the run's fields, creates research data, and analyses at most 3 papers |
| LangGraphAgent.ResearchStep | agent/langgraph_agent.py:207-292 | every call advances the step by one, or keeps it at the end of the plan |
| LangGraphAgent.KnowledgeActionOf | agent/langgraph_agent.py:344-370 | the step's action is chosen by its keywords, with the first matching branch winning |
| LangGraphAgent.KnowledgeEffect | agent/langgraph_agent.py:344-377 | only formulating without knowledge data raises; the step leaves research data alone |
| LangGraphAgent.KnowledgeStep | agent/langgraph_agent.py:332-379 | every call advances the step by one and leaves research data alone |
| LangGraphAgent.Execute | agent/langgraph_agent.py:207-379 | an execution node always advances the step |
| LangGraphAgent.ResponseNode | agent/langgraph_agent.py:423-444 | the final response is the LLM's text, or the apology when the call raises, and it is appended as the last message |
| LangGraphAgent.Planned | agent/langgraph_agent.py:486-488 | after planning the state has a plan |
| LangGraphAgent.Contents | agent/langgraph_agent.py:604 | one content string per message, in order |
| LangGraphAgent.AgentState.constructor | agent/langgraph_agent.py:581-591 | the initial state holds only the user's message, with step 0 and no intent, plan or data |
| LangGraphAgent.IntentDetection | agent/langgraph_agent.py:60-86 | the node method makes the state IntentNode of the old state |
| LangGraphAgent.Planning | agent/langgraph_agent.py:126-157 | the node method makes the state PlanNode of the old state |
| LangGraphAgent.AnalyzeTopPapers | agent/langgraph_agent.py:248-261 | the loop returns the analyses of the top three papers, at most 3 |
| LangGraphAgent.ExtractTopicStep | agent/langgraph_agent.py:219-230 | the method performs the extract-topic effect, or the error fallback when it raises |
| LangGraphAgent.SearchStep | agent/langgraph_agent.py:231-242 | the method performs the search effect, or the error fallback |
| LangGraphAgent.AnalyzeStep | agent/langgraph_agent.py:243-262 | the method performs the analysis effect, or the error fallback |
| LangGraphAgent.SynthesizeStep | agent/langgraph_agent.py:263-283 | the method performs the synthesis effect, or the error fallback |
| LangGraphAgent.ResearchExecution | agent/langgraph_agent.py:207-292 | the node method makes the state ResearchStep of the old state |
| LangGraphAgent.SearchKnowledgeStep | agent/langgraph_agent.py:344-353 | the method performs the knowledge-search effect |
| LangGraphAgent.RetrieveStep | agent/langgraph_agent.py:354-364 | the method performs the summary-retrieval effect |
| LangGraphAgent.FormulateStep | agent/langgraph_agent.py:365-370 | the method performs the formulation effect, or the error fallback |
| LangGraphAgent.KnowledgeQuerying | agent/langgraph_agent.py:332-379 | the node method makes the state KnowledgeStep of the old state |
| LangGraphAgent.RunNode | agent/langgraph_agent.py:207-379 | one node call gives Execute of the old state |
| LangGraphAgent.ExecuteUntilDone | agent/langgraph_agent.py:500-518 | the loop of node calls gives ExecutionLoop, with NodeCalls calls |
| LangGraphAgent.ResponseGeneration | agent/langgraph_agent.py:423-444 | the node method makes the state ResponseNode and writes the final response once |
| LangGraphAgent.RunGraph | agent/langgraph_agent.py:486-520 | running the graph from the initial state gives the final state, with one response write |
| LangGraphAgent.RunRoute | agent/langgraph_agent.py:490-518 | the routed execution gives Routed of the planned state |
| LangGraphAgent.ProcessRequest | agent/langgraph_agent.py:577-612 | a graph failure gives the apology and the error; otherwise the final state's fields, with one response write and one node call per plan step (at least one), none for general requests |
| LangGraphAgent.CallsFromCount | agent/langgraph_agent.py:500-518 | from step k, the loop makes one call per remaining step, ends at the plan's end and keeps the plan |
| LangGraphAgent.ExecutionRunsPlan | agent/langgraph_agent.py:500-518 | an execution runs max(1, plan length) node calls and ends at the plan's end |
| LangGraphAgent.RoutedCallsCount | agent/langgraph_agent.py:490-518 | routed execution makes max(1, plan length) calls, or none for general requests |
| LangGraphAgent.FinalKeepsPlan | agent/langgraph_agent.py:486-520 | the final state keeps the intent and plan set by planning |
| LangGraphAgent.RunFromKeeps | agent/langgraph_agent.py:207-379 | execution never changes intent, plan, final response, request or session, and only appends messages |
| LangGraphAgent.ExecutedKeeps | agent/langgraph_agent.py:486-518 | after execution the intent and plan are the planned ones and no final response exists yet |
| LangGraphAgent.WorkflowShape | agent/langgraph_agent.py:486-520 | every run ends with a valid intent, a plan, the user's message first, at least four messages and the final response as the last message |
| LangGraphAgent.GeneralSkipsExecution | agent/langgraph_agent.py:490-498 | a general request goes straight from planning to the response, and the step stays 0 |
| LangGraphAgent.ProcessOutcomeCases | agent/langgraph_agent.py:577-612 | a graph failure gives the apology; otherwise the request is processed, and a failed response call gives the response apology |
| LangGraphAgent.ResearchPlanDispatch | agent/langgraph_agent.py:159-184 | the default research plan's steps dispatch to extract, search, analyze and synthesize, in order |
| LangGraphAgent.AnalysisPlanDispatch | agent/langgraph_agent.py:159-184 | of the default analysis plan only the third step matches a research action, namely analyze |
| LangGraphAgent.KnowledgePlanDispatch | agent/langgraph_agent.py:159-184 | the default knowledge plan's steps dispatch to search, retrieve and formulate, in order |
| LangGraphAgent.AnalysisPlanWithoutResearch | agent/langgraph_agent.py:243-290 | on the default analysis plan without research data, only the analyze step fails, with the `get` error, and the other steps are skipped |
| LangGraphAgent.AnalysisPlanNeverResearches | agent/langgraph_agent.py:207-292 | an analysis request on the default plan never produces research data |
| LangGraphAgent.PaperIdOfPlainId | agent/langgraph_agent.py:252 | a paper id without `/` is used unchanged |

## Left out

- Unicode: `lower` and `strip` are modelled for ASCII letters and ASCII whitespace only.
- ListRepr: a plan list is rendered as the elements joined in brackets. Python's `repr` quoting and escaping of each step are not reproduced.
- LangGraph's recursion limit and exceptions raised inside the graph runtime are one `graphFault` input to `process_request`.
- The checkpointer is not modelled. The graph is compiled with a `MemorySaver` (agent/langgraph_agent.py:469-472) and invoked with the session id as its thread id (line 594), and `messages` merges with `add_messages` (line 24). A second request in the same session therefore starts from the stored messages with the new request appended; the model starts every request from a fresh state.
- WorkflowShape: the user's message is the first message, and ProcessRequest's message list holds this run's messages only, for the first request of a session; later requests of the session carry the earlier messages in front.
- ProcessRequest: see WorkflowShape; the answer's other fields are overwritten by each run and hold as stated.
- The event-loop bridging inside `_arun` (`run_in_executor`, context-variable copying), tracing and logging are not modelled. An exception they raise inside the tool's handler is the tool's `fault` input. `_run`'s own `asyncio.run` sits outside that handler and is modelled: inside a running event loop it raises to the caller (`loopRunning`).
- The tools' input schemas, and the defaults they declare (15 for related papers where `_arun` uses 5), are not modelled: a call carries its arguments, with an omitted optional one as `None`.
- FormatPaperForStorage: the contract states the text's first line (the title) and its last line (the kept content); the lines between them (authors, id, categories, abstract) are written out in the body only.
- Timestamps (`datetime.now()`) and relevance scores are opaque inputs.
- The writes to the knowledge graph made while analysing papers and while synthesising are left out of the agent model. These are `add_research_paper` and `add_research_insight`, and both catch their own errors. Their results never reach the agent state.
- Plan items that are not strings are not modelled. The plan parser's result is a list of strings or a failure.
- `MAX_CONTENT_LENGTH` is a parameter of the manager, because agent/constants.py is not part of this model.
- `get_all_memories` is not modelled, because nothing in the modelled core calls it.
- agent.py and the tracing provider are not part of this model. The manager is passed to the agent explicitly.
- The `arxiv` library, the file system, PDF extraction and the mem0 store are modelled only through their answers, as functions given to the model.
- The real-number scores and the JSON dumps of context values are opaque strings.
- AddInsightResult: context values are assumed JSON-serialisable; the case where `json.dumps` raises TypeError (agent/knowledge_graph.py:108 and :119) and add_research_insight then returns False without writing anything (agent/knowledge_graph.py:126-128) is not modelled, so the model always renders the insight (InsightText, Render) and reports the store's answer.

## Findings

| source | as written | input that shows it | evidently intended | confidence | as-written member | corrected member |
|---|---|---|---|---|---|---|
| agent/knowledge_tools.py:207 | the insight tool calls `add_research_insight(insight, topic, paper_ids or [], context or {})`, but the method at agent/knowledge_graph.py:91 takes three arguments after `self`; the `TypeError` is caught at lines 214-216 and the tool answers False | any call, e.g. insight "x", topic "t", no ids, no context, with a store whose `add` succeeds | pass `(insight, topic, context)` and answer the manager's result | not executed | KnowledgeTools.AddInsightArityCounterexample | KnowledgeTools.AddInsightIntended |
