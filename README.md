# Financial agents of agent-framework-aspire, modelled in Dafny

This project models the Python side of the agent-framework-aspire sample. It covers three pieces:

- The financial analysis agent, with its Agent2Agent (A2A) host.
  - An A2A task manager records one response per task id and tracks the set of running tasks.
  - The host's handlers cover discovery, task requests, status queries and cancellation.
  - The A2A SDK executor chooses the one reply to each turn.
- The agent's tools: the financial service with its fixed datasets, the business-intelligence tools, and the file, database, report, validation and statistics tools.
- The custom compliance workflow.
  - A keyword test on the financial agent's reply routes the run along one of two branches.
  - The review branch goes through a policy lookup and a mock compliance agent.
  - The other branch leads straight to a final report.

The model uses these conventions:

- **Agents.** Every agent (LLM) is an oracle from its input to the outcome of one run: a reply text, or an exception text.
- **Non-determinism.** Clocks, `uuid4` and every `random` draw are parameters of the operation that uses them.
- **Money.** `Decimal` amounts are integer cents.
- **Other fractional data.** Fractional data values, such as margins, growth rates and scores, are integers in the fixed unit each field names.
- **Tool results.** Each tool's JSON result is a structured value: a datatype, or a `Json` tree.

Modules, one file each:

- Helpers:
  - `Wrappers`: `Option` and `Result`.
  - `Json`: a JSON value.
  - `Text`: Python's `lower`, `in`, `strip` and `title` on strings.
  - `Lists`: order-preserving filters, sums, group-by and a stable descending sort.
  - `AgentOracle`: the agent oracle.
- Core:
  - `A2AModels`, `A2AAgent`, `AgentExecutor`.
  - `FinancialModels`, `FinancialService`, `FinancialTools`, `ProcessingTools`.
  - `Workflow`.

Where the source changes state in place, the model is a class:

- `A2AAgent.TaskManager` holds the two dictionaries.
- `AgentExecutor.EventQueue` holds the queued events.
- `Workflow.WorkflowContext` holds the yielded outputs and the sent requests.

The repository's design description is mostly about a multi-agent orchestrator with a durable session store. That code lives in the .NET projects and is not part of this model. Everything modelled here follows the Python source.

## Model

| member | source | states |
|---|---|---|
| A2AModels.NewCapabilities | src/agents-python/agents_python/a2a_models.py:10-13 | capabilities default to streaming on and push notifications off |
| A2AModels.NewSkill | src/agents-python/agents_python/a2a_models.py:16-22 | a skill keeps its id, name and description, and has no examples and no tags by default |
| A2AModels.NewCard | src/agents-python/agents_python/a2a_models.py:25-35 | a card keeps its four required fields; by default it has protocol version "1.0", text input and output modes, default capabilities and no skills |
| A2AModels.StatusEnumeration | src/agents-python/agents_python/a2a_models.py:38-44 | the status enumeration has exactly five members with five distinct values; a value names its member, and exactly those five strings parse |
| A2AModels.NewTaskRequest | src/agents-python/agents_python/a2a_models.py:57-64 | a request keeps its four required fields; parameters and metadata default to None |
| A2AModels.NewTaskResponse | src/agents-python/agents_python/a2a_models.py:67-73 | a response keeps its id and status; result, error and metadata default to None |
| A2AModels.TaskRequestRoundTrip | src/agents-python/agents_python/a2a_models.py:57-64 | validation accepts every request dumped under its aliases and returns it unchanged |
| A2AModels.TaskRequestRequiredFields | src/agents-python/agents_python/a2a_models.py:59-62 | a dictionary missing any of id, agentId, taskType or inputData fails validation, and the error names the missing field |
| A2AModels.TaskResponseRoundTrip | src/agents-python/agents_python/a2a_models.py:67-73 | a dumped response reads back as the same response |
| A2AModels.SkillRoundTrip | src/agents-python/agents_python/a2a_agent.py:172-181 | a skill's discovery entry reads back as the same skill |
| A2AModels.SkillsRoundTrip | src/agents-python/agents_python/a2a_agent.py:172-181 | the list of skill entries reads back as the same skills, in order and number |
| A2AModels.LoadCardFromFields | src/agents-python/agents_python/a2a_agent.py:160-171 | a dictionary whose fields read back as a card's fields reads back as that card |
| A2AModels.DiscoveryRoundTrip | src/agents-python/agents_python/a2a_agent.py:156-182 | the discovery document carries the whole card: every field, and the skills in order, can be read back |
| A2AAgent.ExtractUsesLastMessage | src/agents-python/agents_python/a2a_agent.py:65-70 | with a non-empty message list, only the last entry's content decides the input; a missing content gives "" and a non-string content fails |
| A2AAgent.ExtractRejectsNonDictEntry | src/agents-python/agents_python/a2a_agent.py:68-70 | a last entry that is not a dictionary makes the extraction raise |
| A2AAgent.ExtractFallsBackToMessage | src/agents-python/agents_python/a2a_agent.py:65-66 | without a non-empty message list, the input is `message`, or "" when that key is absent |
| A2AAgent.ExecutionOutcome | src/agents-python/agents_python/a2a_agent.py:61-114 | an execution ends either completed, carrying the agent's text as a text result, or failed, carrying the exception text; it completes exactly when the input is readable and the agent replies |
| A2AAgent.TaskManager.constructor | src/agents-python/agents_python/a2a_agent.py:22-27 | a new manager has no running tasks and no stored results |
| A2AAgent.TaskManager.StartTask | src/agents-python/agents_python/a2a_agent.py:29-59 | the request id is stored as running and registered as running; when spawning raises, a failed response carrying the exception text is stored instead; only that id changes, and every running id keeps a stored result |
| A2AAgent.TaskManager.ExecuteTask | src/agents-python/agents_python/a2a_agent.py:61-114 | the stored response becomes the execution's outcome, and the id no longer counts as running; the invariant is kept |
| A2AAgent.TaskManager.GetTaskStatus | src/agents-python/agents_python/a2a_agent.py:116-118 | the stored response is found exactly when the id has one |
| A2AAgent.TaskManager.CancelTask | src/agents-python/agents_python/a2a_agent.py:120-140 | cancellation succeeds exactly for a running id, which is then stored as cancelled and no longer running; for any other id nothing changes |
| A2AAgent.HostAgent.constructor | src/agents-python/agents_python/a2a_agent.py:146-150 | the host starts with an empty task manager for its card |
| A2AAgent.HostAgent.HandleDiscoveryRequest | src/agents-python/agents_python/a2a_agent.py:156-182 | the card can be read back in full from the discovery document |
| A2AAgent.HostAgent.HandleTaskRequest | src/agents-python/agents_python/a2a_agent.py:184-200 | an invalid request gets a failed reply under its own id (or a fresh one) and touches no task; a valid one is started, and its stored response is returned |
| A2AAgent.HostAgent.HandleTaskStatusRequest | src/agents-python/agents_python/a2a_agent.py:202-212 | a known id gets its stored response, which reads back unchanged; an unknown id gets the not-found reply |
| A2AAgent.HostAgent.HandleTaskCancellation | src/agents-python/agents_python/a2a_agent.py:214-220 | the reply says whether the task was running, and the manager changes only when it was |
| A2AAgent.FinishedTaskIsNotCancellable | src/agents-python/agents_python/a2a_agent.py:120-140 | a task that has been started and then executed can no longer be cancelled, and keeps its execution's response |
| AgentExecutor.BlankIffAllSpace | src/agents-python/agents_python/agent_executor.py:114 | a query counts as blank exactly when it is empty or all whitespace |
| AgentExecutor.ResponseCases | src/agents-python/agents_python/agent_executor.py:111-150 | a blank query gets the introduction, without consulting the agent; otherwise the reply is the agent's text or the error message when an agent exists, and the fallback when none does |
| AgentExecutor.RepliesEmbedTheirInput | src/agents-python/agents_python/agent_executor.py:131-146 | the fallback quotes the query; the error message is the fixed prefix followed by the error text |
| AgentExecutor.EventQueue.Enqueue | src/agents-python/agents_python/agent_executor.py:140 | an enqueued event is appended after the earlier events |
| AgentExecutor.FinancialAnalysisAgentExecutor.constructor | src/agents-python/agents_python/agent_executor.py:29-36 | the executor has an agent exactly when the agent could be built |
| AgentExecutor.FinancialAnalysisAgentExecutor.Execute | src/agents-python/agents_python/agent_executor.py:88-150 | without a message it raises and enqueues nothing; with one it enqueues exactly one event, the chosen reply |
| AgentExecutor.FinancialAnalysisAgentExecutor.Cancel | src/agents-python/agents_python/agent_executor.py:153-167 | cancel enqueues exactly the cancellation message |
| Workflow.AnyKeywordIff | src/custom-workflow-python/custom_workflow_python/main.py:132 | `any(...)` over the keywords holds exactly when some keyword occurs in the text |
| Workflow.NeedsReviewIff | src/custom-workflow-python/custom_workflow_python/main.py:122-132 | review is needed exactly when one of the fourteen keywords occurs in the lower-cased reply; lower-casing the reply first changes nothing |
| Workflow.ConditionsPartition | src/custom-workflow-python/custom_workflow_python/main.py:112-142 | for a response, exactly one of the two edge conditions holds, and an unreadable response takes the no-review edge; any other message passes both |
| Workflow.KeywordInsideWord | src/custom-workflow-python/custom_workflow_python/main.py:125-132 | matching is by substring, so "Policyholders" triggers a review |
| Workflow.KelvinSignNeedsReview | src/custom-workflow-python/custom_workflow_python/main.py:122-132 | the text is lower-cased before matching, so "RIS" followed by the Kelvin sign reads as "risk" and triggers a review |
| Workflow.ShortReplyNeedsNoReview | src/custom-workflow-python/custom_workflow_python/main.py:125-132 | a reply shorter than every keyword never needs review |
| Workflow.FinancialOnlyOutput | src/custom-workflow-python/custom_workflow_python/main.py:171-194 | after stripping, the no-review report is the heading, the analysis verbatim and the status line |
| Workflow.FinancialOnlyOutputShape | src/custom-workflow-python/custom_workflow_python/main.py:179-190 | the no-review report contains the analysis and ends with "STATUS: No policy compliance review required." |
| Workflow.PolicyLookupRequest | src/custom-workflow-python/custom_workflow_python/main.py:197-230 | the policy query wraps the analysis verbatim between its fixed texts, or is the fixed fallback when the analysis cannot be read |
| Workflow.ComplianceReportRequest | src/custom-workflow-python/custom_workflow_python/main.py:233-265 | the compliance query wraps the policy analysis verbatim, or is the fixed fallback |
| Workflow.RequestsEmbedResponse | src/custom-workflow-python/custom_workflow_python/main.py:197-265 | each transformer sends a single user message that asks for a reply and contains the prior response's text |
| Workflow.ComplianceReportOutputShape | src/custom-workflow-python/custom_workflow_python/main.py:146-164 | a report ending in a non-whitespace character is reproduced verbatim after the fixed heading |
| Workflow.MockComplianceOutput | src/custom-workflow-python/custom_workflow_python/main.py:299-363 | the mock agent's output is the fixed report, whatever the request |
| Workflow.MockReportIsCompliant | src/custom-workflow-python/custom_workflow_python/main.py:344 | the mock report contains "COMPLIANCE STATUS: COMPLIANT" |
| Workflow.WorkflowContext.YieldOutput | src/custom-workflow-python/custom_workflow_python/main.py:164 | yielding appends one output and sends nothing |
| Workflow.WorkflowContext.SendMessage | src/custom-workflow-python/custom_workflow_python/main.py:224 | sending appends one request and yields nothing |
| Workflow.HandleFinancialOnly | src/custom-workflow-python/custom_workflow_python/main.py:171-194 | yields exactly one output, the no-review report, and sends nothing |
| Workflow.HandleComplianceReport | src/custom-workflow-python/custom_workflow_python/main.py:146-168 | yields exactly one output, the headed report or the error text, and sends nothing |
| Workflow.ToPolicyLookupRequest | src/custom-workflow-python/custom_workflow_python/main.py:197-230 | sends exactly one request, the policy query, and yields nothing |
| Workflow.ToComplianceReportRequest | src/custom-workflow-python/custom_workflow_python/main.py:233-265 | sends exactly one request, the compliance query, and yields nothing |
| Workflow.MockComplianceAgent | src/custom-workflow-python/custom_workflow_python/main.py:299-367 | yields the fixed compliant report and sends nothing |
| Workflow.FinancialRoutesToOne | src/custom-workflow-python/custom_workflow_python/main.py:386-400 | a financial response goes to exactly one successor: the policy lookup when review is needed, and the no-review handler otherwise |
| Workflow.ReviewBranchIsChain | src/custom-workflow-python/custom_workflow_python/main.py:386-400 | the review branch is an unconditional chain ending at the mock compliance agent; both branch ends have no successor, and the compliance report handler is not wired into the graph |
| Workflow.ReviewBranch | src/custom-workflow-python/custom_workflow_python/main.py:391-394 | the lookup request is sent; a policy reply is followed by the compliance request quoting it and the compliant report as the one output, and a raise ends the branch with no output |
| Workflow.Run | src/custom-workflow-python/custom_workflow_python/main.py:374-402 | without review, the no-review report is the one output and nothing is sent; with review, the lookup request is sent, and then either the policy reply goes to the compliance executor, which yields the compliant report, or the policy agent raises and the run ends with no output |
| FinancialService.ByCategorySelection | src/agents-python/services/financial_service.py:98-99 | over any dataset, the category filter keeps an order-preserving sublist holding exactly the reports of that category, ignoring case; no category keeps all |
| FinancialService.SalesReportsFilter | src/agents-python/services/financial_service.py:29-101 | the sales reports are an order-preserving sublist: all of them without a category, else exactly those whose category matches ignoring case; the date range never matters |
| FinancialService.RevenueDataFilter | src/agents-python/services/financial_service.py:103-149 | the revenue rows are an order-preserving sublist, selected by case-insensitive substring of the period |
| FinancialService.RevenueForYear | src/agents-python/services/financial_service.py:146-147 | "2024" keeps all four rows |
| FinancialService.RevenueForQuarter | src/agents-python/services/financial_service.py:146-147 | "q4" keeps only the "Q4 2024" row |
| FinancialService.RevenueForGranularity | src/agents-python/services/financial_service.py:146-147 | "quarterly" matches no period |
| FinancialService.EmployeePerformanceFilter | src/agents-python/services/financial_service.py:151-191 | the department filter is an order-preserving, case-insensitive selection |
| FinancialService.InventoryDataFilter | src/agents-python/services/financial_service.py:193-239 | the category filter is an order-preserving, case-insensitive selection |
| FinancialService.CustomerDataFilter | src/agents-python/services/financial_service.py:241-287 | the segment filter is an order-preserving, case-insensitive selection |
| FinancialService.CalculateFinancialMetrics | src/agents-python/services/financial_service.py:289-341 | the three conditional appends give exactly the catalogue selection of the requested names |
| FinancialService.SelectionByKey | src/agents-python/services/financial_service.py:296-339 | the selection is each metric, in order, exactly when its key is named |
| FinancialService.MetricsSelection | src/agents-python/services/financial_service.py:294-341 | the result has at most three metrics, in catalogue order, each present exactly when its key is requested |
| FinancialService.MetricsPeriodAndNames | src/agents-python/services/financial_service.py:300-330 | every metric carries the requested period, or "Q4 2024" when none is given; no metric name repeats |
| FinancialService.MetricsDependOnNameSet | src/agents-python/services/financial_service.py:296-326 | only the set of requested names matters; their order and repeats do not |
| FinancialService.AnalyzeTrendsCases | src/agents-python/services/financial_service.py:343-366 | "sales" gives the sales trend; any other type gives a lone error naming the type; the period is ignored |
| FinancialService.SearchDispatch | src/agents-python/services/financial_service.py:368-409 | two sales hits for "top" with "product", else one trend hit for "trend", else none; sources default to the four datasets when none are given; the total is the drawn number |
| FinancialTools.SearchSalesData | src/agents-python/tools/financial_tools.py:21-66 | the filtering loop keeps exactly the matching reports, counts them and sums their revenue |
| FinancialTools.KeepMatching | src/agents-python/tools/financial_tools.py:33-40 | the loop appends, in order, exactly the reports whose fields contain the lower-cased query |
| FinancialTools.QuerySelection | src/agents-python/tools/financial_tools.py:30-40 | over any dataset, the category filter then the query filter keep, in order, exactly the reports of the category matching the query; the empty query keeps all |
| FinancialTools.SalesSearchSelection | src/agents-python/tools/financial_tools.py:34-40 | a report is kept, in dataset order, exactly when it is of the category and the lower-cased query occurs in one of its four text fields; the empty query keeps all |
| FinancialTools.RevenueTrendsReport | src/agents-python/tools/financial_tools.py:68-107 | the report lists the rows whose period contains the request and counts them; metrics default only when None; the trend is the sales trend |
| FinancialTools.DocumentedGranularitiesFindNothing | src/agents-python/tools/financial_tools.py:68-81 | the documented periods "monthly", "quarterly" and "yearly" select no rows and no revenue |
| FinancialTools.BusinessMetricsSummary | src/agents-python/tools/financial_tools.py:109-141 | only acquisition cost trends down, so it alone is listed for improvement; growth and margin beat their benchmarks; positive trends plus improvement areas make up all metrics |
| FinancialTools.RankProducts | src/agents-python/tools/financial_tools.py:167-180 | ranks run 1, 2, … in list order, one per product |
| FinancialTools.GetTopPerformingProducts | src/agents-python/tools/financial_tools.py:143-194 | the ranked top list of the chosen metric; all five reports are analysed; the top revenue is the first entry's (0 when there is none) and the units are summed over the list |
| FinancialTools.TopProductsRanking | src/agents-python/tools/financial_tools.py:154-164 | the top list is a prefix of a stable descending sort, of length `min(limit, 5)` for a non-negative limit; no report left out beats one kept, and ties keep dataset order |
| FinancialTools.SortKeyFallback | src/agents-python/tools/financial_tools.py:154-161 | any metric other than margin or units sorts by revenue |
| FinancialTools.TopRevenueIsMaximum | src/agents-python/tools/financial_tools.py:154-164 | ranked by revenue, the first product has the highest revenue of all reports |
| FinancialTools.ChurnDistribution | src/agents-python/tools/financial_tools.py:242-244 | the loop counts each risk level's customers |
| FinancialTools.SegmentCustomers | src/agents-python/tools/financial_tools.py:254-266 | the accumulation loop builds, per segment, the totals of its customers, with segments in first-seen order |
| FinancialTools.AnalyzeCustomers | src/agents-python/tools/financial_tools.py:207-279 | the branch chosen by the analysis type computes that analysis over the customers |
| FinancialTools.AnalyzeCustomerMetrics | src/agents-python/tools/financial_tools.py:196-291 | the tool gives the analysis of the fetched customers with the fixed recommendations, or the error |
| FinancialTools.LifetimeValueBuckets | src/agents-python/tools/financial_tools.py:229-239 | the high, medium and low buckets split the customers; no customers is a division by zero |
| FinancialTools.ChurnCounts | src/agents-python/tools/financial_tools.py:241-251 | only the three known levels are counted; the customers at risk are the high and medium ones; all customers are counted when every risk is known |
| FinancialTools.SegmentationCounts | src/agents-python/tools/financial_tools.py:253-279 | there is one entry per segment present, each counting at least one customer, and the counts add up to the customers |
| FinancialTools.AcquisitionBreakdown | src/agents-python/tools/financial_tools.py:218-227 | every segment in the breakdown has customers, so its average is defined |
| FinancialTools.AcquisitionAverage | src/agents-python/tools/financial_tools.py:207-212 | the average acquisition cost is the service metric's 2567.00 |
| FinancialTools.FirstNamed | src/agents-python/tools/financial_tools.py:317-319 | the position of the first metric whose lower-cased name contains the word, with none before it |
| FinancialTools.MaxRevenueIndex | src/agents-python/tools/financial_tools.py:321 | a highest-revenue report, the first among equals |
| FinancialTools.TopProductOfSales | src/agents-python/tools/financial_tools.py:321 | the top product by revenue is the enterprise licence |
| FinancialTools.KeyMetricValues | src/agents-python/tools/financial_tools.py:317-319 | growth, margin and acquisition are found by the words of their names: 12.50, 68.50 and 2567.00 |
| FinancialTools.DatasetTotals | src/agents-python/tools/financial_tools.py:312-355 | the datasets total 9,773,000.00 revenue over four quarters, five sales worth 362,000.00, three customers and three employees |
| FinancialTools.ExecutiveFigures | src/agents-python/tools/financial_tools.py:312-329 | the executive summary's figures |
| FinancialTools.OperationalFigures | src/agents-python/tools/financial_tools.py:331-344 | the operational summary's figures |
| FinancialTools.ComprehensiveFigures | src/agents-python/tools/financial_tools.py:346-355 | any other report type gets the comprehensive summary's figures |
| FinancialTools.SummaryForecasts | src/agents-python/tools/financial_tools.py:357-364 | forecasts are present exactly when asked for, and carry the sales trend's forecast |
| ProcessingTools.Split | src/agents-python/tools/financial_processing_tools.py:57 | a split gives at least one piece, and no piece holds the separator |
| ProcessingTools.JoinSplit | src/agents-python/tools/financial_processing_tools.py:57 | joining the pieces with the separator gives back the path |
| ProcessingTools.SplitLast | src/agents-python/tools/financial_processing_tools.py:57 | the last piece is what follows the last separator, or the whole string when there is none |
| ProcessingTools.BasenameIsLastSegment | src/agents-python/tools/financial_processing_tools.py:116 | the file name holds no '/', ends the path, and follows a '/' when the path has one |
| ProcessingTools.BasenameOfJoined | src/agents-python/tools/financial_processing_tools.py:57 | a directory prefix does not change the file name |
| ProcessingTools.CsvEntrySelection | src/agents-python/tools/financial_processing_tools.py:58-71 | every file has a summary; the result is the requested analysis when the file has one, and the summary otherwise |
| ProcessingTools.CsvByFileName | src/agents-python/tools/financial_processing_tools.py:57-58 | only the file name counts, not the directory |
| ProcessingTools.CsvUnknownFile | src/agents-python/tools/financial_processing_tools.py:58-64 | an unknown file answers every analysis with its random summary |
| ProcessingTools.CsvExpensesSummaryOnly | src/agents-python/tools/financial_processing_tools.py:44-54 | the expenses file answers every analysis with its summary |
| ProcessingTools.ExcelCharts | src/agents-python/tools/financial_processing_tools.py:129-136 | there are no charts unless asked for, and then exactly a line chart and a pie chart |
| ProcessingTools.ExcelKnownWorkbook | src/agents-python/tools/financial_processing_tools.py:88-130 | the quarterly workbook lists four sheets but holds data for two; the others read as empty |
| ProcessingTools.ExcelUnknownWorkbook | src/agents-python/tools/financial_processing_tools.py:116-130 | an unknown workbook has only the requested sheet; a sheet named "sheets" overwrites the sheet list |
| ProcessingTools.QueryRouting | src/agents-python/tools/financial_processing_tools.py:169-177 | the keyword priority: select, sales or product give sales rows, then customer, then revenue; routing ignores case |
| ProcessingTools.QueryRows | src/agents-python/tools/financial_processing_tools.py:169-183 | the rows returned are counted; a match gives the first `min(limit, 3)` rows for a non-negative limit; the no-match row ignores the limit |
| ProcessingTools.ReportFallback | src/agents-python/tools/financial_processing_tools.py:253-257 | an unknown type gets the generic title, the sections Overview, Analysis and Recommendations, and a status metric |
| ProcessingTools.ReportTemplates | src/agents-python/tools/financial_processing_tools.py:203-251 | the named types get their own sections and four key metrics; every title opens with the title-cased period |
| ProcessingTools.FirstUnknownRule | src/agents-python/tools/financial_processing_tools.py:319 | the first requested rule without a result, with every rule before it known |
| ProcessingTools.ValidationOutcome | src/agents-python/tools/financial_processing_tools.py:286-335 | validation fails on the first unknown rule, and fails on an empty rule list; otherwise the results are exactly the requested rules |
| ProcessingTools.OverallScoreBounds | src/agents-python/tools/financial_processing_tools.py:295-319 | with every score in its drawn range, the overall score lies between 85 and 99 |
| ProcessingTools.StatisticalSelection | src/agents-python/tools/financial_processing_tools.py:338-396 | only known analyses are reported, each once, with its canned result; unknown ones are dropped; parameters default to {} |
| ProcessingTools.StatisticalOrder | src/agents-python/tools/financial_processing_tools.py:396 | distinct known analyses are reported in request order |
| Text.StripEmptyIff | src/agents-python/agents_python/agent_executor.py:114 | `strip()` gives "" exactly for an all-whitespace string |
| Text.TitleFromCase | src/agents-python/tools/financial_processing_tools.py:203-257 | `title()` changes only letter case: same length, same lower-cased text |
| Lists.SortDescCorrect | src/agents-python/tools/financial_tools.py:154-161 | the descending sort is a stable, descending permutation of its input |

## Left out

- Asynchrony: `asyncio.create_task`, `task.cancel` and the `asyncio.sleep` delays. Task execution is the explicit step `ExecuteTask`, which can run for any request at any later time. So a cancelled task's response may be overwritten in the model by a later `ExecuteTask`. In the source it stays cancelled, because `task.cancel()` raises `CancelledError`, which `except Exception` does not catch.
- The LLM and the network: `ChatAgent.run`, the Azure OpenAI client, card resolution and `A2AAgent`, and `workflow.run`. Agents are oracles from input to reply or exception.
- HTTP and start-up wiring: FastAPI, uvicorn, CORS, OpenTelemetry, environment reads, the `/analyze` and `/health` endpoints, and the constant agent card of the agents' `main.py`.
- Random draws, clocks and `uuid4`. They are parameters: the CSV and sheet summaries, validation scores, the query's cache flag, the search total, timestamps and ids.
  - Processing times, file sizes, `file_info` and page counts are not modelled.
  - ProcessingTools.GenerateFinancialReport: the random `pages`, `charts_included` and `tables_included` counts are dropped from the result.
  - ProcessingTools.PerformStatisticalAnalysis: the random `computation_time`, the `visualizations_generated` chart paths with their random numbers, and the fixed `recommendations` list are dropped from the result.
  - `generate_mock_chart_data` is not modelled: it is random values only.
- Floating point: profit-margin and growth averages, recurring percentages, `avg_deal_size`, `sales_team_performance` and the other float averages are not modelled.
- Workflow.Run: starts from the financial agent's response. A financial agent that raises stops the run before any executor, with no output; that case is not modelled.
- ProcessingTools.ValidateFinancialData: keeps the score total and the rule count instead of `round(total / count, 1)`.
- Serialisation: JSON text, key order in dumped dictionaries and pydantic's exact error wording.
  - Validation errors are lists of field locations.
  - Only the fields the behaviour depends on are kept.
- FinancialTools.GetTopPerformingProducts: `dominant_category` is not modelled. It is a `max` over the set of categories keyed by an integer count, so on a tie the winner depends on the set's iteration order.
- FinancialTools.GetTopPerformingProducts: `avg_profit_margin` is not modelled, because it is a float average.
- FinancialTools.GetTopPerformingProducts: each product's `performance_score` is not modelled, because it is the float product of revenue and profit margin.
- Text: `lower` is modelled on ASCII letters and on the Kelvin sign, which Python lowers to `k`. Every other non-ASCII letter is left unchanged.
  - Python lowers `İ` (U+0130) to two characters, `i` and a combining dot. No keyword ends in `i`, and no keyword or data row contains the combining dot U+0307, so matching is not affected.
  - Python lowers all other non-ASCII capitals to non-ASCII letters, which never match the ASCII keywords and data.
  - Python's `title` also treats non-ASCII letters as cased; the model's `title` only changes ASCII letters.
- FinancialModels: timestamps and `datetime` fields are not modelled, and float fields are scaled integers.
- The unused `ComplianceReport` object of the mock compliance agent, and `AIChatMessage` in `_execute_task`, whose value is never used.
- The .NET orchestrator, session store and web front end. They are not part of this model.
