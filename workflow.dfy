/**
 * The financial-compliance workflow: a financial analysis agent whose reply is
 * routed, by a keyword test on its text, either straight to a final report or
 * through a policy lookup agent and a mock compliance agent.
 *
 * The agents are oracles; the workflow context is an object that collects the
 * outputs the executors yield and the requests they send. The long message
 * templates are written one `+`-joined piece per line of text, which keeps the
 * proofs that mention them cheap. The compliance query's first line is split
 * once more: the verifier cannot read the first character of a string literal
 * longer than about forty-five characters, and the template's proofs need it.
 */
module Workflow {
  import opened Wrappers
  import opened Text
  import opened AgentOracle

  /**
   * The text of an agent executor's response. Reading it is where the source's
   * handlers can raise; `Unreadable` carries the exception text.
   */
  datatype ResponseText = Readable(text: string) | Unreadable(error: string)

  datatype Role = User | Assistant

  datatype ChatMessage = ChatMessage(role: Role, text: string)

  /** `AgentExecutorRequest` */
  datatype ExecutorRequest = ExecutorRequest(messages: seq<ChatMessage>, shouldRespond: bool)

  /** What travels along an edge: an agent executor's response, or a request to one. */
  datatype Message = Response(response: ResponseText) | Request(request: ExecutorRequest)

  // ---------------------------------------------------------------------------
  // Routing condition

  const PolicyKeywords: seq<string> := [
    "compliance", "policy", "regulation", "risk", "audit",
    "legal", "governance", "sox", "asc 606", "revenue recognition",
    "commission", "international", "regulatory", "standards"
  ]

  /** `any(k in text for k in keywords)` */
  function AnyKeyword(keywords: seq<string>, text: string): bool
    decreases |keywords|
  {
    keywords != [] && (Contains(text, keywords[0]) || AnyKeyword(keywords[1..], text))
  }

  lemma {:induction false} AnyKeywordIff(keywords: seq<string>, text: string)
    ensures AnyKeyword(keywords, text) <==> exists i :: 0 <= i < |keywords| && Contains(text, keywords[i])
    decreases |keywords|
  {
    if keywords != [] {
      AnyKeywordIff(keywords[1..], text);
      if exists i :: 0 <= i < |keywords| && Contains(text, keywords[i]) {
        var i :| 0 <= i < |keywords| && Contains(text, keywords[i]);
        if i > 0 {
          assert Contains(text, keywords[1..][i - 1]);
        }
      }
    }
  }

  /** A reply needs policy review when its lower-cased text contains one of the keywords. */
  predicate NeedsReview(text: string) {
    AnyKeyword(PolicyKeywords, Lower(text))
  }

  /** The condition `get_policy_review_condition(expected)` puts on an edge. */
  predicate Condition(expected: bool, message: Message) {
    match message
    case Request(_) => true
    case Response(Readable(text)) => NeedsReview(text) == expected
    case Response(Unreadable(_)) => expected == false
  }

  /**
   * Review is needed exactly when some keyword occurs, as a substring and
   * regardless of letter case, in the reply.
   */
  lemma NeedsReviewIff(text: string)
    ensures NeedsReview(text) <==> exists i :: 0 <= i < |PolicyKeywords| && Contains(Lower(text), PolicyKeywords[i])
    ensures NeedsReview(Lower(text)) == NeedsReview(text)
  {
    AnyKeywordIff(PolicyKeywords, Lower(text));
    LowerProperties(text);
  }

  /**
   * The two conditions on the financial node's edges: for a response exactly
   * one holds, and a response that cannot be read takes the no-review edge;
   * a message of any other kind passes both.
   */
  lemma ConditionsPartition(message: Message)
    ensures message.Response? ==> Condition(true, message) != Condition(false, message)
    ensures message.Response? && message.response.Unreadable? ==> Condition(false, message)
    ensures message.Request? ==> Condition(true, message) && Condition(false, message)
  {
  }

  /** Matching is by substring: "policy" inside "policyholders" triggers a review. */
  lemma KeywordInsideWord()
    ensures NeedsReview("Policyholders grew 8%")
  {
    var lowered := Lower("Policyholders grew 8%");
    assert lowered == "policyholders grew 8%";
    assert OccursAt(lowered, PolicyKeywords[1], 0);
    ContainsAt(lowered, PolicyKeywords[1], 0);
    AnyKeywordIff(PolicyKeywords, lowered);
  }

  /** The Kelvin sign lowers to `k`, so "RIS" followed by it reads as "risk". */
  lemma KelvinSignNeedsReview()
    ensures NeedsReview("RIS\U{212A}")
  {
    var lowered := Lower("RIS\U{212A}");
    assert lowered == "risk";
    assert OccursAt(lowered, PolicyKeywords[3], 0);
    ContainsAt(lowered, PolicyKeywords[3], 0);
    AnyKeywordIff(PolicyKeywords, lowered);
  }

  /** A reply shorter than every keyword never needs review. */
  lemma ShortReplyNeedsNoReview(text: string)
    requires |text| < 3
    ensures !NeedsReview(text)
  {
    NeedsReviewIff(text);
    LowerProperties(text);
    forall i | 0 <= i < |PolicyKeywords|
      ensures !Contains(Lower(text), PolicyKeywords[i])
    {
      NotContainsLonger(Lower(text), PolicyKeywords[i]);
    }
  }

  // ---------------------------------------------------------------------------
  // Text templates

  /** An `f"""\n{head}{text}{tail}\n"""` template before `.strip()`. */
  function Framed(head: string, text: string, tail: string): string {
    "\n" + head + text + tail + "\n"
  }

  /**
   * Stripping a template whose fixed head begins, and whose fixed tail ends,
   * with a non-whitespace character gives head, text and tail verbatim,
   * whatever the text.
   */
  lemma StripTemplate(head: string, text: string, tail: string)
    requires head != [] && !IsSpace(head[0])
    requires tail != [] && !IsSpace(tail[|tail| - 1])
    ensures Strip(Framed(head, text, tail)) == head + text + tail
  {
    var body := head + text + tail;
    assert body[0] == head[0];
    assert body[|body| - 1] == tail[|tail| - 1];
    assert Framed(head, text, tail) == "\n" + body + "\n";
    StripFramed("\n", body, "\n");
  }

  const FinancialOnlyHead: string := "FINANCIAL ANALYSIS REPORT" + "\n========================\n\n"
  const NoReviewStatus: string := "STATUS: No policy compliance review required."
  const FinancialOnlyTail: string := "\n\n" + NoReviewStatus

  const PolicyQueryHead: string := "Based on the following financial analysis:\n\n"
  const PolicyQueryTail: string :=
      "\n\nPlease find relevant policies that apply to the financial metrics, products, and business areas mentioned above. Focus on:\n"
    + "- Revenue recognition policies\n"
    + "- Sales commission policies\n"
    + "- International sales compliance\n"
    + "- Financial reporting standards\n"
    + "- Any regulatory requirements mentioned\n\n"
    + "Provide specific policy names and compliance requirements."
  const PolicyQueryFallback: string := "Please lookup general sales and revenue recognition policies."

  const ComplianceQueryHead: string :=
    "Generate a comprehensive compliance report" + " based on the following policy analysis:\n\n"
  const ComplianceQueryTail: string :=
      "\n\nPlease create a compliance report that includes:\n"
    + "- Executive summary of compliance status\n"
    + "- Key policy findings and requirements\n"
    + "- Risk assessment and mitigation recommendations\n"
    + "- Action items for maintaining compliance\n"
    + "- Overall compliance status (compliant/needs-attention/non-compliant)\n\n"
    + "Format the response as a clear, executive-level compliance report."
  const ComplianceQueryFallback: string := "Please generate a basic compliance report."

  /** The heading of both compliance reports. */
  const ReportHead: string := "FINANCIAL ANALYSIS & COMPLIANCE REPORT" + "\n====================================\n\n"

  const CompliantStatus: string := "COMPLIANCE STATUS: COMPLIANT"
  const MockReportHead: string :=
      ReportHead
    + "EXECUTIVE SUMMARY:\n"
    + "All financial activities are in full compliance with company policies and regulatory requirements. No issues detected.\n\n"
    + "FINANCIAL HIGHLIGHTS:\n"
    + "\U{2022} Compliance Score: 100%\n"
    + "\U{2022} Risk Level: Low\n"
    + "\U{2022} Last Audit: 2024-Q4\n"
    + "\U{2022} Status: Fully Compliant\n\n"
  const MockReportTail: string :=
      "\n\nPOLICY ALIGNMENT:\n"
    + "\U{2022} Revenue recognition practices fully align with ASC 606 standards\n"
    + "\U{2022} Sales commission structures meet all regulatory requirements\n"
    + "\U{2022} International sales comply with all applicable jurisdictions\n"
    + "\U{2022} Financial reporting meets SOX compliance standards\n\n"
    + "ACTION ITEMS:\n"
    + "\U{2022} Continue quarterly compliance monitoring\n"
    + "\U{2022} Maintain current best practices\n"
    + "\U{2022} Schedule next routine audit for Q1 2025\n\n"
    + "PRIORITY AREAS:\n"
    + "\U{2022} Routine Monitoring\n"
    + "\U{2022} Best Practice Maintenance"

  /** The fixed report the mock compliance agent yields. */
  const MockReport: string := MockReportHead + CompliantStatus + MockReportTail

  // The fixed parts of each template begin and end with a non-whitespace character.

  lemma FinancialOnlyEnds()
    ensures FinancialOnlyHead[0] == 'F' && FinancialOnlyTail[|FinancialOnlyTail| - 1] == '.'
  {
  }

  lemma PolicyQueryEnds()
    ensures PolicyQueryHead[0] == 'B' && PolicyQueryTail[|PolicyQueryTail| - 1] == '.'
  {
  }

  lemma ComplianceQueryEnds()
    ensures ComplianceQueryHead[0] == 'G' && ComplianceQueryTail[|ComplianceQueryTail| - 1] == '.'
  {
  }

  lemma ReportHeadStart()
    ensures ReportHead[0] == 'F'
  {
  }

  lemma MockReportEnds()
    ensures MockReport[0] == 'F' && MockReport[|MockReport| - 1] == 'e'
  {
    ReportHeadStart();
    assert MockReportHead[0] == 'F';
    assert MockReportTail[|MockReportTail| - 1] == 'e';
  }

  /** What `handle_financial_only` yields for a response. */
  function FinancialOnlyOutput(response: ResponseText): (out: string)
    ensures response.Readable? ==> out == FinancialOnlyHead + response.text + FinancialOnlyTail
  {
    match response
    case Readable(text) =>
      FinancialOnlyEnds();
      StripTemplate(FinancialOnlyHead, text, FinancialOnlyTail);
      Strip(Framed(FinancialOnlyHead, text, FinancialOnlyTail))
    case Unreadable(error) => "Error processing financial analysis: " + error
  }

  /** The no-review report quotes the analysis verbatim and ends with the no-review status line. */
  lemma FinancialOnlyOutputShape(text: string)
    ensures var out := FinancialOnlyOutput(Readable(text));
      && Contains(out, text)
      && |NoReviewStatus| <= |out| && out[|out| - |NoReviewStatus|..] == NoReviewStatus
  {
    ContainsMiddle(FinancialOnlyHead, text, FinancialOnlyTail);
    var out := FinancialOnlyOutput(Readable(text));
    var front := FinancialOnlyHead + text + "\n\n";
    assert out == front + NoReviewStatus;
    assert out[|front|..] == NoReviewStatus;
  }

  /** The one-message user request the transformers send. */
  function UserRequest(text: string): ExecutorRequest {
    ExecutorRequest([ChatMessage(User, text)], true)
  }

  /** The request `to_policy_lookup_request` sends for a response. */
  function PolicyLookupRequest(response: ResponseText): (r: ExecutorRequest)
    ensures response.Readable? ==> r == UserRequest(PolicyQueryHead + response.text + PolicyQueryTail)
    ensures response.Unreadable? ==> r == UserRequest(PolicyQueryFallback)
  {
    match response
    case Readable(text) =>
      PolicyQueryEnds();
      StripTemplate(PolicyQueryHead, text, PolicyQueryTail);
      UserRequest(Strip(Framed(PolicyQueryHead, text, PolicyQueryTail)))
    case Unreadable(_) => UserRequest(PolicyQueryFallback)
  }

  /** The request `to_compliance_report_request` sends for a response. */
  function ComplianceReportRequest(response: ResponseText): (r: ExecutorRequest)
    ensures response.Readable? ==> r == UserRequest(ComplianceQueryHead + response.text + ComplianceQueryTail)
    ensures response.Unreadable? ==> r == UserRequest(ComplianceQueryFallback)
  {
    match response
    case Readable(text) =>
      ComplianceQueryEnds();
      StripTemplate(ComplianceQueryHead, text, ComplianceQueryTail);
      UserRequest(Strip(Framed(ComplianceQueryHead, text, ComplianceQueryTail)))
    case Unreadable(_) => UserRequest(ComplianceQueryFallback)
  }

  /**
   * Each transformer's request is a single user message asking for a reply,
   * holding the prior response's text when it could be read.
   */
  lemma RequestsEmbedResponse(response: ResponseText)
    ensures var p := PolicyLookupRequest(response);
      |p.messages| == 1 && p.messages[0].role == User && p.shouldRespond
      && (response.Readable? ==> Contains(p.messages[0].text, response.text))
    ensures var c := ComplianceReportRequest(response);
      |c.messages| == 1 && c.messages[0].role == User && c.shouldRespond
      && (response.Readable? ==> Contains(c.messages[0].text, response.text))
  {
    if response.Readable? {
      ContainsMiddle(PolicyQueryHead, response.text, PolicyQueryTail);
      ContainsMiddle(ComplianceQueryHead, response.text, ComplianceQueryTail);
    }
  }

  /** What `handle_compliance_report` yields for a response. */
  function ComplianceReportOutput(response: ResponseText): string {
    match response
    case Readable(text) => Strip(Framed(ReportHead, text, ""))
    case Unreadable(error) => "Error generating compliance report: " + error
  }

  /** A report that ends in a non-whitespace character is reproduced after the fixed heading. */
  lemma ComplianceReportOutputShape(text: string)
    requires text != [] && !IsSpace(text[|text| - 1])
    ensures ComplianceReportOutput(Readable(text)) == ReportHead + text
  {
    var body := ReportHead + text;
    ReportHeadStart();
    assert body[|body| - 1] == text[|text| - 1];
    assert Framed(ReportHead, text, "") == "\n" + body + "\n";
    StripFramed("\n", body, "\n");
  }

  /** What `mock_compliance_agent` yields: the fixed compliant report, whatever the request. */
  function MockComplianceOutput(request: ExecutorRequest): (out: string)
    ensures out == MockReport
  {
    MockReportEnds();
    StripFramed("\n", MockReport, "\n");
    Strip("\n" + MockReport + "\n")
  }

  /** The mock report declares the activities compliant. */
  lemma MockReportIsCompliant()
    ensures Contains(MockReport, CompliantStatus)
  {
    ContainsMiddle(MockReportHead, CompliantStatus, MockReportTail);
  }

  // ---------------------------------------------------------------------------
  // Executors

  /** The workflow context the executors write to. */
  class WorkflowContext {
    var outputs: seq<string>
    var sent: seq<ExecutorRequest>

    constructor ()
      ensures outputs == [] && sent == []
    {
      outputs := [];
      sent := [];
    }

    /** `ctx.yield_output` */
    method YieldOutput(output: string)
      modifies this
      ensures outputs == old(outputs) + [output]
      ensures sent == old(sent)
    {
      outputs := outputs + [output];
    }

    /** `ctx.send_message` */
    method SendMessage(request: ExecutorRequest)
      modifies this
      ensures sent == old(sent) + [request]
      ensures outputs == old(outputs)
    {
      sent := sent + [request];
    }
  }

  /** `handle_financial_only`: yields exactly one output and sends nothing. */
  method HandleFinancialOnly(response: ResponseText, ctx: WorkflowContext)
    modifies ctx
    ensures ctx.outputs == old(ctx.outputs) + [FinancialOnlyOutput(response)]
    ensures ctx.sent == old(ctx.sent)
  {
    match response {
      case Readable(financialAnalysis) =>
        var output := Framed(FinancialOnlyHead, financialAnalysis, FinancialOnlyTail);
        ctx.YieldOutput(Strip(output));
      case Unreadable(e) =>
        ctx.YieldOutput("Error processing financial analysis: " + e);
    }
  }

  /** `handle_compliance_report`: yields exactly one output and sends nothing. */
  method HandleComplianceReport(response: ResponseText, ctx: WorkflowContext)
    modifies ctx
    ensures ctx.outputs == old(ctx.outputs) + [ComplianceReportOutput(response)]
    ensures ctx.sent == old(ctx.sent)
  {
    match response {
      case Readable(complianceReport) =>
        var output := Framed(ReportHead, complianceReport, "");
        ctx.YieldOutput(Strip(output));
      case Unreadable(e) =>
        ctx.YieldOutput("Error generating compliance report: " + e);
    }
  }

  /** `to_policy_lookup_request`: sends exactly one request and yields nothing. */
  method ToPolicyLookupRequest(response: ResponseText, ctx: WorkflowContext)
    modifies ctx
    ensures ctx.sent == old(ctx.sent) + [PolicyLookupRequest(response)]
    ensures ctx.outputs == old(ctx.outputs)
  {
    match response {
      case Readable(financialAnalysis) =>
        var policyQuery := Framed(PolicyQueryHead, financialAnalysis, PolicyQueryTail);
        ctx.SendMessage(UserRequest(Strip(policyQuery)));
      case Unreadable(_) =>
        ctx.SendMessage(UserRequest(PolicyQueryFallback));
    }
  }

  /** `to_compliance_report_request`: sends exactly one request and yields nothing. */
  method ToComplianceReportRequest(response: ResponseText, ctx: WorkflowContext)
    modifies ctx
    ensures ctx.sent == old(ctx.sent) + [ComplianceReportRequest(response)]
    ensures ctx.outputs == old(ctx.outputs)
  {
    match response {
      case Readable(policyAnalysis) =>
        var complianceQuery := Framed(ComplianceQueryHead, policyAnalysis, ComplianceQueryTail);
        ctx.SendMessage(UserRequest(Strip(complianceQuery)));
      case Unreadable(_) =>
        ctx.SendMessage(UserRequest(ComplianceQueryFallback));
    }
  }

  /** `mock_compliance_agent`: yields the fixed report and sends nothing. */
  method MockComplianceAgent(request: ExecutorRequest, ctx: WorkflowContext)
    modifies ctx
    ensures ctx.outputs == old(ctx.outputs) + [MockReport]
    ensures ctx.sent == old(ctx.sent)
  {
    ctx.YieldOutput(MockComplianceOutput(request));
  }

  // ---------------------------------------------------------------------------
  // Graph

  datatype Node =
    | FinancialExecutor
    | ToPolicyLookupRequestNode
    | PolicyExecutor
    | ToComplianceReportRequestNode
    | MockComplianceAgentNode
    | HandleFinancialOnlyNode
    | HandleComplianceReportNode

  /** The executor id each node is registered under. */
  function Id(n: Node): string {
    match n
    case FinancialExecutor => "financial_analysis_agent"
    case ToPolicyLookupRequestNode => "to_policy_lookup_request"
    case PolicyExecutor => "policy_lookup_agent"
    case ToComplianceReportRequestNode => "to_compliance_report_request"
    case MockComplianceAgentNode => "mock_compliance_agent"
    case HandleFinancialOnlyNode => "handle_financial_only"
    case HandleComplianceReportNode => "handle_compliance_report"
  }

  datatype Guard = Always | ReviewNeeded(expected: bool)

  datatype Edge = Edge(source: Node, target: Node, guard: Guard)

  const Start: Node := FinancialExecutor

  /** The edges in the order the builder adds them. */
  const Edges: seq<Edge> := [
    Edge(FinancialExecutor, ToPolicyLookupRequestNode, ReviewNeeded(true)),
    Edge(ToPolicyLookupRequestNode, PolicyExecutor, Always),
    Edge(PolicyExecutor, ToComplianceReportRequestNode, Always),
    Edge(ToComplianceReportRequestNode, MockComplianceAgentNode, Always),
    Edge(FinancialExecutor, HandleFinancialOnlyNode, ReviewNeeded(false))
  ]

  predicate Passes(g: Guard, message: Message) {
    match g
    case Always => true
    case ReviewNeeded(expected) => Condition(expected, message)
  }

  /** The targets, in edge order, of the edges from `n` whose guard lets `message` through. */
  function Targets(edges: seq<Edge>, n: Node, message: Message): seq<Node>
    decreases |edges|
  {
    if edges == [] then []
    else
      (if edges[0].source == n && Passes(edges[0].guard, message) then [edges[0].target] else [])
      + Targets(edges[1..], n, message)
  }

  function Successors(n: Node, message: Message): seq<Node> {
    Targets(Edges, n, message)
  }

  /**
   * A response of the financial agent goes to exactly one successor: the policy
   * lookup transformer when review is needed, the no-review handler otherwise
   * (and when the response cannot be read).
   */
  lemma FinancialRoutesToOne(response: ResponseText)
    ensures Successors(FinancialExecutor, Response(response)) ==
      if response.Readable? && NeedsReview(response.text) then [ToPolicyLookupRequestNode]
      else [HandleFinancialOnlyNode]
  {
  }

  /**
   * The review branch is a chain of unconditional edges ending at the mock
   * compliance agent; both branch ends have no successor, and the compliance
   * report handler is not connected at all.
   */
  lemma ReviewBranchIsChain(message: Message)
    ensures Successors(ToPolicyLookupRequestNode, message) == [PolicyExecutor]
    ensures Successors(PolicyExecutor, message) == [ToComplianceReportRequestNode]
    ensures Successors(ToComplianceReportRequestNode, message) == [MockComplianceAgentNode]
    ensures Successors(MockComplianceAgentNode, message) == []
    ensures Successors(HandleFinancialOnlyNode, message) == []
    ensures forall e :: e in Edges ==> e.source != HandleComplianceReportNode && e.target != HandleComplianceReportNode
  {
  }

  /**
   * The review branch, from the policy lookup transformer on: the lookup request
   * is sent; when the policy agent replies, the compliance request quoting its
   * reply follows and the compliant report is the one output; when it raises,
   * the branch ends there with no output.
   */
  method ReviewBranch(financial: ResponseText, policyAgent: ExecutorRequest -> AgentRun, ctx: WorkflowContext)
    modifies ctx
    ensures var lookup := PolicyLookupRequest(financial);
      policyAgent(lookup).Reply? ==>
        && ctx.outputs == old(ctx.outputs) + [MockReport]
        && ctx.sent == old(ctx.sent) + [lookup, ComplianceReportRequest(Readable(policyAgent(lookup).text))]
    ensures var lookup := PolicyLookupRequest(financial);
      policyAgent(lookup).Raised? ==>
        ctx.outputs == old(ctx.outputs) && ctx.sent == old(ctx.sent) + [lookup]
  {
    ToPolicyLookupRequest(financial, ctx);
    var lookup := ctx.sent[|ctx.sent| - 1];
    match policyAgent(lookup) {
      case Reply(text) =>
        ToComplianceReportRequest(Readable(text), ctx);
        var report := ctx.sent[|ctx.sent| - 1];
        MockComplianceAgent(report, ctx);
      case Raised(_) =>
    }
  }

  /**
   * One run of the workflow from the financial agent's response, following the
   * graph's edges, with the policy agent as an oracle that replies or raises.
   * Without review, the no-review report is the one output and nothing is sent;
   * with review, the run continues along the review branch.
   */
  method Run(financial: ResponseText, policyAgent: ExecutorRequest -> AgentRun, ctx: WorkflowContext)
    modifies ctx
    ensures !(financial.Readable? && NeedsReview(financial.text)) ==>
      ctx.outputs == old(ctx.outputs) + [FinancialOnlyOutput(financial)] && ctx.sent == old(ctx.sent)
    ensures var lookup := PolicyLookupRequest(financial);
      financial.Readable? && NeedsReview(financial.text) && policyAgent(lookup).Reply? ==>
        && ctx.outputs == old(ctx.outputs) + [MockReport]
        && ctx.sent == old(ctx.sent) + [lookup, ComplianceReportRequest(Readable(policyAgent(lookup).text))]
    ensures var lookup := PolicyLookupRequest(financial);
      financial.Readable? && NeedsReview(financial.text) && policyAgent(lookup).Raised? ==>
        ctx.outputs == old(ctx.outputs) && ctx.sent == old(ctx.sent) + [lookup]
  {
    FinancialRoutesToOne(financial);
    var next := Successors(Start, Response(financial));
    if next[0] == ToPolicyLookupRequestNode {
      ReviewBranch(financial, policyAgent, ctx);
    } else {
      HandleFinancialOnly(financial, ctx);
    }
  }
}
