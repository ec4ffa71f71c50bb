/**
 * The A2A SDK executor of the financial analysis agent: it chooses the text of
 * the one reply to a turn and puts it on the event queue.
 *
 * The agent is an oracle from the query to the outcome of one run; whether the
 * agent could be built at start-up is the executor's `agentAvailable`.
 */
module AgentExecutor {
  import opened Wrappers
  import opened Text
  import opened AgentOracle

  /**
   * What the executor reads from the SDK's request context: whether it carries
   * a message, and the user input the SDK extracts from it.
   */
  datatype RequestContext = RequestContext(hasMessage: bool, userInput: string)

  /** A text message from the agent, as `new_agent_text_message` builds it. */
  datatype Event = AgentText(text: string)

  const Introduction: string :=
    "Hi, I'm the Python Financial Analysis Agent! \U{1F522} "
    + "I can help you with sales data analysis, revenue trends, "
    + "business metrics calculation, customer analytics, and financial reporting. "
    + "What would you like to analyze today?"

  const FallbackHead: string := "I received your question: '"

  const FallbackTail: string :=
    "'. "
    + "I'm a financial analysis agent ready to help with business metrics, "
    + "sales data, and financial reporting. However, the agent framework "
    + "is currently unavailable. Please check your Azure configuration."

  /** The reply when no agent could be built. */
  function Fallback(query: string): string {
    FallbackHead + query + FallbackTail
  }

  const ErrorPrefix: string := "An error occurred while processing your request: "

  function ErrorMessage(error: string): string {
    ErrorPrefix + error
  }

  const CancelMessage: string := "Operation cancelled by user"

  const NoMessageError: string := "No message provided"

  /** `not query or query.strip() == ""` */
  predicate IsBlank(query: string) {
    query == [] || Strip(query) == []
  }

  /** The text `execute` sends for `query`; an agent failure becomes the error message. */
  function ResponseText(query: string, agentAvailable: bool, agent: string -> AgentRun): string {
    if IsBlank(query) then Introduction
    else if agentAvailable then
      match agent(query)
      case Reply(text) => text
      case Raised(error) => ErrorMessage(error)
    else Fallback(query)
  }

  /** A query is blank exactly when it is empty or all whitespace. */
  lemma BlankIffAllSpace(query: string)
    ensures IsBlank(query) <==> AllSpace(query)
  {
    StripEmptyIff(query);
  }

  /**
   * The reply to a turn, case by case: the introduction for a blank query,
   * without consulting the agent; the agent's text, or the error message
   * around its exception text, for any other query when the agent exists; the
   * fallback quoting the query otherwise.
   */
  lemma ResponseCases(query: string, agentAvailable: bool, agent: string -> AgentRun, other: string -> AgentRun)
    ensures AllSpace(query) ==>
      ResponseText(query, agentAvailable, agent) == Introduction
      && ResponseText(query, agentAvailable, other) == Introduction
    ensures !AllSpace(query) && agentAvailable && agent(query).Reply? ==>
      ResponseText(query, agentAvailable, agent) == agent(query).text
    ensures !AllSpace(query) && agentAvailable && agent(query).Raised? ==>
      ResponseText(query, agentAvailable, agent) == ErrorMessage(agent(query).error)
    ensures !AllSpace(query) && !agentAvailable ==>
      ResponseText(query, agentAvailable, agent) == Fallback(query)
  {
    BlankIffAllSpace(query);
  }

  /** The fallback quotes the query, and an error message starts with the fixed prefix and ends with the error text. */
  lemma RepliesEmbedTheirInput(query: string, error: string)
    ensures Contains(Fallback(query), query)
    ensures IsPrefix(ErrorPrefix, ErrorMessage(error))
    ensures ErrorMessage(error)[|ErrorPrefix|..] == error
  {
    ContainsMiddle(FallbackHead, query, FallbackTail);
  }

  /** The SDK's event queue: the events enqueued so far, in order. */
  class EventQueue {
    var events: seq<Event>

    constructor ()
      ensures events == []
    {
      events := [];
    }

    method Enqueue(event: Event)
      modifies this
      ensures events == old(events) + [event]
    {
      events := events + [event];
    }
  }

  /** `FinancialAnalysisAgentExecutor` */
  class FinancialAnalysisAgentExecutor {
    /** False when building the chat agent raised and the executor keeps `None`. */
    const agentAvailable: bool

    constructor (agentBuilt: bool)
      ensures agentAvailable == agentBuilt
    {
      agentAvailable := agentBuilt;
    }

    /**
     * `execute`: without a message it raises and enqueues nothing; with one it
     * enqueues exactly one event, the chosen reply.
     */
    method Execute(context: RequestContext, queue: EventQueue, agent: string -> AgentRun) returns (raised: Option<string>)
      modifies queue
      ensures !context.hasMessage ==> raised == Some(NoMessageError) && queue.events == old(queue.events)
      ensures context.hasMessage ==>
        raised == None
        && queue.events == old(queue.events) + [AgentText(ResponseText(context.userInput, agentAvailable, agent))]
    {
      var query := context.userInput;
      if !context.hasMessage {
        return Some(NoMessageError);
      }
      var responseText: string;
      if query == [] || Strip(query) == [] {
        responseText := Introduction;
      } else if agentAvailable {
        var run := agent(query);
        if run.Raised? {
          queue.Enqueue(AgentText(ErrorMessage(run.error)));
          return None;
        }
        responseText := run.text;
      } else {
        responseText := Fallback(query);
      }
      queue.Enqueue(AgentText(responseText));
      raised := None;
    }

    /** `cancel`: enqueues exactly the cancellation message. */
    method Cancel(context: RequestContext, queue: EventQueue)
      modifies queue
      ensures queue.events == old(queue.events) + [AgentText(CancelMessage)]
    {
      queue.Enqueue(AgentText(CancelMessage));
    }
  }
}
