/** The language model behind every agent, reduced to what the Python code observes of one run. */
module AgentOracle {

  /** One call of `agent.run(input)`: the response's text, or the text of the exception it raised. */
  datatype AgentRun = Reply(text: string) | Raised(error: string)
}
