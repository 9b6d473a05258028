/** backend/tech_agent.py: the Senior Staff Engineer persona and its console loop. */
module TechAgent {
  import opened Llm
  import opened Text
  import opened PersonaRepl

  /**
   * Stand-in for the persona's `SYSTEM_PROMPT` text; no decision in the program
   * depends on its wording, only on which prompt a request carries.
   */
  const SystemPrompt: string := "[tech_agent SYSTEM_PROMPT: Senior Staff Software Engineer persona]"

  /** `run_tech_agent`: the buffer it ends with and the buffer sent with each request. */
  method RunTechAgent(inputs: seq<string>, backend: StreamBackend)
    returns (messages: seq<Message>, requests: seq<seq<Message>>)
    ensures Repl(messages, requests) == Converse([Message(System, SystemPrompt)], inputs, backend)
    ensures |messages| >= 1 && messages[0] == Message(System, SystemPrompt)
    ensures UserTurns(messages) == Submitted(inputs)
    ensures |requests| == |Submitted(inputs)|
    ensures forall k :: 0 <= k < |requests| ==>
      requests[k] <= messages && 1 < |requests[k]| && requests[k][|requests[k]| - 1] == Message(User, Submitted(inputs)[k])
    ensures Submitted(inputs) == inputs && (forall sent :: backend(sent).completes) ==>
      |messages| == 1 + 2 * |inputs|
  {
    messages, requests := RunPersonaAgent(SystemPrompt, inputs, backend);
    var start := [Message(System, SystemPrompt)];
    assert UserTurns(start) == [];
    ConverseOnlyAppends(start, inputs, backend);
    ConverseRecordsEveryLine(start, inputs, backend);
    if Submitted(inputs) == inputs && (forall sent :: backend(sent).completes) {
      FaultFreeTurnsAlternate(start, inputs, backend);
    }
  }
}
