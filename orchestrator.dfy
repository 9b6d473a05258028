/**
 * backend/orchestrator.py: the console orchestrator. Each line typed is sent
 * to a router that answers with a JSON decision; TECH and BUSINESS go to one
 * persona, BOTH runs the collaboration protocol (the tech persona proposes,
 * the business persona critiques the proposal, a synthesiser merges both),
 * and anything else calls no persona at all. An exception anywhere in a turn
 * is reported and the loop reads the next line.
 */
module Orchestrator {
  import opened Wrappers
  import opened Text
  import opened JsonValues
  import opened Llm
  import TechAgent
  import BusinessAgent

  /** Stand-ins for the two prompt literals; only their identity matters. */
  const RouterSystemPrompt: string := "[orchestrator ROUTER_SYSTEM_PROMPT: answer {decision, reasoning} as JSON]"
  const SynthesizerSystemPrompt: string := "[orchestrator SYNTHESIZER_SYSTEM_PROMPT: merge the tech and business answers]"

  // ---------------------------------------------------------------------------
  // get_agent_response: backend/orchestrator.py:54-66
  // ---------------------------------------------------------------------------

  /** The entries of an optional context list; `None` has none. */
  function ContextEntries(context: Option<seq<Message>>): seq<Message> {
    if context.Some? then context.value else []
  }

  /**
   * The `messages` list of `get_agent_response`: the persona's system entry,
   * then the context entries when the list is non-empty (Python truthiness),
   * then the user's turn.
   */
  function AgentMessages(systemPrompt: string, userInput: string, context: Option<seq<Message>>): (messages: seq<Message>)
    ensures |messages| == 2 + |ContextEntries(context)|
    ensures messages[0] == Message(System, systemPrompt)
    ensures forall k :: 0 <= k < |ContextEntries(context)| ==> messages[1 + k] == ContextEntries(context)[k]
    ensures messages[|messages| - 1] == Message(User, userInput)
  {
    [Message(System, systemPrompt)]
      + (if context.Some? && context.value != [] then context.value else [])
      + [Message(User, userInput)]
  }

  /** An empty context list and no context list build the same request. */
  lemma EmptyContextInsertsNothing(systemPrompt: string, userInput: string)
    ensures AgentMessages(systemPrompt, userInput, Some([])) == AgentMessages(systemPrompt, userInput, None)
    ensures AgentMessages(systemPrompt, userInput, None) == [Message(System, systemPrompt), Message(User, userInput)]
  {
  }

  /** The request `get_agent_response(system_prompt, user_input)` makes with no context. */
  function AgentCall(systemPrompt: string, userInput: string): Call {
    Call(FreeText, AgentMessages(systemPrompt, userInput, None))
  }

  /** `get_agent_response`: assemble the list step by step and send it. */
  method GetAgentResponse(systemPrompt: string, userInput: string, context: Option<seq<Message>>, backend: Backend)
    returns (call: Call, reply: Reply)
    ensures call == Call(FreeText, AgentMessages(systemPrompt, userInput, context))
    ensures reply == backend(call)
  {
    var messages := [Message(System, systemPrompt)];
    if context.Some? && context.value != [] {
      messages := messages + context.value;
    }
    messages := messages + [Message(User, userInput)];
    call := Call(FreeText, messages);
    reply := backend(call);
  }

  // ---------------------------------------------------------------------------
  // Routing: backend/orchestrator.py:84-97
  // ---------------------------------------------------------------------------

  /** The JSON-mode router request for one line. */
  function RouterCall(userInput: string): Call {
    Call(JsonObject, [Message(System, RouterSystemPrompt), Message(User, userInput)])
  }

  /**
   * Why a turn stopped: the service raised, `json.loads` raised, or the decoded
   * value has no `.get` (it is not an object).
   */
  datatype Fault = BackendRaised(reason: string) | InvalidJson | NotAnObject

  /** `routing.get("decision")` and `routing.get("reasoning")`. */
  datatype Routing = Routing(decision: Json, reasoning: Json)

  /** Decoding the router's answer and reading its two keys; a missing key reads as `None`. */
  function ParseRouting(reply: Reply, parse: Parser): (r: Result<Routing, Fault>)
    ensures reply.Raised? ==> r == Err(BackendRaised(reply.reason))
    ensures reply.Answer? && parse(reply.content).None? ==> r == Err(InvalidJson)
    ensures reply.Answer? && parse(reply.content).Some? && !parse(reply.content).value.JObject? ==> r == Err(NotAnObject)
    ensures r.Ok? <==> reply.Answer? && parse(reply.content).Some? && parse(reply.content).value.JObject?
    ensures r.Ok? ==> var fields := parse(reply.content).value.fields;
      && ("decision" in fields ==> r.value.decision == fields["decision"])
      && ("decision" !in fields ==> r.value.decision == JNull)
      && ("reasoning" in fields ==> r.value.reasoning == fields["reasoning"])
      && ("reasoning" !in fields ==> r.value.reasoning == JNull)
  {
    match reply
    case Raised(reason) => Err(BackendRaised(reason))
    case Answer(content) =>
      match parse(content)
      case None => Err(InvalidJson)
      case Some(JObject(fields)) => Ok(Routing(Get(fields, "decision", JNull), Get(fields, "reasoning", JNull)))
      case Some(_) => Err(NotAnObject)
  }

  /** The branch `decision == "TECH"` / `"BUSINESS"` / `"BOTH"` / none of them selects. */
  datatype Decision = Tech | Business | Both | Unrecognised

  function Classify(decision: Json): (d: Decision)
    ensures d == Tech <==> decision == JString("TECH")
    ensures d == Business <==> decision == JString("BUSINESS")
    ensures d == Both <==> decision == JString("BOTH")
  {
    if decision == JString("TECH") then Tech
    else if decision == JString("BUSINESS") then Business
    else if decision == JString("BOTH") then Both
    else Unrecognised
  }

  /** A missing key, a JSON `null` and any other spelling call no persona. */
  lemma {:induction false} UnlistedDecisionsAreUnrecognised(decision: Json)
    requires decision != JString("TECH") && decision != JString("BUSINESS") && decision != JString("BOTH")
    ensures Classify(decision) == Unrecognised
    ensures Classify(JNull) == Unrecognised && Classify(JString("tech")) == Unrecognised
  {
    assert JString("tech") != JString("TECH") by {
      assert "tech"[0] != "TECH"[0];
    }
  }

  // ---------------------------------------------------------------------------
  // The BOTH protocol's context strings: backend/orchestrator.py:117-138
  // ---------------------------------------------------------------------------

  /** The sixteen spaces of indentation the triple-quoted f-strings carry. */
  const Indent: string := "                "

  const BusinessHead: string := "\n" + Indent + "CONTEXT: The user asked: \""
  const BusinessMid: string := "\"\n" + Indent + "\n" + Indent + "INPUT FROM TECH AGENT:\n" + Indent + "\""
  const BusinessTail: string :=
    "\"\n" + Indent + "\n" + Indent
    + "TASK: Evaluate this technical approach from a financial/business perspective. \n" + Indent
    + "Identify costs, risks, and ROI. Do not redesign the tech, just analyze its business impact.\n" + Indent

  /** `business_context`: the critique step's input. */
  function BusinessContext(userInput: string, techResponse: string): string {
    BusinessHead + userInput + BusinessMid + techResponse + BusinessTail
  }

  const SynthesisHead: string := "\n" + Indent + "User Query: "
  const SynthesisTechLabel: string := "\n" + Indent + "\n" + Indent + "Tech Agent Response:\n" + Indent
  const SynthesisBusinessLabel: string := "\n" + Indent + "\n" + Indent + "Business Agent Response:\n" + Indent
  const SynthesisTail: string := "\n" + Indent

  /** `synthesis_context`: the synthesiser's input. */
  function SynthesisContext(userInput: string, techResponse: string, businessResponse: string): string {
    SynthesisHead + userInput + SynthesisTechLabel + techResponse + SynthesisBusinessLabel + businessResponse + SynthesisTail
  }

  /** In `h + x + m + y + t`, `x` starts right after `h` and `y` right after `h + x + m`. */
  lemma {:induction false} TemplateHoldsPieces(h: string, x: string, m: string, y: string, t: string)
    ensures OccursAt(h + x + m + y + t, x, |h|)
    ensures OccursAt(h + x + m + y + t, y, |h| + |x| + |m|)
  {
    OccursInConcat(h, x, m + y + t);
    assert h + x + m + y + t == h + x + (m + y + t);
    OccursInConcat(h + x + m, y, t);
  }

  /** The critique input quotes the user's question and then the tech proposal, both verbatim. */
  lemma {:induction false} BusinessContextCarriesBoth(userInput: string, techResponse: string)
    ensures var ctx := BusinessContext(userInput, techResponse);
      && OccursAt(ctx, userInput, |BusinessHead|)
      && OccursAt(ctx, techResponse, |BusinessHead| + |userInput| + |BusinessMid|)
  {
    TemplateHoldsPieces(BusinessHead, userInput, BusinessMid, techResponse, BusinessTail);
  }

  /** The synthesis input holds the question, the proposal and the critique verbatim, in that order. */
  lemma {:induction false} SynthesisContextCarriesAll(userInput: string, techResponse: string, businessResponse: string)
    ensures var ctx := SynthesisContext(userInput, techResponse, businessResponse);
      var t := |SynthesisHead| + |userInput| + |SynthesisTechLabel|;
      && OccursAt(ctx, userInput, |SynthesisHead|)
      && OccursAt(ctx, techResponse, t)
      && OccursAt(ctx, businessResponse, t + |techResponse| + |SynthesisBusinessLabel|)
  {
    var front := SynthesisHead + userInput + SynthesisTechLabel + techResponse + SynthesisBusinessLabel;
    TemplateHoldsPieces(SynthesisHead, userInput, SynthesisTechLabel, techResponse,
      SynthesisBusinessLabel + businessResponse + SynthesisTail);
    OccursInConcat(front, businessResponse, SynthesisTail);
    assert SynthesisContext(userInput, techResponse, businessResponse) == front + businessResponse + SynthesisTail;
    assert front + businessResponse + SynthesisTail ==
      SynthesisHead + userInput + SynthesisTechLabel + techResponse + (SynthesisBusinessLabel + businessResponse + SynthesisTail);
  }

  // ---------------------------------------------------------------------------
  // One turn: backend/orchestrator.py:82-151
  // ---------------------------------------------------------------------------

  datatype Persona = TechPersona | BusinessPersona

  /** The three steps of the collaboration protocol. */
  datatype Step = Propose | Critique | Synthesise

  /** What the console shows, as events; the transient "Thinking" line is not kept. */
  datatype Shown =
    | Routed(decision: Json, reasoning: Json)
    | AgentReply(persona: Persona, text: string)
    | CollaborationStarted
    | Asking(step: Step)
    | Collaborative(text: string)
    | ErrorShown(fault: Fault)
    | SessionEnded

  /** The requests made and the events shown, in order. */
  datatype Outcome = Outcome(calls: seq<Call>, shown: seq<Shown>)

  function Then(first: Outcome, second: Outcome): Outcome {
    Outcome(first.calls + second.calls, first.shown + second.shown)
  }

  function PersonaPrompt(p: Persona): string {
    match p
    case TechPersona => TechAgent.SystemPrompt
    case BusinessPersona => BusinessAgent.SystemPrompt
  }

  /** TECH or BUSINESS: one persona request on the raw line, its answer printed. */
  function SingleAgent(p: Persona, userInput: string, backend: Backend): Outcome {
    var call := AgentCall(PersonaPrompt(p), userInput);
    match backend(call)
    case Answer(text) => Outcome([call], [AgentReply(p, text)])
    case Raised(reason) => Outcome([call], [ErrorShown(BackendRaised(reason))])
  }

  /** BOTH: propose, critique, synthesise; a raised request ends the protocol there. */
  function Collaborate(userInput: string, backend: Backend): Outcome {
    var techCall := AgentCall(TechAgent.SystemPrompt, userInput);
    match backend(techCall)
    case Raised(reason) => Outcome([techCall], [Asking(Propose), ErrorShown(BackendRaised(reason))])
    case Answer(tech) =>
      var businessCall := AgentCall(BusinessAgent.SystemPrompt, BusinessContext(userInput, tech));
      match backend(businessCall)
      case Raised(reason) =>
        Outcome([techCall, businessCall], [Asking(Propose), Asking(Critique), ErrorShown(BackendRaised(reason))])
      case Answer(business) =>
        var synthesisCall := AgentCall(SynthesizerSystemPrompt, SynthesisContext(userInput, tech, business));
        var steps := [Asking(Propose), Asking(Critique), Asking(Synthesise)];
        match backend(synthesisCall)
        case Raised(reason) =>
          Outcome([techCall, businessCall, synthesisCall], steps + [ErrorShown(BackendRaised(reason))])
        case Answer(merged) =>
          Outcome([techCall, businessCall, synthesisCall], steps + [Collaborative(merged)])
  }

  function Dispatch(userInput: string, d: Decision, backend: Backend): Outcome {
    match d
    case Tech => SingleAgent(TechPersona, userInput, backend)
    case Business => SingleAgent(BusinessPersona, userInput, backend)
    case Both => Then(Outcome([], [CollaborationStarted]), Collaborate(userInput, backend))
    case Unrecognised => Outcome([], [])
  }

  /** One non-blank, non-quit line: route it, then run what the decision selects. */
  function RoutedTurn(userInput: string, backend: Backend, parse: Parser): Outcome {
    var routerCall := RouterCall(userInput);
    match ParseRouting(backend(routerCall), parse)
    case Err(fault) => Outcome([routerCall], [ErrorShown(fault)])
    case Ok(r) =>
      Then(Outcome([routerCall], [Routed(r.decision, r.reasoning)]), Dispatch(userInput, Classify(r.decision), backend))
  }

  /** The routing result a line gets. */
  function RoutingOf(userInput: string, backend: Backend, parse: Parser): Result<Routing, Fault> {
    ParseRouting(backend(RouterCall(userInput)), parse)
  }

  /** Every turn starts with the router request; a routing fault is the only thing shown after it. */
  lemma RouterCallComesFirst(userInput: string, backend: Backend, parse: Parser)
    ensures var o := RoutedTurn(userInput, backend, parse);
      && 1 <= |o.calls| <= 4
      && o.calls[0] == RouterCall(userInput)
      && (forall k :: 1 <= k < |o.calls| ==> o.calls[k].mode == FreeText)
      && (RoutingOf(userInput, backend, parse).Err? ==>
            o == Outcome([RouterCall(userInput)], [ErrorShown(RoutingOf(userInput, backend, parse).error)]))
  {
    var routing := RoutingOf(userInput, backend, parse);
    if routing.Ok? {
      var d := Dispatch(userInput, Classify(routing.value.decision), backend);
      DispatchMakesPersonaCalls(userInput, Classify(routing.value.decision), backend);
      assert RoutedTurn(userInput, backend, parse).calls == [RouterCall(userInput)] + d.calls;
    }
  }

  /** What a decision dispatches is at most three plain persona requests. */
  lemma DispatchMakesPersonaCalls(userInput: string, d: Decision, backend: Backend)
    ensures var calls := Dispatch(userInput, d, backend).calls;
      |calls| <= 3 && forall k :: 0 <= k < |calls| ==> calls[k].mode == FreeText
  {
    if d == Both {
      var c := Collaborate(userInput, backend);
      assert Dispatch(userInput, d, backend).calls == c.calls;
    }
  }

  /** TECH and BUSINESS make exactly one persona request, with that persona's prompt and the raw line. */
  lemma {:induction false} SingleDecisionMakesOneCall(userInput: string, backend: Backend, parse: Parser, p: Persona)
    requires RoutingOf(userInput, backend, parse).Ok?
    requires Classify(RoutingOf(userInput, backend, parse).value.decision) == (if p == TechPersona then Tech else Business)
    ensures var o := RoutedTurn(userInput, backend, parse);
      var call := AgentCall(PersonaPrompt(p), userInput);
      && o.calls == [RouterCall(userInput), call]
      && call.messages == [Message(System, PersonaPrompt(p)), Message(User, userInput)]
      && |o.shown| == 2
      && (backend(call).Answer? ==> o.shown[1] == AgentReply(p, backend(call).content))
      && (backend(call).Raised? ==> o.shown[1] == ErrorShown(BackendRaised(backend(call).reason)))
  {
    EmptyContextInsertsNothing(PersonaPrompt(p), userInput);
  }

  /** A decision outside TECH, BUSINESS and BOTH makes no persona request at all. */
  lemma UnrecognisedDecisionCallsNoAgent(userInput: string, backend: Backend, parse: Parser)
    requires RoutingOf(userInput, backend, parse).Ok?
    requires Classify(RoutingOf(userInput, backend, parse).value.decision) == Unrecognised
    ensures var r := RoutingOf(userInput, backend, parse).value;
      RoutedTurn(userInput, backend, parse) == Outcome([RouterCall(userInput)], [Routed(r.decision, r.reasoning)])
  {
  }

  /**
   * BOTH with three answers: exactly three persona requests, tech then business
   * then synthesiser, each later input built from the earlier answers, and the
   * synthesiser's answer printed last.
   */
  lemma {:induction false} BothRunsThreeStepsInOrder(userInput: string, backend: Backend, parse: Parser)
    requires RoutingOf(userInput, backend, parse).Ok?
    requires Classify(RoutingOf(userInput, backend, parse).value.decision) == Both
    requires backend(AgentCall(TechAgent.SystemPrompt, userInput)).Answer?
    ensures var tech := backend(AgentCall(TechAgent.SystemPrompt, userInput)).content;
      var businessCall := AgentCall(BusinessAgent.SystemPrompt, BusinessContext(userInput, tech));
      var o := RoutedTurn(userInput, backend, parse);
      && |o.calls| >= 3
      && o.calls[1] == AgentCall(TechAgent.SystemPrompt, userInput)
      && o.calls[2] == businessCall
      && OccursAt(businessCall.messages[1].content, userInput, |BusinessHead|)
      && OccursAt(businessCall.messages[1].content, tech, |BusinessHead| + |userInput| + |BusinessMid|)
      && (backend(businessCall).Answer? ==>
            var business := backend(businessCall).content;
            var synthesisCall := AgentCall(SynthesizerSystemPrompt, SynthesisContext(userInput, tech, business));
            && o.calls == [RouterCall(userInput), o.calls[1], businessCall, synthesisCall]
            && (backend(synthesisCall).Answer? ==>
                  o.shown[|o.shown| - 1] == Collaborative(backend(synthesisCall).content)))
  {
    var tech := backend(AgentCall(TechAgent.SystemPrompt, userInput)).content;
    BusinessContextCarriesBoth(userInput, tech);
  }

  /** A fault is shown at most once per turn, and nothing is shown after it. */
  lemma FaultEndsTurn(userInput: string, backend: Backend, parse: Parser)
    ensures var o := RoutedTurn(userInput, backend, parse);
      forall k :: 0 <= k < |o.shown| && o.shown[k].ErrorShown? ==> k == |o.shown| - 1
  {
  }

  /** The turn as the source runs it: accumulate requests and output until done or until a request raises. */
  method RouteAndDispatch(userInput: string, backend: Backend, parse: Parser)
    returns (calls: seq<Call>, shown: seq<Shown>)
    ensures Outcome(calls, shown) == RoutedTurn(userInput, backend, parse)
  {
    var routerCall := RouterCall(userInput);
    calls := [routerCall];
    var routing := ParseRouting(backend(routerCall), parse);
    if routing.Err? {
      shown := [ErrorShown(routing.error)];
      return;
    }
    var decision := routing.value.decision;
    shown := [Routed(decision, routing.value.reasoning)];
    var d := Classify(decision);
    if d == Tech || d == Business {
      var p := if d == Tech then TechPersona else BusinessPersona;
      var call, reply := GetAgentResponse(PersonaPrompt(p), userInput, None, backend);
      calls := calls + [call];
      if reply.Raised? {
        shown := shown + [ErrorShown(BackendRaised(reply.reason))];
        return;
      }
      shown := shown + [AgentReply(p, reply.content)];
    } else if d == Both {
      shown := shown + [CollaborationStarted, Asking(Propose)];
      var techCall, tech := GetAgentResponse(TechAgent.SystemPrompt, userInput, None, backend);
      calls := calls + [techCall];
      if tech.Raised? {
        shown := shown + [ErrorShown(BackendRaised(tech.reason))];
        return;
      }
      shown := shown + [Asking(Critique)];
      var businessContext := BusinessContext(userInput, tech.content);
      var businessCall, business := GetAgentResponse(BusinessAgent.SystemPrompt, businessContext, None, backend);
      calls := calls + [businessCall];
      if business.Raised? {
        shown := shown + [ErrorShown(BackendRaised(business.reason))];
        return;
      }
      shown := shown + [Asking(Synthesise)];
      var synthesisContext := SynthesisContext(userInput, tech.content, business.content);
      var synthesisCall := Call(FreeText, [Message(System, SynthesizerSystemPrompt), Message(User, synthesisContext)]);
      EmptyContextInsertsNothing(SynthesizerSystemPrompt, synthesisContext);
      var merged := backend(synthesisCall);
      calls := calls + [synthesisCall];
      if merged.Raised? {
        shown := shown + [ErrorShown(BackendRaised(merged.reason))];
        return;
      }
      shown := shown + [Collaborative(merged.content)];
    }
  }

  // ---------------------------------------------------------------------------
  // The session loop: backend/orchestrator.py:68-80, 150-151
  // ---------------------------------------------------------------------------

  /** The whole session over the lines typed; a quit command ends it, a blank line is skipped. */
  function Session(inputs: seq<string>, backend: Backend, parse: Parser): Outcome
    decreases |inputs|
  {
    if inputs == [] then Outcome([], [])
    else if IsQuitCommand(inputs[0]) then Outcome([], [SessionEnded])
    else if IsBlank(inputs[0]) then Session(inputs[1..], backend, parse)
    else Then(RoutedTurn(inputs[0], backend, parse), Session(inputs[1..], backend, parse))
  }

  /** The JSON-mode requests among `calls`: the router requests. */
  function RouterRequests(calls: seq<Call>): seq<Call> {
    if calls == [] then []
    else (if calls[0].mode == JsonObject then [calls[0]] else []) + RouterRequests(calls[1..])
  }

  lemma {:induction false} RouterRequestsAppend(a: seq<Call>, b: seq<Call>)
    ensures RouterRequests(a + b) == RouterRequests(a) + RouterRequests(b)
  {
    if a == [] {
      assert a + b == b;
    } else {
      assert (a + b)[1..] == a[1..] + b;
      RouterRequestsAppend(a[1..], b);
    }
  }

  lemma {:induction false} TurnRoutesOnce(userInput: string, backend: Backend, parse: Parser)
    ensures RouterRequests(RoutedTurn(userInput, backend, parse).calls) == [RouterCall(userInput)]
  {
    var calls := RoutedTurn(userInput, backend, parse).calls;
    RouterCallComesFirst(userInput, backend, parse);
    assert calls == [calls[0]] + calls[1..];
    RouterRequestsAppend([calls[0]], calls[1..]);
    var k := |calls| - 1;
    assert forall j :: 1 <= j < |calls| ==> calls[j].mode == FreeText;
    if k >= 1 {
      assert RouterRequests(calls[1..]) == [] by { NoJsonRequests(calls[1..]); }
    }
  }

  lemma {:induction false} NoJsonRequests(calls: seq<Call>)
    requires forall j :: 0 <= j < |calls| ==> calls[j].mode == FreeText
    ensures RouterRequests(calls) == []
  {
    if calls != [] {
      NoJsonRequests(calls[1..]);
    }
  }

  /**
   * Every submitted line is routed exactly once, in order, and nothing else is
   * routed: a fault in one turn does not stop the next line from being routed.
   */
  lemma {:induction false} SessionRoutesEverySubmittedLine(inputs: seq<string>, backend: Backend, parse: Parser)
    ensures var routed := RouterRequests(Session(inputs, backend, parse).calls);
      && |routed| == |Submitted(inputs)|
      && forall k :: 0 <= k < |routed| ==> routed[k] == RouterCall(Submitted(inputs)[k])
    decreases |inputs|
  {
    if inputs == [] || IsQuitCommand(inputs[0]) {
    } else if IsBlank(inputs[0]) {
      SessionRoutesEverySubmittedLine(inputs[1..], backend, parse);
    } else {
      var turn := RoutedTurn(inputs[0], backend, parse);
      var rest := Session(inputs[1..], backend, parse);
      SessionRoutesEverySubmittedLine(inputs[1..], backend, parse);
      TurnRoutesOnce(inputs[0], backend, parse);
      RouterRequestsAppend(turn.calls, rest.calls);
      assert Submitted(inputs) == [inputs[0]] + Submitted(inputs[1..]);
    }
  }

  /** Lines before a quit command run one after another, whatever faults they meet. */
  lemma {:induction false} SessionOfConcat(a: seq<string>, b: seq<string>, backend: Backend, parse: Parser)
    requires forall k :: 0 <= k < |a| ==> !IsQuitCommand(a[k])
    ensures Session(a + b, backend, parse) == Then(Session(a, backend, parse), Session(b, backend, parse))
    decreases |a|
  {
    if a == [] {
      assert a + b == b;
    } else {
      assert (a + b)[0] == a[0];
      assert (a + b)[1..] == a[1..] + b;
      SessionOfConcat(a[1..], b, backend, parse);
      var sa := Session(a[1..], backend, parse);
      var sb := Session(b, backend, parse);
      if !IsBlank(a[0]) {
        var t := RoutedTurn(a[0], backend, parse);
        assert t.calls + (sa.calls + sb.calls) == (t.calls + sa.calls) + sb.calls;
        assert t.shown + (sa.shown + sb.shown) == (t.shown + sa.shown) + sb.shown;
      }
    }
  }

  /** A quit command ends the session: the lines after it are never read. */
  lemma {:induction false} QuitDiscardsRest(a: seq<string>, line: string, b: seq<string>, backend: Backend, parse: Parser)
    requires forall k :: 0 <= k < |a| ==> !IsQuitCommand(a[k])
    requires IsQuitCommand(line)
    ensures Session(a + [line] + b, backend, parse) == Then(Session(a, backend, parse), Outcome([], [SessionEnded]))
  {
    SessionOfConcat(a, [line] + b, backend, parse);
    assert a + [line] + b == a + ([line] + b);
  }

  /** A blank line makes no request and shows nothing. */
  lemma {:induction false} BlankLineIgnored(a: seq<string>, line: string, b: seq<string>, backend: Backend, parse: Parser)
    requires IsBlank(line)
    ensures Session(a + [line] + b, backend, parse) == Session(a + b, backend, parse)
    decreases |a|
  {
    if a == [] {
      assert a + [line] + b == [line] + b;
      assert a + b == b;
      assert !IsQuitCommand(line) by {
        if IsQuitCommand(line) { QuitCommandIsNotBlank(line); }
      }
      assert ([line] + b)[1..] == b;
    } else {
      assert (a + [line] + b)[0] == a[0] && (a + b)[0] == a[0];
      assert (a + [line] + b)[1..] == a[1..] + [line] + b;
      assert (a + b)[1..] == a[1..] + b;
      BlankLineIgnored(a[1..], line, b, backend, parse);
    }
  }

  /** One unfolding of `Session` on the next line. */
  lemma SessionStep(inputs: seq<string>, backend: Backend, parse: Parser)
    requires inputs != []
    ensures IsQuitCommand(inputs[0]) ==> Session(inputs, backend, parse) == Outcome([], [SessionEnded])
    ensures !IsQuitCommand(inputs[0]) && IsBlank(inputs[0]) ==>
      Session(inputs, backend, parse) == Session(inputs[1..], backend, parse)
    ensures !IsQuitCommand(inputs[0]) && !IsBlank(inputs[0]) ==>
      Session(inputs, backend, parse) == Then(RoutedTurn(inputs[0], backend, parse), Session(inputs[1..], backend, parse))
  {
  }

  /** `run_orchestrator`: the `while True` loop with its `break`, `continue` and per-turn `except`. */
  method RunOrchestrator(inputs: seq<string>, backend: Backend, parse: Parser)
    returns (calls: seq<Call>, shown: seq<Shown>)
    ensures Outcome(calls, shown) == Session(inputs, backend, parse)
  {
    ghost var spec := Session(inputs, backend, parse);
    calls, shown := [], [];
    var i := 0;
    while i < |inputs|
      invariant 0 <= i <= |inputs|
      invariant Then(Outcome(calls, shown), Session(inputs[i..], backend, parse)) == spec
      decreases |inputs| - i
    {
      var line := inputs[i];
      SessionStep(inputs[i..], backend, parse);
      assert inputs[i..][1..] == inputs[i + 1..];
      if IsQuitCommand(line) {
        shown := shown + [SessionEnded];
        return;
      }
      i := i + 1;
      if IsBlank(line) {
        continue;
      }
      var turnCalls, turnShown := RouteAndDispatch(line, backend, parse);
      ghost var rest := Session(inputs[i..], backend, parse);
      assert calls + (turnCalls + rest.calls) == (calls + turnCalls) + rest.calls;
      assert shown + (turnShown + rest.shown) == (shown + turnShown) + rest.shown;
      calls, shown := calls + turnCalls, shown + turnShown;
    }
    assert inputs[i..] == [];
    assert calls + [] == calls && shown + [] == shown;
  }
}
