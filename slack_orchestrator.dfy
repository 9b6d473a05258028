/**
 * backend/slack_orchestrator.py: the orchestrator behind a Slack `app_mention`
 * handler. The mention is stripped from the text; an empty question gets a
 * greeting; otherwise the router decides, the status message is updated, the
 * selected personas answer, and one final post carries the result. Any
 * exception after the status message yields exactly one error post instead.
 */
module SlackOrchestrator {
  import opened Wrappers
  import opened Text
  import opened JsonValues
  import opened Llm
  import opened Orchestrator
  import TechAgent
  import BusinessAgent

  // ---------------------------------------------------------------------------
  // Input normalisation: backend/slack_orchestrator.py:34-35
  // ---------------------------------------------------------------------------

  /** How Slack writes a mention of the bot inside a message. */
  function MentionToken(botId: string): (token: string)
    ensures |token| == |botId| + 3 && token[..2] == "<@" && token[|token| - 1] == '>'
    ensures token[2..|token| - 1] == botId
  {
    "<@" + botId + ">"
  }

  /** `text.replace(f"<@{bot_id}>", "").strip()`. */
  function CleanText(text: string, botId: string): string {
    Strip(RemoveAll(text, MentionToken(botId)))
  }

  /**
   * The cleaned text is the text cut at every mention, the pieces glued back
   * together and trimmed; a text without a mention is only trimmed.
   */
  lemma {:induction false} CleanTextDropsMentions(text: string, botId: string)
    ensures CleanText(text, botId) == Strip(Concat(Split(text, MentionToken(botId))))
    ensures Join(Split(text, MentionToken(botId)), MentionToken(botId)) == text
    ensures forall k :: 0 <= k < |Split(text, MentionToken(botId))| ==>
      Free(Split(text, MentionToken(botId))[k], MentionToken(botId))
    ensures Free(text, MentionToken(botId)) ==> CleanText(text, botId) == Strip(text)
  {
    var token := MentionToken(botId);
    RemoveAllIsConcatOfSplit(text, token);
    SplitJoinRoundTrip(text, token);
    SplitPiecesAreFree(text, token);
    if Free(text, token) {
      RemoveAllOfFree(text, token);
    }
  }

  // ---------------------------------------------------------------------------
  // What the handler does, in order: backend/slack_orchestrator.py:37-96
  // ---------------------------------------------------------------------------

  /**
   * One observable step: a model request, a `say` (optionally in the status
   * message's thread), the `chat_update` of the status message, or the
   * error post of the `except` branch.
   */
  datatype Effect =
    | Ask(call: Call)
    | Say(text: string, thread: Option<string>)
    | UpdateStatus(channel: Option<string>, ts: string, decision: Json, reasoning: Json)
    | SayError(fault: Fault)

  function Greeting(user: Option<string>): string {
    "Hi <@" + Str(user) + ">! I'm the Multi-Agent Orchestrator. Ask me a question!"
  }

  const AnalyzingText: string := "\U{1F9E0} *Orchestrator:* Analyzing request..."
  const TechWorkingText: string := "\U{1F6E0}\U{FE0F} *Tech Agent* is working..."
  const BusinessWorkingText: string := "\U{1F4BC} *Business Agent* is working..."
  const CollaboratingText: string := "\U{1F504} *Collaborating* (Tech \U{21C4} Business)..."
  const FinalPrefix: string := "*Final Response:*\n\n"

  function FinalText(finalResponse: string): string {
    FinalPrefix + finalResponse
  }

  /** `biz_context`: the critique step's input. */
  function BizContext(query: string, tech: string): string {
    "User Query: " + query + "\n\nTech Proposal: " + tech + "\n\nTask: Analyze cost/ROI."
  }

  /** `syn_context`: the synthesiser's input. */
  function SynContext(query: string, tech: string, business: string): string {
    "Query: " + query + "\n\nTech: " + tech + "\n\nBusiness: " + business
  }

  /** The critique input holds the question and the proposal verbatim, in that order. */
  lemma {:induction false} BizContextCarriesBoth(query: string, tech: string)
    ensures OccursAt(BizContext(query, tech), query, 12)
    ensures OccursAt(BizContext(query, tech), tech, 12 + |query| + 17)
  {
    TemplateHoldsPieces("User Query: ", query, "\n\nTech Proposal: ", tech, "\n\nTask: Analyze cost/ROI.");
  }

  /** The synthesis input holds the question, the proposal and the critique verbatim, in that order. */
  lemma {:induction false} SynContextCarriesAll(query: string, tech: string, business: string)
    ensures OccursAt(SynContext(query, tech, business), query, 7)
    ensures OccursAt(SynContext(query, tech, business), tech, 7 + |query| + 8)
    ensures OccursAt(SynContext(query, tech, business), business, 7 + |query| + 8 + |tech| + 12)
  {
    TemplateHoldsPieces("Query: ", query, "\n\nTech: ", tech, "\n\nBusiness: " + business);
    var front := "Query: " + query + "\n\nTech: " + tech + "\n\nBusiness: ";
    OccursInConcat(front, business, "");
    assert front + business + "" == SynContext(query, tech, business);
    assert "Query: " + query + "\n\nTech: " + tech + ("\n\nBusiness: " + business) == SynContext(query, tech, business);
  }

  /** A persona request's result as the handler sees it: the answer, or the exception. */
  function AgentResult(reply: Reply): Result<string, Fault> {
    match reply
    case Answer(content) => Ok(content)
    case Raised(reason) => Err(BackendRaised(reason))
  }

  /** The execution step: what it does, and `final_response` or the exception it raised. */
  datatype Execution = Execution(effects: seq<Effect>, result: Result<string, Fault>)

  function Execute(query: string, d: Decision, statusTs: string, backend: Backend): Execution {
    match d
    case Tech =>
      var call := AgentCall(TechAgent.SystemPrompt, query);
      Execution([Say(TechWorkingText, Some(statusTs)), Ask(call)], AgentResult(backend(call)))
    case Business =>
      var call := AgentCall(BusinessAgent.SystemPrompt, query);
      Execution([Say(BusinessWorkingText, Some(statusTs)), Ask(call)], AgentResult(backend(call)))
    case Unrecognised => Execution([], Ok(""))
    case Both =>
      var techCall := AgentCall(TechAgent.SystemPrompt, query);
      var started := [Say(CollaboratingText, Some(statusTs)), Ask(techCall)];
      match backend(techCall)
      case Raised(reason) => Execution(started, Err(BackendRaised(reason)))
      case Answer(tech) =>
        var bizCall := AgentCall(BusinessAgent.SystemPrompt, BizContext(query, tech));
        match backend(bizCall)
        case Raised(reason) => Execution(started + [Ask(bizCall)], Err(BackendRaised(reason)))
        case Answer(business) =>
          var synCall := AgentCall(SynthesizerSystemPrompt, SynContext(query, tech, business));
          Execution(started + [Ask(bizCall), Ask(synCall)], AgentResult(backend(synCall)))
  }

  /** A cleaned, non-empty question: status message, routing, execution, closing post. */
  function RoutedMention(query: string, channel: Option<string>, statusTs: string,
                         backend: Backend, parse: Parser): seq<Effect>
  {
    var routerCall := RouterCall(query);
    var opening := [Say(AnalyzingText, None), Ask(routerCall)];
    match ParseRouting(backend(routerCall), parse)
    case Err(fault) => opening + [SayError(fault)]
    case Ok(r) =>
      var run := Execute(query, Classify(r.decision), statusTs, backend);
      var body := opening + [UpdateStatus(channel, statusTs, r.decision, r.reasoning)] + run.effects;
      match run.result
      case Err(fault) => body + [SayError(fault)]
      case Ok(finalResponse) => body + [Say(FinalText(finalResponse), None)]
  }

  /** Everything `handle_mentions` does for one mention, in order. */
  function MentionEffects(text: string, user: Option<string>, channel: Option<string>, botId: string,
                          statusTs: string, backend: Backend, parse: Parser): seq<Effect>
  {
    var query := CleanText(text, botId);
    if query == [] then [Say(Greeting(user), None)]
    else RoutedMention(query, channel, statusTs, backend, parse)
  }

  /** The execution step of `handle_mentions`, reassigning `final_response` in each branch. */
  method ExecuteDecision(query: string, d: Decision, statusTs: string, backend: Backend)
    returns (effects: seq<Effect>, result: Result<string, Fault>)
    ensures Execution(effects, result) == Execute(query, d, statusTs, backend)
  {
    var finalResponse := "";
    effects := [];
    if d == Tech || d == Business {
      var prompt := if d == Tech then TechAgent.SystemPrompt else BusinessAgent.SystemPrompt;
      effects := [Say(if d == Tech then TechWorkingText else BusinessWorkingText, Some(statusTs))];
      var call, reply := GetAgentResponse(prompt, query, None, backend);
      effects := effects + [Ask(call)];
      if reply.Raised? {
        return effects, Err(BackendRaised(reply.reason));
      }
      finalResponse := reply.content;
    } else if d == Both {
      effects := [Say(CollaboratingText, Some(statusTs))];
      var techCall, tech := GetAgentResponse(TechAgent.SystemPrompt, query, None, backend);
      effects := effects + [Ask(techCall)];
      if tech.Raised? {
        return effects, Err(BackendRaised(tech.reason));
      }
      var bizContext := BizContext(query, tech.content);
      var bizCall, biz := GetAgentResponse(BusinessAgent.SystemPrompt, bizContext, None, backend);
      effects := effects + [Ask(bizCall)];
      if biz.Raised? {
        return effects, Err(BackendRaised(biz.reason));
      }
      var synContext := SynContext(query, tech.content, biz.content);
      var synCall, syn := GetAgentResponse(SynthesizerSystemPrompt, synContext, None, backend);
      effects := effects + [Ask(synCall)];
      if syn.Raised? {
        return effects, Err(BackendRaised(syn.reason));
      }
      finalResponse := syn.content;
    }
    result := Ok(finalResponse);
  }

  /** Everything after the greeting check: the body of `handle_mentions` from line 43 on. */
  method RouteMention(query: string, channel: Option<string>, statusTs: string, backend: Backend, parse: Parser)
    returns (effects: seq<Effect>)
    ensures effects == RoutedMention(query, channel, statusTs, backend, parse)
  {
    effects := [Say(AnalyzingText, None)];
    var routerCall := RouterCall(query);
    effects := effects + [Ask(routerCall)];
    var routing := ParseRouting(backend(routerCall), parse);
    if routing.Err? {
      effects := effects + [SayError(routing.error)];
      return;
    }
    var decision := routing.value.decision;
    effects := effects + [UpdateStatus(channel, statusTs, decision, routing.value.reasoning)];
    var steps, result := ExecuteDecision(query, Classify(decision), statusTs, backend);
    effects := effects + steps;
    match result
    case Err(fault) =>
      effects := effects + [SayError(fault)];
    case Ok(finalResponse) =>
      effects := effects + [Say(FinalText(finalResponse), None)];
  }

  /** `handle_mentions`: greet when the cleaned question is empty, otherwise route it. */
  method HandleMentions(text: string, user: Option<string>, channel: Option<string>, botId: string,
                        statusTs: string, backend: Backend, parse: Parser)
    returns (effects: seq<Effect>)
    ensures effects == MentionEffects(text, user, channel, botId, statusTs, backend, parse)
  {
    var cleaned := CleanText(text, botId);
    if cleaned == [] {
      effects := [Say(Greeting(user), None)];
    } else {
      effects := RouteMention(cleaned, channel, statusTs, backend, parse);
    }
  }

  // ---------------------------------------------------------------------------
  // Properties of one mention
  // ---------------------------------------------------------------------------

  /** A mention with nothing else in it only greets: no router or persona request. */
  lemma EmptyQuestionOnlyGreets(text: string, user: Option<string>, channel: Option<string>, botId: string,
                                statusTs: string, backend: Backend, parse: Parser)
    requires CleanText(text, botId) == []
    ensures MentionEffects(text, user, channel, botId, statusTs, backend, parse) == [Say(Greeting(user), None)]
  {
  }

  /** Otherwise the status message goes out first and the router sees the cleaned text. */
  lemma QuestionIsRoutedCleaned(text: string, user: Option<string>, channel: Option<string>, botId: string,
                                statusTs: string, backend: Backend, parse: Parser)
    requires CleanText(text, botId) != []
    ensures var e := MentionEffects(text, user, channel, botId, statusTs, backend, parse);
      && |e| >= 3
      && e[0] == Say(AnalyzingText, None)
      && e[1] == Ask(RouterCall(CleanText(text, botId)))
      && e[1].call.messages[1] == Message(User, CleanText(text, botId))
  {
  }

  /** TECH and BUSINESS: one persona request on the cleaned text, whose answer is the final post. */
  lemma {:induction false} SingleDecisionAnswersDirectly(text: string, user: Option<string>, channel: Option<string>,
                                      botId: string, statusTs: string, backend: Backend, parse: Parser)
    requires CleanText(text, botId) != []
    requires RoutingOf(CleanText(text, botId), backend, parse).Ok?
    requires Classify(RoutingOf(CleanText(text, botId), backend, parse).value.decision) in {Tech, Business}
    ensures var q := CleanText(text, botId);
      var r := RoutingOf(q, backend, parse).value;
      var tech := Classify(r.decision) == Tech;
      var call := AgentCall(if tech then TechAgent.SystemPrompt else BusinessAgent.SystemPrompt, q);
      var e := MentionEffects(text, user, channel, botId, statusTs, backend, parse);
      && |e| == 6
      && e[2] == UpdateStatus(channel, statusTs, r.decision, r.reasoning)
      && e[3] == Say(if tech then TechWorkingText else BusinessWorkingText, Some(statusTs))
      && e[4] == Ask(call)
      && call.messages == [Message(System, call.messages[0].content), Message(User, q)]
      && (backend(call).Answer? ==> e[5] == Say(FinalPrefix + backend(call).content, None))
      && (backend(call).Raised? ==> e[5] == SayError(BackendRaised(backend(call).reason)))
  {
    var q := CleanText(text, botId);
    var r := RoutingOf(q, backend, parse).value;
    var tech := Classify(r.decision) == Tech;
    EmptyContextInsertsNothing(if tech then TechAgent.SystemPrompt else BusinessAgent.SystemPrompt, q);
  }

  /**
   * BOTH with three answers: tech, business and synthesiser requests in that
   * order, each later input built from the earlier answers, and the
   * synthesiser's answer as the final post.
   */
  lemma {:induction false} BothFinalIsSynthesis(text: string, user: Option<string>, channel: Option<string>,
                             botId: string, statusTs: string, backend: Backend, parse: Parser)
    requires CleanText(text, botId) != []
    requires RoutingOf(CleanText(text, botId), backend, parse).Ok?
    requires Classify(RoutingOf(CleanText(text, botId), backend, parse).value.decision) == Both
    requires backend(AgentCall(TechAgent.SystemPrompt, CleanText(text, botId))).Answer?
    requires backend(AgentCall(BusinessAgent.SystemPrompt, BizContext(CleanText(text, botId),
               backend(AgentCall(TechAgent.SystemPrompt, CleanText(text, botId))).content))).Answer?
    ensures var q := CleanText(text, botId);
      var techCall := AgentCall(TechAgent.SystemPrompt, q);
      var tech := backend(techCall).content;
      var bizCall := AgentCall(BusinessAgent.SystemPrompt, BizContext(q, tech));
      var synCall := AgentCall(SynthesizerSystemPrompt, SynContext(q, tech, backend(bizCall).content));
      var e := MentionEffects(text, user, channel, botId, statusTs, backend, parse);
      && |e| == 8
      && e[3] == Say(CollaboratingText, Some(statusTs))
      && e[4] == Ask(techCall) && e[5] == Ask(bizCall) && e[6] == Ask(synCall)
      && OccursAt(bizCall.messages[1].content, tech, 12 + |q| + 17)
      && OccursAt(synCall.messages[1].content, backend(bizCall).content, 7 + |q| + 8 + |tech| + 12)
      && (backend(synCall).Answer? ==> e[7] == Say(FinalPrefix + backend(synCall).content, None))
  {
    var q := CleanText(text, botId);
    var tech := backend(AgentCall(TechAgent.SystemPrompt, q)).content;
    var business := backend(AgentCall(BusinessAgent.SystemPrompt, BizContext(q, tech))).content;
    BizContextCarriesBoth(q, tech);
    SynContextCarriesAll(q, tech, business);
  }

  /** An unrecognised or missing decision calls no persona and posts an empty final response. */
  lemma UnrecognisedPostsEmptyFinal(text: string, user: Option<string>, channel: Option<string>,
                                    botId: string, statusTs: string, backend: Backend, parse: Parser)
    requires CleanText(text, botId) != []
    requires RoutingOf(CleanText(text, botId), backend, parse).Ok?
    requires Classify(RoutingOf(CleanText(text, botId), backend, parse).value.decision) == Unrecognised
    ensures var q := CleanText(text, botId);
      var r := RoutingOf(q, backend, parse).value;
      MentionEffects(text, user, channel, botId, statusTs, backend, parse) ==
        [Say(AnalyzingText, None), Ask(RouterCall(q)), UpdateStatus(channel, statusTs, r.decision, r.reasoning),
         Say("*Final Response:*\n\n", None)]
  {
    assert FinalText("") == FinalPrefix;
  }

  /** The final post of the `try` block, recognised by its prefix outside any thread. */
  predicate IsFinalPost(e: Effect) {
    e.Say? && e.thread.None? && FinalPrefix <= e.text
  }

  /** The execution step only makes requests and posts in the status thread. */
  lemma ExecuteStaysInThread(query: string, d: Decision, statusTs: string, backend: Backend)
    ensures var effects := Execute(query, d, statusTs, backend).effects;
      forall k :: 0 <= k < |effects| ==> effects[k].Ask? || (effects[k].Say? && effects[k].thread == Some(statusTs))
  {
  }

  /**
   * Every mention ends with exactly one closing post: the greeting, the final
   * response or the error. An error post is the last effect and no final
   * response is posted beside it.
   */
  lemma {:induction false} OneClosingPost(text: string, user: Option<string>, channel: Option<string>,
                                          botId: string, statusTs: string, backend: Backend, parse: Parser)
    ensures var e := MentionEffects(text, user, channel, botId, statusTs, backend, parse);
      && |e| >= 1
      && (forall k :: 0 <= k < |e| - 1 ==> !e[k].SayError? && !IsFinalPost(e[k]))
      && (CleanText(text, botId) != [] ==> e[|e| - 1].SayError? || IsFinalPost(e[|e| - 1]))
  {
    var q := CleanText(text, botId);
    var e := MentionEffects(text, user, channel, botId, statusTs, backend, parse);
    if q != [] {
      var opening := [Say(AnalyzingText, None), Ask(RouterCall(q))];
      assert !IsFinalPost(opening[0]) by { assert FinalPrefix[0] != AnalyzingText[0]; }
      match ParseRouting(backend(RouterCall(q)), parse)
      case Err(fault) =>
        assert e == opening + [SayError(fault)];
      case Ok(r) =>
        var run := Execute(q, Classify(r.decision), statusTs, backend);
        ExecuteStaysInThread(q, Classify(r.decision), statusTs, backend);
        var body := opening + [UpdateStatus(channel, statusTs, r.decision, r.reasoning)] + run.effects;
        assert forall k :: 0 <= k < |body| ==> !body[k].SayError? && !IsFinalPost(body[k]) by {
          forall k | 0 <= k < |body| ensures !body[k].SayError? && !IsFinalPost(body[k]) {
            if k >= 3 {
              assert body[k] == run.effects[k - 3];
            }
          }
        }
        assert e[..|e| - 1] == body;
        assert IsFinalPost(Say(FinalText(if run.result.Ok? then run.result.value else ""), None));
    } else {
      assert e == [Say(Greeting(user), None)];
    }
  }
}
