# Multi-agent orchestrator: a Dafny model

This project models the decision logic of a small multi-agent assistant.

- Two console personas, a Senior Staff Engineer and a financial planner, each keep a conversation buffer. Each streams its replies from a chat-completions service.
- A console orchestrator sends every question to a JSON-mode router. It then dispatches to one persona (`TECH`, `BUSINESS`) or runs a three-step collaboration (`BOTH`): the tech persona proposes, the business persona critiques, and a synthesiser merges the two answers. Any other decision calls no persona.
- A Slack version of the orchestrator answers mentions. It strips the mention and greets on an empty question.
- A Slack "DevBot" reads recent channel history as a transcript. On channel messages it posts only a non-empty answer that is not `NO_RESPONSE`; on a direct mention it always replies, with a fallback line when there is no answer.
- A Slack recap bot keeps an unbounded in-memory history and shows the model its last twenty entries. It posts the model's text reply and, on request, turns a summary into speech and uploads it.

The language model, `json.loads`, the speech service and Slack are not modelled. Each handler receives them as function-valued parameters:

- `Backend`: a request to its reply or exception.
- `StreamBackend`: a message list to the streamed chunks and whether the stream finished.
- `Parser`: text to an optional JSON value.
- `SpeechService`: the JSON value that arrived as `summary_text` (whatever its type) to an HTTP response or an exception.
- What Slack returned (the history fetch, the bot id, the status message's `ts`) is passed in as a value.

So every property holds for every possible answer. Each handler returns the ordered log of what it did: requests made, messages posted, status updates. A raised exception is modelled explicitly, as `Raised`, `Err` or `crashed`.

Modules, one per source file plus shared pieces:

- `Wrappers`: `Option`, `Result`.
- `Text`: Python's `strip`, the quit test, `replace`/`split`/`join`, and the loop's `Submitted` lines.
- `JsonValues`: JSON values with Python truthiness and `dict.get`.
- `Llm`: messages, requests, replies.
- `PersonaRepl`: the loop shared by `TechAgent` and `BusinessAgent`.
- `Orchestrator`, `SlackOrchestrator`, `Agent`, `Mp3Support`.

The source's imperative code is a `method`. The REPL loops, the orchestrator loop and turn, `handle_mentions`, `get_chat_context` and the recap bot's reaction are each proved equal to a specification function, and the properties are lemmas about that function. `Agent.HandleMessageEvents`, `Agent.HandleAppMentions` and `Mp3Bot.HandleMessageEvents` are stated case by case in their own `ensures`. The recap bot's global history list is a field of the `Mp3Bot` class that its handler updates.

## Model

| member | source | states |
|---|---|---|
| Text.Strip | backend/orchestrator.py:79 | The result is empty exactly when the input is all whitespace (the 29 characters Python's `isspace` accepts); otherwise it starts and ends with a non-space. It is the input with leading and trailing whitespace removed. |
| Text.StripIdempotent | backend/slack_orchestrator.py:35 | Stripping twice gives the same as stripping once. |
| Text.BlankMeansStripsToEmpty | backend/tech_agent.py:52-53 | `not s.strip()` holds exactly when `s` is all whitespace. |
| Text.QuitCommandCaseVariants | backend/tech_agent.py:47 | `s.lower() in ["quit", "exit"]` holds exactly when `s` spells quit or exit in any mix of cases. |
| Text.QuitCommandIsNotBlank | backend/orchestrator.py:75-80 | A quit command is never taken for a blank line. |
| Text.Submitted | backend/orchestrator.py:72-80 | The lines a console loop acts on: the non-blank lines before the first quit command. There are never more of them than lines typed. |
| Text.Split | backend/slack_orchestrator.py:35 | Cutting a text at a separator gives at least one piece. |
| Text.RemoveAll | backend/slack_orchestrator.py:35 | `replace(token, "")` never lengthens the text. |
| Text.SplitJoinRoundTrip | backend/slack_orchestrator.py:35 | Joining the pieces with the separator gives back the original text. |
| Text.RemoveAllIsConcatOfSplit | backend/slack_orchestrator.py:35 | Removing every occurrence is the same as cutting at every occurrence and gluing the pieces back. |
| Text.SplitHeadIsPrefix | backend/slack_orchestrator.py:35 | The first piece is a prefix of the text. |
| Text.SplitPiecesAreFree | backend/slack_orchestrator.py:35 | No piece contains the separator. |
| Text.RemoveAllOfFree | backend/slack_orchestrator.py:35 | A text without the token is left unchanged. |
| Text.JoinEndsWithLast | backend/mp3-support.py:60 | `sep.join(parts)` ends with the last part. |
| Text.Str | backend/slack_orchestrator.py:38 | An f-string renders a present string as itself and `None` as "None". |
| PersonaRepl.CollectedAppend | backend/business_agent.py:72-81 | The text of two consecutive runs of chunks is the first run's text followed by the second's. |
| PersonaRepl.CollectedSkipsEmptyChunks | backend/tech_agent.py:71 | A chunk without content adds nothing. |
| PersonaRepl.CollectedContainsChunk | backend/tech_agent.py:78 | Every chunk's content occurs in the full response, right after the text of the chunks before it. |
| PersonaRepl.DrainStream | backend/tech_agent.py:68-78 | The `for` loop with `+=` yields exactly the in-order concatenation of the non-`None` chunk contents. |
| PersonaRepl.UserTurnsAppend | backend/tech_agent.py:56 | The user lines of two buffers put together are those of the first, then those of the second. |
| PersonaRepl.ConverseOnlyAppends | backend/tech_agent.py:41-85 | The buffer only grows: the start is a prefix of the final buffer. There is one request per submitted line. Each request is a prefix of the final buffer that is longer than the start, and it ends with that line as a user message (appended before the call). |
| PersonaRepl.ConverseRecordsEveryLine | backend/business_agent.py:46-87 | The final buffer's user messages are the starting ones followed by every submitted line in order: quit lines end the loop, blank lines are skipped, and failed turns still record their line. |
| PersonaRepl.FaultFreeTurnsAlternate | backend/tech_agent.py:56-82 | When every stream finishes and no line is blank or quit, n turns add exactly 2n entries: a user message holding line k, then an assistant reply. |
| PersonaRepl.FailedTurnLeavesUserMessage | backend/business_agent.py:60-87 | A stream that raises leaves its user message in the buffer without a reply, and the loop goes on from there. |
| PersonaRepl.RunPersonaAgent | backend/tech_agent.py:36-85 | The `while` loop with `break`/`continue` and the per-turn `except` ends with the buffer and requests the specification `Converse` gives. |
| TechAgent.RunTechAgent | backend/tech_agent.py:36-85 | The buffer starts with one system message holding the persona's prompt. Its user messages are exactly the submitted lines. Each request ends with its line. Fault-free runs end with 1 + 2n entries. |
| BusinessAgent.RunBusinessAgent | backend/business_agent.py:40-87 | The same guarantees for the business persona, whose buffer starts with its own prompt. |
| Orchestrator.AgentMessages | backend/orchestrator.py:54-59 | The system entry comes first, then the context entries unchanged and in order, then the user entry. The length is 2 + the number of context entries. |
| Orchestrator.EmptyContextInsertsNothing | backend/orchestrator.py:57-58 | An empty context list and no context list build the same two-entry request. |
| Orchestrator.GetAgentResponse | backend/orchestrator.py:54-66 | Building the list with `append`/`extend` gives exactly `AgentMessages`; the reply is the service's reply to that request. |
| Orchestrator.ParseRouting | backend/orchestrator.py:84-94 | A raised request, undecodable JSON and a non-object are three distinct faults. For an object, each key reads as its value, or as `None` when missing. |
| Orchestrator.Classify | backend/orchestrator.py:100-108 | TECH, BUSINESS and BOTH are selected exactly by those three strings. |
| Orchestrator.UnlistedDecisionsAreUnrecognised | backend/orchestrator.py:93-108 | A missing key (`None`), a lower-case spelling or any other value selects no branch. |
| Orchestrator.BusinessContextCarriesBoth | backend/orchestrator.py:117-126 | The critique input contains the user's question and then the tech answer, verbatim, at fixed offsets. |
| Orchestrator.SynthesisContextCarriesAll | backend/orchestrator.py:130-146 | The synthesis input contains the question, the tech answer and the business answer, verbatim and in that order. |
| Orchestrator.RouterCallComesFirst | backend/orchestrator.py:84-97 | Every turn starts with the JSON-mode router request on the raw line and makes at most four requests, all others plain. A routing fault shows only the error. |
| Orchestrator.SingleDecisionMakesOneCall | backend/orchestrator.py:100-106 | TECH or BUSINESS makes exactly one persona request, with that persona's prompt and the raw line, and shows its answer or its error. |
| Orchestrator.UnrecognisedDecisionCallsNoAgent | backend/orchestrator.py:93-108 | Any other decision makes no persona request at all: only the routing line is shown. |
| Orchestrator.BothRunsThreeStepsInOrder | backend/orchestrator.py:108-148 | BOTH requests the tech persona on the raw line, then the business persona on the context built from the tech answer, then the synthesiser on the context built from both answers. The synthesiser's answer is shown last. |
| Orchestrator.FaultEndsTurn | backend/orchestrator.py:150-151 | An error is shown at most once per turn and nothing follows it. |
| Orchestrator.RouteAndDispatch | backend/orchestrator.py:82-151 | The turn as written, with early exits on exceptions, does exactly what the specification `RoutedTurn` does. |
| Orchestrator.SessionRoutesEverySubmittedLine | backend/orchestrator.py:72-151 | Over a session, the router requests are exactly one per submitted line, in order. A fault in one turn does not stop the next line from being routed. |
| Orchestrator.SessionOfConcat | backend/orchestrator.py:72-151 | Lines before any quit command run turn after turn, whatever faults they meet. |
| Orchestrator.QuitDiscardsRest | backend/orchestrator.py:75-77 | A quit command ends the session and the lines after it are never read. |
| Orchestrator.BlankLineIgnored | backend/orchestrator.py:79-80 | A blank line makes no request and shows nothing. |
| Orchestrator.RunOrchestrator | backend/orchestrator.py:68-151 | The `while True` loop does exactly what the specification `Session` does. |
| SlackOrchestrator.MentionToken | backend/slack_orchestrator.py:35 | The mention token is `<@`, the bot id, then `>`. |
| SlackOrchestrator.CleanTextDropsMentions | backend/slack_orchestrator.py:35 | `cleaned_text` is the text cut at every mention, glued back and stripped. The cut pieces hold no mention and rejoin to the text. A text without a mention is only stripped. |
| SlackOrchestrator.BizContextCarriesBoth | backend/slack_orchestrator.py:84 | `biz_context` holds the question and the tech answer verbatim, in that order, at fixed offsets. |
| SlackOrchestrator.SynContextCarriesAll | backend/slack_orchestrator.py:88 | `syn_context` holds the question, the tech answer and the business answer verbatim, in that order. |
| SlackOrchestrator.ExecuteDecision | backend/slack_orchestrator.py:66-89 | Reassigning `final_response` branch by branch gives exactly the specification `Execute`. |
| SlackOrchestrator.RouteMention | backend/slack_orchestrator.py:43-96 | The `try` body with its `except` gives exactly the specification `RoutedMention`. |
| SlackOrchestrator.HandleMentions | backend/slack_orchestrator.py:27-96 | The handler does exactly what the specification `MentionEffects` does. |
| SlackOrchestrator.EmptyQuestionOnlyGreets | backend/slack_orchestrator.py:37-39 | An empty cleaned question yields only the greeting: no router or persona request. |
| SlackOrchestrator.QuestionIsRoutedCleaned | backend/slack_orchestrator.py:43-55 | Otherwise the status message comes first and the router sees the cleaned text. |
| SlackOrchestrator.SingleDecisionAnswersDirectly | backend/slack_orchestrator.py:60-92 | TECH or BUSINESS: status update, the working notice in the status thread, exactly one persona request on the cleaned text. Its answer is the final post, or its error is the error post. |
| SlackOrchestrator.BothFinalIsSynthesis | backend/slack_orchestrator.py:77-92 | BOTH: tech, business and synthesiser requests in that order, on the exact `biz_context` and `syn_context`. The synthesiser's answer is the final post. |
| SlackOrchestrator.UnrecognisedPostsEmptyFinal | backend/slack_orchestrator.py:66-92 | Any other decision calls no persona, and the final post is `*Final Response:*` followed by two newlines and an empty body. |
| SlackOrchestrator.ExecuteStaysInThread | backend/slack_orchestrator.py:69-89 | The execution step only makes requests and posts in the status message's thread. |
| SlackOrchestrator.OneClosingPost | backend/slack_orchestrator.py:92-96 | A question ends with exactly one closing post, the final response or the error. No error or final post comes before it, so an exception means one error post and no final post. |
| Agent.QueryLlmAgent | backend/agent.py:40-52 | `None` exactly when the request raised or the stripped answer is `NO_RESPONSE`; otherwise the stripped answer. |
| Agent.ResponseIsCleanSpeech | backend/agent.py:48-49 | A returned answer is never the sentinel and has no surrounding whitespace. |
| Agent.OlderMessagesComeFirst | backend/agent.py:64-66 | Messages fetched later (older) come earlier in the transcript: the transcript lists the fetch in reverse. |
| Agent.ReverseIndex | backend/agent.py:66 | Position k of `reversed(s)` holds the k-th element from the end. |
| Agent.SubtypedMessageIsSkipped | backend/agent.py:70-71 | A message with a `subtype` leaves the transcript as if it had not been fetched. |
| Agent.KeptMessageLine | backend/agent.py:67-72 | A kept message contributes exactly `User {user}: {text}` and a newline, with "Unknown" and "" for missing keys. |
| Agent.NoHistoryGivesEmptyTranscript | backend/agent.py:62-77 | A failed fetch or a reply without messages gives "". |
| Agent.GetChatContext | backend/agent.py:55-77 | The loop over `reversed(messages)` with `continue` and `+=` builds exactly `Transcript`. |
| Agent.HandleMessageEvents | backend/agent.py:81-104 | The bot's own messages are ignored. Otherwise it fetches 15 messages, then makes one request with the transcript. It posts exactly when the answer is present and non-empty, and what it posts is never the sentinel. |
| Agent.HandleAppMentions | backend/agent.py:108-121 | The request carries the transcript followed by the override marker. Exactly one message is said: the answer, or the fixed fallback when there is none; never empty, never the sentinel. |
| Mp3Support.TextToSpeech | backend/mp3-support.py:39-48 | The audio bytes exactly when the service answered status 200; `None` for any other status or an exception. |
| Mp3Support.ContextSlice | backend/mp3-support.py:59 | `history[-20:]` is the last min(20, length) entries. |
| Mp3Support.AnalyzeAndGenerateJson | backend/mp3-support.py:86-102 | A raised request gives `None`; otherwise the result of decoding the answer (`None` when decoding raised). |
| Mp3Support.TranscriptEndsWithLatest | backend/mp3-support.py:59-60 | The joined context always ends with the newest history entry. |
| Mp3Support.NoDecisionNoAction | backend/mp3-support.py:125-126 | No decision or a falsy one does nothing; a truthy non-object raises before any post. |
| Mp3Support.ReplyPostedWhenPresent | backend/mp3-support.py:130-135 | The text reply is posted, first, exactly when `reply_text` is truthy; a missing key posts nothing. |
| Mp3Support.AudioOnlyWhenAsked | backend/mp3-support.py:129-154 | Speech is requested exactly when `trigger_audio` and `summary_text` are truthy. Then either the audio is uploaded (status 200 with a non-empty body) or the fixed error text is posted. A missing trigger means no audio. |
| Mp3Support.ActOnDecision | backend/mp3-support.py:125-154 | The flag handling as written gives exactly the specification `React`. |
| Mp3Support.Mp3Bot.constructor | backend/mp3-support.py:21 | The history starts empty. |
| Mp3Support.Mp3Bot.HandleMessageEvents | backend/mp3-support.py:105-154 | The bot's own messages leave the history unchanged and do nothing. Otherwise exactly one `User {id}: {text}` entry is appended (never truncated) before the request, which sees the updated history. |
| Mp3Support.AnalysisSeesLatestMessage | backend/mp3-support.py:117-118 | After a message is appended, the context holds min(20, length) entries and the transcript ends with that message's entry. The request ends with the raw text. |

## Left out

- The chat-completions service, `json.loads`, the ElevenLabs service and Slack are parameters, not models. The same request always gets the same answer in one run, so two identical requests in one run are assumed to get identical replies.
- Model names and sampling temperatures are not part of a request. The synthesiser's inline request in backend/orchestrator.py:140-146 therefore equals a `get_agent_response` request; the two differ in the source only in temperature.
- Prompt texts: `ROUTER_SYSTEM_PROMPT`, `SYNTHESIZER_SYSTEM_PROMPT`, the persona prompts and the DevBot and recap prompts are distinct stand-in constants, since no branch depends on their wording.
- Console mechanics and logging (`print`, `flush`, `end="\r"`, banners, and the `logging.error` / `logging.info` / `logger.info` / `logger.error` calls in agent.py, mp3-support.py and slack_orchestrator.py, which only write to the log) and the partial echo of chunks while streaming. The orchestrator's console output is modelled as events, not text, and its transient "Thinking" line is not kept.
- `input()` at end of file raises `EOFError`, which the loops catch and then retry forever. The model's input is a finite list of lines and the loop ends when it runs out.
- Slack transport: `auth_test`, `conversations_history`, `chat_postMessage`, `chat_update`, `files_upload_v2` and `say` are assumed to succeed and appear only as entries in the effect log. Failures of `chat_update` inside the `try` of backend/slack_orchestrator.py:60-64 are therefore not modelled.
- SlackOrchestrator.HandleMentions: the status update records the decision and reasoning as JSON values, not the formatted text, because Python's `str()` of arbitrary JSON values is not modelled. The error post records the fault, not the exception's text.
- Message contents that are `None` (a reply whose `content` is null, a Slack event whose `text` key holds null) are not modelled: replies and texts are strings.
- Agent.HandleMessageEvents: Slack history fields are modelled as absent or a string. Other JSON values in `user`/`text` are not rendered.
- Python's `str.lower()` is modelled on ASCII letters only. For the quit/exit test this is the same: the only non-ASCII character that lowercases to one of those letters (U+0130) adds a combining mark, so it can never spell quit or exit.
- Concurrency of Slack event handlers on the recap bot's shared history: handlers are sequential calls on the `Mp3Bot` object.
- backend/server.py, the TSX front ends, `load_dotenv`/`os.getenv`/`sys.exit`: not part of this model.
