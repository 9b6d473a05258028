/**
 * backend/mp3-support.py: a Slack listener that keeps every channel message in
 * an in-memory history, asks the model (in JSON mode) whether the latest
 * message wants a spoken recap, posts the model's text reply, and, when asked,
 * turns the summary into speech and uploads it.
 */
module Mp3Support {
  import opened Wrappers
  import opened Text
  import opened JsonValues
  import opened Llm

  /** `CONTEXT_LIMIT`: how many recent history entries the model sees. */
  const ContextLimit: nat := 20

  /** Stand-in for the analysis system prompt literal. */
  const AnalysisPrompt: string := "[mp3-support system_prompt: answer {trigger_audio, summary_text, reply_text} as JSON]"

  const AudioError: string := "Error generating audio file."
  const AudioFilename: string := "summary.mp3"
  const AudioTitle: string := "Audio Recap"
  /** The upload comment as the file spells it (a mis-decoded headphones emoji). */
  const AudioComment: string := "\U{F0}\U{178}\U{17D}\U{A7} Audio summary generated."

  type byte = bv8

  /** The history line recorded for a message; a missing user id prints as "None". */
  function HistoryEntry(userId: Option<string>, text: string): string {
    "User " + Str(userId) + ": " + text
  }

  // ---------------------------------------------------------------------------
  // text_to_speech: backend/mp3-support.py:25-48
  // ---------------------------------------------------------------------------

  /** What the speech service's `requests.post` gave: a status and a body, or a raised error. */
  datatype HttpResponse = HttpResponse(status: int, body: seq<byte>)

  /** The speech service as observed: the response for each requested `text`. */
  type SpeechService = Json -> Result<HttpResponse, string>

  /** `text_to_speech`: the audio bytes exactly when the service answered 200. */
  function TextToSpeech(text: Json, speech: SpeechService): (audio: Option<seq<byte>>)
    ensures audio.Some? <==> speech(text).Ok? && speech(text).value.status == 200
    ensures audio.Some? ==> audio.value == speech(text).value.body
  {
    match speech(text)
    case Err(_) => None
    case Ok(response) => if response.status == 200 then Some(response.body) else None
  }

  // ---------------------------------------------------------------------------
  // analyze_and_generate_json: backend/mp3-support.py:51-102
  // ---------------------------------------------------------------------------

  /** `history[-CONTEXT_LIMIT:]`: the last twenty entries, or all of them when there are fewer. */
  function ContextSlice(history: seq<string>): (slice: seq<string>)
    ensures |slice| == if |history| < ContextLimit then |history| else ContextLimit
    ensures slice == history[|history| - |slice|..]
  {
    if |history| < ContextLimit then history else history[|history| - ContextLimit..]
  }

  /** The user message of the analysis request. */
  function AnalysisInput(history: seq<string>, userInput: string): string {
    "TRANSCRIPT:\n" + Join(ContextSlice(history), "\n") + "\n\nLATEST USER MESSAGE:\n" + userInput
  }

  function AnalysisCall(history: seq<string>, userInput: string): Call {
    Call(JsonObject, [Message(System, AnalysisPrompt), Message(User, AnalysisInput(history, userInput))])
  }

  /** `analyze_and_generate_json`: the decoded answer, or `None` when the request or the decoding raised. */
  function AnalyzeAndGenerateJson(history: seq<string>, userInput: string, backend: Backend, parse: Parser): (r: Option<Json>)
    ensures backend(AnalysisCall(history, userInput)).Raised? ==> r.None?
    ensures backend(AnalysisCall(history, userInput)).Answer? ==> r == parse(backend(AnalysisCall(history, userInput)).content)
  {
    match backend(AnalysisCall(history, userInput))
    case Raised(_) => None
    case Answer(content) => parse(content)
  }

  /** The transcript's last line is the newest history entry. */
  lemma {:induction false} TranscriptEndsWithLatest(history: seq<string>)
    requires history != []
    ensures var t := Join(ContextSlice(history), "\n"); var latest := history[|history| - 1];
      |latest| <= |t| && t[|t| - |latest|..] == latest
  {
    var slice := ContextSlice(history);
    var t := Join(slice, "\n");
    JoinEndsWithLast(slice, "\n");
    var last := slice[|slice| - 1];
    assert |last| <= |t| && t[|t| - |last|..] == last;
    assert last == history[|history| - 1];
  }

  // ---------------------------------------------------------------------------
  // Acting on the decision: backend/mp3-support.py:125-154
  // ---------------------------------------------------------------------------

  /** The handler's observable steps after the history append. */
  datatype Effect =
    | Ask(call: Call)
    | PostMessage(channel: Option<string>, text: Json)
    | RequestSpeech(text: Json)
    | UploadAudio(channel: Option<string>, file: seq<byte>, filename: string, title: string, comment: string)

  /** What acting on a decision did, and whether it raised (a truthy decision that is not an object). */
  datatype Reaction = Reaction(effects: seq<Effect>, crashed: bool)

  /** The three flags, with the defaults `.get` supplies for missing keys. */
  function TriggerAudio(fields: map<string, Json>): Json { Get(fields, "trigger_audio", JBool(false)) }
  function ReplyText(fields: map<string, Json>): Json { Get(fields, "reply_text", JString("")) }
  function SummaryText(fields: map<string, Json>): Json { Get(fields, "summary_text", JString("")) }

  /** The audio step: request speech, then upload non-empty audio or post the fixed error text. */
  function AudioEffects(channel: Option<string>, summary: Json, speech: SpeechService): seq<Effect> {
    var audio := TextToSpeech(summary, speech);
    [RequestSpeech(summary)] +
      if audio.Some? && audio.value != [] then [UploadAudio(channel, audio.value, AudioFilename, AudioTitle, AudioComment)]
      else [PostMessage(channel, JString(AudioError))]
  }

  function React(decision: Option<Json>, channel: Option<string>, speech: SpeechService): Reaction {
    if decision.None? || !Truthy(decision.value) then Reaction([], false)
    else if !decision.value.JObject? then Reaction([], true)
    else
      var fields := decision.value.fields;
      var reply := if Truthy(ReplyText(fields)) then [PostMessage(channel, ReplyText(fields))] else [];
      var audio := if Truthy(TriggerAudio(fields)) && Truthy(SummaryText(fields))
                   then AudioEffects(channel, SummaryText(fields), speech) else [];
      Reaction(reply + audio, false)
  }

  /** No decision, or an empty one, does nothing; a non-object raises before anything is posted. */
  lemma NoDecisionNoAction(decision: Option<Json>, channel: Option<string>, speech: SpeechService)
    requires decision.None? || !Truthy(decision.value) || !decision.value.JObject?
    ensures React(decision, channel, speech).effects == []
    ensures React(decision, channel, speech).crashed <==> decision.Some? && Truthy(decision.value)
  {
  }

  /** The text reply is posted, first, exactly when `reply_text` is truthy; a missing key posts nothing. */
  lemma {:induction false} ReplyPostedWhenPresent(fields: map<string, Json>, channel: Option<string>, speech: SpeechService)
    requires fields != map[]
    ensures var e := React(Some(JObject(fields)), channel, speech).effects;
      && (Truthy(ReplyText(fields)) <==> |e| > 0 && e[0] == PostMessage(channel, ReplyText(fields)))
      && ("reply_text" !in fields ==> !Truthy(ReplyText(fields)))
  {
    var e := React(Some(JObject(fields)), channel, speech).effects;
    if !Truthy(ReplyText(fields)) && |e| > 0 {
      assert e[0] == RequestSpeech(SummaryText(fields));
    }
  }

  /**
   * Speech is requested exactly when `trigger_audio` and `summary_text` are both
   * truthy; then either the audio is uploaded or the error text is posted,
   * never both, and the upload happens exactly when the service answered 200
   * with a non-empty body.
   */
  lemma {:induction false} AudioOnlyWhenAsked(fields: map<string, Json>, channel: Option<string>, speech: SpeechService)
    requires fields != map[]
    ensures var e := React(Some(JObject(fields)), channel, speech).effects;
      var summary := SummaryText(fields);
      var asked := Truthy(TriggerAudio(fields)) && Truthy(summary);
      var audio := TextToSpeech(summary, speech);
      var uploaded := audio.Some? && audio.value != [];
      && (RequestSpeech(summary) in e <==> asked)
      && (asked ==> e[|e| - 2] == RequestSpeech(summary))
      && (asked && uploaded ==> e[|e| - 1] == UploadAudio(channel, audio.value, AudioFilename, AudioTitle, AudioComment))
      && (asked && !uploaded ==> e[|e| - 1] == PostMessage(channel, JString(AudioError)))
      && ("trigger_audio" !in fields ==> !asked)
  {
    var e := React(Some(JObject(fields)), channel, speech).effects;
    var summary := SummaryText(fields);
    var reply := if Truthy(ReplyText(fields)) then [PostMessage(channel, ReplyText(fields))] else [];
    if !(Truthy(TriggerAudio(fields)) && Truthy(summary)) {
      assert e == reply;
      assert RequestSpeech(summary) !in reply;
    } else {
      assert e == reply + AudioEffects(channel, summary, speech);
      assert e[|reply|] == RequestSpeech(summary);
    }
  }

  // ---------------------------------------------------------------------------
  // The handler with its module-level history: backend/mp3-support.py:20-22, 105-154
  // ---------------------------------------------------------------------------

  /** The module's `conversation_history`, with the message handler that appends to it. */
  class Mp3Bot {
    var history: seq<string>

    constructor()
      ensures history == []
    {
      history := [];
    }

    /**
     * `handle_message_events`. The bot's own messages change nothing; any other
     * message is appended first, and the request the model sees carries the
     * newest entries and the raw text; then the decision is acted on.
     */
    method HandleMessageEvents(channel: Option<string>, userId: Option<string>, text: string, botUserId: string,
                               backend: Backend, parse: Parser, speech: SpeechService)
      returns (effects: seq<Effect>, crashed: bool)
      modifies this
      ensures userId == Some(botUserId) ==> history == old(history) && effects == [] && !crashed
      ensures userId != Some(botUserId) ==>
        && history == old(history) + [HistoryEntry(userId, text)]
        && var reaction := React(AnalyzeAndGenerateJson(history, text, backend, parse), channel, speech);
           effects == [Ask(AnalysisCall(history, text))] + reaction.effects && crashed == reaction.crashed
    {
      if userId == Some(botUserId) {
        return [], false;
      }
      history := history + [HistoryEntry(userId, text)];
      var decision := AnalyzeAndGenerateJson(history, text, backend, parse);
      var reaction, raised := ActOnDecision(decision, channel, speech);
      effects := [Ask(AnalysisCall(history, text))] + reaction;
      crashed := raised;
    }
  }

  /** The rest of `handle_message_events`: the early return, the three flag reads and the posts. */
  method ActOnDecision(decision: Option<Json>, channel: Option<string>, speech: SpeechService)
    returns (effects: seq<Effect>, crashed: bool)
    ensures Reaction(effects, crashed) == React(decision, channel, speech)
  {
    effects, crashed := [], false;
    if decision.None? || !Truthy(decision.value) {
      return;
    }
    if !decision.value.JObject? {
      crashed := true;
      return;
    }
    var fields := decision.value.fields;
    var triggerAudio := Get(fields, "trigger_audio", JBool(false));
    var replyText := Get(fields, "reply_text", JString(""));
    var summaryText := Get(fields, "summary_text", JString(""));
    if Truthy(replyText) {
      effects := effects + [PostMessage(channel, replyText)];
    }
    if Truthy(triggerAudio) && Truthy(summaryText) {
      effects := effects + [RequestSpeech(summaryText)];
      var audioData := TextToSpeech(summaryText, speech);
      if audioData.Some? && audioData.value != [] {
        effects := effects + [UploadAudio(channel, audioData.value, AudioFilename, AudioTitle, AudioComment)];
      } else {
        effects := effects + [PostMessage(channel, JString(AudioError))];
      }
    }
  }

  /**
   * After a message from someone else, the model's transcript ends with that
   * message's history entry, and the request ends with the raw text.
   */
  lemma {:induction false} AnalysisSeesLatestMessage(before: seq<string>, userId: Option<string>, text: string)
    ensures var history := before + [HistoryEntry(userId, text)];
      var t := Join(ContextSlice(history), "\n"); var entry := HistoryEntry(userId, text);
      var sent := AnalysisInput(history, text);
      && |ContextSlice(history)| == (if |history| < ContextLimit then |history| else ContextLimit)
      && |entry| <= |t| && t[|t| - |entry|..] == entry
      && |text| <= |sent| && sent[|sent| - |text|..] == text
  {
    var history := before + [HistoryEntry(userId, text)];
    TranscriptEndsWithLatest(history);
    var t := Join(ContextSlice(history), "\n");
    var sent := AnalysisInput(history, text);
    assert sent == ("TRANSCRIPT:\n" + t + "\n\nLATEST USER MESSAGE:\n") + text;
  }
}
