/**
 * backend/agent.py: "DevBot", a group-chat member on Slack. On every channel
 * message it reads the recent history as a transcript and lets the model
 * decide whether to speak (the model answers `NO_RESPONSE` to stay silent);
 * on a direct mention it always answers, with a fixed fallback when the model
 * gives nothing.
 */
module Agent {
  import opened Wrappers
  import opened Text
  import opened Llm

  /** The sentinel the model answers with to stay silent. */
  const NoResponse: string := "NO_RESPONSE"

  /** `CONTEXT_LIMIT`: how many recent messages the history request asks for. */
  const ContextLimit: nat := 15

  /** Appended to the transcript on a direct mention. */
  const MentionOverride: string := "\n[SYSTEM: USER MENTIONED YOU DIRECTLY. YOU MUST ANSWER.]"

  /** Posted on a mention when the model gives nothing. */
  const Fallback: string := "I'm looking into that..."

  /** Stand-in for the DevBot system prompt literal. */
  const DevBotPrompt: string := "[agent system_prompt: DevBot, answer NO_RESPONSE to stay silent]"

  // ---------------------------------------------------------------------------
  // query_llm_agent: backend/agent.py:21-52
  // ---------------------------------------------------------------------------

  /** The request `query_llm_agent` sends for a transcript. */
  function BrainCall(history: string): Call {
    Call(FreeText, [Message(System, DevBotPrompt), Message(User, "TRANSCRIPT:\n" + history)])
  }

  /**
   * `query_llm_agent`: the stripped answer, or `None` when the request raised
   * or the stripped answer is the sentinel.
   */
  function QueryLlmAgent(history: string, backend: Backend): (r: Option<string>)
    ensures r.None? <==> backend(BrainCall(history)).Raised? || Strip(backend(BrainCall(history)).content) == NoResponse
    ensures r.Some? ==> r.value == Strip(backend(BrainCall(history)).content)
  {
    match backend(BrainCall(history))
    case Raised(_) => None
    case Answer(content) =>
      var stripped := Strip(content);
      if stripped == NoResponse then None else Some(stripped)
  }

  /** What comes back is never the sentinel and never has surrounding whitespace. */
  lemma {:induction false} ResponseIsCleanSpeech(history: string, backend: Backend)
    requires QueryLlmAgent(history, backend).Some?
    ensures var text := QueryLlmAgent(history, backend).value;
      text != NoResponse && Strip(text) == text
  {
    StripIdempotent(backend(BrainCall(history)).content);
  }

  // ---------------------------------------------------------------------------
  // get_chat_context: backend/agent.py:55-77
  // ---------------------------------------------------------------------------

  /**
   * One fetched history entry: its `user` and `text` keys when present, and
   * whether it has a `subtype` key (joins, leaves and other system events).
   */
  datatype SlackMessage = SlackMessage(user: Option<string>, text: Option<string>, hasSubtype: bool)

  /**
   * What `conversations_history` gave, newest first: `Err` when it raised,
   * `Ok(None)` when the reply had no `messages` key.
   */
  type History = Result<Option<seq<SlackMessage>>, string>

  /** The transcript line of one message; a message with a subtype has none. */
  function Line(m: SlackMessage): string {
    if m.hasSubtype then ""
    else "User " + (if m.user.Some? then m.user.value else "Unknown") + ": "
         + (if m.text.Some? then m.text.value else "") + "\n"
  }

  /** The lines of `ms`, in the order given. */
  function Render(ms: seq<SlackMessage>): string {
    if ms == [] then "" else Line(ms[0]) + Render(ms[1..])
  }

  /** `reversed(s)`. */
  function Reverse<T>(s: seq<T>): (r: seq<T>)
    ensures |r| == |s|
  {
    if s == [] then [] else Reverse(s[1..]) + [s[0]]
  }

  /** The transcript of a fetch: the lines oldest first, or nothing when the fetch failed. */
  function Transcript(fetched: History): string {
    match fetched
    case Err(_) => ""
    case Ok(None) => ""
    case Ok(Some(ms)) => Render(Reverse(ms))
  }

  lemma {:induction false} RenderAppend(a: seq<SlackMessage>, b: seq<SlackMessage>)
    ensures Render(a + b) == Render(a) + Render(b)
  {
    if a == [] {
      assert a + b == b;
    } else {
      assert (a + b)[1..] == a[1..] + b;
      RenderAppend(a[1..], b);
    }
  }

  lemma {:induction false} ReverseAppend<T>(a: seq<T>, b: seq<T>)
    ensures Reverse(a + b) == Reverse(b) + Reverse(a)
    decreases |a|
  {
    if a == [] {
      assert a + b == b;
      assert Reverse(b) + [] == Reverse(b);
    } else {
      assert (a + b)[1..] == a[1..] + b;
      ReverseAppend(a[1..], b);
      assert Reverse(b) + Reverse(a[1..]) + [a[0]] == Reverse(b) + (Reverse(a[1..]) + [a[0]]);
    }
  }

  /** Position `k` of the reversal holds the `k`-th element from the end. */
  lemma {:induction false} ReverseIndex<T>(s: seq<T>)
    ensures forall k :: 0 <= k < |s| ==> Reverse(s)[k] == s[|s| - 1 - k]
    decreases |s|
  {
    if s != [] {
      ReverseIndex(s[1..]);
      forall k | 0 <= k < |s| ensures Reverse(s)[k] == s[|s| - 1 - k] {
        if k < |s| - 1 {
          assert Reverse(s)[k] == Reverse(s[1..])[k];
          assert s[1..][|s| - 2 - k] == s[|s| - 1 - k];
        }
      }
    }
  }

  /**
   * Messages fetched later (older ones) come first in the transcript: for a
   * fetch of `newer + older`, the older part's lines precede the newer part's.
   */
  lemma {:induction false} OlderMessagesComeFirst(newer: seq<SlackMessage>, older: seq<SlackMessage>)
    ensures Transcript(Ok(Some(newer + older))) == Transcript(Ok(Some(older))) + Transcript(Ok(Some(newer)))
  {
    ReverseAppend(newer, older);
    RenderAppend(Reverse(older), Reverse(newer));
  }

  /** A message with a subtype leaves the transcript exactly as if it had not been fetched. */
  lemma {:induction false} SubtypedMessageIsSkipped(newer: seq<SlackMessage>, m: SlackMessage, older: seq<SlackMessage>)
    requires m.hasSubtype
    ensures Transcript(Ok(Some(newer + [m] + older))) == Transcript(Ok(Some(newer + older)))
  {
    var olderLines := Transcript(Ok(Some(older)));
    var newerLines := Transcript(Ok(Some(newer)));
    var withM := Transcript(Ok(Some(newer + [m])));
    var justM := Transcript(Ok(Some([m])));
    OlderMessagesComeFirst(newer + [m], older);
    assert Transcript(Ok(Some(newer + [m] + older))) == olderLines + withM;
    OlderMessagesComeFirst(newer, [m]);
    assert withM == justM + newerLines;
    assert justM == "" by {
      assert [m][1..] == [];
      assert Reverse([m]) == [m];
      assert Render([m]) == Line(m);
    }
    assert withM == newerLines;
    OlderMessagesComeFirst(newer, older);
  }

  /** A kept message contributes exactly its formatted line, with the two defaults. */
  lemma KeptMessageLine(user: Option<string>, text: Option<string>)
    ensures Transcript(Ok(Some([SlackMessage(user, text, false)]))) ==
      "User " + (if user.Some? then user.value else "Unknown") + ": " + (if text.Some? then text.value else "") + "\n"
    ensures Transcript(Ok(Some([SlackMessage(None, None, false)]))) == "User Unknown: \n"
  {
    var m := SlackMessage(user, text, false);
    var blank := SlackMessage(None, None, false);
    assert [m][1..] == [] && [blank][1..] == [];
    assert Reverse([m]) == [m] && Reverse([blank]) == [blank];
    assert Render([m]) == Line(m) && Render([blank]) == Line(blank);
  }

  /** A failed fetch, or a reply without messages, gives the empty transcript. */
  lemma NoHistoryGivesEmptyTranscript(reason: string)
    ensures Transcript(Err(reason)) == "" && Transcript(Ok(None)) == "" && Transcript(Ok(Some([]))) == ""
  {
  }

  /** `get_chat_context`: walk the fetched messages from the last (oldest) to the first. */
  method GetChatContext(fetched: History) returns (transcript: string)
    ensures transcript == Transcript(fetched)
  {
    if fetched.Err? || fetched.value.None? {
      return "";
    }
    var messages := fetched.value.value;
    transcript := "";
    var i := |messages|;
    while i > 0
      invariant 0 <= i <= |messages|
      invariant transcript == Render(Reverse(messages[i..]))
      decreases i
    {
      i := i - 1;
      var msg := messages[i];
      assert messages[i..] == [msg] + messages[i + 1..];
      assert Reverse(messages[i..]) == Reverse(messages[i + 1..]) + [msg];
      RenderAppend(Reverse(messages[i + 1..]), [msg]);
      if msg.hasSubtype {
        continue;
      }
      var user := if msg.user.Some? then msg.user.value else "Unknown";
      var text := if msg.text.Some? then msg.text.value else "";
      transcript := transcript + ("User " + user + ": " + text + "\n");
    }
    assert messages[0..] == messages;
  }

  // ---------------------------------------------------------------------------
  // The two event handlers: backend/agent.py:81-121
  // ---------------------------------------------------------------------------

  /** The handlers' observable steps: the history request, the model request, a post. */
  datatype Effect =
    | FetchHistory(channel: Option<string>, limit: nat)
    | Ask(call: Call)
    | PostMessage(channel: Option<string>, text: string)
    | Say(text: string)

  /**
   * `handle_message_events`: the bot's own messages are ignored; otherwise the
   * transcript goes to the model and a post happens only when the model said
   * something, never the sentinel and never an empty string.
   */
  method HandleMessageEvents(channel: Option<string>, userId: Option<string>, botId: Option<string>,
                             fetched: History, backend: Backend)
    returns (effects: seq<Effect>)
    ensures userId == botId ==> effects == []
    ensures userId != botId ==>
      && 2 <= |effects| <= 3
      && effects[0] == FetchHistory(channel, ContextLimit)
      && effects[1] == Ask(BrainCall(Transcript(fetched)))
    ensures var response := QueryLlmAgent(Transcript(fetched), backend);
      |effects| == 3 <==> userId != botId && response.Some? && response.value != []
    ensures |effects| == 3 ==>
      var text := QueryLlmAgent(Transcript(fetched), backend).value;
      && effects[2] == PostMessage(channel, text)
      && text != NoResponse && text != [] && Strip(text) == text
  {
    if userId == botId {
      return [];
    }
    effects := [FetchHistory(channel, ContextLimit)];
    var transcript := GetChatContext(fetched);
    effects := effects + [Ask(BrainCall(transcript))];
    var response := QueryLlmAgent(transcript, backend);
    if response.Some? && response.value != [] {
      ResponseIsCleanSpeech(transcript, backend);
      effects := effects + [PostMessage(channel, response.value)];
    }
  }

  /**
   * `handle_app_mentions`: the model sees the transcript followed by the
   * override marker, and something is always said: the model's text, or the
   * fallback when it gave `None` or an empty string.
   */
  method HandleAppMentions(channel: Option<string>, fetched: History, backend: Backend)
    returns (effects: seq<Effect>)
    ensures |effects| == 3
    ensures effects[0] == FetchHistory(channel, ContextLimit)
    ensures effects[1].Ask? && effects[1].call == BrainCall(Transcript(fetched) + MentionOverride)
    ensures var response := QueryLlmAgent(Transcript(fetched) + MentionOverride, backend);
      effects[2] == Say(if response.Some? && response.value != [] then response.value else Fallback)
    ensures effects[2].text != [] && effects[2].text != NoResponse
  {
    effects := [FetchHistory(channel, ContextLimit)];
    var transcript := GetChatContext(fetched);
    var history := transcript + MentionOverride;
    effects := effects + [Ask(BrainCall(history))];
    var response := QueryLlmAgent(history, backend);
    if response.Some? && response.value != [] {
      ResponseIsCleanSpeech(history, backend);
      effects := effects + [Say(response.value)];
    } else {
      assert Fallback[0] != NoResponse[0];
      effects := effects + [Say(Fallback)];
    }
  }
}
