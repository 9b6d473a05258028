/**
 * The console loop shared by the two persona agents (backend/tech_agent.py
 * and backend/business_agent.py): a conversation buffer that starts with the
 * persona's system message and receives the user's line before each streamed
 * request and the assembled reply after it.
 */
module PersonaRepl {
  import opened Wrappers
  import opened Text
  import opened Llm

  /**
   * What iterating over one streamed response gave: the `delta.content` of each
   * chunk (`None` for chunks without text), and whether the iteration finished
   * or raised after those chunks. `completes == false` with no chunks is a
   * request that raised before streaming began.
   */
  datatype StreamReply = StreamReply(chunks: seq<Option<string>>, completes: bool)

  /** The streaming service as observed: what each `messages` list streamed back. */
  type StreamBackend = seq<Message> -> StreamReply

  /** The final conversation buffer and, in order, the buffer sent with each request. */
  datatype Repl = Repl(buffer: seq<Message>, requests: seq<seq<Message>>)

  // ---------------------------------------------------------------------------
  // Stream accumulation: backend/tech_agent.py:68-78, backend/business_agent.py:72-81
  // ---------------------------------------------------------------------------

  function ChunkText(chunk: Option<string>): string {
    match chunk
    case None => []
    case Some(text) => text
  }

  /** The texts of the chunks that carry one, concatenated in arrival order. */
  function Collected(chunks: seq<Option<string>>): string {
    if chunks == [] then [] else ChunkText(chunks[0]) + Collected(chunks[1..])
  }

  lemma {:induction false} CollectedAppend(a: seq<Option<string>>, b: seq<Option<string>>)
    ensures Collected(a + b) == Collected(a) + Collected(b)
  {
    if a == [] {
      assert a + b == b;
    } else {
      assert (a + b)[1..] == a[1..] + b;
      CollectedAppend(a[1..], b);
    }
  }

  /** Chunks without text contribute nothing. */
  lemma {:induction false} CollectedSkipsEmptyChunks(a: seq<Option<string>>, b: seq<Option<string>>)
    ensures Collected(a + [None] + b) == Collected(a + b)
  {
    CollectedAppend(a + [None], b);
    CollectedAppend(a, [None]);
    CollectedAppend(a, b);
  }

  /** Every text chunk appears in the reply, at the offset of what came before it. */
  lemma {:induction false} CollectedContainsChunk(chunks: seq<Option<string>>, k: nat)
    requires k < |chunks| && chunks[k].Some?
    ensures OccursAt(Collected(chunks), chunks[k].value, |Collected(chunks[..k])|)
  {
    assert chunks == chunks[..k] + ([chunks[k]] + chunks[k + 1..]);
    CollectedAppend(chunks[..k], [chunks[k]] + chunks[k + 1..]);
    var before, rest := Collected(chunks[..k]), Collected(chunks[k + 1..]);
    assert Collected([chunks[k]] + chunks[k + 1..]) == chunks[k].value + rest;
    assert Collected(chunks) == before + chunks[k].value + rest;
    assert Collected(chunks)[|before|..|before| + |chunks[k].value|] == chunks[k].value;
  }

  /** The `for chunk in stream: ... full_response += text_chunk` loop. */
  method DrainStream(chunks: seq<Option<string>>) returns (fullResponse: string)
    ensures fullResponse == Collected(chunks)
  {
    fullResponse := "";
    for i := 0 to |chunks|
      invariant fullResponse == Collected(chunks[..i])
    {
      CollectedAppend(chunks[..i], [chunks[i]]);
      assert chunks[..i + 1] == chunks[..i] + [chunks[i]];
      if chunks[i].Some? {
        fullResponse := fullResponse + chunks[i].value;
      }
    }
    assert chunks[..|chunks|] == chunks;
  }

  // ---------------------------------------------------------------------------
  // The console loop: backend/tech_agent.py:39-85, backend/business_agent.py:44-87
  // ---------------------------------------------------------------------------

  /**
   * The loop from `buffer` on, over the lines still to be typed. A quit command
   * ends it; a blank line is skipped; any other line is appended as a user
   * message, the whole buffer is sent, and the reply is appended only when the
   * stream finished; otherwise the exception is reported and the user message
   * stays behind without an answer.
   */
  function Converse(buffer: seq<Message>, inputs: seq<string>, backend: StreamBackend): Repl
    decreases |inputs|
  {
    if inputs == [] || IsQuitCommand(inputs[0]) then Repl(buffer, [])
    else if IsBlank(inputs[0]) then Converse(buffer, inputs[1..], backend)
    else
      var sent := buffer + [Message(User, inputs[0])];
      var reply := backend(sent);
      var next := if reply.completes then sent + [Message(Assistant, Collected(reply.chunks))] else sent;
      var rest := Converse(next, inputs[1..], backend);
      Repl(rest.buffer, [sent] + rest.requests)
  }

  /** The contents of the user messages of a buffer, in order. */
  function UserTurns(buffer: seq<Message>): seq<string> {
    if buffer == [] then []
    else (if buffer[0].role == User then [buffer[0].content] else []) + UserTurns(buffer[1..])
  }

  lemma {:induction false} UserTurnsAppend(a: seq<Message>, b: seq<Message>)
    ensures UserTurns(a + b) == UserTurns(a) + UserTurns(b)
  {
    if a == [] {
      assert a + b == b;
    } else {
      assert (a + b)[1..] == a[1..] + b;
      UserTurnsAppend(a[1..], b);
    }
  }

  /**
   * The buffer only grows: the starting buffer is a prefix of the final one, and
   * so is every buffer that was sent, each of which ends with the user's line.
   */
  lemma {:induction false} ConverseOnlyAppends(buffer: seq<Message>, inputs: seq<string>, backend: StreamBackend)
    ensures var r := Converse(buffer, inputs, backend);
      && buffer <= r.buffer
      && |r.requests| == |Submitted(inputs)|
      && forall k :: 0 <= k < |r.requests| ==>
           && r.requests[k] <= r.buffer
           && |buffer| < |r.requests[k]|
           && r.requests[k][|r.requests[k]| - 1] == Message(User, Submitted(inputs)[k])
    decreases |inputs|
  {
    if inputs == [] || IsQuitCommand(inputs[0]) {
    } else if IsBlank(inputs[0]) {
      ConverseOnlyAppends(buffer, inputs[1..], backend);
    } else {
      var sent := buffer + [Message(User, inputs[0])];
      var reply := backend(sent);
      var next := if reply.completes then sent + [Message(Assistant, Collected(reply.chunks))] else sent;
      ConverseOnlyAppends(next, inputs[1..], backend);
      var rest := Converse(next, inputs[1..], backend);
      var r := Converse(buffer, inputs, backend);
      assert r.requests == [sent] + rest.requests;
      assert Submitted(inputs) == [inputs[0]] + Submitted(inputs[1..]);
      assert sent <= next;
    }
  }

  /**
   * Every submitted line is recorded as a user message, in order, whether or not
   * its request failed.
   */
  lemma {:induction false} ConverseRecordsEveryLine(buffer: seq<Message>, inputs: seq<string>, backend: StreamBackend)
    ensures UserTurns(Converse(buffer, inputs, backend).buffer) == UserTurns(buffer) + Submitted(inputs)
    decreases |inputs|
  {
    if inputs == [] || IsQuitCommand(inputs[0]) {
    } else if IsBlank(inputs[0]) {
      ConverseRecordsEveryLine(buffer, inputs[1..], backend);
    } else {
      var sent := buffer + [Message(User, inputs[0])];
      var reply := backend(sent);
      var answer := [Message(Assistant, Collected(reply.chunks))];
      var next := if reply.completes then sent + answer else sent;
      ConverseRecordsEveryLine(next, inputs[1..], backend);
      UserTurnsAppend(buffer, [Message(User, inputs[0])]);
      UserTurnsAppend(sent, answer);
      assert UserTurns([Message(User, inputs[0])]) == [inputs[0]];
      assert UserTurns(answer) == [];
    }
  }

  /**
   * When no line is blank or a quit command and every stream finishes, each line
   * adds exactly two entries: the user's line, then an assistant reply.
   */
  lemma {:induction false} FaultFreeTurnsAlternate(buffer: seq<Message>, inputs: seq<string>, backend: StreamBackend)
    requires Submitted(inputs) == inputs
    requires forall sent :: backend(sent).completes
    ensures var b := Converse(buffer, inputs, backend).buffer;
      && |b| == |buffer| + 2 * |inputs|
      && b[..|buffer|] == buffer
      && forall k :: 0 <= k < |inputs| ==>
           b[|buffer| + 2 * k] == Message(User, inputs[k]) && b[|buffer| + 2 * k + 1].role == Assistant
    decreases |inputs|
  {
    if inputs != [] {
      var sent := buffer + [Message(User, inputs[0])];
      var next := sent + [Message(Assistant, Collected(backend(sent).chunks))];
      var tail := inputs[1..];
      assert !IsQuitCommand(inputs[0]) && !IsBlank(inputs[0]) && Submitted(tail) == tail;
      ConverseStep(buffer, inputs, backend);
      FaultFreeTurnsAlternate(next, tail, backend);
      var b := Converse(next, tail, backend).buffer;
      assert b == Converse(buffer, inputs, backend).buffer;
      assert b[..|next|] == next;
      assert b[..|buffer|] == next[..|buffer|] == buffer;
      forall k | 0 <= k < |inputs|
        ensures b[|buffer| + 2 * k] == Message(User, inputs[k]) && b[|buffer| + 2 * k + 1].role == Assistant
      {
        if k == 0 {
          assert b[|buffer|] == next[|buffer|];
          assert b[|buffer| + 1] == next[|buffer| + 1];
        } else {
          var j := k - 1;
          assert b[|next| + 2 * j] == Message(User, tail[j]);
          assert b[|next| + 2 * j + 1].role == Assistant;
          assert |buffer| + 2 * k == |next| + 2 * j;
          assert tail[j] == inputs[k];
        }
      }
    }
  }

  /** A turn whose stream raised leaves its user message behind and the loop carries on. */
  lemma FailedTurnLeavesUserMessage(buffer: seq<Message>, line: string, inputs: seq<string>, backend: StreamBackend)
    requires !IsQuitCommand(line) && !IsBlank(line)
    requires !backend(buffer + [Message(User, line)]).completes
    ensures Converse(buffer, [line] + inputs, backend).buffer ==
            Converse(buffer + [Message(User, line)], inputs, backend).buffer
  {
    assert ([line] + inputs)[1..] == inputs;
  }

  /** One unfolding of `Converse` on the next line typed. */
  lemma ConverseStep(buffer: seq<Message>, inputs: seq<string>, backend: StreamBackend)
    requires inputs != []
    ensures IsQuitCommand(inputs[0]) ==> Converse(buffer, inputs, backend) == Repl(buffer, [])
    ensures !IsQuitCommand(inputs[0]) && IsBlank(inputs[0]) ==>
      Converse(buffer, inputs, backend) == Converse(buffer, inputs[1..], backend)
    ensures !IsQuitCommand(inputs[0]) && !IsBlank(inputs[0]) ==>
      var sent := buffer + [Message(User, inputs[0])];
      var reply := backend(sent);
      var next := if reply.completes then sent + [Message(Assistant, Collected(reply.chunks))] else sent;
      var rest := Converse(next, inputs[1..], backend);
      Converse(buffer, inputs, backend) == Repl(rest.buffer, [sent] + rest.requests)
  {
  }

  /** The loop of `run_tech_agent` / `run_business_agent`, from the single system message on. */
  method RunPersonaAgent(systemPrompt: string, inputs: seq<string>, backend: StreamBackend)
    returns (messages: seq<Message>, requests: seq<seq<Message>>)
    ensures Repl(messages, requests) == Converse([Message(System, systemPrompt)], inputs, backend)
  {
    ghost var spec := Converse([Message(System, systemPrompt)], inputs, backend);
    messages := [Message(System, systemPrompt)];
    requests := [];
    var i := 0;
    while i < |inputs|
      invariant 0 <= i <= |inputs|
      invariant var rest := Converse(messages, inputs[i..], backend);
        Repl(rest.buffer, requests + rest.requests) == spec
    {
      var userInput := inputs[i];
      ConverseStep(messages, inputs[i..], backend);
      assert inputs[i..][1..] == inputs[i + 1..];
      if IsQuitCommand(userInput) {
        break;
      }
      i := i + 1;
      if IsBlank(userInput) {
        continue;
      }
      messages := messages + [Message(User, userInput)];
      requests := requests + [messages];
      var stream := backend(messages);
      var fullResponse := DrainStream(stream.chunks);
      if !stream.completes {
        // the exception handler reports the error; the user message stays
        continue;
      }
      messages := messages + [Message(Assistant, fullResponse)];
    }
  }
}
