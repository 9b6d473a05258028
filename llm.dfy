/**
 * The chat-completions service as the bots see it. The service itself is not
 * modelled: every caller receives it as a function from the request to what
 * the request returned, so every property proved holds for every possible
 * answer.
 */
module Llm {
  import opened Wrappers
  import opened JsonValues

  datatype Role = System | User | Assistant

  /** One `{"role": ..., "content": ...}` entry of a `messages` list. */
  datatype Message = Message(role: Role, content: string)

  /** `FreeText` is a plain request; `JsonObject` asks for `response_format={"type": "json_object"}`. */
  datatype Mode = FreeText | JsonObject

  /** One `client.chat.completions.create(...)` request. */
  datatype Call = Call(mode: Mode, messages: seq<Message>)

  /** `response.choices[0].message.content`, or the exception the request raised. */
  datatype Reply = Answer(content: string) | Raised(reason: string)

  /** The service as observed: what each request returned. */
  type Backend = Call -> Reply

  /** `json.loads`: the decoded value, or `None` when it raises. */
  type Parser = string -> Option<Json>
}
