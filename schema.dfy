/** The request and message shapes the gateway accepts (main.py:36-48). */
module Schema {
  import opened Wrappers

  /** One role-tagged turn of a conversation; the role is free text, and only
      the exact role "user" is treated specially. */
  datatype Message = Message(role: string, content: string)

  /** Body of a chat call: a model key and the full conversation so far. */
  datatype ChatRequest = ChatRequest(modelKey: string, messages: seq<Message>)

  /** Body of a save call; `id` and `title` may be missing (`None`). */
  datatype SaveChatRequest = SaveChatRequest(
    id: Option<string>,
    title: Option<string>,
    model: string,
    messages: seq<Message>)

  /** Python truthiness of an optional string: `None` and `""` are falsy. */
  function IsTruthy(s: Option<string>): (truthy: bool)
    ensures truthy <==> s.Some? && |s.value| > 0
  {
    s.Some? && s.value != ""
  }
}
