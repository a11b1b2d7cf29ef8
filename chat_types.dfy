/** The roles and message shapes that the chat store, the chat hook and the AI clients share. */
module ChatTypes {
  import opened JsText

  /** `"user"`, `"assistant"` or `"system"`. */
  datatype ChatRole = User | Assistant | System

  /** One turn of a conversation as it is handed to an AI client. */
  datatype AiChatMessage = AiChatMessage(role: ChatRole, content: string)

  /** The message has some non-blank content. */
  predicate HasText(m: AiChatMessage) {
    !AllSpace(m.content)
  }
}
