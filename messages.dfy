/** Chat messages as the chat-completion client exchanges them. */
module Messages {

  const RoleSystem: string := "system"
  const RoleUser: string := "user"
  const RoleAssistant: string := "assistant"
  const RoleFunction: string := "function"

  /** A message: who said it, what was said, and for function messages the function's name. */
  datatype ChatMessage = ChatMessage(role: string, content: string, name: string)

  function UserMessage(content: string): ChatMessage
  {
    ChatMessage(RoleUser, content, [])
  }

  function AssistantMessage(content: string): ChatMessage
  {
    ChatMessage(RoleAssistant, content, [])
  }
}
