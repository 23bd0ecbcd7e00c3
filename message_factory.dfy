/** Role-tagged message constructors (src/utils/message-factory.ts). */
module MessageFactory {
  import opened Messages
  import opened JsText
  import PromptTemplates

  /** `buildContextFreeSystemMessage()`: the general assistant instruction. */
  function BuildContextFreeSystemMessage(): (m: Message)
    ensures m.role == System
    ensures !Contains(m.content, PromptTemplates.RefusalPhrase)
  {
    Message(System, PromptTemplates.ContextFreeSystemPrompt())
  }

  /** `buildContextualSystemMessage()`: the document-aware instruction. */
  function BuildContextualSystemMessage(): (m: Message)
    ensures m.role == System
    ensures Contains(m.content, PromptTemplates.RefusalPhrase)
    ensures Contains(m.content, PromptTemplates.OpenTaskMarker) && Contains(m.content, PromptTemplates.DoneTaskMarker)
  {
    Message(System, PromptTemplates.DocumentAwareSystemPrompt())
  }

  /** `buildAssistantMessage(content)`. */
  function BuildAssistantMessage(content: string): (m: Message)
    ensures m.role == Assistant && m.content == content
  {
    Message(Assistant, content)
  }

  /** `buildUserMessage(userMessage)`. */
  function BuildUserMessage(userMessage: string): (m: Message)
    ensures m.role == User && m.content == userMessage
  {
    Message(User, userMessage)
  }

  /** The two system messages carry different instructions. */
  lemma SystemMessagesDiffer()
    ensures BuildContextFreeSystemMessage() != BuildContextualSystemMessage()
  {
    var free, aware := BuildContextFreeSystemMessage(), BuildContextualSystemMessage();
    assert !Contains(free.content, PromptTemplates.RefusalPhrase);
    assert Contains(aware.content, PromptTemplates.RefusalPhrase);
  }
}
