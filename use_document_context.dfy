/**
 * The chat panel's view of the document context
 * (src/composables/useDocumentContext.ts): the contextual-message builder and
 * the subscriber callback that keeps `hasDocumentContext`, `documentName` and
 * `documentContext` up to date.
 */
module UseDocumentContext {
  import opened Wrappers
  import opened JsText
  import opened Messages
  import opened ContextRecord
  import opened PromptTemplates
  import opened DocumentContextUtil

  /** The text of the system message up to the refusal phrase, and after it. */
  const InstructionsHead: string :=
    "You are an AI assistant helping with a specific document written in Markdown format. "
    + "Always answer questions based on the provided document context. "
    + "If information is not in the context, clearly state that. Be concise and accurate.\n\n"
    + "CRITICAL INSTRUCTIONS:\n"
    + "- Answer DIRECTLY and concisely - no disclaimers, no preamble, no explanations about your process\n"
    + "- Do NOT say \"based on the document context provided\" or similar meta-commentary\n"
    + "- Do NOT end with disclaimers like \"Please note these are my answers based on given information\"\n"
    + "- Simply provide the answer as if it's direct factual information\n"
    + "- If information is not in the context, just say \""
  const InstructionsTail: string := "\" - nothing more\n\n" + MarkdownSyntaxSection + "Be direct, concise, and factual."
  /** The system message the builder attaches when it embeds a document (written inline in the builder). */
  const DocumentInstructions: string := InstructionsHead + RefusalPhrase + InstructionsTail

  /** What `buildContextualMessage` resolves to. */
  datatype ContextualMessage = ContextualMessage(contextualMessage: string, systemMessage: Option<Message>)

  const DocumentHeader: string := "Document:\n\"\"\"      \n"

  const QuestionLead: string := "\n\"\"\"\n---\nQuestion: "
  const AnswerInstruction: string := "\n\nAnswer directly based on the document above."

  /** Everything after the embedded document: the closing fence and rule, the question verbatim, then the instruction. */
  function QuestionTrailer(userMessage: string): (r: string)
    ensures |r| == |QuestionLead| + |userMessage| + |AnswerInstruction|
    ensures r[..|QuestionLead|] == QuestionLead
    ensures r[|QuestionLead|..|QuestionLead| + |userMessage|] == userMessage
    ensures r[|QuestionLead| + |userMessage|..] == AnswerInstruction
  {
    var r := QuestionLead + userMessage + AnswerInstruction;
    assert r[..|QuestionLead| + |userMessage|] == QuestionLead + userMessage;
    r
  }

  /** The user turn with the document text embedded. */
  function EmbedDocument(content: string, userMessage: string): (r: string)
    ensures |r| == |DocumentHeader| + |content| + |QuestionTrailer(userMessage)| > |userMessage|
    ensures r[..|DocumentHeader|] == DocumentHeader
    ensures r[|DocumentHeader|..|DocumentHeader| + |content|] == content
    ensures r[|r| - |QuestionTrailer(userMessage)|..] == QuestionTrailer(userMessage)
  {
    var r := DocumentHeader + content + QuestionTrailer(userMessage);
    assert r[..|DocumentHeader| + |content|] == DocumentHeader + content;
    r
  }

  /** The inline system message of the builder. */
  function DocumentSystemMessage(): (m: Message)
    ensures m.role == System
    ensures Contains(m.content, RefusalPhrase)
    ensures Contains(m.content, OpenTaskMarker) && Contains(m.content, DoneTaskMarker)
  {
    ContainsMiddle(InstructionsHead, RefusalPhrase, InstructionsTail);
    MarkdownSectionHasTaskMarkers();
    SectionInside(InstructionsHead + RefusalPhrase, "\" - nothing more\n\n", MarkdownSyntaxSection, "Be direct, concise, and factual.", OpenTaskMarker);
    SectionInside(InstructionsHead + RefusalPhrase, "\" - nothing more\n\n", MarkdownSyntaxSection, "Be direct, concise, and factual.", DoneTaskMarker);
    Message(System, DocumentInstructions)
  }

  /**
   * `buildContextualMessage(userMessage)`. `hasDocumentContext` is the view's
   * flag; `fetched` is what the awaited `getCurrentDocumentContent()` gave (a
   * throw is caught and read as no content). Without a document text the
   * question goes out unchanged and no system message is set.
   */
  function BuildContextualMessage(userMessage: string, hasDocumentContext: bool, fetched: Reply<string>)
    : (r: ContextualMessage)
    ensures var content := if hasDocumentContext && fetched.Returned? then fetched.value else None;
      && (Truthy(content) ==> r == ContextualMessage(EmbedDocument(content.value, userMessage), Some(DocumentSystemMessage())))
      && (!Truthy(content) ==> r == ContextualMessage(userMessage, None))
  {
    var documentContent :=
      if hasDocumentContext then
        match fetched
        case Threw => None
        case Returned(content) => content
      else None;
    if Truthy(documentContent) then
      ContextualMessage(EmbedDocument(documentContent.value, userMessage), Some(DocumentSystemMessage()))
    else
      ContextualMessage(userMessage, None)
  }

  /**
   * The contextual message differs from the question exactly when a system
   * message is attached, which is the test the message preparation relies on.
   */
  lemma ContextualDiffersIffSystemMessage(userMessage: string, hasDocumentContext: bool, fetched: Reply<string>)
    ensures var r := BuildContextualMessage(userMessage, hasDocumentContext, fetched);
      (r.contextualMessage != userMessage <==> r.systemMessage.Some?)
      && (r.systemMessage.Some? ==> r.systemMessage.value.role == System
                                    && Contains(r.systemMessage.value.content, RefusalPhrase))
  {
    var r := BuildContextualMessage(userMessage, hasDocumentContext, fetched);
    if r.systemMessage.Some? {
      assert |r.contextualMessage| > |userMessage|;
    }
  }

  /** A document's text, task checkboxes included, is carried verbatim into the question. */
  lemma TasksEmbeddedVerbatim()
    ensures var tasks := "- [ ] a\n- [x] b\n- [ ] c";
      var r := BuildContextualMessage("How many open tasks?", true, Returned(Some(tasks)));
      && r.contextualMessage[|DocumentHeader|..|DocumentHeader| + |tasks|] == tasks
      && r.systemMessage.Some? && Contains(r.systemMessage.value.content, OpenTaskMarker)
  {
  }

  /** The name shown for a context: its own name, "Current Document" when it has none, "" without a context. */
  function DisplayName(c: DocumentContext): (r: string)
    ensures r == "" <==> !HasContext(c)
    ensures HasContext(c) && Truthy(c.documentName) ==> r == c.documentName.value
    ensures HasContext(c) && !Truthy(c.documentName) ==> r == "Current Document"
  {
    if HasContext(c) then Or(c.documentName, "Current Document") else ""
  }

  class ContextView {
    var hasDocumentContext: bool
    var documentName: string
    /** `documentContext` starts as an empty object; None stands for it. */
    var documentContext: Option<DocumentContext>
    /** The contexts handed to `onContextChange`, oldest first. */
    var changes: seq<DocumentContext>

    constructor ()
      ensures !hasDocumentContext && documentName == "" && documentContext == None && changes == []
    {
      hasDocumentContext := false;
      documentName := "";
      documentContext := None;
      changes := [];
    }

    /** The callback `initDocumentContext` subscribes: update the three refs, then call `onContextChange` once. */
    method OnContextUpdate(context: DocumentContext)
      modifies this
      ensures hasDocumentContext == HasContext(context)
      ensures documentName == DisplayName(context)
      ensures documentContext == Some(context)
      ensures changes == old(changes) + [context]
    {
      hasDocumentContext := Truthy(context.documentId) || Truthy(context.blockId);
      if hasDocumentContext {
        documentName := Or(context.documentName, "Current Document");
      } else {
        documentName := "";
      }
      documentContext := Some(context);
      changes := changes + [context];
    }
  }
}
