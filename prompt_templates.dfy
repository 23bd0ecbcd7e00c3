/**
 * The two fixed system prompts (src/utils/prompt-templates.ts). Both are
 * constants; the document-aware one is assembled from named pieces so that the
 * phrases it must carry (the refusal phrase, the task-checkbox markers) are
 * defined once and can be shown to occur in it.
 */
module PromptTemplates {
  import opened JsText

  /** The exact answer the document-aware prompts ask for when the document lacks the information. */
  const RefusalPhrase: string := "Not found in the document"

  /** Markdown markers of an open and a completed task. */
  const OpenTaskMarker: string := "- [ ]"
  const DoneTaskMarker: string := "- [x]"

  /**
   * The "MARKDOWN SYNTAX" section, word for word the same in the document-aware
   * prompt and in the inline system message of the contextual-message builder.
   */
  const MarkdownSyntaxSection: string :=
    "MARKDOWN SYNTAX:\n- Tasks: \"" + OpenTaskMarker +
    ("\" = open task, \"" + DoneTaskMarker +
     ("\" = completed task\n- Count open tasks by looking for lines starting with \"" + OpenTaskMarker + "\"\n"
      + "- Headers: # for h1, ## for h2, ### for h3\n"
      + "- Lists: \"-\" for unordered, numbers for ordered\n"
      + "- Links: [text](url) or #TagName\n"
      + "- Text: **bold**, *italic*, `code`\n\n"))

  const DocumentAwareHead: string :=
    "You are an AI assistant helping with a specific document written in Markdown format. "
    + "Answer ONLY questions that can be answered using the provided document context.\n\n"
    + "CRITICAL ANTI-HALLUCINATION RULES:\n"
    + "1. NEVER make up or infer information not explicitly present in the document\n"
    + "2. NEVER speculate or assume details not in the document\n"
    + "3. If a question asks about something NOT in the provided document, respond with: \""

  const DocumentAwareRules: string :=
    "\"\n4. If you cannot find the requested information in the document, state \"" + RefusalPhrase
    + "\" - do not invent or guess\n"
    + "5. Do NOT assume information based on document patterns - only use explicit information\n"
    + "6. If the question references a different document or external information, say \"" + RefusalPhrase + "\"\n\n"
    + "EXAMPLES OF HANDLING MISSING INFORMATION:\n"
    + "- User asks about \"document X\" but you only have \"document Y\" \U{2192} \"" + RefusalPhrase + "\"\n"
    + "- User asks about data not in the document \U{2192} \"" + RefusalPhrase + "\"\n"
    + "- User asks about a topic the document doesn't cover \U{2192} \"" + RefusalPhrase + "\"\n\n"
    + "DIRECT ANSWER STYLE:\n"
    + "- Answer DIRECTLY and concisely - no disclaimers, no preamble\n"
    + "- No meta-commentary like \"based on the context provided\"\n"
    + "- Simply state facts when information exists, or \"" + RefusalPhrase + "\" when it doesn't\n\n"

  const DocumentAwareClosing: string :=
    "Be honest: if information isn't in the document, say so. Never make things up."

  /** `getContextFreeSystemPrompt()`. */
  function ContextFreeSystemPrompt(): (r: string)
    ensures !Contains(r, RefusalPhrase)
  {
    var a, b, c, d := "You are a helpful AI assistant.", " Provide clear, concise, and",
                      " accurate answers to the user's", " questions.";
    assert forall k | 0 <= k < |a| :: a[k] != 'N';
    assert forall k | 0 <= k < |b| :: b[k] != 'N';
    assert forall k | 0 <= k < |c| :: c[k] != 'N';
    assert forall k | 0 <= k < |d| :: d[k] != 'N';
    var r := a + b + c + d;
    LacksFirstChar(r, RefusalPhrase);
    r
  }

  /** `getDocumentAwareSystemPrompt()`. */
  function DocumentAwareSystemPrompt(): (r: string)
    ensures Contains(r, RefusalPhrase)
    ensures Contains(r, OpenTaskMarker) && Contains(r, DoneTaskMarker)
  {
    var r := DocumentAwareHead + RefusalPhrase + (DocumentAwareRules + MarkdownSyntaxSection + DocumentAwareClosing);
    ContainsMiddle(DocumentAwareHead, RefusalPhrase, DocumentAwareRules + MarkdownSyntaxSection + DocumentAwareClosing);
    MarkdownSectionHasTaskMarkers();
    SectionInside(DocumentAwareHead + RefusalPhrase, DocumentAwareRules, MarkdownSyntaxSection, DocumentAwareClosing, OpenTaskMarker);
    SectionInside(DocumentAwareHead + RefusalPhrase, DocumentAwareRules, MarkdownSyntaxSection, DocumentAwareClosing, DoneTaskMarker);
    r
  }

  /** The markdown section names both task markers. */
  lemma MarkdownSectionHasTaskMarkers()
    ensures Contains(MarkdownSyntaxSection, OpenTaskMarker)
    ensures Contains(MarkdownSyntaxSection, DoneTaskMarker)
  {
    var tail := "\" = completed task\n- Count open tasks by looking for lines starting with \"" + OpenTaskMarker + "\"\n"
      + "- Headers: # for h1, ## for h2, ### for h3\n"
      + "- Lists: \"-\" for unordered, numbers for ordered\n"
      + "- Links: [text](url) or #TagName\n"
      + "- Text: **bold**, *italic*, `code`\n\n";
    ContainsMiddle("MARKDOWN SYNTAX:\n- Tasks: \"", OpenTaskMarker, "\" = open task, \"" + DoneTaskMarker + tail);
    ContainsMiddle("\" = open task, \"", DoneTaskMarker, tail);
    ContainsInRight("MARKDOWN SYNTAX:\n- Tasks: \"" + OpenTaskMarker, "\" = open task, \"" + DoneTaskMarker + tail, DoneTaskMarker);
  }

  /** Whatever the middle piece of `a + (b + m + c)` contains, the whole contains. */
  lemma SectionInside(a: string, b: string, m: string, c: string, p: string)
    requires Contains(m, p)
    ensures Contains(a + (b + m + c), p)
  {
    ContainsInRight(b, m, p);
    ContainsInLeft(b + m, c, p);
    ContainsInRight(a, b + m + c, p);
  }

  /** The two prompts differ, so the chosen mode is visible in the system message. */
  lemma PromptsDiffer()
    ensures ContextFreeSystemPrompt() != DocumentAwareSystemPrompt()
  {
  }
}
