# siyuan-rag-assistant core, modelled in Dafny

This project models the core of the SiYuan RAG assistant plugin. The plugin is a chat panel that answers questions about the open SiYuan document through a local Ollama server. The model covers:

- **Per-document chat history** (`UseChatHistory`): a class over the plugin's key-value storage. It holds:
  - the live message list;
  - the current document id;
  - the `isSaving` gate;
  - the debounce timer.

  The event loop is explicit. A `setTimeout` callback is a pending `Timer`, `Fire` runs it, and a save is split at its `await` into `StartSave` and `CompleteSave`.
- **Outgoing message assembly and the send state machine** (`UseChatMessages`):
  - `prepareMessagesWithContext` as a function on sequences;
  - the `isConfigured`, `isLoading` and `connectionError` flags as a class.
- **Document context tracking**, in its two forms:
  - the module-level record with a subscriber list (`DocumentContextUtil.ContextTracker`);
  - the Pinia store (`DocumentContextStore.Store`).

  Both share the null-coercing record (`ContextRecord`). The content selection (document export, block root lookup, kramdown fallback) and the sub-document concatenation are modelled in the same module.
- **The panel's context view** (`UseDocumentContext`): the contextual-message builder with its inline system prompt, and the subscriber callback.
- **The Ollama client** (`Ollama`): URL and model validation, the proxy requests, and how replies are sorted into models, reply text, connection errors and other errors.
- **Message constructors and the two system prompts** (`MessageFactory`, `PromptTemplates`).

`JsText` holds the JavaScript semantics the code relies on:

- truthiness of possibly-null strings (`x || null`, `x || 'default'`);
- `String.prototype.trim` with the ECMAScript white-space set;
- substring containment.

`Messages` holds the `Message` record.

Host calls are inputs to the model:

- The SiYuan API, the forward proxy and `JSON.parse` are functions from a call's arguments to its reply (it threw, or it resolved to a value that may be null).
- `plugin.getSettings()`, `plugin.loadData` and `plugin.saveData` outcomes are parameters.
- `Date.now()` is a parameter `now`.

Points where the code's behaviour is easy to misread:

- **Switching documents cancels the pending save; it does not flush it.** The comment at `src/composables/useChatHistory.ts:94` says "Flushes", but the code at lines 99-102 only clears the timer. The model follows the code, so the last edits made within the debounce window before a switch are not stored (`SwitchAfterSaveKeepsHistories` shows this).
- **A save that arrives while another is in flight is dropped, not queued** (line 56).
- **`updateDocumentContext` notifies every subscriber on every update.** There is no check that the document id changed (`src/utils/document-context.ts:36`). A subscriber that throws ends the notification: later subscribers are not called and the update throws.
- **`prepareMessagesWithContext` on an empty list leaves it empty.** It assigns to index `-1`, which is not an element. A supplied system message is still prepended.

## Model

| member | source | states |
|---|---|---|
| JsText.OrNull | src/utils/document-context.ts:29-31 | `x \|\| null` is non-null exactly when `x` is a non-empty string, and then it is `x` |
| JsText.Or | src/composables/useDocumentContext.ts:91 | `a \|\| b` is `a` when `a` is a non-empty string and `b` otherwise |
| JsText.TrimEmptyIffBlank | src/services/ollama.ts:54 | `s.trim() === ""` holds exactly when every character of `s` is ECMAScript white space |
| Messages.SystemCountPositiveIff | src/composables/useChatMessages.ts:78 | the count of system messages is positive exactly when `some(msg => msg.role === "system")` holds |
| PromptTemplates.ContextFreeSystemPrompt | src/utils/prompt-templates.ts:4-6 | the general prompt never contains the refusal phrase "Not found in the document" |
| PromptTemplates.DocumentAwareSystemPrompt | src/utils/prompt-templates.ts:11-41 | the document-aware prompt contains the refusal phrase and both task markers "- [ ]" and "- [x]" |
| PromptTemplates.MarkdownSectionHasTaskMarkers | src/utils/prompt-templates.ts:32-38 | the MARKDOWN SYNTAX section names both task markers |
| PromptTemplates.PromptsDiffer | src/utils/prompt-templates.ts:4-41 | the two prompts are different texts |
| MessageFactory.BuildContextFreeSystemMessage | src/utils/message-factory.ts:7-12 | a system message whose instruction never contains the refusal phrase |
| MessageFactory.BuildContextualSystemMessage | src/utils/message-factory.ts:14-19 | a system message whose instruction contains the refusal phrase and both task markers |
| MessageFactory.BuildAssistantMessage | src/utils/message-factory.ts:21-26 | an assistant message with exactly the given content |
| MessageFactory.BuildUserMessage | src/utils/message-factory.ts:28-33 | a user message with exactly the given text |
| MessageFactory.SystemMessagesDiffer | src/utils/message-factory.ts:7-19 | the two system messages differ |
| ContextRecord.Replacement | src/utils/document-context.ts:28-33 | the new record keeps each argument that is a non-empty string and nulls every other one; it carries the update time |
| ContextRecord.HasContext | src/composables/useDocumentContext.ts:89 | `!!(documentId \|\| blockId)`: a context needs a non-empty id of either kind, and a record with no ids has none |
| ContextRecord.HasContextIffSomeId | src/stores/document-context.ts:26-28 | on a record built by an update, having a context means having a document id or a block id |
| ContextRecord.NoIdsNoContext | src/stores/document-context.ts:18-28 | the initial record, and an update with no (or empty) ids, have no context |
| DocumentContextStore.Store.constructor | src/stores/document-context.ts:18-23 | a fresh store has the all-null record, no context and the name "" |
| DocumentContextStore.Store.HasDocumentContext | src/stores/document-context.ts:26-28 | the getter holds exactly when the stored record has a context, so never without a non-empty id |
| DocumentContextStore.Store.DocumentName | src/stores/document-context.ts:30-32 | the name getter gives the stored name, or "" exactly when there is none |
| DocumentContextStore.Store.UpdateDocumentContext | src/stores/document-context.ts:35-42 | the record is replaced whole by the normalized arguments; there is then a context exactly when a non-empty id was given |
| DocumentContextStore.Store.GetDocumentContext | src/stores/document-context.ts:44-46 | the accessor returns a value equal to the record, which cannot alias it |
| DocumentContextUtil.ContextTracker.constructor | src/utils/document-context.ts:15-22 | the tracker starts with the all-null record and no subscribers |
| DocumentContextUtil.ContextTracker.UpdateDocumentContext | src/utils/document-context.ts:27-37 | the record is replaced; the subscribers are called in registration order with the new record, up to and including the first that throws, and the update throws exactly when one does; the list of subscribers is unchanged |
| DocumentContextUtil.ContextTracker.GetCurrentDocumentContext | src/utils/document-context.ts:42-44 | the copy equals the current record |
| DocumentContextUtil.ContextTracker.Subscribe | src/utils/document-context.ts:49-50 | the callback is appended after the existing subscribers |
| DocumentContextUtil.ContextTracker.Unsubscribe | src/utils/document-context.ts:53-58 | the returned function removes the callback's first registration and leaves the list unchanged if there is none |
| DocumentContextUtil.ContextTracker.CurrentDocumentContent | src/utils/document-context.ts:64-69 | the content of the current record is null without a context and never the empty string |
| DocumentContextUtil.NotifyAll | src/utils/document-context.ts:36 | the calls of `forEach`: subscribers in order, each with the given record, stopping after the first that throws; when none throws, every subscriber is called once |
| DocumentContextUtil.IndexOf | src/utils/document-context.ts:54 | -1 exactly when the callback is absent, and otherwise the index of its first occurrence |
| DocumentContextUtil.RemoveFirst | src/utils/document-context.ts:54-57 | removing the first registration shortens the list by one exactly when the callback is registered |
| DocumentContextUtil.RemoveFirstAt | src/utils/document-context.ts:54-57 | `splice(index, 1)` at the first occurrence removes exactly that one registration |
| DocumentContextUtil.RemoveFirstAbsent | src/utils/document-context.ts:55 | unsubscribing a callback that is not registered changes nothing |
| DocumentContextUtil.RemoveFirstMultiset | src/utils/document-context.ts:53-58 | unsubscribing removes one registration of the callback and keeps every other one |
| DocumentContextUtil.UnsubscribeTwice | src/utils/document-context.ts:53-58 | for a callback registered once, the unsubscribe function is idempotent |
| DocumentContextUtil.GetDocumentContentById | src/utils/document-context.ts:159-167 | the exported markdown when the export succeeds with non-empty content, and null otherwise |
| DocumentContextUtil.KramdownOf | src/utils/document-context.ts:93-99 | the block's kramdown when the read succeeds with a non-empty text, and null when it throws or is empty |
| DocumentContextUtil.BlockContent | src/utils/document-context.ts:81-101 | the block-only branch never yields the empty string |
| DocumentContextUtil.BlockContentCases | src/utils/document-context.ts:82-100 | with only a block id: a root document other than the block is exported; when the lookup throws, returns no other root, or the export of the other root throws, the block's kramdown is read |
| DocumentContextUtil.DocumentContent | src/utils/document-context.ts:64-108 | null without a context; a document id is exported directly; only a block id goes through the block branch; the result is never "" |
| DocumentContextUtil.SubDocumentsContent | src/utils/document-context.ts:113-154 | with inclusion off the result is null and no listing is made |
| DocumentContextUtil.GetSubDocumentsContent | src/utils/document-context.ts:113-154 | the loop builds the sections of the files with content, in listing order, and joins them with the separator |
| DocumentContextUtil.Title | src/utils/document-context.ts:137 | the alias, else the name, else "Untitled"; never empty |
| DocumentContextUtil.Section | src/utils/document-context.ts:138 | "## ", the title, a blank line, then the content verbatim |
| DocumentContextUtil.Sections | src/utils/document-context.ts:132-143 | at most one section per listed file |
| DocumentContextUtil.Join | src/utils/document-context.ts:146 | `join` of no parts is ""; otherwise the text starts with the first part and ends with the last |
| DocumentContextUtil.SectionsAppend | src/utils/document-context.ts:132-143 | the sections of a concatenation of listings are the concatenation of their sections, so order is kept |
| DocumentContextUtil.SectionsSingle | src/utils/document-context.ts:134-139 | one file contributes "## title\n\ncontent" exactly when its content is non-empty |
| DocumentContextUtil.SectionsEmptyIff | src/utils/document-context.ts:132-145 | no section is produced exactly when every listed file has no content |
| DocumentContextUtil.SubDocumentsNullIff | src/utils/document-context.ts:118-153 | null exactly when inclusion is off, the listing throws or is missing, or every file is empty |
| DocumentContextUtil.JoinContainsEachPart | src/utils/document-context.ts:146 | every section appears in the joined text |
| UseDocumentContext.EmbedDocument | src/composables/useDocumentContext.ts:55-62 | the message opens with the `Document:` header and fence, carries the document text verbatim, and closes with the question trailer |
| UseDocumentContext.QuestionTrailer | src/composables/useDocumentContext.ts:58-62 | the closing fence and rule, "Question: " and the question verbatim, then the answer instruction |
| UseDocumentContext.DocumentSystemMessage | src/composables/useDocumentContext.ts:33-53 | the inline system message tells the model to say "Not found in the document" and lists both task markers |
| UseDocumentContext.BuildContextualMessage | src/composables/useDocumentContext.ts:17-66 | with a context and non-empty fetched content, the question embeds the document and the system message is set; otherwise, including a throw, the question is unchanged and there is no system message |
| UseDocumentContext.ContextualDiffersIffSystemMessage | src/composables/useDocumentContext.ts:28-63 | the contextual message differs from the question exactly when a system message is returned, and that message has the refusal phrase |
| UseDocumentContext.TasksEmbeddedVerbatim | src/composables/useDocumentContext.ts:31-62 | a task list document is carried unchanged, checkboxes included, and the system message explains the checkbox syntax |
| UseDocumentContext.DisplayName | src/composables/useDocumentContext.ts:89-94 | the name is "" exactly without a context; otherwise the context's name or "Current Document" |
| UseDocumentContext.ContextView.constructor | src/composables/useDocumentContext.ts:10-12 | the view starts with no context, no name and an empty context object |
| UseDocumentContext.ContextView.OnContextUpdate | src/composables/useDocumentContext.ts:86-100 | the flag, the display name and the stored context follow the new record, and the change callback receives it once |
| Ollama.ModelsRequest | src/services/ollama.ts:59-60 | a GET to the base URL followed by "/api/tags", with a 5000 ms timeout |
| Ollama.BlankUrl | src/services/ollama.ts:54 | a URL is rejected as blank exactly when every character is white space (the empty URL included) |
| Ollama.IsProxyError | src/services/ollama.ts:89-94 | only an object with `code` -1 is the proxy's error envelope; null and non-objects never are |
| Ollama.ChatRequest | src/services/ollama.ts:144-156 | a JSON POST to the base URL followed by "/api/chat", carrying model, full history and temperature, never streamed, with a 60000 ms timeout |
| Ollama.ReadReply | src/services/ollama.ts:156-200 | a rejected proxy call is its own error; no reply or an empty body is a connection error; an unparsable body is a connection error at status 400 or above and "Invalid JSON response" below; the proxy's `code: -1` envelope is a connection error with its `msg` or "Connection refused"; any other parsed body is passed on; connection errors carry the base URL |
| Ollama.FetchOllamaModels | src/services/ollama.ts:52-119 | a blank URL gives [] without a request; a reply whose body has a `models` array gives that array; the only error that escapes is a connection error for the base URL; every other outcome, a rejected proxy call included, gives [] |
| Ollama.SendChatMessage | src/services/ollama.ts:129-205 | "Ollama URL is required" exactly for a blank URL, then "Model is required" exactly for an empty model; every error of the request is re-thrown, connection errors carrying the base URL; a null body is a TypeError; a reply with non-empty `message.content` gives that text; any other body is "Invalid response format" |
| Ollama.SameConnectionErrors | src/services/ollama.ts:62-97 | given the same proxy reply, the listing fails exactly when the chat request fails to connect, with the same error |
| UseChatMessages.FormatConnectionErrorMessage | src/composables/useChatMessages.ts:17-18 | the banner names the URL verbatim between fixed text |
| UseChatMessages.FormatConnectionErrorMessageInjective | src/composables/useChatMessages.ts:17-18 | different URLs give different banners |
| UseChatMessages.ReplaceLastTurn | src/composables/useChatMessages.ts:73-76 | the copy keeps every turn but the last, which becomes the contextual user turn; an empty list stays empty |
| UseChatMessages.PrepareMessagesWithContext | src/composables/useChatMessages.ts:67-85 | unchanged when no document was embedded; otherwise the last turn is replaced and the supplied system message goes first exactly when none is present |
| UseChatMessages.NoDuplicateSystemMessage | src/composables/useChatMessages.ts:73-84 | at most max(input count, 1) system messages, at most one extra turn, earlier turns kept in order |
| UseChatMessages.SystemMessageDelivered | src/composables/useChatMessages.ts:75-81 | when a document was embedded, a supplied system message reaches the request |
| UseChatMessages.ConnectionVerdict | src/composables/useChatMessages.ts:42-62 | no banner for a failed settings read or a blank URL; the banner for the configured URL exactly when the model listing fails |
| UseChatMessages.ConfiguredBy | src/composables/useChatMessages.ts:28-35 | configured only when the settings read succeeds with a non-empty URL and a non-empty model |
| UseChatMessages.ChatSession.constructor | src/composables/useChatMessages.ts:21-23 | not configured, not loading, no banner |
| UseChatMessages.ChatSession.CheckConfiguration | src/composables/useChatMessages.ts:28-36 | configured exactly when the settings read succeeds with a non-empty URL and model |
| UseChatMessages.ChatSession.CheckConnection | src/composables/useChatMessages.ts:42-62 | the banner becomes the connection verdict; the other flags are unchanged |
| UseChatMessages.ChatSession.SendMessage | src/composables/useChatMessages.ts:91-136 | a failed settings read, or a missing URL or model, fails before any chat request; otherwise the prepared list goes out; success clears the banner; a connection error sets it for the configured URL; a failure re-reads the configuration and is returned; `isLoading` ends false |
| UseChatMessages.ChatSession.ClearConnectionError | src/composables/useChatMessages.ts:141-143 | the banner is cleared and nothing else changes |
| UseChatHistory.StorageName | src/composables/useChatHistory.ts:20-22 | the prefix, "_", then the document id |
| UseChatHistory.StorageNameInjective | src/composables/useChatHistory.ts:20-22 | distinct documents have distinct storage names |
| UseChatHistory.StoredHistory | src/composables/useChatHistory.ts:33-45 | an absent value, an error object or a non-array loads as the empty history |
| UseChatHistory.ReadAfterWrite | src/composables/useChatHistory.ts:27-70 | loading a document after saving it gives the saved list, and other documents load as before |
| UseChatHistory.ClearTimeout | src/composables/useChatHistory.ts:81-83 | the timers that remain are exactly those with another handle |
| UseChatHistory.Cancel | src/composables/useChatHistory.ts:99-102 | the timers that remain are exactly the pending ones other than the one `saveTimeout` names; without one nothing changes |
| UseChatHistory.Schedule | src/composables/useChatHistory.ts:80-89 | the pending timers become those the cancel keeps plus the new one, bound to the id, which is last |
| UseChatHistory.Written | src/composables/useChatHistory.ts:60-69 | a completed save stores its snapshot under its name and touches no other name; a failed one changes nothing |
| UseChatHistory.SettleAsWritten | src/composables/useChatHistory.ts:86-89 | the callback always nulls `saveTimeout` once its save is done |
| UseChatHistory.SettledTimeout | src/composables/useChatHistory.ts:86-89 | the corrected callback nulls `saveTimeout` only when it still names its own timer |
| UseChatHistory.CoherentCancelLeavesNothing | src/composables/useChatHistory.ts:97-102 | when `saveTimeout` names the pending timer, the switch's cancel leaves nothing pending |
| UseChatHistory.ScheduleKeepsCoherent | src/composables/useChatHistory.ts:75-90 | a debounced save leaves exactly one pending timer, the one `saveTimeout` names |
| UseChatHistory.GuardedSettleKeepsCoherent | src/composables/useChatHistory.ts:86-89 | the corrected settle keeps `saveTimeout` naming the pending timer; the settle as written loses it whenever one is pending |
| UseChatHistory.OrphanedTimerAsWritten | src/composables/useChatHistory.ts:75-102 | as written, a timer set during the fired timer's save survives the switch |
| UseChatHistory.OrphanedTimerCorrected | src/composables/useChatHistory.ts:75-102 | with the corrected settle, the same steps leave nothing pending after the switch |
| UseChatHistory.ChatHistory.constructor | src/composables/useChatHistory.ts:11-15 | empty history, no document, not saving, no timer |
| UseChatHistory.ChatHistory.LoadChatHistory | src/composables/useChatHistory.ts:27-50 | the stored array when there is one; an error object, another value, an absent value or a failed read give [] |
| UseChatHistory.ChatHistory.StartSave | src/composables/useChatHistory.ts:55-63 | a save starts, with a snapshot of the list under the document's name, exactly when the id is non-empty and no save is in flight |
| UseChatHistory.ChatHistory.SaveChatHistory | src/composables/useChatHistory.ts:55-70 | a direct save is dropped for an empty id or while a save is in flight |
| UseChatHistory.ChatHistory.CompleteSave | src/composables/useChatHistory.ts:63-69 | the snapshot is stored unless the write fails, and `isSaving` is false either way |
| UseChatHistory.ChatHistory.DebouncedSave | src/composables/useChatHistory.ts:75-90 | no id schedules nothing; otherwise the pending timer is replaced by one bound to the given id, which is then the only one |
| UseChatHistory.ChatHistory.Fire | src/composables/useChatHistory.ts:86-89 | the pending callback saves under its captured id, or settles at once when that save is dropped |
| UseChatHistory.ChatHistory.SwitchToDocument | src/composables/useChatHistory.ts:97-117 | the pending timer is cancelled without saving, an in-flight save completes, the new history (or [] for no id) is loaded, and the new id is recorded |
| UseChatHistory.ChatHistory.AddMessageToHistory | src/composables/useChatHistory.ts:122-126 | one message appended at the end, earlier ones unchanged, and a save of the current document scheduled |
| UseChatHistory.ChatHistory.ClearHistory | src/composables/useChatHistory.ts:131-135 | the list is empty and a save of the current document is scheduled |
| UseChatHistory.SavedHistoryRestored | src/composables/useChatHistory.ts:55-117 | after a completed save under a document, switching to it restores exactly the saved list |
| UseChatHistory.SwitchAfterSaveKeepsHistories | src/composables/useChatHistory.ts:75-117 | with the corrected settle, the steps of the orphaned-timer case leave each document's stored history its own |

## Left out

- The host event handler in `src/index.ts` that calls `updateDocumentContext` is not part of this model.
- The value of `CHAT_HISTORY_PREFIX`: `src/constants.ts` is not part of this model, so the prefix is a constant of the chat history object.
- Concurrency is not modelled. Each awaited call completes at once, except the chat-history save, which is split at its `await`. The switch's wait loop is modelled as the in-flight save completing; a timer firing during the switch's own awaits is not modelled.
- UseChatHistory.ChatHistory.StartSave: the saved snapshot is the list at the call. The code passes the live array to `plugin.saveData`, so a push during the write could reach storage if the host serialises late.
- Time: the 300 ms debounce is not modelled beyond the order in which timers fire, which is the order they were set. The 5000 ms and 60000 ms proxy timeouts are constants only.
- `Date.now()` is the parameter `now`.
- The host API, the forward proxy and `JSON.parse` are inputs. A repeated call with the same argument gets the same reply, which matters only for the kramdown fallback. The text of `JSON.parse`'s error message, which the code puts into the "Connection failed with status" message, is not modelled; that cause carries only the status.
- Vue and Pinia reactivity, console logging (including the development-mode log), and `openDocument`'s window navigation.
- Temperature is an opaque real number passed through.
- Values the code treats dynamically are folded into the datatypes: a non-string `msg`, a `models` that is not an array, a `message` without `content`, and a stored value that is neither an array nor an error object.
- UseChatMessages.ChatSession.SendMessage: `isLoading` is stated only after the call; its being true during the awaited calls is not observable in a model where they complete at once.
- UseChatHistory.ChatHistory.CompleteSave: uses the corrected settle of `saveTimeout` (see Findings). The as-written settle is modelled by `SettleAsWritten` and shown in `OrphanedTimerAsWritten`.
- UseChatHistory.ChatHistory.DebouncedSave: its promise that the new timer is then the only pending one holds because the class uses the corrected settle. As written, a timer orphaned by the line-88 settle can stay pending beside the new one.
- UseChatHistory.ChatHistory.AddMessageToHistory: the same holds for the single pending timer it promises after its debounced save.
- UseChatHistory.ChatHistory.ClearHistory: the same holds for the single pending timer it promises after its debounced save.
- UseChatHistory.ChatHistory.Fire: its promise that nothing is pending afterwards relies on the corrected settle. As written, an orphaned timer could still be pending.
- UseChatHistory.ChatHistory.SwitchToDocument: its promise that nothing is pending after the switch relies on the corrected settle. As written, the orphaned timer survives the switch (`OrphanedTimerAsWritten`).
- The declarations under `src/types` are used only to shape the datatypes.

## Findings

| source | as written | input that shows it | evidently intended | confidence | as-written member | corrected member |
|---|---|---|---|---|---|---|
| src/composables/useChatHistory.ts:86-89 | after its awaited save, the timer callback sets `saveTimeout = null` whatever timer `saveTimeout` names by then | on document A: add a message; its timer fires and the save is in flight; add a second message (a new timer for A); the save completes and nulls `saveTimeout`; switch to B. The switch finds nothing to cancel; the second timer later fires and stores B's history under A's name | the callback clears `saveTimeout` only while it still names its own timer, so a switch cancels every pending save and one document's history is never written under another's name | not executed; high | UseChatHistory.OrphanedTimerAsWritten | UseChatHistory.GuardedSettleKeepsCoherent |
