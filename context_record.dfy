/**
 * The `DocumentContext` record that both src/utils/document-context.ts and
 * src/stores/document-context.ts declare: the active document's id, block id,
 * display name and the time of the last update. It is only ever replaced whole.
 */
module ContextRecord {
  import opened Wrappers
  import opened JsText

  datatype DocumentContext = DocumentContext(
    documentId: Option<string>,
    blockId: Option<string>,
    documentName: Option<string>,
    lastUpdateTime: int)

  /** The record both modules start from: everything null, time 0. */
  const InitialContext: DocumentContext := DocumentContext(None, None, None, 0)

  /** A record as `updateDocumentContext` builds it: every text field null or non-empty. */
  predicate Normalized(c: DocumentContext) {
    && (c.documentId.Some? ==> c.documentId.value != "")
    && (c.blockId.Some? ==> c.blockId.value != "")
    && (c.documentName.Some? ==> c.documentName.value != "")
  }

  /**
   * The record `updateDocumentContext(documentId, blockId, documentName)` stores:
   * each missing or empty argument becomes null; `now` is the caller's `Date.now()`.
   */
  function Replacement(documentId: Option<string>, blockId: Option<string>, documentName: Option<string>, now: int)
    : (c: DocumentContext)
    ensures Normalized(c)
    ensures c.documentId.Some? <==> Truthy(documentId)
    ensures c.blockId.Some? <==> Truthy(blockId)
    ensures c.documentName.Some? <==> Truthy(documentName)
    ensures c.documentId.Some? ==> c.documentId == documentId
    ensures c.blockId.Some? ==> c.blockId == blockId
    ensures c.documentName.Some? ==> c.documentName == documentName
    ensures c.lastUpdateTime == now
  {
    DocumentContext(OrNull(documentId), OrNull(blockId), OrNull(documentName), now)
  }

  /** `!!(context.documentId || context.blockId)`: a non-empty id of either kind. */
  predicate HasContext(c: DocumentContext)
    ensures HasContext(c) ==> (c.documentId.Some? && c.documentId.value != "") || (c.blockId.Some? && c.blockId.value != "")
    ensures c.documentId.None? && c.blockId.None? ==> !HasContext(c)
  {
    Truthy(c.documentId) || Truthy(c.blockId)
  }

  /** On a normalized record, having a context is just having a document id or a block id. */
  lemma HasContextIffSomeId(c: DocumentContext)
    requires Normalized(c)
    ensures HasContext(c) <==> c.documentId.Some? || c.blockId.Some?
  {
  }

  /** Neither the initial record nor a replacement without ids has a context. */
  lemma NoIdsNoContext(documentName: Option<string>, now: int)
    ensures !HasContext(InitialContext)
    ensures !HasContext(Replacement(None, None, documentName, now))
    ensures !HasContext(Replacement(Some(""), Some(""), documentName, now))
  {
  }
}
