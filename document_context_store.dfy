/**
 * The document-context store (src/stores/document-context.ts): one
 * `documentContext` cell, replaced whole by `updateDocumentContext`, with two
 * derived getters and a copying accessor.
 */
module DocumentContextStore {
  import opened Wrappers
  import opened JsText
  import opened ContextRecord

  class Store {
    var documentContext: DocumentContext

    /** The state a fresh store starts with: no document, no block, no name, time 0. */
    constructor ()
      ensures documentContext == InitialContext
      ensures !HasDocumentContext() && DocumentName() == ""
    {
      documentContext := InitialContext;
    }

    /** The `hasDocumentContext` getter: the stored record has a document or block id. */
    predicate HasDocumentContext()
      reads this
      ensures HasDocumentContext() <==> HasContext(documentContext)
      ensures !HasDocumentContext() ==> !Truthy(documentContext.documentId) && !Truthy(documentContext.blockId)
    {
      HasContext(documentContext)
    }

    /** The `documentName` getter: the stored name, or the empty string when there is none. */
    function DocumentName(): (r: string)
      reads this
      ensures r == "" <==> !Truthy(documentContext.documentName)
      ensures Truthy(documentContext.documentName) ==> r == documentContext.documentName.value
    {
      Or(documentContext.documentName, "")
    }

    /** `updateDocumentContext(documentId?, blockId?, documentName?)`, stamped with the caller's time. */
    method UpdateDocumentContext(documentId: Option<string>, blockId: Option<string>, documentName: Option<string>, now: int)
      modifies this
      ensures documentContext == Replacement(documentId, blockId, documentName, now)
      ensures HasDocumentContext() <==> Truthy(documentId) || Truthy(blockId)
    {
      documentContext := Replacement(documentId, blockId, documentName, now);
    }

    /** `getDocumentContext()`: a copy of the state; being a value, changing it cannot touch the store. */
    method GetDocumentContext() returns (c: DocumentContext)
      ensures c == documentContext
    {
      c := documentContext;
    }
  }
}
