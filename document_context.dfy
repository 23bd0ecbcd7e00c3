/**
 * Module-level document tracking (src/utils/document-context.ts): the current
 * record, the list of subscriber callbacks, and the functions that turn the
 * current record into markdown through the host document API.
 *
 * The host API is an input: each call's reply (it threw, or it resolved to a
 * possibly missing value) is given by a function, so a repeated call with the
 * same argument gets the same reply.
 */
module DocumentContextUtil {
  import opened Wrappers
  import opened JsText
  import opened ContextRecord

  /** A subscriber callback, by identity: JavaScript compares functions by reference. */
  type Subscriber = nat

  /** One call `sub(documentContext)` made while notifying. */
  datatype Notification = Notification(subscriber: Subscriber, context: DocumentContext)

  /** What an awaited host API call produced: it threw, or it resolved to a value that may be null or undefined. */
  datatype Reply<T> = Threw | Returned(value: Option<T>)

  /** An entry of `listDocsByPath(...).files`. */
  datatype DocFile = DocFile(id: string, name: Option<string>, alias: Option<string>)

  /** The host calls this module makes, reduced to the field each caller reads. */
  datatype Api = Api(
    exportMdContent: string -> Reply<string>,                  // exportMdContent(id)?.content
    blockRootId: string -> Reply<string>,                      // getBlockByID(id)?.root_id
    blockKramdown: string -> Reply<string>,                    // getBlockKramdown(id)?.kramdown
    listDocsByPath: (string, string) -> Reply<seq<DocFile>>)   // listDocsByPath(notebook, path)?.files

  class ContextTracker {
    var documentContext: DocumentContext
    var subscribers: seq<Subscriber>

    constructor ()
      ensures documentContext == InitialContext && subscribers == []
    {
      documentContext := InitialContext;
      subscribers := [];
    }

    /**
     * `updateDocumentContext(documentId?, blockId?, documentName?)`: replaces the
     * record and calls the subscribers with it in order, whether or not anything
     * changed. `throws` says which callbacks throw; the first that does ends the
     * notification and the update throws (`threw`), with the record already replaced.
     */
    method UpdateDocumentContext(documentId: Option<string>, blockId: Option<string>, documentName: Option<string>,
                                 now: int, throws: Subscriber -> bool)
      returns (delivered: seq<Notification>, threw: bool)
      modifies this
      ensures documentContext == Replacement(documentId, blockId, documentName, now)
      ensures subscribers == old(subscribers)
      ensures NotifiedInOrder(subscribers, documentContext, throws, delivered, threw)
    {
      documentContext := Replacement(documentId, blockId, documentName, now);
      delivered, threw := NotifyAll(subscribers, documentContext, throws);
    }

    /** `getCurrentDocumentContext()`: a copy equal to the current record. */
    method GetCurrentDocumentContext() returns (c: DocumentContext)
      ensures c == documentContext
    {
      c := documentContext;
    }

    /** `subscribeToDocumentContext(callback)`: registers the callback after the existing ones. */
    method Subscribe(callback: Subscriber)
      modifies this
      ensures subscribers == old(subscribers) + [callback]
      ensures documentContext == old(documentContext)
    {
      subscribers := subscribers + [callback];
    }

    /** The function `subscribeToDocumentContext` returns: `indexOf`, then `splice(index, 1)` when found. */
    method Unsubscribe(callback: Subscriber)
      modifies this
      ensures subscribers == RemoveFirst(old(subscribers), callback)
      ensures documentContext == old(documentContext)
    {
      var index := IndexOf(subscribers, callback);
      if index > -1 {
        RemoveFirstAt(subscribers, callback, index);
        subscribers := subscribers[..index] + subscribers[index + 1..];
      } else {
        RemoveFirstAbsent(subscribers, callback);
      }
    }

    /** `getCurrentDocumentContent()` on the current record. */
    function CurrentDocumentContent(api: Api): (r: Option<string>)
      reads this
      ensures r.Some? ==> r.value != ""
      ensures !HasContext(documentContext) ==> r == None
    {
      DocumentContent(documentContext, api)
    }
  }

  /**
   * The calls `subscribers.forEach(sub => sub(context))` makes: the subscribers
   * in order, up to and including the first that throws; `threw` exactly when
   * one did, and then it is the last one called. Without a throw, every
   * subscriber is called once.
   */
  ghost predicate NotifiedInOrder(subscribers: seq<Subscriber>, context: DocumentContext, throws: Subscriber -> bool,
                                  delivered: seq<Notification>, threw: bool)
  {
    && |delivered| <= |subscribers|
    && (forall i | 0 <= i < |delivered| :: delivered[i] == Notification(subscribers[i], context))
    && (forall i | 0 <= i < |delivered| - 1 :: !throws(subscribers[i]))
    && (threw <==> |delivered| > 0 && throws(subscribers[|delivered| - 1]))
    && (!threw ==> |delivered| == |subscribers|)
  }

  /** `subscribers.forEach(sub => sub(context))`, where a callback that throws stops the loop. */
  method NotifyAll(subscribers: seq<Subscriber>, context: DocumentContext, throws: Subscriber -> bool)
    returns (delivered: seq<Notification>, threw: bool)
    ensures NotifiedInOrder(subscribers, context, throws, delivered, threw)
    ensures (forall i | 0 <= i < |subscribers| :: !throws(subscribers[i])) ==> !threw
  {
    delivered, threw := [], false;
    var i := 0;
    while i < |subscribers|
      invariant 0 <= i <= |subscribers|
      invariant |delivered| == i
      invariant forall k | 0 <= k < i :: delivered[k] == Notification(subscribers[k], context)
      invariant forall k | 0 <= k < i :: !throws(subscribers[k])
      invariant !threw
    {
      delivered := delivered + [Notification(subscribers[i], context)];
      if throws(subscribers[i]) {
        threw := true;
        return;
      }
      i := i + 1;
    }
  }

  /** `subscribers.indexOf(callback)`. */
  method IndexOf(s: seq<Subscriber>, x: Subscriber) returns (index: int)
    ensures -1 <= index < |s|
    ensures index == -1 <==> x !in s
    ensures 0 <= index ==> s[index] == x && x !in s[..index]
  {
    index := 0;
    while index < |s|
      invariant 0 <= index <= |s|
      invariant x !in s[..index]
    {
      if s[index] == x {
        return;
      }
      index := index + 1;
    }
    assert s[..index] == s;
    index := -1;
  }

  /** `s` without its first occurrence of `x` (unchanged when `x` does not occur). */
  function RemoveFirst(s: seq<Subscriber>, x: Subscriber): (r: seq<Subscriber>)
    ensures |r| == if x in s then |s| - 1 else |s|
  {
    if s == [] then []
    else if s[0] == x then s[1..]
    else [s[0]] + RemoveFirst(s[1..], x)
  }

  lemma {:induction false} RemoveFirstAt(s: seq<Subscriber>, x: Subscriber, i: nat)
    requires i < |s| && s[i] == x && x !in s[..i]
    ensures RemoveFirst(s, x) == s[..i] + s[i + 1..]
  {
    if i > 0 {
      assert s[0] != x by { assert s[0] == s[..i][0]; }
      assert s[1..][..i - 1] == s[..i][1..];
      RemoveFirstAt(s[1..], x, i - 1);
      assert s[..i] == [s[0]] + s[1..][..i - 1];
    }
  }

  lemma {:induction false} RemoveFirstAbsent(s: seq<Subscriber>, x: Subscriber)
    requires x !in s
    ensures RemoveFirst(s, x) == s
  {
    if s != [] {
      RemoveFirstAbsent(s[1..], x);
    }
  }

  /** Unsubscribing takes away exactly one registration of the callback, if it has one. */
  lemma {:induction false} RemoveFirstMultiset(s: seq<Subscriber>, x: Subscriber)
    ensures multiset(RemoveFirst(s, x)) == multiset(s) - multiset{x}
  {
    if s != [] {
      assert s == [s[0]] + s[1..];
      if s[0] != x {
        RemoveFirstMultiset(s[1..], x);
      }
    }
  }

  /** A callback registered once is gone after its unsubscribe, so calling that function again changes nothing. */
  lemma UnsubscribeTwice(s: seq<Subscriber>, x: Subscriber)
    requires multiset(s)[x] <= 1
    ensures x !in RemoveFirst(s, x)
    ensures RemoveFirst(RemoveFirst(s, x), x) == RemoveFirst(s, x)
  {
    RemoveFirstMultiset(s, x);
    assert multiset(RemoveFirst(s, x))[x] == 0;
    RemoveFirstAbsent(RemoveFirst(s, x), x);
  }

  /** `getDocumentContentById(documentId)`: the exported markdown, or null when the export throws or is empty. */
  function GetDocumentContentById(api: Api, documentId: string): (r: Option<string>)
    ensures r.Some? <==> api.exportMdContent(documentId).Returned? && Truthy(api.exportMdContent(documentId).value)
    ensures r.Some? ==> r == api.exportMdContent(documentId).value
  {
    match api.exportMdContent(documentId)
    case Threw => None
    case Returned(content) => OrNull(content)
  }

  /** `result?.kramdown || null` for the block, with a throw reaching the outer `catch` (null). */
  function KramdownOf(api: Api, blockId: string): (r: Option<string>)
    ensures r.Some? <==> api.blockKramdown(blockId).Returned? && Truthy(api.blockKramdown(blockId).value)
    ensures r.Some? ==> r == api.blockKramdown(blockId).value
  {
    match api.blockKramdown(blockId)
    case Threw => None
    case Returned(kramdown) => OrNull(kramdown)
  }

  /**
   * The block-only branch of `getCurrentDocumentContent`: the inner `try` covers
   * the block lookup, the export of the root document and the kramdown read; a
   * throw in any of them falls back to reading the block's kramdown once more.
   */
  function BlockContent(api: Api, blockId: string): (r: Option<string>)
    ensures r.Some? ==> r.value != ""
  {
    var attempt: Reply<string> :=
      match api.blockRootId(blockId)
      case Threw => Threw
      case Returned(rootId) =>
        var actualDocumentId := Or(rootId, blockId);
        if actualDocumentId != blockId then api.exportMdContent(actualDocumentId) else api.blockKramdown(blockId);
    match attempt
    case Returned(text) => OrNull(text)
    case Threw => KramdownOf(api, blockId)
  }

  /** `getCurrentDocumentContent()` for a given record. */
  function DocumentContent(c: DocumentContext, api: Api): (r: Option<string>)
    ensures r.Some? ==> r.value != ""
    ensures !HasContext(c) ==> r == None
    ensures Truthy(c.documentId) ==> r == GetDocumentContentById(api, c.documentId.value)
    ensures !Truthy(c.documentId) && Truthy(c.blockId) ==> r == BlockContent(api, c.blockId.value)
  {
    if Truthy(c.documentId) then GetDocumentContentById(api, c.documentId.value)
    else if Truthy(c.blockId) then BlockContent(api, c.blockId.value)
    else None
  }

  /** With only a block id: a root document other than the block is exported; otherwise, or on a throw, the block's kramdown is read. */
  lemma BlockContentCases(api: Api, blockId: string)
    ensures api.blockRootId(blockId).Threw? ==> BlockContent(api, blockId) == KramdownOf(api, blockId)
    ensures api.blockRootId(blockId).Returned? && !Truthy(api.blockRootId(blockId).value)
            ==> BlockContent(api, blockId) == KramdownOf(api, blockId)
    ensures api.blockRootId(blockId).Returned? && api.blockRootId(blockId).value == Some(blockId)
            ==> BlockContent(api, blockId) == KramdownOf(api, blockId)
    ensures var root := api.blockRootId(blockId);
            root.Returned? && Truthy(root.value) && root.value.value != blockId
            && api.exportMdContent(root.value.value).Returned?
            ==> BlockContent(api, blockId) == GetDocumentContentById(api, root.value.value)
    ensures var root := api.blockRootId(blockId);
            root.Returned? && Truthy(root.value) && root.value.value != blockId
            && api.exportMdContent(root.value.value).Threw?
            ==> BlockContent(api, blockId) == KramdownOf(api, blockId)
  {
  }

  /** `file.alias || file.name || 'Untitled'`: never empty, and the alias wins over the name. */
  function Title(f: DocFile): (r: string)
    ensures r != ""
    ensures Truthy(f.alias) ==> r == f.alias.value
    ensures !Truthy(f.alias) && Truthy(f.name) ==> r == f.name.value
    ensures !Truthy(f.alias) && !Truthy(f.name) ==> r == "Untitled"
  {
    Or(f.alias, Or(f.name, "Untitled"))
  }

  /** The header and body pushed for one sub-document: a level-2 heading with the title, a blank line, the content. */
  function Section(title: string, content: string): (r: string)
    ensures |r| == 5 + |title| + |content|
    ensures r[..3] == "## " && r[3..3 + |title|] == title && r[3 + |title|..5 + |title|] == "\n\n"
    ensures r[5 + |title|..] == content
  {
    var r := "## " + title + "\n\n" + content;
    assert r[..5 + |title|] == "## " + title + "\n\n";
    assert r[..3 + |title|] == "## " + title;
    r
  }

  const SectionSeparator: string := "\n\n---\n\n"

  /** The sections the loop of `getSubDocumentsContent` collects from `files`, in listing order. */
  function Sections(api: Api, files: seq<DocFile>): (r: seq<string>)
    ensures |r| <= |files|
  {
    if files == [] then []
    else
      var last := files[|files| - 1];
      var init := Sections(api, files[..|files| - 1]);
      match GetDocumentContentById(api, last.id)
      case None => init
      case Some(content) => init + [Section(Title(last), content)]
  }

  /** `parts.join(sep)`: it starts with the first part and ends with the last. */
  function Join(parts: seq<string>, sep: string): (r: string)
    ensures parts == [] ==> r == ""
    ensures parts != [] ==> |r| >= |parts[0]| && r[..|parts[0]|] == parts[0]
    ensures parts != [] ==> |r| >= |parts[|parts| - 1]| && r[|r| - |parts[|parts| - 1]|..] == parts[|parts| - 1]
  {
    if |parts| == 0 then ""
    else if |parts| == 1 then parts[0]
    else Join(parts[..|parts| - 1], sep) + sep + parts[|parts| - 1]
  }

  /** What `getSubDocumentsContent(notebookId, path, includeSubDocuments)` resolves to. */
  function SubDocumentsContent(api: Api, notebookId: string, path: string, includeSubDocuments: bool)
    : (r: Option<string>)
    ensures !includeSubDocuments ==> r == None
  {
    if !includeSubDocuments then None
    else
      match api.listDocsByPath(notebookId, path)
      case Threw => None
      case Returned(None) => None
      case Returned(Some(files)) =>
        var sections := Sections(api, files);
        if |sections| > 0 then Some(Join(sections, SectionSeparator)) else None
  }

  /** `getSubDocumentsContent`, with its `for` loop over the listed files. */
  method GetSubDocumentsContent(api: Api, notebookId: string, path: string, includeSubDocuments: bool)
    returns (r: Option<string>)
    ensures r == SubDocumentsContent(api, notebookId, path, includeSubDocuments)
  {
    if !includeSubDocuments {
      return None;
    }
    var listing := api.listDocsByPath(notebookId, path);
    if listing.Threw? || listing.value.None? || |listing.value.value| == 0 {
      return None;
    }
    var files := listing.value.value;
    var subDocumentsContent: seq<string> := [];
    var i := 0;
    while i < |files|
      invariant 0 <= i <= |files|
      invariant subDocumentsContent == Sections(api, files[..i])
    {
      var file := files[i];
      var content := GetDocumentContentById(api, file.id);
      assert files[..i + 1][..i] == files[..i];
      if content.Some? {
        subDocumentsContent := subDocumentsContent + [Section(Title(file), content.value)];
      }
      i := i + 1;
    }
    assert files[..i] == files;
    if |subDocumentsContent| > 0 {
      return Some(Join(subDocumentsContent, SectionSeparator));
    }
    return None;
  }

  /** Listing order is kept: the sections of `a + b` are those of `a` followed by those of `b`. */
  lemma {:induction false} SectionsAppend(api: Api, a: seq<DocFile>, b: seq<DocFile>)
    ensures Sections(api, a + b) == Sections(api, a) + Sections(api, b)
  {
    if b == [] {
      assert a + b == a;
    } else {
      var ab := a + b;
      assert ab[..|ab| - 1] == a + b[..|b| - 1];
      assert ab[|ab| - 1] == b[|b| - 1];
      SectionsAppend(api, a, b[..|b| - 1]);
    }
  }

  /** A single file yields its section exactly when its content is non-empty. */
  lemma SectionsSingle(api: Api, f: DocFile)
    ensures GetDocumentContentById(api, f.id).None? ==> Sections(api, [f]) == []
    ensures GetDocumentContentById(api, f.id).Some?
            ==> Sections(api, [f]) == [Section(Title(f), GetDocumentContentById(api, f.id).value)]
  {
    assert [f][..0] == [];
  }

  /** No section survives exactly when no listed file has non-empty content. */
  lemma {:induction false} SectionsEmptyIff(api: Api, files: seq<DocFile>)
    ensures Sections(api, files) == [] <==> forall k | 0 <= k < |files| :: GetDocumentContentById(api, files[k].id).None?
  {
    if files != [] {
      var init := files[..|files| - 1];
      SectionsEmptyIff(api, init);
      assert forall k | 0 <= k < |init| :: init[k] == files[k];
    }
  }

  /** The sub-document text is null exactly when inclusion is off, the listing fails or is empty, or every file is empty. */
  lemma SubDocumentsNullIff(api: Api, notebookId: string, path: string, includeSubDocuments: bool)
    ensures SubDocumentsContent(api, notebookId, path, includeSubDocuments).None? <==>
            || !includeSubDocuments
            || api.listDocsByPath(notebookId, path).Threw?
            || api.listDocsByPath(notebookId, path).value.None?
            || forall k | 0 <= k < |api.listDocsByPath(notebookId, path).value.value| ::
                 GetDocumentContentById(api, api.listDocsByPath(notebookId, path).value.value[k].id).None?
  {
    var listing := api.listDocsByPath(notebookId, path);
    if listing.Returned? && listing.value.Some? {
      SectionsEmptyIff(api, listing.value.value);
    }
  }

  /** Joining keeps every part, in order, separated by the separator. */
  lemma {:induction false} JoinContainsEachPart(parts: seq<string>, sep: string, i: nat)
    requires i < |parts|
    ensures Contains(Join(parts, sep), parts[i])
  {
    if |parts| == 1 {
      ContainsMiddle("", parts[0], "");
      assert "" + parts[0] + "" == parts[0];
    } else if i == |parts| - 1 {
      ContainsMiddle(Join(parts[..|parts| - 1], sep) + sep, parts[i], "");
      assert Join(parts[..|parts| - 1], sep) + sep + parts[i] + "" == Join(parts, sep);
    } else {
      JoinContainsEachPart(parts[..|parts| - 1], sep, i);
      ContainsInLeft(Join(parts[..|parts| - 1], sep), sep + parts[|parts| - 1], parts[i]);
      assert Join(parts[..|parts| - 1], sep) + (sep + parts[|parts| - 1]) == Join(parts, sep);
    }
  }
}
