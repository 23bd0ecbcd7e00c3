/**
 * Per-document chat history (src/composables/useChatHistory.ts): the live
 * message list, the current document id, the `isSaving` gate and the debounce
 * timer, over the plugin's key-value storage.
 *
 * Time is not modelled; the event loop is. A `setTimeout` callback is a
 * `Timer` in `scheduled` (all share the 300 ms delay, so they fire in the order
 * they were set) and `Fire` runs the oldest one. `saveChatHistory` is split at
 * its `await`: the synchronous part starts a save (`inFlight`), and
 * `CompleteSave` is the write resolving (or rejecting) and the code after it.
 */
module UseChatHistory {
  import opened Wrappers
  import opened JsText
  import opened Messages

  /** `getStorageName(documentId)`: the prefix, an underscore, then the id. */
  function StorageName(prefix: string, documentId: string): (r: string)
    ensures |r| == |prefix| + 1 + |documentId|
    ensures r[..|prefix|] == prefix && r[|prefix|] == '_' && r[|prefix| + 1..] == documentId
  {
    var r := prefix + "_" + documentId;
    assert r[..|prefix|] == prefix;
    r
  }

  /** Distinct documents are stored under distinct names. */
  lemma StorageNameInjective(prefix: string, a: string, b: string)
    ensures StorageName(prefix, a) == StorageName(prefix, b) <==> a == b
  {
    if StorageName(prefix, a) == StorageName(prefix, b) {
      assert a == StorageName(prefix, a)[|prefix| + 1..];
    }
  }

  /** A value `plugin.loadData` can give: an array of messages, an error object (it has `code`), or anything else. */
  datatype Blob = MessageArray(items: seq<Message>) | ErrorObject(code: int) | OtherValue

  /** What loading `key` puts into `messages`: the stored array, otherwise the empty history. */
  function StoredHistory(storage: map<string, Blob>, key: string): (r: seq<Message>)
    ensures key !in storage ==> r == []
    ensures key in storage && !storage[key].MessageArray? ==> r == []
  {
    if key in storage && storage[key].MessageArray? then storage[key].items else []
  }

  /**
   * A save followed by a load of the same document gives back the saved list,
   * and leaves what every other document loads as it was.
   */
  lemma ReadAfterWrite(storage: map<string, Blob>, prefix: string, a: string, b: string, saved: seq<Message>)
    ensures StoredHistory(storage[StorageName(prefix, a) := MessageArray(saved)], StorageName(prefix, a)) == saved
    ensures a != b ==>
      StoredHistory(storage[StorageName(prefix, a) := MessageArray(saved)], StorageName(prefix, b))
      == StoredHistory(storage, StorageName(prefix, b))
  {
    StorageNameInjective(prefix, a, b);
  }

  /** A pending `setTimeout` callback: its handle and the document id it captured. */
  datatype Timer = Timer(handle: nat, documentId: string)

  /** `clearTimeout(handle)`: the callback with that handle will not run; a handle that already ran changes nothing. */
  function ClearTimeout(scheduled: seq<Timer>, handle: nat): (r: seq<Timer>)
    ensures forall t :: t in r <==> t in scheduled && t.handle != handle
    ensures (forall t | t in scheduled :: t.handle == handle) ==> r == []
  {
    if scheduled == [] then []
    else (if scheduled[0].handle == handle then [] else [scheduled[0]]) + ClearTimeout(scheduled[1..], handle)
  }

  /** `if (saveTimeout) clearTimeout(saveTimeout)`. */
  function Cancel(saveTimeout: Option<nat>, scheduled: seq<Timer>): (r: seq<Timer>)
    ensures saveTimeout.Some? ==> forall t :: t in r <==> t in scheduled && t.handle != saveTimeout.value
    ensures saveTimeout.None? ==> r == scheduled
  {
    if saveTimeout.Some? then ClearTimeout(scheduled, saveTimeout.value) else scheduled
  }

  /** The timers after `debouncedSave(documentId)` sets a new one with `handle`. */
  function Schedule(saveTimeout: Option<nat>, scheduled: seq<Timer>, handle: nat, documentId: string): (r: seq<Timer>)
    ensures |r| > 0 && r[|r| - 1] == Timer(handle, documentId)
    ensures forall t :: t in r <==>
      t == Timer(handle, documentId) || (t in scheduled && (saveTimeout.None? || t.handle != saveTimeout.value))
  {
    Cancel(saveTimeout, scheduled) + [Timer(handle, documentId)]
  }

  /** A save that has passed its guard and is waiting on `plugin.saveData`; `firedBy` is the timer that started it, if any. */
  datatype InFlightSave = InFlightSave(key: string, snapshot: seq<Message>, firedBy: Option<nat>)

  /** What the stored data becomes when a save finishes: the snapshot under its key, unless the write failed. */
  function Written(storage: map<string, Blob>, inFlight: Option<InFlightSave>, writeFails: bool): (r: map<string, Blob>)
    ensures inFlight.None? || writeFails ==> r == storage
    ensures inFlight.Some? && !writeFails ==>
      r.Keys == storage.Keys + {inFlight.value.key} && r[inFlight.value.key] == MessageArray(inFlight.value.snapshot)
      && forall k | k in storage && k != inFlight.value.key :: r[k] == storage[k]
  {
    if inFlight.Some? && !writeFails then storage[inFlight.value.key := MessageArray(inFlight.value.snapshot)] else storage
  }

  /**
   * At most one callback is pending, and it is the one `saveTimeout` names, so
   * cancelling `saveTimeout` leaves nothing pending.
   */
  predicate Coherent(saveTimeout: Option<nat>, scheduled: seq<Timer>) {
    scheduled == [] || (|scheduled| == 1 && saveTimeout == Some(scheduled[0].handle))
  }

  /**
   * What the timer callback leaves in `saveTimeout` once its save is done, as
   * written: always null, even when a newer timer has been set meanwhile.
   */
  function SettleAsWritten(saveTimeout: Option<nat>, fired: nat): (r: Option<nat>)
    ensures r == None
  {
    None
  }

  /** The callback settling as intended: it forgets `saveTimeout` only if that is still its own timer. */
  function SettledTimeout(saveTimeout: Option<nat>, fired: nat): (r: Option<nat>)
    ensures r == None <==> saveTimeout == None || saveTimeout == Some(fired)
    ensures r.Some? ==> r == saveTimeout
  {
    if saveTimeout == Some(fired) then None else saveTimeout
  }

  /** Under coherence the switch's cancel leaves no save pending for the document being left. */
  lemma CoherentCancelLeavesNothing(saveTimeout: Option<nat>, scheduled: seq<Timer>)
    requires Coherent(saveTimeout, scheduled)
    ensures Cancel(saveTimeout, scheduled) == []
  {
  }

  /** Setting a new timer keeps coherence: the new timer is then the only one pending. */
  lemma ScheduleKeepsCoherent(saveTimeout: Option<nat>, scheduled: seq<Timer>, handle: nat, documentId: string)
    requires Coherent(saveTimeout, scheduled)
    ensures Schedule(saveTimeout, scheduled, handle, documentId) == [Timer(handle, documentId)]
    ensures Coherent(Some(handle), Schedule(saveTimeout, scheduled, handle, documentId))
  {
    CoherentCancelLeavesNothing(saveTimeout, scheduled);
  }

  /**
   * The guarded settle keeps coherence whenever the fired timer is no longer
   * pending; as written the settle does not, for it forgets a timer that is.
   */
  lemma GuardedSettleKeepsCoherent(saveTimeout: Option<nat>, scheduled: seq<Timer>, fired: nat)
    requires Coherent(saveTimeout, scheduled)
    requires forall t | t in scheduled :: t.handle != fired
    ensures Coherent(SettledTimeout(saveTimeout, fired), scheduled)
    ensures scheduled != [] ==> !Coherent(SettleAsWritten(saveTimeout, fired), scheduled)
  {
  }

  /**
   * The orphaned timer, as written. On document A a message is added (timer 1),
   * timer 1 fires and its save is in flight, a second message is added (timer
   * 2 replaces it), the save completes and the callback nulls `saveTimeout`;
   * the switch to B then has nothing to cancel, and timer 2, bound to A, stays
   * pending. When it fires it stores the history then shown, B's, under A's name.
   */
  lemma OrphanedTimerAsWritten()
    ensures var afterFirstAdd := Schedule(None, [], 1, "A");
      var afterFire := afterFirstAdd[1..];
      var afterSecondAdd := Schedule(Some(1), afterFire, 2, "A");
      var afterSave := SettleAsWritten(Some(2), 1);
      Cancel(afterSave, afterSecondAdd) == [Timer(2, "A")]
  {
  }

  /** The same steps with the guarded settle: the switch cancels timer 2 and nothing stays pending. */
  lemma OrphanedTimerCorrected()
    ensures var afterFirstAdd := Schedule(None, [], 1, "A");
      var afterFire := afterFirstAdd[1..];
      var afterSecondAdd := Schedule(Some(1), afterFire, 2, "A");
      var afterSave := SettledTimeout(Some(2), 1);
      Cancel(afterSave, afterSecondAdd) == []
  {
  }

  class ChatHistory {
    /** `CHAT_HISTORY_PREFIX`. */
    const prefix: string
    /** The plugin's data store, by storage name. */
    var storage: map<string, Blob>
    var messages: seq<Message>
    var currentDocumentId: Option<string>
    var isSaving: bool
    var saveTimeout: Option<nat>
    /** The callbacks set and not yet run or cleared, oldest first. */
    var scheduled: seq<Timer>
    /** The handle the next `setTimeout` returns. */
    var nextHandle: nat
    var inFlight: Option<InFlightSave>

    /**
     * `isSaving` is set exactly while a save is in flight; at most one timer is
     * pending and `saveTimeout` names it; handles are issued in increasing
     * order, so a timer set after one fired has a different handle.
     */
    ghost predicate Valid()
      reads this
    {
      && (isSaving <==> inFlight.Some?)
      && Coherent(saveTimeout, scheduled)
      && (forall t | t in scheduled :: t.handle < nextHandle)
      && (inFlight.Some? && inFlight.value.firedBy.Some? ==>
            && inFlight.value.firedBy.value < nextHandle
            && forall t | t in scheduled :: t.handle != inFlight.value.firedBy.value)
    }

    /** A fresh composable over the plugin's existing data. */
    constructor (prefix: string, storage: map<string, Blob>)
      ensures Valid()
      ensures this.prefix == prefix && this.storage == storage
      ensures messages == [] && currentDocumentId == None && !isSaving
      ensures saveTimeout == None && scheduled == [] && inFlight == None
    {
      this.prefix := prefix;
      this.storage := storage;
      messages := [];
      currentDocumentId := None;
      isSaving := false;
      saveTimeout := None;
      scheduled := [];
      nextHandle := 1;
      inFlight := None;
    }

    /** `loadChatHistory(documentId)`; `readFails` says whether `plugin.loadData` throws. */
    method LoadChatHistory(documentId: string, readFails: bool)
      modifies this
      ensures messages == (if readFails then [] else StoredHistory(storage, StorageName(prefix, documentId)))
      ensures storage == old(storage) && currentDocumentId == old(currentDocumentId)
      ensures isSaving == old(isSaving) && inFlight == old(inFlight)
      ensures saveTimeout == old(saveTimeout) && scheduled == old(scheduled) && nextHandle == old(nextHandle)
    {
      if readFails {
        messages := [];
        return;
      }
      var storageName := StorageName(prefix, documentId);
      var result := if storageName in storage then Some(storage[storageName]) else None;
      if result.Some? && result.value.ErrorObject? {
        messages := [];
        return;
      }
      if result.Some? && result.value.MessageArray? {
        messages := result.value.items;
      } else {
        messages := [];
      }
    }

    /** The synchronous part of `saveChatHistory(documentId)`, for a call from `firedBy`'s callback or from outside. */
    method StartSave(documentId: string, firedBy: Option<nat>) returns (started: bool)
      requires Valid()
      requires firedBy.Some? ==> firedBy.value < nextHandle && forall t | t in scheduled :: t.handle != firedBy.value
      modifies this
      ensures Valid()
      ensures started <==> documentId != "" && !old(isSaving)
      ensures started ==> inFlight == Some(InFlightSave(StorageName(prefix, documentId), messages, firedBy))
      ensures !started ==> inFlight == old(inFlight)
      ensures isSaving == (old(isSaving) || started)
      ensures storage == old(storage) && messages == old(messages) && currentDocumentId == old(currentDocumentId)
      ensures saveTimeout == old(saveTimeout) && scheduled == old(scheduled) && nextHandle == old(nextHandle)
    {
      if documentId == "" || isSaving {
        return false;
      }
      isSaving := true;
      inFlight := Some(InFlightSave(StorageName(prefix, documentId), messages, firedBy));
      started := true;
    }

    /** `saveChatHistory(documentId)` called directly: dropped when the id is empty or a save is in flight. */
    method SaveChatHistory(documentId: string) returns (started: bool)
      requires Valid()
      modifies this
      ensures Valid()
      ensures started <==> documentId != "" && !old(isSaving)
      ensures started ==> inFlight == Some(InFlightSave(StorageName(prefix, documentId), messages, None))
      ensures !started ==> inFlight == old(inFlight)
      ensures isSaving == (old(isSaving) || started)
      ensures storage == old(storage) && messages == old(messages) && currentDocumentId == old(currentDocumentId)
      ensures saveTimeout == old(saveTimeout) && scheduled == old(scheduled) && nextHandle == old(nextHandle)
    {
      started := StartSave(documentId, None);
    }

    /**
     * The in-flight `plugin.saveData` settles: the snapshot is stored unless the
     * write failed, `isSaving` is cleared either way, and when a timer started
     * the save its callback then settles `saveTimeout`.
     */
    method CompleteSave(writeFails: bool)
      requires Valid() && isSaving
      modifies this
      ensures Valid() && !isSaving && inFlight == None
      ensures storage == Written(old(storage), old(inFlight), writeFails)
      ensures saveTimeout == (if old(inFlight.value.firedBy).Some? then SettledTimeout(old(saveTimeout), old(inFlight.value.firedBy.value))
                              else old(saveTimeout))
      ensures messages == old(messages) && currentDocumentId == old(currentDocumentId)
      ensures scheduled == old(scheduled) && nextHandle == old(nextHandle)
    {
      var save := inFlight.value;
      if !writeFails {
        storage := storage[save.key := MessageArray(save.snapshot)];
      }
      isSaving := false;
      inFlight := None;
      if save.firedBy.Some? {
        GuardedSettleKeepsCoherent(saveTimeout, scheduled, save.firedBy.value);
        saveTimeout := SettledTimeout(saveTimeout, save.firedBy.value);
      }
    }

    /** `debouncedSave(documentId)`: replace the pending timer, if any, by one bound to this id. */
    method DebouncedSave(documentId: Option<string>)
      requires Valid()
      modifies this
      ensures Valid()
      ensures !Truthy(documentId) ==> saveTimeout == old(saveTimeout) && scheduled == old(scheduled) && nextHandle == old(nextHandle)
      ensures Truthy(documentId) ==>
        && saveTimeout == Some(old(nextHandle))
        && scheduled == Schedule(old(saveTimeout), old(scheduled), old(nextHandle), documentId.value)
        && scheduled == [Timer(old(nextHandle), documentId.value)]
        && nextHandle == old(nextHandle) + 1
      ensures storage == old(storage) && messages == old(messages) && currentDocumentId == old(currentDocumentId)
      ensures isSaving == old(isSaving) && inFlight == old(inFlight)
    {
      if !Truthy(documentId) {
        return;
      }
      ScheduleKeepsCoherent(saveTimeout, scheduled, nextHandle, documentId.value);
      scheduled := Cancel(saveTimeout, scheduled);
      scheduled := scheduled + [Timer(nextHandle, documentId.value)];
      saveTimeout := Some(nextHandle);
      nextHandle := nextHandle + 1;
    }

    /**
     * The pending callback runs: it calls `saveChatHistory` with its captured
     * id, and when that save is dropped the callback settles at once.
     */
    method Fire()
      requires Valid() && scheduled != []
      modifies this
      ensures Valid() && scheduled == []
      ensures var t := old(scheduled[0]);
        && (t.documentId != "" && !old(isSaving) ==>
              isSaving && inFlight == Some(InFlightSave(StorageName(prefix, t.documentId), messages, Some(t.handle)))
              && saveTimeout == old(saveTimeout))
        && (t.documentId == "" || old(isSaving) ==>
              isSaving == old(isSaving) && inFlight == old(inFlight) && saveTimeout == None)
      ensures storage == old(storage) && messages == old(messages) && currentDocumentId == old(currentDocumentId)
      ensures nextHandle == old(nextHandle)
    {
      var t := scheduled[0];
      scheduled := scheduled[1..];
      var started := StartSave(t.documentId, Some(t.handle));
      if !started {
        saveTimeout := SettledTimeout(saveTimeout, t.handle);
      }
    }

    /**
     * `switchToDocument(newDocumentId)`: cancel the pending timer without
     * saving, wait out an in-flight save, load the new history (empty for no
     * id) and only then record the new id. `writeFails` is the fate of the
     * awaited save, `readFails` that of the load.
     */
    method SwitchToDocument(newDocumentId: Option<string>, writeFails: bool, readFails: bool)
      requires Valid()
      modifies this
      ensures Valid() && !isSaving && inFlight == None
      ensures saveTimeout == None && scheduled == [] && nextHandle == old(nextHandle)
      ensures storage == Written(old(storage), old(inFlight), writeFails)
      ensures Truthy(newDocumentId) ==>
        messages == (if readFails then [] else StoredHistory(storage, StorageName(prefix, newDocumentId.value)))
      ensures !Truthy(newDocumentId) ==> messages == []
      ensures currentDocumentId == newDocumentId
    {
      CoherentCancelLeavesNothing(saveTimeout, scheduled);
      if saveTimeout.Some? {
        scheduled := Cancel(saveTimeout, scheduled);
        saveTimeout := None;
      }
      ghost var storage0, inFlight0 := storage, inFlight;
      while isSaving
        invariant Valid() && saveTimeout == None && scheduled == [] && nextHandle == old(nextHandle)
        invariant isSaving ==> storage == storage0 && inFlight == inFlight0
        invariant !isSaving ==> storage == Written(storage0, inFlight0, writeFails)
        decreases if isSaving then 1 else 0
      {
        CompleteSave(writeFails);
      }
      if Truthy(newDocumentId) {
        LoadChatHistory(newDocumentId.value, readFails);
      } else {
        messages := [];
      }
      currentDocumentId := newDocumentId;
    }

    /** `addMessageToHistory(message)`: append, then debounce a save of the current document. */
    method AddMessageToHistory(message: Message)
      requires Valid()
      modifies this
      ensures Valid()
      ensures messages == old(messages) + [message]
      ensures !Truthy(currentDocumentId) ==> saveTimeout == old(saveTimeout) && scheduled == old(scheduled) && nextHandle == old(nextHandle)
      ensures Truthy(currentDocumentId) ==>
        && saveTimeout == Some(old(nextHandle))
        && scheduled == [Timer(old(nextHandle), currentDocumentId.value)]
        && nextHandle == old(nextHandle) + 1
      ensures storage == old(storage) && currentDocumentId == old(currentDocumentId)
      ensures isSaving == old(isSaving) && inFlight == old(inFlight)
    {
      messages := messages + [message];
      DebouncedSave(currentDocumentId);
    }

    /** `clearHistory()`: empty the list, then debounce a save of the current document. */
    method ClearHistory()
      requires Valid()
      modifies this
      ensures Valid()
      ensures messages == []
      ensures !Truthy(currentDocumentId) ==> saveTimeout == old(saveTimeout) && scheduled == old(scheduled) && nextHandle == old(nextHandle)
      ensures Truthy(currentDocumentId) ==>
        && saveTimeout == Some(old(nextHandle))
        && scheduled == [Timer(old(nextHandle), currentDocumentId.value)]
        && nextHandle == old(nextHandle) + 1
      ensures storage == old(storage) && currentDocumentId == old(currentDocumentId)
      ensures isSaving == old(isSaving) && inFlight == old(inFlight)
    {
      messages := [];
      DebouncedSave(currentDocumentId);
    }
  }

  /** A completed save under a document, then a switch to it, restores exactly the saved list. */
  method SavedHistoryRestored(h: ChatHistory, documentId: string)
    requires h.Valid() && !h.isSaving && documentId != ""
    modifies h
    ensures h.messages == old(h.messages) && h.currentDocumentId == Some(documentId)
    ensures StorageName(h.prefix, documentId) in h.storage
    ensures h.storage[StorageName(h.prefix, documentId)] == MessageArray(old(h.messages))
  {
    var saved := h.messages;
    var started := h.SaveChatHistory(documentId);
    h.CompleteSave(false);
    h.SwitchToDocument(Some(documentId), false, false);
    ReadAfterWrite(old(h.storage), h.prefix, documentId, documentId, saved);
  }

  /**
   * The steps of `OrphanedTimerAsWritten` on the composable with the guarded
   * settle: A keeps the history its completed save wrote, B's history is not
   * written under A's name, and nothing is left pending. The second message,
   * whose timer the switch cancelled, is not stored: switching drops pending edits.
   */
  method SwitchAfterSaveKeepsHistories(prefix: string, m1: Message, m2: Message, mb: Message)
    returns (storedUnderA: Blob, storedUnderB: Blob)
    ensures storedUnderA == MessageArray([m1]) && storedUnderB == MessageArray([mb])
  {
    var keyA, keyB := StorageName(prefix, "A"), StorageName(prefix, "B");
    StorageNameInjective(prefix, "A", "B");
    var h := new ChatHistory(prefix, map[keyB := MessageArray([mb])]);
    h.SwitchToDocument(Some("A"), false, false);
    assert h.storage == map[keyB := MessageArray([mb])] && h.messages == [];
    h.AddMessageToHistory(m1);
    assert h.scheduled[0].documentId == "A" && h.messages == [m1];
    h.Fire();
    assert h.inFlight.Some? && h.inFlight.value.key == keyA && h.inFlight.value.snapshot == [m1];
    h.AddMessageToHistory(m2);
    h.CompleteSave(false);
    assert h.storage == map[keyB := MessageArray([mb]), keyA := MessageArray([m1])];
    h.SwitchToDocument(Some("B"), false, false);
    storedUnderA, storedUnderB := h.storage[keyA], h.storage[keyB];
  }
}
