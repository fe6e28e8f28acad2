/**
 * The mirror log store (src/hooks/use-mirror-log.ts): an in-memory list of
 * saved entries, newest first, mirrored after every change into one browser
 * storage slot.
 */
module MirrorLog {
  import opened Types

  /** The one storage key the log lives under. */
  const StorageKey := "deception-mirror-log"

  /**
   * The storage slot: empty, holding text that does not parse, or holding a
   * serialized list (serialization itself is not modelled).
   */
  datatype Stored = Missing | Unreadable | Snapshot(entries: seq<LogEntry>)

  /** The entry `addLogEntry` builds; `id` and `timestamp` come from the clock and randomness. */
  function NewEntry(data: EntryData, id: string, timestamp: int): (e: LogEntry)
    ensures e.claim == data.claim && e.verticals == data.verticals && e.result == data.result
    ensures e.id == id && e.timestamp == timestamp
  {
    LogEntry(id, data.claim, data.verticals, data.result, timestamp)
  }

  /** `entries.filter(entry => entry.id !== id)`. */
  function WithoutId(entries: seq<LogEntry>, id: string): (r: seq<LogEntry>)
    ensures |r| <= |entries|
    ensures forall e :: e in r <==> e in entries && e.id != id
  {
    if entries == [] then []
    else if entries[0].id == id then WithoutId(entries[1..], id)
    else [entries[0]] + WithoutId(entries[1..], id)
  }

  /** Filtering splits over concatenation, so the kept entries stay in their order. */
  lemma {:induction false} WithoutIdDistributes(a: seq<LogEntry>, b: seq<LogEntry>, id: string)
    ensures WithoutId(a + b, id) == WithoutId(a, id) + WithoutId(b, id)
    decreases |a|
  {
    if a != [] {
      assert (a + b)[1..] == a[1..] + b;
      WithoutIdDistributes(a[1..], b, id);
    } else {
      assert a + b == b;
    }
  }

  /** Deleting an id that no entry has leaves the list unchanged. */
  lemma {:induction false} WithoutAbsentId(entries: seq<LogEntry>, id: string)
    requires forall i :: 0 <= i < |entries| ==> entries[i].id != id
    ensures WithoutId(entries, id) == entries
    decreases |entries|
  {
    if entries != [] {
      WithoutAbsentId(entries[1..], id);
    }
  }

  /** Deleting twice is the same as deleting once. */
  lemma WithoutIdIdempotent(entries: seq<LogEntry>, id: string)
    ensures WithoutId(WithoutId(entries, id), id) == WithoutId(entries, id)
  {
    var once := WithoutId(entries, id);
    forall i | 0 <= i < |once| ensures once[i].id != id {
      assert once[i] in once;
    }
    WithoutAbsentId(once, id);
  }

  /** Deleting a freshly added entry by its id restores the list it was added to. */
  lemma DeleteUndoesAdd(entries: seq<LogEntry>, data: EntryData, id: string, timestamp: int)
    requires forall i :: 0 <= i < |entries| ==> entries[i].id != id
    ensures WithoutId([NewEntry(data, id, timestamp)] + entries, id) == entries
  {
    assert ([NewEntry(data, id, timestamp)] + entries)[1..] == entries;
    WithoutAbsentId(entries, id);
  }

  /** The entries the load effect takes from the slot: a readable snapshot, else none. */
  function LoadedEntries(stored: Stored): seq<LogEntry>
  {
    if stored.Snapshot? then stored.entries else []
  }

  /** The browser's storage slot under `StorageKey`; every log instance shares it. */
  class Storage {
    var slot: Stored

    constructor (initial: Stored)
      ensures slot == initial
    {
      slot := initial;
    }
  }

  /**
   * One `useMirrorLog` instance: its own list of entries, mirrored into the
   * shared slot after every change. It never reads the slot again after
   * loading.
   */
  class LogStore {
    var entries: seq<LogEntry>
    const storage: Storage

    /** The initial empty list, then the load effect: a readable snapshot replaces it. */
    constructor (storage: Storage)
      ensures this.storage == storage && storage.slot == old(storage.slot)
      ensures entries == LoadedEntries(storage.slot)
    {
      this.storage := storage;
      entries := [];
      if storage.slot.Snapshot? {
        entries := storage.slot.entries;
      }
    }

    /** `addLogEntry`: the new entry goes first, then this instance's list is written to the slot. */
    method AddLogEntry(data: EntryData, id: string, timestamp: int) returns (entry: LogEntry)
      modifies this, storage
      ensures entry == NewEntry(data, id, timestamp)
      ensures entries == [entry] + old(entries)
      ensures storage.slot == Snapshot(entries)
    {
      entry := NewEntry(data, id, timestamp);
      entries := [entry] + entries;
      storage.slot := Snapshot(entries);
    }

    /** `deleteLogEntry`: every entry with that id goes, the rest keep their order. */
    method DeleteLogEntry(id: string)
      modifies this, storage
      ensures entries == WithoutId(old(entries), id)
      ensures storage.slot == Snapshot(entries)
    {
      entries := WithoutId(entries, id);
      storage.slot := Snapshot(entries);
    }

    /** `clearLog`: both the list and the slot become empty. */
    method ClearLog()
      modifies this, storage
      ensures entries == [] && storage.slot == Snapshot([])
    {
      entries := [];
      storage.slot := Snapshot([]);
    }
  }

  /**
   * The home page and the list view each mount their own instance over the
   * one slot. A delete in the list view is undone by the page's next save:
   * the page writes the new entry in front of its own copy, loaded before the
   * delete, so every deleted entry is back in storage.
   */
  method ListDeleteUndoneByPageSave(stored: Stored, id: string, data: EntryData, newId: string, timestamp: int)
    returns (afterDelete: Stored, afterSave: Stored)
    ensures afterDelete == Snapshot(WithoutId(LoadedEntries(stored), id))
    ensures afterSave == Snapshot([NewEntry(data, newId, timestamp)] + LoadedEntries(stored))
    ensures forall e :: e in LoadedEntries(stored) && e.id == id ==>
      e !in afterDelete.entries && e in afterSave.entries
  {
    var slot := new Storage(stored);
    var page := new LogStore(slot);
    var list := new LogStore(slot);
    list.DeleteLogEntry(id);
    afterDelete := slot.slot;
    var saved := page.AddLogEntry(data, newId, timestamp);
    afterSave := slot.slot;
  }

  /** Clearing the log in the list view is undone in the same way by the page's next save. */
  method ListClearUndoneByPageSave(stored: Stored, data: EntryData, newId: string, timestamp: int)
    returns (afterClear: Stored, afterSave: Stored)
    ensures afterClear == Snapshot([])
    ensures afterSave == Snapshot([NewEntry(data, newId, timestamp)] + LoadedEntries(stored))
  {
    var slot := new Storage(stored);
    var page := new LogStore(slot);
    var list := new LogStore(slot);
    list.ClearLog();
    afterClear := slot.slot;
    var saved := page.AddLogEntry(data, newId, timestamp);
    afterSave := slot.slot;
  }

  /**
   * The reverse loses a save: an entry saved from the page is not in the list
   * view's copy, so the list view's next delete, of any id, drops it from
   * storage.
   */
  method PageSaveLostByListDelete(stored: Stored, data: EntryData, newId: string, timestamp: int, id: string)
    returns (afterSave: Stored, afterDelete: Stored)
    requires forall i :: 0 <= i < |LoadedEntries(stored)| ==> LoadedEntries(stored)[i].id != newId
    ensures afterSave == Snapshot([NewEntry(data, newId, timestamp)] + LoadedEntries(stored))
    ensures afterDelete == Snapshot(WithoutId(LoadedEntries(stored), id))
    ensures NewEntry(data, newId, timestamp) in afterSave.entries
    ensures NewEntry(data, newId, timestamp) !in afterDelete.entries
  {
    var slot := new Storage(stored);
    var page := new LogStore(slot);
    var list := new LogStore(slot);
    var saved := page.AddLogEntry(data, newId, timestamp);
    afterSave := slot.slot;
    list.DeleteLogEntry(id);
    afterDelete := slot.slot;
    assert saved.id == newId;
    assert saved !in LoadedEntries(stored);
  }
}
